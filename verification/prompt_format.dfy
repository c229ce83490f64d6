/**
 * The placeholder substitution a LangChain f-string `PromptTemplate` applies
 * when it is invoked: Python's `str.format` with keyword arguments only.
 * `{{` and `}}` stand for literal braces, `{name}` is replaced by the value
 * bound to `name`, and a lone brace or an unbound name is an error.
 * Values are inserted as they are; they are never scanned for braces.
 */
module PromptFormat {
  import opened Wrappers

  datatype FormatError =
    | UnmatchedOpen            // a '{' with no '}' after it
    | UnmatchedClose           // a '}' that is neither doubled nor closes a field
    | MissingKey(name: string) // a field whose name has no value

  /** Text that `str.format` copies unchanged. */
  predicate BraceFree(s: string) {
    '{' !in s && '}' !in s
  }

  /** Text known to hold no brace. */
  type Plain = s: string | BraceFree(s) witness ""

  /** The replacement field for `name`, as it appears in a template. */
  function Field(name: string): string {
    "{" + name + "}"
  }

  /** Puts `s` in front of a successful result; passes an error through. */
  function Prepend<E>(s: string, r: Result<string, E>): Result<string, E> {
    match r
    case Success(v) => Success(s + v)
    case Failure(e) => Failure(e)
  }

  /** The index of the first '}' in `t` at or after `i`, or `|t|` if there is none. */
  function CloseIndex(t: string, i: nat): (k: nat)
    requires i <= |t|
    ensures i <= k <= |t|
    ensures forall j :: i <= j < k ==> t[j] != '}'
    ensures k < |t| ==> t[k] == '}'
    decreases |t| - i
  {
    if i == |t| || t[i] == '}' then i else CloseIndex(t, i + 1)
  }

  /** Formats template `t` with the keyword arguments `values`. */
  function Format(t: string, values: map<string, string>): Result<string, FormatError>
    decreases |t|
  {
    if |t| == 0 then Success("")
    else if t[0] == '{' then
      if 1 < |t| && t[1] == '{' then Prepend("{", Format(t[2..], values))
      else
        var k := CloseIndex(t, 1);
        if k == |t| then Failure(UnmatchedOpen)
        else if t[1..k] !in values then Failure(MissingKey(t[1..k]))
        else Prepend(values[t[1..k]], Format(t[k + 1..], values))
    else if t[0] == '}' then
      if 1 < |t| && t[1] == '}' then Prepend("}", Format(t[2..], values))
      else Failure(UnmatchedClose)
    else Prepend([t[0]], Format(t[1..], values))
  }

  /** A text is its first character followed by the rest, and the rest keeps it brace-free. */
  lemma TailOf(t: string)
    requires t != []
    ensures [t[0]] + t[1..] == t
    ensures BraceFree(t) ==> BraceFree(t[1..])
  {
    assert forall c :: c in t[1..] ==> c in t;
  }

  /** A template described as literal text and named fields. */
  datatype Piece = Text(text: string) | Slot(name: string)

  /** The template text a sequence of pieces spells. */
  function Assemble(ps: seq<Piece>): string
    decreases |ps|
  {
    if ps == [] then ""
    else
      match ps[0]
      case Text(s) => s + Assemble(ps[1..])
      case Slot(n) => Field(n) + Assemble(ps[1..])
  }

  /** A piece that formats to itself or to its value. */
  predicate PieceOk(p: Piece, values: map<string, string>) {
    match p
    case Text(s) => BraceFree(s)
    case Slot(n) => BraceFree(n) && n in values
  }

  predicate WellFormed(ps: seq<Piece>, values: map<string, string>) {
    forall i :: 0 <= i < |ps| ==> PieceOk(ps[i], values)
  }

  /** The text with every field replaced by its value: what formatting should produce. */
  function Fill(ps: seq<Piece>, values: map<string, string>): string
    requires WellFormed(ps, values)
    decreases |ps|
  {
    if ps == [] then ""
    else
      assert PieceOk(ps[0], values);
      match ps[0]
      case Text(s) => s + Fill(ps[1..], values)
      case Slot(n) => values[n] + Fill(ps[1..], values)
  }

  /** The text one piece contributes once formatted. */
  function PieceValue(p: Piece, values: map<string, string>): string
    requires PieceOk(p, values)
  {
    match p
    case Text(s) => s
    case Slot(n) => values[n]
  }

  /** Assembling works piece by piece from the front. */
  lemma AssembleCons(p: Piece, ps: seq<Piece>)
    ensures Assemble([p] + ps) == Assemble([p]) + Assemble(ps)
    ensures Assemble([p]) == (match p case Text(s) => s case Slot(n) => Field(n))
  {
    var qs := [p] + ps;
    assert qs[0] == p;
    assert qs[1..] == ps;
    assert [p][1..] == [];
  }

  /** Filling and assembling both work piece by piece from the front. */
  lemma FillCons(p: Piece, ps: seq<Piece>, values: map<string, string>)
    requires PieceOk(p, values) && WellFormed(ps, values)
    ensures WellFormed([p] + ps, values)
    ensures Fill([p] + ps, values) == PieceValue(p, values) + Fill(ps, values)
    ensures Assemble([p] + ps) == Assemble([p]) + Assemble(ps)
  {
    var qs := [p] + ps;
    assert qs[0] == p;
    assert qs[1..] == ps;
    assert WellFormed(qs, values) by {
      forall i | 0 <= i < |qs| ensures PieceOk(qs[i], values) {
        if i > 0 { assert qs[i] == ps[i - 1]; }
      }
    }
    assert [p][1..] == [];
  }

  /** A single piece fills to its own contribution. */
  lemma FillOne(p: Piece, values: map<string, string>)
    requires PieceOk(p, values)
    ensures WellFormed([p], values)
    ensures Fill([p], values) == PieceValue(p, values)
    ensures Assemble([p]) == (match p case Text(s) => s case Slot(n) => Field(n))
  {
    assert [p][1..] == [];
  }

  /** Two prefixes put in front one after the other are one prefix of both. */
  lemma PrependPrepend<E>(s1: string, s2: string, r: Result<string, E>)
    ensures Prepend(s1, Prepend(s2, r)) == Prepend(s1 + s2, r)
  {
    if r.Success? {
      assert s1 + (s2 + r.value) == (s1 + s2) + r.value;
    }
  }

  /** Brace-free text in front of the rest of a template is copied unchanged. */
  lemma {:induction false} FormatText(a: string, rest: string, values: map<string, string>)
    requires BraceFree(a)
    ensures Format(a + rest, values) == Prepend(a, Format(rest, values))
    decreases |a|
  {
    if a == [] {
      assert a + rest == rest;
      match Format(rest, values)
      case Success(v) => assert a + v == v;
      case Failure(_) =>
    } else {
      var t := a + rest;
      assert t[0] == a[0];
      assert t[1..] == a[1..] + rest;
      TailOf(a);
      FormatText(a[1..], rest, values);
      PrependPrepend([a[0]], a[1..], Format(rest, values));
    }
  }

  /** Text without braces formats to itself, whatever the values. */
  lemma FormatPlain(t: string, values: map<string, string>)
    requires BraceFree(t)
    ensures Format(t, values) == Success(t)
  {
    FormatText(t, "", values);
    assert t + "" == t;
  }

  /** Brace-free text in front of a template that fails keeps it failing. */
  lemma FailureAfterText(a: string, t: string, whole: string, values: map<string, string>)
    requires BraceFree(a) && whole == a + t && Format(t, values).Failure?
    ensures Format(whole, values).Failure?
  {
    FormatText(a, t, values);
  }

  /** A field whose name is bound is replaced by its value, literally. */
  lemma FormatSlot(name: string, rest: string, values: map<string, string>)
    requires BraceFree(name) && name in values
    ensures Format(Field(name) + rest, values) == Prepend(values[name], Format(rest, values))
  {
    var t := Field(name) + rest;
    assert t[0] == '{';
    assert t[1] != '{' by {
      if |name| > 0 { assert t[1] == name[0]; } else { assert t[1] == '}'; }
    }
    assert t[1 + |name|] == '}';
    assert forall j :: 1 <= j < 1 + |name| ==> t[j] == name[j - 1];
    var k := CloseIndex(t, 1);
    assert k == 1 + |name|;
    assert t[1..k] == name;
    assert t[k + 1..] == rest;
  }

  /** Formatting a well-formed template produces exactly its filled-in text. */
  lemma {:induction false} FormatAssembled(ps: seq<Piece>, values: map<string, string>)
    requires WellFormed(ps, values)
    ensures Format(Assemble(ps), values) == Success(Fill(ps, values))
    decreases |ps|
  {
    if ps == [] {
    } else {
      assert PieceOk(ps[0], values);
      assert WellFormed(ps[1..], values) by {
        forall i | 0 <= i < |ps[1..]| ensures PieceOk(ps[1..][i], values) {
          assert ps[1..][i] == ps[i + 1];
        }
      }
      FormatAssembled(ps[1..], values);
      match ps[0]
      case Text(s) => FormatText(s, Assemble(ps[1..]), values);
      case Slot(n) => FormatSlot(n, Assemble(ps[1..]), values);
    }
  }

  /** A '{' that opens a field no bound name can start makes formatting fail. */
  lemma UnboundFieldFails(t: string, values: map<string, string>)
    requires 1 < |t| && t[0] == '{' && t[1] != '{' && t[1] != '}'
    requires forall n | n in values :: n != [] && n[0] != t[1]
    ensures Format(t, values).Failure?
  {
    var k := CloseIndex(t, 1);
    if k < |t| {
      assert t[1..k][0] == t[1];
    }
  }

  /** A lone '{' in front of text that holds no '}' cannot be formatted. */
  lemma UnclosedFieldFails(rest: string, values: map<string, string>)
    requires '}' !in rest && (rest == [] || rest[0] != '{')
    ensures Format("{" + rest, values) == Failure(UnmatchedOpen)
  {
    var t := "{" + rest;
    assert t[0] == '{';
    assert forall j :: 1 <= j < |t| ==> t[j] == rest[j - 1];
    var k := CloseIndex(t, 1);
    assert k == |t|;
  }
}
