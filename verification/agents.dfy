/**
 * The three stage agents. Each agent splices its name and the protocol text
 * into a fixed template, formats the template with the run's values, sends
 * the resulting prompt to its backend once and returns the reply unchanged.
 */
module Agents {
  import opened Wrappers
  import opened PromptFormat
  import opened LlmFactory

  /** The failure a backend call raises (timeout, refused connection, ...). */
  datatype BackendError = BackendError(message: string)

  /**
   * The language model behind every backend: given the backend handle, the
   * prompts this run has already sent and the new prompt, a reply or a failure.
   */
  type Llm = (BackendConfig, seq<string>, string) -> Result<string, BackendError>

  datatype Role = DraftRole | CritiqueRole | RevisionRole

  /** An agent: its role fixes its name; backend handle and protocol are as given. */
  datatype Agent = Agent(role: Role, backend: BackendConfig, protocol: string) {
    function Name(): Plain {
      match role
      case DraftRole => "Draft Agent"
      case CritiqueRole => "Critique Agent"
      case RevisionRole => "Revision Agent"
    }
  }

  /** One backend call: the reply and the prompts sent so far, this one included. */
  datatype Exchange = Exchange(reply: Result<string, CallError>, sent: seq<string>)

  /** Why a stage produced no reply: its template did not format, or the backend call failed. */
  datatype CallError = TemplateFailed(formatError: FormatError) | BackendFailed(backendError: BackendError)

  // Placeholder names.
  const UserRequestVar: Plain := "user_request"
  const DraftOutputVar: Plain := "draft_output"
  const CritiqueVar: Plain := "critique"

  // The fixed template text, one line (or label) per constant. Each line is
  // written as runs of whole words of about a dozen characters, which keeps the
  // proof that it holds no brace small; the pieces read left to right.
  const YouAre: Plain := "You are "
  const ProtocolLabel: Plain := ".\n\n" + "PROTOCOL: "
  const TaskLabel: Plain := "\n\nTASK:\n"
  const RequestLabel: Plain := "\n\n" + "REQUEST: "
  const DraftLabel: Plain := "\n\nDRAFT: "
  const IssuesLabel: Plain := "\n\nISSUES: "

  const PlanLine: Plain := "\n\nProvide " + "a concise, " + "step-by-step " + "plan."
  const SpecificLine: Plain := " Be specific" + " and " + "actionable."
  const DraftInstruction: Plain := PlanLine + SpecificLine

  const FindLine: Plain := "\n\nFind " + "these " + "issues:\n"
  const LogicItem: Plain := "1. Logic " + "errors or " + "contradictions\n"
  const LoopItem: Plain := "2. Infinite" + " loops\n"
  const ErrorItem: Plain := "3. Missing " + "error " + "handling\n"
  const SecurityItem: Plain := "4. Security" + " issues\n"
  const IncompleteItem: Plain := "5. " + "Incomplete " + "parts\n\n"
  const ListLine: Plain := "List " + "specific " + "issues " + "and fixes."
  const CritiqueChecklist: Plain :=
    FindLine + LogicItem + LoopItem + ErrorItem + SecurityItem + IncompleteItem + ListLine

  const CreateLine: Plain := "\n\nCreate " + "the final " + "output " + "that:\n"
  const FixItem: Plain := "1. Fixes " + "all issues\n"
  const ImproveItem: Plain := "2. " + "Implements " + "improvements\n"
  const ReadyItem: Plain := "3. Is " + "production-ready\n\n"
  const CompleteLine: Plain := "Provide " + "the complete" + " corrected " + "version."
  const RevisionInstruction: Plain := CreateLine + FixItem + ImproveItem + ReadyItem + CompleteLine

  /** The opening every prompt of an agent shares: its name, then the protocol. */
  function Header(a: Agent): string {
    YouAre + a.Name() + ProtocolLabel + a.protocol
  }

  /** The structure of an agent's template once its name and protocol are spliced in. */
  function Pieces(a: Agent): seq<Piece> {
    match a.role
    case DraftRole =>
      [Text(Header(a) + TaskLabel), Slot(UserRequestVar), Text(DraftInstruction)]
    case CritiqueRole =>
      [Text(Header(a) + RequestLabel), Slot(UserRequestVar),
       Text(DraftLabel), Slot(DraftOutputVar), Text(CritiqueChecklist)]
    case RevisionRole =>
      [Text(Header(a) + RequestLabel), Slot(UserRequestVar),
       Text(DraftLabel), Slot(DraftOutputVar),
       Text(IssuesLabel), Slot(CritiqueVar), Text(RevisionInstruction)]
  }

  /** `create_prompt_template`: the template text, placeholders still in braces. */
  function Template(a: Agent): (t: string)
    ensures Header(a) <= t
  {
    AssembleCons(Pieces(a)[0], Pieces(a)[1..]);
    assert [Pieces(a)[0]] + Pieces(a)[1..] == Pieces(a);
    Assemble(Pieces(a))
  }

  // Reference texts of the three prompts: the run values between the fixed text.

  function DraftPrompt(protocol: string, request: string): string {
    YouAre + "Draft Agent" + ProtocolLabel + protocol + TaskLabel + request + DraftInstruction
  }

  function CritiquePrompt(protocol: string, request: string, draft: string): string {
    YouAre + "Critique Agent" + ProtocolLabel + protocol + RequestLabel + request
    + DraftLabel + draft + CritiqueChecklist
  }

  function RevisionPrompt(protocol: string, request: string, draft: string, critique: string): string {
    YouAre + "Revision Agent" + ProtocolLabel + protocol + RequestLabel + request
    + DraftLabel + draft + IssuesLabel + critique + RevisionInstruction
  }

  /** The agent's template is well formed for its values when the protocol holds no braces. */
  lemma TemplateWellFormed(a: Agent, values: map<string, string>)
    requires BraceFree(a.protocol)
    requires UserRequestVar in values
    requires a.role != DraftRole ==> DraftOutputVar in values
    requires a.role == RevisionRole ==> CritiqueVar in values
    ensures WellFormed(Pieces(a), values)
  {
    assert BraceFree(Header(a));
  }

  /** Formatting the draft template substitutes the request literally. */
  lemma RenderDraft(a: Agent, request: string)
    requires a.role == DraftRole && BraceFree(a.protocol)
    ensures Format(Template(a), map[UserRequestVar := request]) == Success(DraftPrompt(a.protocol, request))
  {
    var values := map[UserRequestVar := request];
    TemplateWellFormed(a, values);
    FormatAssembled(Pieces(a), values);
    var p0, p1, p2 := Text(Header(a) + TaskLabel), Slot(UserRequestVar), Text(DraftInstruction);
    assert Pieces(a) == [p0] + ([p1] + [p2]);
    FillOne(p2, values);
    FillCons(p1, [p2], values);
    FillCons(p0, [p1] + [p2], values);
    assert Fill(Pieces(a), values) == (Header(a) + TaskLabel) + (request + DraftInstruction);
    assert a.Name() == "Draft Agent";
    SeqAssoc5(YouAre + a.Name() + ProtocolLabel, a.protocol, TaskLabel, request, DraftInstruction);
  }

  /** Formatting the critique template substitutes request and draft literally, in that order. */
  lemma RenderCritique(a: Agent, request: string, draft: string)
    requires a.role == CritiqueRole && BraceFree(a.protocol)
    ensures Format(Template(a), map[UserRequestVar := request, DraftOutputVar := draft])
         == Success(CritiquePrompt(a.protocol, request, draft))
  {
    var values := map[UserRequestVar := request, DraftOutputVar := draft];
    TemplateWellFormed(a, values);
    FormatAssembled(Pieces(a), values);
    var p0, p1, p2, p3, p4 :=
      Text(Header(a) + RequestLabel), Slot(UserRequestVar), Text(DraftLabel), Slot(DraftOutputVar), Text(CritiqueChecklist);
    assert Pieces(a) == [p0] + ([p1] + ([p2] + ([p3] + [p4])));
    FillOne(p4, values);
    FillCons(p3, [p4], values);
    FillCons(p2, [p3] + [p4], values);
    FillCons(p1, [p2] + ([p3] + [p4]), values);
    FillCons(p0, [p1] + ([p2] + ([p3] + [p4])), values);
    assert a.Name() == "Critique Agent";
    SeqAssoc6(Header(a), RequestLabel, request, DraftLabel, draft, CritiqueChecklist);
  }

  /** Formatting the revision template substitutes request, draft and critique literally, in that order. */
  lemma RenderRevision(a: Agent, request: string, draft: string, critique: string)
    requires a.role == RevisionRole && BraceFree(a.protocol)
    ensures Format(Template(a), map[UserRequestVar := request, DraftOutputVar := draft, CritiqueVar := critique])
         == Success(RevisionPrompt(a.protocol, request, draft, critique))
  {
    var values := map[UserRequestVar := request, DraftOutputVar := draft, CritiqueVar := critique];
    TemplateWellFormed(a, values);
    FormatAssembled(Pieces(a), values);
    var p0, p1, p2, p3, p4, p5, p6 :=
      Text(Header(a) + RequestLabel), Slot(UserRequestVar), Text(DraftLabel), Slot(DraftOutputVar),
      Text(IssuesLabel), Slot(CritiqueVar), Text(RevisionInstruction);
    var tail4 := [p4] + ([p5] + [p6]);
    assert Pieces(a) == [p0] + ([p1] + ([p2] + ([p3] + tail4)));
    FillOne(p6, values);
    FillCons(p5, [p6], values);
    FillCons(p4, [p5] + [p6], values);
    FillCons(p3, tail4, values);
    FillCons(p2, [p3] + tail4, values);
    FillCons(p1, [p2] + ([p3] + tail4), values);
    FillCons(p0, [p1] + ([p2] + ([p3] + tail4)), values);
    assert a.Name() == "Revision Agent";
    SeqAssoc8(Header(a), RequestLabel, request, DraftLabel, draft, IssuesLabel, critique, RevisionInstruction);
  }

  /** The draft template is the header, the `TASK:` label, the `{user_request}` field and the instruction. */
  lemma DraftTemplateText(a: Agent)
    requires a.role == DraftRole
    ensures Template(a) == Header(a) + TaskLabel + Field(UserRequestVar) + DraftInstruction
  {
    var p0, p1, p2 := Text(Header(a) + TaskLabel), Slot(UserRequestVar), Text(DraftInstruction);
    assert Pieces(a) == [p0] + ([p1] + [p2]);
    AssembleCons(p2, []);
    AssembleCons(p1, [p2]);
    AssembleCons(p0, [p1] + [p2]);
  }

  /** A lone '{' directly before the `TASK:` label opens a field whose name no placeholder starts with. */
  lemma LoneOpenBeforeTaskFails(rest: string, request: string)
    ensures Format("{" + TaskLabel + rest, map[UserRequestVar := request]).Failure?
  {
    var t := "{" + TaskLabel + rest;
    assert t[0] == '{' && t[1] == '\n';
    UnboundFieldFails(t, map[UserRequestVar := request]);
  }

  /** With a protocol `head + "{"`, the draft template is brace-free text, then '{' before the `TASK:` label. */
  lemma DraftTemplateSplit(a: Agent, head: string)
    requires a.role == DraftRole && a.protocol == head + "{"
    ensures Template(a) == (YouAre + a.Name() + ProtocolLabel + head)
                         + ("{" + TaskLabel + (Field(UserRequestVar) + DraftInstruction))
  {
    DraftTemplateText(a);
    var h := YouAre + a.Name() + ProtocolLabel;
    assert Header(a) == h + (head + "{");
    Regroup(h, head, TaskLabel, Field(UserRequestVar), DraftInstruction, Template(a));
  }

  /** Regroups the draft template's concatenation so the lone '{' starts the tail. */
  lemma Regroup(h: string, head: string, s1: string, s2: string, s3: string, whole: string)
    requires whole == h + (head + "{") + s1 + s2 + s3
    ensures whole == (h + head) + ("{" + s1 + (s2 + s3))
  {
  }

  /** A protocol that ends in a lone '{' makes the draft template impossible to format. */
  lemma BracedProtocolBreaksDraft(a: Agent, head: string, request: string)
    requires a.role == DraftRole && BraceFree(head) && a.protocol == head + "{"
    ensures Format(Template(a), map[UserRequestVar := request]).Failure?
  {
    var prefix := YouAre + a.Name() + ProtocolLabel + head;
    var rest := Field(UserRequestVar) + DraftInstruction;
    DraftTemplateSplit(a, head);
    LoneOpenBeforeTaskFails(rest, request);
    FailureAfterText(prefix, "{" + TaskLabel + rest, Template(a), map[UserRequestVar := request]);
  }

  // Regrouping of concatenations, as the three renderings need it.

  lemma SeqAssoc5(s1: string, s2: string, s3: string, s4: string, s5: string)
    ensures (s1 + s2 + s3) + (s4 + s5) == s1 + s2 + s3 + s4 + s5
  {
  }

  lemma SeqAssoc6(h: string, s1: string, s2: string, s3: string, s4: string, s5: string)
    ensures (h + s1) + (s2 + (s3 + (s4 + s5))) == h + s1 + s2 + s3 + s4 + s5
  {
  }

  lemma SeqAssoc8(h: string, s1: string, s2: string, s3: string, s4: string, s5: string, s6: string, s7: string)
    ensures (h + s1) + (s2 + (s3 + (s4 + (s5 + (s6 + s7))))) == h + s1 + s2 + s3 + s4 + s5 + s6 + s7
  {
  }

  /**
   * Formats the agent's template with `values` and, if that succeeds, sends the
   * prompt through the agent's backend once. A formatting error is raised before
   * any call is made, so nothing is sent.
   */
  function Invoke(a: Agent, llm: Llm, sent: seq<string>, values: map<string, string>): (x: Exchange)
    ensures sent <= x.sent && |x.sent| <= |sent| + 1
    ensures |x.sent| == |sent| <==> Format(Template(a), values).Failure?
    ensures |x.sent| == |sent| ==> x.reply.Failure? && x.reply.error.TemplateFailed?
    ensures |x.sent| == |sent| + 1 ==>
      && x.sent[|sent|] == Format(Template(a), values).value
      && x.reply == Lift(llm(a.backend, sent, x.sent[|sent|]))
  {
    match Format(Template(a), values)
    case Failure(e) => Exchange(Failure(TemplateFailed(e)), sent)
    case Success(prompt) => Exchange(Lift(llm(a.backend, sent, prompt)), sent + [prompt])
  }

  /** What a backend call returns, seen from a stage: the reply unchanged, or the backend's error. */
  function Lift(r: Result<string, BackendError>): (s: Result<string, CallError>)
    ensures s.Success? <==> r.Success?
    ensures s.Success? ==> s.value == r.value
    ensures s.Failure? ==> s.error == BackendFailed(r.error)
  {
    match r
    case Success(text) => Success(text)
    case Failure(e) => Failure(BackendFailed(e))
  }

  /** `DraftAgent.generate`: one call with the rendered draft prompt; the reply is returned as is. */
  function Generate(a: Agent, llm: Llm, sent: seq<string>, request: string): (x: Exchange)
    requires a.role == DraftRole
    ensures BraceFree(a.protocol) ==>
      && x.sent == sent + [DraftPrompt(a.protocol, request)]
      && x.reply == Lift(llm(a.backend, sent, DraftPrompt(a.protocol, request)))
  {
    if BraceFree(a.protocol) then RenderDraft(a, request); Invoke(a, llm, sent, map[UserRequestVar := request])
    else Invoke(a, llm, sent, map[UserRequestVar := request])
  }

  /** `CritiqueAgent.critique`: one call with the rendered critique prompt. */
  function Critique(a: Agent, llm: Llm, sent: seq<string>, request: string, draft: string): (x: Exchange)
    requires a.role == CritiqueRole
    ensures BraceFree(a.protocol) ==>
      && x.sent == sent + [CritiquePrompt(a.protocol, request, draft)]
      && x.reply == Lift(llm(a.backend, sent, CritiquePrompt(a.protocol, request, draft)))
  {
    var values := map[UserRequestVar := request, DraftOutputVar := draft];
    if BraceFree(a.protocol) then RenderCritique(a, request, draft); Invoke(a, llm, sent, values)
    else Invoke(a, llm, sent, values)
  }

  /** `RevisionAgent.revise`: one call with the rendered revision prompt. */
  function Revise(a: Agent, llm: Llm, sent: seq<string>, request: string, draft: string, critique: string): (x: Exchange)
    requires a.role == RevisionRole
    ensures BraceFree(a.protocol) ==>
      && x.sent == sent + [RevisionPrompt(a.protocol, request, draft, critique)]
      && x.reply == Lift(llm(a.backend, sent, RevisionPrompt(a.protocol, request, draft, critique)))
  {
    var values := map[UserRequestVar := request, DraftOutputVar := draft, CritiqueVar := critique];
    if BraceFree(a.protocol) then RenderRevision(a, request, draft, critique); Invoke(a, llm, sent, values)
    else Invoke(a, llm, sent, values)
  }

  /** A draft agent whose protocol ends in a lone '{' fails before calling its backend. */
  lemma BracedDraftSendsNothing(a: Agent, head: string, llm: Llm, sent: seq<string>, request: string)
    requires a.role == DraftRole && BraceFree(head) && a.protocol == head + "{"
    ensures Generate(a, llm, sent, request).sent == sent
    ensures Generate(a, llm, sent, request).reply.Failure?
    ensures Generate(a, llm, sent, request).reply.error.TemplateFailed?
  {
    BracedProtocolBreaksDraft(a, head, request);
    assert !BraceFree(a.protocol) by { assert a.protocol[|head|] == '{'; }
  }

  /** Each stage sends exactly one prompt, or none when its template does not format. */
  lemma OneCallPerStage(a: Agent, llm: Llm, sent: seq<string>, values: map<string, string>)
    ensures var x := Invoke(a, llm, sent, values);
      && sent <= x.sent
      && |x.sent| == |sent| + (if Format(Template(a), values).Success? then 1 else 0)
  {
  }
}
