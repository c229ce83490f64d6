/**
 * The application's run logic: building the agent team for the selected
 * provider, the blank-request check, the draft -> critique -> revision
 * pipeline with its single result record, and the Clear button. Widgets,
 * spinners and messages are not modelled; the session is the `results` slot.
 */
module App {
  import opened Wrappers
  import opened PromptFormat
  import opened LlmFactory
  import opened Agents

  /** Python's `str.isspace` for one character: the Unicode whitespace code points. */
  predicate IsSpace(c: char) {
    || ('\t' <= c <= '\r')                 // U+0009 .. U+000D
    || ('\U{001C}' <= c <= '\U{001F}')     // file, group, record and unit separators
    || c == ' ' || c == '\U{0085}' || c == '\U{00A0}' || c == '\U{1680}'
    || ('\U{2000}' <= c <= '\U{200A}')
    || c == '\U{2028}' || c == '\U{2029}' || c == '\U{202F}' || c == '\U{205F}' || c == '\U{3000}'
  }

  /** Text made of whitespace only (the empty text included). */
  predicate IsBlank(s: string) {
    forall i :: 0 <= i < |s| ==> IsSpace(s[i])
  }

  /** `s.lstrip()`: drops the whitespace at the front. */
  function StripLeading(s: string): (r: string)
    ensures |r| <= |s| && r == s[|s| - |r|..]
    ensures forall i :: 0 <= i < |s| - |r| ==> IsSpace(s[i])
    ensures r == [] || !IsSpace(r[0])
    decreases |s|
  {
    if s != [] && IsSpace(s[0]) then StripLeading(s[1..]) else s
  }

  /** `s.rstrip()`: drops the whitespace at the back. */
  function StripTrailing(s: string): (r: string)
    ensures |r| <= |s| && r == s[..|r|]
    ensures forall i :: |r| <= i < |s| ==> IsSpace(s[i])
    ensures r == [] || !IsSpace(r[|r| - 1])
    decreases |s|
  {
    if s != [] && IsSpace(s[|s| - 1]) then StripTrailing(s[..|s| - 1]) else s
  }

  /** `s.strip()`. */
  function Strip(s: string): string {
    StripTrailing(StripLeading(s))
  }

  /** Stripping leaves nothing exactly when the text is whitespace only. */
  lemma {:induction false} StripEmptyIffBlank(s: string)
    ensures Strip(s) == [] <==> IsBlank(s)
  {
    var l := StripLeading(s);
    var off := |s| - |l|;
    assert forall j :: 0 <= j < |l| ==> l[j] == s[off + j];
    if IsBlank(s) {
      assert l == [];
    } else {
      var i :| 0 <= i < |s| && !IsSpace(s[i]);
      assert off <= i;
      assert !IsSpace(l[i - off]);
      assert |StripTrailing(l)| > i - off;
    }
  }

  /** Keys of the stored result record. */
  const RequestKey := "user_request"
  const DraftKey := "draft"
  const CritiqueKey := "critique"
  const RevisionKey := "revision"

  /** The session slot `results`: nothing yet, or the record of the last complete run. */
  datatype Session = Session(results: Option<map<string, string>>)

  /** The session at the start: `init_state` sets `results` to None. */
  const Initial := Session(None)

  /** The provider and model picked in the sidebar. */
  datatype Selection = Selection(provider: string, model: string)

  datatype Team = Team(draft: Agent, critique: Agent, revision: Agent)

  /** Why a run stored nothing. */
  datatype RunError =
    | BlankRequest                 // "Enter a request first"
    | SetupFailed(FactoryError)    // "Failed to setup agents: ..."
    | PhaseFailed(CallError)       // "Error: ..." from whichever phase raised

  /** The session after a run, the prompts sent, in order, and the error shown, if any. */
  datatype Run = Run(session: Session, sent: seq<string>, error: Option<RunError>)

  /** A team of the three roles, sharing one backend and one protocol text. */
  predicate TeamOf(team: Team, backend: BackendConfig, protocol: string) {
    && team.draft == Agent(DraftRole, backend, protocol)
    && team.critique == Agent(CritiqueRole, backend, protocol)
    && team.revision == Agent(RevisionRole, backend, protocol)
  }

  /** `create_agents`: one backend for the selection, then the three agents on it. */
  function CreateAgents(sel: Selection, installed: set<Provider>, env: Env, protocol: string): (r: Result<Team, FactoryError>)
    ensures var c := CreateLlm(sel.provider, Some(sel.model), installed, env);
      && (r.Success? <==> c.Success?)
      && (r.Failure? ==> r.error == c.error)
      && (r.Success? ==> TeamOf(r.value, c.value.backend, protocol))
  {
    match CreateLlm(sel.provider, Some(sel.model), installed, env)
    case Failure(e) => Failure(e)
    case Success(created) =>
      var b := created.backend;
      Success(Team(Agent(DraftRole, b, protocol), Agent(CritiqueRole, b, protocol), Agent(RevisionRole, b, protocol)))
  }

  /** The request check in front of a run: `not user_input or not user_input.strip()`. */
  predicate Rejected(userInput: string) {
    userInput == "" || Strip(userInput) == ""
  }

  /** The record a complete run stores, under its four keys. */
  function Record(request: string, draft: string, critique: string, revision: string): (m: map<string, string>)
    ensures m.Keys == {RequestKey, DraftKey, CritiqueKey, RevisionKey}
    ensures m[RequestKey] == request && m[DraftKey] == draft
    ensures m[CritiqueKey] == critique && m[RevisionKey] == revision
  {
    map[RequestKey := request, DraftKey := draft, CritiqueKey := critique, RevisionKey := revision]
  }

  /** A team whose agents have the roles their slots name. */
  predicate Staffed(team: Team) {
    team.draft.role == DraftRole && team.critique.role == CritiqueRole && team.revision.role == RevisionRole
  }

  /** A failed phase ends the run; the session keeps what it had. */
  function Abort(session: Session, x: Exchange): (r: Run)
    requires x.reply.Failure?
    ensures r.session == session && r.sent == x.sent
    ensures r.error.Some? && r.error.value.PhaseFailed?
  {
    Run(session, x.sent, Some(PhaseFailed(x.reply.error)))
  }

  /** The three phases in order, each fed the earlier replies; the first failure ends the run. */
  function RunPhases(session: Session, team: Team, userInput: string, llm: Llm): (r: Run)
    requires Staffed(team)
    ensures r.error.Some? ==> r.session == session && r.error.value.PhaseFailed?
    ensures r.error.None? ==>
      && r.session.results.Some?
      && r.session.results.value.Keys == {RequestKey, DraftKey, CritiqueKey, RevisionKey}
      && r.session.results.value[RequestKey] == userInput
      && |r.sent| == 3
    ensures |r.sent| <= 3
  {
    var d := Generate(team.draft, llm, [], userInput);
    if d.reply.Failure? then Abort(session, d)
    else
      var c := Critique(team.critique, llm, d.sent, userInput, d.reply.value);
      if c.reply.Failure? then Abort(session, c)
      else
        var v := Revise(team.revision, llm, c.sent, userInput, d.reply.value, c.reply.value);
        if v.reply.Failure? then Abort(session, v)
        else Run(Session(Some(Record(userInput, d.reply.value, c.reply.value, v.reply.value))), v.sent, None)
  }

  /**
   * What pressing "Execute Self-Audit" does: the request check, the agent
   * setup, then the three phases. Only a run in which all three phases reply
   * stores a record.
   */
  function Execute(session: Session, sel: Selection, userInput: string, installed: set<Provider>,
                   env: Env, protocol: string, llm: Llm): (r: Run)
    ensures r.error == Some(BlankRequest) <==> IsBlank(userInput)
    ensures r.error.Some? ==> r.session == session
    ensures r.error.None? ==>
      && r.session.results.Some?
      && r.session.results.value.Keys == {RequestKey, DraftKey, CritiqueKey, RevisionKey}
      && r.session.results.value[RequestKey] == userInput
      && |r.sent| == 3
    ensures |r.sent| <= 3
  {
    StripEmptyIffBlank(userInput);
    if Rejected(userInput) then Run(session, [], Some(BlankRequest))
    else
      match CreateAgents(sel, installed, env, protocol)
      case Failure(e) => Run(session, [], Some(SetupFailed(e)))
      case Success(team) => RunPhases(session, team, userInput, llm)
  }

  /** One script run of `main`: no provider stops it; Clear wins over Execute; Execute runs the pipeline; otherwise nothing changes. */
  function Step(session: Session, sel: Option<Selection>, clear: bool, go: bool, userInput: string,
                installed: set<Provider>, env: Env, protocol: string, llm: Llm): (r: Run)
    ensures sel.None? || (!clear && !go) ==> r == Run(session, [], None)
    ensures sel.Some? && clear ==> r == Run(Initial, [], None)
    ensures sel.Some? && !clear && go && IsBlank(userInput) ==> r == Run(session, [], Some(BlankRequest))
    ensures sel.Some? && !clear && go ==> r == Execute(session, sel.value, userInput, installed, env, protocol, llm)
    ensures r.error.Some? ==> r.session == session
  {
    if sel.None? then Run(session, [], None)
    else if clear then Run(Session(None), [], None)
    else if go then Execute(session, sel.value, userInput, installed, env, protocol, llm)
    else Run(session, [], None)
  }

  /** The agents of a team carry their fixed names, and sit in the slots their roles name. */
  lemma TeamNames(team: Team, backend: BackendConfig, protocol: string)
    requires TeamOf(team, backend, protocol)
    ensures Staffed(team)
    ensures team.draft.Name() == "Draft Agent"
    ensures team.critique.Name() == "Critique Agent"
    ensures team.revision.Name() == "Revision Agent"
  {
  }

  /** A blank request is refused before any agent is set up or any prompt sent. */
  lemma BlankRequestSendsNothing(session: Session, sel: Selection, userInput: string, installed: set<Provider>,
                                 env: Env, protocol: string, llm: Llm)
    requires IsBlank(userInput)
    ensures Execute(session, sel, userInput, installed, env, protocol, llm) == Run(session, [], Some(BlankRequest))
  {
    StripEmptyIffBlank(userInput);
  }

  /** When the backend cannot be created, no prompt is sent and the session keeps its record. */
  lemma SetupFailureSendsNothing(session: Session, sel: Selection, userInput: string, installed: set<Provider>,
                                 env: Env, protocol: string, llm: Llm)
    requires !IsBlank(userInput)
    requires CreateLlm(sel.provider, Some(sel.model), installed, env).Failure?
    ensures Execute(session, sel, userInput, installed, env, protocol, llm)
         == Run(session, [], Some(SetupFailed(CreateLlm(sel.provider, Some(sel.model), installed, env).error)))
  {
    StripEmptyIffBlank(userInput);
  }

  /** A provider offered in the sidebar can only fail setup for want of an API key. */
  lemma OfferedProviderSetup(session: Session, sel: Selection, userInput: string, installed: set<Provider>,
                             env: Env, protocol: string, llm: Llm)
    requires !IsBlank(userInput) && sel.provider in AvailableProviders(installed)
    ensures var r := Execute(session, sel, userInput, installed, env, protocol, llm);
      r.error.Some? && r.error.value.SetupFailed? ==> r.error.value == SetupFailed(MissingApiKey(ApiKeyVar(ParseProvider(sel.provider).value)))
  {
    StripEmptyIffBlank(userInput);
    var c := CreateLlm(sel.provider, Some(sel.model), installed, env);
    if c.Failure? {
      AvailableProvidersCreatable(sel.provider, Some(sel.model), installed, env);
      ProviderIdRoundTrip(ParseProvider(sel.provider).value, sel.provider);
    }
  }

  /**
   * The prompts of a run and what it stores: the draft prompt first; if the
   * draft came back, the critique prompt built from it; if that came back, the
   * revision prompt built from both; the record only when the revision came
   * back too, holding the request and the three replies unchanged.
   */
  lemma {:induction false} ExecuteThreadsPhases(session: Session, sel: Selection, userInput: string,
                                                installed: set<Provider>, env: Env, protocol: string, llm: Llm)
    requires !IsBlank(userInput) && BraceFree(protocol)
    requires CreateLlm(sel.provider, Some(sel.model), installed, env).Success?
    ensures
      var b := CreateLlm(sel.provider, Some(sel.model), installed, env).value.backend;
      var r := Execute(session, sel, userInput, installed, env, protocol, llm);
      var p1 := DraftPrompt(protocol, userInput);
      var d := llm(b, [], p1);
      && |r.sent| >= 1 && r.sent[0] == p1
      && (d.Failure? ==> r == Run(session, [p1], Some(PhaseFailed(BackendFailed(d.error)))))
      && (d.Success? ==>
            var p2 := CritiquePrompt(protocol, userInput, d.value);
            var c := llm(b, [p1], p2);
            && |r.sent| >= 2 && r.sent[1] == p2
            && (c.Failure? ==> r == Run(session, [p1, p2], Some(PhaseFailed(BackendFailed(c.error)))))
            && (c.Success? ==>
                  var p3 := RevisionPrompt(protocol, userInput, d.value, c.value);
                  var v := llm(b, [p1, p2], p3);
                  && r.sent == [p1, p2, p3]
                  && (v.Failure? ==> r == Run(session, [p1, p2, p3], Some(PhaseFailed(BackendFailed(v.error)))))
                  && (v.Success? ==> r == Run(Session(Some(Record(userInput, d.value, c.value, v.value))), [p1, p2, p3], None))))
  {
    StripEmptyIffBlank(userInput);
    var b := CreateLlm(sel.provider, Some(sel.model), installed, env).value.backend;
    var team := CreateAgents(sel, installed, env, protocol).value;
    assert TeamOf(team, b, protocol);
    PhasesTrace(session, team, b, protocol, userInput, llm);
  }

  /** `ExecuteThreadsPhases` for a team already set up. */
  lemma PhasesTrace(session: Session, team: Team, b: BackendConfig, protocol: string, userInput: string, llm: Llm)
    requires TeamOf(team, b, protocol) && BraceFree(protocol)
    ensures
      var r := RunPhases(session, team, userInput, llm);
      var p1 := DraftPrompt(protocol, userInput);
      var d := llm(b, [], p1);
      && |r.sent| >= 1 && r.sent[0] == p1
      && (d.Failure? ==> r == Run(session, [p1], Some(PhaseFailed(BackendFailed(d.error)))))
      && (d.Success? ==>
            var p2 := CritiquePrompt(protocol, userInput, d.value);
            var c := llm(b, [p1], p2);
            && |r.sent| >= 2 && r.sent[1] == p2
            && (c.Failure? ==> r == Run(session, [p1, p2], Some(PhaseFailed(BackendFailed(c.error)))))
            && (c.Success? ==>
                  var p3 := RevisionPrompt(protocol, userInput, d.value, c.value);
                  var v := llm(b, [p1, p2], p3);
                  && r.sent == [p1, p2, p3]
                  && (v.Failure? ==> r == Run(session, [p1, p2, p3], Some(PhaseFailed(BackendFailed(v.error)))))
                  && (v.Success? ==> r == Run(Session(Some(Record(userInput, d.value, c.value, v.value))), [p1, p2, p3], None))))
  {
    var p1 := DraftPrompt(protocol, userInput);
    var dx := Generate(team.draft, llm, [], userInput);
    assert dx.sent == [p1] && dx.reply == Lift(llm(b, [], p1));
    if dx.reply.Success? {
      var p2 := CritiquePrompt(protocol, userInput, dx.reply.value);
      var cx := Critique(team.critique, llm, dx.sent, userInput, dx.reply.value);
      assert cx.sent == [p1, p2];
      if cx.reply.Success? {
        var p3 := RevisionPrompt(protocol, userInput, dx.reply.value, cx.reply.value);
        var vx := Revise(team.revision, llm, cx.sent, userInput, dx.reply.value, cx.reply.value);
        assert vx.sent == [p1, p2, p3];
      }
    }
  }

  /** A backend whose replies depend only on how many prompts the run has sent. */
  function Scripted(first: Result<string, BackendError>, second: Result<string, BackendError>,
                    third: Result<string, BackendError>): Llm {
    (b: BackendConfig, sent: seq<string>, prompt: string) =>
      if |sent| == 0 then first else if |sent| == 1 then second else third
  }

  /** A complete run on a local model stores the three scripted replies under their keys. */
  lemma ScriptedRunStoresReplies(session: Session, userInput: string, protocol: string)
    requires !IsBlank(userInput) && BraceFree(protocol)
    ensures var r := Execute(session, Selection("ollama", "llama2"), userInput, {Ollama}, map[], protocol,
                             Scripted(Success("DRAFT_X"), Success("CRITIQUE_Y"), Success("REVISION_Z")));
      && r.error.None?
      && r.session.results == Some(map[RequestKey := userInput, DraftKey := "DRAFT_X",
                                       CritiqueKey := "CRITIQUE_Y", RevisionKey := "REVISION_Z"])
      && r.sent[1] == CritiquePrompt(protocol, userInput, "DRAFT_X")
      && r.sent[2] == RevisionPrompt(protocol, userInput, "DRAFT_X", "CRITIQUE_Y")
  {
    ExecuteThreadsPhases(session, Selection("ollama", "llama2"), userInput, {Ollama}, map[], protocol,
                         Scripted(Success("DRAFT_X"), Success("CRITIQUE_Y"), Success("REVISION_Z")));
  }

  /** A timeout during the critique leaves the session as it was, after two prompts. */
  lemma CritiqueTimeoutKeepsSession(session: Session, userInput: string, protocol: string)
    requires !IsBlank(userInput) && BraceFree(protocol)
    ensures var r := Execute(session, Selection("ollama", "llama2"), userInput, {Ollama}, map[], protocol,
                             Scripted(Success("DRAFT_X"), Failure(BackendError("Request timeout")), Success("REVISION_Z")));
      && r.session == session
      && |r.sent| == 2
      && r.error == Some(PhaseFailed(BackendFailed(BackendError("Request timeout"))))
  {
    ExecuteThreadsPhases(session, Selection("ollama", "llama2"), userInput, {Ollama}, map[], protocol,
                         Scripted(Success("DRAFT_X"), Failure(BackendError("Request timeout")), Success("REVISION_Z")));
  }

  /** Clear followed by any other press with no Execute leaves nothing to show. */
  lemma ClearForgetsResults(session: Session, sel: Selection, userInput: string, installed: set<Provider>,
                            env: Env, protocol: string, llm: Llm, go: bool)
    ensures var r := Step(session, Some(sel), true, go, userInput, installed, env, protocol, llm);
      r.session.results.None? && r.sent == []
  {
  }
}
