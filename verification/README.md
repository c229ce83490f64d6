# SAPG-Demo, modelled in Dafny

The Self-Auditing Prompt Generator (SAPG) runs a request through three agents
in turn: a Draft agent, a Critique agent and a Revision agent. Each agent
renders a fixed prompt template that embeds the agent's name and a protocol
text. It sends the rendered prompt to a chat-model backend once and returns
the reply unchanged. This project models three things:

- the provider factory that builds the backend (`llm_factory.py`);
- the three agents and their templates (`agents.py`);
- the application's run logic (`app.py`): agent setup, the blank-request
  check, the draft → critique → revision pipeline, the single result record,
  and the Clear button.

Files:

- `wrappers.dfy`: `Option` and `Result`.
- `prompt_format.dfy` (module `PromptFormat`): the placeholder substitution
  that LangChain's f-string `PromptTemplate` performs.
  - `{{` and `}}` are literal braces.
  - `{name}` is replaced by the value bound to `name`.
  - A lone brace is an error, and so is an unbound name.
  - The module also describes a template as literal text plus named fields
    (`Piece`), and proves that such a template formats to exactly its
    filled-in text.
- `llm_factory.dfy` (module `LlmFactory`):
  - `create_ollama`, `create_openai`, `create_anthropic`, `create_llm` and
    `get_available_providers`.
  - Which client libraries imported successfully is a `set<Provider>`.
  - The process environment is a `map<string, string>`.
  - A constructed client is represented by the configuration it was built
    with: provider, model and timeout.
  - Each exception is a `FactoryError`, with its Python class and its exact
    message.
- `agents.dfy` (module `Agents`): the agents.
  - `Template` is the f-string step: the name and the protocol are spliced
    into the text, and `{{user_request}}` becomes `{user_request}`.
  - `Format` is the placeholder step that runs when the chain is invoked.
  - `DraftPrompt`, `CritiquePrompt` and `RevisionPrompt` are reference texts.
    The rendering lemmas prove that each template formats to exactly the
    matching reference text.
  - The backend is a function parameter of type `Llm`. It receives the
    backend configuration, the prompts the run has already sent, and the new
    prompt, and returns a reply or an error.
  - Each stage returns the reply together with the extended prompt trace.
- `app.dfy` (module `App`):
  - `create_agents` and the blank-request check. `str.strip` and
    `str.isspace` are modelled over exactly the whitespace code points that
    Python's `str.isspace` accepts.
  - `Execute`: what the Execute button does.
  - `Step`: one run of `main`, covering the missing provider, Clear and
    Execute.
  - Scenario lemmas with a scripted backend.

The session is modelled as its one slot, `results`. It holds either nothing
or the four-key record of the last complete run.

## Model

| member | source | states |
|---|---|---|
| `PromptFormat.FormatPlain` | agents.py:50 | `Format`, the placeholder step run when the chain is invoked, turns a text without braces into itself whatever the values; `FormatAssembled`, `FormatText` and `FormatSlot` characterise it on templates of text and fields |
| `PromptFormat.CloseIndex` | agents.py:85-88 | where a replacement field ends: the first `}` at or after the start, or the end of the text when there is none |
| `PromptFormat.FormatText` | agents.py:123-127 | brace-free template text is copied through formatting unchanged, and an error after it is passed on |
| `PromptFormat.FormatSlot` | agents.py:41 | a `{name}` field whose name is bound is replaced by exactly the bound value, and formatting continues after it |
| `PromptFormat.FormatAssembled` | agents.py:48-50 | a template of brace-free text and bound fields formats successfully, to exactly its text with each field replaced by its value |
| `PromptFormat.FailureAfterText` | agents.py:36-38 | brace-free text placed in front of a template that fails to format does not stop the failure |
| `PromptFormat.UnboundFieldFails` | agents.py:38 | a `{` that opens a field whose name cannot begin any bound name makes formatting fail |
| `PromptFormat.UnclosedFieldFails` | agents.py:38 | a lone `{` with no `}` after it fails with an unmatched-brace error |
| `LlmFactory.CreateOllama` | llm_factory.py:30-36 | succeeds exactly when the Ollama library is installed; otherwise fails with ImportError |
| `LlmFactory.CreateHosted` | llm_factory.py:38-63 | succeeds exactly when the library is installed and the key variable is set and non-empty; a missing library is reported first; the environment is left as it was |
| `LlmFactory.CreateLlm` | llm_factory.py:66-78 | fails with "Unknown provider" exactly when the name is none of the three; succeeds exactly when the named provider is ready; on success the backend is the named provider and the environment is unchanged |
| `LlmFactory.AvailableProviders` | llm_factory.py:81-90 | lists a provider exactly when its library imported; every entry is a valid provider name; entries come in the fixed order ollama, openai, anthropic |
| `LlmFactory.ProviderIdRoundTrip` | llm_factory.py:68-78 | provider names and providers correspond one to one |
| `LlmFactory.UnknownProviderRejected` | llm_factory.py:77-78 | any other name is rejected whatever the libraries and environment, as a ValueError whose message starts "Unknown provider" |
| `LlmFactory.ModelNameResolution` | llm_factory.py:68-76 | a given non-empty model name is used as is; an absent or empty one falls back to llama2, gpt-3.5-turbo or claude-3-sonnet-20240229 |
| `LlmFactory.ImportCheckedBeforeKey` | llm_factory.py:30-63 | a provider whose library is missing fails with ImportError, whatever the environment holds |
| `LlmFactory.HostedNeedsKey` | llm_factory.py:44-46 | with the library installed, a hosted provider succeeds exactly when its key variable is set and non-empty, and otherwise raises a ValueError naming that variable |
| `LlmFactory.OllamaIgnoresEnv` | llm_factory.py:30-36 | the local backend's outcome does not depend on the environment |
| `LlmFactory.TimeoutOnlyForOllama` | llm_factory.py:36-63 | the local backend gets a 300-second timeout; the hosted ones get none |
| `LlmFactory.AvailableProvidersCreatable` | llm_factory.py:66-90 | creating a listed provider cannot fail on its library; it can only lack an API key, and never for ollama |
| `LlmFactory.MessagesNameTheCause` | llm_factory.py:33-60 | the ImportError message names the package to install; the ValueError message starts with the missing variable |
| `LlmFactory.AvailableProvidersDistinct` | llm_factory.py:81-90 | the availability list never names a provider twice |
| `Agents.Template` | agents.py:33-44 | `create_prompt_template`: the template starts with the agent's header (its name, then the protocol); `DraftTemplateText` gives the whole draft template, and `RenderDraft`, `RenderCritique` and `RenderRevision` what each template formats to |
| `Agents.TemplateWellFormed` | agents.py:33-117 | with a brace-free protocol, every agent's template consists of brace-free text and fields bound by the values it is invoked with |
| `Agents.RenderDraft` | agents.py:33-44 | the draft prompt is "You are Draft Agent.", the protocol, "TASK:", the request and the fixed closing sentence, the request inserted literally |
| `Agents.RenderCritique` | agents.py:60-79 | the critique prompt embeds the protocol, then the request, then the draft, followed by the five-item checklist |
| `Agents.RenderRevision` | agents.py:98-117 | the revision prompt embeds the protocol, the request, the draft and the critique in that order, followed by the three-item instruction |
| `Agents.DraftTemplateText` | agents.py:36-43 | before formatting, the draft template is the header, the `TASK:` label, the `{user_request}` field and the instruction |
| `Agents.LoneOpenBeforeTaskFails` | agents.py:38-41 | a `{` directly before the `TASK:` label opens a field whose name begins with that label's text; no bound name begins that way, so formatting fails |
| `Agents.BracedProtocolBreaksDraft` | agents.py:36-41 | a protocol ending in a lone `{` makes the draft template impossible to format |
| `Agents.Invoke` | agents.py:16-23 | the trace only grows, by at most one prompt; it stays as it was exactly when the template fails to format, and the reply is then a template error; otherwise the one prompt added is the formatted template and the reply is the backend's answer to it, text unchanged |
| `Agents.Generate` | agents.py:46-50 | with a brace-free protocol: one call, with exactly the draft prompt, appended to the trace; the reply is the backend's |
| `Agents.Critique` | agents.py:81-88 | with a brace-free protocol: one call, with exactly the critique prompt for this request and draft; the reply is the backend's |
| `Agents.Revise` | agents.py:119-127 | with a brace-free protocol: one call, with exactly the revision prompt for this request, draft and critique; the reply is the backend's |
| `Agents.BracedDraftSendsNothing` | agents.py:46-50 | a draft agent with a protocol ending in a lone `{` raises before its backend is called |
| `Agents.OneCallPerStage` | agents.py:16-23 | a stage extends the trace by exactly one prompt, or by none when its template does not format |
| `App.StripLeading` | app.py:188 | drops exactly the leading whitespace: the result is a suffix, everything dropped is whitespace, and the result does not start with whitespace |
| `App.StripTrailing` | app.py:188 | drops exactly the trailing whitespace: the result is a prefix, everything dropped is whitespace, and the result does not end with whitespace |
| `App.StripEmptyIffBlank` | app.py:188 | stripping leaves nothing exactly when the request consists of whitespace only |
| `App.CreateAgents` | app.py:108-130 | succeeds exactly when the backend can be created, and otherwise reports the factory's error; the three agents share that one backend and the same protocol |
| `App.Record` | app.py:233-238 | the stored record has exactly the four keys user_request, draft, critique and revision, holding the given texts |
| `App.RunPhases` | app.py:201-259 | after any phase failure the session is unchanged; otherwise the record with the four keys is stored, after exactly three prompts |
| `App.Execute` | app.py:187-259 | a blank request, and only a blank request, is refused; every error leaves the session as it was; a run stores the four-key record only after all three prompts |
| `App.Step` | app.py:168-238 | with no provider, or with neither button pressed, nothing changes; Clear resets the results, sends nothing and takes precedence over Execute; a blank request is refused; otherwise Execute runs the whole pipeline (`Execute`), so its trace and record contracts apply |
| `App.TeamNames` | app.py:121-125 | the agents of a team are named "Draft Agent", "Critique Agent" and "Revision Agent", each in the slot its role names |
| `App.BlankRequestSendsNothing` | app.py:188-190 | a blank request is refused before any agent is set up or any prompt is sent |
| `App.SetupFailureSendsNothing` | app.py:192-198 | when the backend cannot be created, no prompt is sent, the factory's error is reported and the session is unchanged |
| `App.OfferedProviderSetup` | app.py:34-40 | a provider offered in the sidebar can fail setup only for want of its API key |
| `App.ExecuteThreadsPhases` | app.py:215-238 | the draft prompt goes first; the critique prompt is built from the draft reply; the revision prompt is built from both replies; the record holds the request and the three replies unchanged, and is stored only when all three calls reply |
| `App.PhasesTrace` | app.py:215-226 | each phase receives exactly the replies of the phases before it, and the first failure ends the run |
| `App.ScriptedRunStoresReplies` | app.py:233-238 | a backend that answers DRAFT_X, CRITIQUE_Y and REVISION_Z in turn leaves exactly those three under their keys, with the request beside them |
| `App.CritiqueTimeoutKeepsSession` | app.py:241-259 | a timeout in the critique phase leaves the session as it was, after two prompts, and reports the backend's error |
| `App.ClearForgetsResults` | app.py:183-185 | after Clear there are no results to show, and nothing was sent |

## Left out

- Temperatures (0.3 for Ollama, 0.7 for the hosted providers) are not
  modelled, because they are floats passed to the client and affect nothing
  the program itself computes.
- The network clients, the replies' content, and network timeouts are not
  modelled in themselves. They appear only as the `Llm` function parameter
  and its errors.
- `load_dotenv` is not modelled: the environment is an input.
- Streamlit widgets, spinners, progress bars, tabs and the hint text chosen
  from the error message are not modelled. They are display only.
- The llama2 speed warning in `create_agents` is not modelled, for the same
  reason.
- The sidebar's model choices are not modelled. The provider and model reach
  the pipeline as a `Selection`. "No provider available" is `Step`'s
  `None` selection.
- `protocol.py` is not part of this model. The protocol text is a parameter.
- The exact prompts are stated only for a brace-free protocol, which
  `protocol.py` is. For other protocols the stages format whatever the
  template spells, and that case is modelled too.
- `str.format` features are not modelled: format specifications (`{x:>5}`),
  conversions (`{x!r}`), attribute and index access in field names, and
  positional fields. A field name is the text up to the next `}`, and an
  unknown name fails. None of these forms occur in the three templates.
- Agents.Generate: the exact prompt is promised only for a brace-free protocol. For other protocols the stage formats whatever the template spells (see `Agents.Invoke`).
- Agents.Critique: the exact prompt is promised only for a brace-free protocol, as for `Agents.Generate`.
- Agents.Revise: the exact prompt is promised only for a brace-free protocol, as for `Agents.Generate`.
- Which phase failed is not part of the error. `app.py` reports every phase's
  exception the same way. The phase can be read from the length of the
  prompt trace.
- The tests expect `create_ollama` to use temperature 0.7 and no timeout. The
  code uses 0.3 and `timeout=300`. The model follows the code.
- The integration tests use a `SAPGOrchestrator` that `agents.py` does not
  define. The pipeline is modelled from `main` in `app.py`.
- `st.rerun` after Clear is modelled as the end of that script run. The
  Execute button therefore has no effect in the same run.
