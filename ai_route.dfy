/**
 * The `/api/ai` route: it sorts the requested action into the Claude set or
 * the OpenAI set, calls that provider when its API key is configured, and
 * otherwise answers with a fixed warning. The providers' replies are inputs.
 */
module AiRoute {
  import opened Wrappers

  /** Actions sent to Claude. */
  const ClaudeActions: set<string> :=
    {"rqs", "hypotheses", "contributions", "critique", "spot_gaps", "synthesize_sources", "summarize"}

  /** Actions sent to OpenAI. */
  const OpenAIActions: set<string> := {"rewrite", "proofread", "shorten", "expand"}

  const NoKeyWarning := "\U{26A0}\U{FE0F} No API key set. Please add ANTHROPIC_API_KEY or OPENAI_API_KEY."
  const ClaudeFallback := "Claude returned no text."
  const OpenAIFallback := "OpenAI returned no text."
  const FailureMessage := "Failed to get AI response"

  /** No action goes to both providers. */
  lemma ActionSetsDisjoint()
    ensures ClaudeActions * OpenAIActions == {}
    ensures forall a :: a in OpenAIActions ==> a !in ClaudeActions
  {
  }

  /** The request body; `Malformed` is a body that is not JSON, and a missing or non-string field is `None`. */
  datatype Request = Malformed | Body(action: Option<string>, content: Option<string>)

  /**
   * What a provider call gives back: `Threw` when the request or the reading of
   * its JSON fails; otherwise the text at the reply's text path, if there is one.
   */
  datatype ProviderReply = Threw | Replied(text: Option<string>)

  datatype Provider = Claude | OpenAI | NoProvider

  datatype Response = Ok(result: string) | Failed(status: int, error: string)

  /** A configured key: present and not empty. */
  predicate HasKey(key: Option<string>) {
    key.Some? && key.value != ""
  }

  /** `useClaude && anthropicKey`, else `useOpenAI && openaiKey`, else neither. */
  function Route(action: Option<string>, anthropicKey: Option<string>, openaiKey: Option<string>): (p: Provider)
    ensures p == Claude <==> action.Some? && action.value in ClaudeActions && HasKey(anthropicKey)
    ensures p == OpenAI <==> action.Some? && action.value in OpenAIActions && HasKey(openaiKey)
  {
    ActionSetsDisjoint();
    var useClaude := action.Some? && action.value in ClaudeActions;
    var useOpenAI := action.Some? && action.value in OpenAIActions;
    if useClaude && HasKey(anthropicKey) then Claude
    else if useOpenAI && HasKey(openaiKey) then OpenAI
    else NoProvider
  }

  /** An action in neither set is never sent to a provider, whatever keys are configured. */
  lemma UnknownActionNotRouted(action: string, anthropicKey: Option<string>, openaiKey: Option<string>)
    requires action !in ClaudeActions && action !in OpenAIActions
    ensures Route(Some(action), anthropicKey, openaiKey) == NoProvider
  {
  }

  /** A Claude action never goes to OpenAI, even when only the OpenAI key is set. */
  lemma ClaudeActionWithoutKey(action: string, openaiKey: Option<string>)
    requires action in ClaudeActions
    ensures Route(Some(action), None, openaiKey) == NoProvider
  {
    ActionSetsDisjoint();
  }

  /** The reply's text, or the fallback when it is missing or empty. */
  function TextOr(text: Option<string>, fallback: string): (r: string)
    requires fallback != ""
    ensures r != ""
    ensures text.Some? && text.value != "" ==> r == text.value
    ensures text.None? || text.value == "" ==> r == fallback
  {
    if text.Some? && text.value != "" then text.value else fallback
  }

  /**
   * `POST`: reads the body, picks the provider, sets `output` in the branch
   * taken, and answers `{result: output}`. Anything that throws — the body or a
   * provider call — gives status 500 with the fixed error. `called` is the
   * provider whose reply was used.
   */
  method Handle(req: Request, anthropicKey: Option<string>, openaiKey: Option<string>,
                claudeReply: ProviderReply, openaiReply: ProviderReply)
    returns (resp: Response, called: Provider)
    ensures req.Malformed? ==> called == NoProvider && resp == Failed(500, FailureMessage)
    ensures req.Body? ==> called == Route(req.action, anthropicKey, openaiKey)
    ensures resp.Failed? ==> resp == Failed(500, FailureMessage)
    ensures resp.Failed? <==>
      req.Malformed? || (called == Claude && claudeReply.Threw?) || (called == OpenAI && openaiReply.Threw?)
    ensures resp.Ok? ==> resp.result != ""
    ensures resp.Ok? && called == NoProvider ==> resp.result == NoKeyWarning
    ensures resp.Ok? && called == Claude ==> resp.result == TextOr(claudeReply.text, ClaudeFallback)
    ensures resp.Ok? && called == OpenAI ==> resp.result == TextOr(openaiReply.text, OpenAIFallback)
  {
    if req.Malformed? {
      return Failed(500, FailureMessage), NoProvider;
    }
    called := Route(req.action, anthropicKey, openaiKey);
    var output := "";
    if called == Claude {
      if claudeReply.Threw? {
        return Failed(500, FailureMessage), called;
      }
      output := TextOr(claudeReply.text, ClaudeFallback);
    } else if called == OpenAI {
      if openaiReply.Threw? {
        return Failed(500, FailureMessage), called;
      }
      output := TextOr(openaiReply.text, OpenAIFallback);
    } else {
      output := NoKeyWarning;
    }
    resp := Ok(output);
  }
}
