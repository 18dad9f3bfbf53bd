/**
 * The `chat` request of server/server.js:203-269 as a function of its
 * inputs: the key gate, the conversation sent to `callAI`, the one optional
 * auto-argue round over Python code, and the auto-apply condition.
 */
module Chat {
  import opened Wrappers
  import opened CodeFence
  import opened Failover
  import opened FailoverProperties
  import opened FileStore
  import opened Sessions
  import opened Broadcast

  /** `validatePythonCode(code)`: the issues found in a piece of Python. */
  type Validator = string -> seq<string>

  /** `xs.join(sep)`. */
  function Join(xs: seq<string>, sep: string): string {
    if xs == [] then ""
    else if |xs| == 1 then xs[0]
    else xs[0] + sep + Join(xs[1..], sep)
  }

  /** Every element of a joined list occurs in the result. */
  lemma {:induction false} JoinContains(xs: seq<string>, sep: string, i: nat)
    requires i < |xs|
    ensures exists pre, post :: Join(xs, sep) == pre + xs[i] + post
    decreases |xs|
  {
    if |xs| == 1 {
      assert Join(xs, sep) == "" + xs[0] + "";
    } else if i == 0 {
      assert Join(xs, sep) == "" + xs[0] + (sep + Join(xs[1..], sep));
    } else {
      JoinContains(xs[1..], sep, i - 1);
      var pre, post :| Join(xs[1..], sep) == pre + xs[1..][i - 1] + post;
      assert Join(xs, sep) == (xs[0] + sep + pre) + xs[i] + post;
    }
  }

  /** The reply to a chat when no settings or no non-empty key are known. */
  const NoKeysReply: Message := ChatReply("Error: No API keys configured", "None", None, None)

  const NoProjectForChat: string := "No project selected. Please load or create a project before chatting."

  const ArguedPrefix: string := "[Auto-argued] "

  const IssuesHeader: string := "AI-generated Python code has issues:\n"

  const IssuesFooter: string := "\nPlease fix these and provide valid and PEP8 compliant Python code."

  /** The user message of the auto-argue round (server/server.js:238). */
  function IssuesPrompt(issues: seq<string>): string {
    IssuesHeader + Join(issues, "\n") + IssuesFooter
  }

  /** Every issue the validator reported is quoted in the auto-argue prompt. */
  lemma PromptQuotesIssues(issues: seq<string>, i: nat)
    requires i < |issues|
    ensures exists pre, post :: IssuesPrompt(issues) == pre + issues[i] + post
  {
    JoinContains(issues, "\n", i);
    var pre, post :| Join(issues, "\n") == pre + issues[i] + post;
    assert IssuesPrompt(issues) == (IssuesHeader + pre) + issues[i] + (post + IssuesFooter);
  }

  /** The conversation of server/server.js:217-224: the project's files as context, then the user's input. */
  function ChatContext(files: Files, project: int, chatInput: string): seq<ChatMessage> {
    [SystemPrompt(ExportOf(files, project)), UserMessage(chatInput)]
  }

  /** The `chat` message for a `callAI` result, its content behind `prefix`. */
  function ReplyOf(e: Exchange, prefix: string): Message {
    ChatReply(prefix + e.content, e.provider, e.codeBlock, Some(e.rateLimit))
  }

  /** server/server.js:234-236: a Python block, auto-argue on, and at least one issue. */
  predicate ShouldArgue(first: Exchange, autoArgue: bool, validate: Validator) {
    && first.codeBlock.Some?
    && first.codeBlock.value.language == "python"
    && autoArgue
    && |validate(first.codeBlock.value.content)| > 0
  }

  /** The two `messages.push` of server/server.js:241-242. */
  function ArgueMessages(messages: seq<ChatMessage>, first: Exchange, issues: seq<string>): seq<ChatMessage> {
    messages + [AssistantMessage(first.content), UserMessage(IssuesPrompt(issues))]
  }

  /** The replies sent, the final `response.codeBlock`, and every provider call and wait. */
  datatype Conversation = Conversation(replies: seq<Message>, codeBlock: Option<CodeBlock>,
                                       calls: seq<Call>, waits: seq<nat>)

  /** The first `callAI` of a chat. */
  function FirstRun(messages: seq<ChatMessage>, settings: Settings, respond: Responder): Run {
    CallAISpec(messages, settings.apiKeys, settings.failoverOrder, MaxRetries, respond)
  }

  /** The `callAI` of the auto-argue round. */
  function ArgueRun(messages: seq<ChatMessage>, settings: Settings, validate: Validator, respond: Responder): Run
    requires ShouldArgue(FirstRun(messages, settings, respond).result, settings.autoArgueWithAI, validate)
  {
    var first := FirstRun(messages, settings, respond).result;
    CallAISpec(ArgueMessages(messages, first, validate(first.codeBlock.value.content)),
               settings.apiKeys, settings.failoverOrder, MaxRetries, respond)
  }

  /** server/server.js:225-253 once the gate and the project check have passed. */
  function Converse(messages: seq<ChatMessage>, settings: Settings, validate: Validator, respond: Responder): Conversation {
    var first := FirstRun(messages, settings, respond);
    if ShouldArgue(first.result, settings.autoArgueWithAI, validate) then
      var second := ArgueRun(messages, settings, validate, respond);
      Conversation([ReplyOf(first.result, ""), ReplyOf(second.result, ArguedPrefix)], second.result.codeBlock,
                   first.calls + second.calls, first.waits + second.waits)
    else
      Conversation([ReplyOf(first.result, "")], first.result.codeBlock, first.calls, first.waits)
  }

  /** server/server.js:256: auto-apply on, a code block left, and a non-empty target path. */
  predicate AutoApplies(settings: Settings, codeBlock: Option<CodeBlock>, path: string) {
    settings.autoApplyCode && codeBlock.Some? && path != ""
  }

  /**
   * Auto-argue runs at most once: one reply without it, two with it, and
   * it happens exactly under the condition of server/server.js:234-236.
   * Without it, `callAI` runs once and the code block is the first one.
   */
  lemma ArguesAtMostOnce(messages: seq<ChatMessage>, settings: Settings, validate: Validator, respond: Responder)
    ensures var conv := Converse(messages, settings, validate, respond);
      var first := FirstRun(messages, settings, respond);
      && 1 <= |conv.replies| <= 2
      && (|conv.replies| == 2 <==> ShouldArgue(first.result, settings.autoArgueWithAI, validate))
      && conv.replies[0] == ReplyOf(first.result, "")
      && (|conv.replies| == 1 ==> conv.codeBlock == first.result.codeBlock && conv.calls == first.calls)
  {
  }

  /**
   * The auto-argue round: the conversation grows by exactly the previous
   * answer and the issues prompt, `callAI` runs exactly once more, its
   * reply is prefixed with "[Auto-argued] ", and its code block (possibly
   * none) replaces the first one.
   */
  lemma ArgueRound(messages: seq<ChatMessage>, settings: Settings, validate: Validator, respond: Responder)
    requires ShouldArgue(FirstRun(messages, settings, respond).result, settings.autoArgueWithAI, validate)
    ensures var conv := Converse(messages, settings, validate, respond);
      var first := FirstRun(messages, settings, respond).result;
      var issues := validate(first.codeBlock.value.content);
      var argued := ArgueMessages(messages, first, issues);
      var second := CallAISpec(argued, settings.apiKeys, settings.failoverOrder, MaxRetries, respond);
      && |argued| == |messages| + 2
      && argued[..|messages|] == messages
      && argued[|messages|] == AssistantMessage(first.content)
      && argued[|messages| + 1] == UserMessage(IssuesPrompt(issues))
      && conv.calls == FirstRun(messages, settings, respond).calls + second.calls
      && conv.replies[1].content[..|ArguedPrefix|] == ArguedPrefix
      && conv.replies[1].content[|ArguedPrefix|..] == second.result.content
      && conv.codeBlock == second.result.codeBlock
  {
    var first := FirstRun(messages, settings, respond).result;
    var second := ArgueRun(messages, settings, validate, respond);
    assert Converse(messages, settings, validate, respond).replies[1].content == ArguedPrefix + second.result.content;
  }

  /** No Python block, or auto-argue off, or no issues: there is no second call. */
  lemma NoArgueWithoutPython(messages: seq<ChatMessage>, settings: Settings, validate: Validator, respond: Responder)
    requires var block := FirstRun(messages, settings, respond).result.codeBlock;
      block.None? || block.value.language != "python" || !settings.autoArgueWithAI
      || validate(block.value.content) == []
    ensures Converse(messages, settings, validate, respond).replies == [ReplyOf(FirstRun(messages, settings, respond).result, "")]
  {
  }

  /** When the gate rejects a key set, no provider has a key either. */
  lemma GateCoversProviders(apiKeys: map<string, string>)
    requires !AnyKeyConfigured(apiKeys)
    ensures forall p :: !HasKey(apiKeys, p)
  {
    forall p ensures !HasKey(apiKeys, p) {
      if KeyName(p) in apiKeys {
        assert apiKeys[KeyName(p)] == "";
      }
    }
  }

  /**
   * The gate looks at every entry of `apiKeys`, `callAI` only at the four
   * provider keys: a settings object whose only non-empty entry is
   * `openrouterModel` passes the gate, and then no provider is called and
   * the sentinel is the reply.
   */
  lemma ModelNameAloneCallsNothing(messages: seq<ChatMessage>, model: string, order: seq<string>, respond: Responder)
    requires model != ""
    ensures AnyKeyConfigured(map["openrouterModel" := model])
    ensures CallAISpec(messages, map["openrouterModel" := model], order, MaxRetries, respond) == Run(AllFailed, [], [])
  {
    var keys := map["openrouterModel" := model];
    Configured(keys, "openrouterModel");
    NoProviderKeyNamedModel(model);
    NoKeysNoCalls(messages, keys, order, MaxRetries, respond);
  }

  lemma Configured(apiKeys: map<string, string>, name: string)
    requires name in apiKeys && apiKeys[name] != ""
    ensures AnyKeyConfigured(apiKeys)
  {
  }

  lemma NoProviderKeyNamedModel(model: string)
    ensures forall p :: !HasKey(map["openrouterModel" := model], p)
  {
    forall p ensures KeyName(p) != "openrouterModel" {
      assert |KeyName(p)| < |"openrouterModel"|;
    }
  }
}
