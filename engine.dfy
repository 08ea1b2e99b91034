/**
 * The compaction engine: the summary request, and the extension's global state
 * (its settings and the per-conversation store) with the request filter, the
 * response filter and the settings update that change it.
 */
module Engine {
  import opened Wrappers
  import opened Text
  import opened ModelLimits
  import opened History
  import opened Config
  import opened ConversationStore

  /** The parts of a chat request the engine reads. `provider` and `model` are
      `None` when the request has no such key. */
  datatype ChatRequest = ChatRequest(messages: seq<Message>, provider: Option<string>, model: Option<string>)

  /** The request sent to the summarising model. `model` and `provider` are
      `None` when the key is left out of the request. */
  datatype SummaryRequest = SummaryRequest(messages: seq<Message>, model: Option<string>, provider: Option<string>, temperature: real)

  /** The low sampling temperature used for summaries. */
  const SummaryTemperature: real := 0.3

  const ConversationHeader: string := "Conversation to summarize:\n\n"

  /** A string is truthy in Python when it is present and not empty. */
  predicate Truthy(s: Option<string>)
  {
    s.Some? && s.value != ""
  }

  /** Python's `a or b` on two optional strings. */
  function OrElse(a: Option<string>, b: Option<string>): Option<string>
  {
    if Truthy(a) then a else b
  }

  /** `messages[:-1]`: every message but the last; nothing for an empty list. */
  function AllButLast(ms: seq<Message>): (r: seq<Message>)
    ensures |r| == if ms == [] then 0 else |ms| - 1
    ensures ms != [] ==> r + [ms[|ms| - 1]] == ms
  {
    if ms == [] then [] else ms[..|ms| - 1]
  }

  /** The request `compact_conversation` sends: the chosen prompt, then the
      rendered history, both as user messages; the caller's provider and model
      unless empty or missing, else the configured ones, a key being left out
      when neither gives a value. */
  function BuildSummaryRequest(config: CompactionConfig, history: seq<Message>,
                               provider: Option<string>, model: Option<string>): (r: SummaryRequest)
    ensures |r.messages| == 2
    ensures r.messages[0].role == Some("user") && r.messages[1].role == Some("user")
    ensures r.messages[0].content == if config.useSimplePrompt then config.simplePrompt else config.summaryPrompt
    ensures r.messages[1].content == ConversationHeader + FormattedHistory(history)
    ensures r.temperature == 0.3
    ensures r.model.None? <==> !Truthy(model) && config.model.None?
    ensures r.provider.None? <==> !Truthy(provider) && config.provider.None?
    ensures Truthy(model) ==> r.model == model
    ensures Truthy(provider) ==> r.provider == provider
    ensures !Truthy(model) ==> r.model == config.model
    ensures !Truthy(provider) ==> r.provider == config.provider
  {
    var prompt := if config.useSimplePrompt then config.simplePrompt else config.summaryPrompt;
    SummaryRequest(
      [Message(Some("user"), prompt), Message(Some("user"), ConversationHeader + FormattedHistory(history))],
      OrElse(model, config.model),
      OrElse(provider, config.provider),
      SummaryTemperature)
  }

  /** The summary a completion yields: its text when not empty. `None` stands
      for a failed call or a response without content. */
  function SummaryOf(completion: Option<string>): (r: Option<string>)
    ensures r.Some? <==> Truthy(completion)
    ensures r.Some? ==> r == completion
  {
    if Truthy(completion) then completion else None
  }

  /** `compact_conversation`: builds the summary request for `history` and reads
      the summary out of the model's answer `completion`. */
  method CompactConversation(config: CompactionConfig, history: seq<Message>,
                             provider: Option<string>, model: Option<string>, completion: Option<string>)
    returns (request: SummaryRequest, summary: Option<string>)
    ensures request == BuildSummaryRequest(config, history, provider, model)
    ensures summary == SummaryOf(completion)
  {
    var prompt := if config.useSimplePrompt then config.simplePrompt else config.summaryPrompt;
    var rendered := FormatMessagesForSummary(history);
    request := SummaryRequest(
      [Message(Some("user"), prompt), Message(Some("user"), ConversationHeader + rendered)],
      OrElse(model, config.model),
      OrElse(provider, config.provider),
      SummaryTemperature);
    if completion.Some? && completion.value != "" {
      summary := completion;
    } else {
      summary := None;
    }
  }

  /** Whether a request for conversation `id` compacts its history. */
  predicate Flagged(config: CompactionConfig, contexts: Contexts, id: string)
  {
    config.enabled && id in contexts && contexts[id].needsCompaction
  }

  /** The share of the context window the prompt used. */
  function UsageRatio(promptTokens: int, contextLimit: int): real
    requires contextLimit != 0
  {
    promptTokens as real / contextLimit as real
  }

  /** The store after a response filter call (the disabled and zero-limit
      cases leave it alone). */
  function ResponseUpdate(config: CompactionConfig, contexts: Contexts, registry: seq<Provider>,
                          request: ChatRequest, id: string, promptTokens: int): Contexts
  {
    if !config.enabled then contexts
    else
      var limit := ContextLimit(registry, request.provider.GetOr(""), request.model.GetOr(""));
      if limit == 0 then contexts
      else Step(contexts, Response(id, UsageRatio(promptTokens, limit), |request.messages|, config.threshold))
  }

  /** A response observation either leaves the store alone (compaction
      disabled) or refreshes the conversation's entry: flagged exactly when
      the prompt reached the threshold or it already was, with the
      compaction count kept (0 for a new entry), and every other entry as
      it was. */
  lemma ResponseUpdateEffect(config: CompactionConfig, contexts: Contexts, registry: seq<Provider>,
                             request: ChatRequest, id: string, promptTokens: int)
    ensures var r := ResponseUpdate(config, contexts, registry, request, id, promptTokens);
      var limit := ContextLimit(registry, request.provider.GetOr(""), request.model.GetOr(""));
      && (!config.enabled ==> r == contexts)
      && (config.enabled ==>
            && limit != 0
            && r.Keys == contexts.Keys + {id}
            && (forall k :: k in contexts && k != id ==> r[k] == contexts[k])
            && (r[id].needsCompaction <==>
                  (id in contexts && contexts[id].needsCompaction) || UsageRatio(promptTokens, limit) >= config.threshold)
            && r[id].compactionCount == (if id in contexts then contexts[id].compactionCount else 0)
            && r[id].usageRatio == UsageRatio(promptTokens, limit)
            && r[id].messageCount == |request.messages|)
  {
    ContextLimitNonZero(registry, request.provider.GetOr(""), request.model.GetOr(""));
  }

  /** Replaying one more event is one more step. */
  lemma ReplaySnoc(events: seq<Event>, e: Event)
    ensures Replay(events + [e]) == Step(Replay(events), e)
  {
    assert (events + [e])[..|events|] == events;
  }

  /** The extension's global state. `events` is the history of store changes
      so far, which exists for the proof only. */
  class Extension {
    var config: CompactionConfig
    var contexts: Contexts
    ghost var events: seq<Event>

    /** The store is what its history of changes produces from the empty store. */
    ghost predicate Valid()
      reads this
    {
      contexts == Replay(events)
    }

    constructor ()
      ensures config == DefaultConfig && contexts == map[]
      ensures events == [] && Valid()
    {
      config := DefaultConfig;
      contexts := map[];
      events := [];
    }

    /** `on_response`: records the prompt's share of the context window for
        conversation `conversationId` and flags it at or above the threshold.
        `promptTokens` is the response's `usage.prompt_tokens` (0 when missing). */
    method OnResponse(registry: seq<Provider>, request: ChatRequest, conversationId: string, promptTokens: int)
      requires Valid()
      modifies this
      ensures Valid()
      ensures config == old(config)
      ensures contexts == ResponseUpdate(old(config), old(contexts), registry, request, conversationId, promptTokens)
      ensures !old(config).enabled ==> events == old(events)
      ensures old(config).enabled ==>
        var limit := ContextLimit(registry, request.provider.GetOr(""), request.model.GetOr(""));
        && limit != 0
        && events == old(events) + [Response(conversationId, UsageRatio(promptTokens, limit), |request.messages|, old(config).threshold)]
    {
      if !config.enabled {
        return;
      }
      var limit := GetModelContextLimit(registry, request.provider.GetOr(""), request.model.GetOr(""));
      ContextLimitNonZero(registry, request.provider.GetOr(""), request.model.GetOr(""));
      if limit == 0 {
        return;
      }
      var ratio := promptTokens as real / limit as real;
      var count := |request.messages|;
      if conversationId !in contexts {
        contexts := contexts[conversationId := ConversationState(ratio, false, count, 0)];
      } else {
        contexts := contexts[conversationId := contexts[conversationId].(usageRatio := ratio)];
        contexts := contexts[conversationId := contexts[conversationId].(messageCount := count)];
      }
      if ratio >= config.threshold {
        contexts := contexts[conversationId := contexts[conversationId].(needsCompaction := true)];
      }
      ReplaySnoc(events, Response(conversationId, ratio, count, config.threshold));
      events := events + [Response(conversationId, ratio, count, config.threshold)];
    }

    /** `on_request`: when the conversation is flagged, asks for a summary of all
        messages but the last and, if one comes back, replaces the history, clears
        the flag and counts the compaction. `completion` is the summarising
        model's answer (`None` when the call failed); `sent` is the summary
        request issued, if any. */
    method OnRequest(request: ChatRequest, conversationId: string, completion: Option<string>)
      returns (result: ChatRequest, sent: Option<SummaryRequest>)
      requires Valid()
      modifies this
      ensures Valid()
      ensures config == old(config)
      ensures sent.Some? <==> Flagged(old(config), old(contexts), conversationId)
      ensures sent.Some? ==>
        sent.value == BuildSummaryRequest(old(config), AllButLast(request.messages), request.provider, request.model)
      ensures Flagged(old(config), old(contexts), conversationId) && Truthy(completion) ==>
        && result == request.(messages := ApplyCompaction(request.messages, completion.value, old(config).notifyUser))
        && contexts == Consumed(old(contexts), conversationId)
      ensures !(Flagged(old(config), old(contexts), conversationId) && Truthy(completion)) ==>
        result == request && contexts == old(contexts)
      ensures old(config).enabled ==>
        contexts == Step(old(contexts), Request(conversationId, Truthy(completion)))
      ensures !old(config).enabled ==> events == old(events)
      ensures old(config).enabled ==> events == old(events) + [Request(conversationId, sent.Some? && Truthy(completion))]
    {
      result, sent := request, None;
      if !config.enabled {
        return;
      }
      ghost var before, history := contexts, events;
      var messages := request.messages;
      if conversationId in contexts && contexts[conversationId].needsCompaction {
        var summaryRequest, summary := CompactConversation(config, AllButLast(messages), request.provider, request.model, completion);
        sent := Some(summaryRequest);
        if summary.Some? {
          result := request.(messages := ApplyCompaction(messages, summary.value, config.notifyUser));
          contexts := contexts[conversationId := contexts[conversationId].(needsCompaction := false)];
          contexts := contexts[conversationId := contexts[conversationId].(compactionCount := contexts[conversationId].compactionCount + 1)];
          assert contexts == Consumed(before, conversationId);
        } else {
          assert !Truthy(completion);
        }
      } else {
        assert contexts == before;
      }
      ghost var e := Request(conversationId, sent.Some? && Truthy(completion));
      assert contexts == Step(before, e);
      ReplaySnoc(history, e);
      events := history + [e];
    }

    /** `update_config`: overwrites the settings named in the update, one by one. */
    method UpdateConfig(patch: ConfigPatch)
      modifies this
      ensures config == Merged(old(config), patch)
      ensures contexts == old(contexts) && events == old(events)
    {
      var enabled, threshold, provider, model := config.enabled, config.threshold, config.provider, config.model;
      var notifyUser, useSimplePrompt := config.notifyUser, config.useSimplePrompt;
      var summaryPrompt, simplePrompt := config.summaryPrompt, config.simplePrompt;
      if patch.enabled.Some? {
        enabled := patch.enabled.value;
      }
      if patch.threshold.Some? {
        threshold := patch.threshold.value;
      }
      if patch.provider.Some? {
        provider := patch.provider.value;
      }
      if patch.model.Some? {
        model := patch.model.value;
      }
      if patch.notifyUser.Some? {
        notifyUser := patch.notifyUser.value;
      }
      if patch.useSimplePrompt.Some? {
        useSimplePrompt := patch.useSimplePrompt.value;
      }
      if patch.summaryPrompt.Some? {
        summaryPrompt := patch.summaryPrompt.value;
      }
      if patch.simplePrompt.Some? {
        simplePrompt := patch.simplePrompt.value;
      }
      config := CompactionConfig(enabled, threshold, provider, model, notifyUser, useSimplePrompt, summaryPrompt, simplePrompt);
    }
  }

  /** The bounds proved of every event history hold of the extension's store:
      compactions done, plus one for a pending flag, never exceed the responses
      that reached the threshold, nor do compactions exceed the summaries
      received. */
  lemma ExtensionStoreBounded(ext: Extension, id: string)
    requires ext.Valid() && id in ext.contexts
    ensures var s := ext.contexts[id];
      && s.compactionCount + (if s.needsCompaction then 1 else 0) <= Crossings(ext.events, id)
      && s.compactionCount <= Summarized(ext.events, id)
  {
    CompactionsBoundedByCrossings(ext.events, id);
    CompactionsBoundedBySummaries(ext.events, id);
  }

  /** The flag-then-consume cycle: threshold 0.7, a response at 75% of the
      window flags the conversation, and the next request with a summary turns
      a six-message history with one system message into the system message,
      the summary and the last two messages, clearing the flag and counting
      one compaction. */
  method FlagThenCompactScenario(sys: Message, m1: Message, m2: Message, m3: Message,
                                 m4: Message, m5: Message, summary: string)
    returns (compacted: seq<Message>, flagged: bool, compactions: nat)
    requires IsSystem(sys)
    requires !IsSystem(m1) && !IsSystem(m2) && !IsSystem(m3) && !IsSystem(m4) && !IsSystem(m5)
    requires summary != ""
    ensures compacted == [sys, SummaryMessage(summary, 6, false), m4, m5]
    ensures !flagged && compactions == 1
  {
    var ext := new Extension();
    ext.UpdateConfig(ConfigPatch(None, Some(0.7), None, None, Some(false), None, None, None));
    var registry := [Provider("openai", true, map["gpt-4-turbo" := ModelInfo(Some(128000))])];
    var history := [sys, m1, m2, m3, m4, m5];
    var request := ChatRequest(history, Some("openai"), Some("gpt-4-turbo"));
    ext.OnResponse(registry, request, "c", 96000);
    assert ext.contexts["c"].needsCompaction;
    assert ext.contexts["c"].compactionCount == 0;
    var result, sent := ext.OnRequest(request, "c", Some(summary));
    ApplyCompactionSixMessages(sys, m1, m2, m3, m4, m5, summary, false);
    assert result.messages == [sys, SummaryMessage(summary, 6, false), m4, m5];
    assert !ext.contexts["c"].needsCompaction && ext.contexts["c"].compactionCount == 1;
    assert AllButLast(history) == [sys, m1, m2, m3, m4];
    assert sent.Some? && sent.value.messages[1].content == ConversationHeader + FormattedHistory([sys, m1, m2, m3, m4]);
    compacted, flagged, compactions := result.messages, ext.contexts["c"].needsCompaction, ext.contexts["c"].compactionCount;
  }
}
