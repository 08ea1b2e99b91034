# context_compaction in Dafny

A model of the `context_compaction` extension for the `llms` server. The
extension watches how much of a model's context window each prompt uses. When
a response shows the prompt at or above a configured share of the window, it
flags the conversation. On the next request for that conversation it asks a
model for a summary of the history. It then replaces the history by the
system messages, one assistant message holding the summary, and the last two
messages. The model also covers the example plugin's `/compact` command
filter.

Modules:

- `Wrappers` (`wrappers.dfy`): `Option`.
- `Text` (`text.dfy`): the Python string operations used by the code. These
  are `lower`, `upper`, `strip`, `startswith`, `p in s`, `join` and the decimal
  rendering of an int.
- `ModelLimits` (`context_limit.dfy`): the fallback table of context sizes and
  the lookup through the provider registry (`get_model_context_limit`).
- `History` (`history.dfy`): messages, `apply_compaction` and
  `format_messages_for_summary`.
- `Config` (`config.dfy`): the settings record, its defaults and the partial
  update applied by `POST /config`.
- `ConversationStore` (`conversation_store.dfy`): the per-conversation record
  (`chat_contexts`) and its two changes: a response observed and a compaction
  done. It also holds lemmas over any sequence of such events starting from the
  empty store.
- `Engine` (`engine.dfy`): the summary request (`compact_conversation`) and
  the class `Extension`. The class holds the global settings and store, and its
  methods are the request filter, the response filter and the settings update.
- `CommandFilter` (`command_filter.dfy`): `compact_command_filter` over a
  JSON-like chat request held in a `Chat` object.

Each loop of the source is a method proved against a function:

- `GetModelContextLimit` against `ContextLimit`;
- `FormatMessagesForSummary` against `FormattedHistory`.

Each in-place update is a method of a class whose `ensures` gives the new
state as a function of the old one:

- `Extension.OnResponse` against `ResponseUpdate`;
- `Extension.OnRequest` against `Consumed` and `Step`;
- `Extension.UpdateConfig` against `Merged`;
- `CompactCommandFilter` against `Filtered`.

The properties are then proved about those functions.

Three behaviours of the code are worth stating plainly:

- `apply_compaction` keeps a fixed two messages: the last two of the whole
  history, system messages included (`__init__.py:315`). A system message
  among the last two therefore appears twice in the result
  (`History.ApplyCompactionRepeatsRecentSystem`).
- When the summary comes back empty or the call fails, `on_request` returns
  the request unchanged and leaves the flag set (`__init__.py:116-126`), so the
  next request tries again.
- The `context_limit == 0` guard of `on_response` (`__init__.py:146-148`)
  cannot fire. The fallback table never yields 0, and a metadata value of 0 is
  falsy, so it is skipped (`ModelLimits.ContextLimitNonZero`). The model keeps
  the guard as written.

The class `Extension` also carries the history of store changes as a ghost
field. Its invariant `Valid` says the store is the replay of that history from
the empty store. `OnResponse` and `OnRequest` each state the one event they
append, so the history records exactly the calls made, and the bounds proved
for every history hold of the extension's own store
(`Engine.ExtensionStoreBounded`).

## Model

| member | source | states |
|---|---|---|
| ModelLimits.FallbackLimit | __init__.py:224-258 | the estimate is one of the seven table values and is positive |
| ModelLimits.FallbackIgnoresCase | __init__.py:226 | the estimate depends only on the lower-cased name |
| ModelLimits.FallbackSameLowerSameLimit | __init__.py:226 | names equal up to letter case get the same estimate |
| ModelLimits.FallbackDefault | __init__.py:256-258 | a name mentioning no gpt-4, gpt-3.5-turbo, claude, llama, mistral or mixtral family gets 8192 |
| ModelLimits.FallbackTurboBeforeGpt4 | __init__.py:229-234 | a gpt-4-turbo name also contains gpt-4 but gets 128000, not 8192: the earlier row wins |
| ModelLimits.FallbackLocalModels | __init__.py:249-254 | a llama/mistral/mixtral name with no cloud pattern gets 32768 for 32k, else 16384 for 16k, else 8192 |
| ModelLimits.Advertised | __init__.py:195-200 | the limit a provider advertises for a model: its `limit.context` when the provider has `model_info`, knows the model and the value is non-zero; otherwise none |
| ModelLimits.FirstAdvertised | __init__.py:204-215 | the first advertised limit, scanning the providers in registry order |
| ModelLimits.MetadataLimit | __init__.py:190-215 | the named provider's advertised limit when the name is non-empty and it has one, otherwise the first advertised limit of any provider |
| ModelLimits.ContextLimit | __init__.py:188-221 | the metadata limit when there is one, otherwise the fallback estimate |
| ModelLimits.FindProvider | __init__.py:193 | the provider found is in the registry and has the name; none is found only when no provider has it |
| ModelLimits.GetModelContextLimit | __init__.py:188-221 | the loop over the named provider, then every provider, then the table returns exactly `ContextLimit` |
| ModelLimits.FirstAdvertisedFound | __init__.py:204-215 | the value the provider scan returns is non-zero and advertised by some provider in the registry |
| ModelLimits.FirstAdvertisedNone | __init__.py:204-215 | when no provider advertises a truthy limit the scan finds nothing |
| ModelLimits.FirstAdvertisedIsFirst | __init__.py:207-215 | when provider `i` advertises a limit and none before it does, the scan returns provider `i`'s limit: the first in registry order wins |
| ModelLimits.FirstAdvertisedNoneMeansNone | __init__.py:207-215 | when the scan finds nothing, no provider of the registry advertises a limit |
| ModelLimits.AdvertisedIsFound | __init__.py:204-215 | a limit advertised by any provider of the registry is found by the scan |
| ModelLimits.ContextLimitNonZero | __init__.py:144-148 | the resolved limit is never 0, so the zero guard of the response filter is dead |
| ModelLimits.ContextLimitPositive | __init__.py:188-221 | if no advertised limit is negative, the resolved limit is positive |
| ModelLimits.NamedProviderWins | __init__.py:192-202 | a truthy limit of the named provider is returned as it is, before any other provider |
| ModelLimits.NoMetadataFallsBack | __init__.py:220-221 | with no truthy metadata anywhere the result is the fallback estimate |
| ModelLimits.MetadataComesFromRegistry | __init__.py:190-215 | any metadata answer is non-zero and advertised by a registry provider |
| History.SystemMessages | __init__.py:312 | exactly the system messages of the history are selected, and no more messages than given |
| History.SystemMessagesConcat | __init__.py:312 | the selection commutes with concatenation, so system messages keep their order |
| History.SummaryContent | __init__.py:318-323 | the summary message text: the header, the summary and, when the user is notified, the notice naming the count |
| History.ApplyCompaction | __init__.py:309-330 | the system messages, then the assistant summary message, then the last two messages (all of them when there are at most two) |
| History.ApplyCompactionShape | __init__.py:309-330 | the result is the system messages, then one assistant summary message, then the last min(2, n) messages; its length is their sum |
| History.SummaryContentParts | __init__.py:318-323 | the summary text follows the `[Context Summary]` header; the notice follows it exactly when `notify_user` is set |
| History.NotificationNamesCount | __init__.py:322 | the notice determines the number of messages it names |
| History.ApplyCompactionKeepsLast | __init__.py:315 | the latest message is always the last message of the result |
| History.ApplyCompactionKeepsSystem | __init__.py:312 | every system message survives compaction |
| History.ApplyCompactionOnlyAddsSummary | __init__.py:326-328 | every message of the result is from the history or is the summary message |
| History.ApplyCompactionShrinksIff | __init__.py:309-330 | the history gets shorter exactly when it has more than three non-system messages |
| History.ApplyCompactionRepeatsRecentSystem | __init__.py:312-315 | a lone system message comes out twice, around the summary |
| History.NoSystemMessages | __init__.py:312 | a history with no system message selects none |
| History.ApplyCompactionSixMessages | __init__.py:309-330 | one system message and five others become the system message, the summary naming 6 messages, and the last two |
| History.SummaryLine | __init__.py:303-305 | the line for message `i` (from 0): `[i+1] ROLE: content`, with `UNKNOWN` when the message has no role |
| History.FormattedHistory | __init__.py:299-306 | the lines of all messages in order, joined by blank lines |
| History.FormatMessagesForSummary | __init__.py:299-306 | the loop's text is the numbered lines `[i] ROLE: content` joined by blank lines |
| History.FormattedHistoryAppend | __init__.py:302-306 | one more message adds one more numbered block, after a blank line |
| Text.Lower | __init__.py:226 | lower-casing keeps the length and maps each character |
| Text.Upper | __init__.py:305 | upper-casing keeps the length and maps each character |
| Text.LowerIdempotent | __init__.py:226 | lower-casing twice is lower-casing once |
| Text.ContainsIffOccurs | __init__.py:229 | the substring test holds exactly when the pattern occurs at some index |
| Text.ContainsTransitive | __init__.py:229-233 | a substring of a substring is a substring, which orders the table's overlapping patterns |
| Text.Contains | __init__.py:229 | the substring test `p in s`: `p` is a prefix of `s` or of one of its suffixes |
| Text.LStrip | simple_plugin_example.py:49 | the result is a suffix, every removed character is whitespace, and it does not start with whitespace |
| Text.RStrip | simple_plugin_example.py:49 | the result is a prefix, every removed character is whitespace, and it does not end with whitespace |
| Text.StripStartsWith | simple_plugin_example.py:49 | for a prefix ending in a non-space, `strip().startswith` agrees with the test after removing leading whitespace only |
| Text.Strip | simple_plugin_example.py:49 | `strip()`: leading whitespace removed, then trailing whitespace |
| Text.ShowNat | __init__.py:305 | the rendering of a count is non-empty and made of decimal digits |
| Text.ParseShowNat | __init__.py:322 | reading the rendering back gives the count |
| Text.ShowNatInjective | __init__.py:322 | different counts render differently |
| Text.JoinAppend | __init__.py:306 | joining one more part appends the separator and the part |
| Text.Join | __init__.py:306 | the parts with the separator between each two neighbours; empty for no parts |
| Config.MergedEmpty | __init__.py:355-370 | an update with no keys changes no setting |
| Config.MergedIdempotent | __init__.py:355-370 | applying the same update twice is applying it once |
| Config.MergedSequential | __init__.py:355-370 | two updates in a row equal one update with both key sets, the later winning |
| Config.MergedKeepsAbsent | __init__.py:355-370 | a setting whose key is absent keeps its value |
| Config.Merged | __init__.py:355-370 | the settings after an update: each key present replaces its field, each absent key keeps it |
| ConversationStore.Observed | __init__.py:155-169 | the entry is created or refreshed with the ratio and message count; it is flagged if it was already flagged or the ratio reached the threshold; its compaction count is kept, or 0 if new; other entries are unchanged |
| ConversationStore.Consumed | __init__.py:121-122 | the flag is cleared and the compaction count rises by one; nothing else changes |
| ConversationStore.Step | __init__.py:108-122 | one store change: a response refreshes the entry (`Observed`); a request for a flagged conversation that received a summary consumes the flag (`Consumed`); any other request changes nothing |
| ConversationStore.ReplayKeys | __init__.py:155-161 | a conversation has a record exactly when a response for it was seen; records are never dropped |
| ConversationStore.CompactionsBoundedByCrossings | __init__.py:108-122 | compactions done, plus one for a pending flag, never exceed the responses that reached the threshold |
| ConversationStore.CompactionsBoundedBySummaries | __init__.py:116-122 | compactions never exceed the requests that received a summary |
| ConversationStore.FlagHasCause | __init__.py:167-169 | a pending flag implies more threshold crossings than compactions |
| Engine.AllButLast | __init__.py:112 | `messages[:-1]` drops exactly the last message; it is empty for an empty list |
| Engine.BuildSummaryRequest | __init__.py:263-281 | two user messages: the selected prompt, then the header and the rendered history; temperature 0.3; model and provider are the caller's when non-empty, else the configured ones, and the key is absent only when both are missing |
| Engine.SummaryOf | __init__.py:286-296 | a summary exists exactly when the completion is a non-empty text, and it is that text |
| Engine.CompactConversation | __init__.py:261-296 | the request sent is `BuildSummaryRequest` and the summary is `SummaryOf` the answer |
| Engine.ResponseUpdateEffect | __init__.py:131-175 | when disabled the store is unchanged; otherwise the limit is non-zero, the entry is refreshed with the usage ratio and message count and flagged exactly on a threshold crossing or an earlier flag, the count is kept, and other entries are unchanged |
| Engine.ResponseUpdate | __init__.py:131-175 | the store after a response: unchanged when disabled or when the limit is 0, otherwise refreshed with the ratio of prompt tokens to the context limit |
| Engine.ReplaySnoc | __init__.py:99-175 | replaying one more event is one more store change, which lets each filter extend the history of changes |
| Engine.ExtensionStoreBounded | __init__.py:108-122 | in a valid extension, a conversation's compactions plus a pending flag never exceed its threshold crossings, and its compactions never exceed the summaries requested and received; since each filter call's `ensures` fixes the one event it records, the history counts exactly the calls made |
| Engine.Extension.constructor | __init__.py:17-39 | the settings start at their defaults, the store starts empty, and the invariant holds |
| Engine.Extension.OnResponse | __init__.py:131-175 | settings unchanged; the store becomes `ResponseUpdate` of the old one; when disabled the history of changes is unchanged, otherwise the limit is non-zero and exactly one `Response` event with the ratio, the message count and the threshold is appended; the invariant is kept |
| Engine.Extension.OnRequest | __init__.py:99-128 | a summary is requested exactly when enabled and flagged, for all messages but the last; with a summary the history becomes `ApplyCompaction` and the store `Consumed`; otherwise request and store are unchanged; the store follows `Step`; when disabled the history of changes is unchanged, otherwise exactly one `Request` event is appended, marked as summarised exactly when a summary was both requested and received |
| Engine.Extension.UpdateConfig | __init__.py:349-370 | the settings become `Merged(old, update)`; the store and its history are unchanged |
| Engine.FlagThenCompactScenario | __init__.py:99-175 | at threshold 0.7 a gpt-4-turbo prompt of 96000 tokens flags the conversation; the next request turns six messages into the system message, the summary and the last two, with the flag cleared and one compaction counted |
| CommandFilter.IsCommandIgnoresTrailingSpace | simple_plugin_example.py:49 | the command test holds exactly for a non-empty text that starts with `/compact` after leading whitespace |
| CommandFilter.InspectedText | simple_plugin_example.py:37-44 | the text tested: the `text` of a leading dict block, `str()` of any other leading block, else `str()` of the whole content |
| CommandFilter.IsCommand | simple_plugin_example.py:49 | a non-empty string whose stripped form starts with `/compact` |
| CommandFilter.WithReplacement | simple_plugin_example.py:53-63 | the content with the replacement text written into the `text` of a leading dict block, over a leading non-dict block, or over the whole content |
| CommandFilter.Filtered | simple_plugin_example.py:25-63 | the request with the last message's content replaced when that message is a user message whose text is a command; otherwise the request unchanged |
| CommandFilter.Chat.constructor | simple_plugin_example.py:14 | the chat object holds the request given |
| CommandFilter.CompactCommandFilter | simple_plugin_example.py:14-66 | the request becomes `Filtered` of the old request |
| CommandFilter.NotCommandEmptyList | simple_plugin_example.py:38-44 | an empty content list renders as `[]`, which is no command |
| CommandFilter.ReplacementIsNotCommand | simple_plugin_example.py:49-63 | the replacement text does not itself start with `/compact` |
| CommandFilter.InspectedAfterReplacement | simple_plugin_example.py:37-63 | after the rewrite, the inspected text is the replacement in every placement |
| CommandFilter.FilterIgnoresMissingMessages | simple_plugin_example.py:25 | a request with no or an empty `messages` list is unchanged |
| CommandFilter.FilterIgnoresOtherRoles | simple_plugin_example.py:32 | a last message that is not from the user is unchanged |
| CommandFilter.TriggerHasContent | simple_plugin_example.py:34-49 | a rewritten message has a `content` key, since a missing one reads as the empty text |
| CommandFilter.FilterTouchesOnlyLastMessage | simple_plugin_example.py:25-63 | the other keys of the request, all earlier messages and the other keys of the last message are kept |
| CommandFilter.FilterChangesIffTriggered | simple_plugin_example.py:25-63 | the request changes exactly when the last message is a user message whose text is a `/compact` command |
| CommandFilter.FilteredLast | simple_plugin_example.py:53-63 | after the rewrite the last message is still a user message, with only its content replaced |
| CommandFilter.FilterIdempotent | simple_plugin_example.py:49-63 | filtering twice equals filtering once |
| CommandFilter.ReplacementPlacement | simple_plugin_example.py:53-63 | the replacement goes into the `text` of a leading dict block, over a leading non-dict block, or over the whole content; later blocks and other keys are kept |

## Left out

- `load_config`, `save_config` and the file under `~/.llms`: file I/O. The model starts from the default settings.
- `__install__` and filter registration in both files: host wiring with no logic of its own.
- Logging in both files: no effect on state.
- `get_config`, `trigger_compaction` and `get_status`: HTTP endpoints that only read the state or return a fixed placeholder.
- `get_conversation_id`: it hashes `str()` of the first message with Python's `hash`. The model takes the conversation id as an input of the filters.
- The call to the summarising model in `compact_conversation` and its exceptions: the answer is an input (`completion`), with `None` standing for a failed call or an answer without content.
- The `hasattr` checks and exceptions in `get_model_context_limit`: providers are records. `hasModelInfo` stands for `hasattr(provider, 'model_info')`, and the host is assumed to offer `get_provider` and `get_providers`. In the source any exception inside the `try` (a `model_info` call that raises, or a `limit` that is `null` so that `limit.get` raises, `__init__.py:199`, `__init__.py:212`) abandons the remaining providers and returns the fallback estimate (`__init__.py:217-221`); `FirstAdvertised` has no failing provider and always scans on.
- ModelLimits.Advertised: a metadata value is modelled as an int. Other JSON types (floats, strings) that would be truthy are not modelled.
- Engine.ChatRequest: a `model` key present with the value `null`, and a `usage.prompt_tokens` present with the value `null`, are not modelled. In the source the first makes the fallback call `None.lower()` raise (`__init__.py:221`, `__init__.py:226`, outside the `try`) when no provider advertises a limit, and the second makes `None / context_limit` raise (`__init__.py:151`); either way the response filter fails. The model reads a missing or null model as the empty string and takes the prompt token count as an integer. Also not modelled: a response whose `usage` is `null`, on which `usage.get` raises (`__init__.py:138`) before any state changes, while the model is given a prompt token count and updates the store; and a request whose `messages` is `null`, on which `len` raises in the response filter (`__init__.py:159`, `__init__.py:164`) and `messages[:-1]` raises in the request filter for a flagged conversation (`__init__.py:112`), while the model's `messages` is always a list.
- Engine.UsageRatio: the ratio and the threshold are exact reals, not IEEE doubles.
- Engine.Extension.UpdateConfig: the `bool()` and `float()` coercions of the update's values are left out. The update carries values already of the field's type.
- Python semantics left out: concurrency between filter calls, and the `await` points are not modelled.
- Text.Lower, Text.Upper, Text.LStrip, Text.RStrip: ASCII case mapping and ASCII whitespace only. The whitespace is space, tab, newline, carriage return, vertical tab, form feed and the separators 0x1C to 0x1F. Non-ASCII case folding and non-ASCII spaces (such as U+0085 and U+00A0) are not modelled.
- History.Message: `content` is held as the text the f-string renders of it, so list contents are not modelled block by block; a missing `content` is the empty string. Messages that are not dicts are not modelled, and neither is a `role` that is present but `null` or not a string. On both, `format_messages_for_summary` raises outside the `try` of `compact_conversation`, so the request filter fails; the model instead renders a missing role as `UNKNOWN` and has no failing role.
- CommandFilter.CompactCommandFilter: works on values, not shared objects. Aliasing between the modified content block and other parts of the request is not captured.
- CommandFilter.Shown: `str()` of a non-empty list or of a dict is rendered by its opening bracket only, which is all the command test depends on.
- CommandFilter.Filtered: inputs on which the source raises are treated as leaving the request unchanged. These are a `messages` value that is not a list, a last message that is not a dict, and a non-string `text` that is truthy. The model does not model the exception.
