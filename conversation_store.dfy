/**
 * The per-conversation record the engine keeps (`chat_contexts`), the two
 * changes made to it (a response observation and a successful compaction),
 * and what holds of every sequence of such changes from the empty store.
 */
module ConversationStore {

  /** The record kept for one conversation. */
  datatype ConversationState = ConversationState(
    usageRatio: real,
    needsCompaction: bool,
    messageCount: nat,
    compactionCount: nat)

  /** Conversation id to record. */
  type Contexts = map<string, ConversationState>

  /** The store after a response whose prompt used `ratio` of the context window:
      the entry is created or refreshed, and flagged when `ratio >= threshold`. */
  function Observed(contexts: Contexts, id: string, ratio: real, messageCount: nat, threshold: real): (r: Contexts)
    ensures r.Keys == contexts.Keys + {id}
    ensures forall k :: k in contexts && k != id ==> r[k] == contexts[k]
    ensures r[id].needsCompaction <==> (id in contexts && contexts[id].needsCompaction) || ratio >= threshold
    ensures r[id].compactionCount == if id in contexts then contexts[id].compactionCount else 0
    ensures r[id].usageRatio == ratio && r[id].messageCount == messageCount
  {
    var entry :=
      if id in contexts then contexts[id].(usageRatio := ratio, messageCount := messageCount)
      else ConversationState(ratio, false, messageCount, 0);
    contexts[id := if ratio >= threshold then entry.(needsCompaction := true) else entry]
  }

  /** The store after a compaction of conversation `id` succeeded. */
  function Consumed(contexts: Contexts, id: string): (r: Contexts)
    requires id in contexts
    ensures r.Keys == contexts.Keys
    ensures forall k :: k in contexts && k != id ==> r[k] == contexts[k]
    ensures !r[id].needsCompaction
    ensures r[id].compactionCount == contexts[id].compactionCount + 1
    ensures r[id].usageRatio == contexts[id].usageRatio && r[id].messageCount == contexts[id].messageCount
  {
    var entry := contexts[id].(needsCompaction := false);
    contexts[id := entry.(compactionCount := entry.compactionCount + 1)]
  }

  /** What happens to the store, as seen by it. */
  datatype Event =
    | Response(id: string, ratio: real, messageCount: nat, threshold: real)
    | Request(id: string, summarized: bool)

  /** One event: a response is observed; a request compacts when its
      conversation is flagged and a summary came back. */
  function Step(contexts: Contexts, e: Event): Contexts
  {
    match e
    case Response(id, ratio, n, threshold) => Observed(contexts, id, ratio, n, threshold)
    case Request(id, ok) =>
      if ok && id in contexts && contexts[id].needsCompaction then Consumed(contexts, id) else contexts
  }

  /** The store after `events`, starting from the empty store. */
  function Replay(events: seq<Event>): Contexts
  {
    if events == [] then map[] else Step(Replay(events[..|events| - 1]), events[|events| - 1])
  }

  /** Whether some response for `id` is among `events`. */
  predicate Observes(events: seq<Event>, id: string)
  {
    exists i :: 0 <= i < |events| && events[i].Response? && events[i].id == id
  }

  /** The number of responses for `id` whose ratio reached their threshold. */
  function Crossings(events: seq<Event>, id: string): nat
  {
    if events == [] then 0
    else
      var e := events[|events| - 1];
      Crossings(events[..|events| - 1], id) + (if e.Response? && e.id == id && e.ratio >= e.threshold then 1 else 0)
  }

  /** The number of requests for `id` that received a summary. */
  function Summarized(events: seq<Event>, id: string): nat
  {
    if events == [] then 0
    else
      var e := events[|events| - 1];
      Summarized(events[..|events| - 1], id) + (if e.Request? && e.id == id && e.summarized then 1 else 0)
  }

  /** A conversation has a record exactly when a response for it was observed;
      records are never removed. */
  lemma {:induction false} ReplayKeys(events: seq<Event>, id: string)
    ensures id in Replay(events) <==> Observes(events, id)
  {
    if events != [] {
      var prev := events[..|events| - 1];
      ReplayKeys(prev, id);
      if Observes(prev, id) {
        var i :| 0 <= i < |prev| && prev[i].Response? && prev[i].id == id;
        assert events[i] == prev[i];
      }
      if Observes(events, id) && !Observes(prev, id) {
        assert events[|events| - 1].Response? && events[|events| - 1].id == id;
      }
    }
  }

  /** Each compaction consumes a flag, and each flag comes from a response that
      reached the threshold: compactions done, plus one for a pending flag,
      never exceed the threshold crossings observed. */
  lemma {:induction false} CompactionsBoundedByCrossings(events: seq<Event>, id: string)
    requires id in Replay(events)
    ensures var s := Replay(events)[id];
      s.compactionCount + (if s.needsCompaction then 1 else 0) <= Crossings(events, id)
  {
    var prev := events[..|events| - 1];
    var e := events[|events| - 1];
    if id in Replay(prev) {
      CompactionsBoundedByCrossings(prev, id);
    }
  }

  /** A compaction happens only on a request that received a summary. */
  lemma {:induction false} CompactionsBoundedBySummaries(events: seq<Event>, id: string)
    requires id in Replay(events)
    ensures Replay(events)[id].compactionCount <= Summarized(events, id)
  {
    var prev := events[..|events| - 1];
    if id in Replay(prev) {
      CompactionsBoundedBySummaries(prev, id);
    }
  }

  /** A pending flag was raised by a response at or above its threshold since
      the last compaction: there are more crossings than compactions. */
  lemma FlagHasCause(events: seq<Event>, id: string)
    requires id in Replay(events) && Replay(events)[id].needsCompaction
    ensures Crossings(events, id) > Replay(events)[id].compactionCount
  {
    CompactionsBoundedByCrossings(events, id);
  }
}
