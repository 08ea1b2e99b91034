/**
 * Chat messages and the two things the compaction engine does with a history:
 * render it as text for the summarising model, and rewrite it around a summary.
 */
module History {
  import opened Wrappers
  import opened Text

  /** A chat message. `role` is `None` when the message has no `role` key;
      `content` is the text `str()` gives of the message's content (the empty
      string when it has none). */
  datatype Message = Message(role: Option<string>, content: string)

  predicate IsSystem(m: Message)
  {
    m.role == Some("system")
  }

  /** The system messages of `ms`, in their order in `ms`. */
  function SystemMessages(ms: seq<Message>): (r: seq<Message>)
    ensures |r| <= |ms|
    ensures forall m :: m in r <==> m in ms && IsSystem(m)
  {
    if ms == [] then []
    else (if IsSystem(ms[0]) then [ms[0]] else []) + SystemMessages(ms[1..])
  }

  /** Selecting system messages commutes with concatenation, so relative
      order is kept. */
  lemma {:induction false} SystemMessagesConcat(a: seq<Message>, b: seq<Message>)
    ensures SystemMessages(a + b) == SystemMessages(a) + SystemMessages(b)
  {
    if a == [] {
      assert a + b == b;
    } else {
      assert (a + b)[0] == a[0];
      assert (a + b)[1..] == a[1..] + b;
      SystemMessagesConcat(a[1..], b);
    }
  }

  /** The messages kept verbatim: the last two, or all of them when there
      are at most two. */
  function RecentMessages(ms: seq<Message>): seq<Message>
  {
    if |ms| > 2 then ms[|ms| - 2..] else ms
  }

  const SummaryHeader: string := "[Context Summary]\n\n"

  /** The notice appended to the summary, naming how many messages it replaced. */
  function Notification(count: nat): string
  {
    "\n\n---\n*Note: Context compacted to save memory. " + ShowNat(count)
    + " messages summarized into this summary.*"
  }

  /** The content of the synthetic summary message. */
  function SummaryContent(summary: string, count: nat, notifyUser: bool): string
  {
    SummaryHeader + summary + (if notifyUser then Notification(count) else "")
  }

  function SummaryMessage(summary: string, count: nat, notifyUser: bool): Message
  {
    Message(Some("assistant"), SummaryContent(summary, count, notifyUser))
  }

  /** `apply_compaction`: the system messages, one assistant message holding
      the summary, then the recent messages. */
  function ApplyCompaction(ms: seq<Message>, summary: string, notifyUser: bool): seq<Message>
  {
    SystemMessages(ms) + [SummaryMessage(summary, |ms|, notifyUser)] + RecentMessages(ms)
  }

  /** The shape of a rewritten history: its length is the number of system
      messages plus one plus min(2, |ms|); it starts with the system messages
      in order, then the summary, and ends with the last min(2, |ms|) messages. */
  lemma ApplyCompactionShape(ms: seq<Message>, summary: string, notifyUser: bool)
    ensures var r := ApplyCompaction(ms, summary, notifyUser);
      var k := |SystemMessages(ms)|;
      var keep := if |ms| > 2 then 2 else |ms|;
      && |r| == k + 1 + keep
      && r[..k] == SystemMessages(ms)
      && r[k] == SummaryMessage(summary, |ms|, notifyUser)
      && r[k].role == Some("assistant")
      && r[k + 1..] == ms[|ms| - keep..]
  {
    var r := ApplyCompaction(ms, summary, notifyUser);
    var k := |SystemMessages(ms)|;
    assert r[..k] == SystemMessages(ms);
    assert r[k + 1..] == RecentMessages(ms);
  }

  /** The summary text follows the fixed header, and the notice (naming the
      number of messages replaced) is there exactly when the user is notified. */
  lemma SummaryContentParts(summary: string, count: nat, notifyUser: bool)
    ensures var c := SummaryContent(summary, count, notifyUser);
      && StartsWith(c, "[Context Summary]\n\n" + summary)
      && (notifyUser <==> |c| > |SummaryHeader| + |summary|)
      && (notifyUser ==> c[|SummaryHeader| + |summary|..] == Notification(count))
  {
  }

  /** The notice determines the count it names. */
  lemma NotificationNamesCount(a: nat, b: nat)
    requires Notification(a) == Notification(b)
    ensures a == b
  {
    var pre := "\n\n---\n*Note: Context compacted to save memory. ";
    var post := " messages summarized into this summary.*";
    var na, nb := Notification(a), Notification(b);
    assert |ShowNat(a)| == |ShowNat(b)|;
    assert ShowNat(a) == na[|pre|..|pre| + |ShowNat(a)|];
    assert ShowNat(b) == nb[|pre|..|pre| + |ShowNat(b)|];
    ShowNatInjective(a, b);
  }

  /** The latest message always survives, as the last message. */
  lemma ApplyCompactionKeepsLast(ms: seq<Message>, summary: string, notifyUser: bool)
    requires ms != []
    ensures var r := ApplyCompaction(ms, summary, notifyUser);
      r != [] && r[|r| - 1] == ms[|ms| - 1]
  {
  }

  /** Every system message of `ms` survives. */
  lemma ApplyCompactionKeepsSystem(ms: seq<Message>, summary: string, notifyUser: bool, m: Message)
    requires m in ms && IsSystem(m)
    ensures m in ApplyCompaction(ms, summary, notifyUser)
  {
    assert m in SystemMessages(ms);
  }

  /** Nothing is invented but the summary: every other message of the result
      comes from `ms`. */
  lemma ApplyCompactionOnlyAddsSummary(ms: seq<Message>, summary: string, notifyUser: bool, m: Message)
    requires m in ApplyCompaction(ms, summary, notifyUser)
    ensures m in ms || m == SummaryMessage(summary, |ms|, notifyUser)
  {
    var s := SystemMessages(ms);
    var tail := RecentMessages(ms);
    assert ApplyCompaction(ms, summary, notifyUser) == s + ([SummaryMessage(summary, |ms|, notifyUser)] + tail);
    if m in tail {
      var i :| 0 <= i < |tail| && tail[i] == m;
      assert m == ms[|ms| - |tail| + i];
    }
  }

  /** Compaction shortens the history exactly when `ms` holds more than three
      messages that are not system messages. */
  lemma ApplyCompactionShrinksIff(ms: seq<Message>, summary: string, notifyUser: bool)
    ensures |ApplyCompaction(ms, summary, notifyUser)| < |ms| <==> |ms| - |SystemMessages(ms)| > 3
  {
  }

  /** A system message among the last two appears twice in the result: once
      with the system messages and once with the recent ones. */
  lemma ApplyCompactionRepeatsRecentSystem(sys: Message, summary: string, notifyUser: bool)
    requires IsSystem(sys)
    ensures ApplyCompaction([sys], summary, notifyUser) == [sys, SummaryMessage(summary, 1, notifyUser), sys]
  {
    assert SystemMessages([sys]) == [sys] + SystemMessages([]);
  }

  /** A history without system messages selects none. */
  lemma {:induction false} NoSystemMessages(ms: seq<Message>)
    requires forall i :: 0 <= i < |ms| ==> !IsSystem(ms[i])
    ensures SystemMessages(ms) == []
  {
    if ms != [] {
      NoSystemMessages(ms[1..]);
    }
  }

  /** A six-message history with one system message: the system message, the
      summary, then the last two messages. */
  lemma ApplyCompactionSixMessages(sys: Message, m1: Message, m2: Message, m3: Message,
                                   m4: Message, m5: Message, summary: string, notifyUser: bool)
    requires IsSystem(sys)
    requires !IsSystem(m1) && !IsSystem(m2) && !IsSystem(m3) && !IsSystem(m4) && !IsSystem(m5)
    ensures ApplyCompaction([sys, m1, m2, m3, m4, m5], summary, notifyUser)
         == [sys, SummaryMessage(summary, 6, notifyUser), m4, m5]
  {
    var ms := [sys, m1, m2, m3, m4, m5];
    var rest := SystemMessages(ms[1..]);
    NoSystemMessages(ms[1..]);
    assert SystemMessages(ms) == [sys] + rest;
    assert RecentMessages(ms) == [m4, m5];
  }

  /** Line `i` (counted from 0) of the rendering: `[i+1] ROLE: content`, with
      `unknown` for a message without a role. */
  function SummaryLine(i: nat, m: Message): string
  {
    "[" + ShowNat(i + 1) + "] " + Upper(m.role.GetOr("unknown")) + ": " + m.content
  }

  function SummaryLines(ms: seq<Message>): seq<string>
  {
    seq(|ms|, i requires 0 <= i < |ms| => SummaryLine(i, ms[i]))
  }

  /** The rendering of a history: its numbered lines separated by blank lines. */
  function FormattedHistory(ms: seq<Message>): string
  {
    Join(SummaryLines(ms), "\n\n")
  }

  /** `format_messages_for_summary`: one numbered line per message, in order. */
  method FormatMessagesForSummary(ms: seq<Message>) returns (text: string)
    ensures text == FormattedHistory(ms)
  {
    var formatted: seq<string> := [];
    var i := 0;
    while i < |ms|
      invariant 0 <= i <= |ms|
      invariant |formatted| == i
      invariant forall k :: 0 <= k < i ==> formatted[k] == SummaryLine(k, ms[k])
    {
      formatted := formatted + [SummaryLine(i, ms[i])];
      i := i + 1;
    }
    assert formatted == SummaryLines(ms);
    text := Join(formatted, "\n\n");
  }

  /** One more message adds exactly one more numbered block at the end. */
  lemma FormattedHistoryAppend(ms: seq<Message>, m: Message)
    ensures FormattedHistory(ms + [m]) ==
      if ms == [] then SummaryLine(0, m)
      else FormattedHistory(ms) + "\n\n" + SummaryLine(|ms|, m)
  {
    assert SummaryLines(ms + [m]) == SummaryLines(ms) + [SummaryLine(|ms|, m)];
    if ms != [] {
      JoinAppend(SummaryLines(ms), "\n\n", SummaryLine(|ms|, m));
    }
  }
}
