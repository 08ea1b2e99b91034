/**
 * The `/compact` chat-request filter of the example plugin: when the last
 * message is a user message whose text starts with `/compact`, that text is
 * replaced by a fixed test string.
 */
module CommandFilter {
  import opened Text

  /** A JSON-like value of the chat request. `Other` is any other value (a
      number, a boolean, `None`), carried with the text `str()` gives of it. */
  datatype Value =
    | Str(s: string)
    | List(items: seq<Value>)
    | Dict(entries: map<string, Value>)
    | Other(shown: string)

  const Command: string := "/compact"
  const Replacement: string := "testing context_compaction"

  /** `d.get(key, default)` */
  function Get(d: map<string, Value>, key: string, default: Value): Value
  {
    if key in d then d[key] else default
  }

  /** `str(v)`. A non-empty list or a dict is shown by its brackets only, which
      is all the command test can see of it. */
  function Shown(v: Value): string
  {
    match v
    case Str(s) => s
    case Other(t) => t
    case List(items) => if items == [] then "[]" else "[...]"
    case Dict(_) => "{...}"
  }

  /** The text the filter tests: the `text` of a leading dict block, `str()` of
      any other leading block, else `str()` of the whole content. */
  function InspectedText(content: Value): Value
  {
    if content.List? && |content.items| > 0 then
      if content.items[0].Dict? then Get(content.items[0].entries, "text", Str(""))
      else Str(Shown(content.items[0]))
    else Str(Shown(content))
  }

  /** A non-empty string whose stripped form starts with `/compact`. */
  predicate IsCommand(text: Value)
  {
    text.Str? && text.s != "" && StartsWith(Strip(text.s), Command)
  }

  /** Trailing whitespace plays no part: the test is on leading whitespace only. */
  lemma IsCommandIgnoresTrailingSpace(s: string)
    ensures IsCommand(Str(s)) <==> s != "" && StartsWith(LStrip(s), Command)
  {
    StripStartsWith(s, Command);
  }

  /** The content with its text replaced where the filter writes: the `text` of
      a leading dict block, a leading non-dict block, or the whole content. */
  function WithReplacement(content: Value): Value
    requires IsCommand(InspectedText(content))
  {
    if content.List? && |content.items| > 0 && content.items[0].Dict? then
      List(content.items[0 := Dict(content.items[0].entries["text" := Str(Replacement)])])
    else if content.List? then
      List(content.items[0 := Str(Replacement)])
    else
      Str(Replacement)
  }

  /** The request has a non-empty `messages` list whose last element is a
      message with role `user`. */
  predicate LastIsUserMessage(chat: map<string, Value>)
  {
    && "messages" in chat
    && chat["messages"].List?
    && |chat["messages"].items| > 0
    && var last := chat["messages"].items[|chat["messages"].items| - 1];
       last.Dict? && Get(last.entries, "role", Other("None")) == Str("user")
  }

  function LastMessage(chat: map<string, Value>): map<string, Value>
    requires LastIsUserMessage(chat)
  {
    chat["messages"].items[|chat["messages"].items| - 1].entries
  }

  function LastContent(chat: map<string, Value>): Value
    requires LastIsUserMessage(chat)
  {
    Get(LastMessage(chat), "content", Str(""))
  }

  /** The filter rewrites the request. */
  predicate Triggers(chat: map<string, Value>)
  {
    LastIsUserMessage(chat) && IsCommand(InspectedText(LastContent(chat)))
  }

  /** The request after the filter. */
  function Filtered(chat: map<string, Value>): map<string, Value>
  {
    if Triggers(chat) then
      var items := chat["messages"].items;
      var last := LastMessage(chat);
      chat["messages" := List(items[|items| - 1 := Dict(last["content" := WithReplacement(LastContent(chat))])])]
    else chat
  }

  /** The chat request dictionary the host passes to the filter. */
  class Chat {
    var body: map<string, Value>

    constructor (body: map<string, Value>)
      ensures this.body == body
    {
      this.body := body;
    }
  }

  /** `compact_command_filter`: inspects the last message and rewrites its text
      in place when it is a `/compact` command from the user. */
  method CompactCommandFilter(chat: Chat)
    modifies chat
    ensures chat.body == Filtered(old(chat.body))
  {
    if "messages" in chat.body && chat.body["messages"].List? && |chat.body["messages"].items| > 0 {
      var messages := chat.body["messages"].items;
      var last := messages[|messages| - 1];
      if last.Dict? && Get(last.entries, "role", Other("None")) == Str("user") {
        var content := Get(last.entries, "content", Str(""));
        var text := InspectedText(content);
        if IsCommand(text) {
          var rewritten := WithReplacement(content);
          chat.body := chat.body["messages" := List(messages[|messages| - 1 := Dict(last.entries["content" := rewritten])])];
        }
      }
    }
  }

  /** The text of an empty list, `[]`, is not a command. */
  lemma NotCommandEmptyList()
    ensures !IsCommand(InspectedText(List([])))
  {
    assert Strip("[]") == "[]";
  }

  /** The replacement text is not itself a command. */
  lemma ReplacementIsNotCommand()
    ensures !IsCommand(Str(Replacement))
  {
    assert LStrip(Replacement) == Replacement;
    assert RStrip(Replacement) == Replacement;
  }

  /** After the rewrite, the filter inspects exactly the replacement text. */
  lemma InspectedAfterReplacement(content: Value)
    requires IsCommand(InspectedText(content))
    ensures InspectedText(WithReplacement(content)) == Str(Replacement)
  {
    if content.List? && |content.items| == 0 {
      NotCommandEmptyList();
    }
  }

  /** Without a non-empty `messages` list nothing changes. */
  lemma FilterIgnoresMissingMessages(chat: map<string, Value>)
    requires "messages" !in chat || chat["messages"] == List([])
    ensures Filtered(chat) == chat
  {
  }

  /** A last message that is not from the user is never rewritten. */
  lemma FilterIgnoresOtherRoles(chat: map<string, Value>)
    requires "messages" in chat && chat["messages"].List? && |chat["messages"].items| > 0
    requires var last := chat["messages"].items[|chat["messages"].items| - 1];
      !last.Dict? || Get(last.entries, "role", Other("None")) != Str("user")
    ensures Filtered(chat) == chat
  {
  }

  /** Only the last message can change: the other keys of the request and every
      earlier message are kept, and the message keeps its other keys. */
  lemma FilterTouchesOnlyLastMessage(chat: map<string, Value>)
    ensures Filtered(chat).Keys == chat.Keys
    ensures forall k :: k in chat && k != "messages" ==> Filtered(chat)[k] == chat[k]
    ensures "messages" in chat && chat["messages"].List? ==>
      var before := chat["messages"].items;
      && Filtered(chat)["messages"].List?
      && var after := Filtered(chat)["messages"].items;
      && |after| == |before|
      && (|before| > 0 ==> after[..|after| - 1] == before[..|before| - 1])
    ensures Triggers(chat) ==>
      var last := Filtered(chat)["messages"].items[|chat["messages"].items| - 1];
      && last.Dict?
      && last.entries.Keys == LastMessage(chat).Keys + {"content"}
      && forall k :: k in LastMessage(chat) && k != "content" ==> last.entries[k] == LastMessage(chat)[k]
  {
  }

  /** A triggering message has a `content` key: without one the inspected
      text is empty. */
  lemma TriggerHasContent(chat: map<string, Value>)
    requires Triggers(chat)
    ensures "content" in LastMessage(chat)
  {
  }

  /** The request changes exactly when the filter triggers. */
  lemma FilterChangesIffTriggered(chat: map<string, Value>)
    ensures Filtered(chat) != chat <==> Triggers(chat)
  {
    if Triggers(chat) {
      var content := LastContent(chat);
      TriggerHasContent(chat);
      InspectedAfterReplacement(content);
      ReplacementIsNotCommand();
      var items := chat["messages"].items;
      var lastAfter := Filtered(chat)["messages"].items[|items| - 1];
      assert lastAfter.entries["content"] == WithReplacement(content) != content;
      assert lastAfter != items[|items| - 1];
      assert Filtered(chat)["messages"] != chat["messages"];
    }
  }

  /** The last message of the filtered request. */
  lemma FilteredLast(chat: map<string, Value>)
    requires Triggers(chat)
    ensures LastIsUserMessage(Filtered(chat))
    ensures LastMessage(Filtered(chat)) == LastMessage(chat)["content" := WithReplacement(LastContent(chat))]
  {
    var items := chat["messages"].items;
    var last := LastMessage(chat);
    var newItems := items[|items| - 1 := Dict(last["content" := WithReplacement(LastContent(chat))])];
    assert Filtered(chat)["messages"] == List(newItems);
    assert newItems[|newItems| - 1] == Dict(last["content" := WithReplacement(LastContent(chat))]);
  }

  /** Filtering twice is filtering once: the rewritten text is no command. */
  lemma FilterIdempotent(chat: map<string, Value>)
    ensures Filtered(Filtered(chat)) == Filtered(chat)
  {
    if Triggers(chat) {
      var once := Filtered(chat);
      FilteredLast(chat);
      InspectedAfterReplacement(LastContent(chat));
      ReplacementIsNotCommand();
      assert LastContent(once) == WithReplacement(LastContent(chat));
      assert !Triggers(once);
    }
  }

  /** Where the replacement goes: into the `text` of a leading dict block
      (keeping its other keys and every later block), over a leading non-dict
      block (keeping later blocks), or over the whole content. */
  lemma ReplacementPlacement(content: Value)
    requires IsCommand(InspectedText(content))
    ensures content.List? && content.items[0].Dict? ==>
      var r := WithReplacement(content);
      && r.List? && |r.items| == |content.items|
      && r.items[1..] == content.items[1..]
      && r.items[0].Dict?
      && r.items[0].entries == content.items[0].entries["text" := Str(Replacement)]
    ensures content.List? && !content.items[0].Dict? ==>
      WithReplacement(content) == List([Str(Replacement)] + content.items[1..])
    ensures !content.List? ==> WithReplacement(content) == Str(Replacement)
  {
    if content.List? {
      if |content.items| == 0 {
        NotCommandEmptyList();
      } else if content.items[0].Dict? {
        var r := WithReplacement(content);
        assert r.items[1..] == content.items[1..];
      } else {
        assert WithReplacement(content).items == [Str(Replacement)] + content.items[1..];
      }
    }
  }
}
