/** Prompt normalisation of the message-block proxy: `_flatten` and
    `messages_to_prompt` turn structured chat messages into one flat text prompt. */
module ProxyPrompt {
  import opened Wrappers
  import opened Text
  import opened Messages

  /** `[tool_use: NAME(INPUT-JSON)]`, the note a tool call becomes. */
  function ToolUseNote(name: string, inputJson: string): string {
    "[tool_use: " + name + "(" + inputJson + ")]"
  }

  /** What one element of a content array contributes, or `None` when it is dropped
      (an object whose `type` is none of `text`, `tool_result`, `tool_use`). */
  function Part(item: Item): Option<string>
    decreases item
  {
    match item
    case NonDict(shown) => Some(shown)
    case Dict(kind, text, content, name, input) =>
      var btype := kind.GetOr("");
      if btype == "text" then Some(text.GetOr(""))
      else if btype == "tool_result" then Some(if content.Some? then Flatten(content.value) else "")
      else if btype == "tool_use" then Some(ToolUseNote(name.GetOr("tool"), input.GetOr("{}")))
      else None
  }

  /** The non-empty contributions of the items, in order. */
  function Kept(parts: seq<Option<string>>): seq<string> {
    if parts == [] then []
    else (if parts[0].Some? && parts[0].value != [] then [parts[0].value] else []) + Kept(parts[1..])
  }

  /** `_flatten(content)`. */
  function Flatten(c: Content): string
    decreases c
  {
    match c
    case Str(s) => s
    case List(items) => Join("\n", Kept(seq(|items|, i requires 0 <= i < |items| => Part(items[i]))))
    case Other(shown, _) => shown
  }

  /** What an item adds to the flattened text ("" when it is dropped or empty). */
  function ItemText(item: Item): string {
    Part(item).GetOr("")
  }

  /** Two flattened pieces joined by a newline, the empty ones leaving no trace. */
  function JoinTwo(x: string, y: string): string {
    if x == [] then y else if y == [] then x else x + "\n" + y
  }

  lemma {:induction false} KeptAppend(a: seq<Option<string>>, b: seq<Option<string>>)
    ensures Kept(a + b) == Kept(a) + Kept(b)
  {
    if a == [] {
      assert a + b == b;
    } else {
      assert (a + b)[1..] == a[1..] + b;
      KeptAppend(a[1..], b);
    }
  }

  lemma {:induction false} KeptNonEmpty(a: seq<Option<string>>)
    ensures forall i :: 0 <= i < |Kept(a)| ==> Kept(a)[i] != []
  {
    if a != [] {
      KeptNonEmpty(a[1..]);
    }
  }

  /** Joining non-empty pieces yields the empty string only for no pieces. */
  lemma {:induction false} JoinEmpty(xs: seq<string>)
    requires forall i :: 0 <= i < |xs| ==> xs[i] != []
    ensures Join("\n", xs) == [] <==> xs == []
  {
    if |xs| > 1 {
      assert xs[0] != [];
    }
  }

  lemma {:induction false} JoinAppend(xs: seq<string>, ys: seq<string>)
    requires forall i :: 0 <= i < |xs| ==> xs[i] != []
    requires forall i :: 0 <= i < |ys| ==> ys[i] != []
    ensures Join("\n", xs + ys) == JoinTwo(Join("\n", xs), Join("\n", ys))
  {
    JoinEmpty(xs);
    JoinEmpty(ys);
    if xs == [] {
      assert xs + ys == ys;
    } else if ys == [] {
      assert xs + ys == xs;
    } else if |xs| == 1 {
      assert (xs + ys)[1..] == ys;
    } else {
      assert (xs + ys)[1..] == xs[1..] + ys;
      JoinAppend(xs[1..], ys);
      JoinEmpty(xs[1..]);
    }
  }

  function Parts(items: seq<Item>): seq<Option<string>> {
    seq(|items|, i requires 0 <= i < |items| => Part(items[i]))
  }

  /** Flattening a block list is compositional: the blocks of `a + b` flatten to the
      flattening of `a` and of `b` joined by a newline, an empty side leaving no trace. */
  lemma FlattenAppend(a: seq<Item>, b: seq<Item>)
    ensures Flatten(List(a + b)) == JoinTwo(Flatten(List(a)), Flatten(List(b)))
  {
    assert Parts(a + b) == Parts(a) + Parts(b);
    KeptAppend(Parts(a), Parts(b));
    KeptNonEmpty(Parts(a));
    KeptNonEmpty(Parts(b));
    JoinAppend(Kept(Parts(a)), Kept(Parts(b)));
  }

  /** One block flattens to what it contributes: a text block to its text, a tool result
      to its flattened content, a tool call to its note, a non-object to its `str()`, and
      an object of any other type to nothing. */
  lemma FlattenOne(item: Item)
    ensures Flatten(List([item])) == ItemText(item)
    ensures item.NonDict? ==> Flatten(List([item])) == item.shown
    ensures item.Dict? && item.kind == Some("text") ==> Flatten(List([item])) == item.text.GetOr("")
    ensures item.Dict? && item.kind == Some("tool_result") ==>
      Flatten(List([item])) == Flatten(item.content.GetOr(Str("")))
    ensures item.Dict? && item.kind == Some("tool_use") ==>
      Flatten(List([item])) == ToolUseNote(item.name.GetOr("tool"), item.input.GetOr("{}"))
    ensures item.Dict? && item.kind.GetOr("") !in {"text", "tool_result", "tool_use"} ==>
      Flatten(List([item])) == ""
  {
    assert Parts([item]) == [Part(item)];
    assert Kept([Part(item)]) == (if Part(item).Some? && Part(item).value != [] then [Part(item).value] else []) + Kept([]);
  }

  /** A dropped block can be removed without changing the flattened text. */
  lemma FlattenDropsUnknown(a: seq<Item>, item: Item, b: seq<Item>)
    requires item.Dict? && item.kind.GetOr("") !in {"text", "tool_result", "tool_use"}
    ensures Flatten(List(a + [item] + b)) == Flatten(List(a + b))
  {
    FlattenAppend(a + [item], b);
    FlattenAppend(a, [item]);
    FlattenOne(item);
    FlattenAppend(a, b);
  }

  /** The bracketed system annotation. */
  function SystemLine(system: Content): string {
    "[System: " + Flatten(system) + "]"
  }

  /** One message's line: bare content for `user` (also when the role is missing),
      `role: content` for any other role. */
  function MessageLine(m: Message): string {
    var role := m.role.GetOr("user");
    var content := Flatten(m.content.GetOr(Str("")));
    if role != "user" then role + ": " + content else content
  }

  /** The messages' lines, in order. */
  function MessageLines(messages: seq<Message>): (r: seq<string>)
    ensures |r| == |messages| && forall i :: 0 <= i < |messages| ==> r[i] == MessageLine(messages[i])
  {
    seq(|messages|, i requires 0 <= i < |messages| => MessageLine(messages[i]))
  }

  /** The parts `messages_to_prompt` collects before joining. */
  function PromptParts(messages: seq<Message>, system: Content): seq<string> {
    (if system.Truthy() then [SystemLine(system)] else []) + MessageLines(messages)
  }

  /** `messages_to_prompt(messages, system)`. */
  function MessagesToPrompt(messages: seq<Message>, system: Content): string {
    Join("\n", PromptParts(messages, system))
  }

  /** Shape of the prompt: a leading `[System: ...]` part exactly when `system` is
      truthy, then one part per message in order; when no part holds a newline, a
      reader splitting the prompt at newlines gets exactly those parts back. */
  lemma PromptShape(messages: seq<Message>, system: Content)
    ensures var parts := PromptParts(messages, system);
      var offset := if system.Truthy() then 1 else 0;
      && |parts| == |messages| + offset
      && (system.Truthy() ==> parts[0] == SystemLine(system))
      && (forall i :: 0 <= i < |messages| ==> parts[offset + i] == MessageLine(messages[i]))
    ensures var parts := PromptParts(messages, system);
      parts != [] && (forall i :: 0 <= i < |parts| ==> '\n' !in parts[i]) ==>
        SplitOn(MessagesToPrompt(messages, system), '\n') == parts
    ensures messages == [] && !system.Truthy() ==> MessagesToPrompt(messages, system) == ""
  {
    PromptLayout(messages, system);
    var parts := PromptParts(messages, system);
    if parts != [] && (forall i :: 0 <= i < |parts| ==> '\n' !in parts[i]) {
      JoinSplitRoundTrip(parts, '\n');
    }
    if messages == [] && !system.Truthy() {
      assert parts == [];
    }
  }

  lemma PromptLayout(messages: seq<Message>, system: Content)
    ensures var parts := PromptParts(messages, system);
      var offset := if system.Truthy() then 1 else 0;
      && |parts| == |messages| + offset
      && (system.Truthy() ==> parts[0] == SystemLine(system))
      && (forall i :: 0 <= i < |messages| ==> parts[offset + i] == MessageLine(messages[i]))
  {
    var lines := MessageLines(messages);
    if system.Truthy() {
      assert PromptParts(messages, system) == [SystemLine(system)] + lines;
      assert forall i :: 0 <= i < |messages| ==> ([SystemLine(system)] + lines)[1 + i] == lines[i];
    } else {
      assert PromptParts(messages, system) == lines;
    }
  }

  /** No part holds a newline, so the newline join can be split back apart. */
  predicate OneLineParts(parts: seq<string>) {
    forall k :: 0 <= k < |parts| ==> '\n' !in parts[k]
  }

  /** Read back from the prompt itself, when no part holds a newline: the line of a
      `user` message, or of one without a role, is its flattened content alone, and
      the line of a message of any other role is `role: content`. */
  lemma PromptLineRoles(messages: seq<Message>, system: Content, i: nat)
    requires i < |messages|
    ensures var offset := if system.Truthy() then 1 else 0;
      var lines := SplitOn(MessagesToPrompt(messages, system), '\n');
      var content := Flatten(messages[i].content.GetOr(Str("")));
      OneLineParts(PromptParts(messages, system)) ==>
        && |lines| == |messages| + offset
        && (messages[i].role.GetOr("user") == "user" ==> lines[offset + i] == content)
        && (messages[i].role.GetOr("user") != "user" ==> lines[offset + i] == messages[i].role.value + ": " + content)
  {
    var parts := PromptParts(messages, system);
    if OneLineParts(parts) {
      PromptLayout(messages, system);
      JoinSplitRoundTrip(parts, '\n');
    }
  }
}
