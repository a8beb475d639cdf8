/** The text framing of server-sent events (section 9.2 of the WHATWG HTML Living
    Standard): `event: NAME\ndata: JSON\n\n` for message-block events and
    `data: JSON\n\n` for chat-completion chunks, and a reader that undoes both. */
module Sse {
  import opened Text
  import opened Wrappers

  /** `sse(event, data)`: one named event whose data line carries the JSON text. */
  function EventFrame(name: string, data: string): string {
    "event: " + name + "\ndata: " + data + "\n\n"
  }

  /** One unnamed event, as the chat-completion stream writes them. */
  function DataFrame(data: string): string {
    "data: " + data + "\n\n"
  }

  /** The first line of `s` (without its newline) and what follows the newline;
      `None` when `s` holds no newline. */
  function ReadLine(s: string): (r: Option<(string, string)>)
    ensures r.Some? ==> |r.value.1| < |s|
  {
    var k := IndexOf(s, '\n');
    if k == |s| then None else Some((s[..k], s[k + 1..]))
  }

  /** The value of a `field: value` line, when the line has that field. */
  function FieldValue(line: string, field: string): Option<string> {
    var prefix := field + ": ";
    if IsPrefix(prefix, line) then Some(line[|prefix|..]) else None
  }

  /** Reads one named event (`event:` line, `data:` line, blank line) from the front of
      `s`: its name, its data and the rest of the stream. */
  function ReadEvent(s: string): (r: Option<(string, string, string)>)
    ensures r.Some? ==> |r.value.2| < |s|
  {
    match ReadLine(s)
    case None => None
    case Some((l1, s1)) =>
      match ReadLine(s1)
      case None => None
      case Some((l2, s2)) =>
        match ReadLine(s2)
        case None => None
        case Some((l3, s3)) =>
          match (FieldValue(l1, "event"), FieldValue(l2, "data"))
          case (Some(name), Some(data)) => if l3 == [] then Some((name, data, s3)) else None
          case _ => None
  }

  /** Reads one unnamed event (`data:` line, blank line) from the front of `s`. */
  function ReadData(s: string): (r: Option<(string, string)>)
    ensures r.Some? ==> |r.value.1| < |s|
  {
    match ReadLine(s)
    case None => None
    case Some((l1, s1)) =>
      match ReadLine(s1)
      case None => None
      case Some((l2, s2)) =>
        match FieldValue(l1, "data")
        case Some(data) => if l2 == [] then Some((data, s2)) else None
        case None => None
  }

  lemma ReadLineOf(line: string, rest: string)
    requires '\n' !in line
    ensures ReadLine(line + "\n" + rest) == Some((line, rest))
  {
    var s := line + "\n" + rest;
    assert forall i :: 0 <= i < |line| ==> line[i] != '\n';
    IndexOfPrefix(line, "\n" + rest, '\n');
    assert s == line + ("\n" + rest);
    assert s[..|line|] == line;
    assert s[|line| + 1..] == rest;
  }

  lemma FieldValueOf(field: string, value: string)
    ensures FieldValue(field + ": " + value, field) == Some(value)
  {
    var line := field + ": " + value;
    assert line[..|field + ": "|] == field + ": ";
    assert line[|field + ": "|..] == value;
  }

  /** The three lines of a named event frame. */
  lemma EventFrameLines(name: string, data: string, rest: string)
    requires '\n' !in name && '\n' !in data
    ensures var s1 := "data: " + data + "\n" + ("\n" + rest);
      && ReadLine(EventFrame(name, data) + rest) == Some(("event: " + name, s1))
      && ReadLine(s1) == Some(("data: " + data, "\n" + rest))
      && ReadLine("\n" + rest) == Some(([], rest))
  {
    var l1 := "event: " + name;
    var l2 := "data: " + data;
    assert '\n' !in l1 && '\n' !in l2;
    var s1 := l2 + "\n" + ("\n" + rest);
    assert EventFrame(name, data) + rest == l1 + "\n" + s1;
    ReadLineOf(l1, s1);
    ReadLineOf(l2, "\n" + rest);
    assert "\n" + rest == [] + "\n" + rest;
    ReadLineOf([], rest);
  }

  /** A named event frame reads back as the name and data it was written with, leaving
      the rest of the stream untouched, provided neither holds a newline (JSON text
      produced by `json.dumps` never does). */
  lemma {:induction false} EventFrameRoundTrip(name: string, data: string, rest: string)
    requires '\n' !in name && '\n' !in data
    ensures ReadEvent(EventFrame(name, data) + rest) == Some((name, data, rest))
  {
    EventFrameLines(name, data, rest);
    FieldValueOf("event", name);
    FieldValueOf("data", data);
  }

  /** A data frame reads back as its data, leaving the rest of the stream untouched. */
  lemma {:induction false} DataFrameRoundTrip(data: string, rest: string)
    requires '\n' !in data
    ensures ReadData(DataFrame(data) + rest) == Some((data, rest))
  {
    var l1 := "data: " + data;
    assert '\n' !in l1;
    var s := DataFrame(data) + rest;
    var s1 := "\n" + rest;
    assert s == l1 + "\n" + s1;
    ReadLineOf(l1, s1);
    assert s1 == [] + "\n" + rest;
    ReadLineOf([], rest);
    FieldValueOf("data", data);
  }

  /** A whole stream of named events on the wire. */
  function EventStream(frames: seq<(string, string)>): string {
    if frames == [] then [] else EventFrame(frames[0].0, frames[0].1) + EventStream(frames[1..])
  }

  /** Reads named events until the stream is exhausted. */
  function ReadEvents(s: string): Option<seq<(string, string)>>
    decreases |s|
  {
    if s == [] then Some([])
    else
      match ReadEvent(s)
      case None => None
      case Some((name, data, rest)) =>
        match ReadEvents(rest)
        case None => None
        case Some(more) => Some([(name, data)] + more)
  }

  /** A client reading the stream recovers every event, in order. */
  lemma {:induction false} EventStreamRoundTrip(frames: seq<(string, string)>)
    requires forall i :: 0 <= i < |frames| ==> '\n' !in frames[i].0 && '\n' !in frames[i].1
    ensures ReadEvents(EventStream(frames)) == Some(frames)
  {
    if frames != [] {
      var rest := EventStream(frames[1..]);
      var s := EventStream(frames);
      assert s == EventFrame(frames[0].0, frames[0].1) + rest;
      EventFrameRoundTrip(frames[0].0, frames[0].1, rest);
      EventStreamRoundTrip(frames[1..]);
      assert s != [];
      assert ReadEvents(s) == Some([frames[0]] + frames[1..]);
      assert [frames[0]] + frames[1..] == frames;
    }
  }
}
