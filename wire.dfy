/**
 * The event records of the search stream: `data: <JSON>` followed by a
 * blank line, as server-sent events are framed in section 9.2 of the WHATWG
 * HTML Living Standard, carrying either one unit of reply text or the
 * completion marker.
 */
module Wire {
  import opened Base
  import opened Strings
  import opened Json

  /** `{content, type: "stream"}` or `{type: "complete"}` */
  datatype Event = Stream(content: string) | Complete

  const DataPrefix: string := "data: "
  const StreamHead: string := "{\"content\":\""
  const StreamTail: string := "\",\"type\":\"stream\"}"
  const CompletePayload: string := "{\"type\":\"complete\"}"

  /** `JSON.stringify` of an event object, with its keys in insertion order. */
  function Payload(e: Event): (p: string)
    ensures '\n' !in p
  {
    match e
    case Stream(c) => StreamHead + Escape(c) + StreamTail
    case Complete => CompletePayload
  }

  /**
   * `JSON.parse` of a payload, for the two object shapes the stream carries.
   * Only the exact completion object reads as completion.
   */
  function ParsePayload(p: string): Option<Event> {
    if p == CompletePayload then Some(Complete)
    else if |p| >= |StreamHead| + |StreamTail|
         && p[..|StreamHead|] == StreamHead && p[|p| - |StreamTail|..] == StreamTail then
      match Unescape(p[|StreamHead|..|p| - |StreamTail|])
      case Some(c) => Some(Stream(c))
      case None => None
    else None
  }

  /** Parsing what was serialised gives back the event. */
  lemma ParsePayloadOfPayload(e: Event)
    ensures ParsePayload(Payload(e)) == Some(e)
  {
    if e.Stream? {
      var p := Payload(e);
      assert |p| != |CompletePayload|;
      assert p[..|StreamHead|] == StreamHead;
      assert p[|p| - |StreamTail|..] == StreamTail;
      assert p[|StreamHead|..|p| - |StreamTail|] == Escape(e.content);
      UnescapeEscape(e.content);
    }
  }

  /** One record as the route enqueues it. */
  function Frame(e: Event): string {
    DataPrefix + Payload(e) + "\n\n"
  }

  /** The response body: the records in order. */
  function FrameAll(es: seq<Event>): string {
    if es == [] then "" else Frame(es[0]) + FrameAll(es[1..])
  }

  /** The records one by one, as they are enqueued. */
  function Frames(es: seq<Event>): (records: seq<string>)
    ensures |records| == |es|
    ensures forall i :: 0 <= i < |es| ==> records[i] == Frame(es[i])
  {
    seq(|es|, i requires 0 <= i < |es| => Frame(es[i]))
  }

  /** Enqueueing the records one by one writes the body `FrameAll`. */
  lemma {:induction false} ConcatFrames(es: seq<Event>)
    ensures Concat(Frames(es)) == FrameAll(es)
  {
    if es != [] {
      assert Frames(es)[1..] == Frames(es[1..]);
      ConcatFrames(es[1..]);
    }
  }

  /** The text an event carries: its content, or nothing for the completion marker. */
  function Text(e: Event): string {
    match e
    case Stream(c) => c
    case Complete => ""
  }

  /** The texts of the events, concatenated in order. */
  function Contents(es: seq<Event>): string {
    if es == [] then "" else Text(es[0]) + Contents(es[1..])
  }

  lemma {:induction false} ContentsAppend(a: seq<Event>, b: seq<Event>)
    ensures Contents(a + b) == Contents(a) + Contents(b)
  {
    if a == [] {
      assert a + b == b;
    } else {
      assert (a + b)[0] == a[0];
      assert (a + b)[1..] == a[1..] + b;
      ContentsAppend(a[1..], b);
    }
  }

  /** What the reader takes from one line: an event, or nothing for a line that is not a well-formed `data: ` line. */
  function ParseLine(line: string): Option<Event> {
    if StartsWith(line, DataPrefix) then ParsePayload(line[|DataPrefix|..]) else None
  }

  /**
   * Only a `data: ` line parses, and the exact completion object is the only
   * payload that reads as completion.
   */
  lemma ParseLineShapes(line: string)
    ensures ParseLine(line).Some? ==> StartsWith(line, DataPrefix)
    ensures StartsWith(line, DataPrefix) ==>
              (ParseLine(line) == Some(Complete) <==> line[|DataPrefix|..] == CompletePayload)
  {
  }

  /** The events of the lines that parse, in order. */
  function DecodeLines(lines: seq<string>): seq<Event> {
    if lines == [] then []
    else
      (match ParseLine(lines[0]) case Some(e) => [e] case None => []) + DecodeLines(lines[1..])
  }

  /** Split a body on newlines and read every line. */
  function DecodeBody(body: string): seq<Event> {
    DecodeLines(Lines(body))
  }

  /** A data line with a newline-free payload, a blank line, then anything. */
  lemma DataLines(p: string, rest: string)
    requires '\n' !in p
    ensures Lines(DataPrefix + p + "\n\n" + rest) == [DataPrefix + p, ""] + Lines(rest)
  {
    var line := DataPrefix + p;
    assert '\n' !in line by {
      assert '\n' !in DataPrefix;
      NoNewlineAppend(DataPrefix, p);
    }
    NewlinesRegroup(line, rest);
    LinesCons(line, "" + "\n" + rest);
    LinesCons("", rest);
    ConsCons(line, "", Lines(rest));
  }

  /** A record followed by anything splits into its data line, a blank line, and the rest's lines. */
  lemma FrameLines(e: Event, rest: string)
    ensures Lines(Frame(e) + rest) == [DataPrefix + Payload(e), ""] + Lines(rest)
  {
    DataLines(Payload(e), rest);
  }

  /** The data line of a record reads back as the record's event. */
  lemma ParseLineOfFrame(e: Event)
    ensures ParseLine(DataPrefix + Payload(e)) == Some(e)
  {
    assert (DataPrefix + Payload(e))[..|DataPrefix|] == DataPrefix;
    assert (DataPrefix + Payload(e))[|DataPrefix|..] == Payload(e);
    ParsePayloadOfPayload(e);
  }

  /** Reading a data line followed by a blank line. */
  lemma DecodeLinesDataBlank(line: string, e: Event, rest: seq<string>)
    requires ParseLine(line) == Some(e)
    ensures DecodeLines([line, ""] + rest) == [e] + DecodeLines(rest)
  {
    var lines := [line, ""] + rest;
    assert lines[0] == line;
    assert lines[1..] == [""] + rest;
    assert !StartsWith("", DataPrefix);
    assert ([""] + rest)[1..] == rest;
  }

  lemma DecodeEmptyBody()
    ensures DecodeBody("") == []
  {
    assert '\n' !in "";
    assert Lines("") == [""];
    assert !StartsWith("", DataPrefix);
    assert [""][1..] == [];
  }

  /** Serialise then parse: splitting a body on newlines and reading each `data: ` line recovers exactly the events written. */
  lemma {:induction false} DecodeFrameAll(es: seq<Event>)
    ensures DecodeBody(FrameAll(es)) == es
  {
    if es == [] {
      DecodeEmptyBody();
    } else {
      var rest := FrameAll(es[1..]);
      FrameLines(es[0], rest);
      ParseLineOfFrame(es[0]);
      DecodeLinesDataBlank(DataPrefix + Payload(es[0]), es[0], Lines(rest));
      DecodeFrameAll(es[1..]);
      assert es == [es[0]] + es[1..];
    }
  }
}
