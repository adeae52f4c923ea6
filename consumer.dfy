/**
 * What the chat page's reader loop takes out of the response: every chunk
 * is split on newlines on its own, every `data: ` line is parsed, and the
 * non-empty `content` of each parsed event is appended to the running
 * `fullResponse`. Nothing is carried from one chunk to the next.
 */
module Consumer {
  import opened Base
  import opened Strings
  import opened Json
  import opened Wire

  /** What one line adds to `fullResponse`. Empty contents add nothing either way. */
  function LineContent(line: string): string {
    match ParseLine(line)
    case Some(Stream(content)) => content
    case _ => ""
  }

  /**
   * Only a `data: ` line whose event is a stream event adds anything, and
   * then exactly that event's content.
   */
  lemma LineContentOfStream(line: string)
    ensures LineContent(line) != "" ==> ParseLine(line) == Some(Stream(LineContent(line)))
  {
  }

  /**
   * The body of the reader's line loop: a line that starts with `data: `,
   * parses, and carries a non-empty (truthy) `content` yields that content;
   * every other line, including a parse failure, yields nothing.
   */
  method ReadLine(line: string) returns (content: Option<string>)
    ensures content.Some? <==> LineContent(line) != ""
    ensures content.Some? ==> content.value == LineContent(line)
  {
    content := None;
    if StartsWith(line, DataPrefix) {
      match ParsePayload(line[|DataPrefix|..]) {
        case Some(Stream(c)) =>
          if c != "" {
            content := Some(c);
          }
        case _ =>
      }
    }
  }

  /** What the lines of one chunk add, in order. */
  function LinesText(lines: seq<string>): string {
    if lines == [] then "" else LineContent(lines[0]) + LinesText(lines[1..])
  }

  /** Reading the lines from position `j` on: the line at `j`, then the rest. */
  lemma LinesTextFrom(lines: seq<string>, j: nat)
    requires j < |lines|
    ensures LinesText(lines[j..]) == LineContent(lines[j]) + LinesText(lines[j + 1..])
  {
    assert lines[j..][1..] == lines[j + 1..];
  }

  /** What one chunk adds: its own lines only. */
  function ChunkText(chunk: string): string {
    LinesText(Lines(chunk))
  }

  /** `fullResponse` after reading the given chunks, in order. */
  function Accumulated(chunks: seq<string>): string {
    if chunks == [] then "" else ChunkText(chunks[0]) + Accumulated(chunks[1..])
  }

  /** The text read from some lines is the contents of the events they decode to. */
  lemma {:induction false} LinesTextIsContents(lines: seq<string>)
    ensures LinesText(lines) == Contents(DecodeLines(lines))
  {
    if lines != [] {
      LinesTextIsContents(lines[1..]);
      match ParseLine(lines[0])
      case Some(e) =>
        assert Contents([e] + DecodeLines(lines[1..])) == Text(e) + Contents(DecodeLines(lines[1..])) by {
          assert ([e] + DecodeLines(lines[1..]))[1..] == DecodeLines(lines[1..]);
        }
      case None =>
        assert [] + DecodeLines(lines[1..]) == DecodeLines(lines[1..]);
    }
  }

  /** Lines that are not `data: ` lines, or do not parse, or carry no content, add nothing. */
  lemma {:induction false} ContentlessLinesAddNothing(lines: seq<string>)
    requires forall k :: 0 <= k < |lines| ==>
               !StartsWith(lines[k], DataPrefix) || ParseLine(lines[k]).None? || ParseLine(lines[k]) == Some(Complete)
                 || ParseLine(lines[k]) == Some(Stream(""))
    ensures LinesText(lines) == ""
  {
    if lines != [] {
      ContentlessLinesAddNothing(lines[1..]);
    }
  }

  /** A chunk made of whole records adds exactly the records' contents. */
  lemma ChunkTextOfRecords(es: seq<Event>)
    ensures ChunkText(FrameAll(es)) == Contents(es)
  {
    LinesTextIsContents(Lines(FrameAll(es)));
    DecodeFrameAll(es);
  }

  /** Reading a first chunk, then the rest. */
  lemma AccumulatedCons(chunk: string, rest: seq<string>)
    ensures Accumulated([chunk] + rest) == ChunkText(chunk) + Accumulated(rest)
  {
    assert ([chunk] + rest)[1..] == rest;
  }

  /** Reading more chunks appends to what was read: `fullResponse` only grows. */
  lemma {:induction false} AccumulatedAppend(chunks: seq<string>, more: seq<string>)
    ensures Accumulated(chunks + more) == Accumulated(chunks) + Accumulated(more)
  {
    if chunks == [] {
      assert chunks + more == more;
    } else {
      assert (chunks + more)[0] == chunks[0];
      assert (chunks + more)[1..] == chunks[1..] + more;
      AccumulatedAppend(chunks[1..], more);
      AppendAssociates(ChunkText(chunks[0]), Accumulated(chunks[1..]), Accumulated(more));
    }
  }

  /** Reading one more chunk appends that chunk's own text. */
  lemma AccumulatedSnoc(chunks: seq<string>, chunk: string)
    ensures Accumulated(chunks + [chunk]) == Accumulated(chunks) + ChunkText(chunk)
  {
    AccumulatedAppend(chunks, [chunk]);
    AccumulatedCons(chunk, []);
    assert [chunk] + [] == [chunk];
  }

  /** Reading the first `i + 1` chunks: the first `i`, then chunk `i`. */
  lemma AccumulatedPrefix(chunks: seq<string>, i: nat)
    requires i < |chunks|
    ensures Accumulated(chunks[..i + 1]) == Accumulated(chunks[..i]) + ChunkText(chunks[i])
  {
    assert chunks[..i + 1] == chunks[..i] + [chunks[i]];
    AccumulatedSnoc(chunks[..i], chunks[i]);
  }

  /** What was read before is always a prefix of what is read after. */
  lemma AccumulatedGrows(chunks: seq<string>, more: seq<string>)
    ensures StartsWith(Accumulated(chunks + more), Accumulated(chunks))
  {
    AccumulatedAppend(chunks, more);
    var a := Accumulated(chunks);
    assert (a + Accumulated(more))[..|a|] == a;
  }

  /** The record that carries the unit `[c]`, cut right after its opening quote. */
  lemma RecordOf(c: char)
    ensures Frame(Stream([c])) == (DataPrefix + StreamHead) + (EscapeChar(c) + StreamTail + "\n\n")
  {
    EscapeOne(c);
    RecordRegroup(DataPrefix, StreamHead, EscapeChar(c), StreamTail, "\n\n");
  }

  lemma EscapeOne(c: char)
    ensures Escape([c]) == EscapeChar(c)
  {
    assert [c][1..] == [];
    assert EscapeChar(c) + [] == EscapeChar(c);
  }

  lemma RecordRegroup(prefix: string, head: string, body: string, tail: string, end: string)
    ensures prefix + (head + body + tail) + end == (prefix + head) + (body + tail + end)
  {
  }

  /** The first half is a data line whose JSON, `{"content":"`, does not parse. */
  lemma HeadAddsNothing()
    ensures ChunkText(DataPrefix + StreamHead) == ""
  {
    var head := DataPrefix + StreamHead;
    assert '\n' !in head;
    assert Lines(head) == [head];
    assert head[|DataPrefix|..] == StreamHead;
    assert |StreamHead| < |CompletePayload| && |StreamHead| < |StreamHead| + |StreamTail|;
    assert ParsePayload(StreamHead) == None;
    assert LineContent(head) == "";
    var one: seq<string> := [head];
    assert one[1..] == [];
    assert LinesText(one) == LineContent(head) + LinesText([]);
  }

  /** The second half's first line: the rest of the JSON, which is not a data line. */
  lemma TailLineIsNotData(c: char)
    ensures '\n' !in EscapeChar(c) + StreamTail
    ensures !StartsWith(EscapeChar(c) + StreamTail, DataPrefix)
  {
    var escaped := EscapeChar(c);
    var line := escaped + StreamTail;
    assert '\n' !in escaped by {
      assert forall k :: 0 <= k < |escaped| ==> escaped[k] != '\n';
    }
    NoNewlineAppend(escaped, StreamTail);
    if escaped == [c] {
      assert line[1] == StreamTail[0] != DataPrefix[1];
    } else {
      assert line[0] == '\\' != DataPrefix[0];
    }
  }

  /** The second half is a line that is not a data line, then two blank lines. */
  lemma TailAddsNothing(c: char)
    ensures ChunkText(EscapeChar(c) + StreamTail + "\n\n") == ""
  {
    var line := EscapeChar(c) + StreamTail;
    TailLineIsNotData(c);
    TailLines(line);
    assert !StartsWith("", DataPrefix);
    ContentlessLinesAddNothing([line, "", ""]);
  }

  lemma TailLines(line: string)
    requires '\n' !in line
    ensures Lines(line + "\n\n") == [line, "", ""]
  {
    TwoNewlines(line);
    LinesCons(line, "\n");
    BlankLineLines();
  }

  lemma TwoNewlines(line: string)
    ensures line + "\n\n" == line + "\n" + "\n"
  {
  }

  /** A lone newline separates two empty lines. */
  lemma BlankLineLines()
    ensures Lines("\n") == ["", ""]
  {
    assert "" + "\n" + "" == "\n";
    LinesCons("", "");
    assert Lines("") == [""];
  }

  /**
   * A record split across two chunks is lost: neither half is a line that
   * parses, so the unit it carried, whatever character it is, never reaches
   * `fullResponse`.
   */
  lemma SplitRecordIsLost(c: char)
    ensures var record, cut := Frame(Stream([c])), |DataPrefix| + |StreamHead|;
            cut < |record| && Accumulated([record[..cut], record[cut..]]) == ""
  {
    RecordOf(c);
    var head, tail := DataPrefix + StreamHead, EscapeChar(c) + StreamTail + "\n\n";
    var record := head + tail;
    assert record[..|head|] == head && record[|head|..] == tail;
    HeadAddsNothing();
    TailAddsNothing(c);
    AccumulatedCons(head, [tail]);
    AccumulatedCons(tail, []);
    assert [tail] + [] == [tail];
  }
}
