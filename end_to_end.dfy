/**
 * The search route and the chat page together: when the chunks the reader
 * receives are made of whole records, the AI message and the recorded
 * session end up holding exactly the reply the route chose.
 */
module EndToEnd {
  import opened Base
  import opened Strings
  import opened Wire
  import opened SearchRoute
  import opened Consumer
  import opened Conversation
  import opened Page

  /** The events of the groups, in order. */
  function Flatten(groups: seq<seq<Event>>): seq<Event> {
    if groups == [] then [] else groups[0] + Flatten(groups[1..])
  }

  /** One chunk per group, each holding that group's whole records. */
  function RecordChunks(groups: seq<seq<Event>>): (chunks: seq<string>)
    ensures |chunks| == |groups|
    ensures forall k :: 0 <= k < |groups| ==> chunks[k] == FrameAll(groups[k])
  {
    seq(|groups|, k requires 0 <= k < |groups| => FrameAll(groups[k]))
  }

  /** Record-aligned chunks deliver exactly the contents of the records. */
  lemma {:induction false} AccumulatedOfRecordChunks(groups: seq<seq<Event>>)
    ensures Accumulated(RecordChunks(groups)) == Contents(Flatten(groups))
  {
    if groups != [] {
      var chunks := RecordChunks(groups);
      assert chunks == [FrameAll(groups[0])] + RecordChunks(groups[1..]);
      AccumulatedCons(FrameAll(groups[0]), RecordChunks(groups[1..]));
      ChunkTextOfRecords(groups[0]);
      AccumulatedOfRecordChunks(groups[1..]);
      ContentsAppend(groups[0], Flatten(groups[1..]));
    }
  }

  /**
   * With chunks that split the route's records only between records, the
   * finished AI message and the session's copy of it both hold the reply
   * the route generated for the query.
   */
  lemma ExchangeDeliversReply(s: PageState, groups: seq<seq<Event>>, clock: Clock)
    requires !Blank(s.query) && clock.userNow <= clock.aiNow
    requires Flatten(groups) == StreamEvents(GenerateReply(s.query))
    ensures var r := Send(s, Transport(RecordChunks(groups), false), clock);
            && r.messages[|s.messages| + 1].content == GenerateReply(s.query)
            && r.messages[|s.messages| + 1].isStreaming == Some(false)
            && r.chatHistory[0].messages[1].content == GenerateReply(s.query)
  {
    AccumulatedOfRecordChunks(groups);
    ContentsOfStreamEvents(GenerateReply(s.query));
    SendCommitsSession(s, Transport(RecordChunks(groups), false), clock);
  }

  /** Chunks of one record each deliver exactly the contents of the records. */
  lemma AccumulatedOfFrames(es: seq<Event>)
    ensures Accumulated(Frames(es)) == Contents(es)
  {
    var groups := seq(|es|, k requires 0 <= k < |es| => [es[k]]);
    assert RecordChunks(groups) == Frames(es) by {
      forall k | 0 <= k < |es| ensures FrameAll(groups[k]) == Frame(es[k]) {
        assert groups[k][1..] == [];
      }
    }
    FlattenSingletons(es, groups);
    AccumulatedOfRecordChunks(groups);
  }

  /** The case where every enqueued record arrives as a chunk of its own. */
  lemma OneChunkPerRecord(s: PageState, clock: Clock)
    requires !Blank(s.query) && clock.userNow <= clock.aiNow
    ensures var r := Send(s, Transport(Frames(StreamEvents(GenerateReply(s.query))), false), clock);
            r.messages[|s.messages| + 1].content == GenerateReply(s.query)
  {
    var reply := GenerateReply(s.query);
    AccumulatedOfFrames(StreamEvents(reply));
    ContentsOfStreamEvents(reply);
    SendCommitsSession(s, Transport(Frames(StreamEvents(reply)), false), clock);
  }

  lemma {:induction false} FlattenSingletons(es: seq<Event>, groups: seq<seq<Event>>)
    requires |groups| == |es| && forall k :: 0 <= k < |es| ==> groups[k] == [es[k]]
    ensures Flatten(groups) == es
  {
    if es != [] {
      FlattenSingletons(es[1..], groups[1..]);
      assert es == [es[0]] + es[1..];
    }
  }

  /**
   * A full exchange: the route answers the page's query, each record
   * arrives as its own chunk, and the page reads them to the end.
   */
  method Converse(home: Home, clock: Clock)
    requires !Blank(home.query) && clock.userNow <= clock.aiNow
    modifies home
    ensures |home.messages| == |old(home.messages)| + 2
    ensures home.messages[|old(home.messages)| + 1].content == GenerateReply(old(home.query))
    ensures |home.chatHistory| >= 1 && |home.chatHistory[0].messages| == 2
    ensures home.chatHistory[0].messages[1].content == GenerateReply(old(home.query))
    ensures !home.isSearching
  {
    ghost var s := home.State();
    var records := Post(home.query);
    home.HandleSendMessage(Transport(records, false), clock);
    OneChunkPerRecord(s, clock);
    SendCommitsSession(s, Transport(records, false), clock);
  }
}
