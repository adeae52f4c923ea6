/**
 * The conversation records of the chat page and the pure list operations
 * on them: the session title, the capped history prepend, the id-targeted
 * message updates and the bookmark toggle.
 */
module Conversation {
  import opened Base
  import opened Strings

  datatype Sender = User | Ai

  /**
   * `ChatMessage`. Ids and timestamps are clock readings; `isStreaming` is
   * absent on user messages.
   */
  datatype ChatMessage = ChatMessage(id: int, sender: Sender, content: string, timestamp: int, isStreaming: Option<bool>)

  /** `ChatHistory`: one finished exchange. */
  datatype ChatHistory = ChatHistory(id: int, title: string, timestamp: int, messages: seq<ChatMessage>)

  datatype Tab = Chat | History | Bookmarks

  /** The text an AI message gets when the exchange fails. */
  const ErrorText: string := "申し訳ございません。エラーが発生しました。"

  const TitleLength: nat := 50
  const Ellipsis: string := "..."
  const HistoryCap: nat := 50

  /** The characters `String.prototype.trim` removes: white space and line terminators. */
  predicate IsJsWhitespace(c: char) {
    c == '\t' || c == '\n' || c == '\U{B}' || c == '\U{C}' || c == '\r' || c == ' '
    || c == '\U{A0}' || c == '\U{1680}' || ('\U{2000}' <= c <= '\U{200A}')
    || c == '\U{2028}' || c == '\U{2029}' || c == '\U{202F}' || c == '\U{205F}'
    || c == '\U{3000}' || c == '\U{FEFF}'
  }

  /** `!query.trim()`: the query is empty once trimmed. */
  predicate Blank(s: string) {
    forall k :: 0 <= k < |s| ==> IsJsWhitespace(s[k])
  }

  /** The session title: the first 50 characters of the query, with "..." when it was longer. */
  function Title(query: string): (title: string)
    ensures |title| <= TitleLength + |Ellipsis|
    ensures |query| <= TitleLength ==> title == query
    ensures |query| > TitleLength ==>
              |title| == TitleLength + |Ellipsis| && StartsWith(query, title[..TitleLength])
              && title[TitleLength..] == Ellipsis
  {
    var cut := if |query| < TitleLength then |query| else TitleLength;
    query[..cut] + (if |query| > TitleLength then Ellipsis else "")
  }

  /** `[session, ...prev.slice(0, 49)]`: prepend the new session and keep at most 50. */
  function Committed(history: seq<ChatHistory>, session: ChatHistory): (r: seq<ChatHistory>)
    ensures |r| <= HistoryCap && |r| >= 1 && r[0] == session
    ensures |history| < HistoryCap ==> r == [session] + history
    ensures |history| >= HistoryCap ==> r == [session] + history[..HistoryCap - 1]
  {
    [session] + history[..if |history| < HistoryCap - 1 then |history| else HistoryCap - 1]
  }

  function Reverse<T>(s: seq<T>): (r: seq<T>)
    ensures |r| == |s|
  {
    if s == [] then [] else Reverse(s[1..]) + [s[0]]
  }

  /** The history after several exchanges commit, one after another. */
  function CommitAll(history: seq<ChatHistory>, sessions: seq<ChatHistory>): seq<ChatHistory>
    decreases |sessions|
  {
    if sessions == [] then history else CommitAll(Committed(history, sessions[0]), sessions[1..])
  }

  function Min(a: int, b: int): int { if a < b then a else b }

  /** One commit onto a list that is already newest-first. */
  lemma CommitOnto(newer: seq<ChatHistory>, s: ChatHistory, history: seq<ChatHistory>)
    ensures (newer + Committed(history, s))[..Min(HistoryCap, |newer| + 1 + |history|)]
         == (newer + [s] + history)[..Min(HistoryCap, |newer| + 1 + |history|)]
  {
    var n := Min(HistoryCap, |newer| + 1 + |history|);
    var a, b := newer + Committed(history, s), newer + [s] + history;
    assert |a| >= n;
    forall k | 0 <= k < n ensures a[k] == b[k] {
      if k > |newer| {
        assert a[k] == history[k - |newer| - 1];
      }
    }
  }

  /**
   * The history is newest-first and capped: after committing a non-empty run
   * of sessions it holds the latest sessions, newest first, followed by the
   * old history, cut to 50 entries; the oldest are evicted first.
   */
  lemma {:induction false} CommitAllKeepsNewest(history: seq<ChatHistory>, sessions: seq<ChatHistory>)
    requires sessions != [] || |history| <= HistoryCap
    ensures var n := Min(HistoryCap, |sessions| + |history|);
            CommitAll(history, sessions) == (Reverse(sessions) + history)[..n]
    decreases |sessions|
  {
    if sessions == [] {
      assert Reverse(sessions) + history == history;
    } else {
      var s, rest := sessions[0], sessions[1..];
      var h1 := Committed(history, s);
      CommitAllKeepsNewest(h1, rest);
      assert Reverse(sessions) == Reverse(rest) + [s];
      CommitOnto(Reverse(rest), s, history);
      var n := Min(HistoryCap, |sessions| + |history|);
      var n1 := Min(HistoryCap, |rest| + |h1|);
      assert n1 == n;
      assert Reverse(rest) + [s] + history == Reverse(sessions) + history;
    }
  }

  /** `prev.map(msg => msg.id === id ? {...msg, content} : msg)` while streaming. */
  function WithContent(messages: seq<ChatMessage>, id: int, content: string): (r: seq<ChatMessage>)
    ensures |r| == |messages|
    ensures forall k :: 0 <= k < |r| ==>
              r[k] == if messages[k].id == id then messages[k].(content := content) else messages[k]
  {
    seq(|messages|, k requires 0 <= k < |messages| =>
      if messages[k].id == id then messages[k].(content := content) else messages[k])
  }

  /** The same map with `isStreaming: false`: how the AI message is finalised. */
  function Finalized(messages: seq<ChatMessage>, id: int, content: string): (r: seq<ChatMessage>)
    ensures |r| == |messages|
    ensures forall k :: 0 <= k < |r| ==>
              r[k] == if messages[k].id == id
                      then messages[k].(content := content, isStreaming := Some(false))
                      else messages[k]
  {
    seq(|messages|, k requires 0 <= k < |messages| =>
      if messages[k].id == id
      then messages[k].(content := content, isStreaming := Some(false))
      else messages[k])
  }

  /** `now` is `base` with at most the contents of the messages with the given id replaced. */
  ghost predicate OnlyContentChanged(now: seq<ChatMessage>, base: seq<ChatMessage>, id: int) {
    |now| == |base|
    && forall k :: 0 <= k < |base| ==>
         now[k] == if base[k].id == id then base[k].(content := now[k].content) else base[k]
  }

  /** A streaming update changes only the targeted messages' contents. */
  lemma WithContentChangesOnlyContent(now: seq<ChatMessage>, base: seq<ChatMessage>, id: int, content: string)
    requires OnlyContentChanged(now, base, id)
    ensures OnlyContentChanged(WithContent(now, id, content), base, id)
  {
  }

  /**
   * A streaming update replaces what an earlier one wrote: the list that shows
   * `earlier` (or nothing yet) shows the non-empty `later` after the update.
   */
  lemma WithContentOverwrites(now: seq<ChatMessage>, start: seq<ChatMessage>, id: int, earlier: string, later: string)
    requires now == if earlier == "" then start else WithContent(start, id, earlier)
    requires later != ""
    ensures WithContent(now, id, later) == WithContent(start, id, later)
  {
  }

  /** Finalisation overwrites every content the streaming updates wrote. */
  lemma FinalizedOverwritesContent(now: seq<ChatMessage>, base: seq<ChatMessage>, id: int, content: string)
    requires OnlyContentChanged(now, base, id)
    ensures Finalized(now, id, content) == Finalized(base, id, content)
  {
  }

  /** `prev.some(b => b.id === id)` */
  function Bookmarked(bookmarks: seq<ChatMessage>, id: int): (b: bool)
    ensures b <==> exists k :: 0 <= k < |bookmarks| && bookmarks[k].id == id
  {
    bookmarks != [] && (bookmarks[0].id == id || Bookmarked(bookmarks[1..], id))
  }

  /** No id appears twice. */
  predicate UniqueIds(bookmarks: seq<ChatMessage>) {
    forall i, j :: 0 <= i < j < |bookmarks| ==> bookmarks[i].id != bookmarks[j].id
  }

  /** `prev.filter(b => b.id !== id)` */
  function WithoutId(bookmarks: seq<ChatMessage>, id: int): (r: seq<ChatMessage>)
    ensures forall k :: 0 <= k < |r| ==> r[k].id != id && r[k] in bookmarks
    ensures forall k :: 0 <= k < |bookmarks| && bookmarks[k].id != id ==> bookmarks[k] in r
    ensures UniqueIds(bookmarks) ==> UniqueIds(r)
  {
    if bookmarks == [] then []
    else
      var rest := WithoutId(bookmarks[1..], id);
      if bookmarks[0].id == id then rest
      else
        assert UniqueIds(bookmarks) ==> forall k :: 0 <= k < |rest| ==> rest[k].id != bookmarks[0].id;
        [bookmarks[0]] + rest
  }

  /** Filtering out an id nobody has changes nothing. */
  lemma {:induction false} WithoutAbsentId(bookmarks: seq<ChatMessage>, id: int)
    requires !Bookmarked(bookmarks, id)
    ensures WithoutId(bookmarks, id) == bookmarks
  {
    if bookmarks != [] {
      WithoutAbsentId(bookmarks[1..], id);
    }
  }

  /** `toggleBookmark`: drop every entry with the message's id if there is one, else append the message. */
  function Toggled(bookmarks: seq<ChatMessage>, message: ChatMessage): seq<ChatMessage> {
    if Bookmarked(bookmarks, message.id) then WithoutId(bookmarks, message.id)
    else bookmarks + [message]
  }

  /** A toggle flips the message's own membership and keeps every other id's. */
  lemma ToggleFlipsMembership(bookmarks: seq<ChatMessage>, message: ChatMessage, id: int)
    ensures Bookmarked(Toggled(bookmarks, message), id)
            == if id == message.id then !Bookmarked(bookmarks, id) else Bookmarked(bookmarks, id)
  {
    var r := Toggled(bookmarks, message);
    if Bookmarked(bookmarks, message.id) && id != message.id && Bookmarked(bookmarks, id) {
      var k :| 0 <= k < |bookmarks| && bookmarks[k].id == id;
      var j :| 0 <= j < |r| && r[j] == bookmarks[k];
    }
    if !Bookmarked(bookmarks, message.id) {
      assert r[|bookmarks|] == message;
      if id != message.id {
        if Bookmarked(r, id) {
          var k :| 0 <= k < |r| && r[k].id == id;
          assert k < |bookmarks| && bookmarks[k] == r[k];
        }
        if Bookmarked(bookmarks, id) {
          var k :| 0 <= k < |bookmarks| && bookmarks[k].id == id;
          assert r[k] == bookmarks[k];
        }
      }
    }
  }

  /** Toggling twice restores membership; from absent it restores the very list. */
  lemma ToggleTwice(bookmarks: seq<ChatMessage>, message: ChatMessage)
    ensures forall id :: Bookmarked(Toggled(Toggled(bookmarks, message), message), id) == Bookmarked(bookmarks, id)
    ensures !Bookmarked(bookmarks, message.id) ==> Toggled(Toggled(bookmarks, message), message) == bookmarks
  {
    forall id ensures Bookmarked(Toggled(Toggled(bookmarks, message), message), id) == Bookmarked(bookmarks, id) {
      ToggleFlipsMembership(bookmarks, message, id);
      ToggleFlipsMembership(Toggled(bookmarks, message), message, id);
    }
    if !Bookmarked(bookmarks, message.id) {
      var once := bookmarks + [message];
      assert Bookmarked(once, message.id) by { assert once[|bookmarks|] == message; }
      WithoutIdAppended(bookmarks, message);
    }
  }

  /** Filtering keeps the order: filtering a concatenation filters each part. */
  lemma {:induction false} WithoutIdAppend(a: seq<ChatMessage>, b: seq<ChatMessage>, id: int)
    ensures WithoutId(a + b, id) == WithoutId(a, id) + WithoutId(b, id)
  {
    if a == [] {
      assert a + b == b;
    } else {
      assert (a + b)[0] == a[0];
      assert (a + b)[1..] == a[1..] + b;
      WithoutIdAppend(a[1..], b, id);
    }
  }

  lemma {:induction false} WithoutIdAppended(bookmarks: seq<ChatMessage>, message: ChatMessage)
    requires !Bookmarked(bookmarks, message.id)
    ensures WithoutId(bookmarks + [message], message.id) == bookmarks
  {
    if bookmarks == [] {
      assert [] + [message] == [message];
      assert [message][1..] == [];
    } else {
      assert (bookmarks + [message])[1..] == bookmarks[1..] + [message];
      WithoutIdAppended(bookmarks[1..], message);
    }
  }

  /** Toggling keeps bookmark ids unique. */
  lemma ToggleKeepsIdsUnique(bookmarks: seq<ChatMessage>, message: ChatMessage)
    requires UniqueIds(bookmarks)
    ensures UniqueIds(Toggled(bookmarks, message))
  {
  }
}
