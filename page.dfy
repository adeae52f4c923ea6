/**
 * The chat page component: its state fields, `handleSendMessage` (send a
 * query, read the streamed reply, finalise it, record the session),
 * `toggleBookmark`, `isBookmarked`, `handleHistoryClick` and `startNewChat`.
 */
module Page {
  import opened Base
  import opened Strings
  import opened Wire
  import opened Consumer
  import opened Conversation

  /** The page's state fields, as one value. */
  datatype PageState = PageState(
    query: string,
    activeTab: Tab,
    messages: seq<ChatMessage>,
    chatHistory: seq<ChatHistory>,
    bookmarks: seq<ChatMessage>,
    isSearching: bool,
    streamingMessage: string)

  /**
   * What the request yields: the decoded chunks the reader delivers, and
   * whether the exchange then throws (the fetch fails, there is no body, or
   * a read fails) instead of ending normally.
   */
  datatype Transport = Transport(chunks: seq<string>, breaks: bool)

  /** The clock readings `Date.now()` gives the user message, the AI message and the session. */
  datatype Clock = Clock(userNow: int, aiNow: int, sessionNow: int)

  function UserMessage(query: string, clock: Clock): ChatMessage {
    ChatMessage(clock.userNow, User, query, clock.userNow, None)
  }

  /** The AI message starts empty and streaming; its id is the later reading plus one. */
  function AiPlaceholder(clock: Clock): ChatMessage {
    ChatMessage(clock.aiNow + 1, Ai, "", clock.aiNow, Some(true))
  }

  /** The session recorded for a finished exchange. */
  function Session(query: string, reply: string, clock: Clock): ChatHistory {
    ChatHistory(clock.sessionNow, Title(query), clock.sessionNow,
      [UserMessage(query, clock), AiPlaceholder(clock).(content := reply, isStreaming := Some(false))])
  }

  /** The state after `handleSendMessage` has run to its end, `finally` included. */
  function Send(s: PageState, t: Transport, clock: Clock): PageState {
    if Blank(s.query) then s
    else
      var base := s.messages + [UserMessage(s.query, clock), AiPlaceholder(clock)];
      var id := AiPlaceholder(clock).id;
      var cleared := s.(query := "", isSearching := false, streamingMessage := "");
      if t.breaks then
        cleared.(messages := Finalized(base, id, ErrorText))
      else
        var full := Accumulated(t.chunks);
        cleared.(messages := Finalized(base, id, full),
                 chatHistory := Committed(s.chatHistory, Session(s.query, full, clock)))
  }

  /** A query that is empty or only white space changes nothing. */
  lemma BlankQueryChangesNothing(s: PageState, t: Transport, clock: Clock)
    requires Blank(s.query)
    ensures Send(s, t, clock) == s
  {
  }

  /**
   * On normal end of stream the AI message holds everything read and stops
   * streaming, only messages with its id are touched, and exactly one
   * session [user message, final AI message] is prepended to the capped history.
   */
  lemma SendCommitsSession(s: PageState, t: Transport, clock: Clock)
    requires !Blank(s.query) && !t.breaks
    requires clock.userNow <= clock.aiNow
    ensures var r, n, id := Send(s, t, clock), |s.messages|, AiPlaceholder(clock).id;
            && |r.messages| == n + 2
            && (forall k :: 0 <= k < n && s.messages[k].id != id ==> r.messages[k] == s.messages[k])
            && r.messages[n] == UserMessage(s.query, clock)
            && r.messages[n + 1].content == Accumulated(t.chunks)
            && r.messages[n + 1].isStreaming == Some(false)
            && r.chatHistory == Committed(s.chatHistory, Session(s.query, Accumulated(t.chunks), clock))
            && |r.chatHistory| <= HistoryCap
            && r.chatHistory[0].messages == [UserMessage(s.query, clock), r.messages[n + 1]]
            && r.bookmarks == s.bookmarks && r.activeTab == s.activeTab
            && !r.isSearching && r.streamingMessage == "" && r.query == ""
  {
  }

  /**
   * On a failure the AI message holds the fixed error text and stops
   * streaming, and no session is recorded.
   */
  lemma SendFailureRecordsNothing(s: PageState, t: Transport, clock: Clock)
    requires !Blank(s.query) && t.breaks
    requires clock.userNow <= clock.aiNow
    ensures var r, n, id := Send(s, t, clock), |s.messages|, AiPlaceholder(clock).id;
            && |r.messages| == n + 2
            && (forall k :: 0 <= k < n && s.messages[k].id != id ==> r.messages[k] == s.messages[k])
            && r.messages[n] == UserMessage(s.query, clock)
            && r.messages[n + 1].content == ErrorText
            && r.messages[n + 1].isStreaming == Some(false)
            && r.chatHistory == s.chatHistory && r.bookmarks == s.bookmarks
            && !r.isSearching && r.streamingMessage == ""
  {
  }

  /** The state fields of the chat page. */
  class Home {
    var query: string
    var activeTab: Tab
    var messages: seq<ChatMessage>
    var chatHistory: seq<ChatHistory>
    var bookmarks: seq<ChatMessage>
    var isSearching: bool
    var streamingMessage: string

    function State(): PageState
      reads this
    {
      PageState(query, activeTab, messages, chatHistory, bookmarks, isSearching, streamingMessage)
    }

    /** The initial values of the `useState` hooks. */
    constructor ()
      ensures State() == PageState("", Chat, [], [], [], false, "")
    {
      query := "";
      activeTab := Chat;
      messages := [];
      chatHistory := [];
      bookmarks := [];
      isSearching := false;
      streamingMessage := "";
    }

    /** The input box's `onChange`. */
    method SetQuery(text: string)
      modifies this
      ensures State() == old(State()).(query := text)
    {
      query := text;
    }

    /**
     * `handleSendMessage`: append the user message and an empty streaming AI
     * message, read the chunks line by line into `fullResponse`, mirroring it
     * into the AI message, then finalise and record the session, or on a
     * failure write the error text; in every case stop searching.
     */
    method HandleSendMessage(t: Transport, clock: Clock)
      modifies this
      ensures State() == Send(old(State()), t, clock)
    {
      if Blank(query) {
        return;
      }
      ghost var s0 := State();
      var userMessage := UserMessage(query, clock);
      messages := messages + [userMessage];
      query := "";
      isSearching := true;
      streamingMessage := "";
      var aiMessage := AiPlaceholder(clock);
      messages := messages + [aiMessage];

      ghost var base := messages;
      assert base == s0.messages + [UserMessage(s0.query, clock), AiPlaceholder(clock)];
      var fullResponse := ReadStream(t.chunks, aiMessage.id, base);

      if t.breaks {
        FinalizedOverwritesContent(messages, base, aiMessage.id, ErrorText);
        messages := Finalized(messages, aiMessage.id, ErrorText);
      } else {
        FinalizedOverwritesContent(messages, base, aiMessage.id, fullResponse);
        messages := Finalized(messages, aiMessage.id, fullResponse);
        var chatSession := Session(userMessage.content, fullResponse, clock);
        chatHistory := Committed(chatHistory, chatSession);
      }
      isSearching := false;
      streamingMessage := "";
    }

    /**
     * The reader loop of `handleSendMessage`: chunk after chunk, the running
     * `fullResponse` grows by what each chunk's own lines carry, and is
     * mirrored into `streamingMessage` and the content of the message `id`.
     */
    method ReadStream(chunks: seq<string>, id: int, ghost base: seq<ChatMessage>) returns (fullResponse: string)
      requires streamingMessage == "" && OnlyContentChanged(messages, base, id)
      modifies this`messages, this`streamingMessage
      ensures fullResponse == Accumulated(chunks)
      ensures streamingMessage == fullResponse
      ensures messages == if fullResponse == "" then old(messages) else WithContent(old(messages), id, fullResponse)
      ensures OnlyContentChanged(messages, base, id)
    {
      ghost var m0 := messages;
      fullResponse := "";
      var i := 0;
      while i < |chunks|
        invariant 0 <= i <= |chunks|
        invariant fullResponse == Accumulated(chunks[..i])
        invariant streamingMessage == fullResponse
        invariant messages == if fullResponse == "" then m0 else WithContent(m0, id, fullResponse)
        invariant OnlyContentChanged(messages, base, id)
      {
        AccumulatedPrefix(chunks, i);
        var lines := Lines(chunks[i]);
        fullResponse := ReadLines(lines, fullResponse, id, base, m0);
        i := i + 1;
      }
      assert chunks[..i] == chunks;
    }

    /**
     * The lines of one chunk: every line that carries content appends it, and
     * the grown text is written into the message `id` of the list `m0` the
     * stream started from.
     */
    method ReadLines(lines: seq<string>, before: string, id: int, ghost base: seq<ChatMessage>, ghost m0: seq<ChatMessage>)
      returns (fullResponse: string)
      requires streamingMessage == before && OnlyContentChanged(messages, base, id)
      requires messages == if before == "" then m0 else WithContent(m0, id, before)
      modifies this`messages, this`streamingMessage
      ensures fullResponse == before + LinesText(lines)
      ensures streamingMessage == fullResponse
      ensures messages == if fullResponse == "" then m0 else WithContent(m0, id, fullResponse)
      ensures OnlyContentChanged(messages, base, id)
    {
      fullResponse := before;
      var j := 0;
      assert lines[0..] == lines;
      while j < |lines|
        invariant 0 <= j <= |lines|
        invariant fullResponse + LinesText(lines[j..]) == before + LinesText(lines)
        invariant streamingMessage == fullResponse
        invariant messages == if fullResponse == "" then m0 else WithContent(m0, id, fullResponse)
        invariant OnlyContentChanged(messages, base, id)
      {
        LinesTextFrom(lines, j);
        ghost var previous := fullResponse;
        fullResponse := ReadOneLine(lines[j], fullResponse, id, base, m0);
        AppendAssociates(previous, LineContent(lines[j]), LinesText(lines[j + 1..]));
        j := j + 1;
      }
    }

    /**
     * One pass of the line loop: a line that carries content appends it to
     * `fullResponse`, which is mirrored into `streamingMessage` and into the
     * message `id`; any other line changes nothing.
     */
    method ReadOneLine(line: string, before: string, id: int, ghost base: seq<ChatMessage>, ghost m0: seq<ChatMessage>)
      returns (fullResponse: string)
      requires streamingMessage == before && OnlyContentChanged(messages, base, id)
      requires messages == if before == "" then m0 else WithContent(m0, id, before)
      modifies this`messages, this`streamingMessage
      ensures fullResponse == before + LineContent(line)
      ensures streamingMessage == fullResponse
      ensures messages == if fullResponse == "" then m0 else WithContent(m0, id, fullResponse)
      ensures OnlyContentChanged(messages, base, id)
    {
      fullResponse := before;
      var content := ReadLine(line);
      if content.Some? {
        fullResponse := fullResponse + content.value;
        streamingMessage := fullResponse;
        WithContentChangesOnlyContent(messages, base, id, fullResponse);
        WithContentOverwrites(messages, m0, id, before, fullResponse);
        messages := WithContent(messages, id, fullResponse);
      } else {
        assert before + LineContent(line) == before + "";
      }
    }

    /** `toggleBookmark` */
    method ToggleBookmark(message: ChatMessage)
      modifies this
      ensures State() == old(State()).(bookmarks := Toggled(old(bookmarks), message))
    {
      bookmarks := Toggled(bookmarks, message);
    }

    /** `isBookmarked`: some bookmark has the id. */
    function IsBookmarked(id: int): (b: bool)
      reads this
      ensures b <==> exists k :: 0 <= k < |bookmarks| && bookmarks[k].id == id
    {
      Bookmarked(bookmarks, id)
    }

    /** `handleHistoryClick`: show the session's messages in the chat tab. */
    method HandleHistoryClick(item: ChatHistory)
      modifies this
      ensures State() == old(State()).(messages := item.messages, activeTab := Chat)
    {
      messages := item.messages;
      activeTab := Chat;
    }

    /** `startNewChat`: empty the conversation and show the chat tab; history and bookmarks stay. */
    method StartNewChat()
      modifies this
      ensures State() == old(State()).(messages := [], activeTab := Chat)
    {
      messages := [];
      activeTab := Chat;
    }
  }
}
