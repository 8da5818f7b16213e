/**
 * The text chat transcript of components/ChatMode.tsx: the send guard, the
 * appended user message, the streamed reply rewriting its placeholder chunk
 * by chunk, the error message, the loading flag and the Enter key.
 *
 * Message ids (which the source takes from the clock) and the chat
 * service's reply are inputs.
 */
module ChatMode {
  import opened Wrappers

  datatype Role = User | Model

  datatype Message = Message(id: string, role: Role, text: string)

  /**
   * How the chat service answers a send: sendMessageStream rejects, or it
   * yields a stream of chunk texts ("" for a chunk without text) that may
   * throw once they are all delivered.
   */
  datatype Reply = SendRejected | Streamed(chunks: seq<string>, failsAfter: bool)

  const GREETING_ID: string := "init"
  const GREETING: string := "မောင်ရေ... သံစဉ်ရောက်ပြီနော်။ ဒီနေ့ ဘယ်လိုနေလဲဟင်? ထမင်းစားပြီးပြီလား? \U{1F970}"
  const ERROR_TEXT: string := "အို... အင်တာနက်လိုင်းမကောင်းလို့ထင်တယ် မောင်ရေ။ ပြန်ပြောပါဦးနော်။ \U{1F97A}"

  function ErrorMessage(id: string): Message {
    Message(id, Model, ERROR_TEXT)
  }

  /** The white space and line terminators String.prototype.trim removes. */
  predicate IsWhiteSpace(c: char) {
    c == '\t' || c == '\n' || c == '\U{000B}' || c == '\U{000C}' || c == '\r' || c == ' ' ||
    c == '\U{00A0}' || c == '\U{1680}' || ('\U{2000}' <= c <= '\U{200A}') ||
    c == '\U{2028}' || c == '\U{2029}' || c == '\U{202F}' || c == '\U{205F}' ||
    c == '\U{3000}' || c == '\U{FEFF}'
  }

  /** `s` without its leading white space. */
  function TrimStart(s: string): (r: string)
    ensures |r| <= |s| && r == s[|s| - |r|..]
    ensures r == "" || !IsWhiteSpace(r[0])
    ensures forall i :: 0 <= i < |s| - |r| ==> IsWhiteSpace(s[i])
  {
    if s != "" && IsWhiteSpace(s[0]) then TrimStart(s[1..]) else s
  }

  /** `s` without its trailing white space. */
  function TrimEnd(s: string): (r: string)
    ensures |r| <= |s| && r == s[..|r|]
    ensures r == "" || !IsWhiteSpace(r[|r| - 1])
    ensures forall i :: |r| <= i < |s| ==> IsWhiteSpace(s[i])
  {
    if s != "" && IsWhiteSpace(s[|s| - 1]) then TrimEnd(s[..|s| - 1]) else s
  }

  /**
   * String.prototype.trim: the slice of `s` left after dropping white space
   * from both ends; it neither starts nor ends with white space.
   */
  function Trim(s: string): (r: string)
    ensures r == "" || (!IsWhiteSpace(r[0]) && !IsWhiteSpace(r[|r| - 1]))
    ensures var k := |s| - |TrimStart(s)|;
      k + |r| <= |s| && r == s[k..k + |r|] &&
      (forall i :: 0 <= i < k ==> IsWhiteSpace(s[i])) &&
      (forall i :: k + |r| <= i < |s| ==> IsWhiteSpace(s[i]))
  {
    var t := TrimStart(s);
    var r := TrimEnd(t);
    TrimSlice(s, t, r);
    r
  }

  /** A prefix of a suffix is a slice, and white space after the prefix is white space in the whole. */
  lemma TrimSlice(s: string, t: string, r: string)
    requires |t| <= |s| && t == s[|s| - |t|..]
    requires |r| <= |t| && r == t[..|r|]
    requires forall i :: |r| <= i < |t| ==> IsWhiteSpace(t[i])
    ensures var k := |s| - |t|;
      r == s[k..k + |r|] && (forall i :: k + |r| <= i < |s| ==> IsWhiteSpace(s[i]))
    ensures r != "" ==> r[0] == t[0]
  {
    var k := |s| - |t|;
    forall i | k + |r| <= i < |s|
      ensures IsWhiteSpace(s[i])
    {
      assert s[i] == t[i - k];
    }
  }

  /** The guard's `!inputText.trim()`: trimming leaves nothing exactly when every character is white space. */
  lemma TrimEmptyIffBlank(s: string)
    ensures Trim(s) == "" <==> forall i :: 0 <= i < |s| ==> IsWhiteSpace(s[i])
  {
  }

  /** The reply text accumulated from a sequence of chunks. */
  function Concat(chunks: seq<string>): string
    decreases |chunks|
  {
    if chunks == [] then "" else Concat(chunks[..|chunks| - 1]) + chunks[|chunks| - 1]
  }

  /** The accumulated text is empty exactly when no chunk carried text. */
  lemma {:induction false} ConcatEmptyIff(chunks: seq<string>)
    ensures Concat(chunks) == "" <==> forall i :: 0 <= i < |chunks| ==> chunks[i] == ""
    decreases |chunks|
  {
    if chunks != [] {
      var init := chunks[..|chunks| - 1];
      ConcatEmptyIff(init);
      assert forall i :: 0 <= i < |init| ==> init[i] == chunks[i];
    }
  }

  /** `prev.map(msg => msg.id === id ? { ...msg, text } : msg)`. */
  function ReplaceText(messages: seq<Message>, id: string, text: string): (r: seq<Message>)
    ensures |r| == |messages|
    ensures forall i :: 0 <= i < |messages| ==> r[i].id == messages[i].id && r[i].role == messages[i].role
    ensures forall i :: 0 <= i < |messages| && messages[i].id != id ==> r[i] == messages[i]
    ensures forall i :: 0 <= i < |messages| && messages[i].id == id ==> r[i].text == text
  {
    seq(|messages|, i requires 0 <= i < |messages| =>
      if messages[i].id == id then messages[i].(text := text) else messages[i])
  }

  /** A second rewrite of the same id overrides the first. */
  lemma ReplaceTextTwice(messages: seq<Message>, id: string, first: string, second: string)
    ensures ReplaceText(ReplaceText(messages, id, first), id, second) == ReplaceText(messages, id, second)
  {
  }

  /**
   * The transcript after a run of chunks: unchanged while no chunk carried
   * text, otherwise every message with the reply's id holding the
   * accumulated text.
   */
  function StreamedMessages(base: seq<Message>, id: string, chunks: seq<string>): (r: seq<Message>)
    ensures |r| == |base|
  {
    var full := Concat(chunks);
    if full == "" then base else ReplaceText(base, id, full)
  }

  /**
   * One more chunk: one without text changes nothing; one with text
   * rewrites the reply to the text accumulated so far plus the chunk.
   */
  lemma ChunkStep(base: seq<Message>, id: string, chunks: seq<string>, chunk: string)
    ensures StreamedMessages(base, id, chunks + [chunk]) ==
            if chunk == "" then StreamedMessages(base, id, chunks)
            else ReplaceText(StreamedMessages(base, id, chunks), id, Concat(chunks) + chunk)
  {
    assert (chunks + [chunk])[..|chunks|] == chunks;
    assert Concat(chunks + [chunk]) == Concat(chunks) + chunk;
    if chunk == "" {
      assert Concat(chunks) + chunk == Concat(chunks);
    } else if Concat(chunks) == "" {
      assert Concat(chunks) + chunk == chunk;
    } else {
      ReplaceTextTwice(base, id, Concat(chunks), Concat(chunks) + chunk);
    }
  }

  /** What the send does after its request has gone out. */
  function Continuation(messages: seq<Message>, responseId: string, errorId: string, reply: Reply): seq<Message> {
    match reply
    case SendRejected => messages + [ErrorMessage(errorId)]
    case Streamed(chunks, failsAfter) =>
      var streamed := StreamedMessages(messages + [Message(responseId, Model, "")], responseId, chunks);
      if failsAfter then streamed + [ErrorMessage(errorId)] else streamed
  }

  /** The transcript after an accepted send. */
  function Transcript(prev: seq<Message>, input: string, userId: string, responseId: string, errorId: string, reply: Reply): seq<Message> {
    Continuation(prev + [Message(userId, User, input)], responseId, errorId, reply)
  }

  /**
   * An accepted send with a fresh reply id keeps every earlier message,
   * appends the user's message with the untrimmed input, then either the
   * error message, or the reply holding every chunk's text in order,
   * followed by the error message when the stream failed.
   */
  lemma TranscriptShape(prev: seq<Message>, input: string, userId: string, responseId: string, errorId: string, reply: Reply)
    requires forall i :: 0 <= i < |prev| ==> prev[i].id != responseId
    requires userId != responseId
    ensures var t := Transcript(prev, input, userId, responseId, errorId, reply);
      |t| >= |prev| + 2 &&
      t[..|prev|] == prev &&
      t[|prev|] == Message(userId, User, input) &&
      (reply.SendRejected? ==> |t| == |prev| + 2 && t[|prev| + 1] == ErrorMessage(errorId)) &&
      (reply.Streamed? ==>
        t[|prev| + 1] == Message(responseId, Model, Concat(reply.chunks)) &&
        |t| == |prev| + (if reply.failsAfter then 3 else 2) &&
        (reply.failsAfter ==> t[|prev| + 2] == ErrorMessage(errorId)))
  {
    var withUser := prev + [Message(userId, User, input)];
    var t := Transcript(prev, input, userId, responseId, errorId, reply);
    if reply.Streamed? {
      var base := withUser + [Message(responseId, Model, "")];
      var streamed := StreamedMessages(base, responseId, reply.chunks);
      assert t[..|streamed|] == streamed;
      forall i | 0 <= i < |prev|
        ensures t[i] == prev[i]
      {
        assert base[i] == prev[i];
      }
      assert base[|prev|] == Message(userId, User, input);
      assert base[|prev| + 1].id == responseId;
    }
  }

  class ChatView {
    var messages: seq<Message>
    var inputText: string
    var isLoading: bool
    /** chatSessionRef holds a chat session. */
    var hasChatSession: bool

    constructor ()
      ensures messages == [Message(GREETING_ID, Model, GREETING)]
      ensures inputText == "" && !isLoading && !hasChatSession
    {
      messages := [Message(GREETING_ID, Model, GREETING)];
      inputText := "";
      isLoading := false;
      hasChatSession := false;
    }

    /** The mount effect that creates the chat session. */
    method CreateChatSession()
      modifies this`hasChatSession
      ensures hasChatSession
    {
      hasChatSession := true;
    }

    /** The text area's change handler. */
    method SetInputText(text: string)
      modifies this`inputText
      ensures inputText == text
    {
      inputText := text;
    }

    /** handleSendMessage's guard passes: some non-blank input, a session, no request in flight. */
    predicate CanSend(): (b: bool)
      reads this
      ensures b <==> (exists i :: 0 <= i < |inputText| && !IsWhiteSpace(inputText[i])) && hasChatSession && !isLoading
    {
      TrimEmptyIffBlank(inputText);
      Trim(inputText) != "" && hasChatSession && !isLoading
    }

    /**
     * handleSendMessage up to its first await: when the guard passes, the
     * user's message holding the untrimmed input is appended, the input is
     * cleared and loading is set; otherwise nothing changes.
     */
    method BeginSend(userId: string) returns (sent: Option<string>)
      modifies this`messages, this`inputText, this`isLoading
      ensures old(CanSend()) ==>
                sent == Some(old(inputText)) && inputText == "" && isLoading &&
                messages == old(messages) + [Message(userId, User, old(inputText))] &&
                hasChatSession == old(hasChatSession)
      ensures !old(CanSend()) ==> sent == None && unchanged(this)
    {
      if Trim(inputText) == "" || !hasChatSession || isLoading {
        return None;
      }
      var text := inputText;
      messages := messages + [Message(userId, User, text)];
      inputText := "";
      isLoading := true;
      sent := Some(text);
    }

    /**
     * handleSendMessage after the request: on rejection the error message
     * is appended; otherwise an empty reply placeholder is appended and
     * every chunk with text rewrites it to the text accumulated so far,
     * with the error message appended if the stream fails. Loading ends
     * either way.
     */
    method FinishSend(responseId: string, errorId: string, reply: Reply)
      modifies this`messages, this`isLoading
      ensures !isLoading
      ensures messages == Continuation(old(messages), responseId, errorId, reply)
    {
      match reply {
        case SendRejected =>
          messages := messages + [ErrorMessage(errorId)];
        case Streamed(chunks, failsAfter) =>
          messages := messages + [Message(responseId, Model, "")];
          ghost var base := messages;
          var fullResponseText := "";
          for i := 0 to |chunks|
            invariant fullResponseText == Concat(chunks[..i])
            invariant messages == StreamedMessages(base, responseId, chunks[..i])
          {
            ChunkStep(base, responseId, chunks[..i], chunks[i]);
            assert chunks[..i + 1] == chunks[..i] + [chunks[i]];
            if chunks[i] != "" {
              fullResponseText := fullResponseText + chunks[i];
              messages := ReplaceText(messages, responseId, fullResponseText);
            }
          }
          assert chunks[..|chunks|] == chunks;
          if failsAfter {
            messages := messages + [ErrorMessage(errorId)];
          }
      }
      isLoading := false;
    }

    /** handleSendMessage, run to completion. */
    method HandleSendMessage(userId: string, responseId: string, errorId: string, reply: Reply) returns (sent: Option<string>)
      modifies this`messages, this`inputText, this`isLoading
      ensures old(CanSend()) ==>
                sent == Some(old(inputText)) && inputText == "" && !isLoading &&
                messages == Transcript(old(messages), old(inputText), userId, responseId, errorId, reply)
      ensures !old(CanSend()) ==> sent == None && unchanged(this)
    {
      sent := BeginSend(userId);
      if sent.Some? {
        FinishSend(responseId, errorId, reply);
      }
    }

    /** handleKeyPress: Enter without Shift sends (and suppresses the newline); any other key does nothing. */
    method HandleKeyPress(key: string, shiftKey: bool, userId: string, responseId: string, errorId: string, reply: Reply)
      returns (prevented: bool, sent: Option<string>)
      modifies this`messages, this`inputText, this`isLoading
      ensures prevented <==> key == "Enter" && !shiftKey
      ensures !prevented ==> sent == None && unchanged(this)
      ensures prevented && old(CanSend()) ==>
                sent == Some(old(inputText)) && inputText == "" && !isLoading &&
                messages == Transcript(old(messages), old(inputText), userId, responseId, errorId, reply)
      ensures prevented && !old(CanSend()) ==> sent == None && unchanged(this)
    {
      prevented, sent := false, None;
      if key == "Enter" && !shiftKey {
        prevented := true;
        sent := HandleSendMessage(userId, responseId, errorId, reply);
      }
    }
  }

  /** While a request is in flight a second send is refused and leaves the transcript alone. */
  method SecondSendWhileLoading(text: string) returns (first: Option<string>, second: Option<string>)
    requires Trim(text) != ""
    ensures first == Some(text) && second == None
  {
    var view := new ChatView();
    view.CreateChatSession();
    view.SetInputText(text);
    first := view.BeginSend("1");
    view.SetInputText(text);
    second := view.BeginSend("2");
  }
}
