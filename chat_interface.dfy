/**
 * The follow-up chat panel (components/ChatInterface.tsx): the transcript,
 * the input box and the busy flag, and `handleSend`, which appends the
 * user's message, streams the model's answer into a placeholder and appends
 * an apology on any failure. The streaming service is an oracle: for a
 * session and a message it scripts a rejected request, or the chunks of a
 * stream and how the stream ends.
 */
module ChatInterface {
  import opened Types
  import opened GeminiService

  const ApologyText: string := "抱歉，發生錯誤，請稍後再試。"

  const ApologyMessage: ChatMessage := ChatMessage(Model, ApologyText)

  /** How a stream that has started ends: it completes, or it fails mid-way. */
  datatype StreamEnd = Completed | Broken(error: Error)

  /**
   * What `sendMessageStream` does: reject before any chunk arrives, or
   * resolve to a stream of chunks, each with a text that may be absent.
   */
  datatype StreamReply = RequestFailed(error: Error) | Streamed(chunks: seq<Option<string>>, end: StreamEnd)

  /** The characters `String.prototype.trim` removes: ECMAScript white space and line terminators. */
  predicate IsWhitespace(ch: char)
  {
    || ch in {'\t', '\n', '\U{000B}', '\U{000C}', '\r', ' ', '\U{00A0}', '\U{1680}'}
    || ('\U{2000}' <= ch <= '\U{200A}')
    || ch in {'\U{2028}', '\U{2029}', '\U{202F}', '\U{205F}', '\U{3000}', '\U{FEFF}'}
  }

  /** `s` without its leading white space. */
  function TrimStart(s: string): (r: string)
    ensures |r| <= |s| && r == s[|s| - |r|..]
    ensures forall i :: 0 <= i < |s| - |r| ==> IsWhitespace(s[i])
    ensures |r| > 0 ==> !IsWhitespace(r[0])
  {
    if |s| > 0 && IsWhitespace(s[0]) then TrimStart(s[1..]) else s
  }

  /** `s` without its trailing white space. */
  function TrimEnd(s: string): (r: string)
    ensures |r| <= |s| && r == s[..|r|]
    ensures forall i :: |r| <= i < |s| ==> IsWhitespace(s[i])
    ensures |r| > 0 ==> !IsWhitespace(r[|r| - 1])
  {
    if |s| > 0 && IsWhitespace(s[|s| - 1]) then TrimEnd(s[..|s| - 1]) else s
  }

  /**
   * `s.trim()`: it leaves nothing exactly when every character is white
   * space, and what it leaves starts and ends with a non-white-space one.
   */
  function Trim(s: string): (r: string)
    ensures r == "" <==> forall i :: 0 <= i < |s| ==> IsWhitespace(s[i])
    ensures |r| > 0 ==> !IsWhitespace(r[0]) && !IsWhitespace(r[|r| - 1])
  {
    var front := TrimStart(s);
    assert TrimEnd(front) == "" ==> front == "";
    TrimEnd(front)
  }

  /** `c.text || ''`: an absent chunk text counts as empty. */
  function ChunkText(chunk: Option<string>): string
  {
    chunk.GetOr("")
  }

  /** `fullResponse` after the given chunks have arrived, in order. */
  function Accumulated(chunks: seq<Option<string>>): string
  {
    if |chunks| == 0 then "" else Accumulated(chunks[..|chunks| - 1]) + ChunkText(chunks[|chunks| - 1])
  }

  /** Accumulating two runs of chunks one after the other concatenates their texts. */
  lemma {:induction false} AccumulatedAppend(first: seq<Option<string>>, second: seq<Option<string>>)
    ensures Accumulated(first + second) == Accumulated(first) + Accumulated(second)
  {
    if |second| == 0 {
      assert first + second == first;
    } else {
      var last := |second| - 1;
      assert (first + second)[..|first + second| - 1] == first + second[..last];
      AccumulatedAppend(first, second[..last]);
    }
  }

  /**
   * Every text shown while streaming is a prefix of the final answer: the
   * answer only grows, and no chunk is shown apart from those before it.
   */
  lemma AccumulatedGrows(chunks: seq<Option<string>>, k: nat)
    requires k <= |chunks|
    ensures Accumulated(chunks[..k]) <= Accumulated(chunks)
  {
    assert chunks == chunks[..k] + chunks[k..];
    AccumulatedAppend(chunks[..k], chunks[k..]);
  }

  /**
   * The state update each chunk makes: the last message takes the
   * accumulated text if it is the model's, and nothing else changes.
   */
  function WithLastText(messages: seq<ChatMessage>, text: string): (r: seq<ChatMessage>)
    requires |messages| > 0
    ensures |r| == |messages| && r[..|r| - 1] == messages[..|messages| - 1]
    ensures messages[|messages| - 1].role == Model ==> r[|r| - 1] == ChatMessage(Model, text)
    ensures messages[|messages| - 1].role == User ==> r == messages
  {
    var last := |messages| - 1;
    if messages[last].role == Model then messages[last := messages[last].(text := text)] else messages
  }

  /**
   * What a reply appends after the user's message: the streamed answer if
   * the stream started, then the apology if anything failed.
   */
  function ReplyMessages(reply: StreamReply): seq<ChatMessage>
  {
    match reply
    case RequestFailed(_) => [ApologyMessage]
    case Streamed(chunks, Completed) => [ChatMessage(Model, Accumulated(chunks))]
    case Streamed(chunks, Broken(_)) => [ChatMessage(Model, Accumulated(chunks)), ApologyMessage]
  }

  /**
   * The transcript after a send of `userText` that got `reply`: the user's
   * message, then the answer that was streamed, then the apology if anything
   * failed; a rejected request never gets a placeholder.
   */
  function SendTranscript(messages: seq<ChatMessage>, userText: string, reply: StreamReply): (r: seq<ChatMessage>)
    ensures |messages| + 2 <= |r| && r[..|messages|] == messages
    ensures r[|messages|] == ChatMessage(User, userText)
    ensures |r| == |messages| + (if reply.Streamed? && reply.end.Broken? then 3 else 2)
    ensures reply.Streamed? ==> r[|messages| + 1] == ChatMessage(Model, Accumulated(reply.chunks))
    ensures reply.RequestFailed? || reply.end.Broken? ==> r[|r| - 1] == ApologyMessage
  {
    messages + [ChatMessage(User, userText)] + ReplyMessages(reply)
  }

  /** The chat panel's state. */
  class ChatPanel {
    var messages: seq<ChatMessage>
    var input: string
    var isLoading: bool
    /** The session passed in by the parent. */
    var chatSession: Option<ChatSession>

    constructor (chatSession: Option<ChatSession>)
      ensures messages == [] && input == "" && !isLoading
      ensures this.chatSession == chatSession
    {
      messages := [];
      input := "";
      isLoading := false;
      this.chatSession := chatSession;
    }

    /** The input box's `onChange`. */
    method SetInput(text: string)
      modifies this`input
      ensures input == text
    {
      input := text;
    }

    /** Whether `handleSend` goes past its guard. */
    predicate CanSend()
      reads this
    {
      Trim(input) != "" && chatSession.Some?
    }

    /**
     * `handleSend`. While the send is in progress the busy flag is set, and
     * it is cleared afterwards on success and failure alike; the caller must
     * not start a send while one is in progress (the controls are disabled).
     */
    method HandleSend(sendMessageStream: (ChatSession, string) -> StreamReply)
      requires !isLoading
      modifies this`messages, this`input, this`isLoading
      ensures !isLoading
      ensures !old(CanSend()) ==> messages == old(messages) && input == old(input)
      ensures old(CanSend()) ==> input == ""
      ensures old(CanSend()) ==>
        messages == SendTranscript(old(messages), old(input), sendMessageStream(chatSession.value, old(input)))
    {
      if Trim(input) == "" || chatSession.None? {
        return;
      }
      SendInput(sendMessageStream);
    }

    /**
     * `handleSend` past its guard: the input is taken and cleared, the
     * user's message appended, and the busy flag held while the reply is
     * received.
     */
    method SendInput(sendMessageStream: (ChatSession, string) -> StreamReply)
      requires !isLoading && chatSession.Some?
      modifies this`messages, this`input, this`isLoading
      ensures !isLoading && input == ""
      ensures messages == SendTranscript(old(messages), old(input), sendMessageStream(chatSession.value, old(input)))
    {
      var userText := input;
      input := "";
      messages := messages + [ChatMessage(User, userText)];
      isLoading := true;

      var reply := sendMessageStream(chatSession.value, userText);
      ReceiveReply(reply);
      isLoading := false;
    }

    /**
     * Everything after the request resolves or rejects: a rejection appends
     * the apology; a started stream gets a placeholder that the chunks fill,
     * and the apology after it if the stream breaks.
     */
    method ReceiveReply(reply: StreamReply)
      requires isLoading
      modifies this`messages
      ensures messages == old(messages) + ReplyMessages(reply)
    {
      match reply {
        case RequestFailed(_) =>
          messages := messages + [ApologyMessage];
        case Streamed(chunks, end) =>
          messages := messages + [ChatMessage(Model, "")];
          ConsumeStream(chunks);
          if end.Broken? {
            messages := messages + [ApologyMessage];
          }
      }
    }

    /**
     * The `for await` loop over the chunks of a stream that has started:
     * after the first k chunks the placeholder holds their texts
     * concatenated, and the rest of the transcript is untouched. It runs
     * only while a send is in progress, and leaves the busy flag set.
     */
    method ConsumeStream(chunks: seq<Option<string>>)
      requires isLoading
      requires |messages| > 0 && messages[|messages| - 1] == ChatMessage(Model, "")
      modifies this`messages
      ensures messages == old(messages)[..|old(messages)| - 1] + [ChatMessage(Model, Accumulated(chunks))]
    {
      var fullResponse := "";
      var i := 0;
      while i < |chunks|
        invariant i <= |chunks|
        invariant fullResponse == Accumulated(chunks[..i])
        invariant messages == old(messages)[..|old(messages)| - 1] + [ChatMessage(Model, fullResponse)]
      {
        fullResponse := fullResponse + ChunkText(chunks[i]);
        assert chunks[..i + 1][..i] == chunks[..i];
        messages := WithLastText(messages, fullResponse);
        i := i + 1;
      }
      assert chunks[..i] == chunks;
    }

    /**
     * `handleKeyDown`: Enter without Shift sends, any other key does nothing.
     * The input box is disabled while a send is in progress.
     */
    method HandleKeyDown(key: string, shiftKey: bool, sendMessageStream: (ChatSession, string) -> StreamReply)
      requires !isLoading
      modifies this`messages, this`input, this`isLoading
      ensures !isLoading
      ensures key != "Enter" || shiftKey ==> messages == old(messages) && input == old(input)
      ensures key == "Enter" && !shiftKey && !old(CanSend()) ==> messages == old(messages) && input == old(input)
      ensures key == "Enter" && !shiftKey && old(CanSend()) ==>
        && input == ""
        && messages == SendTranscript(old(messages), old(input), sendMessageStream(chatSession.value, old(input)))
    {
      if key == "Enter" && !shiftKey {
        HandleSend(sendMessageStream);
      }
    }
  }
}
