/** The AI Creative Consultant (ChatbotTool): a transcript of messages, a
    chat session started with a persona, and a send operation whose
    streamed answer is written into a placeholder message found by id. */
module Chat {
  import opened Wrappers
  import opened Text
  import opened Grounding

  datatype Sender = User | Ai
  /** Message ids: the fixed 'init' id, or a millisecond clock reading. */
  datatype MessageId = InitId | Stamp(millis: int)
  datatype ChatMessage = ChatMessage(id: MessageId, sender: Sender, text: string,
                                     sources: Option<seq<GroundingChunk>>)
  /** One call of the stream callback: the chunk's text, whether it is the
      last one, and the sources it supplies, if any. */
  datatype Chunk = Chunk(text: string, isFinal: bool, sources: Option<seq<GroundingChunk>>)

  const DefaultPersona := "You are a sharp, insightful AI Creative Consultant for content creators."
  const InitFailedMessage := "Failed to initialize AI Consultant."
  const StreamFailedMessage := "AI response stream failed."

  /** The greeting that `initializeChat` puts in an empty transcript. */
  function InitMessage(persona: string): ChatMessage {
    ChatMessage(InitId, Ai,
      "AI Consultant ready. How can I sharpen your content strategy today? Current persona: \"" + persona + "\"",
      None)
  }

  /** `systemInstruction.trim() || undefined`: the persona passed to the
      session, absent when it is blank. */
  function SessionPersona(persona: string): (r: Option<string>)
    ensures r.None? <==> IsBlank(persona)
    ensures r.Some? ==> r.value == Trim(persona) && Trimmed(r.value)
  {
    if IsBlank(persona) then None else Some(Trim(persona))
  }

  /** `{ ...msg, text: msg.text + chunkText, sources: sources || msg.sources }`. */
  function WithChunk(m: ChatMessage, c: Chunk): ChatMessage {
    m.(text := m.text + c.text, sources := if c.sources.Some? then c.sources else m.sources)
  }

  /** One callback's `map` over the transcript: the messages with that id
      take the chunk. */
  function ApplyChunk(msgs: seq<ChatMessage>, id: MessageId, c: Chunk): (r: seq<ChatMessage>)
    ensures |r| == |msgs|
    ensures forall k :: 0 <= k < |msgs| ==> r[k] == if msgs[k].id == id then WithChunk(msgs[k], c) else msgs[k]
  {
    seq(|msgs|, k requires 0 <= k < |msgs| => if msgs[k].id == id then WithChunk(msgs[k], c) else msgs[k])
  }

  /** The concatenated text of the chunks. */
  function Streamed(cs: seq<Chunk>): string {
    if cs == [] then "" else Streamed(cs[..|cs| - 1]) + cs[|cs| - 1].text
  }

  /** No chunk supplies sources. */
  predicate SuppliesNone(cs: seq<Chunk>) {
    forall k :: 0 <= k < |cs| ==> cs[k].sources.None?
  }

  /** Chunk `k` supplies sources and no later chunk does. */
  predicate SuppliesLast(cs: seq<Chunk>, k: int)
    requires 0 <= k < |cs|
  {
    cs[k].sources.Some? && forall j :: k < j < |cs| ==> cs[j].sources.None?
  }

  /** The sources after the chunks: those of the last chunk that supplies
      any, otherwise `prev`. */
  function LastSources(prev: Option<seq<GroundingChunk>>, cs: seq<Chunk>): (r: Option<seq<GroundingChunk>>)
    ensures SuppliesNone(cs) ==> r == prev
    ensures forall k :: 0 <= k < |cs| && SuppliesLast(cs, k) ==> r == cs[k].sources
  {
    if cs == [] then prev
    else if cs[|cs| - 1].sources.Some? then cs[|cs| - 1].sources
    else LastSources(prev, cs[..|cs| - 1])
  }

  predicate AnyFinal(cs: seq<Chunk>) {
    exists k :: 0 <= k < |cs| && cs[k].isFinal
  }

  /** The transcript after a run of callbacks. Each message with the id
      has gained all the chunks' text and the last supplied sources; every
      other message is unchanged. */
  function ApplyChunks(msgs: seq<ChatMessage>, id: MessageId, cs: seq<Chunk>): (r: seq<ChatMessage>)
    ensures |r| == |msgs|
    ensures forall k :: 0 <= k < |msgs| && msgs[k].id != id ==> r[k] == msgs[k]
    ensures forall k :: 0 <= k < |msgs| && msgs[k].id == id ==>
              r[k] == msgs[k].(text := msgs[k].text + Streamed(cs), sources := LastSources(msgs[k].sources, cs))
  {
    if cs == [] then msgs
    else ApplyChunk(ApplyChunks(msgs, id, cs[..|cs| - 1]), id, cs[|cs| - 1])
  }

  /** `map` replacing the text of the messages with that id. */
  function ReplaceText(msgs: seq<ChatMessage>, id: MessageId, text: string): (r: seq<ChatMessage>)
    ensures |r| == |msgs|
    ensures forall k :: 0 <= k < |msgs| ==> r[k] == if msgs[k].id == id then msgs[k].(text := text) else msgs[k]
  {
    seq(|msgs|, k requires 0 <= k < |msgs| => if msgs[k].id == id then msgs[k].(text := text) else msgs[k])
  }

  /** The placeholder's text after the stream threw `message`. */
  function StreamErrorText(message: string): string {
    "Error: " + OrElse(message, StreamFailedMessage)
  }

  /** The transcript after a send: the user message and the placeholder
      appended, the callbacks applied, and on failure the placeholder's text
      replaced by the error. */
  function SentTranscript(msgs: seq<ChatMessage>, input: string, userId: MessageId, aiId: MessageId,
                          stream: seq<Chunk>, failure: Option<string>): seq<ChatMessage>
  {
    var appended := msgs + [ChatMessage(userId, User, input, None), ChatMessage(aiId, Ai, "", None)];
    var streamed := ApplyChunks(appended, aiId, stream);
    if failure.Some? then ReplaceText(streamed, aiId, StreamErrorText(failure.value)) else streamed
  }

  /** A send appends exactly two messages. When the placeholder's id is new
      and differs from the user message's, the earlier messages and the
      user message are untouched, and the placeholder holds the streamed
      text, or the error text on failure, with the last supplied sources. */
  lemma SendAppendsTwo(msgs: seq<ChatMessage>, input: string, userId: MessageId, aiId: MessageId,
                       stream: seq<Chunk>, failure: Option<string>)
    requires userId != aiId && forall k :: 0 <= k < |msgs| ==> msgs[k].id != aiId
    ensures var r := SentTranscript(msgs, input, userId, aiId, stream, failure);
      |r| == |msgs| + 2 && r[..|msgs|] == msgs
      && r[|msgs|] == ChatMessage(userId, User, input, None)
      && r[|msgs| + 1] == ChatMessage(aiId, Ai, if failure.Some? then StreamErrorText(failure.value) else Streamed(stream),
                                      LastSources(None, stream))
  {
    var appended := msgs + [ChatMessage(userId, User, input, None), ChatMessage(aiId, Ai, "", None)];
    var streamed := ApplyChunks(appended, aiId, stream);
    var r := SentTranscript(msgs, input, userId, aiId, stream, failure);
    assert appended[|msgs|].id == userId && appended[|msgs| + 1].id == aiId;
    forall k | 0 <= k < |msgs| ensures r[k] == msgs[k] {
      assert appended[k] == msgs[k];
    }
    assert "" + Streamed(stream) == Streamed(stream);
  }

  /** Two readings of a clock that does not go back give distinct ids to
      the user message (`Date.now()`) and the placeholder (`Date.now() + 1`). */
  lemma ClockIdsDistinct(t1: int, t2: int)
    requires t1 <= t2
    ensures Stamp(t1) != Stamp(t2 + 1)
  {
  }

  /** One more callback applies one more chunk. */
  lemma ApplyChunksStep(msgs: seq<ChatMessage>, id: MessageId, stream: seq<Chunk>, i: nat)
    requires i < |stream|
    ensures ApplyChunks(msgs, id, stream[..i + 1]) == ApplyChunk(ApplyChunks(msgs, id, stream[..i]), id, stream[i])
  {
    assert stream[..i + 1][..i] == stream[..i];
  }

  /** The service's stream loop: each chunk's callback applied in turn.
      `sawFinal` tells whether a callback reported the final chunk, which is
      when the callback clears the loading flag. */
  method RunStream(msgs: seq<ChatMessage>, id: MessageId, stream: seq<Chunk>)
    returns (r: seq<ChatMessage>, sawFinal: bool)
    ensures r == ApplyChunks(msgs, id, stream)
    ensures sawFinal == AnyFinal(stream)
  {
    r, sawFinal := msgs, false;
    var i := 0;
    while i < |stream|
      invariant 0 <= i <= |stream|
      invariant r == ApplyChunks(msgs, id, stream[..i])
      invariant sawFinal == AnyFinal(stream[..i])
    {
      ApplyChunksStep(msgs, id, stream, i);
      r := ApplyChunk(r, id, stream[i]);
      if stream[i].isFinal {
        sawFinal := true;
      }
      assert AnyFinal(stream[..i + 1]) <==> AnyFinal(stream[..i]) || stream[i].isFinal by {
        assert stream[..i + 1][i] == stream[i];
      }
      i := i + 1;
    }
    assert stream[..|stream|] == stream;
  }

  /** The chat component's state. */
  class ChatbotTool {
    var messages: seq<ChatMessage>
    var userInput: string
    var isLoading: bool
    var error: Option<string>
    /** Whether `chatSession` is set. */
    var hasSession: bool
    var systemInstruction: string
    /** The personas sessions were started with, and the inputs sent. */
    ghost var sessionsStarted: seq<Option<string>>
    ghost var sent: seq<string>

    constructor ()
      ensures messages == [] && userInput == "" && !isLoading && error.None? && !hasSession
      ensures systemInstruction == DefaultPersona && sessionsStarted == [] && sent == []
    {
      messages, userInput, isLoading, error := [], "", false, None;
      hasSession, systemInstruction := false, DefaultPersona;
      sessionsStarted, sent := [], [];
    }

    /** Typing into the message box. */
    method SetUserInput(value: string)
      modifies this
      ensures userInput == value
      ensures messages == old(messages) && isLoading == old(isLoading) && error == old(error)
      ensures hasSession == old(hasSession) && systemInstruction == old(systemInstruction)
      ensures sessionsStarted == old(sessionsStarted) && sent == old(sent)
    {
      userInput := value;
    }

    /** Editing the persona. */
    method SetSystemInstruction(value: string)
      modifies this
      ensures systemInstruction == value
      ensures messages == old(messages) && userInput == old(userInput) && isLoading == old(isLoading)
      ensures error == old(error) && hasSession == old(hasSession)
      ensures sessionsStarted == old(sessionsStarted) && sent == old(sent)
    {
      systemInstruction := value;
    }

    /** `initializeChat`, where `startFailure` is the message
        `startChatSession` threw, if it threw. On success the transcript
        becomes the single greeting; on failure only the error is set. */
    method InitializeChat(startFailure: Option<string>)
      modifies this
      ensures sessionsStarted == old(sessionsStarted) + [SessionPersona(systemInstruction)]
      ensures systemInstruction == old(systemInstruction) && userInput == old(userInput)
      ensures isLoading == old(isLoading) && sent == old(sent)
      ensures startFailure.None? ==> messages == [InitMessage(systemInstruction)] && hasSession && error.None?
      ensures startFailure.Some? ==>
        messages == old(messages) && hasSession == old(hasSession)
        && error == Some(OrElse(startFailure.value, InitFailedMessage))
    {
      error := None;
      sessionsStarted := sessionsStarted + [SessionPersona(systemInstruction)];
      if startFailure.None? {
        hasSession := true;
        messages := [InitMessage(systemInstruction)];
      } else {
        error := Some(OrElse(startFailure.value, InitFailedMessage));
      }
    }

    /** `handleSendMessage`. `t1` and `t2` are the two clock readings,
        `stream` the callbacks the service makes, and `failure` the message
        the service threw, if it threw. */
    method HandleSendMessage(t1: int, t2: int, stream: seq<Chunk>, failure: Option<string>)
      modifies this
      ensures IsBlank(old(userInput)) || !old(hasSession) ==>
        messages == old(messages) && userInput == old(userInput) && isLoading == old(isLoading)
        && error == old(error) && sent == old(sent)
      ensures !(IsBlank(old(userInput)) || !old(hasSession)) ==>
        messages == SentTranscript(old(messages), old(userInput), Stamp(t1), Stamp(t2 + 1), stream, failure)
        && userInput == "" && sent == old(sent) + [old(userInput)]
        && isLoading == (failure.None? && !AnyFinal(stream))
        && error == (if failure.Some? then Some(OrElse(failure.value, StreamFailedMessage)) else None)
      ensures hasSession == old(hasSession) && systemInstruction == old(systemInstruction)
      ensures sessionsStarted == old(sessionsStarted)
    {
      if IsBlank(userInput) || !hasSession {
        return;
      }
      var input := userInput;
      messages := messages + [ChatMessage(Stamp(t1), User, input, None)];
      userInput := "";
      isLoading := true;
      error := None;
      var aiMessageId := Stamp(t2 + 1);
      messages := messages + [ChatMessage(aiMessageId, Ai, "", None)];
      sent := sent + [input];
      assert messages == old(messages) + [ChatMessage(Stamp(t1), User, input, None), ChatMessage(aiMessageId, Ai, "", None)];
      var streamed, sawFinal := RunStream(messages, aiMessageId, stream);
      messages := streamed;
      if sawFinal {
        isLoading := false;
      }
      if failure.Some? {
        var errorMsg := OrElse(failure.value, StreamFailedMessage);
        error := Some(errorMsg);
        messages := ReplaceText(messages, aiMessageId, "Error: " + errorMsg);
        isLoading := false;
      }
    }
  }
}
