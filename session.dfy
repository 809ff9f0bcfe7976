/** The server's per-connection session (session.py): the conversation
    history handed to the language model, and the buffer that collects the
    audio of one utterance until the client marks its end. */
module ServerSession {
  import opened Wire

  datatype Role = System | User | Assistant

  /** `Message.role` as the strings the history carries. */
  function RoleName(r: Role): string {
    match r
    case System => "system"
    case User => "user"
    case Assistant => "assistant"
  }

  /** `Message`: the wall-clock `timestamp` is whatever the caller read from the clock. */
  datatype Message = Message(role: Role, content: string, timestamp: int)

  /** One `{"role": ..., "content": ...}` entry of the OpenAI-style history. */
  datatype ChatEntry = ChatEntry(role: string, content: string)

  /** `Session.SYSTEM_PROMPT`. */
  const SYSTEM_PROMPT: string :=
    "You are an AI interviewer for a professional hiring evaluation. "
    + "Respond naturally, concisely, and conversationally. "
    + "Keep replies brief (1-3 sentences) to maintain real-time feel. "
    + "Be warm, professional, and engaging."

  /** The default `max_recent` of `get_llm_messages`. */
  const DEFAULT_MAX_RECENT: int := 10

  function Max(a: int, b: int): int {
    if a <= b then b else a
  }

  /** Python's `s[start:]` for any integer `start`: a negative start counts
      from the end, and both kinds are clamped to the sequence. */
  function SliceFrom<T>(s: seq<T>, start: int): (r: seq<T>)
    ensures |r| <= |s| && r == s[|s| - |r|..]
    ensures start >= 0 ==> |r| == Max(0, |s| - start)
    ensures start < 0 ==> |r| == Min(-start, |s|)
  {
    if start >= 0 then s[Min(start, |s|)..]
    else s[Max(|s| + start, 0)..]
  }

  /** A history entry without its timestamp. */
  function ToEntry(m: Message): ChatEntry {
    ChatEntry(RoleName(m.role), m.content)
  }

  /** `get_llm_messages(max_recent)` over the history `messages`: the first
      message followed by `messages[-max_recent:]`, as role/content pairs. */
  function RecentWindow(messages: seq<Message>, maxRecent: int): (r: seq<ChatEntry>)
    requires |messages| >= 1
    ensures |r| == 1 + (if maxRecent >= 1 then Min(maxRecent, |messages|)
                        else Max(0, |messages| + maxRecent))
    ensures r[0] == ToEntry(messages[0])
    ensures forall i :: 1 <= i < |r| ==> r[i] == ToEntry(messages[|messages| - |r| + i])
  {
    var picked := [messages[0]] + SliceFrom(messages, -maxRecent);
    seq(|picked|, i requires 0 <= i < |picked| => ToEntry(picked[i]))
  }

  /** A history no longer than the window is sent whole after the system
      message, so the system message is sent twice. */
  lemma ShortHistoryRepeatsFirst(messages: seq<Message>, maxRecent: int)
    requires 1 <= |messages| <= maxRecent
    ensures var r := RecentWindow(messages, maxRecent);
            |r| == 1 + |messages| && r[1] == r[0]
            && forall i :: 1 <= i < |r| ==> r[i] == ToEntry(messages[i - 1])
  {
    assert SliceFrom(messages, -maxRecent) == messages;
  }

  /** `max_recent = 0` slices from `-0`, which is `0`: the whole history. */
  lemma ZeroWindowIsWholeHistory(messages: seq<Message>)
    requires |messages| >= 1
    ensures var r := RecentWindow(messages, 0);
            |r| == 1 + |messages|
            && forall i :: 1 <= i < |r| ==> r[i] == ToEntry(messages[i - 1])
  {
  }

  /** Per-connection state. `pending` records the chunks appended since the
      last consume, so that what a consume returns can be stated. */
  class Session {
    const sessionId: string
    var messages: seq<Message>
    var audioBuffer: seq<Byte>
    ghost var pending: seq<seq<Byte>>

    /** The system prompt stays first, and the buffer holds exactly the
        pending chunks. */
    ghost predicate Valid()
      reads this
    {
      && |messages| >= 1
      && messages[0].role == System
      && messages[0].content == SYSTEM_PROMPT
      && audioBuffer == Concat(pending)
    }

    /** `Session(session_id=...)` followed by `__post_init__`. */
    constructor (sessionId: string, now: int)
      ensures Valid()
      ensures this.sessionId == sessionId
      ensures messages == [Message(System, SYSTEM_PROMPT, now)]
      ensures audioBuffer == [] && pending == []
    {
      this.sessionId := sessionId;
      messages := [Message(System, SYSTEM_PROMPT, now)];
      audioBuffer := [];
      pending := [];
    }

    /** `append_audio`: extend the buffer in place. */
    method AppendAudio(chunk: seq<Byte>)
      requires Valid()
      modifies this`audioBuffer, this`pending
      ensures Valid()
      ensures audioBuffer == old(audioBuffer) + chunk
      ensures pending == old(pending) + [chunk]
    {
      ConcatSnoc(pending, chunk);
      audioBuffer := audioBuffer + chunk;
      pending := pending + [chunk];
    }

    /** `consume_audio`: the bytes of every chunk appended since the last
        consume, in order; the buffer is left empty. */
    method ConsumeAudio() returns (data: seq<Byte>)
      requires Valid()
      modifies this`audioBuffer, this`pending
      ensures Valid()
      ensures data == Concat(old(pending))
      ensures audioBuffer == [] && pending == []
    {
      data := audioBuffer;
      audioBuffer := [];
      pending := [];
    }

    /** `add_user_message`. */
    method AddUserMessage(content: string, now: int)
      requires Valid()
      modifies this`messages
      ensures Valid()
      ensures messages == old(messages) + [Message(User, content, now)]
    {
      messages := messages + [Message(User, content, now)];
    }

    /** `add_assistant_message`. */
    method AddAssistantMessage(content: string, now: int)
      requires Valid()
      modifies this`messages
      ensures Valid()
      ensures messages == old(messages) + [Message(Assistant, content, now)]
    {
      messages := messages + [Message(Assistant, content, now)];
    }
  }
}
