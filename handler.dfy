/** The server's WebSocket handler (websocket.py): the receive loop that
    dispatches on the inbound message type, and the speech-to-text,
    language model, text-to-speech pipeline that answers one utterance.
    The three services are opaque functions; the pure functions `Pipeline`,
    `Step` and `Serve` say which messages go out and how the session
    changes, and the methods are proved to do exactly that. */
module Handler {
  import opened Wire
  import opened ServerSession
  import Speech

  /** What raised inside the receive loop. */
  datatype Fault = Unparseable | InvalidBase64

  /** The collaborators of the handler: the base64 codec, `transcribe_audio`
      (which never raises: it reports failures as text starting with "["),
      `stream_completion` (the tokens it yields for a history, including an
      "[LLM Error: ...]" token on failure), the text-to-speech backend, and
      `str(e)` for the exception a fault raises. */
  datatype Services = Services(
    codec: Base64,
    stt: seq<Byte> -> string,
    llm: seq<ChatEntry> -> seq<string>,
    tts: Speech.TtsBackend,
    describe: Fault -> string)

  /** One inbound text frame as `json.loads` and `data.get` see it (`None`
      when either raises), with the clock reading used for any message the
      frame causes to be recorded. */
  datatype Frame = Frame(parsed: Option<Envelope>, now: int)

  /** The session's two pieces of state. */
  datatype ServerState = ServerState(history: seq<Message>, buffer: seq<Byte>)

  /** A transcription the pipeline answers: non-empty and not an "[STT Error" report. */
  predicate Usable(text: string)
    ensures Usable(text) <==> !(text == "" || "[" <= text)
  {
    text != "" && text[0] != '['
  }

  /** One `llm_token` message per token, in order. */
  function TokenMessages(tokens: seq<string>): (m: seq<ServerMsg>)
    ensures |m| == |tokens|
    ensures forall k :: 0 <= k < |m| ==> m[k] == LlmToken(tokens[k])
  {
    seq(|tokens|, k requires 0 <= k < |tokens| => LlmToken(tokens[k]))
  }

  /** The one `audio` message of an answer: the base64 of the joined
      non-empty speech chunks, or nothing when there are none. */
  function SpeechMessages(chunks: seq<seq<Byte>>, encode: seq<Byte> -> string): (m: seq<ServerMsg>)
    ensures |m| <= 1
    ensures |m| == 1 <==> NonEmpty(chunks) != []
    ensures forall k :: 0 <= k < |m| ==> m[k] == AudioOut(encode(Concat(chunks)))
  {
    var audible := NonEmpty(chunks);
    if audible == [] then [] else [AudioOut(encode(Concat(audible)))]
  }

  /** What follows `thinking`: the tokens, then, for a non-empty reply,
      `assistant_text`, `speaking` and the audio. */
  function ReplyMessages(tokens: seq<string>, chunks: seq<seq<Byte>>,
                         encode: seq<Byte> -> string): (m: seq<ServerMsg>)
    ensures forall k :: 0 <= k < |m| ==>
              !m[k].Error? && !m[k].Pong? && (m[k].Status? ==> m[k] == Status("speaking"))
    ensures forall k :: 0 <= k < |m| && m[k].AssistantText? ==> m[k].text == Concat(tokens)
    ensures forall k :: 0 <= k < |m| && m[k].AudioOut? ==>
              k == |m| - 1 && k >= 1 && m[k - 1] == Status("speaking")
              && m[k].audio == encode(Concat(chunks)) && NonEmpty(chunks) != []
  {
    var response := Concat(tokens);
    TokenMessages(tokens)
    + (if response == "" then []
       else [AssistantText(response), Status("speaking")] + SpeechMessages(chunks, encode))
  }

  /** The messages `process_audio_to_voice` sends, as a function of the
      transcription, the model's tokens and the speech chunks. */
  function PipelineMessages(text: string, tokens: seq<string>, chunks: seq<seq<Byte>>,
                            encode: seq<Byte> -> string): (m: seq<ServerMsg>)
    ensures |m| >= 2
    ensures m[0] == Status("transcribing") && m[|m| - 1] == Status("ready")
    ensures !Usable(text) ==> m == [Status("transcribing"), Status("ready")]
    ensures forall k :: 0 <= k < |m| ==> !m[k].Error? && !m[k].Pong?
    ensures forall k :: 0 <= k < |m| && m[k].AssistantText? ==> m[k].text == Concat(tokens)
    ensures forall k :: 0 <= k < |m| && m[k].AudioOut? ==>
              k == |m| - 2 && m[k - 1] == Status("speaking")
              && NonEmpty(chunks) != [] && m[k].audio == encode(Concat(chunks))
  {
    if !Usable(text) then
      [Status("transcribing"), Status("ready")]
    else
      var reply := ReplyMessages(tokens, chunks, encode);
      ReplyFramed(text, reply, Concat(tokens), encode(Concat(chunks)), NonEmpty(chunks) != []);
      [Status("transcribing"), UserText(text), Status("thinking")] + reply + [Status("ready")]
  }

  /** The reply framed by the opening messages and the final `ready` keeps
      its properties, shifted by three. */
  lemma ReplyFramed(text: string, reply: seq<ServerMsg>, response: string, audio: string, audible: bool)
    requires forall k :: 0 <= k < |reply| ==>
               !reply[k].Error? && !reply[k].Pong? && (reply[k].Status? ==> reply[k] == Status("speaking"))
    requires forall k :: 0 <= k < |reply| && reply[k].AssistantText? ==> reply[k].text == response
    requires forall k :: 0 <= k < |reply| && reply[k].AudioOut? ==>
               k == |reply| - 1 && k >= 1 && reply[k - 1] == Status("speaking")
               && reply[k].audio == audio && audible
    ensures var m := [Status("transcribing"), UserText(text), Status("thinking")] + reply + [Status("ready")];
            && (forall k :: 0 <= k < |m| ==> !m[k].Error? && !m[k].Pong?)
            && (forall k :: 0 <= k < |m| && m[k].AssistantText? ==> m[k].text == response)
            && (forall k :: 0 <= k < |m| && m[k].AudioOut? ==>
                  k == |m| - 2 && m[k - 1] == Status("speaking") && audible && m[k].audio == audio)
  {
    var m := [Status("transcribing"), UserText(text), Status("thinking")] + reply + [Status("ready")];
    forall k | 0 <= k < |m|
      ensures !m[k].Error? && !m[k].Pong?
      ensures m[k].AssistantText? ==> m[k].text == response
      ensures m[k].AudioOut? ==>
                k == |m| - 2 && m[k - 1] == Status("speaking") && audible && m[k].audio == audio
    {
      if 3 <= k < |m| - 1 {
        assert m[k] == reply[k - 3];
        if m[k].AudioOut? {
          assert m[k - 1] == reply[k - 4];
        }
      }
    }
  }

  /** After a usable transcription the tokens follow `user_text` and
      `thinking` in order; the reply goes out as `assistant_text` only when
      the tokens join to a non-empty text. */
  lemma PipelineForwardsTokens(text: string, tokens: seq<string>, chunks: seq<seq<Byte>>,
                               encode: seq<Byte> -> string)
    requires Usable(text)
    ensures var m := PipelineMessages(text, tokens, chunks, encode);
            && |m| >= 4 + |tokens|
            && m[1] == UserText(text) && m[2] == Status("thinking")
            && m[3..3 + |tokens|] == TokenMessages(tokens)
            && (m[3 + |tokens|] == AssistantText(Concat(tokens)) <==> Concat(tokens) != "")
  {
  }

  /** The audio message is sent exactly when some speech chunk is non-empty. */
  lemma PipelineSendsAudioIff(text: string, tokens: seq<string>, chunks: seq<seq<Byte>>,
                              encode: seq<Byte> -> string)
    ensures var m := PipelineMessages(text, tokens, chunks, encode);
            (exists k :: 0 <= k < |m| && m[k].AudioOut?)
            <==> Usable(text) && Concat(tokens) != "" && NonEmpty(chunks) != []
  {
    var m := PipelineMessages(text, tokens, chunks, encode);
    if Usable(text) && Concat(tokens) != "" && NonEmpty(chunks) != [] {
      assert m[|m| - 2].AudioOut?;
    }
  }

  /** What one utterance does: the history afterwards and the messages sent. */
  datatype Outcome = Outcome(history: seq<Message>, sent: seq<ServerMsg>)

  /** `process_audio_to_voice` on the history `history`: the user message is
      recorded only for a usable transcription, the reply only when it is
      not empty; the model sees the recent window including the new user
      message, and speech is synthesized from the whole reply. */
  function Pipeline(history: seq<Message>, audio: seq<Byte>, svc: Services, now: int): (o: Outcome)
    requires |history| >= 1
    ensures |history| <= |o.history| <= |history| + 2
    ensures o.history[..|history|] == history
    ensures |o.sent| >= 2
    ensures o.sent[0] == Status("transcribing") && o.sent[|o.sent| - 1] == Status("ready")
    ensures forall k :: 0 <= k < |o.sent| ==> !o.sent[k].Error? && !o.sent[k].Pong?
  {
    var text := svc.stt(audio);
    if !Usable(text) then
      Outcome(history, PipelineMessages(text, [], [], svc.codec.encode))
    else
      var withUser := history + [Message(User, text, now)];
      var tokens := svc.llm(RecentWindow(withUser, DEFAULT_MAX_RECENT));
      var response := Concat(tokens);
      var chunks := if response == "" then [] else Speech.StreamTts(svc.tts, response);
      Outcome(if response == "" then withUser else withUser + [Message(Assistant, response, now)],
              PipelineMessages(text, tokens, chunks, svc.codec.encode))
  }

  /** `Pipeline` on the path where the transcription is usable and the reply is not empty. */
  lemma PipelineAnswered(history: seq<Message>, audio: seq<Byte>, svc: Services, now: int)
    requires |history| >= 1
    requires Usable(svc.stt(audio))
    requires Concat(svc.llm(RecentWindow(history + [Message(User, svc.stt(audio), now)], DEFAULT_MAX_RECENT))) != ""
    ensures var text := svc.stt(audio);
            var tokens := svc.llm(RecentWindow(history + [Message(User, text, now)], DEFAULT_MAX_RECENT));
            var response := Concat(tokens);
            Pipeline(history, audio, svc, now)
            == Outcome(history + [Message(User, text, now)] + [Message(Assistant, response, now)],
                       PipelineMessages(text, tokens, Speech.StreamTts(svc.tts, response), svc.codec.encode))
  {
  }

  /** The recorded history only grows, by the user turn and then the reply,
      and the stored reply is the text sent as `assistant_text`. */
  lemma PipelineRecords(history: seq<Message>, audio: seq<Byte>, svc: Services, now: int)
    requires |history| >= 1
    ensures var o := Pipeline(history, audio, svc, now);
            var text := svc.stt(audio);
            && o.history[..|history|] == history
            && (!Usable(text) <==> o.history == history)
            && (Usable(text) ==> o.history[|history|] == Message(User, text, now))
            && (forall k :: |history| < k < |o.history| ==>
                  o.history[k].role == Assistant
                  && exists j :: 0 <= j < |o.sent| && o.sent[j] == AssistantText(o.history[k].content))
  {
    var o := Pipeline(history, audio, svc, now);
    var text := svc.stt(audio);
    if !Usable(text) {
      PipelineUnheard(history, audio, svc, now);
    } else {
      var withUser := history + [Message(User, text, now)];
      var tokens := svc.llm(RecentWindow(withUser, DEFAULT_MAX_RECENT));
      assert withUser[..|history|] == history;
      if Concat(tokens) == "" {
        PipelineSilent(history, text, tokens, audio, svc, now);
        assert o.history == withUser;
      } else {
        var reply := Concat(tokens);
        PipelineAnswered(history, audio, svc, now);
        PipelineForwardsTokens(text, tokens, Speech.StreamTts(svc.tts, reply), svc.codec.encode);
        assert o.history == withUser + [Message(Assistant, reply, now)];
        assert o.history[..|history|] == history;
        assert o.sent[3 + |tokens|] == AssistantText(reply);
      }
    }
  }

  /** What one inbound frame does. */
  datatype StepResult = StepResult(state: ServerState, sent: seq<ServerMsg>, stop: bool)

  /** One iteration of the `while True` loop of `handle_websocket`. A fault
      sends one error report and ends the loop; everything else keeps it
      going. */
  function Step(st: ServerState, frame: Frame, svc: Services): (r: StepResult)
    requires |st.history| >= 1
    ensures |r.state.history| >= 1
    ensures r.stop <==> |r.sent| == 1 && r.sent[0].Error?
    ensures !r.stop ==> forall k :: 0 <= k < |r.sent| ==> !r.sent[k].Error?
    ensures r.stop ==> r.state == st
    ensures frame.parsed.None? ==> r == StepResult(st, [Error(svc.describe(Unparseable))], true)
    ensures frame.parsed.Some? && frame.parsed.value.kind == Some("ping") ==>
              r == StepResult(st, [Pong], false)
    // a frame of any other type is ignored
    ensures frame.parsed.Some? && frame.parsed.value.kind !in {Some("audio"), Some("audio_end"), Some("ping")} ==>
              r == StepResult(st, [], false)
  {
    match frame.parsed
    case None => StepResult(st, [Error(svc.describe(Unparseable))], true)
    case Some(env) =>
      if env.kind == Some("audio") then
        match env.payload
        case None => StepResult(st, [], false)
        case Some(p) =>
          if p == "" then StepResult(st, [], false)
          else match svc.codec.decode(p)
            case None => StepResult(st, [Error(svc.describe(InvalidBase64))], true)
            case Some(bytes) => StepResult(ServerState(st.history, st.buffer + bytes), [], false)
      else if env.kind == Some("audio_end") then
        if st.buffer == [] then StepResult(st, [Status("ready")], false)
        else
          var o := Pipeline(st.history, st.buffer, svc, frame.now);
          StepResult(ServerState(o.history, []), o.sent, false)
      else if env.kind == Some("ping") then
        StepResult(st, [Pong], false)
      else
        StepResult(st, [], false)
  }

  /** Audio with a missing or empty payload is ignored; otherwise its decoded
      bytes extend the buffer, or an undecodable payload ends the loop. */
  lemma AudioStep(st: ServerState, env: Envelope, now: int, svc: Services)
    requires |st.history| >= 1 && env.kind == Some("audio")
    ensures var r := Step(st, Frame(Some(env), now), svc);
            && (env.payload.GetOr("") == "" ==> r == StepResult(st, [], false))
            && (env.payload.GetOr("") != "" && svc.codec.decode(env.payload.value).Some? ==>
                  r == StepResult(ServerState(st.history, st.buffer + svc.codec.decode(env.payload.value).value),
                                  [], false))
            && (env.payload.GetOr("") != "" && svc.codec.decode(env.payload.value).None? ==> r.stop)
  {
  }

  /** `audio_end` always empties the buffer; on an empty buffer it only
      reports `ready`, otherwise it runs the pipeline on the buffered bytes. */
  lemma AudioEndStep(st: ServerState, now: int, svc: Services)
    requires |st.history| >= 1
    ensures var r := Step(st, Frame(Some(Envelope(Some("audio_end"), None)), now), svc);
            && r.state.buffer == [] && !r.stop
            && (st.buffer == [] ==> r == StepResult(st, [Status("ready")], false))
            && (st.buffer != [] ==>
                  r.sent == Pipeline(st.history, st.buffer, svc, now).sent
                  && r.state.history == Pipeline(st.history, st.buffer, svc, now).history)
  {
  }

  /** Every message the handler sends for the frames `frames`, starting in
      state `st`. Running out of frames is the client disconnecting: the
      loop ends on `receive_text`'s exception, and the error report it then
      tries to send cannot reach a closed socket. */
  function Serve(st: ServerState, frames: seq<Frame>, svc: Services): (sent: seq<ServerMsg>)
    requires |st.history| >= 1
    ensures frames == [] ==> sent == []
    ensures frames != [] && frames[0].parsed.None? ==> sent == [Error(svc.describe(Unparseable))]
    ensures frames != [] && Step(st, frames[0], svc).stop ==> |sent| == 1 && sent[0].Error?
    ensures frames != [] && !Step(st, frames[0], svc).stop ==>
              var first := Step(st, frames[0], svc).sent;
              |sent| >= |first| && sent[..|first|] == first
    decreases |frames|
  {
    if frames == [] then []
    else
      var r := Step(st, frames[0], svc);
      if r.stop then r.sent else r.sent + Serve(r.state, frames[1..], svc)
  }

  /** No message follows an error report. */
  predicate ErrorIsLast(sent: seq<ServerMsg>) {
    forall k :: 0 <= k < |sent| && sent[k].Error? ==> k == |sent| - 1
  }

  /** An utterance, one audio frame carrying base64 and the end marker, is
      answered by the pipeline run on the decoded bytes after whatever
      audio was already buffered. */
  lemma UtteranceIsAnswered(st: ServerState, svc: Services, payload: string, bytes: seq<Byte>,
                            sentAt: int, endedAt: int)
    requires |st.history| >= 1
    requires payload != "" && svc.codec.decode(payload) == Some(bytes)
    ensures Serve(st, [Frame(Some(Envelope(Some("audio"), Some(payload))), sentAt),
                       Frame(Some(Envelope(Some("audio_end"), None)), endedAt)], svc)
            == if st.buffer + bytes == [] then [Status("ready")]
               else Pipeline(st.history, st.buffer + bytes, svc, endedAt).sent
  {
    var frames := [Frame(Some(Envelope(Some("audio"), Some(payload))), sentAt),
                   Frame(Some(Envelope(Some("audio_end"), None)), endedAt)];
    var st1 := ServerState(st.history, st.buffer + bytes);
    AudioStep(st, frames[0].parsed.value, sentAt, svc);
    ServeStep(st, frames, svc);
    assert frames[1..] == [frames[1]];
    ServeStep(st1, frames[1..], svc);
    AudioEndStep(st1, endedAt, svc);
  }

  /** One frame of `Serve`. */
  lemma ServeStep(st: ServerState, frames: seq<Frame>, svc: Services)
    requires |st.history| >= 1 && frames != []
    ensures var r := Step(st, frames[0], svc);
            Serve(st, frames, svc) == if r.stop then r.sent else r.sent + Serve(r.state, frames[1..], svc)
  {
  }

  /** At most one error report is ever sent, and nothing follows it. */
  lemma {:induction false} ErrorOnlyLast(st: ServerState, frames: seq<Frame>, svc: Services)
    requires |st.history| >= 1
    ensures ErrorIsLast(Serve(st, frames, svc))
    decreases |frames|
  {
    if frames != [] {
      var r := Step(st, frames[0], svc);
      ServeStep(st, frames, svc);
      if !r.stop {
        ErrorOnlyLast(r.state, frames[1..], svc);
        ErrorFreeThenErrorIsLast(r.sent, Serve(r.state, frames[1..], svc));
      }
    }
  }

  /** Messages without an error report, followed by messages whose only
      error report is last, have their only error report last. */
  lemma ErrorFreeThenErrorIsLast(first: seq<ServerMsg>, rest: seq<ServerMsg>)
    requires forall k :: 0 <= k < |first| ==> !first[k].Error?
    requires ErrorIsLast(rest)
    ensures ErrorIsLast(first + rest)
  {
    var sent := first + rest;
    forall k | 0 <= k < |sent| && sent[k].Error?
      ensures k == |sent| - 1
    {
      assert k >= |first| && sent[k] == rest[k - |first|];
    }
  }

  /** A ping anywhere in the stream is answered by exactly one pong, and the
      session is as it was. */
  lemma PingIsAnsweredOnce(st: ServerState, frames: seq<Frame>, now: int, svc: Services)
    requires |st.history| >= 1
    ensures Serve(st, [Frame(Some(Envelope(Some("ping"), None)), now)] + frames, svc)
            == [Pong] + Serve(st, frames, svc)
  {
    var all := [Frame(Some(Envelope(Some("ping"), None)), now)] + frames;
    assert all[1..] == frames;
  }

  /** The `async for token in stream_completion(...)` loop: every token is
      forwarded as it arrives and appended to the reply. */
  method ForwardTokens(tokens: seq<string>) returns (response: string, forwarded: seq<ServerMsg>)
    ensures response == Concat(tokens)
    ensures forwarded == TokenMessages(tokens)
  {
    response, forwarded := "", [];
    var i := 0;
    while i < |tokens|
      invariant 0 <= i <= |tokens|
      invariant response == Concat(tokens[..i])
      invariant forwarded == TokenMessages(tokens[..i])
    {
      assert tokens[..i + 1] == tokens[..i] + [tokens[i]];
      ConcatSnoc(tokens[..i], tokens[i]);
      response := response + tokens[i];
      forwarded := forwarded + [LlmToken(tokens[i])];
      i := i + 1;
    }
    assert tokens[..i] == tokens;
  }

  /** The `async for chunk in stream_tts(response)` loop: the non-empty
      chunks, in order. */
  method CollectAudio(chunks: seq<seq<Byte>>) returns (audioChunks: seq<seq<Byte>>)
    ensures audioChunks == NonEmpty(chunks)
  {
    audioChunks := [];
    for j := 0 to |chunks|
      invariant audioChunks == NonEmpty(chunks[..j])
    {
      assert chunks[..j + 1] == chunks[..j] + [chunks[j]];
      if chunks[j] != [] {
        audioChunks := audioChunks + [chunks[j]];
      }
    }
    assert chunks[..|chunks|] == chunks;
  }

  /** `Pipeline` when the transcription is empty or an error report. */
  lemma PipelineUnheard(history: seq<Message>, audio: seq<Byte>, svc: Services, now: int)
    requires |history| >= 1 && !Usable(svc.stt(audio))
    ensures Pipeline(history, audio, svc, now)
            == Outcome(history, [Status("transcribing")] + [Status("ready")])
  {
  }

  /** `Pipeline` when the reply is empty: the tokens are forwarded and
      nothing more is recorded or said. */
  lemma PipelineSilent(history: seq<Message>, text: string, tokens: seq<string>,
                       audio: seq<Byte>, svc: Services, now: int)
    requires |history| >= 1 && svc.stt(audio) == text && Usable(text)
    requires tokens == svc.llm(RecentWindow(history + [Message(User, text, now)], DEFAULT_MAX_RECENT))
    requires Concat(tokens) == ""
    ensures Pipeline(history, audio, svc, now)
            == Outcome(history + [Message(User, text, now)],
                       [Status("transcribing")] + [UserText(text), Status("thinking")]
                       + TokenMessages(tokens) + [Status("ready")])
  {
    SilentMessages(text, tokens, [], svc.codec.encode);
  }

  /** The layout of an utterance whose reply is empty. */
  lemma SilentMessages(text: string, tokens: seq<string>, chunks: seq<seq<Byte>>,
                       encode: seq<Byte> -> string)
    requires Usable(text) && Concat(tokens) == ""
    ensures PipelineMessages(text, tokens, chunks, encode)
            == [Status("transcribing")] + [UserText(text), Status("thinking")]
               + TokenMessages(tokens) + [Status("ready")]
  {
    var reply := ReplyMessages(tokens, chunks, encode);
    assert reply == TokenMessages(tokens) + [];
    assert [Status("transcribing"), UserText(text), Status("thinking")] + reply + [Status("ready")]
           == [Status("transcribing")] + [UserText(text), Status("thinking")]
              + TokenMessages(tokens) + [Status("ready")];
  }

  /** `Pipeline` when the reply is not empty. */
  lemma PipelineSpoken(history: seq<Message>, text: string, tokens: seq<string>,
                       audio: seq<Byte>, svc: Services, now: int)
    requires |history| >= 1 && svc.stt(audio) == text && Usable(text)
    requires tokens == svc.llm(RecentWindow(history + [Message(User, text, now)], DEFAULT_MAX_RECENT))
    requires Concat(tokens) != ""
    ensures var chunks := Speech.StreamTts(svc.tts, Concat(tokens));
            Pipeline(history, audio, svc, now)
            == Outcome(history + [Message(User, text, now)] + [Message(Assistant, Concat(tokens), now)],
                       [Status("transcribing")] + [UserText(text), Status("thinking")]
                       + TokenMessages(tokens) + [AssistantText(Concat(tokens)), Status("speaking")]
                       + SpeechMessages(chunks, svc.codec.encode) + [Status("ready")])
  {
    var chunks := Speech.StreamTts(svc.tts, Concat(tokens));
    PipelineAnswered(history, audio, svc, now);
    SpokenMessages(text, tokens, chunks, svc.codec.encode);
  }

  /** The messages of an answered utterance, one after another. */
  lemma SpokenMessages(text: string, tokens: seq<string>, chunks: seq<seq<Byte>>,
                       encode: seq<Byte> -> string)
    requires Usable(text) && Concat(tokens) != ""
    ensures PipelineMessages(text, tokens, chunks, encode)
            == [Status("transcribing")] + [UserText(text), Status("thinking")]
               + TokenMessages(tokens) + [AssistantText(Concat(tokens)), Status("speaking")]
               + SpeechMessages(chunks, encode) + [Status("ready")]
  {
    var reply := ReplyMessages(tokens, chunks, encode);
    var a, b, c, d := [UserText(text), Status("thinking")], TokenMessages(tokens),
                      [AssistantText(Concat(tokens)), Status("speaking")], SpeechMessages(chunks, encode);
    assert reply == b + (c + d);
    assert [Status("transcribing"), UserText(text), Status("thinking")] + reply + [Status("ready")]
           == [Status("transcribing")] + a + b + c + d + [Status("ready")];
  }

  /** `process_audio_to_voice`. */
  method ProcessAudioToVoice(session: Session, audio: seq<Byte>, svc: Services, now: int)
    returns (sent: seq<ServerMsg>)
    requires session.Valid()
    modifies session`messages
    ensures session.Valid()
    ensures Outcome(session.messages, sent) == Pipeline(old(session.messages), audio, svc, now)
  {
    ghost var history := session.messages;
    sent := [Status("transcribing")];
    var text := svc.stt(audio);
    if text == "" || text[0] == '[' {
      sent := sent + [Status("ready")];
      PipelineUnheard(history, audio, svc, now);
      return;
    }
    session.AddUserMessage(text, now);
    sent := sent + [UserText(text), Status("thinking")];

    var tokens := svc.llm(RecentWindow(session.messages, DEFAULT_MAX_RECENT));
    var response, forwarded := ForwardTokens(tokens);
    sent := sent + forwarded;
    if response == "" {
      sent := sent + [Status("ready")];
      PipelineSilent(history, text, tokens, audio, svc, now);
      return;
    }
    session.AddAssistantMessage(response, now);
    sent := sent + [AssistantText(response), Status("speaking")];

    var chunks := Speech.StreamTts(svc.tts, response);
    var audioChunks := CollectAudio(chunks);
    var speech: seq<ServerMsg> := [];
    if audioChunks != [] {
      var b64 := svc.codec.encode(Concat(audioChunks));
      speech := [AudioOut(b64)];
    }
    sent := sent + speech;
    sent := sent + [Status("ready")];
    PipelineSpoken(history, text, tokens, audio, svc, now);
  }

  /** The body of one loop iteration of `handle_websocket`. */
  method HandleFrame(session: Session, frame: Frame, svc: Services)
    returns (sent: seq<ServerMsg>, stop: bool)
    requires session.Valid()
    modifies session`messages, session`audioBuffer, session`pending
    ensures session.Valid()
    ensures StepResult(ServerState(session.messages, session.audioBuffer), sent, stop)
            == Step(ServerState(old(session.messages), old(session.audioBuffer)), frame, svc)
  {
    sent, stop := [], false;
    if frame.parsed.None? {
      sent, stop := [Error(svc.describe(Unparseable))], true;
      return;
    }
    var env := frame.parsed.value;
    if env.kind == Some("audio") {
      if env.payload.None? || env.payload.value == "" {
        return;
      }
      var bytes := svc.codec.decode(env.payload.value);
      if bytes.None? {
        sent, stop := [Error(svc.describe(InvalidBase64))], true;
        return;
      }
      session.AppendAudio(bytes.value);
    } else if env.kind == Some("audio_end") {
      var fullAudio := session.ConsumeAudio();
      if fullAudio == [] {
        sent := [Status("ready")];
        return;
      }
      sent := ProcessAudioToVoice(session, fullAudio, svc, frame.now);
    } else if env.kind == Some("ping") {
      sent := [Pong];
    }
  }

  /** `handle_websocket`: a fresh session, then one loop iteration per frame
      until a fault or the end of the frames. */
  method HandleWebsocket(frames: seq<Frame>, svc: Services, sessionId: string, acceptedAt: int)
    returns (sent: seq<ServerMsg>)
    ensures sent == Serve(ServerState([Message(System, SYSTEM_PROMPT, acceptedAt)], []), frames, svc)
  {
    var session := new Session(sessionId, acceptedAt);
    ghost var start := ServerState(session.messages, session.audioBuffer);
    sent := [];
    var i := 0;
    var stop := false;
    while i < |frames| && !stop
      invariant 0 <= i <= |frames|
      invariant session.Valid()
      invariant stop ==> sent == Serve(start, frames, svc)
      invariant !stop ==>
        sent + Serve(ServerState(session.messages, session.audioBuffer), frames[i..], svc)
        == Serve(start, frames, svc)
    {
      ghost var here := ServerState(session.messages, session.audioBuffer);
      ghost var before := sent;
      assert frames[i..][0] == frames[i] && frames[i..][1..] == frames[i + 1..];
      ServeStep(here, frames[i..], svc);
      var out;
      out, stop := HandleFrame(session, frames[i], svc);
      sent := sent + out;
      assert !stop ==> before + Serve(here, frames[i..], svc)
                       == sent + Serve(ServerState(session.messages, session.audioBuffer), frames[i + 1..], svc);
      i := i + 1;
    }
  }
}
