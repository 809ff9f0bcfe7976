/** Properties that span both ends of the socket: what the page shows after
    the server answers one utterance, what the server does with a finished
    recording, and why audio the server sends always decodes in the player. */
module EndToEnd {
  import opened Wire
  import opened Handler
  import opened Page
  import Capture
  import Speech

  /** Server messages as the page's `JSON.parse` sees them. */
  function Envelopes(ms: seq<ServerMsg>): (es: seq<Option<Envelope>>)
    ensures |es| == |ms|
    ensures forall k :: 0 <= k < |ms| ==> es[k] == Some(ServerEnvelope(ms[k]))
  {
    seq(|ms|, k requires 0 <= k < |ms| => Some(ServerEnvelope(ms[k])))
  }

  /** The page's state and playback after receiving `ms` in order. */
  function ClientRun(ui: Ui, ms: seq<ServerMsg>): Effects {
    DispatchAll(ui, Envelopes(ms))
  }

  lemma ClientRunAppend(ui: Ui, p: seq<ServerMsg>, q: seq<ServerMsg>)
    ensures var first := ClientRun(ui, p);
            var second := ClientRun(first.ui, q);
            ClientRun(ui, p + q) == Effects(second.ui, first.played + second.played)
  {
    assert Envelopes(p + q) == Envelopes(p) + Envelopes(q);
    DispatchAllAppend(ui, Envelopes(p), Envelopes(q));
  }

  lemma ClientRunOne(ui: Ui, m: ServerMsg)
    ensures var r := Dispatch(ui, Some(ServerEnvelope(m)));
            ClientRun(ui, [m]) == Effects(r.ui, if r.play.Some? then [r.play.value] else [])
  {
    DispatchAllSnoc(ui, [], Some(ServerEnvelope(m)));
    assert Envelopes([m]) == [] + [Some(ServerEnvelope(m))];
  }

  lemma ClientRunTwo(ui: Ui, m: ServerMsg, n: ServerMsg)
    ensures var r1 := Dispatch(ui, Some(ServerEnvelope(m)));
            var r2 := Dispatch(r1.ui, Some(ServerEnvelope(n)));
            ClientRun(ui, [m, n])
            == Effects(r2.ui, (if r1.play.Some? then [r1.play.value] else [])
                              + (if r2.play.Some? then [r2.play.value] else []))
  {
    assert [m, n] == [m] + [n];
    ClientRunAppend(ui, [m], [n]);
    ClientRunOne(ui, m);
    ClientRunOne(Dispatch(ui, Some(ServerEnvelope(m))).ui, n);
  }

  /** Forwarded tokens build up the streaming text and play nothing. */
  lemma ClientRunTokens(ui: Ui, tokens: seq<string>)
    ensures ClientRun(ui, TokenMessages(tokens))
            == Effects(ui.(streamingText := ui.streamingText + Concat(tokens)), [])
  {
    assert Envelopes(TokenMessages(tokens)) == TokenEnvelopes(tokens);
    TokensAccumulate(ui, tokens);
  }

  /** The server's audio message makes the page play its payload. */
  lemma ClientRunSpeech(ui: Ui, chunks: seq<seq<Byte>>, encode: seq<Byte> -> string)
    ensures ClientRun(ui, SpeechMessages(chunks, encode))
            == Effects(ui, if NonEmpty(chunks) == [] then [] else [encode(Concat(chunks))])
  {
    if NonEmpty(chunks) != [] {
      ClientRunOne(ui, AudioOut(encode(Concat(chunks))));
    }
  }

  /** The page once the transcription and the tokens have arrived: the
      user's turn is in the transcript and the tokens are streaming. */
  lemma ClientSeesQuestion(ui: Ui, text: string, tokens: seq<string>)
    ensures ClientRun(ui, [Status("transcribing")] + [UserText(text), Status("thinking")] + TokenMessages(tokens))
            == Effects(ui.(status := "thinking", isSpeaking := false, streamingText := Concat(tokens),
                           transcript := ui.transcript + [Entry("user", text)]), [])
  {
    var m1, m2, m3 := [Status("transcribing")], [UserText(text), Status("thinking")], TokenMessages(tokens);
    ClientRunOne(ui, m1[0]);
    var u1 := ui.(status := "transcribing", isSpeaking := false);
    ClientRunTwo(u1, m2[0], m2[1]);
    var u2 := u1.(transcript := ui.transcript + [Entry("user", text)], streamingText := "", status := "thinking");
    ClientRunAppend(ui, m1, m2);
    ClientRunTokens(u2, tokens);
    assert u2.streamingText + Concat(tokens) == Concat(tokens);
    ClientRunAppend(ui, m1 + m2, m3);
  }

  /** The speech and the final `ready`: the payload is played and the
      avatar stops speaking. */
  lemma ClientSeesSpeechEnd(ui: Ui, chunks: seq<seq<Byte>>, encode: seq<Byte> -> string)
    ensures ClientRun(ui, SpeechMessages(chunks, encode) + [Status("ready")])
            == Effects(ui.(status := "ready", isSpeaking := false),
                       if NonEmpty(chunks) == [] then [] else [encode(Concat(chunks))])
  {
    ClientRunSpeech(ui, chunks, encode);
    ClientRunOne(ui, Status("ready"));
    ClientRunAppend(ui, SpeechMessages(chunks, encode), [Status("ready")]);
  }

  /** The page once the reply has arrived: the assistant's turn, the speech,
      and the final `ready`. */
  lemma ClientSeesReply(ui: Ui, reply: string, chunks: seq<seq<Byte>>, encode: seq<Byte> -> string)
    ensures ClientRun(ui, [AssistantText(reply), Status("speaking")] + (SpeechMessages(chunks, encode)
                          + [Status("ready")]))
            == Effects(ui.(status := "ready", isSpeaking := false, streamingText := "",
                           transcript := ui.transcript + [Entry("assistant", reply)]),
                       if NonEmpty(chunks) == [] then [] else [encode(Concat(chunks))])
  {
    var m4 := [AssistantText(reply), Status("speaking")];
    ClientRunTwo(ui, m4[0], m4[1]);
    var u4 := ui.(transcript := ui.transcript + [Entry("assistant", reply)], streamingText := "",
                  status := "speaking", isSpeaking := true);
    assert ClientRun(ui, m4) == Effects(u4, []);
    ClientSeesSpeechEnd(u4, chunks, encode);
    ClientRunAppend(ui, m4, SpeechMessages(chunks, encode) + [Status("ready")]);
  }

  /** The page after an answered utterance: both turns are in the
      transcript, the streaming text is cleared, the status is `ready`, the
      avatar is not speaking, and the speech was handed to the player. */
  lemma ClientSeesAnswer(ui: Ui, text: string, tokens: seq<string>,
                         chunks: seq<seq<Byte>>, encode: seq<Byte> -> string)
    requires Usable(text) && Concat(tokens) != ""
    ensures ClientRun(ui, PipelineMessages(text, tokens, chunks, encode))
            == Effects(ui.(status := "ready", isSpeaking := false, streamingText := "",
                           transcript := ui.transcript + [Entry("user", text), Entry("assistant", Concat(tokens))]),
                       if NonEmpty(chunks) == [] then [] else [encode(Concat(chunks))])
  {
    var question := [Status("transcribing")] + [UserText(text), Status("thinking")] + TokenMessages(tokens);
    var reply := [AssistantText(Concat(tokens)), Status("speaking")] + (SpeechMessages(chunks, encode)
                 + [Status("ready")]);
    SpokenMessages(text, tokens, chunks, encode);
    assert PipelineMessages(text, tokens, chunks, encode) == question + reply;
    ClientSeesExchange(ui, text, tokens, chunks, encode);
  }

  /** `ClientSeesAnswer` on the messages split into the question and the reply. */
  lemma ClientSeesExchange(ui: Ui, text: string, tokens: seq<string>,
                           chunks: seq<seq<Byte>>, encode: seq<Byte> -> string)
    ensures var question := [Status("transcribing")] + [UserText(text), Status("thinking")] + TokenMessages(tokens);
            var reply := [AssistantText(Concat(tokens)), Status("speaking")] + (SpeechMessages(chunks, encode)
                         + [Status("ready")]);
            ClientRun(ui, question + reply)
            == Effects(ui.(status := "ready", isSpeaking := false, streamingText := "",
                           transcript := ui.transcript + [Entry("user", text), Entry("assistant", Concat(tokens))]),
                       if NonEmpty(chunks) == [] then [] else [encode(Concat(chunks))])
  {
    var question := [Status("transcribing")] + [UserText(text), Status("thinking")] + TokenMessages(tokens);
    var reply := [AssistantText(Concat(tokens)), Status("speaking")] + (SpeechMessages(chunks, encode)
                 + [Status("ready")]);
    ClientSeesQuestion(ui, text, tokens);
    var asked := ClientRun(ui, question).ui;
    ClientSeesReply(asked, Concat(tokens), chunks, encode);
    ClientRunAppend(ui, question, reply);
    assert ui.transcript + [Entry("user", text)] + [Entry("assistant", Concat(tokens))]
           == ui.transcript + [Entry("user", text), Entry("assistant", Concat(tokens))];
  }

  /** The page after an utterance with an empty reply: only the user's turn
      is added, and nothing is played. */
  lemma ClientSeesSilence(ui: Ui, text: string, tokens: seq<string>,
                          chunks: seq<seq<Byte>>, encode: seq<Byte> -> string)
    requires Usable(text) && Concat(tokens) == ""
    ensures ClientRun(ui, PipelineMessages(text, tokens, chunks, encode))
            == Effects(ui.(status := "ready", isSpeaking := false, streamingText := "",
                           transcript := ui.transcript + [Entry("user", text)]), [])
  {
    var question := [Status("transcribing")] + [UserText(text), Status("thinking")] + TokenMessages(tokens);
    SilentMessages(text, tokens, chunks, encode);
    ClientSeesQuestion(ui, text, tokens);
    var asked := ClientRun(ui, question).ui;
    ClientRunOne(asked, Status("ready"));
    ClientRunAppend(ui, question, [Status("ready")]);
  }

  /** An unusable transcription leaves the page at `ready` and otherwise as it was. */
  lemma ClientSeesNothingHeard(ui: Ui, text: string, tokens: seq<string>,
                               chunks: seq<seq<Byte>>, encode: seq<Byte> -> string)
    requires !Usable(text)
    ensures ClientRun(ui, PipelineMessages(text, tokens, chunks, encode))
            == Effects(ui.(status := "ready", isSpeaking := false), [])
  {
    ClientRunTwo(ui, Status("transcribing"), Status("ready"));
  }

  /** The statuses the server sends while answering never disable the
      recorder or bring back the Connect button. */
  lemma PipelineKeepsInputEnabled(text: string, tokens: seq<string>, chunks: seq<seq<Byte>>,
                                  encode: seq<Byte> -> string)
    ensures var m := PipelineMessages(text, tokens, chunks, encode);
            forall k :: 0 <= k < |m| && m[k].Status? ==> !Offline(m[k].status)
  {
    var m := PipelineMessages(text, tokens, chunks, encode);
    if Usable(text) {
      var reply := ReplyMessages(tokens, chunks, encode);
      assert m == [Status("transcribing"), UserText(text), Status("thinking")] + reply + [Status("ready")];
      FramedStatusesOnline(text, reply, m);
    }
  }

  /** The framing of a reply whose only status is `speaking` adds only
      statuses that keep the page online. */
  lemma FramedStatusesOnline(text: string, reply: seq<ServerMsg>, m: seq<ServerMsg>)
    requires forall k :: 0 <= k < |reply| && reply[k].Status? ==> reply[k] == Status("speaking")
    requires m == [Status("transcribing"), UserText(text), Status("thinking")] + reply + [Status("ready")]
    ensures forall k :: 0 <= k < |m| && m[k].Status? ==> !Offline(m[k].status)
  {
    forall k | 0 <= k < |m| && m[k].Status?
      ensures !Offline(m[k].status)
    {
      if 3 <= k < |m| - 1 {
        assert m[k] == reply[k - 3];
      }
    }
  }

  /** The audio the server sends is never empty and always decodes, in the
      player, to the speech bytes: server audio never halts the drain loop. */
  lemma ServerAudioDecodes(c: Base64, text: string, tokens: seq<string>, chunks: seq<seq<Byte>>)
    requires Valid(c)
    ensures var m := PipelineMessages(text, tokens, chunks, c.encode);
            forall k :: 0 <= k < |m| && m[k].AudioOut? ==>
              m[k].audio != "" && c.decode(m[k].audio) == Some(Concat(chunks))
              && Atob(c, m[k].audio).Some?
  {
    var m := PipelineMessages(text, tokens, chunks, c.encode);
    forall k | 0 <= k < |m| && m[k].AudioOut?
      ensures m[k].audio != "" && c.decode(m[k].audio) == Some(Concat(chunks))
    {
      NonEmptyNotEmpty(chunks);
    }
  }

  /** Joining pieces of which some is non-empty gives non-empty bytes. */
  lemma {:induction false} NonEmptyNotEmpty<T>(parts: seq<seq<T>>)
    requires NonEmpty(parts) != []
    ensures Concat(parts) != []
  {
    var r := NonEmpty(parts);
    var init, last := r[..|r| - 1], r[|r| - 1];
    assert r == init + [last];
    ConcatSnoc(init, last);
    assert |Concat(r)| >= |last| > 0;
  }

  /** Under the Edge provider the audio the page receives is the base64 of
      exactly the bytes synthesized for the reply. */
  lemma EdgeSpeechRoundTrip(c: Base64, backend: Speech.TtsBackend, reply: string)
    requires Valid(c)
    requires Speech.ChooseProvider(backend.provider, backend.apiKey) == Speech.Edge
    requires backend.edge(reply).Some? && backend.edge(reply).value != []
    ensures var chunks := Speech.StreamTts(backend, reply);
            NonEmpty(chunks) != [] && c.decode(c.encode(Concat(chunks))) == Some(backend.edge(reply).value)
  {
  }

  /** The two frames a finished, non-empty recording sends. */
  function UtteranceFrames(c: Base64, blob: Capture.Blob, sentAt: int, endedAt: int): seq<Frame> {
    var calls := Capture.LoadEndCalls(Some(Capture.DataUrl(Capture.BLOB_TYPE, c.encode(blob))));
    seq(|calls|, k requires 0 <= k < |calls| =>
      Frame(Some(ClientEnvelope(OutboundFrame(calls[k]))), if k == 0 then sentAt else endedAt))
  }

  /** A recording travels intact: a non-empty recording arrives as one audio
      frame and the end marker, and the server runs its pipeline on exactly
      the recorded bytes (after any audio it had already buffered); an empty
      recording sends nothing at all. */
  lemma RecordingReachesPipeline(st: ServerState, svc: Services, blob: Capture.Blob,
                                 sentAt: int, endedAt: int)
    requires |st.history| >= 1 && Valid(svc.codec)
    ensures blob == [] ==> UtteranceFrames(svc.codec, blob, sentAt, endedAt) == []
    ensures blob != [] ==>
              Serve(st, UtteranceFrames(svc.codec, blob, sentAt, endedAt), svc)
              == Pipeline(st.history, st.buffer + blob, svc, endedAt).sent
  {
    var c := svc.codec;
    Capture.RecordingCalls(c, blob);
    if blob != [] {
      var frames := UtteranceFrames(c, blob, sentAt, endedAt);
      AudioIsFramedAsAudio(c, blob);
      assert OutboundFrame(AUDIO_END_SENTINEL) == AudioEnd;
      assert frames == [Frame(Some(Envelope(Some("audio"), Some(c.encode(blob)))), sentAt),
                        Frame(Some(Envelope(Some("audio_end"), None)), endedAt)];
      UtteranceIsAnswered(st, svc, c.encode(blob), blob, sentAt, endedAt);
    }
  }

  /** The scenario: `ready`, `speaking`, one audio message, `ready` leaves the
      status at `ready`, the avatar silent, and exactly one entry handed to
      the player. */
  lemma SpeakingScenario(ui: Ui, c: Base64, b: seq<Byte>)
    ensures ClientRun(ui, [Status("ready"), Status("speaking"), AudioOut(c.encode(b)), Status("ready")])
            == Effects(ui.(status := "ready", isSpeaking := false), [c.encode(b)])
  {
    var ms := [Status("ready"), Status("speaking"), AudioOut(c.encode(b)), Status("ready")];
    assert ms == [ms[0], ms[1]] + [ms[2], ms[3]];
    ClientRunTwo(ui, ms[0], ms[1]);
    var u := ui.(status := "speaking", isSpeaking := true);
    ClientRunTwo(u, ms[2], ms[3]);
    ClientRunAppend(ui, [ms[0], ms[1]], [ms[2], ms[3]]);
  }
}
