/** The browser page (page.tsx): the connection status, the transcript and
    the text streaming in from the model, the socket handle, and the
    dispatch of every inbound server message. The React state updates of
    one message are a pure function `Dispatch` of the state before it; the
    socket handle and its callbacks live in the class `HomePage`. Sockets
    are identified by the number of their creation; whether a socket is
    open is the browser's business and is passed in as its `readyState`. */
module Page {
  import opened Wire
  import Playback

  /** The `status` React state before any message arrives. */
  const INITIAL_STATUS: string := "disconnected"

  /** One line of the transcript: `{ role, text }`. */
  datatype Entry = Entry(role: string, text: string)

  /** `WebSocket.readyState`. */
  datatype ReadyState = Connecting | Open | Closing | Closed

  /** The React state the dispatcher updates. */
  datatype Ui = Ui(status: string, isSpeaking: bool, transcript: seq<Entry>, streamingText: string)

  /** What one message does: the new state, and the payload handed to
      `playChunk` if it is an audio message. */
  datatype Reaction = Reaction(ui: Ui, play: Option<string>)

  /** The state on mount. */
  function InitialUi(): (u: Ui)
    ensures u.status == INITIAL_STATUS && !u.isSpeaking
    ensures u.transcript == [] && u.streamingText == ""
  {
    Ui(INITIAL_STATUS, false, [], "")
  }

  /** The `disabled` prop of the recorder, and equally the condition under
      which the Connect button is rendered. */
  predicate Offline(status: string)
    ensures status == INITIAL_STATUS ==> Offline(status)
    ensures Offline(status) ==> status !in {"connected", "transcribing", "thinking", "speaking", "ready"}
  {
    status == "disconnected" || status == "error"
  }

  /** `socket.onmessage`: parse, read `type` and `payload ?? ""`, and
      update the state by type. A parse failure is caught and ignored. */
  function Dispatch(ui: Ui, msg: Option<Envelope>): (r: Reaction)
    // unparseable and unknown messages change nothing
    ensures msg.None? ==> r == Reaction(ui, None)
    ensures msg.Some? && msg.value.kind !in {Some("status"), Some("user_text"), Some("llm_token"),
                                             Some("assistant_text"), Some("audio")}
            ==> r == Reaction(ui, None)
    // only a `status` message changes the status and the speaking flag
    ensures (r.ui.status, r.ui.isSpeaking) != (ui.status, ui.isSpeaking) ==>
              msg.Some? && msg.value.kind == Some("status")
    ensures msg.Some? && msg.value.kind == Some("status") ==>
              var p := msg.value.payload.GetOr("");
              r == Reaction(ui.(status := p, isSpeaking := p == "speaking"), None)
    // the transcript only grows, by at most one entry
    ensures |ui.transcript| <= |r.ui.transcript| <= |ui.transcript| + 1
    ensures r.ui.transcript[..|ui.transcript|] == ui.transcript
    ensures |r.ui.transcript| == |ui.transcript| + 1 <==>
              msg.Some? && msg.value.kind in {Some("user_text"), Some("assistant_text")}
    ensures |r.ui.transcript| == |ui.transcript| + 1 ==>
              && r.ui.transcript[|ui.transcript|]
                 == Entry(if msg.value.kind == Some("user_text") then "user" else "assistant",
                          msg.value.payload.GetOr(""))
              && r.ui.streamingText == ""
              && r.ui.status == ui.status && r.ui.isSpeaking == ui.isSpeaking
    // a token extends the streaming text and nothing else
    ensures msg.Some? && msg.value.kind == Some("llm_token") ==>
              r == Reaction(ui.(streamingText := ui.streamingText + msg.value.payload.GetOr("")), None)
    // audio is handed on unchanged
    ensures r.play.Some? <==> msg.Some? && msg.value.kind == Some("audio")
    ensures r.play.Some? ==> r == Reaction(ui, Some(msg.value.payload.GetOr("")))
  {
    match msg
    case None => Reaction(ui, None)
    case Some(env) =>
      var payload := env.payload.GetOr("");
      if env.kind == Some("status") then
        Reaction(ui.(status := payload, isSpeaking := payload == "speaking"), None)
      else if env.kind == Some("user_text") then
        Reaction(ui.(transcript := ui.transcript + [Entry("user", payload)], streamingText := ""), None)
      else if env.kind == Some("llm_token") then
        Reaction(ui.(streamingText := ui.streamingText + payload), None)
      else if env.kind == Some("assistant_text") then
        Reaction(ui.(transcript := ui.transcript + [Entry("assistant", payload)], streamingText := ""), None)
      else if env.kind == Some("audio") then
        Reaction(ui, Some(payload))
      else
        Reaction(ui, None)
  }

  /** The state after a run of messages, and the payloads handed to the
      player, in order. */
  datatype Effects = Effects(ui: Ui, played: seq<string>)

  /** `Dispatch` over a run of messages, one after another. */
  function DispatchAll(ui: Ui, msgs: seq<Option<Envelope>>): (e: Effects)
    ensures |ui.transcript| <= |e.ui.transcript| <= |ui.transcript| + |msgs|
    ensures e.ui.transcript[..|ui.transcript|] == ui.transcript
    ensures |e.played| <= |msgs|
  {
    if msgs == [] then Effects(ui, [])
    else
      var before := DispatchAll(ui, msgs[..|msgs| - 1]);
      var r := Dispatch(before.ui, msgs[|msgs| - 1]);
      Effects(r.ui, before.played + (if r.play.Some? then [r.play.value] else []))
  }

  /** The envelopes a run of tokens arrives as. */
  function TokenEnvelopes(tokens: seq<string>): (msgs: seq<Option<Envelope>>)
    ensures |msgs| == |tokens|
    ensures forall k :: 0 <= k < |msgs| ==> msgs[k] == Some(ServerEnvelope(LlmToken(tokens[k])))
  {
    seq(|tokens|, k requires 0 <= k < |tokens| => Some(ServerEnvelope(LlmToken(tokens[k]))))
  }

  /** Streamed tokens accumulate: "Hel" then "lo" shows "Hello". */
  lemma {:induction false} TokensAccumulate(ui: Ui, tokens: seq<string>)
    ensures DispatchAll(ui, TokenEnvelopes(tokens))
            == Effects(ui.(streamingText := ui.streamingText + Concat(tokens)), [])
    decreases |tokens|
  {
    if tokens == [] {
      assert ui.streamingText + "" == ui.streamingText;
    } else {
      var init := tokens[..|tokens| - 1];
      assert TokenEnvelopes(tokens)[..|tokens| - 1] == TokenEnvelopes(init);
      TokensAccumulate(ui, init);
      assert ui.streamingText + Concat(init) + tokens[|tokens| - 1]
             == ui.streamingText + Concat(tokens);
    }
  }

  /** Appending a message to a run dispatches it in the state the run left. */
  lemma DispatchAllSnoc(ui: Ui, msgs: seq<Option<Envelope>>, last: Option<Envelope>)
    ensures var before := DispatchAll(ui, msgs);
            var r := Dispatch(before.ui, last);
            DispatchAll(ui, msgs + [last])
            == Effects(r.ui, before.played + (if r.play.Some? then [r.play.value] else []))
  {
    assert (msgs + [last])[..|msgs|] == msgs;
  }

  /** A run of messages dispatches as its first part and then its second. */
  lemma {:induction false} DispatchAllAppend(ui: Ui, p: seq<Option<Envelope>>, q: seq<Option<Envelope>>)
    ensures var first := DispatchAll(ui, p);
            var second := DispatchAll(first.ui, q);
            DispatchAll(ui, p + q) == Effects(second.ui, first.played + second.played)
    decreases |q|
  {
    if q == [] {
      assert p + q == p;
    } else {
      var init, last := q[..|q| - 1], q[|q| - 1];
      assert q == init + [last];
      assert p + q == (p + init) + [last];
      DispatchAllSnoc(ui, p + init, last);
      DispatchAllAppend(ui, p, init);
      DispatchAllSnoc(DispatchAll(ui, p).ui, init, last);
    }
  }

  /** The framing of `sendAudio`: the end marker becomes `audio_end`
      without a payload, anything else an `audio` message carrying it. */
  function OutboundFrame(b64: string): (m: ClientMsg)
    ensures m.AudioEnd? <==> b64 == AUDIO_END_SENTINEL
    ensures m.AudioFrame? ==> m.payload == b64
    ensures ClientEnvelope(m).kind == Some(if b64 == AUDIO_END_SENTINEL then "audio_end" else "audio")
  {
    if b64 == AUDIO_END_SENTINEL then AudioEnd else AudioFrame(b64)
  }

  /** Audio captured through a valid base64 codec is always sent as audio,
      never mistaken for the end marker, and arrives with its payload. */
  lemma AudioIsFramedAsAudio(c: Base64, b: seq<Byte>)
    requires Valid(c)
    ensures OutboundFrame(c.encode(b)) == AudioFrame(c.encode(b))
    ensures ClientEnvelope(OutboundFrame(c.encode(b))).payload == Some(c.encode(b))
  {
    SentinelIsNotBase64(c, b);
  }

  /** The `Home` component: its React state, the socket handle and the
      player it feeds. */
  class HomePage {
    var status: string
    var isSpeaking: bool
    var transcript: seq<Entry>
    var streamingText: string
    /** `wsRef.current`: the number of the socket it holds, if any. */
    var ws: Option<nat>
    /** How many sockets `connect` has created. */
    var socketsCreated: nat
    /** `audioOutputRef.current`, taken to be mounted. */
    const output: Playback.AudioOutput

    /** The handle only ever holds a socket that was created. */
    ghost predicate Valid()
      reads this, output
    {
      && output.Valid()
      && (ws.Some? ==> 1 <= ws.value <= socketsCreated)
    }

    /** The dispatcher's view of the state. */
    function View(): (u: Ui)
      reads this
      ensures u.status == status && u.transcript == transcript
    {
      Ui(status, isSpeaking, transcript, streamingText)
    }

    /** The first render. */
    constructor (output: Playback.AudioOutput)
      requires output.Valid()
      ensures Valid()
      ensures View() == InitialUi()
      ensures ws == None && socketsCreated == 0 && this.output == output
    {
      status, isSpeaking, transcript, streamingText := INITIAL_STATUS, false, [], "";
      ws, socketsCreated := None, 0;
      this.output := output;
    }

    /** `connect`: nothing while the current socket is open; otherwise a
        new socket replaces the handle, even if the old one is still
        connecting. The status is not touched. */
    method Connect(current: ReadyState)
      requires Valid()
      modifies this`ws, this`socketsCreated
      ensures Valid()
      ensures old(ws).Some? && current == Open ==> ws == old(ws) && socketsCreated == old(socketsCreated)
      ensures !(old(ws).Some? && current == Open) ==>
                socketsCreated == old(socketsCreated) + 1 && ws == Some(socketsCreated)
    {
      if ws.Some? && current == Open {
        return;
      }
      socketsCreated := socketsCreated + 1;
      ws := Some(socketsCreated);
    }

    /** `socket.onopen` of socket `source`. */
    method OnOpen(source: nat)
      requires Valid() && 1 <= source <= socketsCreated
      modifies this`status
      ensures Valid()
      ensures status == "connected"
    {
      status := "connected";
    }

    /** `socket.onclose` of socket `source`: the handle is cleared whether
        or not it still holds `source`. */
    method OnClose(source: nat)
      requires Valid() && 1 <= source <= socketsCreated
      modifies this`status, this`ws
      ensures Valid()
      ensures status == "disconnected" && ws == None
    {
      status := "disconnected";
      ws := None;
    }

    /** `socket.onerror` of socket `source`: the handle is kept. */
    method OnError(source: nat)
      requires Valid() && 1 <= source <= socketsCreated
      modifies this`status
      ensures Valid()
      ensures status == "error"
    {
      status := "error";
    }

    /** `socket.onmessage` of socket `source`: the state moves as `Dispatch`
        says, and an audio payload goes to `playChunk`; `contextFails` is
        passed on to it. */
    method OnMessage(source: nat, msg: Option<Envelope>, contextFails: bool)
      requires Valid() && 1 <= source <= socketsCreated
      modifies this`status, this`isSpeaking, this`transcript, this`streamingText, output
      ensures Valid()
      ensures View() == Dispatch(old(View()), msg).ui
      ensures Dispatch(old(View()), msg).play.None? ==> unchanged(output)
      ensures Dispatch(old(View()), msg).play.Some? ==>
                var p := Dispatch(old(View()), msg).play.value;
                && (p == "" ==> unchanged(output))
                && (p != "" ==> output.pushed == old(output.pushed) + [p]
                                && output.finished == old(output.finished) && output.playing)
                && (p != "" && old(output.playing) ==>
                      && output.queue == old(output.queue) + [p]
                      && output.stage == old(output.stage) && output.attempted == old(output.attempted))
                && (p != "" && !old(output.playing) && !old(output.contextCreated) && contextFails ==>
                      output.stage == Playback.Stalled && output.queue == [p]
                      && output.attempted == old(output.attempted))
                && (p != "" && !old(output.playing) && (old(output.contextCreated) || !contextFails) ==>
                      && output.queue == [] && output.attempted == old(output.attempted) + [p]
                      && output.stage == Playback.Popped(output.codec, p))
    {
      var r := Dispatch(View(), msg);
      status, isSpeaking, transcript, streamingText :=
        r.ui.status, r.ui.isSpeaking, r.ui.transcript, r.ui.streamingText;
      if r.play.Some? {
        output.PlayChunk(r.play.value, contextFails);
      }
    }

    /** `sendAudio`: nothing unless the handle holds an open socket;
        otherwise the framed message. */
    method SendAudio(b64: string, current: ReadyState) returns (sent: Option<ClientMsg>)
      ensures sent.Some? <==> ws.Some? && current == Open
      ensures sent.Some? ==> sent.value.AudioEnd? == (b64 == AUDIO_END_SENTINEL)
      ensures sent.Some? && b64 != AUDIO_END_SENTINEL ==> sent.value == AudioFrame(b64)
    {
      if ws.None? || current != Open {
        return None;
      }
      sent := Some(OutboundFrame(b64));
    }
  }
}
