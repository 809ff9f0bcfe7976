/** The wire protocol shared by the browser client and the Python server:
    the envelopes each end receives, the messages each end sends, and the
    base64 transport encoding of audio (section 4 of RFC 4648), which is
    kept abstract: a codec is a pair of functions that is only required to
    round-trip and to use the base64 alphabet. */
module Wire {

  datatype Option<T> = None | Some(value: T) {
    /** JavaScript's `x ?? default`. */
    function GetOr(default: T): T {
      if Some? then value else default
    }
  }

  /** One byte, as stored in a `Uint8Array` or a Python `bytes` object. */
  type Byte = b: int | 0 <= b < 256

  /** The in-band marker AudioInput passes to `onAudioChunk` at the end of an utterance. */
  const AUDIO_END_SENTINEL: string := "__AUDIO_END__"

  /** The smaller of two integers, as `min` and the clamping of slice bounds compute it. */
  function Min(a: int, b: int): int {
    if a <= b then a else b
  }

  /** What a receiver's JSON decoder makes of one text frame: the `type`
      member and the `payload` member, each possibly absent (or null).
      An unparseable frame is `None` where an `Option<Envelope>` is expected. */
  datatype Envelope = Envelope(kind: Option<string>, payload: Option<string>)

  /** Messages the client sends (page.tsx `sendAudio`). */
  datatype ClientMsg = AudioFrame(payload: string) | AudioEnd

  /** Messages the server sends (websocket.py `send_json`). */
  datatype ServerMsg =
    | Status(status: string)
    | UserText(text: string)
    | LlmToken(token: string)
    | AssistantText(text: string)
    | AudioOut(audio: string)
    | Pong
    | Error(detail: string)

  /** The envelope the server's `json.loads(raw)` yields for a client message. */
  function ClientEnvelope(m: ClientMsg): (e: Envelope)
    ensures e.kind == Some(if m.AudioEnd? then "audio_end" else "audio")
    ensures m.AudioEnd? <==> e.payload.None?
  {
    match m
    case AudioFrame(p) => Envelope(Some("audio"), Some(p))
    case AudioEnd => Envelope(Some("audio_end"), None)
  }

  /** The envelope the client's `JSON.parse(ev.data)` yields for a server message. */
  function ServerEnvelope(m: ServerMsg): (e: Envelope)
    ensures m.Pong? <==> e.payload.None?
  {
    match m
    case Status(s) => Envelope(Some("status"), Some(s))
    case UserText(t) => Envelope(Some("user_text"), Some(t))
    case LlmToken(t) => Envelope(Some("llm_token"), Some(t))
    case AssistantText(t) => Envelope(Some("assistant_text"), Some(t))
    case AudioOut(a) => Envelope(Some("audio"), Some(a))
    case Pong => Envelope(Some("pong"), None)
    case Error(d) => Envelope(Some("error"), Some(d))
  }

  /** Both encodings are injective: a receiver can tell every message apart. */
  lemma ServerEnvelopeInjective(m: ServerMsg, n: ServerMsg)
    requires ServerEnvelope(m) == ServerEnvelope(n)
    ensures m == n
  {
    match m
    case Status(_) =>
    case UserText(_) =>
    case LlmToken(_) =>
    case AssistantText(_) =>
    case AudioOut(_) =>
    case Pong =>
    case Error(_) =>
  }

  /** Concatenation of a sequence of pieces (`b"".join`, repeated `+=`). */
  function Concat<T>(parts: seq<seq<T>>): (r: seq<T>)
    ensures parts == [] ==> r == []
    ensures |parts| == 1 ==> r == parts[0]
  {
    if parts == [] then [] else Concat(parts[..|parts| - 1]) + parts[|parts| - 1]
  }

  lemma ConcatSnoc<T>(parts: seq<seq<T>>, last: seq<T>)
    ensures Concat(parts + [last]) == Concat(parts) + last
  {
    assert (parts + [last])[..|parts|] == parts;
  }

  /** Concatenation distributes over appending piece sequences. */
  lemma {:induction false} ConcatAppend<T>(p: seq<seq<T>>, q: seq<seq<T>>)
    ensures Concat(p + q) == Concat(p) + Concat(q)
    decreases |q|
  {
    if q == [] {
      assert p + q == p;
    } else {
      var init, last := q[..|q| - 1], q[|q| - 1];
      assert q == init + [last];
      assert p + q == (p + init) + [last];
      ConcatSnoc(p + init, last);
      ConcatAppend(p, init);
      ConcatSnoc(init, last);
    }
  }

  /** Concatenation of a single piece in front. */
  lemma ConcatCons<T>(first: seq<T>, rest: seq<seq<T>>)
    ensures Concat([first] + rest) == first + Concat(rest)
  {
    ConcatAppend([first], rest);
  }

  /** The non-empty pieces, in order (`if chunk: ...append(chunk)` on the
      server, `if (e.data.size > 0) ...push(e.data)` in the browser): every
      kept piece is one of the pieces, and none is dropped unless it is
      empty (`NonEmptyKeepsPieces`); `NonEmptySnoc` gives the filter one
      piece at a time. */
  function NonEmpty<T>(parts: seq<seq<T>>): (r: seq<seq<T>>)
    ensures forall k :: 0 <= k < |r| ==> r[k] != []
    ensures Concat(r) == Concat(parts)
    ensures |r| <= |parts|
  {
    if parts == [] then []
    else
      var init, last := parts[..|parts| - 1], parts[|parts| - 1];
      assert parts == init + [last];
      ConcatSnoc(init, last);
      if last == [] then
        NonEmpty(init)
      else
        ConcatSnoc(NonEmpty(init), last);
        NonEmpty(init) + [last]
  }

  /** Every kept piece is one of the pieces, and pieces that are all
      non-empty are kept whole. */
  lemma {:induction false} NonEmptyKeepsPieces<T>(parts: seq<seq<T>>)
    ensures forall k :: 0 <= k < |NonEmpty(parts)| ==> NonEmpty(parts)[k] in parts
    ensures (forall k :: 0 <= k < |parts| ==> parts[k] != []) ==> NonEmpty(parts) == parts
    decreases |parts|
  {
    if parts != [] {
      var init, last := parts[..|parts| - 1], parts[|parts| - 1];
      assert parts == init + [last];
      NonEmptyKeepsPieces(init);
      var kept := NonEmpty(parts);
      forall k | 0 <= k < |kept|
        ensures kept[k] in parts
      {
        if k < |NonEmpty(init)| {
          assert kept[k] == NonEmpty(init)[k];
          assert kept[k] in init;
        }
      }
    }
  }

  /** Filtering after appending one piece. */
  lemma NonEmptySnoc<T>(parts: seq<seq<T>>, last: seq<T>)
    ensures NonEmpty(parts + [last]) == NonEmpty(parts) + (if last == [] then [] else [last])
  {
    assert (parts + [last])[..|parts|] == parts;
  }

  /** The characters RFC 4648 section 4 uses: A-Z, a-z, 0-9, '+', '/' and the pad '='. */
  predicate IsBase64Char(c: char) {
    ('A' <= c <= 'Z') || ('a' <= c <= 'z') || ('0' <= c <= '9') || c == '+' || c == '/' || c == '='
  }

  /** An abstract base64 codec: the server's `b64encode`/`b64decode`, and the
      browser's FileReader data URL body and `atob` on the client. A failed
      decode (invalid input) is `None`. */
  datatype Base64 = Base64(encode: seq<Byte> -> string, decode: string -> Option<seq<Byte>>)

  /** What any correct base64 codec guarantees: decoding undoes encoding, the
      empty byte string and only it encodes to the empty text, and encoded
      text stays inside the base64 alphabet. */
  ghost predicate Valid(c: Base64) {
    && (forall b :: c.decode(c.encode(b)) == Some(b))
    && (forall b :: c.encode(b) == "" <==> b == [])
    && (forall b, i :: 0 <= i < |c.encode(b)| ==> IsBase64Char(c.encode(b)[i]))
  }

  /** A base64 text never contains a comma, the data-URL separator. */
  lemma EncodedHasNoComma(c: Base64, b: seq<Byte>)
    requires Valid(c)
    ensures ',' !in c.encode(b)
  {
  }

  /** The in-band end marker is never the base64 text of any audio, so
      `sendAudio` cannot mistake an audio payload for the end of an utterance. */
  lemma SentinelIsNotBase64(c: Base64, b: seq<Byte>)
    requires Valid(c)
    ensures c.encode(b) != AUDIO_END_SENTINEL
  {
    assert |c.encode(b)| > 0 ==> IsBase64Char(c.encode(b)[0]);
    assert !IsBase64Char(AUDIO_END_SENTINEL[0]);
  }

  /** The "binary string" `atob` returns: one char per byte, code point = byte. */
  function BinaryString(b: seq<Byte>): (s: string)
    ensures |s| == |b|
    ensures forall i :: 0 <= i < |b| ==> s[i] as int == b[i]
  {
    seq(|b|, i requires 0 <= i < |b| => b[i] as char)
  }

  /** The browser's `atob`: decode base64 to a binary string, or throw (`None`). */
  function Atob(c: Base64, s: string): (r: Option<string>)
    ensures r.None? <==> c.decode(s).None?
    ensures r.Some? ==> r.value == BinaryString(c.decode(s).value)
  {
    match c.decode(s)
    case None => None
    case Some(b) => Some(BinaryString(b))
  }
}
