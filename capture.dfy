/** The microphone capture (AudioInput.tsx): a recorder that buffers the
    fragments it emits, and, when it stops, the data URL of the whole
    recording cut at its comma to obtain the base64 text sent to the
    server, followed by the end marker. The browser's media objects are
    identified by numbers the caller supplies, whether acquiring them
    succeeds is a parameter, and the result of `readAsDataURL` is an input
    of the load-end handler. */
module Capture {
  import opened Wire

  /** A `Blob`, by its bytes. */
  type Blob = seq<Byte>

  /** The media type the recorded blob is labelled with. */
  const BLOB_TYPE: string := "audio/webm"

  /** How far the `try` block of `startRecording` gets. */
  datatype StartOutcome =
    | MicDenied         // `getUserMedia` rejects
    | RecorderRejected  // `new MediaRecorder` throws (e.g. unsupported mime type)
    | StartThrew        // `recorder.start()` throws
    | Started

  /** JavaScript's `s.split(sep)` for a one-character separator: the pieces
      between separators, always at least one. */
  function Split(s: string, sep: char): (parts: seq<string>)
    ensures |parts| >= 1
    ensures forall k :: 0 <= k < |parts| ==> sep !in parts[k]
    ensures Join(parts, sep) == s
  {
    if s == [] then [""]
    else
      var rest := Split(s[1..], sep);
      if s[0] == sep then
        assert [""] + rest == [""] + [rest[0]] + rest[1..];
        [""] + rest
      else
        var parts := [[s[0]] + rest[0]] + rest[1..];
        assert parts[1..] == rest[1..];
        assert s == [s[0]] + s[1..];
        parts
  }

  /** The pieces put back together with the separator between them. */
  function Join(parts: seq<string>, sep: char): (s: string)
    requires |parts| >= 1
  {
    if |parts| == 1 then parts[0] else parts[0] + [sep] + Join(parts[1..], sep)
  }

  /** Splitting undoes joining pieces that do not contain the separator. */
  lemma {:induction false} SplitJoin(parts: seq<string>, sep: char)
    requires |parts| >= 1
    requires forall k :: 0 <= k < |parts| ==> sep !in parts[k]
    ensures Split(Join(parts, sep), sep) == parts
    decreases |parts|, |parts[0]|
  {
    var first := parts[0];
    if first == [] {
      if |parts| > 1 {
        assert Join(parts, sep) == [sep] + Join(parts[1..], sep);
        assert Join(parts, sep)[1..] == Join(parts[1..], sep);
        SplitJoin(parts[1..], sep);
        assert parts == [""] + parts[1..];
      }
    } else {
      var shorter := [first[1..]] + parts[1..];
      assert shorter[1..] == parts[1..];
      assert Join(parts, sep) == [first[0]] + Join(shorter, sep);
      assert Join(parts, sep)[1..] == Join(shorter, sep);
      assert sep != first[0];
      SplitJoin(shorter, sep);
      assert first == [first[0]] + first[1..];
      assert parts == [[first[0]] + shorter[0]] + shorter[1..];
    }
  }

  /** `result.split(",")[1]`: the second comma-separated field, or
      `undefined` when there is no comma. */
  function SecondField(s: string): (f: Option<string>)
    ensures f.Some? <==> ',' in s
    ensures f.Some? ==> ',' !in f.value
  {
    var parts := Split(s, ',');
    if |parts| >= 2 then Some(parts[1])
    else
      assert s == parts[0];
      None
  }

  /** The data URL `readAsDataURL` yields (section 3 of RFC 2397): the
      media type, the `;base64` marker, a comma, and the base64 body. */
  function DataUrl(mediaType: string, body: string): (url: string)
    ensures ',' !in mediaType ==> url == Join(["data:" + mediaType + ";base64", body], ',')
  {
    "data:" + mediaType + ";base64," + body
  }

  /** A data URL whose media type has no comma gives back its body. */
  lemma DataUrlBody(mediaType: string, body: string)
    requires ',' !in mediaType && ',' !in body
    ensures SecondField(DataUrl(mediaType, body)) == Some(body)
  {
    var head := "data:" + mediaType + ";base64";
    assert ',' !in "data:" && ',' !in ";base64";
    SplitJoin([head, body], ',');
  }

  /** `reader.onloadend`: the `onAudioChunk` calls it makes for the reader's
      result (`None` when the read failed and `result` is null, which makes
      `split` throw). An empty or missing body sends nothing, not even the
      end marker; otherwise the body and then the end marker. */
  function LoadEndCalls(result: Option<string>): (calls: seq<string>)
    ensures result.None? ==> calls == []
    ensures calls == [] || |calls| == 2
    ensures calls != [] <==> result.Some? && SecondField(result.value).GetOr("") != ""
    ensures calls != [] ==> calls == [SecondField(result.value).value, AUDIO_END_SENTINEL]
  {
    match result
    case None => []
    case Some(url) =>
      var body := SecondField(url);
      if body.None? || body.value == "" then [] else [body.value, AUDIO_END_SENTINEL]
  }

  /** What a recording of `blob` sends through a valid codec: nothing for an
      empty recording, otherwise its base64 and then the end marker. */
  lemma RecordingCalls(c: Base64, blob: Blob)
    requires Valid(c)
    ensures LoadEndCalls(Some(DataUrl(BLOB_TYPE, c.encode(blob))))
            == if blob == [] then [] else [c.encode(blob), AUDIO_END_SENTINEL]
  {
    EncodedHasNoComma(c, blob);
    DataUrlBody(BLOB_TYPE, c.encode(blob));
  }

  class AudioInput {
    /** The `recording` React state. */
    var recording: bool
    /** `mediaRecorderRef.current` and `streamRef.current`. */
    var recorder: Option<nat>
    var stream: Option<nat>
    /** `chunksRef.current`. */
    var chunks: seq<Blob>
    /** Every fragment the recorder emitted since the buffer was last reset. */
    ghost var emitted: seq<Blob>

    /** The buffer holds exactly the non-empty fragments, in emission order,
        and a recording has its recorder and stream. */
    ghost predicate Valid()
      reads this
    {
      && chunks == NonEmpty(emitted)
      && (recording ==> recorder.Some? && stream.Some?)
    }

    constructor ()
      ensures Valid()
      ensures !recording && recorder == None && stream == None && chunks == []
    {
      recording, recorder, stream := false, None, None;
      chunks, emitted := [], [];
    }

    /** `startRecording`: nothing when disabled or already recording.
        Otherwise the stream is kept as soon as it is acquired, the buffer
        is reset once the recorder exists, and only a recorder that starts
        is kept and marks the recording. */
    method StartRecording(disabled: bool, outcome: StartOutcome, newStream: nat, newRecorder: nat)
      requires Valid()
      modifies this
      ensures Valid()
      ensures disabled || old(recording) || outcome == MicDenied ==> unchanged(this)
      ensures !disabled && !old(recording) && outcome == RecorderRejected ==>
                && stream == Some(newStream) && !recording
                && recorder == old(recorder) && chunks == old(chunks) && emitted == old(emitted)
      ensures !disabled && !old(recording) && outcome == StartThrew ==>
                && stream == Some(newStream) && !recording
                && recorder == old(recorder) && chunks == [] && emitted == []
      ensures !disabled && !old(recording) && outcome == Started ==>
                && stream == Some(newStream) && recording
                && recorder == Some(newRecorder) && chunks == [] && emitted == []
    {
      if disabled || recording {
        return;
      }
      if outcome == MicDenied {
        return;
      }
      stream := Some(newStream);
      if outcome == RecorderRejected {
        return;
      }
      chunks, emitted := [], [];
      if outcome == StartThrew {
        return;
      }
      recorder := Some(newRecorder);
      recording := true;
    }

    /** `recorder.ondataavailable`: keep the fragment only if it is not empty. */
    method OnDataAvailable(fragment: Blob)
      requires Valid()
      modifies this`chunks, this`emitted
      ensures Valid()
      ensures emitted == old(emitted) + [fragment]
      ensures chunks == old(chunks) + (if fragment == [] then [] else [fragment])
    {
      NonEmptySnoc(emitted, fragment);
      if |fragment| > 0 {
        chunks := chunks + [fragment];
      }
      emitted := emitted + [fragment];
    }

    /** `stopRecording`: stop whatever recorder and stream are held, drop
        both handles and clear the flag. Returns what was stopped. */
    method StopRecording() returns (stoppedRecorder: Option<nat>, stoppedStream: Option<nat>)
      requires Valid()
      modifies this`recorder, this`stream, this`recording
      ensures Valid()
      ensures stoppedRecorder == old(recorder) && stoppedStream == old(stream)
      ensures recorder == None && stream == None && !recording
    {
      stoppedRecorder, stoppedStream := recorder, stream;
      recorder, stream := None, None;
      recording := false;
    }

    /** `recorder.onstop`: the blob of everything buffered, handed to the
        reader; the buffer is cleared after the blob is taken. The blob is
        every emitted fragment joined, since empty ones add nothing. */
    method OnStop() returns (blob: Blob)
      requires Valid()
      modifies this`chunks, this`emitted
      ensures Valid()
      ensures blob == Concat(old(chunks)) && blob == Concat(old(emitted))
      ensures chunks == [] && emitted == []
    {
      blob := Concat(chunks);
      chunks, emitted := [], [];
    }
  }
}
