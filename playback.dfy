/** The client's playback queue (AudioOutput.tsx): base64 audio entries
    wait in a FIFO, and a single asynchronous drain loop decodes and plays
    them one at a time. The loop suspends while the browser decodes an
    entry and while its sound plays; each suspension is a `Stage`, and the
    browser's resumption of the loop is a step method, so that calls to
    `PlayChunk` can be interleaved with the loop as they are in the
    browser. The audio hardware is not modelled: whether creating the
    `AudioContext` and whether a decode succeed are parameters of the
    steps that depend on them. */
module Playback {
  import opened Wire

  /** Where the drain loop of `processQueue` stands. */
  datatype Stage =
    | Idle                                       // no loop running
    | Stalled                                    // `new AudioContext()` threw: no loop, nothing popped
    | Decoding(entry: string, bytes: seq<Byte>)  // awaiting `decodeAudioData`
    | Sounding(entry: string)                    // awaiting the source's `onended`
    | Halted(entry: string)                      // `atob` threw: the loop is gone

  /** The entry the loop has popped and not yet finished with. */
  function InFlight(s: Stage): (r: seq<string>)
    ensures |r| <= 1
    ensures s.Idle? || s.Stalled? <==> r == []
    ensures r != [] ==> r[0] == s.entry
  {
    if s.Idle? || s.Stalled? then [] else [s.entry]
  }

  /** Where the loop stops after popping `entry`: `atob` throws outside the
      `try` and the loop is gone, or the copied bytes are handed to
      `decodeAudioData`. */
  function Popped(c: Base64, entry: string): (s: Stage)
    ensures !s.Idle? && !s.Stalled? && s.entry == entry
    ensures s.Halted? <==> c.decode(entry).None?
    ensures s.Decoding? <==> c.decode(entry).Some?
    ensures s.Decoding? ==> s.bytes == c.decode(entry).value
  {
    match c.decode(entry)
    case None => Halted(entry)
    case Some(bytes) => Decoding(entry, bytes)
  }

  /** What `bytes[i] = binary.charCodeAt(i)` stores in a `Uint8Array`. */
  function Uint8(code: int): (b: Byte)
    ensures 0 <= code < 256 ==> b == code
    ensures (code - b) % 256 == 0
  {
    code % 256
  }

  /** The byte-copy loop: one byte per character of the binary string,
      holding its character code. */
  method CopyBinary(binary: string) returns (bytes: array<Byte>)
    ensures bytes.Length == |binary|
    ensures forall i :: 0 <= i < |binary| ==> bytes[i] == Uint8(binary[i] as int)
  {
    bytes := new Byte[|binary|];
    for i := 0 to |binary|
      invariant forall j :: 0 <= j < i ==> bytes[j] == Uint8(binary[j] as int)
    {
      bytes[i] := Uint8(binary[i] as int);
    }
  }

  /** Copying the binary string `atob` returns gives back the decoded bytes. */
  lemma CopyOfBinaryString(b: seq<Byte>, copied: seq<Byte>)
    requires |copied| == |b|
    requires forall i :: 0 <= i < |b| ==> copied[i] == Uint8(BinaryString(b)[i] as int)
    ensures copied == b
  {
    forall i | 0 <= i < |b|
      ensures copied[i] == b[i]
    {
      assert BinaryString(b)[i] as int == b[i];
    }
  }

  class AudioOutput {
    const codec: Base64
    /** Whether `initContext` has created the `AudioContext`. */
    var contextCreated: bool
    /** `queueRef.current`. */
    var queue: seq<string>
    /** `playingRef.current`. */
    var playing: bool
    var stage: Stage
    /** Every entry ever pushed, every entry ever popped, and every popped
        entry the loop is done with (played to the end or skipped). */
    ghost var pushed: seq<string>
    ghost var attempted: seq<string>
    ghost var finished: seq<string>

    /** FIFO discipline: what was pushed is what was popped followed by
        what still waits; no empty entry is ever pushed. */
    ghost predicate Logs()
      reads this
    {
      && pushed == attempted + queue
      && forall i :: 0 <= i < |pushed| ==> pushed[i] != ""
    }

    /** The loop's bookkeeping: `playing` is set exactly while the stage is
        not `Idle` (a running loop, the entry whose `atob` threw, or a
        context that could not be created), and every popped entry except
        the one in flight is finished, so no two entries are ever decoded
        or played at once. */
    ghost predicate Drain()
      reads this
    {
      && (playing <==> !stage.Idle?)
      && (stage.Stalled? <==> playing && !contextCreated)
      && attempted == finished + InFlight(stage)
      && (stage.Decoding? ==> codec.decode(stage.entry) == Some(stage.bytes))
      && (stage.Halted? ==> codec.decode(stage.entry).None?)
    }

    /** Between events: with no loop running, nothing waits. */
    ghost predicate Valid()
      reads this
    {
      Logs() && Drain() && (stage.Idle? ==> queue == [])
    }

    constructor (codec: Base64)
      ensures Valid()
      ensures this.codec == codec && !contextCreated
      ensures queue == [] && !playing && stage == Idle
      ensures pushed == [] && attempted == [] && finished == []
    {
      this.codec := codec;
      contextCreated := false;
      queue, playing, stage := [], false, Idle;
      pushed, attempted, finished := [], [], [];
    }

    /** `playChunk`: ignore an empty entry; otherwise push it and start a
        drain loop unless `playing` is set. `contextFails` says whether
        `new AudioContext()` would throw if it were called now. */
    method PlayChunk(b64: string, contextFails: bool)
      requires Valid()
      modifies this
      ensures Valid()
      ensures b64 == "" ==> unchanged(this)
      ensures b64 != "" ==> pushed == old(pushed) + [b64] && finished == old(finished) && playing
      ensures b64 != "" && old(playing) ==>
                queue == old(queue) + [b64] && stage == old(stage) && attempted == old(attempted)
      ensures b64 != "" && !old(playing) && !old(contextCreated) && contextFails ==>
                stage == Stalled && queue == [b64] && attempted == old(attempted)
      ensures b64 != "" && !old(playing) && (old(contextCreated) || !contextFails) ==>
                queue == [] && attempted == old(attempted) + [b64] && stage == Popped(codec, b64)
    {
      if b64 == "" {
        return;
      }
      queue := queue + [b64];
      pushed := pushed + [b64];
      ProcessQueue(contextFails);
    }

    /** `processQueue`: a no-op while `playing` is set or when nothing
        waits; otherwise set `playing`, create the context on first use and
        enter the loop. A context that cannot be created rejects the call
        with `playing` left set and the queue untouched. */
    method ProcessQueue(contextFails: bool)
      requires Logs() && Drain()
      modifies this`playing, this`contextCreated, this`queue, this`stage, this`attempted
      ensures Valid()
      ensures old(playing) || old(queue) == [] ==> unchanged(this)
      ensures !old(playing) && old(queue) != [] && !old(contextCreated) && contextFails ==>
                && playing && !contextCreated && stage == Stalled
                && queue == old(queue) && attempted == old(attempted)
      ensures !old(playing) && old(queue) != [] && (old(contextCreated) || !contextFails) ==>
                && playing && contextCreated
                && queue == old(queue)[1..]
                && attempted == old(attempted) + [old(queue)[0]]
                && stage == Popped(codec, old(queue)[0])
    {
      if playing || queue == [] {
        return;
      }
      playing := true;
      if !contextCreated && contextFails {
        stage := Stalled;
        return;
      }
      contextCreated := true;
      Resume();
    }

    /** The `while` test: pop the next entry, or leave the loop. */
    method Resume()
      requires Logs() && playing && contextCreated && attempted == finished
      modifies this`playing, this`queue, this`stage, this`attempted
      ensures Valid()
      ensures old(queue) == [] ==> !playing && stage == Idle && queue == [] && attempted == old(attempted)
      ensures old(queue) != [] ==>
                && playing
                && queue == old(queue)[1..]
                && attempted == old(attempted) + [old(queue)[0]]
                && stage == Popped(codec, old(queue)[0])
    {
      if queue == [] {
        DrainEnd();
      } else {
        DrainStep();
      }
    }

    /** The loop ends on an empty queue and clears `playing`. */
    method DrainEnd()
      requires Logs() && queue == [] && attempted == finished
      modifies this`playing, this`stage
      ensures Valid()
      ensures !playing && stage == Idle
    {
      playing := false;
      stage := Idle;
    }

    /** One loop iteration up to its first suspension: pop the head and
        decode its base64. `atob` is outside the `try`, so an invalid entry
        ends the loop by an exception, with `playing` left set; otherwise the
        bytes are copied out and handed to `decodeAudioData`. */
    method DrainStep()
      requires Logs() && playing && contextCreated && attempted == finished && queue != []
      modifies this`queue, this`stage, this`attempted
      ensures Valid()
      ensures queue == old(queue)[1..]
      ensures attempted == old(attempted) + [old(queue)[0]]
      ensures stage == Popped(codec, old(queue)[0])
    {
      var entry := queue[0];
      queue := queue[1..];
      attempted := attempted + [entry];
      var binary := Atob(codec, entry);
      if binary.None? {
        stage := Halted(entry);
        return;
      }
      var bytes := CopyBinary(binary.value);
      CopyOfBinaryString(codec.decode(entry).value, bytes[..]);
      stage := Decoding(entry, bytes[..]);
    }

    /** `decodeAudioData` settles: a decodable entry starts sounding; a
        failure is caught, the entry is skipped and the loop goes on. */
    method DecodeSettled(playable: bool)
      requires Valid() && stage.Decoding?
      modifies this`playing, this`queue, this`stage, this`attempted, this`finished
      ensures Valid()
      ensures playable ==>
                && stage == Sounding(old(stage).entry)
                && queue == old(queue) && attempted == old(attempted) && finished == old(finished)
      ensures !playable ==> finished == old(attempted)
      ensures !playable && old(queue) == [] ==> !playing && stage == Idle && attempted == old(attempted)
      ensures !playable && old(queue) != [] ==>
                && playing && queue == old(queue)[1..]
                && attempted == old(attempted) + [old(queue)[0]]
                && stage == Popped(codec, old(queue)[0])
    {
      if playable {
        stage := Sounding(stage.entry);
        return;
      }
      finished := finished + [stage.entry];
      Resume();
    }

    /** The source's `onended` fires: the entry is done and the loop goes on. */
    method PlaybackEnded()
      requires Valid() && stage.Sounding?
      modifies this`playing, this`queue, this`stage, this`attempted, this`finished
      ensures Valid()
      ensures finished == old(attempted)
      ensures old(queue) == [] ==> !playing && stage == Idle && attempted == old(attempted)
      ensures old(queue) != [] ==>
                && playing && queue == old(queue)[1..]
                && attempted == old(attempted) + [old(queue)[0]]
                && stage == Popped(codec, old(queue)[0])
    {
      finished := finished + [stage.entry];
      Resume();
    }
  }
}
