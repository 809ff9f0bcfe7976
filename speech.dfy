/** Text-to-speech on the server (tts.py): which provider `stream_tts`
    uses, and how the Edge path slices the synthesized file into chunks
    of at most 4096 bytes. The synthesis itself is opaque: the Edge path is
    a function from text to the bytes read back from the file (or `None`
    when anything before the read fails), the ElevenLabs path a function
    from text to the chunks its stream delivered before it ended. */
module Speech {
  import opened Wire

  /** `chunk_size` in `_tts_edge`. */
  const CHUNK_SIZE: nat := 4096

  datatype Provider = Edge | ElevenLabs

  /** The configured provider, the API key, and the two opaque synthesizers. */
  datatype TtsBackend = TtsBackend(
    provider: string,
    apiKey: string,
    edge: string -> Option<seq<Byte>>,
    eleven: string -> seq<seq<Byte>>)

  /** ElevenLabs only when it is asked for and a key is configured; Edge otherwise. */
  function ChooseProvider(provider: string, apiKey: string): (p: Provider)
    ensures p == ElevenLabs ==> provider == "elevenlabs"
    ensures p == ElevenLabs ==> apiKey != ""
    ensures provider != "elevenlabs" ==> p == Edge
    ensures apiKey == "" ==> p == Edge
  {
    if provider == "elevenlabs" && apiKey != "" then ElevenLabs else Edge
  }

  /** `for i in range(0, len(data), chunk_size): yield data[i:i + chunk_size]`:
      chunk k is the slice starting at k * 4096, cut at the end of the data. */
  function EdgeChunks(data: seq<Byte>): (chunks: seq<seq<Byte>>)
    ensures data == [] <==> chunks == []
    ensures forall k :: 0 <= k < |chunks| ==> 1 <= |chunks[k]| <= CHUNK_SIZE
    ensures forall k :: 0 <= k < |chunks| - 1 ==> |chunks[k]| == CHUNK_SIZE
  {
    var n := |data|;
    seq((n + CHUNK_SIZE - 1) / CHUNK_SIZE,
        k requires 0 <= k < (n + CHUNK_SIZE - 1) / CHUNK_SIZE =>
          data[k * CHUNK_SIZE .. Min(k * CHUNK_SIZE + CHUNK_SIZE, n)])
  }

  /** The chunk count is the ceiling of the length over 4096. */
  lemma EdgeChunkCount(data: seq<Byte>)
    ensures |EdgeChunks(data)| * CHUNK_SIZE >= |data|
    ensures |EdgeChunks(data)| * CHUNK_SIZE < |data| + CHUNK_SIZE
  {
  }

  /** Peeling the first chunk off leaves the chunks of the rest of the data. */
  lemma EdgeChunksUnfold(data: seq<Byte>)
    requires data != []
    ensures var head := Min(CHUNK_SIZE, |data|);
            EdgeChunks(data) == [data[..head]] + EdgeChunks(data[head..])
  {
    var head := Min(CHUNK_SIZE, |data|);
    var rest := data[head..];
    var all, tail := EdgeChunks(data), EdgeChunks(rest);
    assert |all| == 1 + |tail|;
    forall k | 0 <= k < |tail|
      ensures all[k + 1] == tail[k]
    {
      assert (k + 1) * CHUNK_SIZE == k * CHUNK_SIZE + CHUNK_SIZE;
    }
    assert all == [data[..head]] + tail;
  }

  /** Joining the yielded chunks gives back exactly the data read. */
  lemma {:induction false} EdgeChunksConcat(data: seq<Byte>)
    ensures Concat(EdgeChunks(data)) == data
    decreases |data|
  {
    if data != [] {
      var head := Min(CHUNK_SIZE, |data|);
      EdgeChunksUnfold(data);
      ConcatCons(data[..head], EdgeChunks(data[head..]));
      EdgeChunksConcat(data[head..]);
      assert data == data[..head] + data[head..];
    }
  }

  /** `_tts_edge`: every exception is swallowed. A failure before the file
      is read yields nothing; once the data is read every chunk is yielded
      (a failing `os.unlink` afterwards only ends the stream). */
  function TtsEdge(saved: Option<seq<Byte>>): (chunks: seq<seq<Byte>>)
    ensures saved.None? ==> chunks == []
    ensures saved.Some? ==> Concat(chunks) == saved.value
    ensures forall k :: 0 <= k < |chunks| ==> 1 <= |chunks[k]| <= CHUNK_SIZE
  {
    match saved
    case None => []
    case Some(data) => EdgeChunksConcat(data); EdgeChunks(data)
  }

  /** `stream_tts`: the chunks of the chosen provider, never an exception. */
  function StreamTts(backend: TtsBackend, text: string): (chunks: seq<seq<Byte>>)
    ensures ChooseProvider(backend.provider, backend.apiKey) == Edge ==>
              Concat(chunks) == backend.edge(text).GetOr([])
    ensures ChooseProvider(backend.provider, backend.apiKey) == Edge ==>
              forall k :: 0 <= k < |chunks| ==> 1 <= |chunks[k]| <= CHUNK_SIZE
    ensures ChooseProvider(backend.provider, backend.apiKey) == ElevenLabs ==>
              chunks == backend.eleven(text)
  {
    match ChooseProvider(backend.provider, backend.apiKey)
    case ElevenLabs => backend.eleven(text)
    case Edge => TtsEdge(backend.edge(text))
  }
}
