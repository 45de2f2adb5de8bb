/**
 * The sound-effect player. A registry of WAV clips is loaded once; a key
 * press starts a random clip unless one is already playing; the audio
 * device's callback fills each output buffer with the next bytes of the
 * current clip followed by silence, and retires the clip when it runs out.
 */
module Audio {
  import opened Maybe

  newtype Byte = x: int | 0 <= x < 256

  /**
   * One registry slot: the buffer SDL_LoadWAV produced, its length being the
   * slot's size. A clip that failed to load keeps its NULL buffer and size 0,
   * which is the empty buffer here.
   */
  datatype Wav = Wav(buffer: seq<Byte>)

  /** What one callback takes from the current clip, and whether the clip stays current. */
  datatype Chunk = Chunk(bytes: seq<Byte>, continues: bool)

  /**
   * The clip bytes one callback copies for a request of `len` bytes from
   * position `offset`: the next bytes of the clip in order, all `len` of
   * them while more than `len` remain, otherwise everything that is left,
   * after which the clip is retired.
   */
  function Deliver(buffer: seq<Byte>, offset: nat, len: nat): (c: Chunk)
    requires offset <= |buffer|
    ensures |c.bytes| <= len && offset + |c.bytes| <= |buffer|
    ensures c.bytes == buffer[offset .. offset + |c.bytes|]
    ensures c.continues <==> |buffer| - offset > len
    ensures c.continues ==> |c.bytes| == len
    ensures !c.continues ==> offset + |c.bytes| == |buffer|
  {
    var remaining := |buffer| - offset;
    if remaining > len then Chunk(buffer[offset .. offset + len], true)
    else Chunk(buffer[offset..], false)
  }

  /** An output buffer of `len` bytes: the copied bytes first, then silence. */
  function Mixed(bytes: seq<Byte>, silence: Byte, len: nat): (stream: seq<Byte>)
    requires |bytes| <= len
    ensures |stream| == len
    ensures stream[..|bytes|] == bytes
    ensures forall k :: |bytes| <= k < len ==> stream[k] == silence
  {
    bytes + seq(len - |bytes|, _ => silence)
  }

  /** The clip bytes a run of callbacks with the given request sizes plays, from `offset`. */
  function Playback(buffer: seq<Byte>, offset: nat, requests: seq<nat>): (played: seq<Byte>)
    requires offset <= |buffer|
    decreases |requests|
  {
    if requests == [] then []
    else
      var c := Deliver(buffer, offset, requests[0]);
      if c.continues then c.bytes + Playback(buffer, offset + requests[0], requests[1..])
      else c.bytes
  }

  function Total(requests: seq<nat>): nat
  {
    if requests == [] then 0 else requests[0] + Total(requests[1..])
  }

  function Min(a: int, b: int): int
  {
    if a <= b then a else b
  }

  /**
   * Successive callbacks play one contiguous stretch of the clip: no byte is
   * skipped or repeated, and the stretch ends at the clip's end or when the
   * requested bytes are used up, whichever comes first.
   */
  lemma {:induction false} PlaybackIsClipSegment(buffer: seq<Byte>, offset: nat, requests: seq<nat>)
    requires offset <= |buffer|
    ensures Playback(buffer, offset, requests) ==
            buffer[offset .. offset + Min(Total(requests), |buffer| - offset)]
    decreases |requests|
  {
    if requests != [] {
      var c := Deliver(buffer, offset, requests[0]);
      if c.continues {
        var next := offset + requests[0];
        PlaybackIsClipSegment(buffer, next, requests[1..]);
        var n := Min(Total(requests[1..]), |buffer| - next);
        assert buffer[offset .. next] + buffer[next .. next + n] == buffer[offset .. next + n];
      }
    }
  }

  class AudioState {
    var wavs: seq<Wav>
    /** `current` points into `wavs`: the index of the clip being played, if any. */
    var current: Option<nat>
    var currentOffset: nat
    /** The silence value of the audio spec. */
    var silence: Byte

    ghost predicate Valid()
      reads this
    {
      current.Some? ==> current.value < |wavs| && currentOffset <= |wavs[current.value].buffer|
    }

    /** audio_create: a zero-filled audio state. */
    constructor ()
      ensures Valid()
      ensures wavs == [] && current == None && currentOffset == 0 && silence == 0
    {
      wavs := [];
      current := None;
      currentOffset := 0;
      silence := 0;
    }

    /**
     * audio_initialize: one slot per fgets read of the registry, in file
     * order (a read takes at most 126 characters, so a longer line takes
     * several). Each slot is appended empty and then filled by SDL_LoadWAV;
     * `loads[i]` is what loading read i produced (None when it failed).
     * `silence` is the silence value of the spec the loads left behind.
     */
    method Initialize(loads: seq<Option<seq<Byte>>>, silence: Byte)
      modifies this
      ensures Valid()
      ensures |wavs| == |loads|
      ensures forall i :: 0 <= i < |loads| ==>
                wavs[i] == Wav(if loads[i].Some? then loads[i].value else [])
      ensures current == None
      ensures this.silence == silence
    {
      wavs := [];
      current := None;
      var index := 0;
      while index < |loads|
        invariant 0 <= index <= |loads|
        invariant |wavs| == index && current == None
        invariant forall i :: 0 <= i < index ==>
                    wavs[i] == Wav(if loads[i].Some? then loads[i].value else [])
      {
        wavs := wavs + [Wav([])];
        if loads[index].Some? {
          wavs := wavs[index := Wav(loads[index].value)];
        }
        index := index + 1;
      }
      this.silence := silence;
    }

    /**
     * audio_play_random: when no clip is playing, start clip
     * `random % wav_count` from its beginning; `random` is the value rand()
     * returned. A clip already playing is left alone.
     */
    method PlayRandom(random: nat)
      requires Valid()
      requires current == None ==> |wavs| > 0
      modifies this
      ensures Valid()
      ensures wavs == old(wavs) && silence == old(silence)
      ensures old(current) == None ==> current == Some(random % |wavs|) && currentOffset == 0
      ensures old(current) != None ==> current == old(current) && currentOffset == old(currentOffset)
    {
      if current == None {
        var randomIndex := random % |wavs|;
        current := Some(randomIndex);
        currentOffset := 0;
      }
    }

    /**
     * audio_callback: fill `stream` with silence, then copy the next bytes
     * of the current clip over its start; advance the offset while the clip
     * has more than the request left, otherwise retire the clip.
     */
    method Callback(stream: array<Byte>)
      requires Valid()
      modifies this, stream
      ensures Valid()
      ensures wavs == old(wavs) && silence == old(silence)
      ensures old(current) == None ==>
                stream[..] == Mixed([], silence, stream.Length) &&
                current == None && currentOffset == old(currentOffset)
      ensures old(current) != None ==>
                var c := Deliver(old(wavs)[old(current).value].buffer, old(currentOffset), stream.Length);
                stream[..] == Mixed(c.bytes, silence, stream.Length) &&
                (c.continues ==> current == old(current) && currentOffset == old(currentOffset) + stream.Length) &&
                (!c.continues ==> current == None && currentOffset == old(currentOffset))
    {
      var bytesNeeded := stream.Length;
      Fill(stream, silence);
      assert stream[..] == Mixed([], silence, bytesNeeded);
      if current != None {
        var clip := wavs[current.value].buffer;
        var remaining := |clip| - currentOffset;
        if remaining > bytesNeeded {
          var bytes := clip[currentOffset .. currentOffset + bytesNeeded];
          Copy(stream, bytes);
          assert stream[..] == Mixed(bytes, silence, bytesNeeded);
          currentOffset := currentOffset + bytesNeeded;
        } else {
          var bytes := clip[currentOffset..];
          Copy(stream, bytes);
          assert stream[..] == Mixed(bytes, silence, bytesNeeded);
          current := None;
        }
      }
    }
  }

  /** SDL_memset: every byte of the stream becomes `value`. */
  method Fill(stream: array<Byte>, value: Byte)
    modifies stream
    ensures forall k :: 0 <= k < stream.Length ==> stream[k] == value
  {
    var k := 0;
    while k < stream.Length
      invariant 0 <= k <= stream.Length
      invariant forall j :: 0 <= j < k ==> stream[j] == value
    {
      stream[k] := value;
      k := k + 1;
    }
  }

  /** SDL_memcpy to the start of the stream: the first |source| bytes are replaced. */
  method Copy(stream: array<Byte>, source: seq<Byte>)
    requires |source| <= stream.Length
    modifies stream
    ensures forall j :: 0 <= j < |source| ==> stream[j] == source[j]
    ensures forall j :: |source| <= j < stream.Length ==> stream[j] == old(stream[j])
  {
    var k := 0;
    while k < |source|
      invariant 0 <= k <= |source|
      invariant forall j :: 0 <= j < k ==> stream[j] == source[j]
      invariant forall j :: k <= j < stream.Length ==> stream[j] == old(stream[j])
    {
      stream[k] := source[k];
      k := k + 1;
    }
  }
}
