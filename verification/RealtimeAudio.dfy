/**
 The audio side of `RealtimeDigest` in src/discord/bot.rs: chunks of PCM are kept while they are
 well formed, of one format and within the attachment limit; the first that is not ends the take.
 */
module RealtimeAudio {
  import opened Wrappers
  import opened Json
  import opened Wav

  const MAX_ATTACHMENT: nat := 9 * 1024 * 1024
  const MAX_AUDIO: nat := MAX_ATTACHMENT - 44
  const MAX_CHUNK: nat := 1024 * 1024
  const MAX_CHUNK_BASE64: nat := 1_398_104
  const USIZE_END: nat := 0x1_0000_0000_0000_0000

  /** The base64 decoder. */
  type Decoder = string -> Option<seq<Byte>>

  function CharBytes(c: char): nat {
    var n := c as int;
    if n < 0x80 then 1 else if n < 0x800 then 2 else if n < 0x1_0000 then 3 else 4
  }

  /** `str::len` counts bytes of UTF-8. */
  function ByteLength(s: string): nat {
    if s == "" then 0 else CharBytes(s[0]) + ByteLength(s[1..])
  }

  /** An integer entry that fits below the bound. */
  function Natural(v: Value, key: string, end: nat): Option<nat> {
    match v.Get(key)
    case Some(Num(Int(i))) => if 0 <= i < end then Some(i) else None
    case _ => None
  }

  /** A chunk as the event carries it, before the digest looks at its own state. */
  datatype Chunk = Nothing | Malformed | Pcm(bytes: seq<Byte>, rate: nat, channels: nat)

  function DeclaredLength(samples: Option<nat>, blockAlign: nat): Option<nat> {
    if samples.Some? && samples.value * blockAlign < USIZE_END then Some(samples.value * blockAlign) else None
  }

  /** What the decoder returned, as a chunk of the announced format. */
  function ReadDecoded(decoded: Option<seq<Byte>>, rate: nat, channels: nat, samples: Option<nat>): Chunk
    requires 0 < channels
  {
    if decoded.None? then Malformed
    else
      var bytes, declared := decoded.value, DeclaredLength(samples, 2 * channels);
      if |bytes| > MAX_CHUNK || |bytes| % (2 * channels) != 0 || (declared.Some? && declared.value != |bytes|) then Malformed
      else Pcm(bytes, rate, channels)
  }

  function ReadChunk(decode: Decoder, params: Value): Chunk {
    var audio := params.Get("audio");
    if audio.None? || audio.value.Get("data").None? || !audio.value.Get("data").value.Str? then Nothing
    else
      var data := audio.value.Get("data").value.s;
      var rate, channels := Natural(audio.value, "sampleRate", 0x1_0000_0000), Natural(audio.value, "numChannels", 0x1_0000);
      if ByteLength(data) > MAX_CHUNK_BASE64 || rate.None? || !(8_000 <= rate.value <= 96_000) || channels.None? || !(1 <= channels.value <= 2)
      then Malformed
      else ReadDecoded(decode(data), rate.value, channels.value, Natural(audio.value, "samplesPerChannel", USIZE_END))
  }

  /** The audio fields of the digest. */
  datatype Digest = Digest(audio: seq<Byte>, rate: Option<nat>, channels: Option<nat>, truncated: bool, active: bool)

  /** What every operation keeps. */
  predicate Sane(d: Digest) {
    && (d.rate.Some? <==> d.channels.Some?) && (d.audio != [] ==> d.rate.Some?)
    && (d.rate.Some? ==> 8_000 <= d.rate.value <= 96_000 && 1 <= d.channels.value <= 2 && |d.audio| % (2 * d.channels.value) == 0)
    && |d.audio| <= MAX_AUDIO
  }

  predicate Takes(d: Digest, chunk: Chunk)
    requires chunk.Pcm?
  {
    && (d.rate.Some? ==> d.rate.value == chunk.rate) && (d.channels.Some? ==> d.channels.value == chunk.channels)
    && |d.audio| + |chunk.bytes| <= MAX_AUDIO
  }

  function WithChunk(d: Digest, chunk: Chunk): Digest {
    if !d.active || d.truncated || chunk.Nothing? then d
    else if chunk.Malformed? || !Takes(d, chunk) then d.(truncated := true)
    else d.(audio := d.audio + chunk.bytes, rate := Some(chunk.rate), channels := Some(chunk.channels))
  }

  class RealtimeDigest {
    var audio: seq<Byte>
    var rate: Option<nat>
    var channels: Option<nat>
    var truncated: bool
    var active: bool

    function State(): Digest
      reads this
    {
      Digest(audio, rate, channels, truncated, active)
    }

    constructor ()
      ensures State() == Digest([], None, None, false, false) && Sane(State())
    {
      audio, rate, channels, truncated, active := [], None, None, false, false;
    }

    method Start()
      modifies this
      ensures State() == Digest([], None, None, false, true) && Sane(State())
    {
      audio, rate, channels, truncated, active := [], None, None, false, true;
    }

    method Close()
      requires Sane(State())
      modifies this
      ensures State() == old(State()).(active := false) && Sane(State())
    {
      active := false;
    }

    method AppendAudio(decode: Decoder, params: Value)
      requires Sane(State())
      modifies this
      ensures Sane(State()) && State() == WithChunk(old(State()), ReadChunk(decode, params))
    {
      ChunksKeepSane(decode, params, State());
      if !active || truncated {
        return;
      }
      var carried := params.Get("audio");
      if carried.None? || carried.value.Get("data").None? || !carried.value.Get("data").value.Str? {
        return;
      }
      var data := carried.value.Get("data").value.s;
      var sampleRate := Natural(carried.value, "sampleRate", 0x1_0000_0000);
      var numChannels := Natural(carried.value, "numChannels", 0x1_0000);
      var samples := Natural(carried.value, "samplesPerChannel", USIZE_END);
      if ByteLength(data) > MAX_CHUNK_BASE64 || sampleRate.None? || !(8_000 <= sampleRate.value <= 96_000)
         || numChannels.None? || !(1 <= numChannels.value <= 2)
         || (rate.Some? && rate != sampleRate) || (channels.Some? && channels != numChannels)
      {
        truncated := true;
        return;
      }
      AppendDecoded(decode(data), sampleRate.value, numChannels.value, samples);
    }

    /** The second half of it, from the decoder's result on. */
    method AppendDecoded(decoded: Option<seq<Byte>>, sampleRate: nat, numChannels: nat, samples: Option<nat>)
      requires active && !truncated && (rate.Some? ==> rate.value == sampleRate) && (channels.Some? ==> channels.value == numChannels)
      requires 0 < numChannels
      modifies this
      ensures State() == WithChunk(old(State()), ReadDecoded(decoded, sampleRate, numChannels, samples))
    {
      if decoded.None? {
        truncated := true;
        return;
      }
      var bytes, blockAlign := decoded.value, numChannels * 2;
      var declared := DeclaredLength(samples, blockAlign);
      if |bytes| > MAX_CHUNK || |bytes| % blockAlign != 0 || (declared.Some? && declared.value != |bytes|) {
        truncated := true;
        return;
      }
      if |audio| + |bytes| > MAX_AUDIO {
        truncated := true;
        return;
      }
      rate, channels, audio := Some(sampleRate), Some(numChannels), audio + bytes;
    }

    /** The recording as a WAV file, and whether something is missing from it. */
    method TakeWav() returns (taken: Option<(seq<Byte>, bool)>)
      requires Sane(State())
      modifies this
      ensures Sane(State()) && active == old(active)
      ensures audio == [] && rate.None?
      ensures taken.Some? <==> old(audio) != []
      ensures truncated == (if taken.Some? then false else old(truncated))
      ensures taken.Some? ==>
                && taken.value.1 == old(truncated) && |taken.value.0| <= MAX_ATTACHMENT
                && ReadWav(taken.value.0) == Some(Sound(old(audio), old(rate.value), old(channels.value)))
    {
      var sampleRate, numChannels := rate, channels;
      rate := None;
      if sampleRate.None? {
        return None;
      }
      channels := None;
      if numChannels.None? || audio == [] {
        return None;
      }
      var pcm, missing := audio, truncated;
      audio, truncated := [], false;
      RecordingsAreWritable(Sound(pcm, sampleRate.value, numChannels.value));
      var wav := BuildPcm16Wav(pcm, sampleRate.value, numChannels.value);
      ReadingUndoesBuilding(Sound(pcm, sampleRate.value, numChannels.value));
      return if wav.None? then None else Some((wav.value, missing));
    }
  }

  lemma SumOfPairs(a: nat, b: nat)
    requires a % 2 == 0 && b % 2 == 0
    ensures (a + b) % 2 == 0
  {
  }

  lemma SumOfQuads(a: nat, b: nat)
    requires a % 4 == 0 && b % 4 == 0
    ensures (a + b) % 4 == 0
  {
  }

  lemma ChunksKeepSane(decode: Decoder, params: Value, d: Digest)
    requires Sane(d)
    ensures Sane(WithChunk(d, ReadChunk(decode, params)))
  {
    var chunk := ReadChunk(decode, params);
    if chunk.Pcm? && Takes(d, chunk) {
      if chunk.channels == 1 {
        SumOfPairs(|d.audio|, |chunk.bytes|);
      } else {
        SumOfQuads(|d.audio|, |chunk.bytes|);
      }
    }
  }

  /** Nothing that is retained overflows a field of the header. */
  lemma RecordingsAreWritable(sound: Sound)
    requires |sound.pcm| <= MAX_AUDIO && sound.rate <= 96_000 && sound.channels <= 2
    ensures Writable(sound)
  {
    assert sound.rate * (2 * sound.channels) <= 96_000 * 4;
  }

  // ---- a session -----------------------------------------------------------------------------

  /** The digest after the chunks of a session, from its start. */
  function Session(chunks: seq<Chunk>): Digest {
    if chunks == [] then Digest([], None, None, false, true)
    else WithChunk(Session(chunks[..|chunks| - 1]), chunks[|chunks| - 1])
  }

  predicate SameFormat(a: Chunk, b: Chunk)
    requires a.Pcm? && b.Pcm?
  {
    a.rate == b.rate && a.channels == b.channels
  }

  /** All the chunks that carry anything. */
  function Carrying(chunks: seq<Chunk>): seq<Chunk> {
    if chunks == [] then []
    else Carrying(chunks[..|chunks| - 1]) + if chunks[|chunks| - 1].Nothing? then [] else [chunks[|chunks| - 1]]
  }

  function Sum(chunks: seq<Chunk>): seq<Byte>
    requires forall i :: 0 <= i < |chunks| ==> chunks[i].Pcm?
  {
    if chunks == [] then [] else Sum(chunks[..|chunks| - 1]) + chunks[|chunks| - 1].bytes
  }

  /** All well formed, of the format of the first, and together within the limit. */
  predicate Acceptable(chunks: seq<Chunk>) {
    && (forall i :: 0 <= i < |chunks| ==> chunks[i].Pcm?)
    && (forall i :: 0 <= i < |chunks| ==> SameFormat(chunks[i], chunks[0]))
    && |Sum(chunks)| <= 9_437_140
  }

  lemma {:induction false} AcceptablePrefix(chunks: seq<Chunk>, k: nat)
    requires k <= |chunks| && Acceptable(chunks)
    ensures Acceptable(chunks[..k])
    decreases |chunks| - k
  {
    if k == |chunks| {
      assert chunks[..k] == chunks;
    } else {
      AcceptablePrefix(chunks, k + 1);
      assert chunks[..k + 1][..k] == chunks[..k];
    }
  }

  /** The length of the longest acceptable beginning: everything before the first rejection. */
  function BeforeRejection(chunks: seq<Chunk>): (k: nat)
    ensures k <= |chunks| && Acceptable(chunks[..k]) && (k < |chunks| ==> !Acceptable(chunks[..k + 1]))
  {
    if Acceptable(chunks) then
      assert chunks[..|chunks|] == chunks;
      |chunks|
    else
      var n := |chunks| - 1;
      var k := BeforeRejection(chunks[..n]);
      assert chunks[..n][..k] == chunks[..k];
      assert k < n ==> chunks[..n][..k + 1] == chunks[..k + 1];
      assert k == n ==> chunks[..k + 1] == chunks;
      k
  }

  /** The digest holds what came before the first rejection, and remembers whether there was one. */
  predicate Holds(d: Digest, chunks: seq<Chunk>) {
    var k := BeforeRejection(chunks);
    && d.active && d.audio == Sum(chunks[..k]) && (d.truncated <==> k < |chunks|)
    && d.rate == (if k == 0 then None else Some(chunks[0].rate))
    && d.channels == (if k == 0 then None else Some(chunks[0].channels))
  }

  /** The retained audio is exactly the concatenation of the chunks before the first rejection. */
  lemma {:induction false} SessionKeepsThePrefix(chunks: seq<Chunk>)
    ensures Holds(Session(chunks), Carrying(chunks))
  {
    if chunks == [] {
      assert chunks[..0] == chunks;
    } else {
      var n := |chunks| - 1;
      SessionKeepsThePrefix(chunks[..n]);
      if chunks[n].Nothing? {
        assert Carrying(chunks[..n]) + [] == Carrying(chunks[..n]);
      } else {
        NextChunk(Carrying(chunks[..n]), chunks[n], Session(chunks[..n]));
      }
    }
  }

  lemma MoreIsAcceptable(all: seq<Chunk>, chunk: Chunk, d: Digest)
    requires Acceptable(all) && chunk.Pcm? && d.audio == Sum(all)
    requires d.rate == (if all == [] then None else Some(all[0].rate)) && d.channels == (if all == [] then None else Some(all[0].channels))
    ensures Acceptable(all + [chunk]) <==> Takes(d, chunk)
    ensures Takes(d, chunk) ==> Sum(all + [chunk]) == Sum(all) + chunk.bytes
  {
    var more := all + [chunk];
    assert more[..|all|] == all && more[|all|] == chunk;
    assert forall i :: 0 <= i < |all| ==> more[i] == all[i];
    if Acceptable(more) && all != [] {
      assert SameFormat(more[|all|], more[0]);
    }
  }

  /** The first rejection after all was well: none yet, or the last chunk. */
  lemma FirstRejection(all: seq<Chunk>, chunk: Chunk)
    requires Acceptable(all)
    ensures BeforeRejection(all) == |all|
    ensures BeforeRejection(all + [chunk]) == if Acceptable(all + [chunk]) then |all| + 1 else |all|
  {
    assert all[..|all|] == all && (all + [chunk])[..|all|] == all;
  }

  lemma WholeChunks(all: seq<Chunk>, chunk: Chunk)
    ensures all[..|all|] == all && (all + [chunk])[..|all|] == all && (all + [chunk])[..|all| + 1] == all + [chunk]
    ensures all != [] ==> (all + [chunk])[0] == all[0]
  {
  }

  lemma NextGoodChunk(all: seq<Chunk>, chunk: Chunk, d: Digest)
    requires Acceptable(all) && !chunk.Nothing? && Holds(d, all)
    ensures Holds(WithChunk(d, chunk), all + [chunk])
  {
    FirstRejection(all, chunk);
    WholeChunks(all, chunk);
    if chunk.Pcm? {
      MoreIsAcceptable(all, chunk, d);
    } else {
      assert (all + [chunk])[|all|] == chunk;
    }
  }

  lemma NextChunk(all: seq<Chunk>, chunk: Chunk, d: Digest)
    requires !chunk.Nothing? && Holds(d, all)
    ensures Holds(WithChunk(d, chunk), all + [chunk])
  {
    if Acceptable(all) {
      NextGoodChunk(all, chunk, d);
    } else {
      var k := BeforeRejection(all);
      LongerIsRejected(all, chunk);
      assert k < |all| by {
        assert all[..|all|] == all;
      }
      assert (all + [chunk])[..k] == all[..k];
      assert k > 0 ==> (all + [chunk])[0] == all[0];
    }
  }

  lemma LongerIsRejected(all: seq<Chunk>, chunk: Chunk)
    requires !Acceptable(all)
    ensures !Acceptable(all + [chunk]) && BeforeRejection(all + [chunk]) == BeforeRejection(all)
  {
    assert (all + [chunk])[..|all|] == all;
    if Acceptable(all + [chunk]) {
      AcceptablePrefix(all + [chunk], |all|);
    }
  }

  function ReadChunks(decode: Decoder, events: seq<Value>): seq<Chunk> {
    seq(|events|, i requires 0 <= i < |events| => ReadChunk(decode, events[i]))
  }

  lemma NextInSession(chunks: seq<Chunk>, n: nat)
    requires n < |chunks|
    ensures Session(chunks[..n + 1]) == WithChunk(Session(chunks[..n]), chunks[n])
  {
    assert chunks[..n + 1][..n] == chunks[..n];
  }

  method Listen(decode: Decoder, events: seq<Value>) returns (digest: RealtimeDigest)
    ensures fresh(digest) && Sane(digest.State()) && digest.State() == Session(ReadChunks(decode, events))
  {
    digest := new RealtimeDigest();
    digest.Start();
    ghost var chunks := ReadChunks(decode, events);
    for n := 0 to |events|
      invariant fresh(digest) && Sane(digest.State()) && digest.State() == Session(chunks[..n])
    {
      NextInSession(chunks, n);
      digest.AppendAudio(decode, events[n]);
    }
    assert chunks[..|events|] == chunks;
  }

  /**
   A whole session: its recording is a WAV file of what came before the first rejection, and says
   whether there was one.
   */
  method Record(decode: Decoder, events: seq<Value>) returns (taken: Option<(seq<Byte>, bool)>)
    ensures var heard := Carrying(ReadChunks(decode, events));
            var kept := heard[..BeforeRejection(heard)];
            && (taken.Some? <==> Sum(kept) != [])
            && (taken.Some? ==>
                  && taken.value.1 == (kept != heard)
                  && ReadWav(taken.value.0) == Some(Sound(Sum(kept), heard[0].rate, heard[0].channels)))
  {
    var digest := Listen(decode, events);
    SessionKeepsThePrefix(ReadChunks(decode, events));
    digest.Close();
    taken := digest.TakeWav();
  }

  // ---- chunks as they arrive -----------------------------------------------------------------------

  /** An event with audio of this format. */
  function Event(data: string, rate: int, channels: int, samples: Option<int>): Value {
    var audio := map["data" := Str(data), "sampleRate" := Num(Int(rate)), "numChannels" := Num(Int(channels))];
    Obj(map["audio" := Obj(if samples.Some? then audio["samplesPerChannel" := Num(Int(samples.value))] else audio)])
  }

  lemma EventFields(data: string, rate: int, channels: int, samples: Option<int>)
    ensures var audio := Event(data, rate, channels, samples).Get("audio");
            && audio.Some? && audio.value.Get("data") == Some(Str(data))
            && audio.value.Get("sampleRate") == Some(Num(Int(rate))) && audio.value.Get("numChannels") == Some(Num(Int(channels)))
            && audio.value.Get("samplesPerChannel") == if samples.Some? then Some(Num(Int(samples.value))) else None
  {
  }

  /**
   A chunk is kept as its bytes exactly if its text is not too long and decodes, its rate and number of
   channels are those allowed, its bytes are whole blocks and not too many, and the number of samples it
   declares, if any and if it is a number of 64 bits, is the one it has; any other is malformed.
   */
  lemma WellFormedChunks(decode: Decoder, data: string, rate: int, channels: int, samples: Option<int>)
    ensures var bytes := decode(data);
            ReadChunk(decode, Event(data, rate, channels, samples)) ==
              if ByteLength(data) <= 1_398_104 && 8_000 <= rate <= 96_000 && 1 <= channels <= 2 && bytes.Some?
                 && |bytes.value| <= 1_048_576 && |bytes.value| % (2 * channels) == 0
                 && (samples.Some? && 0 <= samples.value && samples.value * (2 * channels) < 0x1_0000_0000_0000_0000 ==>
                       samples.value * (2 * channels) == |bytes.value|)
              then Pcm(bytes.value, rate, channels) else Malformed
  {
    EventFields(data, rate, channels, samples);
  }

  lemma TextByteLength(s: string, last: char)
    ensures ByteLength(s + [last]) == ByteLength(s) + ByteLength([last])
  {
    if s == "" {
      assert s + [last] == [last];
    } else {
      assert (s + [last])[1..] == s[1..] + [last];
      TextByteLength(s[1..], last);
    }
  }

  /** The length of a text in UTF-8: one byte up to U+007F, two up to U+07FF, three up to U+FFFF and four above. */
  lemma LengthsInUtf8(s: string, last: char)
    ensures ByteLength("") == 0
    ensures ByteLength(s + [last]) - ByteLength(s) ==
              if last as int <= 127 then 1 else if last as int <= 2_047 then 2 else if last as int <= 65_535 then 3 else 4
  {
    TextByteLength(s, last);
    assert [last][1..] == "";
  }
}
