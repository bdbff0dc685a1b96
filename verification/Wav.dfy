/** `build_pcm16_wav` of src/discord/bot.rs and a reader of the RIFF/WAVE files it builds. */
module Wav {
  import opened Wrappers

  type Byte = n: int | 0 <= n < 256

  const MAX_U16: nat := 0xFFFF
  const MAX_U32: nat := 0xFFFF_FFFF

  /** `to_le_bytes`. */
  function LittleEndian(n: nat, width: nat): (bytes: seq<Byte>)
    ensures |bytes| == width
  {
    if width == 0 then [] else [n % 256] + LittleEndian(n / 256, width - 1)
  }

  function FromLittleEndian(bytes: seq<Byte>): nat {
    if bytes == [] then 0 else bytes[0] + 256 * FromLittleEndian(bytes[1..])
  }

  function Power256(width: nat): (p: nat)
    ensures p > 0
  {
    if width == 0 then 1 else 256 * Power256(width - 1)
  }

  lemma {:induction false} LittleEndianRoundTrip(n: nat, width: nat)
    requires n < Power256(width)
    ensures FromLittleEndian(LittleEndian(n, width)) == n
  {
    if width > 0 {
      LittleEndianRoundTrip(n / 256, width - 1);
      assert LittleEndian(n, width)[1..] == LittleEndian(n / 256, width - 1);
    }
  }

  lemma U32RoundTrip(n: nat)
    requires n <= MAX_U32
    ensures FromLittleEndian(LittleEndian(n, 4)) == n
  {
    assert Power256(4) == 0x1_0000_0000;
    LittleEndianRoundTrip(n, 4);
  }

  lemma U16RoundTrip(n: nat)
    requires n <= MAX_U16
    ensures FromLittleEndian(LittleEndian(n, 2)) == n
  {
    assert Power256(2) == 0x1_0000;
    LittleEndianRoundTrip(n, 2);
  }

  function Ascii(text: string): (bytes: seq<Byte>)
    ensures |bytes| == |text|
  {
    seq(|text|, i requires 0 <= i < |text| => (text[i] as int) % 256)
  }

  datatype Sound = Sound(pcm: seq<Byte>, rate: nat, channels: nat)

  function Riff(length: nat): (header: seq<Byte>)
    ensures |header| == 20
  {
    Ascii("RIFF") + LittleEndian(36 + length, 4) + Ascii("WAVEfmt ") + LittleEndian(16, 4)
  }

  function Format(channels: nat, rate: nat, byteRate: nat, blockAlign: nat): (header: seq<Byte>)
    ensures |header| == 16
  {
    LittleEndian(1, 2) + LittleEndian(channels, 2) + LittleEndian(rate, 4) + LittleEndian(byteRate, 4)
    + LittleEndian(blockAlign, 2) + LittleEndian(16, 2)
  }

  function Data(length: nat): (header: seq<Byte>)
    ensures |header| == 8
  {
    Ascii("data") + LittleEndian(length, 4)
  }

  function Header(sound: Sound): (header: seq<Byte>)
    ensures |header| == 44
  {
    var blockAlign := 2 * sound.channels;
    Riff(|sound.pcm|) + Format(sound.channels, sound.rate, sound.rate * blockAlign, blockAlign) + Data(|sound.pcm|)
  }

  /** Every number of the header fits its field. */
  predicate Writable(sound: Sound) {
    && 36 + |sound.pcm| <= MAX_U32 && 2 * sound.channels <= MAX_U16 && sound.rate * (2 * sound.channels) <= MAX_U32
  }

  lemma WritableSounds(pcm: seq<Byte>, rate: nat, channels: nat)
    ensures Writable(Sound(pcm, rate, channels)) <==>
              |pcm| <= 4_294_967_259 && channels <= 32_767 && 2 * (rate * channels) <= 4_294_967_295
  {
    assert rate * (2 * channels) == 2 * (rate * channels);
  }

  method BuildPcm16Wav(pcm: seq<Byte>, rate: nat, channels: nat) returns (file: Option<seq<Byte>>)
    requires rate <= MAX_U32 && channels <= MAX_U16
    ensures file == if Writable(Sound(pcm, rate, channels)) then Some(Header(Sound(pcm, rate, channels)) + pcm) else None
    ensures file.Some? <==> |pcm| <= 4_294_967_259 && channels <= 32_767 && 2 * (rate * channels) <= 4_294_967_295
  {
    WritableSounds(pcm, rate, channels);
    if |pcm| > MAX_U32 {
      return None;
    }
    var blockAlign := 2 * channels;
    if blockAlign > MAX_U16 {
      return None;
    }
    var byteRate := rate * blockAlign;
    if byteRate > MAX_U32 {
      return None;
    }
    var riffLen := 36 + |pcm|;
    if riffLen > MAX_U32 {
      return None;
    }
    assert Writable(Sound(pcm, rate, channels));
    var wav := Ascii("RIFF") + LittleEndian(riffLen, 4) + Ascii("WAVEfmt ") + LittleEndian(16, 4);
    var format := LittleEndian(1, 2) + LittleEndian(channels, 2) + LittleEndian(rate, 4) + LittleEndian(byteRate, 4);
    format := format + LittleEndian(blockAlign, 2) + LittleEndian(16, 2);
    wav := wav + format + (Ascii("data") + LittleEndian(|pcm|, 4));
    return Some(wav + pcm);
  }

  // ---- reading a file back -----------------------------------------------------------------

  function U32At(file: seq<Byte>, at: nat): nat
    requires at + 4 <= |file|
  {
    FromLittleEndian(file[at..at + 4])
  }

  function U16At(file: seq<Byte>, at: nat): nat
    requires at + 2 <= |file|
  {
    FromLittleEndian(file[at..at + 2])
  }

  /** The chunk names and lengths agree with the file, and the format is 16-bit PCM with consistent rates. */
  predicate WellFormed(file: seq<Byte>) {
    && |file| >= 44
    && file[0..4] == Ascii("RIFF") && U32At(file, 4) == |file| - 8
    && file[8..16] == Ascii("WAVEfmt ") && U32At(file, 16) == 16 && U16At(file, 20) == 1
    && U32At(file, 28) == U32At(file, 24) * U16At(file, 32)
    && U16At(file, 32) == 2 * U16At(file, 22) && U16At(file, 34) == 16
    && file[36..40] == Ascii("data") && U32At(file, 40) == |file| - 44
  }

  function ReadWav(file: seq<Byte>): Option<Sound> {
    if WellFormed(file) then Some(Sound(file[44..], U32At(file, 24), U16At(file, 22))) else None
  }

  lemma SliceOfSlice(file: seq<Byte>, at: nat, part: seq<Byte>, i: nat, j: nat)
    requires at + |part| <= |file| && file[at..at + |part|] == part && i <= j <= |part|
    ensures file[at + i..at + j] == part[i..j]
  {
    forall k | 0 <= k < j - i ensures file[at + i..at + j][k] == part[i..j][k] {
      assert file[at..at + |part|][i + k] == file[at + i + k];
    }
  }

  lemma RiffSlices(file: seq<Byte>, length: nat)
    requires |file| >= 20 && file[0..20] == Riff(length)
    ensures file[0..4] == Ascii("RIFF") && file[4..8] == LittleEndian(36 + length, 4)
    ensures file[8..16] == Ascii("WAVEfmt ") && file[16..20] == LittleEndian(16, 4)
  {
    var part := Riff(length);
    SliceOfSlice(file, 0, part, 0, 4);
    SliceOfSlice(file, 0, part, 4, 8);
    SliceOfSlice(file, 0, part, 8, 16);
    SliceOfSlice(file, 0, part, 16, 20);
  }

  /** The six numbers of the format, wherever they lie. */
  lemma SixSlices(file: seq<Byte>, at: nat, a: seq<Byte>, b: seq<Byte>, c: seq<Byte>, d: seq<Byte>, e: seq<Byte>, f: seq<Byte>)
    requires |a| == 2 && |b| == 2 && |c| == 4 && |d| == 4 && |e| == 2 && |f| == 2
    requires at + 16 <= |file| && file[at..at + 16] == a + b + c + d + e + f
    ensures file[at..at + 2] == a && file[at + 2..at + 4] == b && file[at + 4..at + 8] == c
    ensures file[at + 8..at + 12] == d && file[at + 12..at + 14] == e && file[at + 14..at + 16] == f
  {
    var part := a + b + c + d + e + f;
    SliceOfSlice(file, at, part, 0, 2);
    SliceOfSlice(file, at, part, 2, 4);
    SliceOfSlice(file, at, part, 4, 8);
    SliceOfSlice(file, at, part, 8, 12);
    SliceOfSlice(file, at, part, 12, 14);
    SliceOfSlice(file, at, part, 14, 16);
  }

  lemma FormatSlices(file: seq<Byte>, channels: nat, rate: nat, byteRate: nat, blockAlign: nat)
    requires |file| >= 36 && file[20..36] == Format(channels, rate, byteRate, blockAlign)
    ensures file[20..22] == LittleEndian(1, 2) && file[22..24] == LittleEndian(channels, 2)
    ensures file[24..28] == LittleEndian(rate, 4) && file[28..32] == LittleEndian(byteRate, 4)
    ensures file[32..34] == LittleEndian(blockAlign, 2) && file[34..36] == LittleEndian(16, 2)
  {
    SixSlices(file, 20, LittleEndian(1, 2), LittleEndian(channels, 2), LittleEndian(rate, 4), LittleEndian(byteRate, 4),
              LittleEndian(blockAlign, 2), LittleEndian(16, 2));
  }

  lemma DataSlices(file: seq<Byte>, length: nat)
    requires |file| >= 44 && file[36..44] == Data(length)
    ensures file[36..40] == Ascii("data") && file[40..44] == LittleEndian(length, 4)
  {
    var part := Data(length);
    SliceOfSlice(file, 36, part, 0, 4);
    SliceOfSlice(file, 36, part, 4, 8);
  }

  lemma PartsOf(file: seq<Byte>, riff: seq<Byte>, format: seq<Byte>, data: seq<Byte>, pcm: seq<Byte>)
    requires |riff| == 20 && |format| == 16 && |data| == 8 && file == riff + format + data + pcm
    ensures |file| == 44 + |pcm| && file[0..20] == riff && file[20..36] == format && file[36..44] == data && file[44..] == pcm
  {
  }

  lemma U32ReadsBack(file: seq<Byte>, at: nat, n: nat)
    requires at + 4 <= |file| && n <= MAX_U32 && file[at..at + 4] == LittleEndian(n, 4)
    ensures U32At(file, at) == n
  {
    U32RoundTrip(n);
  }

  lemma U16ReadsBack(file: seq<Byte>, at: nat, n: nat)
    requires at + 2 <= |file| && n <= MAX_U16 && file[at..at + 2] == LittleEndian(n, 2)
    ensures U16At(file, at) == n
  {
    U16RoundTrip(n);
  }

  lemma FormatReadsBack(file: seq<Byte>, channels: nat, rate: nat, byteRate: nat, blockAlign: nat)
    requires |file| >= 44 && channels <= MAX_U16 && rate <= MAX_U32 && byteRate <= MAX_U32 && blockAlign <= MAX_U16
    requires file[20..22] == LittleEndian(1, 2) && file[22..24] == LittleEndian(channels, 2)
    requires file[24..28] == LittleEndian(rate, 4) && file[28..32] == LittleEndian(byteRate, 4)
    requires file[32..34] == LittleEndian(blockAlign, 2) && file[34..36] == LittleEndian(16, 2)
    ensures U16At(file, 20) == 1 && U16At(file, 22) == channels && U32At(file, 24) == rate
    ensures U32At(file, 28) == byteRate && U16At(file, 32) == blockAlign && U16At(file, 34) == 16
  {
    U16ReadsBack(file, 20, 1);
    U16ReadsBack(file, 22, channels);
    U32ReadsBack(file, 24, rate);
    U32ReadsBack(file, 28, byteRate);
    U16ReadsBack(file, 32, blockAlign);
    U16ReadsBack(file, 34, 16);
  }

  lemma LengthsReadBack(file: seq<Byte>, length: nat)
    requires 36 + length <= MAX_U32 && |file| >= 44
    requires file[4..8] == LittleEndian(36 + length, 4) && file[16..20] == LittleEndian(16, 4)
    requires file[40..44] == LittleEndian(length, 4)
    ensures U32At(file, 4) == 36 + length && U32At(file, 16) == 16 && U32At(file, 40) == length
  {
    U32ReadsBack(file, 4, 36 + length);
    U32ReadsBack(file, 16, 16);
    U32ReadsBack(file, 40, length);
  }

  lemma FormatIsWellFormed(file: seq<Byte>, channels: nat, rate: nat, byteRate: nat, blockAlign: nat)
    requires |file| >= 44 && byteRate == rate * blockAlign && blockAlign == 2 * channels
    requires file[0..4] == Ascii("RIFF") && file[8..16] == Ascii("WAVEfmt ") && file[36..40] == Ascii("data")
    requires U32At(file, 4) == |file| - 8 && U32At(file, 16) == 16 && U32At(file, 40) == |file| - 44
    requires U16At(file, 20) == 1 && U16At(file, 22) == channels && U32At(file, 24) == rate
    requires U32At(file, 28) == byteRate && U16At(file, 32) == blockAlign && U16At(file, 34) == 16
    ensures ReadWav(file) == Some(Sound(file[44..], rate, channels))
  {
  }

  /** The file that is built reads back as the very sound it was built from. */
  lemma ReadingUndoesBuilding(sound: Sound)
    requires Writable(sound) && sound.rate <= MAX_U32
    ensures ReadWav(Header(sound) + sound.pcm) == Some(sound)
  {
    var blockAlign := 2 * sound.channels;
    var byteRate := sound.rate * blockAlign;
    var file, length := Header(sound) + sound.pcm, |sound.pcm|;
    PartsOf(file, Riff(length), Format(sound.channels, sound.rate, byteRate, blockAlign), Data(length), sound.pcm);
    RiffSlices(file, length);
    DataSlices(file, length);
    FormatSlices(file, sound.channels, sound.rate, byteRate, blockAlign);
    LengthsReadBack(file, length);
    FormatReadsBack(file, sound.channels, sound.rate, byteRate, blockAlign);
    FormatIsWellFormed(file, sound.channels, sound.rate, byteRate, blockAlign);
  }
}
