/**
 * Loading one sound effect for the mixer (`getsfx`): the lump, header
 * included, is copied into a buffer padded with silence (the unsigned
 * midpoint 128); the mixer is handed the buffer from offset 8, past the
 * lump header, and a padded length.
 */
module SfxPadding {
  import opened SoundTypes

  /** The unsigned 8-bit sample value that sounds as silence. */
  const Silence: Byte := 128

  /** The mixer sees the buffer from this offset on, past the 8-byte lump header. */
  const HeaderSize: nat := 8

  /** `x & ~8` on a non-negative int: bit 3 cleared. */
  function AndNotEight(x: nat): (r: nat)
    ensures r == x || r == x - 8
    ensures (r / 8) % 2 == 0
    ensures r % 8 == x % 8
  {
    x - 8 * ((x / 8) % 2)
  }

  /** The padded length as written, `(size + 7) & ~8`. */
  function PaddedSizeAsWritten(size: nat): nat
  {
    AndNotEight(size + 7)
  }

  /**
   * The as-written length is in general not a multiple of 8 and can fall
   * below the lump size: a 1-byte lump gets 0 and an 8-byte lump gets 7.
   */
  lemma PaddedSizeAsWrittenMisses()
    ensures PaddedSizeAsWritten(1) == 0
    ensures PaddedSizeAsWritten(8) == 7 && PaddedSizeAsWritten(8) % 8 != 0
    ensures PaddedSizeAsWritten(16) == 23 && PaddedSizeAsWritten(16) % 8 != 0
  {
  }

  /** As written, the length is a multiple of 8 exactly when the lump size is one above a multiple of 8 (1 gives 0, 9 gives 16). */
  lemma PaddedSizeAsWrittenMultipleOfEight(size: nat)
    ensures PaddedSizeAsWritten(size) % 8 == 0 <==> size % 8 == 1
  {
  }

  /**
   * The as-written length never loses a sample: the buffer of
   * `paddedsize + 8` bytes holds the whole lump, and the region from the
   * header on covers every byte after the header.
   */
  lemma PaddedSizeAsWrittenHoldsLump(size: nat)
    ensures size <= PaddedSizeAsWritten(size) + HeaderSize
    ensures size - 1 <= PaddedSizeAsWritten(size) <= size + 7
  {
  }

  /**
   * The as-written length is too short for the mixer, which needs at least
   * two bytes (a sample and the one after it), exactly for lumps of one or
   * two bytes.
   */
  lemma PaddedSizeAsWrittenTooShort(size: nat)
    ensures PaddedSizeAsWritten(size) < 2 <==> 1 <= size <= 2
  {
  }

  /** `(size + 7) & ~7`: the lump size rounded up to a multiple of 8. */
  function PaddedSize(size: nat): (r: nat)
    ensures r % 8 == 0
    ensures size <= r < size + 8
  {
    (size + 7) - (size + 7) % 8
  }

  /** The padded length is the least multiple of 8 that holds the lump. */
  lemma PaddedSizeIsLeast(size: nat, m: nat)
    requires m % 8 == 0 && size <= m
    ensures PaddedSize(size) <= m
  {
  }

  /**
   * The buffer `getsfx` fills for padded length `paddedSize`: the lump,
   * then silence up to `paddedSize + 8` bytes.
   */
  function Padded(lump: seq<Byte>, paddedSize: nat): (buffer: seq<Byte>)
    requires |lump| <= paddedSize + HeaderSize
    ensures |buffer| == paddedSize + HeaderSize
  {
    lump + seq(paddedSize + HeaderSize - |lump|, _ => Silence)
  }

  /** The buffer starts with the lump and holds nothing after it but silence. */
  lemma PaddedContents(lump: seq<Byte>, paddedSize: nat)
    requires |lump| <= paddedSize + HeaderSize
    ensures Padded(lump, paddedSize)[..|lump|] == lump
    ensures forall i :: |lump| <= i < |Padded(lump, paddedSize)| ==> Padded(lump, paddedSize)[i] == Silence
  {
    assert Padded(lump, paddedSize)[..|lump|] == lump;
  }

  /**
   * With the corrected length, the region handed to the mixer,
   * `HeaderSize .. HeaderSize + len`, ends at the buffer's end, contains
   * every sample after the header, and is long enough for the mixer's
   * look-ahead of one byte whenever the lump is not empty.
   */
  lemma PaddedRegionPlayable(lump: seq<Byte>)
    ensures HeaderSize + PaddedSize(|lump|) == |Padded(lump, PaddedSize(|lump|))|
    ensures |lump| <= HeaderSize + PaddedSize(|lump|)
    ensures |lump| > 0 ==> PaddedSize(|lump|) >= 8
  {
  }

  /**
   * As written, a lump of one or two bytes gets a buffer that ends at or
   * right after the first sample: the byte after it, which the mixer reads
   * on its phase-3 frame before the channel can reach its end, lies outside
   * the buffer, and for a one-byte lump so does the first sample itself.
   */
  lemma AsWrittenTinyLumpOverruns(lump: seq<Byte>)
    requires 1 <= |lump| <= 2
    ensures var buffer := Padded(lump, PaddedSizeAsWritten(|lump|));
      && |buffer| <= HeaderSize + 1
      && (|lump| == 1 ==> |buffer| == HeaderSize)
  {
  }

  /** The copy and fill loops of `getsfx` for padded length `paddedSize`. */
  method FillPadded(lump: seq<Byte>, paddedSize: nat) returns (buffer: array<Byte>)
    requires |lump| <= paddedSize + HeaderSize
    ensures fresh(buffer)
    ensures buffer[..] == Padded(lump, paddedSize)
  {
    var size := |lump|;
    buffer := new Byte[paddedSize + HeaderSize];
    forall i | 0 <= i < size {
      buffer[i] := lump[i];
    }
    var i := size;
    while i < paddedSize + HeaderSize
      invariant size <= i <= paddedSize + HeaderSize
      invariant buffer[..size] == lump
      invariant forall j :: size <= j < i ==> buffer[j] == Silence
    {
      buffer[i] := Silence;
      i := i + 1;
    }
    assert buffer[..] == Padded(lump, paddedSize);
  }

  /**
   * `getsfx` as written, on a lump already read from the WAD: the buffer
   * is padded to `((size + 7) & ~8) + 8` bytes and that length is returned.
   */
  method GetSfxAsWritten(lump: seq<Byte>) returns (buffer: array<Byte>, data: nat, len: nat)
    ensures fresh(buffer)
    ensures buffer[..] == Padded(lump, PaddedSizeAsWritten(|lump|))
    ensures data == HeaderSize && len == PaddedSizeAsWritten(|lump|)
  {
    var paddedSize := PaddedSizeAsWritten(|lump|);
    buffer := FillPadded(lump, paddedSize);
    data := HeaderSize;
    len := paddedSize;
  }

  /**
   * `getsfx` with the length rounded up to a multiple of 8: copies the
   * lump, pads it with silence, and returns the buffer with the data offset
   * and the padded length.
   */
  method GetSfx(lump: seq<Byte>) returns (buffer: array<Byte>, data: nat, len: nat)
    ensures fresh(buffer)
    ensures buffer[..] == Padded(lump, PaddedSize(|lump|))
    ensures data == HeaderSize && len == PaddedSize(|lump|)
  {
    var paddedSize := PaddedSize(|lump|);
    buffer := FillPadded(lump, paddedSize);
    data := HeaderSize;
    len := paddedSize;
  }
}
