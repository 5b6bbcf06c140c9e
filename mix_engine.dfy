/**
 * The mixing callback `I_UpdateSound(void*, Uint8*, int)` as a function of
 * the channel state: one stereo frame at a time, with the four-phase
 * interpolation, the 16.16 fixed-point cursor, the circular music buffer and
 * 16-bit saturation.
 */
module MixEngine {
  import opened SoundTypes

  /** 1.0 in 16.16 fixed point; the cursor moves by `remainder >> 16` samples. */
  const FracOne: int := 0x1_0000

  /**
   * One channel as the mixer sees it: cursor `pos` (0 stands for NULL, an
   * inactive channel), `end`, the unsigned `step` and `rem`ainder, and the
   * left/right gains.
   */
  datatype Voice = Voice(pos: int, end: int, step: int, rem: int, left: int, right: int)

  /**
   * A channel the mixer can read safely: an active cursor lies before its
   * end, and the byte after it (read on phases 0 and 3) is in memory.
   */
  predicate VoiceOk(memLen: int, v: Voice)
  {
    && 0 <= v.step < Unsigned32
    && 0 <= v.rem < FracOne
    && (v.pos == 0 || 1 <= v.pos < v.end < memLen)
  }

  /** What the callback reads but never changes: sample memory and the music buffer with its volume. */
  datatype MixConfig = MixConfig(memory: seq<Byte>, music: Option<seq<Int16>>, musVolume: int)

  /** What the callback changes: the channels and the music cursor. */
  datatype MixerState = MixerState(voices: seq<Voice>, musicPtr: int)

  /** A bound music buffer holds whole stereo pairs and its cursor is on a pair. */
  predicate MusicOk(music: Option<seq<Int16>>, ptr: int)
  {
    match music
    case None => true
    case Some(buf) => |buf| >= 2 && |buf| % 2 == 0 && 0 <= ptr < |buf| && ptr % 2 == 0
  }

  predicate StateOk(cfg: MixConfig, st: MixerState)
  {
    && |st.voices| == NumChannels
    && (forall c :: 0 <= c < |st.voices| ==> VoiceOk(|cfg.memory|, st.voices[c]))
    && MusicOk(cfg.music, st.musicPtr)
  }

  /** The parallel channel tables zipped into voices. */
  function ZipVoices(pos: seq<int>, end: seq<int>, step: seq<int>, rem: seq<int>,
                     left: seq<int>, right: seq<int>): (vs: seq<Voice>)
    requires |end| == |pos| && |step| == |pos| && |rem| == |pos|
    requires |left| == |pos| && |right| == |pos|
    ensures |vs| == |pos|
    ensures forall c :: 0 <= c < |vs| ==>
      vs[c] == Voice(pos[c], end[c], step[c], rem[c], left[c], right[c])
  {
    seq(|pos|, c requires 0 <= c < |pos| => Voice(pos[c], end[c], step[c], rem[c], left[c], right[c]))
  }

  // ---------------------------------------------------------------------------
  // One channel in one frame
  // ---------------------------------------------------------------------------

  /**
   * The 10-bit signed sample of an active channel: phases 1 and 2 take the
   * byte at the cursor times 4, phase 3 weighs it 3:1 against the next byte
   * and phase 0 weighs it 1:3; the unsigned bias 0x80 is removed.
   */
  function Interpolated(memory: seq<Byte>, v: Voice, phase: int): (isample: int)
    requires VoiceOk(|memory|, v) && v.pos != 0
    ensures -0x200 <= isample <= 0x1fc
  {
    var sample: int := memory[v.pos];
    if phase == 1 || phase == 2 then
      (sample * 4) - (0x80 * 4)
    else
      var nsample: int := memory[v.pos + 1];
      if phase == 3 then (sample * 3 + nsample) - (0x80 * 3 + 0x80)
      else (sample + nsample * 3) - (0x80 * 3 + 0x80)
  }

  /** The channel's contribution to the left accumulator, `(isample * gain) >> 5`. */
  function VoiceLeft(memory: seq<Byte>, v: Voice, phase: int): int
    requires VoiceOk(|memory|, v)
  {
    if v.pos == 0 then 0 else Product(Interpolated(memory, v, phase), v.left) / 32
  }

  /** The channel's contribution to the right accumulator. */
  function VoiceRight(memory: seq<Byte>, v: Voice, phase: int): int
    requires VoiceOk(|memory|, v)
  {
    if v.pos == 0 then 0 else Product(Interpolated(memory, v, phase), v.right) / 32
  }

  /**
   * The phase-0 step of an active channel: the unsigned remainder takes the
   * step, the cursor takes its integer part, the remainder keeps its low 16
   * bits, and a cursor at or past the end becomes NULL.
   */
  function Advance(v: Voice): Voice
  {
    var rem := (v.rem + v.step) % Unsigned32;
    var pos := v.pos + rem / FracOne;
    v.(pos := if pos >= v.end then 0 else pos, rem := rem % FracOne)
  }

  /** A channel after one frame: only active channels on phase 0 move. */
  function VoiceAfter(v: Voice, phase: int): Voice
  {
    if v.pos != 0 && phase == 0 then Advance(v) else v
  }

  /** The 16.16 cursor `pos.rem` of a channel that does not reach its end moves by exactly `step`. */
  lemma AdvanceIsFixedPointStep(v: Voice)
    requires v.pos != 0 && 0 <= v.rem < FracOne && 0 <= v.step
    requires v.rem + v.step < Unsigned32
    requires v.pos + (v.rem + v.step) / FracOne < v.end
    ensures Advance(v).pos * FracOne + Advance(v).rem == v.pos * FracOne + v.rem + v.step
  {
  }

  /** Stepping keeps a channel readable and changes nothing but its cursor and remainder. */
  lemma VoiceAfterOk(memLen: int, v: Voice, phase: int)
    requires VoiceOk(memLen, v)
    ensures VoiceOk(memLen, VoiceAfter(v, phase))
    ensures VoiceAfter(v, phase).(pos := v.pos, rem := v.rem) == v
    ensures VoiceAfter(v, phase).pos == 0 || VoiceAfter(v, phase).pos >= v.pos
  {
  }

  /** The sum of the left contributions of channels `0 .. k-1`. */
  function MixedLeft(memory: seq<Byte>, vs: seq<Voice>, phase: int, k: nat): int
    requires k <= |vs|
    requires forall c :: 0 <= c < |vs| ==> VoiceOk(|memory|, vs[c])
  {
    if k == 0 then 0 else MixedLeft(memory, vs, phase, k - 1) + VoiceLeft(memory, vs[k - 1], phase)
  }

  /** The sum of the right contributions of channels `0 .. k-1`. */
  function MixedRight(memory: seq<Byte>, vs: seq<Voice>, phase: int, k: nat): int
    requires k <= |vs|
    requires forall c :: 0 <= c < |vs| ==> VoiceOk(|memory|, vs[c])
  {
    if k == 0 then 0 else MixedRight(memory, vs, phase, k - 1) + VoiceRight(memory, vs[k - 1], phase)
  }

  /** The channels part-way through the channel loop: channels `0 .. k-1` stepped, the rest as they were. */
  function SteppedUpTo(vs: seq<Voice>, phase: int, k: int): (r: seq<Voice>)
    ensures |r| == |vs|
    ensures forall c :: 0 <= c < |vs| ==> r[c] == if c < k then VoiceAfter(vs[c], phase) else vs[c]
  {
    seq(|vs|, c requires 0 <= c < |vs| => if c < k then VoiceAfter(vs[c], phase) else vs[c])
  }

  /** One more pass of the channel loop steps channel `k` and adds its contributions to both sums. */
  lemma SteppedOneMore(memory: seq<Byte>, vs: seq<Voice>, phase: int, k: nat, next: nat)
    requires k < |vs| && next == k + 1
    requires forall c :: 0 <= c < |vs| ==> VoiceOk(|memory|, vs[c])
    ensures SteppedUpTo(vs, phase, k)[k := VoiceAfter(vs[k], phase)] == SteppedUpTo(vs, phase, next)
    ensures MixedLeft(memory, vs, phase, next) == MixedLeft(memory, vs, phase, k) + VoiceLeft(memory, vs[k], phase)
    ensures MixedRight(memory, vs, phase, next) == MixedRight(memory, vs, phase, k) + VoiceRight(memory, vs[k], phase)
  {
    assert SteppedUpTo(vs, phase, k)[k := VoiceAfter(vs[k], phase)] == SteppedUpTo(vs, phase, next);
  }

  // ---------------------------------------------------------------------------
  // Music
  // ---------------------------------------------------------------------------

  /** The music contribution to the left accumulator, `(snd_MusVolume * sample) >> 8`. */
  function MusicLeft(cfg: MixConfig, ptr: int): int
    requires MusicOk(cfg.music, ptr)
  {
    match cfg.music
    case None => 0
    case Some(buf) => Product(cfg.musVolume, buf[ptr]) / 256
  }

  /** The music contribution to the right accumulator, from the second sample of the pair. */
  function MusicRight(cfg: MixConfig, ptr: int): int
    requires MusicOk(cfg.music, ptr)
  {
    match cfg.music
    case None => 0
    case Some(buf) => Product(cfg.musVolume, buf[ptr + 1]) / 256
  }

  /** The music cursor after one frame: two samples on, back to the start once at the end. */
  function MusicAfter(music: Option<seq<Int16>>, ptr: int): int
  {
    match music
    case None => ptr
    case Some(buf) => if ptr + 2 >= |buf| then 0 else ptr + 2
  }

  // ---------------------------------------------------------------------------
  // Frames and whole callbacks
  // ---------------------------------------------------------------------------

  /** The left accumulator of one frame: every channel's contribution plus the music's. */
  function LeftAccumulator(cfg: MixConfig, st: MixerState, phase: int): int
    requires StateOk(cfg, st)
  {
    MixedLeft(cfg.memory, st.voices, phase, |st.voices|) + MusicLeft(cfg, st.musicPtr)
  }

  /** The right accumulator of one frame. */
  function RightAccumulator(cfg: MixConfig, st: MixerState, phase: int): int
    requires StateOk(cfg, st)
  {
    MixedRight(cfg.memory, st.voices, phase, |st.voices|) + MusicRight(cfg, st.musicPtr)
  }

  /** The interleaved left/right pair one frame writes: both accumulators saturated to 16 bits. */
  function FrameOut(cfg: MixConfig, st: MixerState, phase: int): seq<Int16>
    requires StateOk(cfg, st)
  {
    [ClampToInt16(LeftAccumulator(cfg, st, phase)), ClampToInt16(RightAccumulator(cfg, st, phase))]
  }

  /**
   * The state after one iteration of the callback's outer loop at
   * interpolation phase `phase`: every channel steps by itself and the music
   * cursor moves on one pair.
   */
  function Step(cfg: MixConfig, st: MixerState, phase: int): (next: MixerState)
    requires StateOk(cfg, st)
    ensures StateOk(cfg, next)
    ensures |next.voices| == |st.voices|
    ensures forall c :: 0 <= c < |st.voices| ==> next.voices[c] == VoiceAfter(st.voices[c], phase)
    ensures next.musicPtr == MusicAfter(cfg.music, st.musicPtr)
  {
    var vs := st.voices;
    var after := seq(|vs|, c requires 0 <= c < |vs| => VoiceAfter(vs[c], phase));
    forall c | 0 <= c < |vs| ensures VoiceOk(|cfg.memory|, after[c]) {
      VoiceAfterOk(|cfg.memory|, vs[c], phase);
    }
    MixerState(after, MusicAfter(cfg.music, st.musicPtr))
  }

  /** The interpolation phase of frame `k` of a callback: `++interpolate &= 3` from 0, so 1, 2, 3, 0, ... */
  function Phase(k: nat): int
  {
    (k + 1) % 4
  }

  lemma PhaseAfterWholeCycles(a: nat, b: nat, n: nat)
    requires a % 4 == 0 && n == a + b
    ensures Phase(n) == Phase(b)
  {
  }

  /** The state after the first `n` frames of one callback. */
  function StateAfter(cfg: MixConfig, st: MixerState, n: nat): (r: MixerState)
    requires StateOk(cfg, st)
    ensures StateOk(cfg, r)
  {
    if n == 0 then st else Step(cfg, StateAfter(cfg, st, n - 1), Phase(n - 1))
  }

  /** The interleaved output of the first `n` frames of one callback. */
  function Output(cfg: MixConfig, st: MixerState, n: nat): (out: seq<Int16>)
    requires StateOk(cfg, st)
    ensures |out| == 2 * n
  {
    if n == 0 then [] else Output(cfg, st, n - 1) + FrameOut(cfg, StateAfter(cfg, st, n - 1), Phase(n - 1))
  }

  /** One more frame: the state takes one step at phase `Phase(n)` and the output grows by that frame's pair. */
  lemma OneMoreFrame(cfg: MixConfig, st: MixerState, n: nat, next: nat)
    requires StateOk(cfg, st) && next == n + 1
    ensures StateAfter(cfg, st, next) == Step(cfg, StateAfter(cfg, st, n), Phase(n))
    ensures Output(cfg, st, next) == Output(cfg, st, n) + FrameOut(cfg, StateAfter(cfg, st, n), Phase(n))
  {
  }

  /**
   * Output samples 2k and 2k+1 are the left and right accumulators of frame
   * k, mixed at phase (k+1) % 4 from the state after k frames and saturated
   * to 16 bits.
   */
  lemma {:induction false} OutputFrameAt(cfg: MixConfig, st: MixerState, n: nat, k: nat)
    requires StateOk(cfg, st)
    requires k < n
    ensures Output(cfg, st, n)[2 * k] == ClampToInt16(LeftAccumulator(cfg, StateAfter(cfg, st, k), Phase(k)))
    ensures Output(cfg, st, n)[2 * k + 1] == ClampToInt16(RightAccumulator(cfg, StateAfter(cfg, st, k), Phase(k)))
  {
    if k < n - 1 {
      OutputFrameAt(cfg, st, n - 1, k);
    }
  }

  /**
   * Two callbacks whose first one covers a whole number of four-frame
   * interpolation cycles end in the state one callback of the total length
   * reaches.
   */
  lemma {:induction false} StatesSplitAtWholeCycles(cfg: MixConfig, st: MixerState, a: nat, b: nat, n: nat)
    requires StateOk(cfg, st)
    requires a % 4 == 0 && n == a + b
    ensures StateAfter(cfg, st, n) == StateAfter(cfg, StateAfter(cfg, st, a), b)
  {
    if b > 0 {
      StatesSplitAtWholeCycles(cfg, st, a, b - 1, n - 1);
      PhaseAfterWholeCycles(a, b - 1, n - 1);
    }
  }

  /**
   * The same two callbacks together write the stream one callback of the
   * total length writes: restarting the phase at each callback is invisible
   * then.
   */
  lemma {:induction false} OutputsSplitAtWholeCycles(cfg: MixConfig, st: MixerState, a: nat, b: nat, n: nat)
    requires StateOk(cfg, st)
    requires a % 4 == 0 && n == a + b
    ensures Output(cfg, st, n) == Output(cfg, st, a) + Output(cfg, StateAfter(cfg, st, a), b)
  {
    if b > 0 {
      OutputsSplitAtWholeCycles(cfg, st, a, b - 1, n - 1);
      StatesSplitAtWholeCycles(cfg, st, a, b - 1, n - 1);
      PhaseAfterWholeCycles(a, b - 1, n - 1);
      SplitOutputGrows(cfg, st, StateAfter(cfg, st, a), a, b, n);
    }
  }

  /** The inductive step of `OutputsSplitAtWholeCycles`: both sides grow by the same frame. */
  lemma SplitOutputGrows(cfg: MixConfig, st: MixerState, mid: MixerState, a: nat, b: nat, n: nat)
    requires StateOk(cfg, st) && StateOk(cfg, mid)
    requires 0 < b && n == a + b
    requires StateAfter(cfg, st, n - 1) == StateAfter(cfg, mid, b - 1)
    requires Phase(n - 1) == Phase(b - 1)
    requires Output(cfg, st, n - 1) == Output(cfg, st, a) + Output(cfg, mid, b - 1)
    ensures Output(cfg, st, n) == Output(cfg, st, a) + Output(cfg, mid, b)
  {
    Regroup(Output(cfg, st, a), Output(cfg, mid, b - 1), FrameOut(cfg, StateAfter(cfg, mid, b - 1), Phase(b - 1)));
  }

  /** Concatenation is associative. */
  lemma Regroup<T>(x: seq<T>, y: seq<T>, z: seq<T>)
    ensures (x + y) + z == x + (y + z)
  {
  }

  lemma {:induction false} MultipleAtLeastDivisor(d: int, len: int)
    requires 1 <= d && 0 < len
    ensures d * len >= len
    decreases d
  {
    if d > 1 {
      MultipleAtLeastDivisor(d - 1, len);
      assert d * len == (d - 1) * len + len;
    }
  }

  lemma DivModSplit(x: int, len: int)
    requires 0 < len
    ensures x == (x / len) * len + x % len && 0 <= x % len < len
  {
  }

  /** `x % len` is the remainder `r` of any decomposition `x == q * len + r`. */
  lemma ModOfDecomposition(x: int, q: int, r: int, len: int)
    requires 0 < len && 0 <= r < len && x == q * len + r
    ensures x % len == r
  {
    var q', r' := x / len, x % len;
    assert x == q' * len + r';
    assert (q - q') * len == r' - r by {
      assert (q - q') * len == q * len - q' * len;
    }
    if q > q' {
      MultipleAtLeastDivisor(q - q', len);
    } else if q < q' {
      MultipleAtLeastDivisor(q' - q, len);
    }
  }

  /** One music step on the closed form: a cursor `(p0 + 2k) % len` on a pair moves to `(p0 + 2(k+1)) % len`. */
  lemma MusicStepModulo(p0: int, k: nat, len: int)
    requires 0 < len && len % 2 == 0 && p0 % 2 == 0
    ensures var p := (p0 + 2 * k) % len;
      (if p + 2 >= len then 0 else p + 2) == (p0 + 2 * (k + 1)) % len
  {
    var x := p0 + 2 * k;
    var p, q := x % len, x / len;
    DivModSplit(x, len);
    var h, a := len / 2, p0 / 2 + k;
    assert len == 2 * h && x == 2 * a;
    assert p == 2 * (a - q * h) by {
      assert q * len == 2 * (q * h);
    }
    if p + 2 >= len {
      assert p + 2 == len;
      ModOfDecomposition(x + 2, q + 1, 0, len);
    } else {
      ModOfDecomposition(x + 2, q, p + 2, len);
    }
  }

  lemma {:induction false} MusicCursorWraps(cfg: MixConfig, st: MixerState, n: nat)
    requires StateOk(cfg, st)
    requires cfg.music.Some?
    ensures StateAfter(cfg, st, n).musicPtr == (st.musicPtr + 2 * n) % |cfg.music.value|
  {
    var len := |cfg.music.value|;
    if n == 0 {
      ModOfDecomposition(st.musicPtr, 0, st.musicPtr, len);
    } else {
      MusicCursorWraps(cfg, st, n - 1);
      MusicStepModulo(st.musicPtr, n - 1, len);
    }
  }

  /** Music consumption: starting from the buffer start, a buffer of L samples is back at its start after L/2 frames. */
  lemma MusicBufferLoops(cfg: MixConfig, st: MixerState)
    requires StateOk(cfg, st)
    requires cfg.music.Some? && st.musicPtr == 0
    ensures StateAfter(cfg, st, |cfg.music.value| / 2).musicPtr == 0
  {
    var len := |cfg.music.value|;
    MusicCursorWraps(cfg, st, len / 2);
    assert 2 * (len / 2) == len;
    ModOfDecomposition(len, 1, 0, len);
  }

  /** Without a music buffer the cursor is left alone. */
  lemma {:induction false} NoMusicKeepsCursor(cfg: MixConfig, st: MixerState, n: nat)
    requires StateOk(cfg, st)
    requires cfg.music.None?
    ensures StateAfter(cfg, st, n).musicPtr == st.musicPtr
  {
    if n > 0 {
      NoMusicKeepsCursor(cfg, st, n - 1);
    }
  }

  /**
   * Whatever the number of frames, a channel keeps its end, step and gains,
   * its cursor never moves backward while active, and an inactive channel
   * stays untouched.
   */
  lemma {:induction false} RunChannelEvolution(cfg: MixConfig, st: MixerState, n: nat, c: nat)
    requires StateOk(cfg, st)
    requires c < NumChannels
    ensures var v := StateAfter(cfg, st, n).voices[c];
      && v.(pos := st.voices[c].pos, rem := st.voices[c].rem) == st.voices[c]
      && (v.pos == 0 || v.pos >= st.voices[c].pos)
      && (st.voices[c].pos == 0 ==> v == st.voices[c])
  {
    if n > 0 {
      RunChannelEvolution(cfg, st, n - 1, c);
      var prev := StateAfter(cfg, st, n - 1);
      VoiceAfterOk(|cfg.memory|, prev.voices[c], Phase(n - 1));
    }
  }

  /** Frames at phases 1, 2 and 3 leave every channel as it was. */
  lemma StepOffPhaseZeroKeepsChannels(cfg: MixConfig, st: MixerState, phase: int)
    requires StateOk(cfg, st)
    requires phase != 0
    ensures Step(cfg, st, phase).voices == st.voices
  {
  }

  lemma {:induction false} SilentChannelsMixNothing(memory: seq<Byte>, vs: seq<Voice>, phase: int, k: nat)
    requires k <= |vs|
    requires forall c :: 0 <= c < |vs| ==> VoiceOk(|memory|, vs[c]) && vs[c].pos == 0
    ensures MixedLeft(memory, vs, phase, k) == 0 && MixedRight(memory, vs, phase, k) == 0
  {
    if k > 0 {
      SilentChannelsMixNothing(memory, vs, phase, k - 1);
    }
  }

  /** With every channel inactive and no music the callback writes silence. */
  lemma {:induction false} SilenceIn(cfg: MixConfig, st: MixerState, n: nat)
    requires StateOk(cfg, st)
    requires cfg.music.None?
    requires forall c :: 0 <= c < |st.voices| ==> st.voices[c].pos == 0
    ensures Output(cfg, st, n) == seq(2 * n, _ => 0)
    ensures StateAfter(cfg, st, n) == st
  {
    if n > 0 {
      SilenceIn(cfg, st, n - 1);
      SilentChannelsMixNothing(cfg.memory, st.voices, Phase(n - 1), |st.voices|);
      assert Step(cfg, st, Phase(n - 1)).voices == st.voices;
    }
  }
}
