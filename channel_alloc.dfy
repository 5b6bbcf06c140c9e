/**
 * The pure decisions taken by `addsfx`: which channel slot a new effect
 * takes, the stereo gains it gets and the handle it is issued.
 */
module ChannelAlloc {
  import opened SoundTypes

  // Effect numbers of the game's sound enumeration that play one at a time.
  const SfxPistol: int := 1
  const SfxSawUp: int := 10
  const SfxSawIdl: int := 11
  const SfxSawFul: int := 12
  const SfxSawHit: int := 13
  const SfxStnMov: int := 22

  /** The chainsaw family, the moving-stone sound and the pistol always use slot 0. */
  predicate IsExclusive(sfxId: int)
  {
    sfxId == SfxSawUp || sfxId == SfxSawIdl || sfxId == SfxSawFul
    || sfxId == SfxSawHit || sfxId == SfxStnMov || sfxId == SfxPistol
  }

  // ---------------------------------------------------------------------------
  // Slot choice
  // ---------------------------------------------------------------------------

  /** Variables of the search loop of `addsfx` when it stops. */
  datatype Scan = Scan(stop: int, oldestNum: int, oldest: int)

  /**
   * The search loop from index `i` on: it walks the active channels
   * (`pos[i] != 0`) and stops at the first inactive one or at the end,
   * remembering the first channel with the strictly smallest start time
   * below `oldest`.
   */
  function ScanFrom(pos: seq<int>, start: seq<int>, i: int, oldestNum: int, oldest: int): (r: Scan)
    requires |pos| == NumChannels && |start| == NumChannels
    requires 1 <= i <= NumChannels
    ensures i <= r.stop <= NumChannels
    ensures r.stop == NumChannels || pos[r.stop] == 0
    ensures r.oldestNum == oldestNum || i <= r.oldestNum < r.stop
    decreases NumChannels - i
  {
    if i < NumChannels && pos[i] != 0 then
      if start[i] < oldest then ScanFrom(pos, start, i + 1, i, start[i])
      else ScanFrom(pos, start, i + 1, oldestNum, oldest)
    else
      Scan(i, oldestNum, oldest)
  }

  /**
   * The slot `addsfx` writes: slot 0 for exclusive effects; otherwise the
   * slot where the scan from 1 stopped, or the oldest found (initially 0)
   * when it ran through all channels.
   */
  function ChooseSlot(sfxId: int, pos: seq<int>, start: seq<int>, now: int): (slot: int)
    requires |pos| == NumChannels && |start| == NumChannels
    ensures 0 <= slot < NumChannels
  {
    if IsExclusive(sfxId) then 0
    else
      var s := ScanFrom(pos, start, 1, 0, now);
      if s.stop == NumChannels then s.oldestNum else s.stop
  }

  /** Exclusive effects land in slot 0, whatever the other channels hold. */
  lemma ExclusiveUsesSlotZero(sfxId: int, pos: seq<int>, start: seq<int>, now: int)
    requires |pos| == NumChannels && |start| == NumChannels
    requires IsExclusive(sfxId)
    ensures ChooseSlot(sfxId, pos, start, now) == 0
  {
  }

  lemma {:induction false} ScanFindsFirstFree(pos: seq<int>, start: seq<int>, i: int, oldestNum: int, oldest: int)
    requires |pos| == NumChannels && |start| == NumChannels
    requires 1 <= i <= NumChannels
    requires exists k :: i <= k < NumChannels && pos[k] == 0
    ensures var r := ScanFrom(pos, start, i, oldestNum, oldest);
      r.stop < NumChannels && pos[r.stop] == 0 && forall j :: i <= j < r.stop ==> pos[j] != 0
    decreases NumChannels - i
  {
    if pos[i] != 0 {
      if start[i] < oldest {
        ScanFindsFirstFree(pos, start, i + 1, i, start[i]);
      } else {
        ScanFindsFirstFree(pos, start, i + 1, oldestNum, oldest);
      }
    }
  }

  /**
   * A non-exclusive effect takes the lowest-numbered inactive slot k >= 1
   * whenever one of the slots 1..7 is inactive.
   */
  lemma FirstFreeSlotWins(sfxId: int, pos: seq<int>, start: seq<int>, now: int)
    requires |pos| == NumChannels && |start| == NumChannels
    requires !IsExclusive(sfxId)
    requires exists k :: 1 <= k < NumChannels && pos[k] == 0
    ensures var slot := ChooseSlot(sfxId, pos, start, now);
      1 <= slot && pos[slot] == 0 && forall j :: 1 <= j < slot ==> pos[j] != 0
  {
    ScanFindsFirstFree(pos, start, 1, 0, now);
  }

  /**
   * Slot `j` in 1..7 has the strictly smallest start time below `now`,
   * and no earlier slot in 1..7 has that time.
   */
  ghost predicate IsOldest(start: seq<int>, j: int, now: int)
    requires |start| == NumChannels
  {
    && 1 <= j < NumChannels
    && start[j] < now
    && (forall k :: 1 <= k < NumChannels ==> start[j] <= start[k])
    && (forall k :: 1 <= k < j ==> start[j] < start[k])
  }

  /**
   * Over active slots `i..7` the scan runs to the end and leaves either the
   * running oldest, when no later slot started earlier, or the first slot
   * holding the smallest start time below it.
   */
  lemma {:induction false} ScanTracksOldest(pos: seq<int>, start: seq<int>, i: int, oldestNum: int, oldest: int)
    requires |pos| == NumChannels && |start| == NumChannels
    requires 1 <= i <= NumChannels
    requires forall k :: i <= k < NumChannels ==> pos[k] != 0
    ensures var r := ScanFrom(pos, start, i, oldestNum, oldest);
      && r.stop == NumChannels
      && r.oldest <= oldest
      && (forall k :: i <= k < NumChannels ==> r.oldest <= start[k])
      && (r.oldest == oldest ==> r.oldestNum == oldestNum)
      && (r.oldest < oldest ==>
            && i <= r.oldestNum < NumChannels
            && r.oldest == start[r.oldestNum]
            && (forall k :: i <= k < r.oldestNum ==> r.oldest < start[k]))
    decreases NumChannels - i
  {
    if i == NumChannels {
      assert ScanFrom(pos, start, i, oldestNum, oldest) == Scan(i, oldestNum, oldest);
    } else if start[i] < oldest {
      assert ScanFrom(pos, start, i, oldestNum, oldest) == ScanFrom(pos, start, i + 1, i, start[i]);
      ScanTracksOldest(pos, start, i + 1, i, start[i]);
    } else {
      assert ScanFrom(pos, start, i, oldestNum, oldest) == ScanFrom(pos, start, i + 1, oldestNum, oldest);
      ScanTracksOldest(pos, start, i + 1, oldestNum, oldest);
    }
  }

  /**
   * When slots 1..7 are all active, a non-exclusive effect evicts the oldest
   * of them, the first one on ties, provided it started before `now`;
   * otherwise it overwrites slot 0.
   */
  lemma OldestIsEvicted(sfxId: int, pos: seq<int>, start: seq<int>, now: int)
    requires |pos| == NumChannels && |start| == NumChannels
    requires !IsExclusive(sfxId)
    requires forall k :: 1 <= k < NumChannels ==> pos[k] != 0
    ensures var slot := ChooseSlot(sfxId, pos, start, now);
      && (slot == 0 <==> forall k :: 1 <= k < NumChannels ==> now <= start[k])
      && (slot != 0 ==> IsOldest(start, slot, now))
  {
    ScanTracksOldest(pos, start, 1, 0, now);
  }

  // ---------------------------------------------------------------------------
  // Stereo pan law
  // ---------------------------------------------------------------------------

  datatype Gains = Gains(left: int, right: int)

  /** The gain of one side: the volume less its share `(volume * sep * sep) >> 16`. */
  function SideGain(volume: int, separation: int): int
  {
    volume - (volume * separation * separation) / 0x1_0000
  }

  /**
   * Left and right gains for base volume `snd_SfxVolume << 2`; the right side
   * uses the mirrored separation `256 - separation`.
   */
  function PanGains(sfxVolume: int, separation: int): Gains
  {
    var volume := sfxVolume * 4;
    Gains(SideGain(volume, separation), SideGain(volume, 256 - separation))
  }

  lemma {:induction false} SideGainBounds(volume: int, separation: int)
    requires 0 <= volume && 0 <= separation <= 256
    ensures 0 <= SideGain(volume, separation) <= volume
  {
    var sq := separation * separation;
    assert 0 <= sq <= 0x1_0000 by {
      assert separation * separation <= 256 * separation <= 256 * 256;
    }
    assert volume * separation * separation == volume * sq;
    assert 0 <= volume * sq <= volume * 0x1_0000;
  }

  /** For a separation in [0, 256] both gains lie in [0, 4 * snd_SfxVolume]. */
  lemma PanGainsBounded(sfxVolume: int, separation: int)
    requires 0 <= sfxVolume && 0 <= separation <= 256
    ensures var g := PanGains(sfxVolume, separation);
      0 <= g.left <= 4 * sfxVolume && 0 <= g.right <= 4 * sfxVolume
  {
    SideGainBounds(4 * sfxVolume, separation);
    SideGainBounds(4 * sfxVolume, 256 - separation);
  }

  /** A centred source (separation 128) gets equal gains. */
  lemma PanCentredIsBalanced(sfxVolume: int)
    ensures PanGains(sfxVolume, 128).left == PanGains(sfxVolume, 128).right
  {
  }

  /** Mirroring the separation swaps the two gains. */
  lemma PanMirror(sfxVolume: int, separation: int)
    ensures PanGains(sfxVolume, separation).left == PanGains(sfxVolume, 256 - separation).right
    ensures PanGains(sfxVolume, separation).right == PanGains(sfxVolume, 256 - separation).left
  {
  }

  /** Hard left (separation 0): full volume on the left, silence on the right. */
  lemma PanHardLeft(sfxVolume: int)
    requires 0 < sfxVolume
    ensures PanGains(sfxVolume, 0) == Gains(4 * sfxVolume, 0)
    ensures PanGains(sfxVolume, 0).right < PanGains(sfxVolume, 0).left
  {
  }

  lemma {:induction false} SideGainMonotone(volume: int, s1: int, s2: int)
    requires 0 <= volume && 0 <= s1 <= s2
    ensures SideGain(volume, s2) <= SideGain(volume, s1)
  {
    assert s1 * s1 <= s1 * s2 <= s2 * s2;
    assert volume * s1 * s1 <= volume * s2 * s2 by {
      assert volume * s1 * s1 == volume * (s1 * s1);
      assert volume * s2 * s2 == volume * (s2 * s2);
    }
  }

  /** Moving a source to the right never raises its left gain nor lowers its right gain. */
  lemma PanMonotone(sfxVolume: int, s1: int, s2: int)
    requires 0 <= sfxVolume && 0 <= s1 <= s2 <= 256
    ensures PanGains(sfxVolume, s2).left <= PanGains(sfxVolume, s1).left
    ensures PanGains(sfxVolume, s1).right <= PanGains(sfxVolume, s2).right
  {
    SideGainMonotone(4 * sfxVolume, s1, s2);
    SideGainMonotone(4 * sfxVolume, 256 - s2, 256 - s1);
  }

  // ---------------------------------------------------------------------------
  // Handles
  // ---------------------------------------------------------------------------

  /**
   * The static `handlenums` counter: reset to 100 when it is 0, then
   * pre-decremented; the result is both the new counter and the handle.
   */
  function NextHandle(h: int): (r: int)
    requires 0 <= h < 100
    ensures 0 <= r < 100
    ensures r == (h - 1) % 100
  {
    var reset := if h == 0 then 100 else h;
    reset - 1
  }

  /** The counter after `n` further calls. */
  function HandleAfter(h: int, n: nat): (r: int)
    requires 0 <= h < 100
    ensures 0 <= r < 100
  {
    if n == 0 then h else NextHandle(HandleAfter(h, n - 1))
  }

  /** The counter counts down modulo 100: after 0 comes 99. */
  lemma {:induction false} HandleAfterCountsDown(h: int, n: nat)
    requires 0 <= h < 100
    ensures HandleAfter(h, n) == (h - n) % 100
  {
    if n > 0 {
      HandleAfterCountsDown(h, n - 1);
      var p := h - (n - 1);
      assert HandleAfter(h, n - 1) == p % 100;
      assert HandleAfter(h, n) == (p % 100 - 1) % 100;
      assert (p % 100 - 1) % 100 == (p - 1) % 100 by {
        var q := p / 100;
        assert p == q * 100 + p % 100;
        assert p - 1 == q * 100 + (p % 100 - 1);
      }
    }
  }

  /** Any 100 consecutive calls issue 100 distinct handles; the next one repeats. */
  lemma HandlesDistinctWithinCycle(h: int, m: nat, n: nat)
    requires 0 <= h < 100
    requires m < n
    ensures n < m + 100 ==> HandleAfter(h, m) != HandleAfter(h, n)
    ensures n == m + 100 ==> HandleAfter(h, m) == HandleAfter(h, n)
  {
    HandleAfterCountsDown(h, m);
    HandleAfterCountsDown(h, n);
    var a := h - m;
    var b := h - n;
    assert a == (a / 100) * 100 + a % 100;
    assert b == (b / 100) * 100 + b % 100;
  }
}
