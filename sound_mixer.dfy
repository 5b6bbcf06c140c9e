/**
 * The state of the software mixer: the eight internal channels as parallel
 * tables, the two volume settings, the optional rendered music buffer with
 * its cursor and the handle counter, with the operations that change them.
 *
 * A sample pointer is an index into `memory`, the bytes of all loaded
 * effects; index 0 stands for NULL, an inactive channel.
 */
module SoundMixer {
  import opened SoundTypes
  import opened ChannelAlloc
  import opened MixEngine

  /**
   * The table of loaded effects (`S_sfx[id].data`, `lengths[id]`): an
   * effect is either not loaded (data 0) or a region of at least two bytes
   * inside the sample memory, the mixer's look-ahead of one byte included.
   */
  predicate SfxTableOk(memLen: int, sfxData: seq<int>, sfxLengths: seq<int>)
  {
    && |sfxLengths| == |sfxData|
    && forall id :: 0 <= id < |sfxData| ==>
         sfxData[id] == 0 || (1 <= sfxData[id] && 2 <= sfxLengths[id] && sfxData[id] + sfxLengths[id] <= memLen)
  }

  /** Eight zeros: a channel table as the program starts. */
  const Zeros: seq<int> := seq(NumChannels, _ => 0)

  /** `I_SoundIsPlaying`: the query is not implemented and always answers "not playing". */
  function SoundIsPlaying(handle: int): (playing: int)
    ensures playing == 0
  {
    0
  }

  class Mixer {
    /** The bytes of every loaded effect; index 0 is never sample data. */
    const memory: seq<Byte>
    /** `S_sfx[id].data` and `lengths[id]` for every effect number. */
    const sfxData: seq<int>
    const sfxLengths: seq<int>
    /** `steptable`: pitch to 16.16 step, built with `pow` at start-up. */
    const stepTable: seq<int>

    /** The per-channel tables. */
    const channels: array<int>
    const channelsEnd: array<int>
    const channelStep: array<int>
    const channelStepRemainder: array<int>
    const channelStart: array<int>
    const channelHandles: array<int>
    const channelIds: array<int>
    const sfxLeftVol: array<int>
    const sfxRightVol: array<int>

    /** `snd_SfxVolume` and `snd_MusVolume`. */
    var sfxVolume: int
    var musVolume: int
    /** The rendered song (`musicBuffer` .. `musicBufferEnd`) and the cursor `musicptr`. */
    var music: Option<seq<Int16>>
    var musicPtr: int
    /** `Music_initialized`. */
    var musicInitialized: bool
    /** The static `handlenums` of `addsfx`. */
    var handleNums: int

    ghost predicate Distinct()
    {
      && channels != channelsEnd && channels != channelStep && channels != channelStepRemainder
      && channels != channelStart && channels != channelHandles && channels != channelIds
      && channels != sfxLeftVol && channels != sfxRightVol
      && channelsEnd != channelStep && channelsEnd != channelStepRemainder && channelsEnd != channelStart
      && channelsEnd != channelHandles && channelsEnd != channelIds && channelsEnd != sfxLeftVol
      && channelsEnd != sfxRightVol
      && channelStep != channelStepRemainder && channelStep != channelStart && channelStep != channelHandles
      && channelStep != channelIds && channelStep != sfxLeftVol && channelStep != sfxRightVol
      && channelStepRemainder != channelStart && channelStepRemainder != channelHandles
      && channelStepRemainder != channelIds && channelStepRemainder != sfxLeftVol
      && channelStepRemainder != sfxRightVol
      && channelStart != channelHandles && channelStart != channelIds && channelStart != sfxLeftVol
      && channelStart != sfxRightVol
      && channelHandles != channelIds && channelHandles != sfxLeftVol && channelHandles != sfxRightVol
      && channelIds != sfxLeftVol && channelIds != sfxRightVol
      && sfxLeftVol != sfxRightVol
    }

    predicate TablesSized()
    {
      && channels.Length == NumChannels && channelsEnd.Length == NumChannels
      && channelStep.Length == NumChannels && channelStepRemainder.Length == NumChannels
      && channelStart.Length == NumChannels && channelHandles.Length == NumChannels
      && channelIds.Length == NumChannels && sfxLeftVol.Length == NumChannels
      && sfxRightVol.Length == NumChannels
    }

    /** What the mixing callback reads and does not change. */
    function Config(): MixConfig
      reads this`music, this`musVolume
    {
      MixConfig(memory, music, musVolume)
    }

    /** What the mixing callback changes: the channels as voices, and the music cursor. */
    function State(): MixerState
      requires TablesSized()
      reads this`musicPtr, channels, channelsEnd, channelStep, channelStepRemainder, sfxLeftVol, sfxRightVol
    {
      MixerState(ZipVoices(channels[..], channelsEnd[..], channelStep[..], channelStepRemainder[..],
                           sfxLeftVol[..], sfxRightVol[..]), musicPtr)
    }

    /** The part of the invariant that the mixing callback cannot disturb. */
    ghost predicate Setup()
      reads this`sfxVolume, this`musVolume, this`music, this`musicInitialized, this`handleNums
    {
      && TablesSized()
      && |stepTable| == 256
      && SfxTableOk(|memory|, sfxData, sfxLengths)
      && 0 <= sfxVolume && 0 <= musVolume
      && (music.Some? ==> musicInitialized)
      && 0 <= handleNums < 100
    }

    ghost predicate Valid()
      reads this, channels, channelsEnd, channelStep, channelStepRemainder, sfxLeftVol, sfxRightVol
    {
      Setup() && StateOk(Config(), State())
    }

    /** The program's start-up state: every table zero, no music, both volumes 0. */
    constructor (memory: seq<Byte>, sfxData: seq<int>, sfxLengths: seq<int>, stepTable: seq<int>)
      requires SfxTableOk(|memory|, sfxData, sfxLengths)
      requires |stepTable| == 256
      ensures Valid() && Distinct()
      ensures this.memory == memory && this.sfxData == sfxData
      ensures this.sfxLengths == sfxLengths && this.stepTable == stepTable
      ensures State().voices == seq(NumChannels, _ => Voice(0, 0, 0, 0, 0, 0))
      ensures channelStart[..] == Zeros && channelHandles[..] == Zeros && channelIds[..] == Zeros
      ensures sfxVolume == 0 && musVolume == 0 && music.None? && musicPtr == 0
      ensures !musicInitialized && handleNums == 0
    {
      this.memory := memory;
      this.sfxData := sfxData;
      this.sfxLengths := sfxLengths;
      this.stepTable := stepTable;
      var t0 := NewTable();
      var t1 := NewTable();
      var t2 := NewTable();
      var t3 := NewTable();
      var t4 := NewTable();
      var t5 := NewTable();
      var t6 := NewTable();
      var t7 := NewTable();
      var t8 := NewTable();
      channels := t0;
      channelsEnd := t1;
      channelStep := t2;
      channelStepRemainder := t3;
      channelStart := t4;
      channelHandles := t5;
      channelIds := t6;
      sfxLeftVol := t7;
      sfxRightVol := t8;
      sfxVolume := 0;
      musVolume := 0;
      music := None;
      musicPtr := 0;
      musicInitialized := false;
      handleNums := 0;
      new;
      ZeroTablesAreQuiet();
    }

    /** A fresh channel table, all zeros. */
    static method NewTable() returns (table: array<int>)
      ensures fresh(table) && table[..] == Zeros
    {
      table := new int[NumChannels](_ => 0);
      assert table[..] == Zeros;
    }

    /** Tables of zeros hold eight inactive voices, which are readable. */
    lemma ZeroTablesAreQuiet()
      requires TablesSized()
      requires channels[..] == Zeros && channelsEnd[..] == Zeros && channelStep[..] == Zeros
      requires channelStepRemainder[..] == Zeros && sfxLeftVol[..] == Zeros && sfxRightVol[..] == Zeros
      requires MusicOk(music, musicPtr)
      ensures State().voices == seq(NumChannels, _ => Voice(0, 0, 0, 0, 0, 0))
      ensures StateOk(Config(), State())
    {
      assert State().voices == seq(NumChannels, _ => Voice(0, 0, 0, 0, 0, 0));
    }

    /**
     * The slot search of `addsfx`: slot 0 for an exclusive effect, else the
     * first free slot in 1..7, else the slot with the oldest start time
     * strictly below `gametic` (slot 0 when there is none).
     */
    static method FindSlot(sfxId: int, pos: seq<int>, start: seq<int>, gametic: int) returns (slot: int)
      requires |pos| == NumChannels && |start| == NumChannels
      ensures slot == ChooseSlot(sfxId, pos, start, gametic)
    {
      if IsExclusive(sfxId) {
        return 0;
      }
      var i := 1;
      var oldestNum := 0;
      var oldest := gametic;
      while i < NumChannels && pos[i] != 0
        invariant 1 <= i <= NumChannels
        invariant ScanFrom(pos, start, i, oldestNum, oldest) == ScanFrom(pos, start, 1, 0, gametic)
        decreases NumChannels - i
      {
        if start[i] < oldest {
          oldestNum := i;
          oldest := start[i];
        }
        i := i + 1;
      }
      slot := if i == NumChannels then oldestNum else i;
    }

    /** The writes of `addsfx` into one slot of the channel tables. */
    method SetUpChannel(slot: int, data: int, end: int, step: int, start: int, handle: int, id: int,
                        left: int, right: int)
      requires TablesSized() && Distinct() && 0 <= slot < NumChannels
      modifies channels, channelsEnd, channelStep, channelStepRemainder, channelStart
      modifies channelHandles, channelIds, sfxLeftVol, sfxRightVol
      ensures channels[..] == old(channels[..])[slot := data]
      ensures channelsEnd[..] == old(channelsEnd[..])[slot := end]
      ensures channelStep[..] == old(channelStep[..])[slot := step]
      ensures channelStepRemainder[..] == old(channelStepRemainder[..])[slot := 0]
      ensures channelStart[..] == old(channelStart[..])[slot := start]
      ensures channelHandles[..] == old(channelHandles[..])[slot := handle]
      ensures channelIds[..] == old(channelIds[..])[slot := id]
      ensures sfxLeftVol[..] == old(sfxLeftVol[..])[slot := left]
      ensures sfxRightVol[..] == old(sfxRightVol[..])[slot := right]
    {
      channels[slot] := data;
      channelsEnd[slot] := end;
      channelHandles[slot] := handle;
      channelStep[slot] := step;
      channelStepRemainder[slot] := 0;
      channelStart[slot] := start;
      sfxLeftVol[slot] := left;
      sfxRightVol[slot] := right;
      channelIds[slot] := id;
    }

    /**
     * `addsfx`: picks a slot with `FindSlot`, sets that channel up for
     * effect `sfxId` and returns a fresh handle. The `volume` argument is
     * not used; the gains come from `snd_SfxVolume` and the separation.
     */
    method AddSfx(sfxId: int, volume: int, step: int, separation: int, gametic: int) returns (handle: int)
      requires Valid() && Distinct()
      requires 0 <= sfxId < |sfxData|
      modifies channels, channelsEnd, channelStep, channelStepRemainder, channelStart
      modifies channelHandles, channelIds, sfxLeftVol, sfxRightVol, this`handleNums
      ensures Valid()
      ensures var slot := ChooseSlot(sfxId, old(channels[..]), old(channelStart[..]), gametic);
        var gains := PanGains(sfxVolume, separation);
        && channels[..] == old(channels[..])[slot := sfxData[sfxId]]
        && channelsEnd[..] == old(channelsEnd[..])[slot := sfxData[sfxId] + sfxLengths[sfxId] - 1]
        && channelStep[..] == old(channelStep[..])[slot := step % Unsigned32]
        && channelStepRemainder[..] == old(channelStepRemainder[..])[slot := 0]
        && channelStart[..] == old(channelStart[..])[slot := gametic]
        && channelHandles[..] == old(channelHandles[..])[slot := handle]
        && channelIds[..] == old(channelIds[..])[slot := sfxId]
        && sfxLeftVol[..] == old(sfxLeftVol[..])[slot := gains.left]
        && sfxRightVol[..] == old(sfxRightVol[..])[slot := gains.right]
      ensures handle == NextHandle(old(handleNums)) && handleNums == handle
    {
      var slot := FindSlot(sfxId, channels[..], channelStart[..], gametic);
      var nums := handleNums;
      if nums == 0 {
        nums := 100;
      }
      nums := nums - 1;
      var vol := sfxVolume * 4;
      var left := SideGain(vol, separation);
      var right := SideGain(vol, 256 - separation);
      ghost var pos, end, steps, rem, lefts, rights :=
        channels[..], channelsEnd[..], channelStep[..], channelStepRemainder[..], sfxLeftVol[..], sfxRightVol[..];
      SetUpChannel(slot, sfxData[sfxId], sfxData[sfxId] + sfxLengths[sfxId] - 1, step % Unsigned32, gametic,
                   nums, sfxId, left, right);
      SlotSetUpOk(pos, end, steps, rem, lefts, rights, slot, sfxId, step % Unsigned32, left, right);
      handleNums := nums;
      handle := nums;
    }

    /** A slot set up for a loaded effect keeps every channel readable. */
    lemma SlotSetUpOk(pos: seq<int>, end: seq<int>, steps: seq<int>, rem: seq<int>, lefts: seq<int>,
                      rights: seq<int>, slot: int, id: int, step: int, left: int, right: int)
      requires TablesSized() && 0 <= slot < NumChannels && 0 <= id < |sfxData|
      requires |pos| == NumChannels && |end| == NumChannels && |steps| == NumChannels
      requires |rem| == NumChannels && |lefts| == NumChannels && |rights| == NumChannels
      requires StateOk(Config(), MixerState(ZipVoices(pos, end, steps, rem, lefts, rights), musicPtr))
      requires SfxTableOk(|memory|, sfxData, sfxLengths)
      requires 0 <= step < Unsigned32
      requires channels[..] == pos[slot := sfxData[id]]
      requires channelsEnd[..] == end[slot := sfxData[id] + sfxLengths[id] - 1]
      requires channelStep[..] == steps[slot := step]
      requires channelStepRemainder[..] == rem[slot := 0]
      requires sfxLeftVol[..] == lefts[slot := left]
      requires sfxRightVol[..] == rights[slot := right]
      ensures StateOk(Config(), State())
    {
      var before := ZipVoices(pos, end, steps, rem, lefts, rights);
      var vs := State().voices;
      forall c | 0 <= c < NumChannels
        ensures VoiceOk(|memory|, vs[c])
      {
        if c != slot {
          assert vs[c] == before[c];
        }
      }
    }

    /**
     * `I_StartSound` once the listener geometry has produced `separation`:
     * looks the pitch up in the step table and adds the effect.
     */
    method StartSound(id: int, vol: int, pitch: int, separation: int, gametic: int) returns (handle: int)
      requires Valid() && Distinct()
      requires 0 <= id < |sfxData| && 0 <= pitch < 256
      modifies channels, channelsEnd, channelStep, channelStepRemainder, channelStart
      modifies channelHandles, channelIds, sfxLeftVol, sfxRightVol, this`handleNums
      ensures Valid()
      ensures var slot := ChooseSlot(id, old(channels[..]), old(channelStart[..]), gametic);
        var gains := PanGains(sfxVolume, separation);
        && channels[..] == old(channels[..])[slot := sfxData[id]]
        && channelsEnd[..] == old(channelsEnd[..])[slot := sfxData[id] + sfxLengths[id] - 1]
        && channelStep[..] == old(channelStep[..])[slot := stepTable[pitch] % Unsigned32]
        && channelStepRemainder[..] == old(channelStepRemainder[..])[slot := 0]
        && channelStart[..] == old(channelStart[..])[slot := gametic]
        && channelHandles[..] == old(channelHandles[..])[slot := handle]
        && channelIds[..] == old(channelIds[..])[slot := id]
        && sfxLeftVol[..] == old(sfxLeftVol[..])[slot := gains.left]
        && sfxRightVol[..] == old(sfxRightVol[..])[slot := gains.right]
      ensures handle == NextHandle(old(handleNums)) && handleNums == handle
    {
      handle := AddSfx(id, vol, stepTable[pitch], separation, gametic);
    }

    /** The channel clearing of `I_SetChannels`: every channel becomes inactive. */
    method SetChannels()
      requires Valid() && Distinct()
      modifies channels
      ensures Valid()
      ensures channels[..] == seq(NumChannels, _ => 0)
      ensures forall c :: 0 <= c < NumChannels ==> State().voices[c] == old(State()).voices[c].(pos := 0)
    {
      ClearChannels();
    }

    method ClearChannels()
      requires Valid() && Distinct()
      modifies channels
      ensures Valid()
      ensures channels[..] == seq(NumChannels, _ => 0)
      ensures forall c :: 0 <= c < NumChannels ==> State().voices[c] == old(State()).voices[c].(pos := 0)
    {
      ghost var before := State();
      for c := 0 to NumChannels
        invariant forall k :: 0 <= k < c ==> channels[k] == 0
        invariant forall k :: c <= k < NumChannels ==> channels[k] == before.voices[k].pos
      {
        channels[c] := 0;
      }
      assert channels[..] == seq(NumChannels, _ => 0);
      forall c | 0 <= c < NumChannels
        ensures State().voices[c] == before.voices[c].(pos := 0)
        ensures VoiceOk(|memory|, State().voices[c])
      {
        assert before.voices[c] == Voice(old(channels[c]), channelsEnd[c], channelStep[c],
                                         channelStepRemainder[c], sfxLeftVol[c], sfxRightVol[c]);
      }
    }

    /** `I_SetSfxVolume`: the effects volume is the square of the setting. */
    method SetSfxVolume(volume: int)
      requires Valid()
      modifies this`sfxVolume
      ensures Valid()
      ensures sfxVolume == volume * volume
    {
      sfxVolume := volume * volume;
    }

    /** `I_SetMusicVolume`: the music volume is the square of the setting. */
    method SetMusicVolume(volume: int)
      requires Valid()
      modifies this`musVolume
      ensures Valid()
      ensures musVolume == volume * volume
    {
      musVolume := volume * volume;
    }

    /** `I_InitMusic` without the synthesizer: music is marked initialized once. */
    method InitMusic()
      requires Valid()
      modifies this`musicInitialized
      ensures Valid()
      ensures musicInitialized
    {
      if musicInitialized {
        return;
      }
      musicInitialized := true;
    }

    /**
     * `I_PlaySong` with the song already rendered by the synthesizer
     * (`None` when it could not be loaded): nothing happens before music is
     * initialized; otherwise the old buffer is dropped and the new one, if
     * any, plays from its start.
     */
    method PlaySong(rendered: Option<seq<Int16>>)
      requires Valid()
      requires rendered.Some? ==> |rendered.value| >= 2 && |rendered.value| % 2 == 0
      modifies this`music, this`musicPtr
      ensures Valid()
      ensures !old(musicInitialized) ==> music == old(music) && musicPtr == old(musicPtr)
      ensures old(musicInitialized) ==> music == rendered
      ensures old(musicInitialized) && rendered.Some? ==> musicPtr == 0
      ensures rendered.None? ==> musicPtr == old(musicPtr)
    {
      if !musicInitialized {
        return;
      }
      if music.Some? {
        music := None;
      }
      if rendered.Some? {
        musicPtr := 0;
        music := rendered;
      }
    }

    /** `I_StopSong`: the music buffer, if any, is dropped. */
    method StopSong(handle: int)
      requires Valid()
      modifies this`music
      ensures Valid()
      ensures music.None?
    {
      if music.Some? {
        music := None;
      }
    }

    /** `I_ShutdownMusic`: when initialized, music is switched off and its buffer dropped. */
    method ShutdownMusic()
      requires Valid()
      modifies this`music, this`musicInitialized
      ensures Valid()
      ensures !musicInitialized && music.None?
      ensures !old(musicInitialized) ==> music == old(music)
    {
      if !musicInitialized {
        return;
      }
      musicInitialized := false;
      if music.Some? {
        music := None;
      }
    }

    /**
     * `I_ShutdownSound`: music is shut down and every channel cleared, so
     * that the callback mixes nothing afterwards.
     */
    method ShutdownSound()
      requires Valid() && Distinct()
      modifies this`music, this`musicInitialized, channels
      ensures Valid()
      ensures !musicInitialized && music.None?
      ensures channels[..] == seq(NumChannels, _ => 0)
      ensures forall c :: 0 <= c < NumChannels ==> State().voices[c] == old(State()).voices[c].(pos := 0)
    {
      ShutdownMusic();
      ClearChannels();
    }

    /**
     * The SDL callback `I_UpdateSound(void*, Uint8*, int)` on a stream of
     * `len` bytes, that is `len / 2` signed 16-bit values, left and right
     * interleaved: the stream becomes the output of `len / 4` frames and the
     * channels and music cursor end where those frames leave them.
     */
    method UpdateSound(stream: array<Int16>, len: int)
      requires Valid() && Distinct()
      requires 0 <= len && len % 4 <= 1 && stream.Length == len / 2
      modifies stream, channels, channelStepRemainder, this`musicPtr
      ensures Valid()
      ensures stream[..] == Output(old(Config()), old(State()), len / 4)
      ensures State() == StateAfter(old(Config()), old(State()), len / 4)
    {
      ghost var cfg, st0 := Config(), State();
      ProgressStarts(stream, cfg, st0);
      MixFrames(stream, len, cfg, st0);
      ProgressComplete(stream, cfg, st0, len / 4);
    }

    /**
     * The outer loop of the callback: `leftOut` runs over the left slots of
     * the stream two values at a time, and `interpolate` counts the phase
     * 1, 2, 3, 0, 1, ...
     */
    method MixFrames(stream: array<Int16>, len: int, ghost cfg: MixConfig, ghost st0: MixerState)
      requires Distinct() && 0 <= len && len % 4 <= 1 && stream.Length == len / 2
      requires FrameProgress(stream, cfg, st0, 0) == true
      modifies stream, channels, channelStepRemainder, this`musicPtr
      ensures FrameProgress(stream, cfg, st0, len / 4) == true
    {
      var leftOut := 0;
      var leftEnd := len / 2;
      var interpolate := 0;
      ghost var frames := len / 4;
      WholeFrames(len);
      ghost var frame := 0;
      while leftOut < leftEnd
        invariant 0 <= frame <= frames && leftOut == 2 * frame && interpolate == frame % 4
        invariant FrameProgress(stream, cfg, st0, frame) == true
        decreases leftEnd - leftOut
      {
        PhaseFollows(frame);
        interpolate := (interpolate + 1) % 4;
        MixNextFrame(stream, leftOut, interpolate, cfg, st0, frame);
        leftOut := leftOut + 2;
        frame := frame + 1;
      }
      assert frame == len / 4;
    }

    lemma ProgressStarts(stream: array<Int16>, cfg: MixConfig, st0: MixerState)
      requires Valid() && cfg == Config() && st0 == State()
      ensures FrameProgress(stream, cfg, st0, 0)
    {
      assert stream[..0] == [];
    }

    lemma ProgressComplete(stream: array<Int16>, cfg: MixConfig, st0: MixerState, frames: nat)
      requires FrameProgress(stream, cfg, st0, frames) && stream.Length == 2 * frames
      ensures Valid()
      ensures stream[..] == Output(cfg, st0, frames)
      ensures State() == StateAfter(cfg, st0, frames)
    {
      assert stream[..] == stream[..2 * frames];
    }

    /**
     * The callback after `frame` frames of a call that started in `st0`:
     * the configuration is untouched, the state is the one `frame` steps
     * reach, and the stream so far holds the output of those frames.
     * Contracts state it as `FrameProgress(...) == true` so that it is
     * carried from call to call as one fact instead of being split into
     * its conjuncts at every use.
     */
    ghost predicate FrameProgress(stream: array<Int16>, cfg: MixConfig, st0: MixerState, frame: nat)
      reads this, channels, channelsEnd, channelStep, channelStepRemainder, sfxLeftVol, sfxRightVol, stream
    {
      && Setup() && Config() == cfg && StateOk(cfg, st0)
      && 2 * frame <= stream.Length
      && State() == StateAfter(cfg, st0, frame)
      && stream[..2 * frame] == Output(cfg, st0, frame)
    }

    /** `len >> 1` slots hold `len / 4` whole left/right pairs when at most one byte is left over. */
    lemma WholeFrames(len: int)
      requires 0 <= len && len % 4 <= 1
      ensures len / 2 == 2 * (len / 4)
    {
    }

    /** `++interpolate &= 3` moves the phase of frame `k` on to that of frame `k + 1`. */
    lemma PhaseFollows(k: nat)
      ensures (k % 4 + 1) % 4 == Phase(k)
      ensures Phase(k) == (k + 1) % 4
    {
    }

    /** Frame `frame` of a callback that started in `st0`: the state and the stream move on by one frame. */
    method MixNextFrame(stream: array<Int16>, leftOut: int, phase: int,
                        ghost cfg: MixConfig, ghost st0: MixerState, ghost frame: nat)
      requires Distinct() && FrameProgress(stream, cfg, st0, frame) == true
      requires leftOut == 2 * frame && leftOut + 2 <= stream.Length && phase == Phase(frame)
      modifies stream, channels, channelStepRemainder, this`musicPtr
      ensures FrameProgress(stream, cfg, st0, frame + 1) == true
    {
      MixFrame(stream, leftOut, phase);
      OneMoreFrame(cfg, st0, frame, frame + 1);
    }

    /**
     * One iteration of the callback's outer loop at phase `phase`: the
     * channels and the music are mixed, and the saturated left/right pair is
     * written at `leftOut`; the stream before it is left alone.
     */
    method MixFrame(stream: array<Int16>, leftOut: int, phase: int)
      requires Valid() && Distinct()
      requires 0 <= leftOut && leftOut + 2 <= stream.Length
      modifies stream, channels, channelStepRemainder, this`musicPtr
      ensures Valid() && Config() == old(Config())
      ensures State() == Step(old(Config()), old(State()), phase)
      ensures stream[..leftOut + 2] == old(stream[..leftOut]) + FrameOut(old(Config()), old(State()), phase)
    {
      ghost var cfg, before := Config(), State();
      var dl, dr := MixChannels(phase);
      var ml, mr := MixMusic();
      dl := dl + ml;
      dr := dr + mr;
      stream[leftOut] := ClampToInt16(dl);
      stream[leftOut + 1] := ClampToInt16(dr);
      assert State().voices == Step(cfg, before, phase).voices;
    }

    /** The music part of one frame: the pair at the cursor scaled by the music volume, and the cursor moved on. */
    method MixMusic() returns (ml: int, mr: int)
      requires MusicOk(music, musicPtr)
      modifies this`musicPtr
      ensures MusicOk(music, musicPtr)
      ensures ml == MusicLeft(Config(), old(musicPtr)) && mr == MusicRight(Config(), old(musicPtr))
      ensures musicPtr == MusicAfter(music, old(musicPtr))
    {
      ml, mr := 0, 0;
      if music.Some? {
        var msample: int := music.value[musicPtr];
        ml := (musVolume * msample) / 256;
        ProductIsMultiplication(musVolume, msample);
        msample := music.value[musicPtr + 1];
        mr := (musVolume * msample) / 256;
        ProductIsMultiplication(musVolume, msample);
        musicPtr := musicPtr + 2;
        if musicPtr >= |music.value| {
          musicPtr := 0;
        }
      }
    }

    /**
     * The inner loop of the callback over the eight channels at phase
     * `phase`: the summed contributions of all channels, each active
     * channel stepped on phase 0.
     */
    method MixChannels(phase: int) returns (dl: int, dr: int)
      requires Valid() && Distinct()
      modifies channels, channelStepRemainder
      ensures Valid()
      ensures dl == MixedLeft(memory, old(State()).voices, phase, NumChannels)
      ensures dr == MixedRight(memory, old(State()).voices, phase, NumChannels)
      ensures State() == old(State()).(voices := SteppedUpTo(old(State()).voices, phase, NumChannels))
    {
      ghost var st := State();
      ghost var vs := st.voices;
      dl, dr := 0, 0;
      for chan := 0 to NumChannels
        invariant State() == st.(voices := SteppedUpTo(vs, phase, chan))
        invariant TablesSized() && StateOk(Config(), State())
        invariant dl == MixedLeft(memory, vs, phase, chan) && dr == MixedRight(memory, vs, phase, chan)
      {
        var l, r := MixChannel(chan, phase);
        SteppedOneMore(memory, vs, phase, chan, chan + 1);
        dl := dl + l;
        dr := dr + r;
      }
    }

    /**
     * The body of the channel loop for channel `chan`: an active channel
     * contributes its interpolated sample times each gain, and on phase 0
     * its cursor steps on; an inactive channel contributes nothing.
     */
    method MixChannel(chan: int, phase: int) returns (l: int, r: int)
      requires TablesSized() && Distinct() && 0 <= chan < NumChannels
      requires VoiceOk(|memory|, State().voices[chan])
      modifies channels, channelStepRemainder
      ensures l == VoiceLeft(memory, old(State()).voices[chan], phase)
      ensures r == VoiceRight(memory, old(State()).voices[chan], phase)
      ensures State() == old(State()).(voices := old(State()).voices[chan := VoiceAfter(old(State()).voices[chan], phase)])
    {
      ghost var before := State();
      l, r := 0, 0;
      if channels[chan] != 0 {
        var sample: int := memory[channels[chan]];
        var isample: int;
        if phase == 1 || phase == 2 {
          isample := (sample * 4) - (0x80 * 4);
        } else {
          var nsample: int := memory[channels[chan] + 1];
          if phase == 3 {
            isample := (sample * 3 + nsample) - (0x80 * 3 + 0x80);
          } else {
            isample := (sample + nsample * 3) - (0x80 * 3 + 0x80);
          }
        }
        l := (isample * sfxLeftVol[chan]) / 32;
        r := (isample * sfxRightVol[chan]) / 32;
        ProductIsMultiplication(isample, sfxLeftVol[chan]);
        ProductIsMultiplication(isample, sfxRightVol[chan]);
        if phase == 0 {
          var rem := (channelStepRemainder[chan] + channelStep[chan]) % Unsigned32;
          channels[chan] := channels[chan] + rem / 0x1_0000;
          channelStepRemainder[chan] := rem % 0x1_0000;
          if channels[chan] >= channelsEnd[chan] {
            channels[chan] := 0;
          }
        }
      }
      assert State().voices == before.voices[chan := VoiceAfter(before.voices[chan], phase)];
    }
  }
}
