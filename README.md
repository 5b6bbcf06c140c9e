# Software sound mixer of the SDL sound back end

A model of the fixed-channel software mixer in `neo/doom/i_sound_sdl.cpp`. This is the classic Doom sound back end as shipped in RBDOOM-3-BFG.

The mixer keeps eight internal channels as parallel tables:

- sample cursor and end;
- 16.16 step and remainder;
- start tic, handle and effect number;
- left and right gain.

Around those tables sit two volume settings, an optional rendered music buffer with its cursor, and a rolling handle counter.

The model mirrors the program's structure:

- `SoundTypes` holds the sample types (`Byte`, `Int16`) and the 16-bit saturation.
  - It also defines `Product`, a repeated-addition form of `*`. The mixing definitions are written with it so that the solver never meets a product of two unknowns; `ProductIsMultiplication` proves it equals `*`.
- `ChannelAlloc` holds the pure decisions of `addsfx`:
  - the slot search (exclusive effects, first free slot, oldest eviction);
  - the quadratic pan law;
  - the wrap-around handle counter.
- `MixEngine` is the SDL callback `I_UpdateSound(void*, Uint8*, int)` as a function of the channel state.
  - It computes one stereo frame at a time: four-phase interpolation, stepping on phase 0 only, the circular music buffer, and saturation to 16 bits.
  - `Output` and `StateAfter` give the whole callback.
- `SfxPadding` is the padding arithmetic of `getsfx`.
  - `GetSfxAsWritten` is the copy-and-fill of `getsfx` with its length `(size + 7) & ~8` as written (see Findings).
  - `GetSfx` is the same fill with the length rounded up to a multiple of 8.
- `SfxLoader` is the loop of `I_InitSound` that fills the effect table, including the aliasing of linked effects (see Findings).
- `SoundMixer.Mixer` is the mutable state: a class whose nine `array<int>` fields are the channel tables.
  - `AddSfx` and `StartSound` update the tables in place. Each is proved to write exactly the chosen slot, with the values `ChooseSlot` and `PanGains` give.
  - `UpdateSound` is the callback's `while` loop over the output buffer, with the inner `for` loop over the channels. It is proved to write `Output` and to leave the channels in `StateAfter`.
  - The remaining methods are the channel clears of `I_SetChannels` and `I_ShutdownSound`, the volume setters, and the music switches.

Several things become inputs rather than being computed:

- The sample memory of every loaded effect is one byte sequence, `memory`. A channel cursor is an index into it, and 0 stands for NULL (an inactive channel).
- The effect table (`S_sfx[id].data`, `lengths[id]`) and the pitch step table are given to the constructor.
- The current tic (`I_GetTime()`) is a parameter of `AddSfx`.

## Model

| member | source | states |
|---|---|---|
| SoundTypes.ClampToInt16 | neo/doom/i_sound_sdl.cpp:491-505 | the written value is the 16-bit value nearest the accumulator, and equals it when it is in range (saturation, never wrap-around) |
| SoundTypes.ProductIsMultiplication | neo/doom/i_sound_sdl.cpp:465-466 | the repeated-addition product used by the mixing definitions equals `isample * gain` |
| ChannelAlloc.ExclusiveUsesSlotZero | neo/doom/i_sound_sdl.cpp:220-227 | sawup, sawidl, sawful, sawhit, stnmov and pistol always get slot 0, whatever the channels hold |
| ChannelAlloc.ScanFrom | neo/doom/i_sound_sdl.cpp:232-239 | the search loop stops at the end or at an inactive channel, and its remembered oldest slot is the initial one or one it passed |
| ChannelAlloc.ChooseSlot | neo/doom/i_sound_sdl.cpp:219-247 | the chosen slot is always one of the eight channels |
| ChannelAlloc.ScanFindsFirstFree | neo/doom/i_sound_sdl.cpp:232-239 | when an inactive channel lies ahead, the scan stops at the first one and every channel it passed is active |
| ChannelAlloc.FirstFreeSlotWins | neo/doom/i_sound_sdl.cpp:232-247 | for a non-exclusive effect with an inactive slot in 1..7, the slot taken is the lowest inactive slot k >= 1 |
| ChannelAlloc.ScanTracksOldest | neo/doom/i_sound_sdl.cpp:213-239 | over all-active channels the scan runs to the end and keeps either its running oldest, or the first slot with the strictly smallest start time below it, which is no later than any slot it passed |
| ChannelAlloc.OldestIsEvicted | neo/doom/i_sound_sdl.cpp:213-247 | with slots 1..7 all active, slot 0 is taken exactly when no start time is below the current tic; otherwise the slot taken is the first in 1..7 with the strictly smallest start time, which is below the current tic (slot 0 is never a candidate) |
| ChannelAlloc.SideGainBounds | neo/doom/i_sound_sdl.cpp:274-276 | `v - (v*s*s >> 16)` lies in [0, v] for s in [0, 256] |
| ChannelAlloc.PanGainsBounded | neo/doom/i_sound_sdl.cpp:273-276 | both gains lie in [0, 4 * snd_SfxVolume] for a separation in [0, 256] |
| ChannelAlloc.PanCentredIsBalanced | neo/doom/i_sound_sdl.cpp:273-276 | separation 128 gives equal left and right gains |
| ChannelAlloc.PanMirror | neo/doom/i_sound_sdl.cpp:273-276 | separation s and 256 - s give the same gains with left and right swapped |
| ChannelAlloc.PanHardLeft | neo/doom/i_sound_sdl.cpp:273-276 | separation 0 gives full volume on the left and nothing on the right |
| ChannelAlloc.SideGainMonotone | neo/doom/i_sound_sdl.cpp:274-276 | one side's gain never grows as its separation grows |
| ChannelAlloc.PanMonotone | neo/doom/i_sound_sdl.cpp:273-276 | moving a source right never raises the left gain nor lowers the right gain |
| ChannelAlloc.NextHandle | neo/doom/i_sound_sdl.cpp:257-262 | the handle issued is in [0, 99] and is the counter minus 1 modulo 100 (after 0 comes 99) |
| ChannelAlloc.HandleAfterCountsDown | neo/doom/i_sound_sdl.cpp:257-262 | after n calls the counter is the initial one minus n, modulo 100 |
| ChannelAlloc.HandlesDistinctWithinCycle | neo/doom/i_sound_sdl.cpp:257-262 | any 100 consecutive calls issue distinct handles, and call 100 repeats the first |
| MixEngine.Interpolated | neo/doom/i_sound_sdl.cpp:444-463 | the interpolated 10-bit sample of an active channel lies in [-512, 508] |
| MixEngine.AdvanceIsFixedPointStep | neo/doom/i_sound_sdl.cpp:471-473 | the phase-0 step moves the 16.16 cursor `pos.rem` by exactly `step` when it neither wraps nor reaches the end |
| MixEngine.VoiceAfterOk | neo/doom/i_sound_sdl.cpp:468-476 | after a frame the remainder is below 65536, the cursor is 0 or at or after where it was and before the end, and end, step and gains are unchanged |
| MixEngine.SteppedOneMore | neo/doom/i_sound_sdl.cpp:438-478 | one more pass of the channel loop steps channel k alone and adds its contributions to both sums |
| MixEngine.Step | neo/doom/i_sound_sdl.cpp:432-510 | one outer iteration steps every channel by itself and moves the music cursor on one pair, keeping the state readable |
| MixEngine.StateAfter | neo/doom/i_sound_sdl.cpp:432-510 | any number of frames keeps every channel and the music cursor readable |
| MixEngine.Output | neo/doom/i_sound_sdl.cpp:427-432 | n frames write exactly 2n values, so a buffer of `len` bytes gets `len/2` shorts |
| MixEngine.OneMoreFrame | neo/doom/i_sound_sdl.cpp:432-510 | one more frame appends that frame's left/right pair and takes one step at the next phase |
| MixEngine.OutputFrameAt | neo/doom/i_sound_sdl.cpp:491-509 | stream values 2k and 2k+1 are frame k's left and right accumulators at phase (k+1) % 4 (1, 2, 3, 0, ...), saturated |
| MixEngine.StatesSplitAtWholeCycles | neo/doom/i_sound_sdl.cpp:423-436 | when the earlier of two callbacks covers whole four-frame cycles, the state after both is the one a single callback of the total length reaches |
| MixEngine.OutputsSplitAtWholeCycles | neo/doom/i_sound_sdl.cpp:423-436 | in the same case the two streams, one after the other, are the stream a single callback of the total length writes: restarting the phase at each callback is invisible |
| MixEngine.MusicStepModulo | neo/doom/i_sound_sdl.cpp:483-488 | the music cursor's step-and-reset equals adding 2 modulo the buffer length |
| MixEngine.MusicCursorWraps | neo/doom/i_sound_sdl.cpp:480-489 | with music present, after n frames the cursor is the start one plus 2n modulo the buffer length |
| MixEngine.MusicBufferLoops | neo/doom/i_sound_sdl.cpp:480-489 | a buffer of L samples played from its start is back at its start after L/2 frames |
| MixEngine.NoMusicKeepsCursor | neo/doom/i_sound_sdl.cpp:480-489 | without a music buffer the cursor never moves |
| MixEngine.RunChannelEvolution | neo/doom/i_sound_sdl.cpp:468-476 | over any number of frames a channel keeps end, step and gains, never moves backward while active, and an inactive channel stays untouched |
| MixEngine.StepOffPhaseZeroKeepsChannels | neo/doom/i_sound_sdl.cpp:468-476 | frames at phases 1, 2 and 3 move no channel |
| MixEngine.SilentChannelsMixNothing | neo/doom/i_sound_sdl.cpp:441-466 | inactive channels contribute nothing to either accumulator |
| MixEngine.SilenceIn | neo/doom/i_sound_sdl.cpp:432-510 | with every channel inactive and no music, the callback writes zeros and changes nothing |
| SfxPadding.AndNotEight | neo/doom/i_sound_sdl.cpp:176 | `x & ~8` keeps x or subtracts 8, clears bit 3 and keeps the low three bits |
| SfxPadding.PaddedSizeAsWrittenMisses | neo/doom/i_sound_sdl.cpp:176 | the length as written is 0 for a 1-byte lump, 7 for an 8-byte lump and 23 for a 16-byte lump; the last two are not multiples of 8 |
| SfxPadding.PaddedSizeAsWrittenMultipleOfEight | neo/doom/i_sound_sdl.cpp:176 | the length as written is a multiple of 8 exactly when the lump size is 1 modulo 8 |
| SfxPadding.PaddedSizeAsWrittenHoldsLump | neo/doom/i_sound_sdl.cpp:176-186 | as written, the buffer of length + 8 bytes holds the whole lump and the region after the header covers every sample; the length is within one below and seven above the size |
| SfxPadding.PaddedSizeAsWrittenTooShort | neo/doom/i_sound_sdl.cpp:176 | as written, the length is below the two bytes the mixer reads exactly for lumps of one or two bytes |
| SfxPadding.AsWrittenTinyLumpOverruns | neo/doom/i_sound_sdl.cpp:176-195 | as written, a 1- or 2-byte lump gets a buffer of at most 9 bytes, so the byte after the first sample (offset 9), read on the phase-3 frame, is outside it; for a 1-byte lump the first sample (offset 8) is too |
| SfxPadding.PaddedSize | neo/doom/i_sound_sdl.cpp:176 | the corrected length is a multiple of 8, at least the lump size and less than 8 above it |
| SfxPadding.PaddedSizeIsLeast | neo/doom/i_sound_sdl.cpp:176 | the corrected length is the least multiple of 8 holding the lump |
| SfxPadding.Padded | neo/doom/i_sound_sdl.cpp:179-186 | the padded buffer is the padded length plus 8 bytes long |
| SfxPadding.PaddedContents | neo/doom/i_sound_sdl.cpp:184-186 | the buffer starts with the lump and holds only silence (128) after it |
| SfxPadding.PaddedRegionPlayable | neo/doom/i_sound_sdl.cpp:179-195 | with the corrected length, the region handed out (offset 8, the padded length) ends at the buffer end, covers the lump, and is at least 8 bytes for a non-empty lump |
| SfxPadding.FillPadded | neo/doom/i_sound_sdl.cpp:179-186 | the copy loop and the fill loop build exactly `Padded(lump, paddedSize)` in a fresh buffer |
| SfxPadding.GetSfxAsWritten | neo/doom/i_sound_sdl.cpp:172-195 | `getsfx` as written: the buffer is `Padded` to the as-written length, the data offset is 8 and the as-written length is returned |
| SfxPadding.GetSfx | neo/doom/i_sound_sdl.cpp:172-195 | `getsfx` with the corrected length: the buffer is `Padded` to `PaddedSize`, the data offset is 8 and that length is returned |
| SfxLoader.LinkedLengthIndex | neo/doom/i_sound_sdl.cpp:578 | the index a linked effect's length is read at is at most the link's index, equal to it for divisor 1, and 0 whenever the link's index is below the divisor |
| SfxLoader.LoadEffects | neo/doom/i_sound_sdl.cpp:566-580 | the loading loop over effects 1 onwards builds exactly `LoadedUpTo` of all effects, from zeroed tables |
| SfxLoader.UnreachedStaysZero | neo/doom/i_sound_sdl.cpp:566 | entry 0 is never written and entries the loop has not reached are still zero |
| SfxLoader.AsWrittenLinkedLengthIsZero | neo/doom/i_sound_sdl.cpp:575-579 | as written, a linked effect whose link index is below `sizeof(sfxinfo_t)` ends with length 0 and the data its link had when it was reached |
| SfxLoader.AsWrittenLinkedTableRejected | neo/doom/i_sound_sdl.cpp:566-580 | as written, an effect linked to an earlier loaded effect gets that effect's non-null pointer and length 0, so the table breaks `SfxTableOk` |
| SfxLoader.ChaingunLinkedToPistol | neo/doom/i_sound_sdl.cpp:568-578 | a chaingun-like effect linked to effect 1 gets data 8 and length 0 as written, and length 16, the pistol's, with the intended index |
| SfxLoader.CorrectedTableOk | neo/doom/i_sound_sdl.cpp:566-580 | with the length read at the link's own index, the loaded table satisfies `SfxTableOk` whenever every `getsfx` result does, and a linked effect shares the data and length of the earlier effect it links to |
| SoundMixer.SoundIsPlaying | neo/doom/i_sound_sdl.cpp:375-379 | the query always answers 0 |
| SoundMixer.Mixer.constructor | neo/doom/i_sound_sdl.cpp:98-145 | at start-up every channel table is zero, both volumes are 0, there is no music, and every channel is inactive |
| SoundMixer.Mixer.FindSlot | neo/doom/i_sound_sdl.cpp:213-247 | the search loop of `addsfx` returns the slot `ChooseSlot` specifies |
| SoundMixer.Mixer.SetUpChannel | neo/doom/i_sound_sdl.cpp:252-279 | exactly the chosen slot of each of the nine tables is written |
| SoundMixer.Mixer.SlotSetUpOk | neo/doom/i_sound_sdl.cpp:252-265 | setting a slot up for a loaded effect keeps every channel readable by the mixer |
| SoundMixer.Mixer.AddSfx | neo/doom/i_sound_sdl.cpp:205-281 | the slot `ChooseSlot` picks gets the sample start, the end `start + length - 1`, the step modulo 2^32, remainder 0, the current tic, the new handle, the effect number and the `PanGains` gains; every other slot is unchanged; the handle is `NextHandle` of the counter, and `volume` is ignored |
| SoundMixer.Mixer.StartSound | neo/doom/i_sound_sdl.cpp:360-364 | the pitch is looked up in the step table; the slot `ChooseSlot` picks gets the sample start, the end `start + length - 1`, the looked-up step modulo 2^32, remainder 0, the current tic, the new handle, the effect number and the `PanGains` gains; every other slot is unchanged, and the handle is `NextHandle` of the counter |
| SoundMixer.Mixer.SetChannels | neo/doom/i_sound_sdl.cpp:294-297 | every channel pointer becomes 0 and nothing else about a channel changes |
| SoundMixer.Mixer.ClearChannels | neo/doom/i_sound_sdl.cpp:534-537 | every channel pointer becomes 0 and nothing else about a channel changes |
| SoundMixer.Mixer.ShutdownSound | neo/doom/i_sound_sdl.cpp:524-537 | music is shut down and dropped, and every channel inactive |
| SoundMixer.Mixer.SetSfxVolume | neo/doom/i_sound_sdl.cpp:304-307 | the effects volume becomes the square of the setting |
| SoundMixer.Mixer.SetMusicVolume | neo/doom/i_sound_sdl.cpp:718-721 | the music volume becomes the square of the setting |
| SoundMixer.Mixer.InitMusic | neo/doom/i_sound_sdl.cpp:618-623 | music is marked initialized |
| SoundMixer.Mixer.ShutdownMusic | neo/doom/i_sound_sdl.cpp:598-609 | music ends up uninitialized and without a buffer; before initialization nothing changes |
| SoundMixer.Mixer.PlaySong | neo/doom/i_sound_sdl.cpp:639-686 | before initialization nothing changes; otherwise the rendered buffer replaces the old one and plays from its start, and with no rendered song the cursor is unchanged |
| SoundMixer.Mixer.StopSong | neo/doom/i_sound_sdl.cpp:696-705 | the music buffer is dropped |
| SoundMixer.Mixer.UpdateSound | neo/doom/i_sound_sdl.cpp:399-511 | a stream of `len` bytes (`len` 0 or 1 modulo 4) becomes `Output` of `len/4` frames from the state at entry, and channels and music cursor become `StateAfter` those frames |
| SoundMixer.Mixer.MixFrames | neo/doom/i_sound_sdl.cpp:420-436 | the outer `while` loop with its counters covers every frame of the stream, at the phase sequence 1, 2, 3, 0 |
| SoundMixer.Mixer.MixNextFrame | neo/doom/i_sound_sdl.cpp:432-510 | one iteration extends the stream written so far and the state by exactly one frame |
| SoundMixer.Mixer.MixFrame | neo/doom/i_sound_sdl.cpp:434-509 | one iteration writes the saturated `FrameOut` pair at `leftOut`, leaves the stream before it alone, and takes one `Step` |
| SoundMixer.Mixer.MixChannels | neo/doom/i_sound_sdl.cpp:438-478 | the channel loop returns the summed contributions of all eight channels and steps each of them |
| SoundMixer.Mixer.MixChannel | neo/doom/i_sound_sdl.cpp:441-477 | one channel contributes `VoiceLeft` and `VoiceRight`, and only it moves, by `VoiceAfter` |
| SoundMixer.Mixer.MixMusic | neo/doom/i_sound_sdl.cpp:480-489 | each sample of the pair at the cursor contributes `(snd_MusVolume * sample) >> 8` to its accumulator, and the cursor moves as `MusicAfter` says (two on, back to the start at the end) |

## Left out

- SDL device handling (`SDL_OpenAudio`, `SDL_PauseAudio`, `SDL_CloseAudio`, `SDL_LockAudio`/`SDL_UnlockAudio`) is I/O and concurrency. Each control operation is modelled as atomic with respect to the callback.
- `Music_initialized` is modelled; `Sound_initialized` is not, since nothing in the modelled core reads it.
- Timidity and the MUS-to-MIDI conversion are foreign code.
  - `PlaySong` takes the rendered song as an input, `None` when it could not be loaded.
  - `InitMusic` only sets the flag, since the synthesizer set-up is left out.
- In `I_InitSound`, the SDL device set-up is I/O, and the WAD lookups, `Z_Malloc`/`Z_Free` and `malloc`/`free` are foreign calls.
  - The loading loop itself (lines 566-580) is `SfxLoader.LoadEffects`. What `getsfx` returns for each effect is an input, and so is the static link table of `sounds.c`.
  - The mixer's constructor takes the loaded effect table as an input satisfying `SfxTableOk`: either no data, or a region of at least two bytes inside `memory`.
- SoundMixer.Mixer.constructor: requires `SfxTableOk`, which the loader as written breaks at line 578 for the linked effects (`SfxLoader.AsWrittenLinkedTableRejected`). The mixer's channels for such an effect, whose end lies one byte before its start, are not modelled. The table the corrected loader builds satisfies it (`SfxLoader.CorrectedTableOk`).
- The step table (`I_SetChannels`, line 301) is built with `pow` on doubles. It is a constructor input.
- The separation computed in `I_StartSound` (lines 335-357) is floating-point geometry on game objects. It is a parameter of `StartSound`.
- `I_GetTime()` is a clock. The current tic is a parameter of `AddSfx` and `StartSound`.
- The no-op stubs are left out because they do nothing: `I_StopSound`, `I_UpdateSoundParams`, `I_PauseSong`, `I_ResumeSong`, `I_RegisterSong`, `I_UnRegisterSong`, `I_SubmitSound` and the parameterless `I_UpdateSound`.
- `sounds.h` is not part of this model. The numbers of the exclusive effects are those of the game's sound enumeration: pistol 1, sawup 10, sawidl 11, sawful 12, sawhit 13, stnmov 22.
- Right shifts by 5, 8 and 16 of possibly negative `int`s (lines 465-466, 484-486, 274-276) are modelled as floor division. This is the arithmetic shift every supported compiler emits.
- Signed 32-bit overflow is not modelled. All products and sums are exact integers, which the game's value ranges keep far from the `int` limits. The unsigned remainder arithmetic of line 471 is modelled modulo 2^32.
- SoundMixer.Mixer.UpdateSound: requires `len` to be 0 or 1 modulo 4. For such a length the loop writes `len/4` whole frames, and a trailing odd byte is not part of the modelled `Int16` stream. For a length of 2 or 3 modulo 4 the C loop writes its last right sample past the end of the buffer, and that behaviour is not modelled.
- SoundMixer.Mixer.StartSound: requires the pitch to be in [0, 255], the bounds of `steptable`, which the C code does not check.
- SoundMixer.Mixer.PlaySong: requires a rendered song to hold at least one whole stereo pair. An empty song would make the callback read past the buffer.
- SfxPadding.GetSfx: pads to the corrected multiple of 8, not to the length as written; `SfxPadding.GetSfxAsWritten` is the as-written loader, and the effect table given to the mixer is an input either way.
- The `unsigned short` type of `handlenums` is not modelled. Its value always stays in [0, 99], so it is an `int` here.
- Update in place is modelled for the channel tables and the output stream. The music buffer is modelled as a value: it is never written after rendering.

## Findings

| source | as written | input that shows it | evidently intended | confidence | as-written member | corrected member |
|---|---|---|---|---|---|---|
| neo/doom/i_sound_sdl.cpp:176 | `paddedsize = (size + 7) & ~8` clears bit 3 instead of rounding up to a multiple of 8, so the length is in general not a multiple of 8 (an 8-byte lump gets 7, which loses no sample) and is below the two bytes the mixer reads for 1- and 2-byte lumps | a 2-byte lump gets length 1 and a 9-byte buffer, and the mixer's phase-3 read of the byte after its first sample (offset 9) lies past the buffer; a 1-byte lump gets length 0 and an 8-byte buffer, so even the first read (offset 8) is past it; lumps with their full 8-byte header are never short | `(size + 7) & ~7`, the lump size rounded up to a multiple of 8 | medium (harmless for every lump that holds its header), not executed | SfxPadding.AsWrittenTinyLumpOverruns | SfxPadding.GetSfx |
| neo/doom/i_sound_sdl.cpp:578 | `lengths[(S_sfx[i].link - S_sfx)/sizeof(sfxinfo_t)]` divides a pointer difference, which is already an element index, by the element size | the chaingun, linked to the pistol (index 1): 1 / `sizeof(sfxinfo_t)` is 0, and `lengths[0]` is never set, so the chaingun gets the pistol's pointer with length 0; `addsfx` then sets the channel's end one byte before its start | `lengths[S_sfx[i].link - S_sfx]`, the length of the effect linked to | high for the arithmetic, not executed | SfxLoader.AsWrittenLinkedTableRejected | SfxLoader.CorrectedTableOk |
