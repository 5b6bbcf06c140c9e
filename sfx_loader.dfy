/**
 * The effect table `I_InitSound` builds (`S_sfx[i].data`, `lengths[i]` for
 * `i` in `1 .. NUMSFX-1`): an effect without a link gets what `getsfx`
 * loaded for it, and a linked effect (the chaingun, linked to the pistol)
 * takes the data of the effect it links to and a length looked up in
 * `lengths` at `(link - S_sfx) / sizeof(sfxinfo_t)`.
 *
 * A link is the index of the effect it points at. The look-up index is
 * modelled with a `divisor`: `sizeof(sfxinfo_t)` as written, 1 for the
 * index the comment describes.
 */
module SfxLoader {
  import opened SoundTypes
  import SoundMixer

  /** The two tables: sample pointers (0 when not loaded) and lengths. */
  datatype SfxTable = SfxTable(data: seq<int>, lengths: seq<int>)

  /**
   * What the loader is given: one link, one loaded pointer and one loaded
   * length per effect, every link inside the effect array, and a positive
   * divisor.
   */
  predicate LoaderInput(links: seq<Option<nat>>, fetchedData: seq<int>, fetchedLengths: seq<int>, divisor: nat)
  {
    && 1 <= |links| && |fetchedData| == |links| && |fetchedLengths| == |links|
    && 1 <= divisor
    && forall i :: 0 <= i < |links| && links[i].Some? ==> links[i].value < |links|
  }

  /** Where a linked effect's length is looked up: `(link - S_sfx) / sizeof(sfxinfo_t)`. */
  function LinkedLengthIndex(link: nat, divisor: nat): (r: nat)
    requires 1 <= divisor
    ensures r <= link
    ensures divisor == 1 ==> r == link
    ensures link < divisor ==> r == 0
  {
    link / divisor
  }

  /** One iteration of the loading loop, for effect `i`. */
  function LoadStep(links: seq<Option<nat>>, fetchedData: seq<int>, fetchedLengths: seq<int>, divisor: nat,
                    t: SfxTable, i: nat): (next: SfxTable)
    requires LoaderInput(links, fetchedData, fetchedLengths, divisor)
    requires |t.data| == |links| && |t.lengths| == |links| && i < |links|
    ensures |next.data| == |links| && |next.lengths| == |links|
  {
    match links[i]
    case None => SfxTable(t.data[i := fetchedData[i]], t.lengths[i := fetchedLengths[i]])
    case Some(l) => SfxTable(t.data[i := t.data[l]], t.lengths[i := t.lengths[LinkedLengthIndex(l, divisor)]])
  }

  /** The tables once the loop has handled effects `1 .. k-1`, from the zero-initialised statics. */
  function LoadedUpTo(links: seq<Option<nat>>, fetchedData: seq<int>, fetchedLengths: seq<int>, divisor: nat,
                      k: nat): (t: SfxTable)
    requires LoaderInput(links, fetchedData, fetchedLengths, divisor)
    requires 1 <= k <= |links|
    ensures |t.data| == |links| && |t.lengths| == |links|
  {
    if k == 1 then SfxTable(seq(|links|, _ => 0), seq(|links|, _ => 0))
    else LoadStep(links, fetchedData, fetchedLengths, divisor,
                  LoadedUpTo(links, fetchedData, fetchedLengths, divisor, k - 1), k - 1)
  }

  /** The loading loop of `I_InitSound` over fresh, zeroed tables. */
  method LoadEffects(links: seq<Option<nat>>, fetchedData: seq<int>, fetchedLengths: seq<int>, divisor: nat)
      returns (data: array<int>, lengths: array<int>)
    requires LoaderInput(links, fetchedData, fetchedLengths, divisor)
    ensures fresh(data) && fresh(lengths)
    ensures SfxTable(data[..], lengths[..]) == LoadedUpTo(links, fetchedData, fetchedLengths, divisor, |links|)
  {
    data := new int[|links|](_ => 0);
    lengths := new int[|links|](_ => 0);
    assert SfxTable(data[..], lengths[..]) == LoadedUpTo(links, fetchedData, fetchedLengths, divisor, 1);
    var i := 1;
    while i < |links|
      invariant 1 <= i <= |links|
      invariant SfxTable(data[..], lengths[..]) == LoadedUpTo(links, fetchedData, fetchedLengths, divisor, i)
    {
      if links[i].None? {
        data[i] := fetchedData[i];
        lengths[i] := fetchedLengths[i];
      } else {
        var l := links[i].value;
        data[i] := data[l];
        lengths[i] := lengths[LinkedLengthIndex(l, divisor)];
      }
      i := i + 1;
    }
  }

  /** Entry 0 (no effect) is never written, and entries the loop has not reached are still zero. */
  lemma {:induction false} UnreachedStaysZero(links: seq<Option<nat>>, fetchedData: seq<int>, fetchedLengths: seq<int>,
                                             divisor: nat, k: nat, j: nat)
    requires LoaderInput(links, fetchedData, fetchedLengths, divisor)
    requires 1 <= k <= |links| && j < |links| && (j == 0 || k <= j)
    ensures LoadedUpTo(links, fetchedData, fetchedLengths, divisor, k).data[j] == 0
    ensures LoadedUpTo(links, fetchedData, fetchedLengths, divisor, k).lengths[j] == 0
  {
    if k > 1 {
      UnreachedStaysZero(links, fetchedData, fetchedLengths, divisor, k - 1, j);
    }
  }

  /** Once the loop has handled effect `i`, later iterations leave its entry alone. */
  lemma {:induction false} HandledEntryKept(links: seq<Option<nat>>, fetchedData: seq<int>, fetchedLengths: seq<int>,
                                           divisor: nat, i: nat, k: nat)
    requires LoaderInput(links, fetchedData, fetchedLengths, divisor)
    requires 1 <= i < k <= |links|
    ensures LoadedUpTo(links, fetchedData, fetchedLengths, divisor, k).data[i]
         == LoadedUpTo(links, fetchedData, fetchedLengths, divisor, i + 1).data[i]
    ensures LoadedUpTo(links, fetchedData, fetchedLengths, divisor, k).lengths[i]
         == LoadedUpTo(links, fetchedData, fetchedLengths, divisor, i + 1).lengths[i]
  {
    if k > i + 1 {
      HandledEntryKept(links, fetchedData, fetchedLengths, divisor, i, k - 1);
    }
  }

  /**
   * As written: a linked effect whose link index is below the divisor looks
   * its length up at index 0, which the loop never sets, so its length is 0,
   * while its data is the pointer of the effect it links to.
   */
  lemma AsWrittenLinkedLengthIsZero(links: seq<Option<nat>>, fetchedData: seq<int>, fetchedLengths: seq<int>,
                                    divisor: nat, i: nat)
    requires LoaderInput(links, fetchedData, fetchedLengths, divisor)
    requires 1 <= i < |links| && links[i].Some? && links[i].value < divisor
    ensures LoadedUpTo(links, fetchedData, fetchedLengths, divisor, |links|).lengths[i] == 0
    ensures LoadedUpTo(links, fetchedData, fetchedLengths, divisor, |links|).data[i]
         == LoadedUpTo(links, fetchedData, fetchedLengths, divisor, i).data[links[i].value]
  {
    UnreachedStaysZero(links, fetchedData, fetchedLengths, divisor, i, 0);
    HandledEntryKept(links, fetchedData, fetchedLengths, divisor, i, |links|);
  }

  /**
   * As written, the chaingun case: an effect linked to an earlier, loaded
   * effect gets that effect's non-null pointer and length 0, so the table
   * is not one the mixer's model accepts (`addsfx` would set the channel's
   * end one byte before its start).
   */
  lemma AsWrittenLinkedTableRejected(links: seq<Option<nat>>, fetchedData: seq<int>, fetchedLengths: seq<int>,
                                     divisor: nat, memLen: int, i: nat)
    requires LoaderInput(links, fetchedData, fetchedLengths, divisor)
    requires 1 <= i < |links| && links[i].Some? && links[i].value < divisor
    requires 1 <= links[i].value < i && links[links[i].value].None? && fetchedData[links[i].value] != 0
    ensures var t := LoadedUpTo(links, fetchedData, fetchedLengths, divisor, |links|);
      && t.data[i] == fetchedData[links[i].value] && t.lengths[i] == 0
      && !SoundMixer.SfxTableOk(memLen, t.data, t.lengths)
  {
    var l := links[i].value;
    AsWrittenLinkedLengthIsZero(links, fetchedData, fetchedLengths, divisor, i);
    HandledEntryKept(links, fetchedData, fetchedLengths, divisor, l, i);
  }

  /**
   * Three effects, the last linked to effect 1 the way the chaingun is
   * linked to the pistol: as written (any `sizeof(sfxinfo_t)` of 2 or more)
   * the linked effect gets the pistol's pointer and length 0; with the
   * link's own index it gets the pistol's length too.
   */
  lemma ChaingunLinkedToPistol(size: nat)
    requires 2 <= size
    ensures LoadedUpTo([None, None, Some(1)], [0, 8, 0], [0, 16, 0], size, 3) == SfxTable([0, 8, 8], [0, 16, 0])
    ensures LoadedUpTo([None, None, Some(1)], [0, 8, 0], [0, 16, 0], 1, 3) == SfxTable([0, 8, 8], [0, 16, 16])
  {
    var links, data, lengths := [None, None, Some(1)], [0, 8, 0], [0, 16, 0];
    assert LoadedUpTo(links, data, lengths, size, 1) == SfxTable([0, 0, 0], [0, 0, 0]);
    assert LoadedUpTo(links, data, lengths, size, 2) == SfxTable([0, 8, 0], [0, 16, 0]);
    assert LinkedLengthIndex(1, size) == 0;
    assert LoadedUpTo(links, data, lengths, 1, 1) == SfxTable([0, 0, 0], [0, 0, 0]);
    assert LoadedUpTo(links, data, lengths, 1, 2) == SfxTable([0, 8, 0], [0, 16, 0]);
  }

  /** What `getsfx` hands back for an unlinked effect: nothing, or a region of at least two bytes in memory. */
  predicate FetchedOk(memLen: int, links: seq<Option<nat>>, fetchedData: seq<int>, fetchedLengths: seq<int>)
    requires |fetchedData| == |links| && |fetchedLengths| == |links|
  {
    forall i :: 1 <= i < |links| && links[i].None? ==>
      fetchedData[i] == 0 || (1 <= fetchedData[i] && 2 <= fetchedLengths[i] && fetchedData[i] + fetchedLengths[i] <= memLen)
  }

  /**
   * With the length looked up at the link's own index, every table the
   * loop builds from well-formed loads is one the mixer accepts, and a
   * linked effect shares both the data and the length of an earlier effect
   * it links to.
   */
  lemma {:induction false} CorrectedTableOk(links: seq<Option<nat>>, fetchedData: seq<int>, fetchedLengths: seq<int>,
                                           memLen: int, k: nat)
    requires LoaderInput(links, fetchedData, fetchedLengths, 1)
    requires FetchedOk(memLen, links, fetchedData, fetchedLengths)
    requires 1 <= k <= |links|
    ensures var t := LoadedUpTo(links, fetchedData, fetchedLengths, 1, k);
      SoundMixer.SfxTableOk(memLen, t.data, t.lengths)
    ensures var t := LoadedUpTo(links, fetchedData, fetchedLengths, 1, k);
      forall i :: 1 <= i < k && links[i].Some? && links[i].value < i ==>
        t.data[i] == t.data[links[i].value] && t.lengths[i] == t.lengths[links[i].value]
  {
    if k > 1 {
      CorrectedTableOk(links, fetchedData, fetchedLengths, memLen, k - 1);
      var t := LoadedUpTo(links, fetchedData, fetchedLengths, 1, k);
      forall i | 1 <= i < k && links[i].Some? && links[i].value < i
        ensures t.data[i] == t.data[links[i].value] && t.lengths[i] == t.lengths[links[i].value]
      {
        var l := links[i].value;
        HandledEntryKept(links, fetchedData, fetchedLengths, 1, i, k);
        if l == 0 {
          UnreachedStaysZero(links, fetchedData, fetchedLengths, 1, i, 0);
          UnreachedStaysZero(links, fetchedData, fetchedLengths, 1, k, 0);
        } else {
          HandledEntryKept(links, fetchedData, fetchedLengths, 1, l, i);
          HandledEntryKept(links, fetchedData, fetchedLengths, 1, l, k);
        }
      }
    }
  }
}
