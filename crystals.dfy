/** The four boss-crystal marker ids and the floor-pattern mask folded from them. */
module Crystals {
  /** The marker ids, in the order of the bits they set. */
  const Markers: seq<int> := [46721, 46771, 29501, 33656]

  /** `isCrystal`: the id is one of the four markers. */
  predicate IsCrystal(id: int): (b: bool)
    ensures b <==> id in Markers
  {
    id == 46721 || id == 46771 || id == 29501 || id == 33656
  }

  /** The mask bit of marker k. */
  function Bit(k: nat): (b: bv32)
    requires k < 4
  {
    (1 as bv32) << k
  }

  /** The bit one id contributes in the loop of `floorPlanCrystals`. */
  function MarkerBit(id: int): (b: bv32)
    ensures b == 0 <==> !IsCrystal(id)
    ensures forall k :: 0 <= k < 4 && Markers[k] == id ==> b == Bit(k)
  {
    if id == 46721 then 1
    else if id == 46771 then 2
    else if id == 29501 then 4
    else if id == 33656 then 8
    else 0
  }

  /** The mask as a function of the set of live ids alone: bit k is set iff marker k is live. */
  function CrystalMask(s: set<int>): (m: bv32)
    ensures m <= 15
    ensures s == {} ==> m == 0
    ensures forall k :: 0 <= k < 4 ==> (m & Bit(k) != 0 <==> Markers[k] in s)
  {
    (if 46721 in s then 1 else 0)
    | (if 46771 in s then 2 else 0)
    | (if 29501 in s then 4 else 0)
    | (if 33656 in s then 8 else 0)
  }

  /** The loop of `floorPlanCrystals` run over the tracker in one particular iteration order. */
  function FoldMask(ids: seq<int>): (m: bv32)
    ensures m <= 15
    ensures forall k :: 0 <= k < 4 ==> (m & Bit(k) != 0 <==> Markers[k] in ids)
  {
    if ids == [] then 0 else FoldMask(ids[..|ids| - 1]) | MarkerBit(ids[|ids| - 1])
  }

  lemma CrystalMaskInsert(s: set<int>, id: int)
    ensures CrystalMask(s + {id}) == CrystalMask(s) | MarkerBit(id)
  {
  }

  /** Whatever order the set is iterated in, the fold yields the mask of its members. */
  lemma {:induction false} FoldMaskIsCrystalMask(ids: seq<int>)
    ensures FoldMask(ids) == CrystalMask(set x | x in ids)
  {
    if ids != [] {
      var init, last := ids[..|ids| - 1], ids[|ids| - 1];
      FoldMaskIsCrystalMask(init);
      assert ids == init + [last];
      assert (set x | x in ids) == (set x | x in init) + {last};
      CrystalMaskInsert((set x | x in init), last);
    }
  }

  /** Two iteration orders of the same ids give the same mask. */
  lemma FoldMaskOrderIndependent(a: seq<int>, b: seq<int>)
    requires multiset(a) == multiset(b)
    ensures FoldMask(a) == FoldMask(b)
  {
    FoldMaskIsCrystalMask(a);
    FoldMaskIsCrystalMask(b);
    assert forall x :: x in a <==> x in multiset(a);
    assert forall x :: x in b <==> x in multiset(b);
    assert (set x | x in a) == (set x | x in b);
  }

  /** With all four markers live the mask is 15. */
  lemma AllMarkersMask(s: set<int>)
    requires forall k :: 0 <= k < 4 ==> Markers[k] in s
    ensures CrystalMask(s) == 15
  {
    assert Markers[0] in s && Markers[1] in s && Markers[2] in s && Markers[3] in s;
  }

  /** Dropping marker k clears bit k and leaves the other bits as they were. */
  lemma DropClearsBit(s: set<int>, k: nat)
    requires k < 4
    ensures CrystalMask(s - {Markers[k]}) & Bit(k) == 0
    ensures forall j :: 0 <= j < 4 && j != k ==>
      (CrystalMask(s - {Markers[k]}) & Bit(j) == CrystalMask(s) & Bit(j))
  {
  }
}
