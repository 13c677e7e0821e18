/**
 * The modification word of the method-tracing filters: a C++ `int` whose
 * bit 0 asks for timing and bit 1 for tracing, and whose value -1 means that
 * no filter entry matched.  Matching entries are folded together with
 * `combine_bits`.
 */
module Modifications {
  /** The bit pattern of a C++ `int` modification word. */
  type Mod = bv32

  /** The `int` value -1: no entry matched. */
  const NoMatch: Mod := 0xFFFF_FFFF

  /** Bit 0 asks for timing, bit 1 for tracing. */
  const TimingBit: Mod := 1
  const TracingBit: Mod := 2

  /** The word holds a non-negative `int`, as the Java side always sends. */
  predicate IsValid(m: Mod) {
    m < 0x8000_0000
  }

  predicate ValidOrNoMatch(m: Mod) {
    m == NoMatch || IsValid(m)
  }

  /** The signed test `m > 0`. */
  predicate IsPositive(m: Mod) {
    m != 0 && IsValid(m)
  }

  // ---------------------------------------------------------------------
  // combine_bits (jfrFilter.cpp)

  function CombineBits(a: Mod, b: Mod): Mod {
    if a == NoMatch then b else if b == NoMatch then a else a | b
  }

  /** -1 is an identity on both sides, and the rest is a plain OR. */
  lemma CombineBitsIdentity(a: Mod, b: Mod)
    ensures CombineBits(NoMatch, b) == b && CombineBits(a, NoMatch) == a
    ensures a != NoMatch && b != NoMatch ==> CombineBits(a, b) == a | b
  {
  }

  lemma CombineBitsCommutative(a: Mod, b: Mod)
    ensures CombineBits(a, b) == CombineBits(b, a)
  {
  }

  /** On values that are -1 or non-negative the combination is associative and closed. */
  lemma CombineBitsAssociative(a: Mod, b: Mod, c: Mod)
    requires ValidOrNoMatch(a) && ValidOrNoMatch(b) && ValidOrNoMatch(c)
    ensures CombineBits(CombineBits(a, b), c) == CombineBits(a, CombineBits(b, c))
  {
  }

  /** The result is -1 exactly when both inputs are, and stays in the domain. */
  lemma CombineBitsNoMatch(a: Mod, b: Mod)
    requires ValidOrNoMatch(a) && ValidOrNoMatch(b)
    ensures CombineBits(a, b) == NoMatch <==> a == NoMatch && b == NoMatch
    ensures ValidOrNoMatch(CombineBits(a, b))
  {
  }

  /** Outside the domain, two non-matches can OR to -1: -2 | 1 is -1. */
  lemma CombineBitsOutsideDomain()
    ensures CombineBits(0xFFFF_FFFE, 1) == NoMatch
  {
  }

  /** Plain OR of a sequence of words, 0 for none. */
  function BitUnion(s: seq<Mod>): Mod {
    if s == [] then 0 else BitUnion(s[..|s| - 1]) | s[|s| - 1]
  }

  predicate AllValid(s: seq<Mod>) {
    forall i :: 0 <= i < |s| ==> IsValid(s[i])
  }

  lemma {:induction false} BitUnionValid(s: seq<Mod>)
    requires AllValid(s)
    ensures IsValid(BitUnion(s))
  {
    if s != [] {
      BitUnionValid(s[..|s| - 1]);
    }
  }

  /**
   * The accumulation both `class_modifications` and `method_modifications`
   * perform over their first `n` entries: starting from -1, the modification
   * of every entry whose flag is set is combined in, in entry order.
   */
  function FoldMatches(mods: seq<Mod>, flags: seq<bool>, n: nat): Mod
    requires |mods| == |flags| && n <= |mods|
  {
    if n == 0 then NoMatch
    else
      var r := FoldMatches(mods, flags, n - 1);
      if flags[n - 1] then CombineBits(r, mods[n - 1]) else r
  }

  /** The modifications of the flagged entries among the first `n`, in entry order. */
  function Selected(mods: seq<Mod>, flags: seq<bool>, n: nat): seq<Mod>
    requires |mods| == |flags| && n <= |mods|
  {
    if n == 0 then []
    else
      var r := Selected(mods, flags, n - 1);
      if flags[n - 1] then r + [mods[n - 1]] else r
  }

  lemma {:induction false} FoldWithoutFlags(mods: seq<Mod>, flags: seq<bool>, n: nat)
    requires |mods| == |flags| && n <= |mods|
    requires forall i :: 0 <= i < n ==> !flags[i]
    ensures FoldMatches(mods, flags, n) == NoMatch
  {
    if n > 0 {
      FoldWithoutFlags(mods, flags, n - 1);
    }
  }

  lemma {:induction false} SelectedEmpty(mods: seq<Mod>, flags: seq<bool>, n: nat)
    requires |mods| == |flags| && n <= |mods|
    ensures Selected(mods, flags, n) == [] <==> forall i :: 0 <= i < n ==> !flags[i]
  {
    if n > 0 {
      SelectedEmpty(mods, flags, n - 1);
    }
  }

  lemma {:induction false} SelectedValid(mods: seq<Mod>, flags: seq<bool>, n: nat)
    requires |mods| == |flags| && n <= |mods| && AllValid(mods)
    ensures AllValid(Selected(mods, flags, n))
  {
    if n > 0 {
      SelectedValid(mods, flags, n - 1);
    }
  }

  /** Bit facts used by the fold proofs, each on its own small context. */
  lemma CombineValid(u: Mod, mod: Mod)
    requires IsValid(u) && IsValid(mod)
    ensures CombineBits(u, mod) == u | mod
    ensures IsValid(u | mod)
  {
  }

  lemma CombineFirst(mod: Mod)
    ensures CombineBits(NoMatch, mod) == BitUnion([mod])
  {
  }

  /** The union form of the fold after `n` entries. */
  predicate FoldIsUnionAt(mods: seq<Mod>, flags: seq<bool>, n: nat)
    requires |mods| == |flags| && n <= |mods|
  {
    FoldMatches(mods, flags, n) ==
      if Selected(mods, flags, n) == [] then NoMatch else BitUnion(Selected(mods, flags, n))
  }

  /** How the fold and the selection unfold at a flagged entry. */
  lemma UnfoldFlagged(mods: seq<Mod>, flags: seq<bool>, n: nat)
    requires |mods| == |flags| && 0 < n <= |mods| && flags[n - 1]
    ensures FoldMatches(mods, flags, n) == CombineBits(FoldMatches(mods, flags, n - 1), mods[n - 1])
    ensures Selected(mods, flags, n) == Selected(mods, flags, n - 1) + [mods[n - 1]]
  {
  }

  lemma UnionAppend(s: seq<Mod>, mod: Mod, r: Mod)
    requires r == BitUnion(s) && CombineBits(r, mod) == r | mod
    ensures CombineBits(r, mod) == BitUnion(s + [mod])
  {
    assert (s + [mod])[..|s|] == s;
  }

  lemma FlaggedStep(mods: seq<Mod>, flags: seq<bool>, n: nat)
    requires |mods| == |flags| && 0 < n <= |mods| && AllValid(mods) && flags[n - 1]
    requires FoldIsUnionAt(mods, flags, n - 1)
    ensures FoldIsUnionAt(mods, flags, n)
  {
    var prev := Selected(mods, flags, n - 1);
    var r := FoldMatches(mods, flags, n - 1);
    var mod := mods[n - 1];
    UnfoldFlagged(mods, flags, n);
    if prev == [] {
      assert r == NoMatch;
      CombineFirst(mod);
      assert prev + [mod] == [mod];
    } else {
      assert r == BitUnion(prev);
      assert IsValid(mod);
      SelectedValid(mods, flags, n - 1);
      BitUnionValid(prev);
      CombineValid(r, mod);
      UnionAppend(prev, mod, r);
    }
  }

  /**
   * On non-negative modifications the fold is -1 when no entry is flagged,
   * and otherwise the bitwise union of the flagged modifications.
   */
  lemma {:induction false} FoldIsUnion(mods: seq<Mod>, flags: seq<bool>, n: nat)
    requires |mods| == |flags| && n <= |mods| && AllValid(mods)
    ensures FoldMatches(mods, flags, n) ==
      if Selected(mods, flags, n) == [] then NoMatch else BitUnion(Selected(mods, flags, n))
  {
    if n > 0 {
      FoldIsUnion(mods, flags, n - 1);
      assert FoldIsUnionAt(mods, flags, n - 1);
      if flags[n - 1] {
        FlaggedStep(mods, flags, n);
      }
      assert FoldIsUnionAt(mods, flags, n);
    }
  }

  /** The fold of non-negative modifications is -1 or non-negative. */
  lemma FoldInDomain(mods: seq<Mod>, flags: seq<bool>, n: nat)
    requires |mods| == |flags| && n <= |mods| && AllValid(mods)
    ensures ValidOrNoMatch(FoldMatches(mods, flags, n))
  {
    FoldIsUnion(mods, flags, n);
    if Selected(mods, flags, n) != [] {
      SelectedValid(mods, flags, n);
      BitUnionValid(Selected(mods, flags, n));
    }
  }

  /** Every flagged entry's modification is among the selected ones. */
  lemma {:induction false} SelectedContains(mods: seq<Mod>, flags: seq<bool>, n: nat, i: nat)
    requires |mods| == |flags| && n <= |mods|
    requires i < n && flags[i]
    ensures mods[i] in Selected(mods, flags, n)
  {
    if i < n - 1 {
      SelectedContains(mods, flags, n - 1, i);
    }
  }
}
