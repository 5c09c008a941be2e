/**
 * The last step of the camera scan: picking one address out of the
 * candidates that passed the radius filter, by camera type.
 */
module Selection {
  import opened Common

  /** Python's `max` of a non-empty list. */
  function Max(s: seq<int>): (m: int)
    requires |s| > 0
    ensures m in s && forall x :: x in s ==> x <= m
  {
    if |s| == 1 then s[0]
    else
      var rest := Max(s[1..]);
      assert s == [s[0]] + s[1..];
      assert forall x :: x in s ==> x == s[0] || x in s[1..];
      if s[0] >= rest then s[0] else rest
  }

  predicate Sorted(s: seq<int>) {
    forall i, j :: 0 <= i < j < |s| ==> s[i] <= s[j]
  }

  /** Insert `x` into a sorted list, before the first element not smaller than it. */
  function Insert(x: int, s: seq<int>): (r: seq<int>)
    requires Sorted(s)
    ensures Sorted(r) && |r| == |s| + 1
    ensures r[0] == (if s == [] || x <= s[0] then x else s[0])
  {
    if s == [] then [x]
    else if x <= s[0] then
      SortedCons(x, s);
      [x] + s
    else
      var t := Insert(x, s[1..]);
      SortedCons(s[0], t);
      assert s == [s[0]] + s[1..];
      [s[0]] + t
  }

  lemma SortedCons(a: int, t: seq<int>)
    requires Sorted(t) && (t == [] || a <= t[0])
    ensures Sorted([a] + t)
  {
    var r := [a] + t;
    forall i, j | 0 <= i < j < |r| ensures r[i] <= r[j] {
      if i > 0 {
        assert r[i] == t[i - 1] && r[j] == t[j - 1];
      } else {
        assert r[j] == t[j - 1] && t[0] <= t[j - 1];
      }
    }
  }

  /** Python's `sorted`: ascending (and a permutation, by `SortPermutes`). */
  function Sort(s: seq<int>): (r: seq<int>)
    ensures Sorted(r) && |r| == |s|
  {
    if s == [] then [] else Insert(s[0], Sort(s[1..]))
  }

  lemma {:induction false} InsertPermutes(x: int, s: seq<int>)
    requires Sorted(s)
    ensures multiset(Insert(x, s)) == multiset(s) + multiset{x}
  {
    if s != [] && x > s[0] {
      InsertPermutes(x, s[1..]);
      assert s == [s[0]] + s[1..];
    }
  }

  /** `sorted` returns a permutation of its argument. */
  lemma {:induction false} SortPermutes(s: seq<int>)
    ensures multiset(Sort(s)) == multiset(s)
  {
    if s != [] {
      SortPermutes(s[1..]);
      InsertPermutes(s[0], Sort(s[1..]));
      assert s == [s[0]] + s[1..];
    }
  }

  /** How many entries of `s` (with repetitions) are strictly above `a`. */
  function CountAbove(s: seq<int>, a: int): nat {
    if s == [] then 0 else (if s[0] > a then 1 else 0) + CountAbove(s[1..], a)
  }

  /** How many entries of `s` (with repetitions) are at least `a`. */
  function CountAtLeast(s: seq<int>, a: int): nat {
    if s == [] then 0 else (if s[0] >= a then 1 else 0) + CountAtLeast(s[1..], a)
  }

  lemma {:induction false} CountsOfConcat(s: seq<int>, t: seq<int>, a: int)
    ensures CountAbove(s + t, a) == CountAbove(s, a) + CountAbove(t, a)
    ensures CountAtLeast(s + t, a) == CountAtLeast(s, a) + CountAtLeast(t, a)
  {
    if s == [] {
      assert s + t == t;
    } else {
      assert (s + t)[0] == s[0];
      assert (s + t)[1..] == s[1..] + t;
      CountsOfConcat(s[1..], t, a);
    }
  }

  lemma {:induction false} CountsOfInsert(x: int, s: seq<int>, a: int)
    requires Sorted(s)
    ensures CountAbove(Insert(x, s), a) == CountAbove(s, a) + (if x > a then 1 else 0)
    ensures CountAtLeast(Insert(x, s), a) == CountAtLeast(s, a) + (if x >= a then 1 else 0)
  {
    if s != [] && x > s[0] {
      var t := Insert(x, s[1..]);
      assert ([s[0]] + t)[1..] == t;
      CountsOfInsert(x, s[1..], a);
    } else if s != [] {
      assert ([x] + s)[1..] == s;
    }
  }

  /** Sorting does not change how many candidates lie above (or at least at) an address. */
  lemma {:induction false} CountsOfSort(s: seq<int>, a: int)
    ensures CountAbove(Sort(s), a) == CountAbove(s, a) && CountAtLeast(Sort(s), a) == CountAtLeast(s, a)
  {
    if s != [] {
      CountsOfSort(s[1..], a);
      CountsOfInsert(s[0], Sort(s[1..]), a);
    }
  }

  lemma {:induction false} SortedSecondToLast(t: seq<int>)
    requires Sorted(t) && |t| >= 2
    ensures CountAbove(t, t[|t| - 2]) <= 1 && CountAtLeast(t, t[|t| - 2]) >= 2
  {
    var a := t[|t| - 2];
    var front := t[..|t| - 2];
    assert t == front + [a, t[|t| - 1]];
    CountsOfConcat(front, [a, t[|t| - 1]], a);
    var b := t[|t| - 1];
    assert a <= b;
    assert [a, b][1..] == [b] && [b][1..] == [];
    assert CountAbove([b], a) <= 1 && CountAtLeast([b], a) == 1;
    assert CountAbove([a, b], a) <= 1;
    assert CountAtLeast([a, b], a) == 2;
    FrontNotAbove(front, a);
  }

  lemma {:induction false} FrontNotAbove(front: seq<int>, a: int)
    requires forall k :: 0 <= k < |front| ==> front[k] <= a
    ensures CountAbove(front, a) == 0
  {
    if front != [] {
      FrontNotAbove(front[1..], a);
    }
  }

  /**
   * The strategy of `scan_for_address` on the candidate list (already
   * radius-filtered, in discovery order). `None` is a failed scan: no
   * candidate, an unknown camera type, or a selected address of 0.
   */
  function SelectAddress(cameraType: string, valid: seq<int>): Option<int> {
    if |valid| == 0 then None
    else
      var target :=
        if cameraType == "CAB" then Max(valid)
        else if cameraType == "INTERIOR" then
          (if |valid| >= 2 then Sort(valid)[|valid| - 2] else valid[0])
        else if cameraType == "EXTERNAL" then
          (if |valid| >= 2 then Sort(valid)[0] else valid[0])
        else 0;
      if target != 0 then Some(target) else None
  }

  lemma NoCandidatesFails(cameraType: string)
    ensures SelectAddress(cameraType, []) == None
  {
  }

  lemma UnknownTypeFails(cameraType: string, valid: seq<int>)
    requires cameraType != "CAB" && cameraType != "INTERIOR" && cameraType != "EXTERNAL"
    ensures SelectAddress(cameraType, valid) == None
  {
  }

  lemma CabPick(valid: seq<int>)
    requires |valid| > 0
    ensures SelectAddress("CAB", valid) == if Max(valid) != 0 then Some(Max(valid)) else None
  {
  }

  lemma ExternalPick(valid: seq<int>)
    requires |valid| >= 2
    ensures SelectAddress("EXTERNAL", valid) == if Sort(valid)[0] != 0 then Some(Sort(valid)[0]) else None
  {
    assert "EXTERNAL" != "CAB" by { assert |"EXTERNAL"| != |"CAB"|; }
    assert "EXTERNAL" != "INTERIOR" by { assert "EXTERNAL"[0] != "INTERIOR"[0]; }
  }

  lemma InteriorPick(valid: seq<int>)
    requires |valid| >= 2
    ensures var a := Sort(valid)[|valid| - 2];
      SelectAddress("INTERIOR", valid) == if a != 0 then Some(a) else None
  {
    assert "INTERIOR" != "CAB" by { assert |"INTERIOR"| != |"CAB"|; }
  }

  /** CAB takes the highest candidate; it fails only when that is 0. */
  lemma CabTakesHighest(valid: seq<int>)
    requires |valid| > 0
    ensures var r := SelectAddress("CAB", valid);
      r.Some? ==> r.value in valid && forall x :: x in valid ==> x <= r.value
    ensures 0 !in valid ==> SelectAddress("CAB", valid) == Some(Max(valid))
  {
    CabPick(valid);
  }

  /** EXTERNAL takes the lowest of two or more candidates, or the only one. */
  lemma ExternalTakesLowest(valid: seq<int>)
    requires |valid| > 0
    ensures var r := SelectAddress("EXTERNAL", valid);
      r.Some? ==> r.value != 0 && r.value in valid && forall x :: x in valid ==> r.value <= x
    ensures 0 !in valid ==> SelectAddress("EXTERNAL", valid).Some?
  {
    if |valid| >= 2 {
      ExternalPick(valid);
      SortPermutes(valid);
      var t := Sort(valid);
      assert t[0] in multiset(valid);
      forall x | x in valid ensures t[0] <= x {
        assert x in multiset(t);
      }
    }
  }

  /**
   * INTERIOR takes the second-largest of two or more candidates: at most one
   * candidate is above it and at least two (itself included) are at or above it.
   */
  lemma InteriorTakesSecondHighest(valid: seq<int>)
    requires |valid| >= 2
    ensures var r := SelectAddress("INTERIOR", valid);
      r.Some? ==> r.value in valid && CountAbove(valid, r.value) <= 1 && CountAtLeast(valid, r.value) >= 2
    ensures 0 !in valid ==> SelectAddress("INTERIOR", valid).Some?
  {
    InteriorPick(valid);
    SortPermutes(valid);
    var t := Sort(valid);
    var a := t[|valid| - 2];
    assert a in multiset(valid);
    SortedSecondToLast(t);
    CountsOfSort(valid, a);
  }

  /** With a single candidate, INTERIOR and EXTERNAL take it (if it is not 0). */
  lemma SoleCandidate(cameraType: string, a: int)
    requires cameraType == "INTERIOR" || cameraType == "EXTERNAL" || cameraType == "CAB"
    requires a != 0
    ensures SelectAddress(cameraType, [a]) == Some(a)
  {
  }

  /** Three candidates: CAB takes 0x300, INTERIOR 0x200, EXTERNAL 0x100. */
  lemma ThreeCandidateExample()
    ensures SelectAddress("CAB", [0x200, 0x100, 0x300]) == Some(0x300)
    ensures SelectAddress("INTERIOR", [0x200, 0x100, 0x300]) == Some(0x200)
    ensures SelectAddress("EXTERNAL", [0x200, 0x100, 0x300]) == Some(0x100)
  {
    var s := [0x200, 0x100, 0x300];
    assert s[0] == 0x200 && s[1] == 0x100 && s[2] == 0x300;
    assert 0 !in s;
    CabTakesHighest(s);
    ExternalTakesLowest(s);
    InteriorTakesSecondHighest(s);
    assert s[1..] == [0x100, 0x300] && s[1..][1..] == [0x300] && s[1..][1..][1..] == [];
    assert CountAbove(s, 0x100) == 2;
    assert CountAtLeast(s, 0x300) == 1;
  }
}
