/** Key sets in ascending order. */
module KeyOrder {
  import opened Collections

  lemma {:induction false} MaxExists(s: set<nat>)
    requires s != {}
    ensures exists m :: m in s && forall k :: k in s ==> k <= m
    decreases |s|
  {
    var k :| k in s;
    var rest := s - {k};
    if rest == {} {
      assert s == {k} + rest;
    } else {
      MaxExists(rest);
      var m :| m in rest && forall j :: j in rest ==> j <= m;
      var top := if m < k then k else m;
      forall j | j in s
        ensures j <= top
      {
        assert j == k || j in rest;
      }
      assert top in s;
    }
  }

  ghost function MaxOf(s: set<nat>): (m: nat)
    requires s != {}
    ensures m in s && forall k :: k in s ==> k <= m
  {
    MaxExists(s);
    var m :| m in s && forall k :: k in s ==> k <= m;
    m
  }

  lemma MaxIs(s: set<nat>, m: nat)
    requires m in s && forall k :: k in s ==> k <= m
    ensures MaxOf(s) == m
  {
  }

  ghost predicate IsAscending(keys: seq<nat>) {
    forall i, j :: 0 <= i < j < |keys| ==> keys[i] < keys[j]
  }

  /** The keys of a set in ascending order. */
  ghost function Ascending(s: set<nat>): seq<nat>
    decreases |s|
  {
    if s == {} then [] else Ascending(s - {MaxOf(s)}) + [MaxOf(s)]
  }

  lemma {:induction false} AscendingLists(s: set<nat>)
    ensures IsAscending(Ascending(s)) && |Ascending(s)| == |s|
    ensures forall k :: k in Ascending(s) <==> k in s
    decreases |s|
  {
    if s != {} {
      var m := MaxOf(s);
      AscendingLists(s - {m});
      var front := Ascending(s - {m});
      forall i, j | 0 <= i < j < |Ascending(s)|
        ensures Ascending(s)[i] < Ascending(s)[j]
      {
        if j == |front| {
          assert front[i] in s - {m};
        }
      }
    }
  }

  lemma AscendingStep(s: set<nat>, m: nat)
    requires m in s && forall k :: k in s ==> k <= m
    ensures Ascending(s) == Ascending(s - {m}) + [m]
  {
    MaxIs(s, m);
  }

  /** Ascending lists of the same keys are the same list. */
  lemma {:induction false} AscendingIsUnique(keys: seq<nat>, s: set<nat>)
    requires IsAscending(keys) && forall k :: k in keys <==> k in s
    ensures keys == Ascending(s)
    decreases |keys|
  {
    if keys == [] {
      assert s == {};
    } else {
      var front, last := keys[..|keys| - 1], keys[|keys| - 1];
      assert keys == front + [last];
      FrontOf(front, last, s);
      AscendingStep(s, last);
      AscendingIsUnique(front, s - {last});
    }
  }

  lemma FrontOf(front: seq<nat>, last: nat, s: set<nat>)
    requires IsAscending(front + [last]) && forall k :: k in front + [last] <==> k in s
    ensures IsAscending(front) && last in s && forall k :: k in s ==> k <= last
    ensures forall k :: k in front <==> k in s - {last}
  {
    var keys := front + [last];
    assert keys[|front|] == last && last in keys;
    forall i, j | 0 <= i < j < |front|
      ensures front[i] < front[j]
    {
      assert front[i] == keys[i] && front[j] == keys[j];
    }
    forall k | k in front
      ensures k < last && k in s
    {
      var i :| 0 <= i < |front| && front[i] == k;
      assert keys[i] == k && keys[i] < keys[|front|];
    }
    forall k | k in s
      ensures k <= last && (k != last ==> k in front)
    {
      assert k in keys;
    }
  }

  /** A list followed by larger keys. */
  lemma {:induction false} AscendingJoin(low: set<nat>, high: set<nat>)
    requires forall a, b :: a in low && b in high ==> a < b
    ensures Ascending(low + high) == Ascending(low) + Ascending(high)
    decreases |high|
  {
    if high == {} {
      assert low + high == low;
    } else {
      var m := MaxOf(high);
      assert low + high - {m} == low + (high - {m}) && m in low + high;
      AscendingJoin(low, high - {m});
      AscendingStep(low + high, m);
      AscendingStep(high, m);
    }
  }

  lemma KeyIsHeld(s: set<nat>, i: nat)
    requires i < |Ascending(s)|
    ensures Ascending(s)[i] in s
  {
    AscendingLists(s);
    assert Ascending(s)[i] in Ascending(s);
  }

  lemma IndexOf(s: set<nat>, k: nat) returns (i: nat)
    requires k in s
    ensures i < |Ascending(s)| && Ascending(s)[i] == k
  {
    AscendingLists(s);
    i :| 0 <= i < |Ascending(s)| && Ascending(s)[i] == k;
  }

  lemma KeysDifferAt(s: set<nat>, i: nat, j: nat)
    requires i < j < |Ascending(s)|
    ensures Ascending(s)[i] < Ascending(s)[j]
  {
    AscendingLists(s);
  }

  /** The keys listed from one index up to another. */
  function Slice(keys: seq<nat>, from: nat, to: nat): set<nat>
    requires from <= to <= |keys|
  {
    set k | k in keys[from..to]
  }

  lemma SliceStep(keys: seq<nat>, from: nat, to: nat)
    requires from <= to < |keys|
    ensures Slice(keys, from, to + 1) == Slice(keys, from, to) + {keys[to]}
  {
    assert keys[from..to + 1] == keys[from..to] + [keys[to]];
  }

  lemma NextIsNotInSlice(s: set<nat>, from: nat, to: nat)
    requires from <= to < |Ascending(s)|
    ensures Ascending(s)[to] !in Slice(Ascending(s), from, to)
  {
    AscendingLists(s);
    var keys := Ascending(s);
    forall i | 0 <= i < to - from
      ensures keys[from..to][i] != keys[to]
    {
      KeysDifferAt(s, from + i, to);
    }
  }

  lemma SideOfSlice(s: set<nat>, i: nat, at: nat)
    requires i < |Ascending(s)| && at < |Ascending(s)|
    ensures var keys := Ascending(s);
            if keys[i] <= keys[at] then keys[at] in Slice(keys, i, |keys|) else keys[at] in Slice(keys[..i], 0, i)
  {
    var keys := Ascending(s);
    if at < i {
      KeysDifferAt(s, at, i);
      assert keys[..i][0..i][at] == keys[at];
    } else {
      if i < at {
        KeysDifferAt(s, i, at);
      }
      assert keys[i..|keys|][at - i] == keys[at];
    }
  }

  lemma SliceIsBeyond(s: set<nat>, i: nat, x: nat)
    requires i < |Ascending(s)| && x < |Ascending(s)|
    ensures var keys := Ascending(s); if i <= x then keys[i] <= keys[x] else keys[x] < keys[i]
  {
    if i < x {
      KeysDifferAt(s, i, x);
    } else if x < i {
      KeysDifferAt(s, x, i);
    }
  }

  /** An index cuts the keys into those below its key and the others. */
  lemma SlicesPartition(s: set<nat>, i: nat)
    requires i < |Ascending(s)|
    ensures var keys := Ascending(s);
            && Slice(keys, i, |keys|) == (set j | j in s && keys[i] <= j)
            && Slice(keys[..i], 0, i) == (set j | j in s && j < keys[i])
  {
    var keys := Ascending(s);
    forall k | k in s
      ensures keys[i] <= k ==> k in Slice(keys, i, |keys|)
      ensures k < keys[i] ==> k in Slice(keys[..i], 0, i)
    {
      var at := IndexOf(s, k);
      SideOfSlice(s, i, at);
    }
    forall k | k in Slice(keys, i, |keys|)
      ensures k in s && keys[i] <= k
    {
      var x :| 0 <= x < |keys| - i && keys[i..|keys|][x] == k;
      KeyIsHeld(s, i + x);
      SliceIsBeyond(s, i, i + x);
    }
    forall k | k in Slice(keys[..i], 0, i)
      ensures k in s && k < keys[i]
    {
      var x :| 0 <= x < i && keys[..i][0..i][x] == k;
      KeyIsHeld(s, x);
      SliceIsBeyond(s, i, x);
    }
  }

  /** The ascending list of a set, as a library sort produces it. */
  method SortKeys(keys: set<nat>) returns (sorted: seq<nat>)
    ensures sorted == Ascending(keys)
  {
    sorted := [];
    var rest := keys;
    while rest != {}
      invariant Ascending(keys) == Ascending(rest) + sorted
      decreases |rest|
    {
      MaxExists(rest);
      var m :| m in rest && forall k :: k in rest ==> k <= m;
      AscendingStep(rest, m);
      Regroup(Ascending(rest - {m}), [m], sorted, [m] + sorted);
      sorted := [m] + sorted;
      rest := rest - {m};
    }
  }
}
