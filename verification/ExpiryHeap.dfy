/** The boxes in expiry order: a binary min-heap in a slice, sifted as the registry's heap calls sift it. */
module ExpiryHeap {
  import opened Common
  import opened RendezvousPush

  function Parent(i: nat): nat {
    if i == 0 then 0 else (i - 1) / 2
  }

  predicate Ordered(s: seq<Entry>, i: nat)
    requires i < |s|
  {
    Parent(i) < |s| && s[Parent(i)].expire <= s[i].expire
  }

  ghost predicate IsHeap(s: seq<Entry>) {
    forall i: nat :: i < |s| ==> Ordered(s, i)
  }

  /** A heap but for what holds the entry at `hole` under its parent, which its children already are. */
  ghost predicate HeapAbove(s: seq<Entry>, hole: nat) {
    && (forall i: nat :: i < |s| && i != hole ==> Ordered(s, i))
    && (forall i: nat :: i < |s| && Parent(i) == hole && i != hole && Parent(hole) < |s| ==> s[Parent(hole)].expire <= s[i].expire)
  }

  /** A heap but for what holds the entries below `hole` under it. */
  ghost predicate HeapBelow(s: seq<Entry>, hole: nat) {
    && (forall i: nat :: i < |s| && (Parent(i) != hole || i == 0) ==> Ordered(s, i))
    && (forall i: nat :: hole != 0 && i < |s| && Parent(i) == hole && Parent(hole) < |s| ==> s[Parent(hole)].expire <= s[i].expire)
  }

  function Swap(s: seq<Entry>, i: nat, j: nat): (r: seq<Entry>)
    requires i < |s| && j < |s|
    ensures |r| == |s| && multiset(r) == multiset(s)
    ensures r[i] == s[j] && r[j] == s[i] && forall k: nat :: k < |s| && k != i && k != j ==> r[k] == s[k]
  {
    s[i := s[j]][j := s[i]]
  }

  lemma {:induction false} RootIsLeast(s: seq<Entry>, k: nat)
    requires IsHeap(s) && k < |s|
    ensures s[0].expire <= s[k].expire
    decreases k
  {
    assert Ordered(s, k);
    if k != 0 { RootIsLeast(s, Parent(k)); }
  }

  lemma SiftUpStep(s: seq<Entry>, j: nat)
    requires j < |s| && j != 0 && HeapAbove(s, j) && s[j].expire < s[Parent(j)].expire
    ensures HeapAbove(Swap(s, Parent(j), j), Parent(j))
  {
    hide Swap;
    var i := Parent(j);
    var r := Swap(s, i, j);
    forall k: nat | k < |r| && k != i ensures Ordered(r, k) {
      if k != j {
        assert Ordered(s, k);
      }
    }
    forall k: nat | k < |r| && Parent(k) == i && k != i && Parent(i) < |r| ensures r[Parent(i)].expire <= r[k].expire {
      assert i != 0 ==> Ordered(s, i);
      if k != j {
        assert Ordered(s, k);
      }
    }
  }

  method SiftUp(s: seq<Entry>, from: nat) returns (r: seq<Entry>)
    requires from < |s| && HeapAbove(s, from)
    ensures IsHeap(r) && multiset(r) == multiset(s)
  {
    hide Swap;
    r := s;
    var j: nat := from;
    while true
      invariant |r| == |s| && j < |r| && HeapAbove(r, j) && multiset(r) == multiset(s)
      decreases j
    {
      var i := Parent(j);
      if i == j || !(r[j].expire < r[i].expire) {
        break;
      }
      SiftUpStep(r, j);
      r := Swap(r, i, j);
      j := i;
    }
    assert Ordered(r, j);
  }

  lemma SiftDownStep(s: seq<Entry>, i: nat, j: nat)
    requires i < j < |s| && Parent(j) == i && HeapBelow(s, i) && s[j].expire < s[i].expire
    requires forall k: nat :: k < |s| && Parent(k) == i && k != i ==> s[j].expire <= s[k].expire
    ensures HeapBelow(Swap(s, i, j), j)
  {
    hide Swap;
    var r := Swap(s, i, j);
    forall k: nat | k < |r| && (Parent(k) != j || k == 0) ensures Ordered(r, k) {
      if k != 0 && k != i && Parent(k) != i { assert Ordered(s, k); }
      if k == i && i != 0 { assert Ordered(s, i); }
    }
    forall k: nat | k < |r| && Parent(k) == j && k != j && Parent(j) < |r| ensures r[Parent(j)].expire <= r[k].expire {
      assert Ordered(s, k);
    }
  }

  method SiftDown(s: seq<Entry>) returns (r: seq<Entry>)
    requires HeapBelow(s, 0)
    ensures IsHeap(r) && multiset(r) == multiset(s)
  {
    hide Swap;
    r := s;
    var i := 0;
    while true
      invariant |r| == |s| && (i < |r| || i == 0) && HeapBelow(r, i) && multiset(r) == multiset(s)
      decreases |s| - i
    {
      var left := 2 * i + 1;
      if |r| <= left {
        assert forall k: nat :: k < |r| && Parent(k) == i ==> k == 0;
        break;
      }
      var j := left;
      var right := left + 1;
      if right < |r| && r[right].expire < r[left].expire {
        j := right;
      }
      assert forall k: nat :: k < |r| && Parent(k) == i && k != i ==> k == left || k == right;
      if !(r[j].expire < r[i].expire) {
        break;
      }
      SiftDownStep(r, i, j);
      r := Swap(r, i, j);
      i := j;
    }
  }

  /** The entry goes in and the order stands. */
  method Push(s: seq<Entry>, entry: Entry) returns (r: seq<Entry>)
    requires IsHeap(s)
    ensures IsHeap(r) && multiset(r) == multiset(s) + multiset{entry}
  {
    var grown := s + [entry];
    forall i: nat | i < |grown| && i != |s| ensures Ordered(grown, i) { assert Ordered(s, i); }
    r := SiftUp(grown, |s|);
  }

  /** The entry that comes out is the earliest, and nothing else does. */
  method Pop(s: seq<Entry>) returns (r: seq<Entry>, entry: Entry)
    requires IsHeap(s) && s != []
    ensures IsHeap(r) && multiset(s) == multiset(r) + multiset{entry}
    ensures entry == s[0] && forall e :: e in s ==> entry.expire <= e.expire
  {
    hide Swap;
    forall k: nat | k < |s| ensures s[0].expire <= s[k].expire { RootIsLeast(s, k); }
    var n := |s| - 1;
    var swapped := Swap(s, 0, n);
    entry := swapped[n];
    assert swapped == swapped[..n] + [entry];
    PopLeavesHeap(s);
    r := SiftDown(swapped[..n]);
  }

  lemma PopLeavesHeap(s: seq<Entry>)
    requires IsHeap(s) && s != []
    ensures HeapBelow(Swap(s, 0, |s| - 1)[..|s| - 1], 0)
  {
    hide Swap;
    var rest := Swap(s, 0, |s| - 1)[..|s| - 1];
    forall i: nat | i < |rest| && (Parent(i) != 0 || i == 0) ensures Ordered(rest, i) { assert Ordered(s, i); }
  }
}
