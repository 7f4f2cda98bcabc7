/**
 * The behaviour of the parcel collection (a Doctrine `ArrayCollection`) that the
 * consignment relies on, as functions on sequences. Membership is strict
 * identity: for class types, `==` on references.
 */
module Collection {

  /** No element occurs twice. */
  ghost predicate NoDuplicates<T>(s: seq<T>)
  {
    forall i, j :: 0 <= i < j < |s| ==> s[i] != s[j]
  }

  /** Position of the first occurrence of `x` in `s` (what a strict `array_search` finds). */
  function FirstIndex<T(==)>(s: seq<T>, x: T): (k: nat)
    requires x in s
    ensures k < |s| && s[k] == x
    ensures forall i :: 0 <= i < k ==> s[i] != x
  {
    if s[0] == x then 0 else 1 + FirstIndex(s[1..], x)
  }

  /**
   * `if (!contains(x)) add(x)`: append `x` unless it is already present.
   */
  function Added<T(==)>(s: seq<T>, x: T): (r: seq<T>)
    ensures x in r
    ensures |s| <= |r| <= |s| + 1 && r[..|s|] == s
    ensures r == s <==> x in s
  {
    if x in s then s else s + [x]
  }

  /**
   * `removeElement(x)`: drop the first occurrence of `x`, keeping the order of
   * the rest; nothing happens when `x` is absent.
   */
  function Removed<T(==)>(s: seq<T>, x: T): (r: seq<T>)
    ensures |r| == if x in s then |s| - 1 else |s|
  {
    if s == [] then []
    else if s[0] == x then s[1..]
    else [s[0]] + Removed(s[1..], x)
  }

  /** Removing an absent element is a no-op. */
  lemma {:induction false} RemovedAbsent<T>(s: seq<T>, x: T)
    requires x !in s
    ensures Removed(s, x) == s
  {
    if s != [] {
      RemovedAbsent(s[1..], x);
    }
  }

  /**
   * Removing a present element cuts out exactly its first occurrence: what is
   * left is the elements before it followed by the elements after it, in
   * their original order.
   */
  lemma {:induction false} RemovedSplice<T>(s: seq<T>, x: T)
    requires x in s
    ensures var k := FirstIndex(s, x); Removed(s, x) == s[..k] + s[k + 1..]
    ensures |Removed(s, x)| == |s| - 1
  {
    if s[0] != x {
      RemovedSplice(s[1..], x);
      var k := FirstIndex(s[1..], x);
      assert s[1..][..k] + s[1..][k + 1..] == s[1..k + 1] + s[k + 2..];
      assert [s[0]] + s[1..k + 1] == s[..k + 1];
    }
  }

  /** Every element of the result was in the input; nothing is invented. */
  lemma {:induction false} RemovedSubset<T>(s: seq<T>, x: T, y: T)
    requires y in Removed(s, x)
    ensures y in s
  {
    if s != [] && s[0] != x && y != s[0] {
      RemovedSubset(s[1..], x, y);
    }
  }

  /** Removing keeps a duplicate-free sequence duplicate-free. */
  lemma {:induction false} RemovedNoDuplicates<T>(s: seq<T>, x: T)
    requires NoDuplicates(s)
    ensures NoDuplicates(Removed(s, x))
  {
    if x in s {
      RemovedSplice(s, x);
      var k := FirstIndex(s, x);
      var r := Removed(s, x);
      forall i, j | 0 <= i < j < |r| ensures r[i] != r[j] {
        var i' := if i < k then i else i + 1;
        var j' := if j < k then j else j + 1;
        assert r[i] == s[i'] && r[j] == s[j'];
      }
    } else {
      RemovedAbsent(s, x);
    }
  }

  /**
   * On a duplicate-free sequence, the result holds exactly the other
   * elements: `x` is gone and every other element stays.
   */
  lemma {:induction false} RemovedContents<T>(s: seq<T>, x: T, y: T)
    requires NoDuplicates(s)
    ensures y in Removed(s, x) <==> y in s && y != x
  {
    if x in s {
      RemovedSplice(s, x);
      var k := FirstIndex(s, x);
      assert s == s[..k] + [s[k]] + s[k + 1..];
    } else {
      RemovedAbsent(s, x);
    }
  }

  /** On a duplicate-free sequence, removing twice is removing once. */
  lemma RemovedIdempotent<T>(s: seq<T>, x: T)
    requires NoDuplicates(s)
    ensures Removed(Removed(s, x), x) == Removed(s, x)
  {
    RemovedContents(s, x, x);
    RemovedAbsent(Removed(s, x), x);
  }

  /** Adding keeps a duplicate-free sequence duplicate-free. */
  lemma AddedNoDuplicates<T>(s: seq<T>, x: T)
    requires NoDuplicates(s)
    ensures NoDuplicates(Added(s, x))
  {
  }

  /** Adding twice is adding once. */
  lemma AddedIdempotent<T>(s: seq<T>, x: T)
    ensures Added(Added(s, x), x) == Added(s, x)
  {
  }

  /** Removing an element that was just added restores the sequence. */
  lemma {:induction false} RemovedUndoesAdded<T>(s: seq<T>, x: T)
    requires x !in s
    ensures Removed(Added(s, x), x) == s
  {
    if s != [] {
      assert (s + [x])[1..] == s[1..] + [x];
      RemovedUndoesAdded(s[1..], x);
    }
  }
}
