/** Cable addresses, their order, and the ordered set of cables that a session keeps. */
module CableOrder {
  import opened Common
  import Uri

  /** An address in its string form, as it is compared. */
  datatype Key = Key(input: string, output: string)

  /** A cable as the set sees it: the identity of the object and its fixed address. */
  datatype Cable = Cable(id: nat, address: Key)

  /** operator< on the tuples of both paths. */
  predicate Before(a: Key, b: Key) {
    Uri.Less(a.input, b.input) || (!Uri.Less(b.input, a.input) && Uri.Less(a.output, b.output))
  }

  /** The input path decides; the output path only between cables of one input. */
  lemma BeforeMeans(a: Key, b: Key)
    ensures Before(a, b) <==> Uri.Less(a.input, b.input) || (a.input == b.input && Uri.Less(a.output, b.output))
  {
    Uri.LessIsTotal(a.input, b.input);
  }

  /** So the cables of one input plug stand together in a sorted set. */
  lemma InputsTogether(s: seq<Cable>, i: nat, j: nat, k: nat)
    requires Sorted(s) && i <= j <= k < |s| && s[i].address.input == s[k].address.input
    ensures s[j].address.input == s[i].address.input
  {
    var x, y, z := s[i].address, s[j].address, s[k].address;
    if i < j < k {
      BeforeMeans(x, y);
      BeforeMeans(y, z);
      Uri.LessIsTotal(x.input, y.input);
    }
  }

  /** A strict total order whose ties are exactly the equal addresses. */
  lemma BeforeIsTotal(a: Key, b: Key)
    ensures !Before(a, a)
    ensures !(Before(a, b) && Before(b, a))
    ensures !Before(a, b) && !Before(b, a) <==> a == b
  {
    Uri.LessIsTotal(a.input, b.input);
    Uri.LessIsTotal(a.output, b.output);
  }

  lemma BeforeIsTransitive(a: Key, b: Key, c: Key)
    requires Before(a, b) && Before(b, c)
    ensures Before(a, c)
  {
    Uri.LessIsTotal(a.input, b.input);
    Uri.LessIsTotal(b.input, c.input);
    Uri.LessIsTotal(a.input, c.input);
    if Uri.Less(a.input, b.input) && Uri.Less(b.input, c.input) {
      Uri.LessIsTransitive(a.input, b.input, c.input);
    } else if a.input == b.input == c.input {
      Uri.LessIsTransitive(a.output, b.output, c.output);
    }
  }

  /** ZstCableCompare on owning pointers. */
  predicate Compare(lhs: Option<Cable>, rhs: Option<Cable>) {
    lhs.Some? && rhs.Some? && Before(lhs.value.address, rhs.value.address)
  }

  /** Ties of the comparator are equal addresses, except that a null pointer ties with everything. */
  lemma CompareTies(a: Option<Cable>, b: Option<Cable>)
    ensures !Compare(a, b) && !Compare(b, a) <==> a.None? || b.None? || a.value.address == b.value.address
  {
    if a.Some? && b.Some? { BeforeIsTotal(a.value.address, b.value.address); }
  }

  // ---------------------------------------------------------------- the set

  ghost predicate Sorted(s: seq<Cable>) {
    forall i, j {:trigger s[i], s[j]} :: 0 <= i < j < |s| ==> Before(s[i].address, s[j].address)
  }

  ghost predicate At(s: seq<Cable>, a: Key, r: Option<nat>) {
    if r.Some? then r.value < |s| && s[r.value].address == a else forall i :: 0 <= i < |s| ==> s[i].address != a
  }

  /** Two searches that keep their word find the same cable. */
  lemma SearchesAgree(s: seq<Cable>, a: Key, r: Option<nat>, t: Option<nat>)
    requires Sorted(s) && At(s, a, r) && At(s, a, t)
    ensures r == t
  {
    BeforeIsTotal(a, a);
  }

  ghost predicate DistinctIds(s: seq<Cable>) {
    forall i, j {:trigger s[i], s[j]} :: 0 <= i < j < |s| ==> s[i].id != s[j].id
  }

  function Inserted(s: seq<Cable>, k: nat, c: Cable): seq<Cable>
    requires k <= |s|
  {
    s[..k] + [c] + s[k..]
  }

  lemma InsertedSorted(s: seq<Cable>, k: nat, c: Cable)
    requires Sorted(s) && DistinctIds(s) && k <= |s|
    requires forall i :: 0 <= i < k ==> Before(s[i].address, c.address)
    requires forall i :: k <= i < |s| ==> Before(c.address, s[i].address)
    requires forall i :: 0 <= i < |s| ==> s[i].id != c.id
    ensures Sorted(Inserted(s, k, c)) && DistinctIds(Inserted(s, k, c))
    ensures forall x :: x in Inserted(s, k, c) <==> x in s || x == c
  {
    var t := Inserted(s, k, c);
    assert forall i {:trigger t[i]} :: 0 <= i < |t| ==> t[i] == if i < k then s[i] else if i == k then c else s[i - 1];
    hide Inserted;
    forall x ensures x in t <==> x in s || x == c {
      if x in s { var i :| 0 <= i < |s| && s[i] == x; assert t[if i < k then i else i + 1] == x; }
      if x == c { assert t[k] == c; }
    }
  }

  lemma ErasedSorted(s: seq<Cable>, k: nat, t: seq<Cable>)
    requires Sorted(s) && DistinctIds(s) && k < |s| && t == s[..k] + s[k + 1..]
    ensures Sorted(t) && DistinctIds(t) && forall x :: x in t <==> x in s && x.id != s[k].id
  {
    assert forall i {:trigger t[i]} :: 0 <= i < |t| ==> t[i] == if i < k then s[i] else s[i + 1];
    forall x ensures x in t <==> x in s && x.id != s[k].id {
      if x in s && x.id != s[k].id { var i :| 0 <= i < |s| && s[i] == x; assert t[if i < k then i else i - 1] == x; }
      if x in t { var i :| 0 <= i < |t| && t[i] == x; assert s[if i < k then i else i + 1] == x; }
    }
  }

  class CableSet {
    var cables: seq<Cable>

    /** Strictly ordered by address, and no two entries are the same object. */
    ghost predicate Valid()
      reads this
    {
      Sorted(cables) && DistinctIds(cables)
    }

    constructor ()
      ensures Valid() && cables == []
    {
      cables := [];
    }

    /** The position at which a set ordered by Before holds, or would hold, address `a`. */
    method LowerBound(a: Key) returns (k: nat)
      requires Sorted(cables)
      ensures k <= |cables|
      ensures forall i :: 0 <= i < k ==> Before(cables[i].address, a)
      ensures forall i :: k <= i < |cables| ==> !Before(cables[i].address, a)
    {
      var lo, hi := 0, |cables|;
      while lo < hi
        invariant 0 <= lo <= hi <= |cables|
        invariant forall i :: 0 <= i < lo ==> Before(cables[i].address, a)
        invariant forall i :: hi <= i < |cables| ==> !Before(cables[i].address, a)
        decreases hi - lo
      {
        var mid := (lo + hi) / 2;
        if Before(cables[mid].address, a) {
          forall i | 0 <= i < mid ensures Before(cables[i].address, a) {
            BeforeIsTransitive(cables[i].address, cables[mid].address, a);
          }
          lo := mid + 1;
        } else {
          forall i | mid < i < |cables| ensures !Before(cables[i].address, a) {
            if Before(cables[i].address, a) { BeforeIsTransitive(cables[mid].address, cables[i].address, a); }
          }
          hi := mid;
        }
      }
      k := lo;
    }

    /** The ordered set's own find. */
    method FindOrdered(a: Key) returns (r: Option<nat>)
      requires Sorted(cables)
      ensures At(cables, a, r)
    {
      var k := LowerBound(a);
      BeforeIsTotal(a, a);
      if k < |cables| {
        BeforeIsTotal(cables[k].address, a);
        if !Before(a, cables[k].address) { return Some(k); }
        forall i | k < i < |cables| ensures cables[i].address != a {
          BeforeIsTransitive(a, cables[k].address, cables[i].address);
        }
      }
      r := None;
    }

    /** find_cable: a scan from the first cable. */
    method FindLinear(a: Key) returns (r: Option<nat>)
      ensures At(cables, a, r)
      ensures r.Some? ==> forall i :: 0 <= i < r.value ==> cables[i].address != a
    {
      for k := 0 to |cables|
        invariant forall i :: 0 <= i < k ==> cables[i].address != a
      {
        if cables[k].address == a { return Some(k); }
      }
      r := None;
    }

    /** insert of a new object: a second cable of the same address is refused. */
    method Insert(c: Cable) returns (inserted: bool)
      requires Valid() && forall i :: 0 <= i < |cables| ==> cables[i].id != c.id
      modifies this
      ensures Valid()
      ensures inserted <==> At(old(cables), c.address, None)
      ensures !inserted ==> cables == old(cables)
      ensures inserted ==> forall x :: x in cables <==> x in old(cables) || x == c
    {
      var k := LowerBound(c.address);
      BeforeIsTotal(c.address, c.address);
      if k < |cables| {
        BeforeIsTotal(cables[k].address, c.address);
        if !Before(c.address, cables[k].address) { return false; }
        forall i | k < i < |cables| ensures Before(c.address, cables[i].address) {
          BeforeIsTransitive(c.address, cables[k].address, cables[i].address);
        }
      }
      InsertedSorted(cables, k, c);
      cables := Inserted(cables, k, c);
      inserted := true;
    }

    /** The reaper's operation: scan for the owner of the cable object, find its address in the ordered set, erase. */
    method EraseOwned(id: nat)
      requires Valid()
      modifies this
      ensures Valid() && forall x :: x in cables <==> x in old(cables) && x.id != id
    {
      ghost var was := cables;
      for k := 0 to |cables|
        invariant cables == was && forall i :: 0 <= i < k ==> cables[i].id != id
      {
        if cables[k].id == id {
          var r := FindOrdered(cables[k].address);
          SearchesAgree(cables, cables[k].address, r, Some(k));
          ErasedSorted(was, k, was[..k] + was[k + 1..]);
          if r.Some? { cables := cables[..r.value] + cables[r.value + 1..]; }
          return;
        }
      }
    }
  }
}
