/** Reading the hierarchy: what lies below an entity, and what a walk down from a root can reach. */
module Subtrees {
  import opened Common
  import opened EntityTree
  import opened Moves

  /** Every prefix of a registered path is registered, and every proper one is a container. */
  lemma {:induction false} PrefixLive(ents: Ents, index: Index, x: Id, len: nat)
    requires WellFormed(ents, index) && x in ents && 1 <= len <= |ents[x].uri|
    ensures ents[x].uri[..len] in index && index[ents[x].uri[..len]] in ents
    ensures len < |ents[x].uri| ==> Container(ents[index[ents[x].uri[..len]]].kind)
    decreases |ents[x].uri|
  {
    var u := ents[x].uri;
    if len < |u| {
      var o := index[Init(u)];
      assert ents[o].uri == Init(u) && Init(u)[..len] == u[..len];
      PrefixLive(ents, index, o, len);
    } else {
      assert u[..len] == u;
    }
  }

  ghost function Below(ents: Ents, e: Id): set<Id>
    requires e in ents
  {
    set x | x in ents && ents[e].uri <= ents[x].uri
  }

  /** What lies strictly below `e` lies below exactly one of its children. */
  lemma ChildOnTheWay(ents: Ents, index: Index, e: Id, x: Id) returns (k: Id)
    requires WellFormed(ents, index) && e in ents && x in Below(ents, e) && x != e
    ensures Container(ents[e].kind) && k in ents && |ents[k].uri| >= 2 && Init(ents[k].uri) == ents[e].uri
            && x in Below(ents, k)
    ensures ents[k].uri in ents[e].children && ents[k].uri in index && index[ents[k].uri] == k
  {
    var u, w := ents[e].uri, ents[x].uri;
    assert u != w && |u| < |w|;
    PrefixLive(ents, index, x, |u|);
    PrefixLive(ents, index, x, |u| + 1);
    assert w[..|u|] == u;
    k := index[w[..|u| + 1]];
    assert Init(ents[k].uri) == w[..|u|];
  }

  lemma SamePrefix(p: Path, q: Path, y: Path, x: Path)
    requires p <= y && q <= x && |p| == |q|
    ensures y <= x ==> p == q
  {
    if y <= x { assert p == y[..|p|] == x[..|p|] == q; }
  }

  lemma LeafHasNone(ents: Ents, index: Index, e: Id)
    requires WellFormed(ents, index) && e in ents && !Container(ents[e].kind)
    ensures forall x {:trigger x in Below(ents, e)} :: x in Below(ents, e) ==> x == e
  {
    forall x | x in Below(ents, e) ensures x == e { if x != e { var k := ChildOnTheWay(ents, index, e, x); } }
  }

  lemma SelfIsBelow(ents: Ents, e: Id)
    requires e in ents
    ensures e in Below(ents, e)
  {}

  /** No entity comes after one that lies below it. */
  ghost predicate AncestorsFirst(ents: Ents, s: seq<Id>) {
    forall i, j {:trigger s[i], s[j]} :: 0 <= i < j < |s| && s[i] in ents && s[j] in ents ==>
      !(ents[s[j]].uri <= ents[s[i]].uri)
  }

  predicate Passes(ents: Ents, x: Id, filter: Option<Kind>) {
    x in ents && (filter.None? || ents[x].kind == filter.value)
  }

  function Filtered(ents: Ents, s: seq<Id>, filter: Option<Kind>): seq<Id> {
    if s == [] then []
    else (if Passes(ents, s[0], filter) then [s[0]] else []) + Filtered(ents, s[1..], filter)
  }

  lemma {:induction false} FilteredSum(ents: Ents, s: seq<Id>, t: seq<Id>, filter: Option<Kind>)
    ensures Filtered(ents, s + t, filter) == Filtered(ents, s, filter) + Filtered(ents, t, filter)
  {
    if s == [] {
      assert s + t == t;
    } else {
      assert (s + t)[1..] == s[1..] + t;
      FilteredSum(ents, s[1..], t, filter);
    }
  }

  lemma {:induction false} FilteredMembers(ents: Ents, s: seq<Id>, filter: Option<Kind>, x: Id)
    ensures x in Filtered(ents, s, filter) <==> x in s && Passes(ents, x, filter)
  {
    if s != [] {
      FilteredMembers(ents, s[1..], filter, x);
      assert x in s <==> x == s[0] || x in s[1..];
    }
  }

  /** An entity listed before `y` that does not lie below it. */
  ghost predicate MayPrecede(ents: Ents, x: Id, y: Id) {
    x != y && (x in ents && y in ents ==> !(ents[y].uri <= ents[x].uri))
  }

  lemma PrependKeeps(ents: Ents, x: Id, f: seq<Id>)
    requires Distinct(f) && AncestorsFirst(ents, f) && forall y {:trigger y in f} :: y in f ==> MayPrecede(ents, x, y)
    ensures Distinct([x] + f) && AncestorsFirst(ents, [x] + f)
  {
    var g := [x] + f;
    assert forall i {:trigger g[i]} :: 0 < i < |g| ==> g[i] == f[i - 1] && g[i] in f;
  }

  lemma FirstPrecedes(ents: Ents, s: seq<Id>, y: Id)
    requires Distinct(s) && AncestorsFirst(ents, s) && s != [] && y in s[1..]
    ensures MayPrecede(ents, s[0], y) && Distinct(s[1..]) && AncestorsFirst(ents, s[1..])
  {
    var k :| 0 <= k < |s[1..]| && s[1..][k] == y;
    assert s[k + 1] == y;
  }

  /** A filter keeps order: what is left is still free of repetition, ancestors first. */
  lemma {:induction false} FilteredKeeps(ents: Ents, s: seq<Id>, filter: Option<Kind>)
    requires Distinct(s) && AncestorsFirst(ents, s)
    ensures Distinct(Filtered(ents, s, filter)) && AncestorsFirst(ents, Filtered(ents, s, filter))
  {
    if s != [] {
      var rest := s[1..];
      FilteredHead(ents, s, filter);
      var f := Filtered(ents, rest, filter);
      if rest != [] {
        FirstPrecedes(ents, s, rest[0]);
        FilteredKeeps(ents, rest, filter);
      }
      hide Distinct, AncestorsFirst, MayPrecede, Passes;
      forall y {:trigger y in f} | y in f ensures MayPrecede(ents, s[0], y) {
        FilteredMembers(ents, rest, filter, y);
        FirstPrecedes(ents, s, y);
      }
      if rest == [] { NoneKeeps(ents); }
      PrependKeeps(ents, s[0], f);
    }
  }

  lemma NoneKeeps(ents: Ents)
    ensures Distinct<Id>([]) && AncestorsFirst(ents, [])
  {}

  lemma FilteredHead(ents: Ents, s: seq<Id>, filter: Option<Kind>)
    requires s != []
    ensures Filtered(ents, s, filter) == Filtered(ents, s[1..], filter)
            || Filtered(ents, s, filter) == [s[0]] + Filtered(ents, s[1..], filter)
  {}

  /** Children listed so far: `full` lists their subtrees after `head`, each entity once and ancestors first. */
  ghost predicate ListedSoFar(ents: Ents, e: Id, head: seq<Id>, kids: set<Id>, full: seq<Id>)
    requires e in ents
  {
    && Distinct(full) && AncestorsFirst(ents, full)
    && (forall x {:trigger x in full} :: x in full <==>
          x in head || exists k {:trigger k in kids} :: k in kids && k in ents && x in Below(ents, k))
  }

  lemma ListNext(ents: Ents, index: Index, e: Id, head: seq<Id>, kids: set<Id>, full: seq<Id>, k: Id, more: seq<Id>)
    requires WellFormed(ents, index) && e in ents && (head == [] || head == [e])
             && ListedSoFar(ents, e, head, kids, full)
    requires k in ents && k !in kids && |ents[k].uri| >= 2 && Init(ents[k].uri) == ents[e].uri
    requires forall m :: m in kids ==> m in ents && |ents[m].uri| >= 2 && Init(ents[m].uri) == ents[e].uri
    requires Distinct(more) && AncestorsFirst(ents, more)
             && forall x {:trigger x in more} :: x in more <==> x in Below(ents, k)
    ensures ListedSoFar(ents, e, head, kids + {k}, full + more)
  {
    hide Rooted, KeysBelow, Parented;
    forall i, j | 0 <= i < |full| && 0 <= j < |more|
      ensures full[i] in ents && more[j] in ents && !(ents[more[j]].uri <= ents[full[i]].uri)
    {
      assert full[i] in full && more[j] in more;
      NotBelow(ents, index, e, head, kids, full[i], k, more[j]);
    }
    hide WellFormed;
    forall x {:trigger x in full + more} ensures x in full + more <==>
      x in head || exists m {:trigger m in kids + {k}} :: m in kids + {k} && m in ents && x in Below(ents, m)
    {
      assert x in full + more <==> x in full || x in more;
      if x in more { assert k in kids + {k}; }
      if x in full && x !in head { var m :| m in kids && m in ents && x in Below(ents, m); assert m in kids + {k}; }
    }
    assert Distinct(full + more) && AncestorsFirst(ents, full + more);
  }

  /** Nothing listed earlier lies below an entity of the next child's subtree. */
  lemma NotBelow(ents: Ents, index: Index, e: Id, head: seq<Id>, kids: set<Id>, x: Id, k: Id, y: Id)
    requires Indexed(ents, index) && e in ents && (head == [] || head == [e])
    requires k in ents && k !in kids && |ents[k].uri| >= 2 && Init(ents[k].uri) == ents[e].uri && y in Below(ents, k)
    requires forall m :: m in kids ==> m in ents && |ents[m].uri| >= 2 && Init(ents[m].uri) == ents[e].uri
    requires x in head || exists m {:trigger m in kids} :: m in kids && m in ents && x in Below(ents, m)
    ensures x in ents && y in ents && !(ents[y].uri <= ents[x].uri)
  {
    if x in head {
      assert |ents[x].uri| < |ents[k].uri| <= |ents[y].uri|;
    } else {
      var m :| m in kids && m in ents && x in Below(ents, m);
      assert ents[m].uri != ents[k].uri;
      assert |ents[m].uri| == |ents[e].uri| + 1 == |ents[k].uri|;
      SamePrefix(ents[k].uri, ents[m].uri, ents[y].uri, ents[x].uri);
    }
  }

  lemma ListAll(ents: Ents, index: Index, e: Id, head: seq<Id>, kids: set<Id>, full: seq<Id>)
    requires WellFormed(ents, index) && e in ents && ListedSoFar(ents, e, head, kids, full)
    requires forall m :: m in kids ==> m in ents && |ents[m].uri| >= 2 && Init(ents[m].uri) == ents[e].uri
    requires forall q {:trigger q in index} :: q in ents[e].children && q in index ==> index[q] in kids
    ensures forall x {:trigger x in full} :: x in full <==> x in head || (x in Below(ents, e) && x != e)
  {
    forall x {:trigger x in full} ensures x in full <==> x in head || (x in Below(ents, e) && x != e) {
      if x in Below(ents, e) && x != e {
        var k := ChildOnTheWay(ents, index, e, x);
        assert k in kids;
      }
      if x in full && x !in head {
        var k :| k in kids && k in ents && x in Below(ents, k);
        assert ents[e].uri == ents[k].uri[..|ents[e].uri|];
      }
    }
  }

  // ---------------------------------------------------------------- walking

  /** The first segment is a performer and every longer proper prefix is a registered container. */
  ghost predicate Walkable(ents: Ents, index: Index, path: Path)
    requires path != []
  {
    && path[..1] in index && index[path[..1]] in ents && ents[index[path[..1]]].kind == PERFORMER
    && (forall i {:trigger path[..i]} :: 1 < i < |path| ==>
          path[..i] in index && index[path[..i]] in ents && Container(ents[index[path[..i]]].kind))
  }

  /** In a well-formed hierarchy a registered path can be walked exactly when its root is a performer. */
  lemma RegisteredWalkable(ents: Ents, index: Index, path: Path)
    requires WellFormed(ents, index) && path in index && path != []
    ensures path[..1] in index && index[path[..1]] in ents
    ensures Walkable(ents, index, path) <==> ents[index[path[..1]]].kind == PERFORMER
  {
    PrefixLive(ents, index, index[path], 1);
    forall i {:trigger path[..i]} | 1 < i < |path|
      ensures path[..i] in index && index[path[..i]] in ents && Container(ents[index[path[..i]]].kind)
    {
      PrefixLive(ents, index, index[path], i);
    }
  }
}
