/** The entity hierarchy: records of all entities and the flat index, changed in place. Entity pointers are ids. */
module HierarchyTree {
  import opened Common
  import opened EntityTree
  import opened Reseating
  import opened Moves
  import opened Renaming
  import opened Attaching
  import opened Subtrees
  import opened Clashes

  /** The path an entity takes when its parent field becomes `p`: a path that already contains `p` is kept. */
  function NewPath(u: Path, p: Path): (r: Path)
    requires u != []
    ensures r != [] && Last(r) == Last(u)
  {
    if p == [] then [Last(u)] else if !Contains(u, p) then p + [Last(u)] else u
  }

  /** set_parent gives the path "parent plus own name" exactly when the old path does not contain the parent, or is
      that path already: an entity handed to a remote ancestor stays where it was. */
  lemma ParentTakesHold(u: Path, p: Path)
    requires u != []
    ensures NewPath(u, p) == p + [Last(u)] <==> !Contains(u, p) || Init(u) == p
  {
    assert u == Init(u) + [Last(u)];
    if u == p + [Last(u)] { assert Init(u) == p; }
  }

  lemma LeafParent(a: Ents, ia: Index, e: Id, n: string)
    requires WellFormed(a, ia) && e in a
    ensures Indexed(a, ia) && a[e].uri != [] && a[e].parent == Init(a[e].uri)
    ensures |a[e].uri| >= 2 <==> a[e].parent in ia
    ensures |a[e].uri| >= 2 ==> ia[Init(a[e].uri)] in a && a[ia[Init(a[e].uri)]].uri == Init(a[e].uri)
    ensures |a[e].uri| >= 2 ==> ia[Init(a[e].uri)] != e && |Init(a[e].uri) + [n]| >= 2
    ensures Last(Init(a[e].uri) + [n]) == n
  {}

  /** `e` bears its new name: at the top level if it has no parent, or if its parent has that path or lists it; under
      its parent otherwise. Nothing else about any entity changed, apart from the parent's child set. */
  ghost predicate LeafRenamed(a: Ents, ia: Index, e: Id, n: string, b: Ents)
    requires e in a && a[e].uri != []
  {
    var p := Init(a[e].uri);
    && b.Keys == a.Keys
    && b[e] == a[e].(uri := if p == [n] || HeldBack(a, ia, e, n) then [n] else p + [n],
                     parent := if HeldBack(a, ia, e, n) then [] else p)
    && forall x {:trigger b[x]} :: x in b && x != e ==>
         b[x] == a[x].(children := b[x].children) && (a[x].uri != p ==> b[x] == a[x])
  }

  /** The parent lists the new name as a top-level key. */
  ghost predicate HeldBack(a: Ents, ia: Index, e: Id, n: string)
    requires e in a && a[e].uri != []
  {
    var p := Init(a[e].uri);
    p != [] && p in ia && ia[p] in a && [n] in a[ia[p]].children
  }

  /** The parent lists the new path beside all it listed before, the old path included, and nothing more; a key that
      already was "parent plus new name" stays only if it is the new path. */
  ghost predicate ParentLists(a: Ents, ia: Index, e: Id, n: string, b: Ents)
    requires e in a && a[e].uri != [] && e in b
  {
    var p := Init(a[e].uri);
    p != [] ==>
      && p in ia && ia[p] in a && ia[p] in b && ia[p] != e
      && b[e].uri in b[ia[p]].children
      && (forall q {:trigger q in b[ia[p]].children} :: q in b[ia[p]].children <==>
            q == b[e].uri || (q in a[ia[p]].children && q != p + [n]))
  }

  ghost predicate LeafNameFree(a: Ents, ia: Index, e: Id, n: string) {
    && e in a && a[e].uri != []
    && (Init(a[e].uri) + [n] in ia ==> ia[Init(a[e].uri) + [n]] == e) && (|a[e].uri| >= 2 ==> [n] !in ia)
  }

  lemma LeafAbove(a: Ents, ia: Index, e: Id, n: string, b: Ents, ib: Index)
    requires Indexed(a, ia) && e in a && |a[e].uri| == 1 && a[e].parent == [] && b == a[e := a[e].(uri := [n])]
    requires ib == (ia - {a[e].uri})[[n] := e]
    ensures LeafRenamed(a, ia, e, n, b) && ParentLists(a, ia, e, n, b)
    ensures Indexed(b, ib) <==> LeafNameFree(a, ia, e, n)
  {
    ReseatKeepsIndex(a, ia, e, [n]);
    var c := Reseat(a, e, [n]);
    assert forall x {:trigger b[x]} {:trigger c[x]} :: x in b ==> b[x].uri == c[x].uri;
    assert Init(a[e].uri) + [n] == [n];
  }

  /** What the refresh of the parent's child set leaves, in terms of the records before the rename. */
  ghost predicate Refreshed(m: Ents, z: Id, e: Id, b: Ents)
    requires e in m && z in m && |m[e].uri| >= 2
  {
    var v, p := m[e].uri, m[z].uri;
    var held := [Last(v)] in m[z].children;
    && b.Keys == m.Keys
    && b[e] == m[e].(uri := if held then [Last(v)] else NewPath([Last(v)], p), parent := if held then [] else p)
    && b[z] == m[z].(children := m[z].children - {v} + {b[e].uri})
    && forall x {:trigger b[x]} :: x in b && x != e && x != z ==> b[x] == m[x]
  }

  lemma LeafBelow(a: Ents, ia: Index, z: Id, e: Id, n: string, m: Ents, im: Index, b: Ents, ib: Index)
    requires Indexed(a, ia) && e in a && |a[e].uri| >= 2 && z in a && z != e && a[z].uri == Init(a[e].uri)
    requires m == a[e := a[e].(uri := Init(a[e].uri) + [n])] && |m[e].uri| >= 2 && Refreshed(m, z, e, b)
    requires im == (ia - {a[e].uri})[m[e].uri := e]
    requires ib == Rekeyed(Rekeyed(im, m[e].uri, [n], e), [n], b[e].uri, e)
    ensures LeafRenamed(a, ia, e, n, b) && ParentLists(a, ia, e, n, b)
    ensures Indexed(b, ib) <==> LeafNameFree(a, ia, e, n)
  {
    hide Indexed, LeafRenamed, ParentLists;
    LeafRecords(a, ia, z, e, n, m, b);
    var v := Init(a[e].uri) + [n];
    assert Last(v) == n && (Contains([n], Init(a[e].uri)) ==> Init(a[e].uri) == [n]);
    RenamedKeys(a, ia, e, v, b[e].uri, b, ib);
  }

  lemma LeafRecords(a: Ents, ia: Index, z: Id, e: Id, n: string, m: Ents, b: Ents)
    requires Indexed(a, ia) && e in a && |a[e].uri| >= 2 && z in a && z != e && a[z].uri == Init(a[e].uri)
    requires m == a[e := a[e].(uri := Init(a[e].uri) + [n])] && |m[e].uri| >= 2 && Refreshed(m, z, e, b)
    ensures LeafRenamed(a, ia, e, n, b) && ParentLists(a, ia, e, n, b)
  {
    assert a[z].uri in ia && ia[a[z].uri] == z;
    assert forall x {:trigger a[x]} :: x in a && a[x].uri == Init(a[e].uri) ==> x == z;
    hide Indexed;
    assert Last(m[e].uri) == n && (Contains([n], Init(a[e].uri)) ==> Init(a[e].uri) == [n]);
  }

  lemma SeatIs(n: string, c: Path)
    requires c != []
    ensures NewPath(c, []) == [Last(c)] && NewPath([Last(c)], [n]) == Seat(n, c)
  {}

  datatype WalkResult = RangeError | Walked(found: Option<Id>)

  class Hierarchy {
    var ents: Ents
    var index: Index

    constructor ()
      ensures ents == map[] && index == map[] && WellFormed(ents, index)
    {
      ents, index := map[], map[];
    }

    /** register_entity: the record and its key; a key that was in use is overwritten. The hierarchy stays well formed
        if and only if the path is new, no stray child key names it, and a parent it has is a container that lists
        it. */
    method Register(x: Id, uri: Path, kind: Kind)
      requires WellFormed(ents, index) && x !in ents
      modifies this
      ensures ents == old(ents)[x := Entity(uri, if uri == [] then [] else Init(uri), {}, kind)]
              && index == old(index)[uri := x]
      ensures WellFormed(ents, index) <==> MayRegister(old(ents), old(index), uri)
    {
      hide WellFormed, MayRegister;
      ghost var a, ia := ents, index;
      ents := ents[x := Entity(uri, if uri == [] then [] else Init(uri), {}, kind)];
      index := index[uri := x];
      if MayRegister(a, ia, uri) { RegisterKeeps(a, ia, x, uri, kind); }
      if WellFormed(ents, index) { RegisterNeeds(a, ia, x, uri, kind); }
    }

    /** add_proxy_entity: a known parent lists the new entity, then it is registered. */
    method AddProxy(x: Id, uri: Path, kind: Kind)
      requires WellFormed(ents, index) && x !in ents
      modifies this
      ensures ents == WithChild(old(ents), old(index), uri)
                      [x := Entity(uri, if uri == [] then [] else Init(uri), {}, kind)]
      ensures index == old(index)[uri := x]
    {
      if uri != [] && Init(uri) in index && index[Init(uri)] in ents {
        var z := index[Init(uri)];
        ents := ents[z := ents[z].(children := ents[z].children + {uri})];
      }
      ents := ents[x := Entity(uri, if uri == [] then [] else Init(uri), {}, kind)];
      index := index[uri := x];
    }

    /** The reaper's cleanup of one entity: its key and its record go. */
    method Remove(x: Id)
      requires x in ents
      modifies this
      ensures ents == old(ents) - {x} && index == old(index) - {old(ents)[x].uri}
    {
      index := index - {ents[x].uri};
      ents := ents - {x};
    }

    /** The children of `e`: keys of its child set that resolve, in iteration order. */
    method ChildBundle(e: Id) returns (bundle: seq<Id>)
      requires e in ents && Resolves(ents, index, e)
      ensures forall x :: x in bundle ==> x in ents && ents[x].uri in ents[e].children
      ensures forall q :: q in ents[e].children && q in index ==> index[q] in bundle
      ensures forall i, j :: 0 <= i < j < |bundle| ==> bundle[i] != bundle[j]
    {
      bundle := [];
      var rest := ents[e].children;
      while rest != {}
        invariant rest <= ents[e].children
        invariant forall x :: x in bundle ==> x in ents && ents[x].uri in ents[e].children && ents[x].uri !in rest
        invariant forall q :: q in ents[e].children && q !in rest && q in index ==> index[q] in bundle
        invariant forall i, j :: 0 <= i < j < |bundle| ==> bundle[i] != bundle[j]
        decreases rest
      {
        var q :| q in rest;
        rest := rest - {q};
        if q in index { bundle := bundle + [index[q]]; }
      }
    }

    /** ZstEntityBase::set_parent with the index update it triggers. */
    method BaseSetParent(e: Id, np: Option<Id>)
      requires e in ents && ents[e].uri != [] && (np.Some? ==> np.value in ents)
      modifies this
      ensures var p := if np.Some? then old(ents)[np.value].uri else [];
              var v := NewPath(old(ents)[e].uri, p);
              ents == old(ents)[e := old(ents)[e].(uri := v, parent := p)]
                && index == Rekeyed(old(index), old(ents)[e].uri, v, e)
    {
      var origPath := ents[e].uri;
      var p := if np.Some? then ents[np.value].uri else [];
      ents := ents[e := ents[e].(parent := p)];
      if p == [] {
        ents := ents[e := ents[e].(uri := [Last(ents[e].uri)])];
      } else if !Contains(ents[e].uri, p) {
        ents := ents[e := ents[e].(uri := p + [Last(ents[e].uri)])];
      }
      index := index - {origPath};
      index := index[ents[e].uri := e];
    }

    /** ZstComponent::set_parent: the entity moves, then every child is removed and added again. */
    method SetParent(e: Id, np: Option<Id>, ghost sh: Shape, ghost loose: set<Id>, ghost v: Path)
      requires Good(ents, index, sh, loose) && e in ents && e in loose && OnlyLoose(sh, loose, e) && Unlisted(ents, e)
      requires np.Some? ==> np.value in ents && !Contains(ents[e].uri, ents[np.value].uri)
      requires v == (if np.Some? then ents[np.value].uri else []) + [sh.names[e]] && MayMove(ents, index, sh, e, v)
      modifies this
      ensures Good(ents, index, sh, loose) && Settled(old(ents), old(index), ents, index, sh, e, v) && Unlisted(ents, e)
      decreases sh.sub[e], 1
    {
      hide Indexed, Fits, Listed, Formed, Housed, Parented, Clear, Tidy, Vacant, NoKey, SameOutside, StaleKept, Seated,
           Unlisted, Carried;
      ghost var a, ia := ents, index;
      HasPath(a, ia, e, np);
      BaseSetParent(e, np);
      ghost var b, ib := ents, index;
      ReseatMatches(a, ia, sh, e, np, v);
      AfterReseat(a, ia, b, ib, sh, loose, e, np, v);
      if Container(ents[e].kind) {
        AllResolve(ents, index, e);
        var bundle := ChildBundle(e);
        KidsListed(sh, loose, e);
        BundleIsKids(b, ib, sh, loose, e, bundle);
        ReattachChildren(e, bundle, sh, loose);
      } else {
        NothingBelow(b, sh, e);
        SameHere(b, ib, sh.sub[e]);
      }
      AfterReattach(a, ia, b, ib, ents, index, sh, loose, e, v);
    }

    /** ZstComponent::remove_child for a child `k` of `z`. */
    method RemoveChild(z: Id, k: Id, ghost sh: Shape, ghost loose: set<Id>)
      requires sh.sub.Keys == sh.names.Keys == sh.rank.Keys == ents.Keys && Formed(sh)
      requires k in ents && k in sh.own && z == sh.own[k] && z in ents && OnlyLoose(sh, loose, k)
      requires MayMove(ents, index, sh, k, [sh.names[k]]) && Good(ents, index, sh, loose)
      modifies this
      ensures k in ents && Unlisted(ents, k) && Good(ents, index, sh, loose + {k})
      ensures Settled(Unlist(old(ents), z, old(ents)[k].uri), old(index), ents, index, sh, k, [sh.names[k]])
      decreases sh.sub[k], 2
    {
      hide Indexed, Fits, Listed, Formed, Housed, Parented, Clear, Tidy, Vacant, NoKey, SameOutside, StaleKept, Seated,
           Unlisted, Carried;
      ghost var a, ia := ents, index;
      KeyIsLive(a, ia, sh, loose, k);
      if ents[k].uri in ents[z].children {
        ents := ents[z := ents[z].(children := ents[z].children - {ents[k].uri})];
      }
      UnlistAbsent(a, z, a[k].uri);
      UnlistAgrees(a, ia, sh, loose, k, z, ents);
      UnlistMayMove(a, ia, z, a[k].uri, ents, sh, k, [sh.names[k]]);
      SetParent(k, None, sh, loose + {k}, [sh.names[k]]);
    }

    /** ZstComponent::add_child for an entity `k` that `z` is to own. */
    method AddChild(z: Id, k: Id, ghost sh: Shape, ghost loose: set<Id>, ghost v: Path) returns (ghost c: Ents)
      requires Good(ents, index, sh, loose) && k in ents && k in sh.own && z == sh.own[k] && z in ents && k in loose
               && OnlyLoose(sh, loose, k)
      requires Unlisted(ents, k) && !Contains(ents[k].uri, ents[z].uri)
      requires v == ents[z].uri + [sh.names[k]] && MayMove(ents, index, sh, k, v)
      modifies this
      // `c` is the hierarchy just before the new key joins the child set of `z`
      ensures Good(ents, index, sh, loose - {k})
      ensures z in c && ents == Enlist(c, z, v) && Agree(c, index, sh, loose)
      ensures Settled(old(ents), old(index), c, index, sh, k, v)
      decreases sh.sub[k], 2
    {
      hide Indexed, Fits, Listed, Formed, Housed, Parented, Clear, Tidy, Vacant, NoKey, SameOutside, StaleKept, Seated,
           Unlisted, Carried;
      ghost var a, ia := ents, index;
      NotYetChild(a, k, z);
      if ents[k].uri in ents[z].children { return; }
      SetParent(k, Some(z), sh, loose, v);
      c := ents;
      SettledAt(a, ia, c, index, sh, k, v);
      ents := ents[z := ents[z].(children := ents[z].children + {ents[k].uri})];
      EnlistAgrees(c, index, sh, loose, k, z, ents);
      HousedSame(c, ents, sh);
      EnlistParented(c, z, v, ents);
    }

    /** The loop shared by ZstComponent::set_parent and ZstComponent::set_name. */
    method ReattachChildren(e: Id, bundle: seq<Id>, ghost sh: Shape, ghost loose: set<Id>)
      requires Good(ents, index, sh, loose) && e in ents && OnlyLoose(sh, loose, e)
      requires forall k {:trigger k in bundle} {:trigger sh.own[k]} :: k in bundle <==> k in sh.own && sh.own[k] == e
      requires forall i, j :: 0 <= i < j < |bundle| ==> bundle[i] != bundle[j]
      requires Tidy(sh, e) && Clear(ents, index, sh, e) && Vacant(ents, index, sh, e, {})
      modifies this
      ensures Good(ents, index, sh, loose) && Settled(old(ents), old(index), ents, index, sh, e, old(ents)[e].uri)
      decreases sh.sub[e], 0
    {
      hide Indexed, Fits, Listed, Formed, Housed, Parented, Clear, Tidy, Vacant, NoKey, SameOutside, StaleKept, Seated,
           Unlisted, Carried;
      ghost var a0, i0, u := ents, index, ents[e].uri;
      ghost var done: set<Id> := {};
      SameHere(a0, i0, sh.sub[e]);
      KidsListed(sh, loose, e);
      for i := 0 to |bundle|
        invariant Good(ents, index, sh, loose) && e in ents && ents[e].uri == u
        invariant Clear(ents, index, sh, e) && Vacant(ents, index, sh, e, done)
        invariant SameOutside(a0, ents, sh.sub[e]) && StaleKept(a0, i0, ents, index)
        invariant done == set j | 0 <= j < i :: bundle[j]
        invariant forall k {:trigger k in done} :: k in done ==>
                    k in ents && k in sh.own && sh.own[k] == e && Seated(ents, sh, k, u + [sh.names[k]])
      {
        var k := bundle[i];
        assert k in bundle && k !in done;
        ghost var a, ia := ents, index;
        ChildSubtree(sh, k);
        MayDetach(a, ia, sh, loose, e, k);
        RemoveChild(e, k, sh, loose);
        ghost var b, ib := ents, index;
        MayReturn(a, ia, b, ib, sh, loose, e, k, done);
        ghost var c := AddChild(e, k, sh, loose + {k}, u + [sh.names[k]]);
        Returned(a, ia, b, ib, c, ents, index, sh, loose, e, k, done);
        StaleKeptTwice(a0, i0, a, ia, ents, index);
        OutsideTwice(a0, a, ents, sh.sub[e]);
        assert loose + {k} - {k} == loose;
        forall m {:trigger m in done + {k}} | m in done + {k} ensures Seated(ents, sh, m, u + [sh.names[m]]) {
          if m != k { SeatedAside(a, ents, sh, e, k, m, u + [sh.names[m]]); }
        }
        done := done + {k};
      }
      AllSeatedNow(ents, sh, e, bundle, done, u);
    }

    /** The child-set refresh in ZstEntityBase::set_name: out of the parent and back in. */
    method Refresh(z: Id, e: Id, ghost a: Ents, ghost sr: Shape, ghost v: Path)
      requires Good(ents, index, sr, {e}) && Covers(sr, ents) && e in ents && e in sr.own && sr.own[e] == z && z in ents
               && OnlyLoose(sr, {e}, e)
      requires Unlisted(ents, e) && OnlyUnder(ents, index, v, {e}) && Tidy(sr, e) && Clear(ents, index, sr, e)
      requires NoKey(ents, index, [sr.names[e]]) && v == ents[z].uri + [sr.names[e]] && v[0] != sr.names[e]
      requires e in a && ents == Reseat(a, e, v) && Covers(sr, a)
      modifies this
      ensures ents.Keys == a.Keys && Good(ents, index, sr, {}) && ents[e].uri == v
      ensures Clear(ents, index, sr, e) && Vacant(ents, index, sr, e, {})
      ensures SameElsewhere(a, ents, sr.sub[e]) && StaleKept(old(ents), old(index), ents, index)
    {
      hide Indexed, Fits, Listed, Formed, Housed, Parented, Clear, Tidy, Vacant, NoKey, SameOutside, StaleKept, Seated,
           Unlisted, Carried;
      hide SameElsewhere, OnlyUnder, Agree, Settled;
      ghost var m, im := ents, index;
      RemoveChild(z, e, sr, {e});
      ghost var c, ic := ents, index;
      NotYetChild(m, e, z);
      UnlistAbsent(m, z, v);
      assert {e} + {e} == {e};
      RenameReturns(m, im, c, ic, sr, e, z, sr.names[e], v);
      ghost var d := AddChild(z, e, sr, {e}, v);
      assert {e} - {e} == {};
      RenameResettled(a, m, im, c, ic, d, ents, index, sr, e, z, v);
    }

    /** ZstEntityBase::set_name: a new last segment, then the parent's child set is refreshed. */
    method BaseSetName(e: Id, n: string, ghost sh: Shape, ghost sr: Shape, ghost m: Ents, ghost im: Index)
      requires WellFormed(ents, index) && e in ents && ents[e].uri != [] && MayRename(ents, index, e, n)
      requires sh == ShapeOf(ents, index) && sr == Renamed(sh, e, n) && Covers(sr, ents)
      // `m` and `im` are the records and index once the path alone has changed
      requires var v := Init(ents[e].uri) + [n]; m == Reseat(ents, e, v) && im == Rekeyed(index, ents[e].uri, v, e)
      modifies this
      ensures ents.Keys == old(ents).Keys && Good(ents, index, sr, {})
      ensures ents[e].uri == Init(old(ents)[e].uri) + [n]
      ensures Tidy(sr, e) && Clear(ents, index, sr, e) && Vacant(ents, index, sr, e, {})
      ensures SameElsewhere(old(ents), ents, sr.sub[e]) && StaleKept(m, im, ents, index)
    {
      hide Indexed, Fits, Listed, Formed, Housed, Parented, Clear, Tidy, Vacant, NoKey, SameOutside, StaleKept, Seated,
           Unlisted, Carried;
      hide WellFormed, ShapeOf, NamesFree, ChainsDiffer, SameElsewhere, OnlyUnder, Good, OnlyLoose;
      ghost var a, ia := ents, index;
      RenameParent(a, ia, sh, e, n);
      HasParts(a, ia);
      var origPath := ents[e].uri;
      var parent := if ents[e].parent in index then Some(index[ents[e].parent]) else None;
      var v := if parent.Some? then Init(origPath) + [n] else [n];
      ents := ents[e := ents[e].(uri := v)];
      index := index - {origPath};
      index := index[v := e];
      RenameStep(a, ia, sh, sr, e, n, v, m, im);
      if parent.Some? {
        NewNameFree(a, ia, e, n, v, m, im);
        Refresh(parent.value, e, a, sr, v);
      } else {
        TightenGood(m, im, sr, e);
        SameElsewhereReseat(a, m, sr, e, v);
        SameHere(m, im, {});
      }
    }

    /** set_name: every path under `e` changes its segment for `e` to `n`, and the index follows. */
    method SetName(e: Id, n: string)
      requires WellFormed(ents, index) && e in ents && ents[e].uri != [] && MayRename(ents, index, e, n)
      modifies this
      ensures WellFormed(ents, index)
      ensures Moved(old(ents), old(index), ents, index, old(ents)[e].uri, Init(old(ents)[e].uri) + [n],
              Leftover(old(ents), old(index), e))
    {
      hide Indexed, Fits, Listed, Formed, Housed, Parented, Clear, Tidy, Vacant, NoKey, SameOutside, StaleKept, Seated,
           Unlisted, Carried;
      hide WellFormed, ShapeOf, NamesFree, ChainsDiffer, SameElsewhere, OnlyUnder, Moved, Leftover;
      ghost var a, ia, u := ents, index, ents[e].uri;
      ghost var v := Init(u) + [n];
      ghost var sh := ShapeOf(a, ia);
      ghost var sr, m, im := Renamed(sh, e, n), Reseat(a, e, v), Rekeyed(ia, u, v, e);
      HasParts(a, ia);
      ShapeCovers(a, ia);
      ShapeFormed(a, ia);
      ShapeAgrees(a, ia);
      var bundle := [];
      if Container(ents[e].kind) {
        AllResolve(ents, index, e);
        bundle := ChildBundle(e);
        KidsListed(sh, {}, e);
        BundleIsKids(a, ia, sh, {}, e, bundle);
      }
      BaseSetName(e, n, sh, sr, m, im);
      ghost var c, ic := ents, index;
      KindKept(a, c, sr.sub[e], e);
      if Container(ents[e].kind) {
        ReattachChildren(e, bundle, sr, {});
        OutsideElsewhere(c, ents, sr.sub[e]);
        SameElsewhereTwice(a, c, ents, sr.sub[e]);
        StaleKeptTwice(m, im, c, ic, ents, index);
      } else {
        NothingBelow(c, sr, e);
      }
      RenameDone(a, ia, sh, sr, e, n, v, m, im, ents, index);
    }

    /** set_name of an entity without children, whatever the names: below a parent it goes through the top level, where
        an old key of the parent may hold it back. The index is still right exactly when nothing else had the new path
        and, below a parent, the top level was free of the new name. */
    method SetNameLeaf(e: Id, n: string)
      requires WellFormed(ents, index) && e in ents && ents[e].children == {}
      modifies this
      ensures old(ents)[e].uri != [] && LeafRenamed(old(ents), old(index), e, n, ents)
      ensures ParentLists(old(ents), old(index), e, n, ents)
      ensures Indexed(ents, index) <==> LeafNameFree(old(ents), old(index), e, n)
    {
      hide WellFormed, Indexed, LeafRenamed, ParentLists, LeafNameFree, Rekeyed;
      ghost var a, ia := ents, index;
      LeafParent(a, ia, e, n);
      var origPath := ents[e].uri;
      var parent := if ents[e].parent in index then Some(index[ents[e].parent]) else None;
      var v := if parent.Some? then Init(origPath) + [n] else [n];
      ents := ents[e := ents[e].(uri := v)];
      index := index - {origPath};
      index := index[v := e];
      ghost var m, im := ents, index;
      if parent.Some? {
        RefreshLeaf(parent.value, e);
        LeafBelow(a, ia, parent.value, e, n, m, im, ents, index);
      } else {
        LeafAbove(a, ia, e, n, ents, index);
      }
    }

    /** The child-set refresh of a rename, for an entity without children: out of the parent's set and back in, unless a
        child key of the parent already is the name alone. */
    method RefreshLeaf(z: Id, e: Id)
      requires e in ents && z in ents && e != z && |ents[e].uri| >= 2
      modifies this
      ensures Refreshed(old(ents), z, e, ents)
      ensures var v := old(ents)[e].uri;
              index == Rekeyed(Rekeyed(old(index), v, [Last(v)], e), [Last(v)], ents[e].uri, e)
    {
      ghost var v := ents[e].uri;
      if ents[e].uri in ents[z].children {
        ents := ents[z := ents[z].(children := ents[z].children - {ents[e].uri})];
      }
      BaseSetParent(e, None);
      assert ents[e].uri == [Last(v)];
      if ents[e].uri in ents[z].children {
        SameKey(index, [Last(v)], e);
        return;
      }
      BaseSetParent(e, Some(z));
      ents := ents[z := ents[z].(children := ents[z].children + {ents[e].uri})];
    }

    /** remove_child on the entity's parent: the subtree moves to the top level under its own name. */
    method Detach(z: Id, e: Id)
      requires WellFormed(ents, index) && e in ents && z in ents && |ents[e].uri| >= 2
               && ents[z].uri == Init(ents[e].uri)
      requires NoKey(ents, index, [Last(ents[e].uri)]) && NamesApart(ents, index, e)
      modifies this
      ensures WellFormed(ents, index) && Moved(old(ents), old(index), ents, index, old(ents)[e].uri,
              [Last(old(ents)[e].uri)], {})
    {
      hide Indexed, Fits, Listed, Formed, Housed, Parented, Clear, Tidy, Vacant, NoKey, SameOutside, StaleKept, Seated,
           Unlisted, Carried;
      hide WellFormed, ShapeOf, NamesApart, Moved;
      ghost var a, ia := ents, index;
      ghost var sh := ShapeOf(a, ia);
      ApartShape(a, ia, sh, e);
      SameName(a, ia, sh, e);
      OwnerIs(a, ia, sh, z, e);
      UriLive(a, ia, e);
      RemoveChild(z, e, sh, {});
      assert {} + {e} == {e};
      DetachDone(a, ia, sh, z, e, Unlist(a, z, a[e].uri), ents, index);
    }

    /** remove_child and add_child of `k` by `e`, for a `k` that has no children: it goes through the top level. */
    method ReattachLeaf(e: Id, k: Id)
      requires e in ents && k in ents && e != k && |ents[e].uri| == 1 && ents[k].uri != [] && ents[k].children == {}
      requires ents[k].uri in ents[e].children && [Last(ents[k].uri)] !in ents[e].children
      modifies this
      ensures var c, n := old(ents)[k].uri, Last(old(ents)[e].uri);
              && ents == old(ents)[e := old(ents)[e].(children := old(ents)[e].children - {c} + {Seat(n, c)})]
                         [k := old(ents)[k].(uri := Seat(n, c), parent := [n])]
              && index == Rekeyed(Rekeyed(old(index), c, [Last(c)], k), [Last(c)], Seat(n, c), k)
    {
      assert ents[e].uri == [Last(ents[e].uri)];
      if ents[k].uri in ents[e].children {
        ents := ents[e := ents[e].(children := ents[e].children - {ents[k].uri})];
      }
      ghost var c, n := old(ents)[k].uri, Last(old(ents)[e].uri);
      BaseSetParent(k, None);
      assert ents[k].uri == [Last(c)] && NewPath([Last(c)], [n]) == Seat(n, c) by { SeatIs(n, c); }
      if ents[k].uri in ents[e].children { return; }
      BaseSetParent(k, Some(e));
      ents := ents[e := ents[e].(children := ents[e].children + {ents[k].uri})];
    }

    method ReattachLeaves(bundle: seq<Id>, ghost a: Ents, ghost ia: Index, z: Id, e: Id, ghost u: Path,
          ghost kids: set<Path>)
      requires Indexed(a, ia) && KidsOf(a, ia, e, u, kids) && Flat(a, ia, e) && z in a && a[z].uri == Init(u)
      requires FlatEnts(a, ents, z, e, u, kids, {}) && FlatKeys(ia, index, e, u, kids, {})
      requires forall k {:trigger k in bundle} :: k in bundle ==> k in a && a[k].uri in kids
      requires forall c {:trigger c in kids} :: c in kids ==> ia[c] in bundle
      requires forall i, j :: 0 <= i < j < |bundle| ==> bundle[i] != bundle[j]
      modifies this
      ensures FlatEnts(a, ents, z, e, u, kids, kids) && FlatKeys(ia, index, e, u, kids, kids)
    {
      hide Indexed, FlatKeys, FlatEnts, Flat;
      ghost var done: set<Path> := {};
      for i := 0 to |bundle|
        invariant done <= kids && FlatEnts(a, ents, z, e, u, kids, done) && FlatKeys(ia, index, e, u, kids, done)
        invariant done == PathsTo(a, bundle, i)
      {
        var k := bundle[i];
        assert k in bundle;
        ghost var c, b, ib := a[k].uri, ents, index;
        LeafNext(a, ia, b, z, e, u, kids, done, k, bundle, i);
        ReattachLeaf(e, k);
        EntsNext(a, ia, b, z, e, u, kids, done, c, k, ents);
        FlatNext(ia, ib, e, u, kids, done, c, k);
        done := done + {c};
      }
      forall c {:trigger c in kids} | c in kids ensures c in done {
        var j :| 0 <= j < |bundle| && bundle[j] == ia[c];
        assert a[bundle[j]].uri == c;
      }
      assert done == kids;
    }

    /** remove_child on the parent of an entity whose children have no children, whatever the names: where every record
        and key ends. */
    method DetachLeaves(z: Id, e: Id)
      requires WellFormed(ents, index) && e in ents && z in ents && |ents[e].uri| >= 2
      requires ents[z].uri == Init(ents[e].uri) && Flat(ents, index, e)
      modifies this
      ensures var u, kids := old(ents)[e].uri, old(ents)[e].children;
              && KidsOf(old(ents), old(index), e, u, kids) && FlatEnts(old(ents), ents, z, e, u, kids, kids)
              && FlatKeys(old(index), index, e, u, kids, kids)
    {
      hide WellFormed, Indexed, FlatKeys, KeyThere, KeyLeads, Flat;
      ghost var a, ia, u, kids := ents, index, ents[e].uri, ents[e].children;
      TheKids(a, ia, e);
      NoKids(a, ia, e);
      HasParts(a, ia);
      UnlistAbsent(a, z, u);
      if ents[e].uri in ents[z].children {
        ents := ents[z := ents[z].(children := ents[z].children - {ents[e].uri})];
      }
      BaseSetParent(e, None);
      FlatStart(ia, e, u, kids);
      FlatBegins(a, ia, z, e, u, kids, ents, index);
      if Container(ents[e].kind) {
        var bundle := ChildBundle(e);
        ReattachLeaves(bundle, a, ia, z, e, u, kids);
      }
    }

    /** What is found after it: the entity at its landing exactly when no child is named like it; a top-level entity of
        another name exactly when no child is named like that; and the index as a whole is still right exactly when the
        landing was free and no child is named like it or like a top-level entity. */
    method DetachFlat(z: Id, e: Id)
      requires WellFormed(ents, index) && e in ents && z in ents && |ents[e].uri| >= 2
      requires ents[z].uri == Init(ents[e].uri) && Flat(ents, index, e)
      modifies this
      ensures var u, kids := old(ents)[e].uri, old(ents)[e].children;
              && FlatEnts(old(ents), ents, z, e, u, kids, kids) && FlatKeys(old(index), index, e, u, kids, kids)
              && [Last(u)] in index && (index[[Last(u)]] == e <==> u + [Last(u)] !in kids)
              && (u + [Last(u)] in kids ==>
                    u + [Last(u)] in old(index) && index[[Last(u)]] == old(index)[u + [Last(u)]]
                    && Bare(ents, index[[Last(u)]]))
              && (forall q {:trigger q in index} :: |q| == 1 && q in old(index) && q != [Last(u)] ==>
                    (q in index <==> u + q !in kids) && (q in index ==> index[q] == old(index)[q]))
              && (Indexed(ents, index) <==> FlatApart(old(index), u, kids))
    {
      hide WellFormed, Indexed, FlatKeys, FlatEnts, KidsOf, FlatApart, KeyThere, KeyLeads, Flat, Bare;
      ghost var a, ia, u, kids := ents, index, ents[e].uri, ents[e].children;
      DetachLeaves(z, e);
      HasParts(a, ia);
      FlatIndexed(a, ia, ents, index, z, e, u, kids);
      FlatFound(a, ia, ents, index, z, e, u, kids);
      FlatBare(a, ia, ents, z, e, u, kids);
    }

    /** add_child of a top-level entity: the subtree moves under `z`. */
    method Attach(z: Id, e: Id)
      requires WellFormed(ents, index) && e in ents && z in ents && |ents[e].uri| == 1 && MayAttach(ents, index, z, e)
      modifies this
      ensures WellFormed(ents, index)
      ensures Moved(old(ents), old(index), ents, index, old(ents)[e].uri, old(ents)[z].uri + old(ents)[e].uri, {})
    {
      hide Indexed, Fits, Listed, Formed, Housed, Parented, Clear, Tidy, Vacant, NoKey, SameOutside, StaleKept, Seated,
           Unlisted, Carried;
      hide WellFormed, ShapeOf, MayAttach, Moved, Grafted;
      ghost var a, ia := ents, index;
      ghost var sh := ShapeOf(a, ia);
      ShapeCovers(a, ia);
      ghost var sg := Grafted(sh, e, z);
      AttachReady(a, ia, sh, sg, z, e);
      GraftedKeys(sh, e, z);
      ghost var c := AddChild(z, e, sg, {e}, a[z].uri + [sg.names[e]]);
      assert {e} - {e} == {};
      AttachDone(a, ia, sh, sg, z, e, c, ents, index);
    }

    /** set_parent inside such an add_child: `sg` is the tree in which `z` already owns `e`. */
    method SetParentFrom(z: Id, e: Id, ghost sh: Shape, ghost sg: Shape, ghost v: Path, ghost m: Ents, ghost im: Index)
      requires e in ents && z in ents && ents[e].uri != [] && v == ents[z].uri + [Last(ents[e].uri)]
               && MayTake(ents, index, z, e)
      requires Formed(sh) && e in sh.sub && z in sh.rank && sg == Regrafted(sh, e, z) && WellFormed(ents, index)
               && sh == ShapeOf(ents, index)
      // `m` and `im` are the records and index once the path alone has changed
      requires m.Keys == ents.Keys && m == Reseat(ents, e, v) && im == Rekeyed(index, ents[e].uri, v, e)
      modifies this
      ensures Formed(sg) && Covers(sg, m) && e in m && e in ents && z in ents && Settled(m, im, ents, index, sg, e, v)
              && Good(ents, index, sg, {e})
      ensures e in sh.sub && e in sg.sub && e in sg.names && Covers(sh, old(ents)) && z !in sh.sub[e]
              && sg.sub[e] == sh.sub[e] && sg.own == sh.own[e := z] && sg.names == sh.names && sg.names[e] == Last(v)
    {
      hide Indexed, Fits, Listed, Formed, Housed, Parented, Clear, Tidy, Vacant, NoKey, SameOutside, StaleKept, Seated,
           Unlisted, Carried;
      hide WellFormed, ShapeOf, NamesApart, Regrafted;
      ghost var a, ia := ents, index;
      HasParts(a, ia);
      HasPath(a, ia, e, Some(z));
      BaseSetParent(e, Some(z));
      TakeStep(a, ia, sh, sg, z, e, v, m, im);
      if Container(ents[e].kind) {
        AllResolve(ents, index, e);
        var bundle := ChildBundle(e);
        KidsListed(sg, {e}, e);
        BundleIsKids(m, im, sg, {e}, e, bundle);
        ReattachChildren(e, bundle, sg, {e});
      } else {
        NothingBelow(m, sg, e);
        SameHere(m, im, sg.sub[e]);
      }
      SettledAt(m, im, ents, index, sg, e, v);
    }

    /** add_child of an entity that still has another parent: the subtree moves straight under `z`, and the old parent
        keeps the old key. */
    method AttachFrom(z: Id, e: Id)
      requires WellFormed(ents, index) && e in ents && z in ents && ents[e].uri != [] && MayTake(ents, index, z, e)
      modifies this
      ensures WellFormed(ents, index)
      ensures Moved(old(ents), old(index), ents, index, old(ents)[e].uri, old(ents)[z].uri + [Last(old(ents)[e].uri)],
              Leftover(old(ents), old(index), e))
    {
      hide Indexed, Fits, Listed, Formed, Housed, Parented, Clear, Tidy, Vacant, NoKey, SameOutside, StaleKept, Seated,
           Unlisted, Carried;
      hide WellFormed, ShapeOf, NamesApart, Moved, Regrafted, Leftover;
      ghost var a, ia, v := ents, index, ents[z].uri + [Last(ents[e].uri)];
      ghost var sh := ShapeOf(a, ia);
      ShapeCovers(a, ia);
      ShapeFormed(a, ia);
      ghost var sg := Regrafted(sh, e, z);
      NotListedThere(a, ia, z, e);
      if ents[e].uri in ents[z].children { return; }
      ghost var m, im := Reseat(a, e, v), Rekeyed(ia, a[e].uri, v, e);
      SetParentFrom(z, e, sh, sg, v, m, im);
      ghost var b := ents;
      SettledAt(m, im, b, index, sg, e, v);
      HasPath(b, index, e, None);
      ents := ents[z := ents[z].(children := ents[z].children + {ents[e].uri})];
      EnlistAgrees(b, index, sg, {e}, e, z, ents);
      assert {e} - {e} == {};
      HousedSame(b, ents, sg);
      EnlistParented(b, z, v, ents);
      TakeDone(a, ia, sh, sg, z, e, v, m, im, b, ents, index);
    }

    /** Reparenting: the old parent removes the child and `z` adds it. */
    method Reparent(e: Id, z: Id)
      requires WellFormed(ents, index) && e in ents && z in ents && |ents[e].uri| >= 2 && MayReparent(ents, index, e, z)
      modifies this
      ensures WellFormed(ents, index)
      ensures Moved(old(ents), old(index), ents, index, old(ents)[e].uri, old(ents)[z].uri + [Last(old(ents)[e].uri)],
              {})
    {
      hide Indexed, NoKey, WellFormed, NamesApart, Moved, MayAttach;
      ghost var a, ia, n := ents, index, Last(ents[e].uri);
      ParentFound(a, ia, e);
      Detach(index[Init(ents[e].uri)], e);
      ghost var b, ib := ents, index;
      ReparentReady(a, ia, b, ib, e, z, n);
      Attach(z, e);
      HasParts(a, ia);
      HasParts(ents, index);
      MovedTwice(a, ia, b, ib, ents, index, a[e].uri, [n], a[z].uri + [n]);
    }

    // ---------------------------------------------------------------- reading

    /** get_child_entities of the base class. */
    method BaseChildEntities(e: Id, withSelf: bool, filter: Option<Kind>, bundle: seq<Id>) returns (b: seq<Id>)
      requires e in ents
      ensures b == bundle + Filtered(ents, if withSelf then [e] else [], filter)
    {
      b := if withSelf && (filter.None? || ents[e].kind == filter.value) then bundle + [e] else bundle;
    }

    /** Recursive get_child_entities: `full` is the whole subtree, each entity once, ancestors first; the bundle
        grows by what of it passes the filter, in that order. */
    method ChildEntities(e: Id, withSelf: bool, filter: Option<Kind>, bundle: seq<Id>) returns (b: seq<Id>,
          ghost full: seq<Id>)
      requires WellFormed(ents, index) && e in ents
      ensures b == bundle + Filtered(ents, full, filter)
      ensures Distinct(full) && AncestorsFirst(ents, full)
      ensures forall x {:trigger x in full} :: x in full <==> x in Below(ents, e) && (withSelf || x != e)
      decreases Below(ents, e)
    {
      hide WellFormed, Filtered;
      HasParts(ents, index);
      ghost var head := if withSelf then [e] else [];
      b := BaseChildEntities(e, withSelf, filter, bundle);
      full := head;
      ghost var kids: set<Id> := {};
      if Container(ents[e].kind) {
        var rest := ents[e].children;
        while rest != {}
          invariant rest <= ents[e].children
          invariant b == bundle + Filtered(ents, full, filter)
          invariant ListedSoFar(ents, e, head, kids, full)
          invariant forall k :: k in kids ==>
                    k in ents && |ents[k].uri| >= 2 && Init(ents[k].uri) == ents[e].uri && ents[k].uri !in rest
          invariant forall q {:trigger q in index} :: q in ents[e].children && q !in rest && q in index ==>
                    index[q] in kids
          decreases rest
        {
          var q :| q in rest;
          rest := rest - {q};
          if q in index {
            ghost var before := full;
            ChildIsBelow(ents, index, e, q);
            ghost var more: seq<Id>;
            b, more := ChildEntities(index[q], true, filter, b);
            FilteredSum(ents, full, more, filter);
            ListNext(ents, index, e, head, kids, full, index[q], more);
            full := full + more;
            kids := kids + {index[q]};
          }
        }
        ListAll(ents, index, e, head, kids, full);
      } else {
        LeafHasNone(ents, index, e);
      }
      SelfIsBelow(ents, e);
    }

    /** The same on an empty bundle: each entity of the subtree that passes the filter, once, ancestors first. */
    method GetChildEntities(e: Id, withSelf: bool, filter: Option<Kind>) returns (b: seq<Id>)
      requires WellFormed(ents, index) && e in ents
      ensures Distinct(b) && AncestorsFirst(ents, b)
      ensures forall x {:trigger x in b} :: x in b <==>
              x in Below(ents, e) && (withSelf || x != e) && Passes(ents, x, filter)
    {
      hide WellFormed, Distinct, AncestorsFirst, Below, Passes, Filtered;
      ghost var full: seq<Id>;
      b, full := ChildEntities(e, withSelf, filter, []);
      assert b == Filtered(ents, full, filter);
      FilteredKeeps(ents, full, filter);
      forall x {:trigger x in b} ensures x in b <==> x in full && Passes(ents, x, filter) {
        FilteredMembers(ents, full, filter, x);
      }
    }

    /** walk_to_entity: exactly the flat lookup on walkable paths, and nothing on others. */
    method WalkToEntity(path: Path) returns (r: WalkResult)
      requires Indexed(ents, index)
      ensures r.RangeError? <==> path == []
      ensures path != [] && Walkable(ents, index, path) ==>
              r == Walked(if path in index then Some(index[path]) else None)
      ensures path != [] && !Walkable(ents, index, path) ==> r == Walked(None)
    {
      if path == [] { return RangeError; }
      if path[..1] !in index || ents[index[path[..1]]].kind != PERFORMER { return Walked(None); }
      var root := index[path[..1]];
      if ents[root].uri == path { return Walked(Some(root)); }
      var result := WalkChild(root, path);
      r := Walked(result);
    }

    /** walk_child_by_URI: from `e` down one segment at a time; each find shortens the distance by one. */
    method WalkChild(e: Id, path: Path) returns (result: Option<Id>)
      requires Indexed(ents, index) && e in ents
      ensures result.Some? <==>
                && ents[e].uri < path && path in index && Container(ents[e].kind)
                && (forall i {:trigger path[..i]} :: |ents[e].uri| < i < |path| ==>
                      path[..i] in index && Container(ents[index[path[..i]]].kind))
      ensures result.Some? ==> path in index && result.value == index[path]
    {
      result := None;
      if |ents[e].uri| >= |path| || !Contains(path, ents[e].uri) { return; }
      var previous := e;
      var distance := |path| - |ents[e].uri|;
      while distance > 0
        invariant 0 <= distance <= |path| - |ents[e].uri|
        invariant previous in ents && ents[previous].uri == path[..|path| - distance]
        invariant previous != e || distance == |path| - |ents[e].uri|
        invariant distance < |path| - |ents[e].uri| ==> result == Some(previous)
        invariant forall i {:trigger path[..i]} :: |ents[e].uri| <= i < |path| - distance ==>
                  path[..i] in index && Container(ents[index[path[..i]]].kind)
        decreases distance
      {
        var next := path[..|path| - distance + 1];
        result := None;
        if Container(ents[previous].kind) && next in index { result := Some(index[next]); }
        assert path[..|path|] == path;
        if result.None? {
          assert index[path[..|path| - distance]] == previous;
          assert distance == 1 ==> next == path;
          return;
        }
        distance := |path| - |ents[result.value].uri|;
        previous := result.value;
      }
      assert path[..|path|] == path;
    }
  }

  lemma ChildIsBelow(ents: Ents, index: Index, e: Id, q: Path)
    requires WellFormed(ents, index) && e in ents && q in ents[e].children && q in index
    ensures var k := index[q];
            k in ents && ents[k].uri == q && |q| >= 2 && Init(q) == ents[e].uri && Below(ents, k) < Below(ents, e)
  {
    var k := index[q];
    assert ents[e].uri <= q && !(q <= ents[e].uri);
    assert e in Below(ents, e) && e !in Below(ents, k);
  }

  lemma NotListedThere(a: Ents, ia: Index, z: Id, e: Id)
    requires WellFormed(a, ia) && e in a && z in a && !Contains(a[e].uri, a[z].uri)
    ensures a[e].uri !in a[z].children
  {
    UriLive(a, ia, e);
    UriLive(a, ia, z);
    assert Init(a[e].uri) <= a[e].uri;
  }

  lemma RegisterKeeps(a: Ents, ia: Index, x: Id, uri: Path, kind: Kind)
    requires WellFormed(a, ia) && x !in a && MayRegister(a, ia, uri)
    ensures WellFormed(a[x := Entity(uri, if uri == [] then [] else Init(uri), {}, kind)], ia[uri := x])
  {
    var b, ib := a[x := Entity(uri, Init(uri), {}, kind)], ia[uri := x];
    assert Indexed(b, ib) && Parented(b);
    hide Indexed, Parented;
    assert KeysBelow(b, ib);
  }

  lemma RegisterNeeds(a: Ents, ia: Index, x: Id, uri: Path, kind: Kind)
    requires WellFormed(a, ia) && x !in a
    requires WellFormed(a[x := Entity(uri, if uri == [] then [] else Init(uri), {}, kind)], ia[uri := x])
    ensures MayRegister(a, ia, uri)
  {
    var b, ib := a[x := Entity(uri, if uri == [] then [] else Init(uri), {}, kind)], ia[uri := x];
    assert b[x].uri == uri && uri != [];
    assert forall y {:trigger b[y].uri} :: y in a ==> ib[b[y].uri] == y && y != x;
    assert forall q {:trigger ia[q]} :: q in ia ==> b[ia[q]].uri == q;
    assert forall z {:trigger a[z]} :: z in a ==> b[z] == a[z];
    hide Parented;
  }

  lemma OwnerIs(a: Ents, ia: Index, sh: Shape, z: Id, e: Id)
    requires WellFormed(a, ia) && sh == ShapeOf(a, ia) && e in a && z in a && |a[e].uri| >= 2
             && a[z].uri == Init(a[e].uri)
    ensures e in sh.own && sh.own[e] == z && Indexed(a, ia)
  {}

  lemma ParentFound(a: Ents, ia: Index, e: Id)
    requires WellFormed(a, ia) && e in a && |a[e].uri| >= 2
    ensures Init(a[e].uri) in ia && ia[Init(a[e].uri)] in a && a[ia[Init(a[e].uri)]].uri == Init(a[e].uri)
  {}

  lemma TightenGood(a: Ents, ia: Index, sh: Shape, e: Id)
    requires Good(a, ia, sh, {e}) && e !in sh.own
    ensures Good(a, ia, sh, {}) && Formed(sh)
  {
    hide Indexed, Fits, Listed, Formed, Housed, Parented;
    Tighten(a, ia, sh, e);
  }

  lemma HasParts(a: Ents, ia: Index)
    requires WellFormed(a, ia)
    ensures Indexed(a, ia) && Parented(a)
  {}

  lemma KindKept(a: Ents, b: Ents, s: set<Id>, e: Id)
    requires SameElsewhere(a, b, s) && e in a
    ensures e in b && b[e].kind == a[e].kind
  {}

  lemma UnlistAbsent(a: Ents, z: Id, q: Path)
    requires z in a
    ensures q !in a[z].children ==> Unlist(a, z, q) == a
  {
    if q !in a[z].children { assert a[z].children - {q} == a[z].children; }
  }

  lemma OutsideTwice(a: Ents, b: Ents, c: Ents, s: set<Id>)
    requires SameOutside(a, b, s) && SameOutside(b, c, s)
    ensures SameOutside(a, c, s)
  {}

  lemma AllSeatedNow(b: Ents, sh: Shape, e: Id, bundle: seq<Id>, done: set<Id>, u: Path)
    requires Formed(sh) && sh.rank.Keys == b.Keys && e in b && b[e].uri == u
    requires forall k {:trigger k in bundle} {:trigger sh.own[k]} :: k in bundle <==> k in sh.own && sh.own[k] == e
    requires done == set j | 0 <= j < |bundle| :: bundle[j]
    requires forall k {:trigger k in done} :: k in done ==> k in b && Seated(b, sh, k, u + [sh.names[k]])
    ensures Seated(b, sh, e, u)
  {
    forall k {:trigger sh.own[k]} | k in sh.own && sh.own[k] == e ensures Seated(b, sh, k, b[e].uri + [sh.names[k]]) {
      assert k in bundle && k in done;
    }
    AllSeated(b, sh, e);
  }

  lemma MayDetach(a: Ents, ia: Index, sh: Shape, loose: set<Id>, e: Id, k: Id)
    requires Formed(sh) && k in sh.own && sh.own[k] == e && e in sh.sub && OnlyLoose(sh, loose, e)
    requires Tidy(sh, e) && Clear(a, ia, sh, e)
    ensures k in sh.sub && MayMove(a, ia, sh, k, [sh.names[k]]) && OnlyLoose(sh, loose, k)
            && OnlyLoose(sh, loose + {k}, k)
  {
    hide Tidy, Clear, NoKey, Formed, OnlyLoose;
    ChildSubtree(sh, k);
    ChildKnown(sh, e, k);
    TidyBelow(sh, e, k);
    ClearBelow(a, ia, sh, e, k);
    LooseBelow(sh, loose, e, k);
    NameFree(a, ia, sh, e, k);
  }

  lemma ChildKnown(sh: Shape, e: Id, k: Id)
    requires Formed(sh) && e in sh.sub && k in sh.own && sh.own[k] == e
    ensures k in sh.sub && k in sh.names && k in sh.sub[k] && k in sh.sub[e]
  {}

  lemma LooseBelow(sh: Shape, loose: set<Id>, e: Id, k: Id)
    requires e in sh.sub && k in sh.sub && sh.sub[k] < sh.sub[e] && e !in sh.sub[k] && OnlyLoose(sh, loose, e)
    ensures OnlyLoose(sh, loose, k) && OnlyLoose(sh, loose + {k}, k)
  {}

  lemma NameFree(a: Ents, ia: Index, sh: Shape, e: Id, k: Id)
    requires Formed(sh) && e in sh.sub && Clear(a, ia, sh, e) && k in sh.sub[e] && k != e
    ensures k in sh.names && NoKey(a, ia, [sh.names[k]])
  {}

  lemma MayReturn(a: Ents, ia: Index, b: Ents, ib: Index, sh: Shape, loose: set<Id>, e: Id, k: Id, done: set<Id>)
    requires sh.sub.Keys == sh.names.Keys == sh.rank.Keys == a.Keys && b.Keys == a.Keys && Formed(sh)
    requires k in sh.own && sh.own[k] == e && e in a && k in a && k !in done
    requires Settled(Unlist(a, e, a[k].uri), ia, b, ib, sh, k, [sh.names[k]])
    requires Tidy(sh, e) && Clear(a, ia, sh, e) && Vacant(a, ia, sh, e, done)
    requires Agree(a, ia, sh, loose) && Agree(b, ib, sh, loose + {k})
    ensures b[e].uri == a[e].uri && !Contains(b[k].uri, b[e].uri) && MayMove(b, ib, sh, k, a[e].uri + [sh.names[k]])
  {
    hide Listed, StaleKept, Fits;
    var a1, u := Unlist(a, e, a[k].uri), a[e].uri;
    UnlistAgrees(a, ia, sh, loose, k, e, a1);
    SettledCarries(a1, ia, b, ib, sh, loose + {k}, k, [sh.names[k]]);
    ChildSubtree(sh, k);
    NamesDiffer(a, ia, sh, e, u);
    UnlistVacant(a, ia, e, a[k].uri, a1, sh, e, done);
    UnlistClear(a, ia, e, a[k].uri, a1, sh, e);
    FreeForReturn(a1, ia, b, ib, sh, k, u + [sh.names[k]]);
    TidyBelow(sh, e, k);
    ClearBelow(a1, ia, sh, e, k);
    ClearAfter(a1, ia, b, ib, sh, k, sh.sub[k], [sh.names[k]]);
  }

  lemma Returned(a: Ents, ia: Index, b: Ents, ib: Index, c: Ents, d: Ents, id: Index, sh: Shape, loose: set<Id>, e: Id,
        k: Id, done: set<Id>)
    requires sh.sub.Keys == sh.names.Keys == sh.rank.Keys == a.Keys && b.Keys == a.Keys && c.Keys == a.Keys
             && d.Keys == a.Keys && Formed(sh)
    requires k in sh.own && sh.own[k] == e && e in a && k in a && k !in done
    requires Settled(Unlist(a, e, a[k].uri), ia, b, ib, sh, k, [sh.names[k]])
    requires Settled(b, ib, c, id, sh, k, a[e].uri + [sh.names[k]]) && d == Enlist(c, e, a[e].uri + [sh.names[k]])
    requires Tidy(sh, e) && Clear(a, ia, sh, e) && Vacant(a, ia, sh, e, done)
    requires Agree(a, ia, sh, loose) && Agree(c, id, sh, loose + {k})
    ensures d[e].uri == a[e].uri && Clear(d, id, sh, e) && Vacant(d, id, sh, e, done + {k})
    ensures SameOutside(a, d, sh.sub[e]) && StaleKept(a, ia, d, id) && Seated(d, sh, k, a[e].uri + [sh.names[k]])
    ensures forall x {:trigger d[x].uri} :: x in d && x !in sh.sub[k] ==> d[x].uri == a[x].uri
  {
    hide Indexed, Fits, Listed, Formed, Clear, Tidy, Vacant, NoKey, SameOutside, StaleKept, Seated, Unlisted, Carried;
    var a1, u, v := Unlist(a, e, a[k].uri), a[e].uri, a[e].uri + [sh.names[k]];
    HasPath(a, ia, e, None);
    KeyIsLive(a, ia, sh, loose, k);
    KeyIsLive(c, id, sh, loose + {k}, k);
    UnlistAgrees(a, ia, sh, loose, k, e, a1);
    SettledTwice(a1, ia, b, ib, c, id, sh, k, [sh.names[k]], v);
    SettledCarries(a1, ia, c, id, sh, loose + {k}, k, v);
    UnlistClear(a, ia, e, a[k].uri, a1, sh, e);
    UnlistVacant(a, ia, e, a[k].uri, a1, sh, e, done);
    ChildSubtree(sh, k);
    SelfBelow(sh, e);
    ReturnPlaces(a, a1, c, d, sh, e, k, v);
    NamesDiffer(a, ia, sh, e, u);
    ClearAfter(a1, ia, c, id, sh, e, sh.sub[k], v);
    VacantAfterReturn(a1, ia, c, id, sh, k, e, done);
    EnlistClear(c, id, e, v, d, sh, e);
    EnlistVacant(c, id, d, sh, e, k, done + {k});
    EnlistKeeps(c, id, e, v, d);
    StaleKeptTwice(a, ia, a1, ia, c, id);
    StaleKeptTwice(a, ia, c, id, d, id);
  }

  lemma EnlistSeated(c: Ents, d: Ents, sh: Shape, z: Id, q: Path, k: Id, v: Path)
    requires Formed(sh) && sh.rank.Keys == c.Keys && k in c && z in c && d == Enlist(c, z, q) && Seated(c, sh, k, v)
    ensures Seated(d, sh, k, v)
  {
    assert forall x {:trigger d[x].uri} :: x in c ==> d[x].uri == c[x].uri;
  }

  lemma ReturnPlaces(a: Ents, a1: Ents, c: Ents, d: Ents, sh: Shape, e: Id, k: Id, v: Path)
    requires Formed(sh) && sh.rank.Keys == a.Keys == c.Keys && k in sh.own && sh.own[k] == e && e in a && k in a
    requires sh.sub[k] < sh.sub[e] && e !in sh.sub[k] && e in sh.sub[e]
    requires a1 == Unlist(a, e, a[k].uri) && SameOutside(a1, c, sh.sub[k]) && Seated(c, sh, k, v)
             && d == Enlist(c, e, v)
    ensures SameOutside(a, d, sh.sub[e]) && Seated(d, sh, k, v) && c[e].uri == a[e].uri && c[k].uri == v
    ensures forall x {:trigger d[x].uri} :: x in d && x !in sh.sub[k] ==> d[x].uri == a[x].uri
  {
    EnlistSeated(c, d, sh, e, v, k, v);
    SeatedHere(c, sh, k, v);
    forall x | x in c ensures d[x].kind == a[x].kind && (x !in sh.sub[k] ==> d[x].uri == a[x].uri)
      && (x !in sh.sub[k] && x != e ==> d[x] == a[x])
    {
      ReturnPlace(a, a1, c, d, sh.sub[k], e, a[k].uri, v, x);
    }
    hide Formed, Seated, Unlist, Enlist;
  }

  lemma ReturnPlace(a: Ents, a1: Ents, c: Ents, d: Ents, s: set<Id>, e: Id, q: Path, v: Path, x: Id)
    requires e in a && a1 == Unlist(a, e, q) && SameOutside(a1, c, s) && a.Keys == c.Keys
    requires d == Enlist(c, e, v) && x in c
    ensures d[x].kind == a[x].kind && (x !in s ==> d[x].uri == a[x].uri) && (x !in s && x != e ==> d[x] == a[x])
  {
    assert c[x].kind == a1[x].kind && (x !in s ==> c[x] == a1[x]);
  }

  lemma HasPath(a: Ents, ia: Index, e: Id, np: Option<Id>)
    requires Indexed(a, ia) && e in a && (np.Some? ==> np.value in a)
    ensures a[e].uri != [] && a[e].uri in ia && (np.Some? ==> a[np.value].uri != [] && a[np.value].uri in ia)
  {}

  lemma SameHere(b: Ents, ib: Index, s: set<Id>)
    ensures SameOutside(b, b, s) && StaleKept(b, ib, b, ib)
  {}

  lemma HousedSame(a: Ents, b: Ents, sh: Shape)
    requires Housed(a, sh) && a.Keys == b.Keys && forall x {:trigger b[x].kind} :: x in a ==> b[x].kind == a[x].kind
    ensures Housed(b, sh)
  {}

  lemma EnlistParented(a: Ents, z: Id, q: Path, b: Ents)
    requires z in a && b == Enlist(a, z, q) && Parented(a)
    ensures Parented(b)
  {}

  lemma ReseatParented(a: Ents, e: Id, v: Path)
    requires e in a && v != [] && Parented(a)
    ensures Parented(Reseat(a, e, v))
  {}

  lemma KeyIsLive(a: Ents, ia: Index, sh: Shape, loose: set<Id>, k: Id)
    requires Agree(a, ia, sh, loose) && k in sh.own
    ensures k in a && a[k].uri in ia
  {}

  lemma UnlistMayMove(a: Ents, ia: Index, z: Id, q: Path, b: Ents, sh: Shape, k: Id, v: Path)
    requires Formed(sh) && k in sh.sub && z in a && b == Unlist(a, z, q) && MayMove(a, ia, sh, k, v)
    requires Housed(a, sh) && Parented(a)
    ensures MayMove(b, ia, sh, k, v) && Housed(b, sh) && Parented(b)
  {
    UnlistClear(a, ia, z, q, b, sh, k);
    UnlistFrees(a, ia, z, q, b, v, {});
  }

  lemma NotYetChild(a: Ents, k: Id, z: Id)
    requires k in a && z in a && Unlisted(a, k)
    ensures a[k].uri !in a[z].children
  {}

  lemma SettledAt(a: Ents, ia: Index, c: Ents, ic: Index, sh: Shape, e: Id, v: Path)
    requires Formed(sh) && sh.rank.Keys == a.Keys && e in a && Settled(a, ia, c, ic, sh, e, v)
    ensures c.Keys == a.Keys && c[e].uri == v
  {}

  lemma NothingBelow(b: Ents, sh: Shape, e: Id)
    requires Formed(sh) && sh.rank.Keys == b.Keys && e in b && Housed(b, sh) && !Container(b[e].kind)
    ensures Seated(b, sh, e, b[e].uri)
  {
    forall x | x in sh.sub[e] ensures x == e { if x != e { var k := ChildAbove(sh, x, e); } }
  }

  lemma KidsListed(sh: Shape, loose: set<Id>, e: Id)
    requires Formed(sh) && e in sh.sub && OnlyLoose(sh, loose, e)
    ensures forall k {:trigger sh.own[k]} :: k in sh.own && sh.own[k] == e ==> k !in loose && k != e
  {}

  lemma BundleIsKids(ents: Ents, index: Index, sh: Shape, loose: set<Id>, e: Id, bundle: seq<Id>)
    requires Indexed(ents, index) && Fits(ents, sh) && Listed(ents, index, sh, loose) && e in ents
    requires forall k {:trigger sh.own[k]} :: k in sh.own && sh.own[k] == e ==> k !in loose && k != e
    requires forall x {:trigger x in bundle} :: x in bundle ==> x in ents && ents[x].uri in ents[e].children
    requires forall q {:trigger q in index} :: q in ents[e].children && q in index ==> index[q] in bundle
    ensures forall k {:trigger k in bundle} {:trigger sh.own[k]} :: k in bundle <==> k in sh.own && sh.own[k] == e
  {
    forall k {:trigger k in bundle} ensures k in bundle <==> k in sh.own && sh.own[k] == e {
      if k in bundle { assert index[ents[k].uri] == k; }
      if k in sh.own && sh.own[k] == e { assert ents[k].uri in index; }
    }
  }

  lemma ReseatMatches(a: Ents, ia: Index, sh: Shape, e: Id, np: Option<Id>, v: Path)
    requires Fits(a, sh) && e in a && (np.Some? ==>
             np.value in a && a[np.value].uri != [] && !Contains(a[e].uri, a[np.value].uri))
    requires v == (if np.Some? then a[np.value].uri else []) + [sh.names[e]]
    ensures var p := if np.Some? then a[np.value].uri else [];
            NewPath(a[e].uri, p) == v && Init(v) == p && Last(v) == sh.names[e]
  {}

  lemma FollowReseat(a: Ents, ia: Index, b: Ents, ib: Index, sh: Shape, e: Id, np: Option<Id>, v: Path)
    requires Formed(sh) && sh.rank.Keys == a.Keys && e in a && MayMove(a, ia, sh, e, v)
    requires np.Some? ==> np.value in a
    requires v == (if np.Some? then a[np.value].uri else []) + [sh.names[e]]
    requires Indexed(a, ia) && Indexed(b, ib) && b == Reseat(a, e, v) && Carried(a, ia, b, ib, {e}, v)
             && SameOutside(a, b, {e})
    ensures Clear(b, ib, sh, e) && Vacant(b, ib, sh, e, {})
  {
    if np.Some? { NamesDiffer(a, ia, sh, e, a[np.value].uri); }
    ClearAfter(a, ia, b, ib, sh, e, {e}, v);
    VacantAfterReseat(a, ia, b, ib, sh, e, v);
  }

  lemma AfterReseat(a: Ents, ia: Index, b: Ents, ib: Index, sh: Shape, loose: set<Id>, e: Id, np: Option<Id>, v: Path)
    requires v != [] && e in a && e in loose && (np.Some? ==> np.value in a) && e in sh.sub && e in sh.names
             && Formed(sh) && sh.rank.Keys == a.Keys
    requires v == (if np.Some? then a[np.value].uri else []) + [sh.names[e]] && Last(v) == sh.names[e]
    requires b == Reseat(a, e, v) && ib == Rekeyed(ia, a[e].uri, v, e) && Unlisted(a, e) && MayMove(a, ia, sh, e, v)
             && Good(a, ia, sh, loose)
    ensures Agree(b, ib, sh, loose) && Housed(b, sh) && Parented(b)
    ensures Clear(b, ib, sh, e) && Vacant(b, ib, sh, e, {})
    ensures SameOutside(a, b, {e}) && StaleKept(a, ia, b, ib)
  {
    hide Indexed, Fits, Listed, Formed, Housed, Parented, Clear, Tidy, Vacant, NoKey, SameOutside, StaleKept, Seated,
         Unlisted, Carried;
    ReseatAgrees(a, ia, sh, loose, e, v, b, ib);
    assert Renamed(sh, e, Last(v)) == sh by { assert sh.names[e := sh.names[e]] == sh.names; }
    ReseatCarried(a, ia, e, v, b, ib);
    FollowReseat(a, ia, b, ib, sh, e, np, v);
    HousedSame(a, b, sh);
    ReseatParented(a, e, v);
  }

  lemma AfterReattach(a: Ents, ia: Index, b: Ents, ib: Index, c: Ents, ic: Index, sh: Shape, loose: set<Id>, e: Id,
        v: Path)
    requires Formed(sh) && sh.rank.Keys == a.Keys && e in a && NoKey(a, ia, v)
    requires SameOutside(a, b, {e}) && StaleKept(a, ia, b, ib) && b[e].uri == v
    requires Agree(c, ic, sh, loose) && SameOutside(b, c, sh.sub[e]) && StaleKept(b, ib, c, ic) && Seated(c, sh, e, v)
    ensures Settled(a, ia, c, ic, sh, e, v) && Unlisted(c, e)
  {
    StaleKeptTwice(a, ia, b, ib, c, ic);
    StillUnlisted(a, ia, c, ic, sh, loose, e, v);
  }
}
