/** Whole moves of a subtree, stated on records and index alone: what a rename, a detach or an attach must come to. */
module Moves {
  import opened Common
  import opened EntityTree
  import opened Reseating

  // ---------------------------------------------------------------- the invariant between calls

  /** Every path of two or more segments has a registered container as parent, which lists it. */
  ghost predicate Rooted(ents: Ents, index: Index) {
    forall x {:trigger ents[x]} :: x in ents && |ents[x].uri| >= 2 ==>
      && Init(ents[x].uri) in index && index[Init(ents[x].uri)] in ents
      && Container(ents[index[Init(ents[x].uri)]].kind) && ents[x].uri in ents[index[Init(ents[x].uri)]].children
  }

  /** A child key that resolves is the path of its list's owner plus one segment. */
  ghost predicate KeysBelow(ents: Ents, index: Index) {
    forall z, q {:trigger q in ents[z].children} :: z in ents && q in ents[z].children && q in index ==>
      |q| >= 2 && Init(q) == ents[z].uri
  }

  ghost predicate WellFormed(ents: Ents, index: Index) {
    Indexed(ents, index) && Parented(ents) && Rooted(ents, index) && KeysBelow(ents, index)
  }

  /** The tree that the paths spell out. */
  ghost function ShapeOf(ents: Ents, index: Index): Shape
    requires WellFormed(ents, index)
  {
    Shape(map x | x in ents && |ents[x].uri| >= 2 :: index[Init(ents[x].uri)],
          map x | x in ents :: |ents[x].uri|,
          map x | x in ents :: Last(ents[x].uri),
          map e | e in ents :: set x | x in ents && ents[e].uri <= ents[x].uri)
  }

  lemma PrefixOfInit(p: Path, q: Path)
    requires q != []
    ensures p <= q && p != q <==> p <= Init(q)
  {
    if p <= q && p != q { assert p == q[..|p|] && |p| < |q|; assert Init(q)[..|p|] == q[..|p|]; }
    if p <= Init(q) { assert p == Init(q)[..|p|] == q[..|p|]; }
  }

  lemma ShapeFormed(ents: Ents, index: Index)
    requires WellFormed(ents, index)
    ensures Formed(ShapeOf(ents, index))
  {
    var sh := ShapeOf(ents, index);
    forall e, x {:trigger sh.sub[e], sh.own[x]} | e in ents && x in sh.own
      ensures x in sh.sub[e] && x != e <==> sh.own[x] in sh.sub[e]
    {
      PrefixOfInit(ents[e].uri, ents[x].uri);
    }
    forall e, x {:trigger x in sh.sub[e]} | e in sh.sub && x in sh.sub[e] && x != e ensures x in sh.own {
      assert ents[e].uri != ents[x].uri && |ents[e].uri| >= 1;
    }
  }

  lemma ShapeAgrees(ents: Ents, index: Index)
    requires WellFormed(ents, index)
    ensures var sh := ShapeOf(ents, index); Housed(ents, sh) && Agree(ents, index, sh, {})
  {}

  /** The records once the parent of `uri`, if it is known, lists it. */
  function WithChild(ents: Ents, index: Index, uri: Path): Ents {
    if uri != [] && Init(uri) in index && index[Init(uri)] in ents then
      var z := index[Init(uri)];
      ents[z := ents[z].(children := ents[z].children + {uri})]
    else ents
  }

  // ---------------------------------------------------------------- what a move must come to

  /** `q` is the key of a live child of `z`. */
  ghost predicate LiveChild(ents: Ents, index: Index, z: Id, q: Path)
    requires z in ents
  {
    q in index && |q| >= 2 && Init(q) == ents[z].uri
  }

  /** Every path under `u` was rebased to `v` and no other path changed; the index follows key by key; each child
      set holds its live children and the stale keys it had, and the sets of `left` also keep the old key `u`. */
  ghost predicate Moved(a: Ents, ia: Index, b: Ents, ib: Index, u: Path, v: Path, left: set<Id>) {
    && a.Keys == b.Keys
    && (forall x {:trigger b[x]} :: x in b ==> b[x].uri == Rebase(a[x].uri, u, v) && b[x].kind == a[x].kind)
    && ib.Keys == (set q | q in ia :: Rebase(q, u, v))
    && (forall q {:trigger ia[q]} :: q in ia ==> Rebase(q, u, v) in ib && ib[Rebase(q, u, v)] == ia[q])
    && (forall z, q {:trigger q in b[z].children} :: z in b ==>
          (q in b[z].children <==> LiveChild(b, ib, z, q) || (q in a[z].children && q !in ia) || (z in left && q == u)))
  }

  lemma {:induction false} SeatedRebases(a: Ents, b: Ents, sh: Shape, e: Id, u: Path, v: Path, x: Id)
    requires Formed(sh) && sh.rank.Keys == a.Keys == b.Keys && e in a && x in sh.sub[e]
    requires Seated(b, sh, e, v) && a[e].uri == u
    requires forall y {:trigger sh.own[y]} :: y in sh.sub[e] && y != e ==> a[y].uri == a[sh.own[y]].uri + [sh.names[y]]
    ensures u <= a[x].uri && b[x].uri == Rebase(a[x].uri, u, v)
    decreases sh.rank[x]
  {
    if x != e {
      var o := sh.own[x];
      SeatedRebases(a, b, sh, e, u, v, o);
      assert a[x].uri[|u|..] == a[o].uri[|u|..] + [sh.names[x]];
    }
  }

  /** Once paths are rebased and both indexes are inverses of the paths, the indexes match key by key. */
  lemma IndexFollows(a: Ents, ia: Index, b: Ents, ib: Index, u: Path, v: Path)
    requires Indexed(a, ia) && Indexed(b, ib) && a.Keys == b.Keys
    requires forall x {:trigger b[x]} :: x in b ==> b[x].uri == Rebase(a[x].uri, u, v)
    ensures ib.Keys == (set q | q in ia :: Rebase(q, u, v))
    ensures forall q {:trigger ia[q]} :: q in ia ==> Rebase(q, u, v) in ib && ib[Rebase(q, u, v)] == ia[q]
  {
    forall q {:trigger ia[q]} | q in ia ensures Rebase(q, u, v) in ib && ib[Rebase(q, u, v)] == ia[q] {
      assert b[ia[q]].uri == Rebase(q, u, v);
    }
    forall r | r in ib ensures exists q :: q in ia && r == Rebase(q, u, v) {
      assert a[ib[r]].uri in ia && r == Rebase(a[ib[r]].uri, u, v);
    }
  }

  ghost predicate PathsMoved(a: Ents, b: Ents, u: Path, v: Path) {
    a.Keys == b.Keys && forall x {:trigger b[x]} :: x in b ==>
      b[x].uri == Rebase(a[x].uri, u, v) && b[x].kind == a[x].kind
  }

  lemma PathsMovedTwice(a: Ents, ia: Index, b: Ents, c: Ents, u: Path, v: Path, w: Path)
    requires PathsMoved(a, b, u, v) && PathsMoved(b, c, v, w)
    requires forall x {:trigger a[x]} :: x in a ==> !(v <= a[x].uri)
    ensures PathsMoved(a, c, u, w)
  {
    forall x {:trigger c[x]} | x in c ensures c[x].uri == Rebase(a[x].uri, u, w) {
      assert b[x].uri == Rebase(a[x].uri, u, v);
      if u <= a[x].uri { assert b[x].uri[|v|..] == a[x].uri[|u|..]; }
    }
  }

  /** No stale key comes alive in a move to a free place. */
  lemma StaleStaysStale(a: Ents, ia: Index, ib: Index, u: Path, v: Path, z: Id, q: Path)
    requires NoKey(a, ia, v) && ib.Keys == (set r | r in ia :: Rebase(r, u, v))
    requires z in a && q in a[z].children && q !in ia
    ensures q !in ib
  {}

  /** Two moves one after the other are one move. */
  lemma MovedTwice(a: Ents, ia: Index, b: Ents, ib: Index, c: Ents, ic: Index, u: Path, v: Path, w: Path)
    requires Indexed(a, ia) && Indexed(c, ic) && NoKey(a, ia, v)
    requires Moved(a, ia, b, ib, u, v, {}) && Moved(b, ib, c, ic, v, w, {})
    ensures Moved(a, ia, c, ic, u, w, {})
  {
    hide Rebase;
    assert forall x {:trigger a[x]} :: x in a ==> !(v <= a[x].uri) by {
      assert forall x {:trigger a[x]} :: x in a ==> a[x].uri in ia;
    }
    PathsMovedTwice(a, ia, b, c, u, v, w);
    IndexFollows(a, ia, c, ic, u, w);
    forall z, q {:trigger q in c[z].children} | z in c
      ensures q in c[z].children <==> LiveChild(c, ic, z, q) || (q in a[z].children && q !in ia)
    {
      if q in a[z].children && q !in ia { StaleStaysStale(a, ia, ib, u, v, z, q); }
    }
  }
}
