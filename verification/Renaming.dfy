/** The steps of a rename, a detach and an attach, and how each adds up to one move of a subtree. */
module Renaming {
  import opened Common
  import opened EntityTree
  import opened Reseating
  import opened Moves

  // ---------------------------------------------------------------- when names do not clash

  /** No key starts with the name of an entity strictly below `e`. */
  predicate NamesFree(ents: Ents, index: Index, e: Id)
    requires e in ents
  {
    forall x {:trigger ents[x]} :: x in ents && x != e && ents[e].uri <= ents[x].uri && ents[x].uri != [] ==>
      NoKey(ents, index, [Last(ents[x].uri)])
  }

  /** Below `e`, itself named `n`, no entity bears the name of one of its ancestors. */
  predicate ChainsDiffer(ents: Ents, e: Id, n: string)
    requires e in ents
  {
    forall z, x {:trigger ents[z], ents[x]} :: (z in ents && x in ents && z != x
      && ents[e].uri <= ents[z].uri <= ents[x].uri
      && ents[z].uri != [] && ents[x].uri != []) ==> Last(ents[x].uri) != (if z == e then n else Last(ents[z].uri))
  }

  ghost predicate MayRename(ents: Ents, index: Index, e: Id, n: string)
    requires e in ents && ents[e].uri != []
  {
    && NoKey(ents, index, Init(ents[e].uri) + [n]) && NoKey(ents, index, [n])
    && NamesFree(ents, index, e) && ChainsDiffer(ents, e, n)
  }

  lemma NamesClear(a: Ents, ia: Index, sh: Shape, e: Id, n: string)
    requires WellFormed(a, ia) && sh == ShapeOf(a, ia) && Formed(sh) && Formed(Renamed(sh, e, n)) && e in a
             && NamesFree(a, ia, e)
    ensures Clear(a, ia, Renamed(sh, e, n), e)
  {}

  lemma ChainNames(a: Ents, ia: Index, sh: Shape, e: Id, n: string, z: Id, x: Id)
    requires WellFormed(a, ia) && sh == ShapeOf(a, ia) && e in a && ChainsDiffer(a, e, n)
    requires z in sh.sub && x in sh.sub && z in sh.sub[e] && x in sh.sub[z] && x != z
    ensures sh.names[e := n][x] != sh.names[e := n][z]
  {
    hide Rooted, KeysBelow, Parented;
  }

  lemma SiblingNames(a: Ents, ia: Index, sh: Shape, e: Id, x: Id, y: Id)
    requires WellFormed(a, ia) && sh == ShapeOf(a, ia) && e in a
    requires x in sh.own && y in sh.own && x != y && sh.own[x] == sh.own[y] && sh.own[x] in sh.sub[e]
    ensures sh.names[x] != sh.names[y] && x != e && y != e
  {
    hide KeysBelow, Parented;
    assert Init(a[x].uri) == Init(a[y].uri);
    assert a[x].uri == Init(a[x].uri) + [Last(a[x].uri)] && a[y].uri == Init(a[y].uri) + [Last(a[y].uri)];
  }

  lemma NamesTidy(a: Ents, ia: Index, sh: Shape, e: Id, n: string)
    requires WellFormed(a, ia) && sh == ShapeOf(a, ia) && Formed(Renamed(sh, e, n)) && e in a && ChainsDiffer(a, e, n)
    ensures Tidy(Renamed(sh, e, n), e)
  {
    hide WellFormed, ShapeOf, ChainsDiffer;
    var sr := Renamed(sh, e, n);
    forall z, x {:trigger x in sr.sub[z]} | z in sr.sub[e] && x in sr.sub[z] && x != z
      ensures sr.names[x] != sr.names[z]
    {
      ChainNames(a, ia, sh, e, n, z, x);
    }
    forall x, y {:trigger sr.own[x], sr.own[y]} | x in sr.own && y in sr.own && x != y && sr.own[x] == sr.own[y]
      && sr.own[x] in sr.sub[e]
      ensures sr.names[x] != sr.names[y]
    {
      SiblingNames(a, ia, sh, e, x, y);
    }
  }

  lemma RenamedFormed(sh: Shape, e: Id, n: string)
    requires Formed(sh) && e in sh.names
    ensures Formed(Renamed(sh, e, n))
  {}

  // ---------------------------------------------------------------- rename: the entity takes its new path

  lemma ReseatFrees(a: Ents, ia: Index, e: Id, v: Path, b: Ents, ib: Index, p: Path)
    requires e in a && v != [] && b == Reseat(a, e, v) && ib == Rekeyed(ia, a[e].uri, v, e)
    requires NoKey(a, ia, p) && !(p <= v)
    ensures NoKey(b, ib, p)
  {
    assert forall z {:trigger b[z].children} :: z in b ==> b[z].children == a[z].children;
  }

  lemma ReseatClear(a: Ents, ia: Index, sh: Shape, e: Id, v: Path, b: Ents, ib: Index)
    requires Formed(sh) && e in sh.sub && e in a && v != [] && b == Reseat(a, e, v) && ib == Rekeyed(ia, a[e].uri, v, e)
    requires Clear(a, ia, sh, e) && forall x {:trigger sh.names[x]} :: x in sh.sub[e] && x != e ==> v[0] != sh.names[x]
    ensures Clear(b, ib, sh, e)
  {
    forall x | x in sh.sub[e] && x != e ensures NoKey(b, ib, [sh.names[x]]) {
      ReseatFrees(a, ia, e, v, b, ib, [sh.names[x]]);
    }
  }

  /** At its new path `e` is alone, and listed nowhere. */
  lemma ReseatAlone(a: Ents, ia: Index, e: Id, v: Path, b: Ents, ib: Index)
    requires e in a && v != [] && b == Reseat(a, e, v) && ib == Rekeyed(ia, a[e].uri, v, e) && NoKey(a, ia, v)
    ensures OnlyUnder(b, ib, v, {e}) && Unlisted(b, e)
    ensures SameOutside(a, b, {e}) && forall z {:trigger b[z].children} :: z in b ==> b[z].children == a[z].children
  {}

  /** The first segment of the new path is no name from below. */
  lemma FirstIsApart(a: Ents, ia: Index, sh: Shape, e: Id, n: string)
    requires WellFormed(a, ia) && e in a && Formed(sh) && e in sh.sub && e in sh.names && sh.names[e] == n
    requires Tidy(sh, e) && Clear(a, ia, sh, e)
    ensures var v := Init(a[e].uri) + [n];
            forall x {:trigger sh.names[x]} :: x in sh.sub[e] && x != e ==> v[0] != sh.names[x]
  {
    hide Indexed, Parented, Rooted, KeysBelow, Clear, Formed, Tidy, NoKey;
    var u := a[e].uri;
    UriLive(a, ia, e);
    if |u| >= 2 {
      NamesDiffer(a, ia, sh, e, u);
      assert (Init(u) + [n])[0] == u[0];
    } else {
      TidyNames(sh, e);
      assert Init(u) + [n] == [n];
    }
  }

  lemma TidyNames(sh: Shape, e: Id)
    requires Formed(sh) && e in sh.sub && Tidy(sh, e)
    ensures forall x {:trigger sh.names[x]} :: x in sh.sub[e] && x != e ==> sh.names[e] != sh.names[x]
  {}

  lemma UriLive(a: Ents, ia: Index, e: Id)
    requires Indexed(a, ia) && e in a
    ensures a[e].uri != [] && a[e].uri in ia && ia[a[e].uri] == e
  {}

  lemma Loosen(a: Ents, ia: Index, sh: Shape, e: Id)
    requires Agree(a, ia, sh, {})
    ensures Agree(a, ia, sh, {e})
  {}

  lemma RenameStep(a: Ents, ia: Index, sh: Shape, sr: Shape, e: Id, n: string, v: Path, b: Ents, ib: Index)
    requires WellFormed(a, ia) && e in a && a[e].uri != [] && MayRename(a, ia, e, n)
    requires sh == ShapeOf(a, ia) && sr == Renamed(sh, e, n) && v == Init(a[e].uri) + [n]
    requires b == Reseat(a, e, v) && ib == Rekeyed(ia, a[e].uri, v, e)
    ensures Good(b, ib, sr, {e}) && Unlisted(b, e) && Tidy(sr, e) && Clear(b, ib, sr, e) && Vacant(b, ib, sr, e, {})
    ensures OnlyUnder(b, ib, v, {e}) && OnlyLoose(sr, {e}, e)
  {
    hide Indexed, Fits, Listed, Formed, Housed, Parented, Rooted, KeysBelow, Clear, Tidy, Vacant, NoKey, NamesFree,
         ChainsDiffer, Unlisted, SameOutside, OnlyUnder;
    ShapeFormed(a, ia);
    ShapeAgrees(a, ia);
    RenamedFormed(sh, e, n);
    NamesClear(a, ia, sh, e, n);
    NamesTidy(a, ia, sh, e, n);
    FirstIsApart(a, ia, sr, e, n);
    Loosen(a, ia, sh, e);
    assert Last(v) == n;
    ReseatAgrees(a, ia, sh, {e}, e, v, b, ib);
    ReseatClear(a, ia, sr, e, v, b, ib);
    ReseatAlone(a, ia, e, v, b, ib);
    VacantAfterReseat(a, ia, b, ib, sr, e, v);
    ReseatHoused(a, sh, sr, e, v);
  }

  lemma ReseatHoused(a: Ents, sh: Shape, sr: Shape, e: Id, v: Path)
    requires Housed(a, sh) && Parented(a) && e in a && v != [] && sr.own == sh.own
    ensures Housed(Reseat(a, e, v), sr) && Parented(Reseat(a, e, v))
  {}

  // ---------------------------------------------------------------- rename: out of the parent and back in

  lemma NewNameFree(a: Ents, ia: Index, e: Id, n: string, v: Path, b: Ents, ib: Index)
    requires Indexed(a, ia) && e in a && |a[e].uri| >= 2 && v == Init(a[e].uri) + [n] && NoKey(a, ia, [n])
    requires b == Reseat(a, e, v) && ib == Rekeyed(ia, a[e].uri, v, e)
    ensures NoKey(b, ib, [n]) && v[0] != n
  {
    FirstDiffers(a, ia, a[e].uri, n);
    ReseatFrees(a, ia, e, v, b, ib, [n]);
  }

  lemma RenameReturns(b: Ents, ib: Index, c: Ents, ic: Index, sr: Shape, e: Id, z: Id, n: string, v: Path)
    requires Good(b, ib, sr, {e}) && Good(c, ic, sr, {e}) && e in b && e in sr.own && sr.own[e] == z && z in b
             && sr.names[e] == n
    requires Unlisted(b, e) && OnlyUnder(b, ib, v, {e}) && Tidy(sr, e) && Clear(b, ib, sr, e)
    requires v == b[z].uri + [n] && v[0] != n && Settled(b, ib, c, ic, sr, e, [n])
    ensures c.Keys == b.Keys && c[z].uri == b[z].uri && c[e].uri == [n] && !Contains(c[e].uri, c[z].uri)
            && MayMove(c, ic, sr, e, v)
  {
    hide Indexed, Fits, Listed, Formed, Housed, Parented, Clear, Tidy, NoKey, Unlisted, OnlyUnder, Carried, StaleKept;
    SettledCarries(b, ib, c, ic, sr, {e}, e, [n]);
    ChildSubtree(sr, e);
    SelfBelow(sr, e);
    KeysAfterMove(b, ib, c, ic, sr.sub[e], [n], v, {e});
    TidyNames(sr, e);
    ClearAfter(b, ib, c, ic, sr, e, sr.sub[e], [n]);
    assert b[z].uri != [] by { UriLive(b, ib, z); }
    assert v[0] == b[z].uri[0];
  }

  lemma SelfBelow(sh: Shape, e: Id)
    requires Formed(sh) && e in sh.sub
    ensures e in sh.sub[e]
  {}

  /** Kinds, and the paths outside `s`, are the same. */
  ghost predicate SameElsewhere(a: Ents, b: Ents, s: set<Id>) {
    a.Keys == b.Keys && forall x {:trigger b[x]} :: x in b ==>
      b[x].kind == a[x].kind && (x !in s ==> b[x].uri == a[x].uri)
  }

  /** Only entities of the subtree of `k` lie at or under its seat once it moved to a free place. */
  lemma {:induction false} UnderSeat(a: Ents, ia: Index, b: Ents, ib: Index, sh: Shape, e: Id, v: Path, k: Id, q: Path)
    requires Formed(sh) && Good(b, ib, sh, {}) && sh.rank.Keys == a.Keys && e in a && k in sh.own && sh.own[k] == e
    requires Indexed(a, ia) && NoKey(a, ia, v) && SameElsewhere(a, b, sh.sub[e]) && Seated(b, sh, e, v) && Tidy(sh, e)
    requires q in ib && v + [sh.names[k]] <= q
    ensures ib[q] in sh.sub[k]
  {
    hide Fits, Listed, Housed, Parented;
    var x := ib[q];
    assert v <= q;
    assert x in sh.sub[e];
    assert x != e;
    var m := ChildAbove(sh, x, e);
    SeatedChild(b, sh, e, v, m);
    SeatedPrefix(b, sh, m, v + [sh.names[m]], x);
    assert sh.names[m] == q[|v|] == sh.names[k];
    SelfBelow(sh, e);
  }

  lemma SeatedChild(b: Ents, sh: Shape, e: Id, v: Path, m: Id)
    requires Formed(sh) && sh.rank.Keys == b.Keys && e in b && Seated(b, sh, e, v) && m in sh.own && sh.own[m] == e
    ensures m in b && Seated(b, sh, m, v + [sh.names[m]])
  {
    ChildSubtree(sh, m);
    assert m in sh.sub[m];
  }

  /** After the whole subtree settled, each child holds its own place and nothing else does. */
  lemma VacantSettled(a: Ents, ia: Index, b: Ents, ib: Index, sh: Shape, e: Id, v: Path)
    requires Formed(sh) && Good(b, ib, sh, {}) && sh.rank.Keys == a.Keys && e in a
    requires Indexed(a, ia) && NoKey(a, ia, v) && SameElsewhere(a, b, sh.sub[e]) && Seated(b, sh, e, v) && Tidy(sh, e)
    requires StaleKept(a, ia, b, ib)
    ensures Vacant(b, ib, sh, e, {})
  {
    hide Indexed, Fits, Listed, Formed, Housed, Parented, Clear, Tidy, SameElsewhere, Seated;
    assert b[e].uri == v && sh.own.Keys <= sh.rank.Keys by { SeatedHere(b, sh, e, v); }
    forall k {:trigger sh.own[k]} | k in sh.own && sh.own[k] == e
      ensures OnlyUnder(b, ib, v + [sh.names[k]], sh.sub[k])
    {
      var w := v + [sh.names[k]];
      forall q | q in ib && w <= q ensures ib[q] in sh.sub[k] { UnderSeat(a, ia, b, ib, sh, e, v, k, q); }
      forall y, q {:trigger q in b[y].children} | y in b && q in b[y].children && w <= q
        ensures q in ib && ib[q] in sh.sub[k]
      {
        assert v <= q;
        if q in ib { UnderSeat(a, ia, b, ib, sh, e, v, k, q); }
      }
    }
  }

  lemma SeatedHere(b: Ents, sh: Shape, e: Id, v: Path)
    requires Formed(sh) && sh.rank.Keys == b.Keys && e in b && Seated(b, sh, e, v)
    ensures b[e].uri == v && sh.own.Keys <= sh.rank.Keys
  {}

  // ---------------------------------------------------------------- from the steps to the result

  /** Owned entities sit one segment below their owner, all others at the top; those in `out` were let go. */
  ghost predicate Spelled(b: Ents, sh: Shape, out: set<Id>)
    requires sh.own.Keys <= sh.names.Keys == b.Keys
  {
    && (forall x {:trigger sh.own[x]} :: x in sh.own && x !in out ==>
          sh.own[x] in b && b[x].uri == b[sh.own[x]].uri + [sh.names[x]])
    && (forall x {:trigger b[x]} :: x in b && (x !in sh.own || x in out) ==> |b[x].uri| == 1)
  }

  lemma SpelledRooted(b: Ents, ib: Index, sh: Shape, out: set<Id>)
    requires sh.own.Keys <= sh.names.Keys == b.Keys && Indexed(b, ib) && Fits(b, sh) && Housed(b, sh)
             && Spelled(b, sh, out)
    requires forall x {:trigger sh.own[x]} :: x in sh.own && x !in out ==> b[x].uri in b[sh.own[x]].children
    ensures Rooted(b, ib)
  {
    forall x {:trigger b[x]} | x in b && |b[x].uri| >= 2 ensures x in sh.own && Init(b[x].uri) == b[sh.own[x]].uri {
      assert x in sh.own && x !in out;
    }
  }

  lemma SpelledKeys(b: Ents, ib: Index, sh: Shape, out: set<Id>)
    requires sh.own.Keys <= sh.names.Keys == b.Keys && Indexed(b, ib) && Fits(b, sh) && Spelled(b, sh, out)
             && Listed(b, ib, sh, out)
    requires forall x {:trigger x in out} :: x in out ==> x in b && Unlisted(b, x)
    ensures KeysBelow(b, ib)
  {
    forall z, q {:trigger q in b[z].children} | z in b && q in b[z].children && q in ib
      ensures |q| >= 2 && Init(q) == b[z].uri
    {
      var x := ib[q];
      assert x in sh.own && sh.own[x] == z && b[x].uri == q && x !in out;
      assert b[z].uri != [];
    }
  }

  lemma SpelledWellFormed(b: Ents, ib: Index, sh: Shape, out: set<Id>)
    requires Good(b, ib, sh, out) && sh.own.Keys <= sh.names.Keys && Spelled(b, sh, out)
    requires forall x {:trigger x in out} :: x in out ==> x in b && Unlisted(b, x)
    ensures WellFormed(b, ib)
  {
    hide Formed, Spelled, Parented, Unlisted;
    SpelledRooted(b, ib, sh, out);
    SpelledKeys(b, ib, sh, out);
  }

  /** Child sets after a move: live children, the stale keys from before, and `u` in the sets of `left`. */
  lemma ListsFollow(a: Ents, ia: Index, m: Ents, im: Index, b: Ents, ib: Index, u: Path, left: set<Id>)
    requires WellFormed(b, ib) && StaleKept(m, im, b, ib) && a.Keys == m.Keys
    requires forall z, q {:trigger q in m[z].children} :: z in m ==>
               (q in m[z].children && q !in im <==> (q in a[z].children && q !in ia) || (z in left && q == u))
    ensures forall z, q {:trigger q in b[z].children} :: z in b ==>
              (q in b[z].children <==>
                LiveChild(b, ib, z, q) || (q in a[z].children && q !in ia) || (z in left && q == u))
  {
    hide Parented;
    forall z, q {:trigger q in b[z].children} | z in b
      ensures q in b[z].children <==>
              LiveChild(b, ib, z, q) || (q in a[z].children && q !in ia) || (z in left && q == u)
    {
      assert q in m[z].children && q !in im <==> (q in a[z].children && q !in ia) || (z in left && q == u);
      if LiveChild(b, ib, z, q) { assert b[ib[q]].uri == q && ib[Init(q)] == z; }
    }
  }

  lemma PathsFollow(a: Ents, ia: Index, b: Ents, sh: Shape, sr: Shape, e: Id, v: Path)
    requires WellFormed(a, ia) && sh == ShapeOf(a, ia) && Formed(sh) && e in a && b.Keys == a.Keys
    requires sr.rank.Keys == sr.names.Keys == a.Keys && Formed(sr) && sr.sub[e] == sh.sub[e] && Seated(b, sr, e, v)
             && SameElsewhere(a, b, sh.sub[e])
    requires SameBelow(sh, sr, sh.sub[e], e)
    ensures PathsMoved(a, b, a[e].uri, v)
  {
    hide WellFormed, ShapeOf, Formed, Seated;
    BelowIsPrefix(a, ia, sh, e, e);
    SpelledBefore(a, ia, sh, sr, e);
    forall x {:trigger b[x]} | x in b ensures b[x].uri == Rebase(a[x].uri, a[e].uri, v) && b[x].kind == a[x].kind {
      BelowIsPrefix(a, ia, sh, e, x);
      if x in sh.sub[e] { SeatedRebases(a, b, sr, e, a[e].uri, v, x); }
    }
  }

  lemma BelowIsPrefix(a: Ents, ia: Index, sh: Shape, e: Id, x: Id)
    requires WellFormed(a, ia) && sh == ShapeOf(a, ia) && e in a && x in a
    ensures e in sh.sub && (x in sh.sub[e] <==> a[e].uri <= a[x].uri)
  {}

  /** Both shapes agree on the owners and names of `s`, save those of `e`. */
  ghost predicate SameBelow(sh: Shape, sr: Shape, s: set<Id>, e: Id) {
    forall x {:trigger x in s} :: x in s && x != e ==>
      x in sr.own && x in sh.own && sr.own[x] == sh.own[x] && x in sh.names && x in sr.names
        && sr.names[x] == sh.names[x]
  }

  lemma SpelledHere(a: Ents, ia: Index, sh: Shape, x: Id)
    requires WellFormed(a, ia) && sh == ShapeOf(a, ia) && x in sh.own
    ensures x in a && sh.own[x] in a && a[x].uri == a[sh.own[x]].uri + [sh.names[x]]
  {
    assert a[x].uri == Init(a[x].uri) + [Last(a[x].uri)];
  }

  lemma SpelledBefore(a: Ents, ia: Index, sh: Shape, sr: Shape, e: Id)
    requires WellFormed(a, ia) && sh == ShapeOf(a, ia) && e in a && e in sh.sub
             && sr.rank.Keys == sr.names.Keys == a.Keys
    requires SameBelow(sh, sr, sh.sub[e], e)
    ensures forall x {:trigger sr.own[x]} :: x in sh.sub[e] && x != e ==>
            x in sr.own && sr.own[x] in a && x in a && a[x].uri == a[sr.own[x]].uri + [sr.names[x]]
  {
    hide WellFormed, ShapeOf;
    forall x {:trigger sr.own[x]} | x in sh.sub[e] && x != e
      ensures x in sr.own && sr.own[x] in a && x in a && a[x].uri == a[sr.own[x]].uri + [sr.names[x]]
    {
      SpelledHere(a, ia, sh, x);
    }
  }

  // ---------------------------------------------------------------- rename: the result

  /** The set that keeps the old key of `e`: its parent's. */
  ghost function Leftover(ents: Ents, index: Index, e: Id): set<Id>
    requires e in ents && ents[e].uri != []
  {
    if Init(ents[e].uri) in index then {index[Init(ents[e].uri)]} else {}
  }

  ghost predicate Covers(sh: Shape, a: Ents) {
    sh.sub.Keys == sh.names.Keys == sh.rank.Keys == a.Keys && sh.own.Keys <= sh.names.Keys
  }

  lemma ShapeCovers(a: Ents, ia: Index)
    requires WellFormed(a, ia)
    ensures Covers(ShapeOf(a, ia), a)
  {}

  lemma RenameSpelled(a: Ents, ia: Index, b: Ents, sh: Shape, sr: Shape, e: Id, n: string, v: Path, x: Id)
    requires e in a && x in a && a[e].uri != [] && v == Init(a[e].uri) + [n] && b.Keys == a.Keys
             && sr == Renamed(sh, e, n)
    requires Covers(sh, a) && Formed(sh) && Formed(sr) && Seated(b, sr, e, v) && SameElsewhere(a, b, sh.sub[e])
    requires WellFormed(a, ia) && sh == ShapeOf(a, ia)
    ensures x in sr.own ==> sr.own[x] in b && b[x].uri == b[sr.own[x]].uri + [sr.names[x]]
    ensures x !in sr.own ==> |b[x].uri| == 1
  {
    hide WellFormed, ShapeOf, Formed;
    TopLevel(a, ia, sh, x);
    if x in sh.own {
      SpelledHere(a, ia, sh, x);
      OwnerOutside(sh, e, x);
      SpelledIs(a, ia, sh, x);
    }
    StrictlyOwned(sh, e, x);
  }

  lemma StrictlyOwned(sh: Shape, e: Id, x: Id)
    requires Formed(sh) && e in sh.sub 
    ensures x in sh.sub[e] && x != e ==> x in sh.own
  {}

  lemma SpelledIs(a: Ents, ia: Index, sh: Shape, x: Id)
    requires WellFormed(a, ia) && sh == ShapeOf(a, ia) && x in sh.own
    ensures x in a && sh.own[x] in a && a[x].uri != [] && Init(a[x].uri) == a[sh.own[x]].uri
  {}

  lemma TopLevel(a: Ents, ia: Index, sh: Shape, x: Id)
    requires WellFormed(a, ia) && sh == ShapeOf(a, ia) && x in a
    ensures a[x].uri != [] && (x in sh.own <==> |a[x].uri| >= 2)
  {}

  lemma OwnerOutside(sh: Shape, e: Id, x: Id)
    requires Formed(sh) && e in sh.sub && x in sh.own
    ensures (x == e || x !in sh.sub[e]) ==> sh.own[x] !in sh.sub[e]
    ensures x != e && x in sh.sub[e] ==> sh.own[x] in sh.sub[e]
  {
    if x == e { ChildSubtree(sh, e); }
  }

  /** The only key to go stale is the old key, in the parent's set. */
  lemma RenameStale(a: Ents, ia: Index, e: Id, v: Path, m: Ents, im: Index)
    requires WellFormed(a, ia) && e in a && a[e].uri != [] && v != [] && NoKey(a, ia, v)
    requires m == Reseat(a, e, v) && im == Rekeyed(ia, a[e].uri, v, e)
    ensures forall z, q {:trigger q in m[z].children} :: z in m ==>
              (q in m[z].children && q !in im <==>
                (q in a[z].children && q !in ia) || (z in Leftover(a, ia, e) && q == a[e].uri))
  {
    assert forall z {:trigger m[z].children} :: z in m ==> m[z].children == a[z].children;
    assert v != a[e].uri;
    forall z, q {:trigger q in m[z].children} | z in m
      ensures q in m[z].children && q !in im <==>
              (q in a[z].children && q !in ia) || (z in Leftover(a, ia, e) && q == a[e].uri)
    {
      if q == a[e].uri && z in Leftover(a, ia, e) { LeftoverLists(a, ia, e, z); }
    }
  }

  lemma LeftoverLists(a: Ents, ia: Index, e: Id, z: Id)
    requires WellFormed(a, ia) && e in a && a[e].uri != [] && z in Leftover(a, ia, e)
    ensures z in a && a[e].uri in a[z].children
  {
    assert a[z].uri == Init(a[e].uri) && a[z].uri != [];
  }

  lemma RenameWellFormed(a: Ents, ia: Index, sh: Shape, sr: Shape, e: Id, n: string, v: Path, b: Ents, ib: Index)
    requires e in a && a[e].uri != [] && v == Init(a[e].uri) + [n] && b.Keys == a.Keys && sr == Renamed(sh, e, n)
    requires Covers(sh, a) && Formed(sh) && Good(b, ib, sr, {}) && Seated(b, sr, e, v) && SameElsewhere(a, b, sr.sub[e])
    requires WellFormed(a, ia) && sh == ShapeOf(a, ia)
    ensures WellFormed(b, ib)
  {
    hide WellFormed, ShapeOf, Formed, Parented, Seated, SameElsewhere, Agree, Housed;
    forall x | x in a
      ensures x in sr.own ==> sr.own[x] in b && b[x].uri == b[sr.own[x]].uri + [sr.names[x]]
      ensures x !in sr.own ==> |b[x].uri| == 1
    {
      RenameSpelled(a, ia, b, sh, sr, e, n, v, x);
    }
    assert Spelled(b, sr, {});
    SpelledWellFormed(b, ib, sr, {});
  }

  lemma RenameMoves(a: Ents, ia: Index, sh: Shape, sr: Shape, e: Id, n: string, v: Path, m: Ents, im: Index, b: Ents,
        ib: Index)
    requires e in a && a[e].uri != [] && v == Init(a[e].uri) + [n] && b.Keys == a.Keys && sr == Renamed(sh, e, n)
    requires m == Reseat(a, e, v) && im == Rekeyed(ia, a[e].uri, v, e) && StaleKept(m, im, b, ib) && NoKey(a, ia, v)
    requires Covers(sh, a) && Formed(sh) && Formed(sr) && Seated(b, sr, e, v) && SameElsewhere(a, b, sr.sub[e])
    requires WellFormed(a, ia) && WellFormed(b, ib) && sh == ShapeOf(a, ia)
    ensures Moved(a, ia, b, ib, a[e].uri, v, Leftover(a, ia, e))
  {
    hide ShapeOf, Rooted, KeysBelow, Indexed, Parented, Formed, Seated, SameElsewhere, StaleKept, NoKey, Leftover,
         SameBelow;
    BelowIsSame(sh, e, n);
    PathsFollow(a, ia, b, sh, sr, e, v);
    IndexFollows(a, ia, b, ib, a[e].uri, v);
    RenameStale(a, ia, e, v, m, im);
    ListsFollow(a, ia, m, im, b, ib, a[e].uri, Leftover(a, ia, e));
  }

  /** A finished rename is one move of the subtree, and the hierarchy is well formed again. */
  lemma RenameDone(a: Ents, ia: Index, sh: Shape, sr: Shape, e: Id, n: string, v: Path, m: Ents, im: Index, b: Ents,
        ib: Index)
    requires e in a && a[e].uri != [] && v == Init(a[e].uri) + [n] && b.Keys == a.Keys && sr == Renamed(sh, e, n)
    requires m == Reseat(a, e, v) && im == Rekeyed(ia, a[e].uri, v, e) && StaleKept(m, im, b, ib) && NoKey(a, ia, v)
    requires Good(b, ib, sr, {}) && e in sr.sub && Seated(b, sr, e, v) && SameElsewhere(a, b, sr.sub[e])
    requires WellFormed(a, ia) && sh == ShapeOf(a, ia)
    ensures WellFormed(b, ib) && Moved(a, ia, b, ib, a[e].uri, v, Leftover(a, ia, e))
  {
    hide WellFormed, ShapeOf, Formed, Parented, Seated, SameElsewhere, Agree, Housed, StaleKept, NoKey, Leftover, Moved;
    ShapeFormed(a, ia);
    ShapeCovers(a, ia);
    RenameWellFormed(a, ia, sh, sr, e, n, v, b, ib);
    RenameMoves(a, ia, sh, sr, e, n, v, m, im, b, ib);
  }

  lemma BelowIsSame(sh: Shape, e: Id, n: string)
    requires Formed(sh) && e in sh.sub
    ensures SameBelow(sh, Renamed(sh, e, n), sh.sub[e], e)
  {}

  // ---------------------------------------------------------------- rename: what the steps find

  lemma RenameParent(a: Ents, ia: Index, sh: Shape, e: Id, n: string)
    requires WellFormed(a, ia) && sh == ShapeOf(a, ia) && e in a && a[e].uri != []
    ensures a[e].parent in ia <==> e in sh.own
    ensures e in sh.own ==>
            |a[e].uri| >= 2 && ia[a[e].parent] == sh.own[e] && sh.own[e] in a && a[sh.own[e]].uri == Init(a[e].uri)
    ensures e !in sh.own ==> Init(a[e].uri) == []
    ensures var v := Init(a[e].uri) + [n]; Reseat(a, e, v) == a[e := a[e].(uri := v)]
  {
    hide KeysBelow;
    TopLevel(a, ia, sh, e);
    if e in sh.own { SpelledIs(a, ia, sh, e); }
    assert [] !in ia;
  }

  lemma Tighten(a: Ents, ia: Index, sh: Shape, e: Id)
    requires Agree(a, ia, sh, {e}) && e !in sh.own
    ensures Agree(a, ia, sh, {})
  {}

  lemma SameElsewhereReseat(a: Ents, b: Ents, sh: Shape, e: Id, v: Path)
    requires e in a && v != [] && b == Reseat(a, e, v) && Formed(sh) && e in sh.sub
    ensures SameElsewhere(a, b, sh.sub[e])
  {}

  lemma SameElsewhereTwice(a: Ents, b: Ents, c: Ents, s: set<Id>)
    requires SameElsewhere(a, b, s) && SameElsewhere(b, c, s)
    ensures SameElsewhere(a, c, s)
  {}

  lemma OutsideElsewhere(a: Ents, b: Ents, s: set<Id>)
    requires SameOutside(a, b, s)
    ensures SameElsewhere(a, b, s)
  {}

  lemma EnlistElsewhere(d: Ents, z: Id, q: Path, b: Ents, sh: Shape, e: Id, v: Path)
    requires z in d && b == Enlist(d, z, q) && Formed(sh) && sh.rank.Keys == d.Keys && e in d && Seated(d, sh, e, v)
    ensures SameElsewhere(d, b, {}) && Seated(b, sh, e, v)
  {
    assert forall x {:trigger b[x].uri} :: x in d ==> b[x].uri == d[x].uri;
  }

  lemma ResettledClear(c: Ents, ic: Index, d: Ents, id: Index, b: Ents, sr: Shape, e: Id, z: Id, v: Path)
    requires Covers(sr, c) && e in c && z in c && z in d && v == c[z].uri + [sr.names[e]]
    requires Good(c, ic, sr, {e}) && Agree(d, id, sr, {e}) && Unlisted(c, e) && Clear(c, ic, sr, e)
    requires Settled(c, ic, d, id, sr, e, v) && b == Enlist(d, z, v)
    ensures Clear(b, id, sr, e)
  {
    hide Indexed, Fits, Listed, Formed, Housed, Parented, Clear, Unlisted, Carried, StaleKept, Seated, SameOutside;
    UriLive(c, ic, z);
    NamesDiffer(c, ic, sr, e, c[z].uri);
    SettledCarries(c, ic, d, id, sr, {e}, e, v);
    ClearAfter(c, ic, d, id, sr, e, sr.sub[e], v);
    EnlistClear(d, id, z, v, b, sr, e);
  }

  lemma ResettledVacant(c: Ents, ic: Index, d: Ents, id: Index, b: Ents, sr: Shape, e: Id, z: Id, v: Path)
    requires Covers(sr, c) && e in c && z in c && z in d && v in id && Indexed(c, ic) && NoKey(c, ic, v)
    requires Good(b, id, sr, {}) && Tidy(sr, e) && Settled(c, ic, d, id, sr, e, v) && b == Enlist(d, z, v)
    ensures Vacant(b, id, sr, e, {}) && b[e].uri == v && SameElsewhere(c, b, sr.sub[e]) && StaleKept(c, ic, b, id)
            && Seated(b, sr, e, v)
  {
    hide Indexed, Fits, Listed, Formed, Housed, Parented, NoKey, Tidy, Vacant, StaleKept, Seated, SameOutside;
    EnlistElsewhere(d, z, v, b, sr, e, v);
    SeatedHere(b, sr, e, v);
    OutsideElsewhere(c, d, sr.sub[e]);
    EnlistKeeps(d, id, z, v, b);
    StaleKeptTwice(c, ic, d, id, b, id);
    VacantSettled(c, ic, b, id, sr, e, v);
  }

  /** Out of the parent and back in: the subtree sits at its new path and each child holds its own place. */
  lemma RenameResettled(a: Ents, m: Ents, im: Index, c: Ents, ic: Index, d: Ents, b: Ents, ib: Index, sr: Shape, e: Id,
        z: Id, v: Path)
    requires e in a && v != [] && m == Reseat(a, e, v) && Covers(sr, a) && c.Keys == a.Keys && z in a && z in d
             && v == c[z].uri + [sr.names[e]]
    requires Good(c, ic, sr, {e}) && Agree(d, ib, sr, {e}) && Unlisted(c, e) && MayMove(c, ic, sr, e, v)
             && Good(b, ib, sr, {})
    requires Settled(m, im, c, ic, sr, e, [sr.names[e]]) && Settled(c, ic, d, ib, sr, e, v) && b == Enlist(d, z, v)
    ensures b.Keys == a.Keys && b[e].uri == v && Clear(b, ib, sr, e) && Vacant(b, ib, sr, e, {})
    ensures SameElsewhere(a, b, sr.sub[e]) && StaleKept(m, im, b, ib)
  {
    hide Indexed, Fits, Listed, Formed, Housed, Parented, Clear, Unlisted, NoKey, Tidy, Vacant, StaleKept, Seated,
         SameOutside;
    SeatedHere(d, sr, e, v);
    UriLive(d, ib, e);
    ResettledClear(c, ic, d, ib, b, sr, e, z, v);
    ResettledVacant(c, ic, d, ib, b, sr, e, z, v);
    SameElsewhereReseat(a, m, sr, e, v);
    OutsideElsewhere(m, c, sr.sub[e]);
    SameElsewhereTwice(a, m, c, sr.sub[e]);
    SameElsewhereTwice(a, c, b, sr.sub[e]);
    StaleKeptTwice(m, im, c, ic, b, ib);
  }
}
