/** Letting a subtree go from its parent and hanging it under another: the steps and their sum. */
module Attaching {
  import opened Common
  import opened EntityTree
  import opened Reseating
  import opened Moves
  import opened Renaming

  // ---------------------------------------------------------------- detach

  /** The names of `e` and of what is below it clash with no top-level key and with none of their ancestors below
      `e`. */
  predicate NamesApart(ents: Ents, index: Index, e: Id)
    requires e in ents && ents[e].uri != []
  {
    NamesFree(ents, index, e) && ChainsDiffer(ents, e, Last(ents[e].uri))
  }

  lemma SameName(a: Ents, ia: Index, sh: Shape, e: Id)
    requires WellFormed(a, ia) && sh == ShapeOf(a, ia) && e in a
    ensures a[e].uri != [] && e in sh.names && sh.names[e] == Last(a[e].uri) && Renamed(sh, e, Last(a[e].uri)) == sh
  {
    assert sh.names[e := sh.names[e]] == sh.names;
  }

  lemma ApartShape(a: Ents, ia: Index, sh: Shape, e: Id)
    requires WellFormed(a, ia) && sh == ShapeOf(a, ia) && e in a && a[e].uri != [] && NamesApart(a, ia, e)
    ensures Good(a, ia, sh, {}) && Covers(sh, a) && Tidy(sh, e) && Clear(a, ia, sh, e)
  {
    hide ShapeOf, Rooted, KeysBelow, Indexed, Parented, Formed, NamesFree, ChainsDiffer, Fits, Listed, Housed, Tidy,
         Clear;
    ShapeFormed(a, ia);
    ShapeCovers(a, ia);
    ShapeAgrees(a, ia);
    SameName(a, ia, sh, e);
    NamesClear(a, ia, sh, e, Last(a[e].uri));
    NamesTidy(a, ia, sh, e, Last(a[e].uri));
  }

  lemma DetachSpelled(a: Ents, ia: Index, b: Ents, sh: Shape, e: Id, x: Id)
    requires e in a && x in a && a[e].uri != [] && b.Keys == a.Keys
    requires Covers(sh, a) && Formed(sh) && Seated(b, sh, e, [sh.names[e]]) && SameElsewhere(a, b, sh.sub[e])
    requires WellFormed(a, ia) && sh == ShapeOf(a, ia)
    ensures x in sh.own && x != e ==> sh.own[x] in b && b[x].uri == b[sh.own[x]].uri + [sh.names[x]]
    ensures x !in sh.own || x == e ==> |b[x].uri| == 1
  {
    hide WellFormed, ShapeOf, Formed;
    TopLevel(a, ia, sh, x);
    if x in sh.own {
      SpelledHere(a, ia, sh, x);
      OwnerOutside(sh, e, x);
    }
    StrictlyOwned(sh, e, x);
  }

  lemma DetachWellFormed(a: Ents, ia: Index, sh: Shape, e: Id, b: Ents, ib: Index)
    requires e in a && a[e].uri != [] && b.Keys == a.Keys
    requires Covers(sh, a) && Formed(sh) && Good(b, ib, sh, {e}) && Unlisted(b, e) && Seated(b, sh, e, [sh.names[e]])
             && SameElsewhere(a, b, sh.sub[e])
    requires WellFormed(a, ia) && sh == ShapeOf(a, ia)
    ensures WellFormed(b, ib)
  {
    hide WellFormed, ShapeOf, Formed, Parented, Seated, SameElsewhere, Agree, Housed, Unlisted;
    forall x | x in a
      ensures x in sh.own && x != e ==> sh.own[x] in b && b[x].uri == b[sh.own[x]].uri + [sh.names[x]]
      ensures x !in sh.own || x == e ==> |b[x].uri| == 1
    {
      DetachSpelled(a, ia, b, sh, e, x);
    }
    assert Spelled(b, sh, {e});
    SpelledWellFormed(b, ib, sh, {e});
  }

  /** A finished move with the stale keys kept, in the terms of the contract. */
  lemma MoveDone(a: Ents, ia: Index, sh: Shape, sr: Shape, e: Id, v: Path, b: Ents, ib: Index)
    requires e in a && b.Keys == a.Keys && StaleKept(a, ia, b, ib)
    requires Covers(sh, a) && Covers(sr, a) && Formed(sh) && Formed(sr) && Seated(b, sr, e, v)
             && SameElsewhere(a, b, sr.sub[e])
    requires sr.sub[e] == sh.sub[e] && SameBelow(sh, sr, sh.sub[e], e)
    requires WellFormed(a, ia) && WellFormed(b, ib) && sh == ShapeOf(a, ia)
    ensures Moved(a, ia, b, ib, a[e].uri, v, {})
  {
    hide ShapeOf, Rooted, KeysBelow, Indexed, Parented, Formed, Seated, SameElsewhere, StaleKept, SameBelow;
    PathsFollow(a, ia, b, sh, sr, e, v);
    IndexFollows(a, ia, b, ib, a[e].uri, v);
    ListsFollow(a, ia, a, ia, b, ib, a[e].uri, {});
  }

  lemma BelowIsItself(sh: Shape, e: Id)
    requires Formed(sh) && e in sh.sub
    ensures SameBelow(sh, sh, sh.sub[e], e)
  {}

  lemma UnlistElsewhere(a: Ents, z: Id, q: Path, b: Ents, s: set<Id>)
    requires z in a && b == Unlist(a, z, q)
    ensures SameElsewhere(a, b, s)
  {}

  lemma DetachDone(a: Ents, ia: Index, sh: Shape, z: Id, e: Id, m: Ents, b: Ents, ib: Index)
    requires e in a && a[e].uri != [] && a[e].uri in ia && z in a && m == Unlist(a, z, a[e].uri)
    requires Covers(sh, a) && Formed(sh) && Settled(m, ia, b, ib, sh, e, [sh.names[e]]) && Good(b, ib, sh, {e})
             && Unlisted(b, e)
    requires WellFormed(a, ia) && sh == ShapeOf(a, ia)
    ensures WellFormed(b, ib) && Moved(a, ia, b, ib, a[e].uri, [sh.names[e]], {})
  {
    hide WellFormed, ShapeOf, Formed, Seated, Agree, Housed, Parented, StaleKept, SameElsewhere, SameOutside, Moved,
         Unlisted, SameBelow;
    UnlistElsewhere(a, z, a[e].uri, m, sh.sub[e]);
    OutsideElsewhere(m, b, sh.sub[e]);
    SameElsewhereTwice(a, m, b, sh.sub[e]);
    UnlistKeeps(a, ia, z, a[e].uri, m);
    StaleKeptTwice(a, ia, m, ia, b, ib);
    DetachWellFormed(a, ia, sh, e, b, ib);
    BelowIsItself(sh, e);
    MoveDone(a, ia, sh, sh, e, [sh.names[e]], b, ib);
  }

  // ---------------------------------------------------------------- attach

  /** The tree with top-level entity `e` hung under `z`. */
  ghost function Grafted(sh: Shape, e: Id, z: Id): Shape
    requires e in sh.sub && z in sh.rank
  {
    Shape(sh.own[e := z],
          map x | x in sh.rank :: if x in sh.sub[e] then sh.rank[x] + sh.rank[z] + 1 else sh.rank[x],
          sh.names,
          map y | y in sh.sub :: if z in sh.sub[y] then sh.sub[y] + sh.sub[e] else sh.sub[y])
  }

  lemma GraftedBelow(sh: Shape, e: Id, z: Id, y: Id)
    requires Formed(sh) && e in sh.sub && z in sh.rank && z !in sh.sub[e] && y in sh.sub[e] && y in sh.sub
    ensures Grafted(sh, e, z).sub[y] == sh.sub[y]
  {
    if z in sh.sub[y] { BelowTransitive(sh, z, y, e); }
  }

  lemma GraftedStep(sh: Shape, e: Id, z: Id, y: Id, x: Id)
    requires Formed(sh) && e in sh.sub && z in sh.rank && z !in sh.sub[e] && e !in sh.own && y in sh.sub
    ensures var sg := Grafted(sh, e, z);
            x in sg.own ==>
              (x in sg.sub[y] && x != y ==> sg.own[x] in sg.sub[y]) && (sg.own[x] in sg.sub[y] ==> x in sg.sub[y])
  {
    if y in sh.sub[e] { GraftedBelow(sh, e, z, y); }
    StrictlyOwned(sh, y, e);
    StrictlyOwned(sh, e, x);
    if x in sh.own { OwnerOutside(sh, y, x); OwnerOutside(sh, e, x); }
  }

  lemma GraftedRanks(sh: Shape, e: Id, z: Id)
    requires Formed(sh) && e in sh.sub && z in sh.rank && z !in sh.sub[e] && e !in sh.own
    ensures var sg := Grafted(sh, e, z);
            && sg.names.Keys == sg.rank.Keys == sg.sub.Keys && sg.own.Keys <= sg.rank.Keys
            && (forall x {:trigger sg.own[x]} :: x in sg.own ==>
                  x in sg.rank && sg.own[x] in sg.rank && sg.rank[sg.own[x]] < sg.rank[x])
            && (forall y :: y in sg.sub ==> y in sg.sub[y] && sg.sub[y] <= sg.rank.Keys)
  {}

  lemma GraftedOwned(sh: Shape, e: Id, z: Id, y: Id, x: Id)
    requires Formed(sh) && e in sh.sub && z in sh.rank && y in sh.sub
    ensures var sg := Grafted(sh, e, z); x in sg.sub[y] && x != y ==> x in sg.own
  {}

  lemma GraftedFormed(sh: Shape, e: Id, z: Id)
    requires Formed(sh) && e in sh.sub && z in sh.rank && z !in sh.sub[e] && e !in sh.own
    ensures Formed(Grafted(sh, e, z))
  {
    hide Grafted;
    var sg := Grafted(sh, e, z);
    GraftedRanks(sh, e, z);
    assert sg.sub.Keys == sh.sub.Keys by { GraftedKeys(sh, e, z); }
    forall y, x {:trigger x in sg.sub[y]} | y in sg.sub && x in sg.sub[y] && x != y ensures x in sg.own {
      GraftedOwned(sh, e, z, y, x);
    }
    forall y, x {:trigger sg.sub[y], sg.own[x]} | y in sg.sub && x in sg.own
      ensures x in sg.sub[y] && x != y ==> sg.own[x] in sg.sub[y]
      ensures sg.own[x] in sg.sub[y] ==> x in sg.sub[y]
    {
      GraftedStep(sh, e, z, y, x);
    }
  }

  lemma GraftedKeys(sh: Shape, e: Id, z: Id)
    requires e in sh.sub && z in sh.rank
    ensures var sg := Grafted(sh, e, z);
            sg.sub.Keys == sh.sub.Keys && sg.rank.Keys == sh.rank.Keys && sg.names == sh.names
            && sg.own == sh.own[e := z]
  {}

  lemma GraftedTidy(a: Ents, ia: Index, sh: Shape, sg: Shape, e: Id, z: Id)
    requires Formed(sh) && e in sh.sub && z in sh.rank && z !in sh.sub[e] && sg == Grafted(sh, e, z) && Formed(sg)
             && e in sg.sub
    requires Tidy(sh, e) && Clear(a, ia, sh, e)
    ensures Tidy(sg, e) && Clear(a, ia, sg, e) && sg.sub[e] == sh.sub[e]
  {
    hide Grafted, NoKey, Formed, Tidy, Clear;
    GraftedKeys(sh, e, z);
    SelfBelow(sh, e);
    GraftedBelow(sh, e, z, e);
    forall y | y in sh.sub[e] ensures y in sh.sub && y in sg.sub && sg.sub[y] == sh.sub[y] {
      SubKnown(sh, e, y);
      GraftedBelow(sh, e, z, y);
    }
    SameTidy(sh, sg, e, z);
    SameClear(a, ia, sh, sg, e);
  }

  lemma SubKnown(sh: Shape, e: Id, y: Id)
    requires Formed(sh) && e in sh.sub && y in sh.sub[e]
    ensures y in sh.sub
  {}

  lemma SameTidy(sh: Shape, sg: Shape, e: Id, z: Id)
    requires Formed(sh) && Formed(sg) && e in sh.sub && e in sg.sub && z !in sh.sub[e]
    requires sg.own == sh.own[e := z] && sg.names == sh.names && Tidy(sh, e)
    requires sg.sub[e] == sh.sub[e] && forall y :: y in sh.sub[e] ==>
             y in sg.sub && y in sh.sub && sg.sub[y] == sh.sub[y]
    ensures Tidy(sg, e)
  {}

  lemma SameClear(a: Ents, ia: Index, sh: Shape, sg: Shape, e: Id)
    requires Formed(sh) && Formed(sg) && e in sh.sub && e in sg.sub && sg.names == sh.names && sg.sub[e] == sh.sub[e]
             && Clear(a, ia, sh, e)
    ensures Clear(a, ia, sg, e)
  {}

  lemma GraftedAgrees(a: Ents, ia: Index, sh: Shape, sg: Shape, e: Id, z: Id)
    requires Agree(a, ia, sh, {}) && Housed(a, sh) && e in a && z in a && Container(a[z].kind) && e !in sh.own
             && sg.own == sh.own[e := z] && sg.names == sh.names
    ensures Agree(a, ia, sg, {e}) && Housed(a, sg)
  {}

  lemma TopUnlisted(a: Ents, ia: Index, e: Id)
    requires WellFormed(a, ia) && e in a && |a[e].uri| == 1
    ensures Unlisted(a, e)
  {}

  ghost predicate MayAttach(ents: Ents, index: Index, z: Id, e: Id)
    requires e in ents && z in ents && |ents[e].uri| == 1
  {
    && Container(ents[z].kind) && !(ents[e].uri <= ents[z].uri)
    && NoKey(ents, index, ents[z].uri + ents[e].uri) && NamesApart(ents, index, e)
  }

  lemma AttachReady(a: Ents, ia: Index, sh: Shape, sg: Shape, z: Id, e: Id)
    requires WellFormed(a, ia) && e in a && z in a && |a[e].uri| == 1 && MayAttach(a, ia, z, e)
    requires sh == ShapeOf(a, ia) && e in sh.sub && z in sh.rank && sg == Grafted(sh, e, z)
    ensures Good(a, ia, sg, {e}) && Covers(sg, a) && e in sg.own && sg.own[e] == z && OnlyLoose(sg, {e}, e)
    ensures Unlisted(a, e) && a[z].uri != [] && !Contains(a[e].uri, a[z].uri)
    ensures [sg.names[e]] == a[e].uri && MayMove(a, ia, sg, e, a[z].uri + [sg.names[e]])
    ensures Good(a, ia, sh, {}) && Covers(sh, a) && e !in sh.own && z !in sh.sub[e] && sg.sub[e] == sh.sub[e]
  {
    hide WellFormed, ShapeOf, Grafted, Formed, Housed, Parented, Agree, Tidy, Clear, NoKey, NamesApart, Unlisted;
    ApartShape(a, ia, sh, e);
    TopLevel(a, ia, sh, e);
    TopLevel(a, ia, sh, z);
    SameName(a, ia, sh, e);
    BelowIsPrefix(a, ia, sh, e, z);
    GraftedKeys(sh, e, z);
    GraftedFormed(sh, e, z);
    GraftedTidy(a, ia, sh, sg, e, z);
    GraftedAgrees(a, ia, sh, sg, e, z);
    TopUnlisted(a, ia, e);
    assert !(a[z].uri <= a[e].uri);
  }

  lemma AttachSpelled(a: Ents, ia: Index, b: Ents, sh: Shape, sg: Shape, z: Id, e: Id, x: Id)
    requires e in a && x in a && z in a && b.Keys == a.Keys && sg.own == sh.own[e := z] && sg.names == sh.names
    requires Covers(sh, a) && Covers(sg, a) && Formed(sh) && Formed(sg) && z !in sh.sub[e] && sg.sub[e] == sh.sub[e]
    requires Seated(b, sg, e, a[z].uri + [sg.names[e]]) && SameElsewhere(a, b, sh.sub[e])
    requires WellFormed(a, ia) && sh == ShapeOf(a, ia)
    ensures x in sg.own ==> sg.own[x] in b && b[x].uri == b[sg.own[x]].uri + [sg.names[x]]
    ensures x !in sg.own ==> |b[x].uri| == 1
  {
    hide WellFormed, ShapeOf, Formed;
    TopLevel(a, ia, sh, x);
    if x in sh.own {
      SpelledHere(a, ia, sh, x);
      OwnerOutside(sh, e, x);
    }
    StrictlyOwned(sh, e, x);
  }

  lemma AttachWellFormed(a: Ents, ia: Index, sh: Shape, sg: Shape, z: Id, e: Id, b: Ents, ib: Index)
    requires e in a && z in a && b.Keys == a.Keys && sg.own == sh.own[e := z] && sg.names == sh.names
    requires Covers(sh, a) && Covers(sg, a) && Formed(sh) && Good(b, ib, sg, {}) && z !in sh.sub[e]
             && sg.sub[e] == sh.sub[e]
    requires Seated(b, sg, e, a[z].uri + [sg.names[e]]) && SameElsewhere(a, b, sh.sub[e])
    requires WellFormed(a, ia) && sh == ShapeOf(a, ia)
    ensures WellFormed(b, ib)
  {
    hide WellFormed, ShapeOf, Formed, Parented, Seated, SameElsewhere, Agree, Housed;
    forall x | x in a
      ensures x in sg.own ==> sg.own[x] in b && b[x].uri == b[sg.own[x]].uri + [sg.names[x]]
      ensures x !in sg.own ==> |b[x].uri| == 1
    {
      AttachSpelled(a, ia, b, sh, sg, z, e, x);
    }
    assert Spelled(b, sg, {});
    SpelledWellFormed(b, ib, sg, {});
  }

  lemma GraftSame(sh: Shape, sg: Shape, e: Id, z: Id)
    requires Formed(sh) && e in sh.sub && sg.own == sh.own[e := z] && sg.names == sh.names
    ensures SameBelow(sh, sg, sh.sub[e], e)
  {}

  lemma AttachDone(a: Ents, ia: Index, sh: Shape, sg: Shape, z: Id, e: Id, c: Ents, b: Ents, ib: Index)
    requires e in a && z in a && z in c && e !in sh.own && sg.own == sh.own[e := z] && sg.names == sh.names
    requires Covers(sh, a) && Covers(sg, a) && Formed(sh) && Good(b, ib, sg, {}) && z !in sh.sub[e]
             && sg.sub[e] == sh.sub[e]
    requires Agree(c, ib, sg, {e})
    requires var v := a[z].uri + [sg.names[e]]; Settled(a, ia, c, ib, sg, e, v) && b == Enlist(c, z, v)
    requires WellFormed(a, ia) && sh == ShapeOf(a, ia)
    ensures WellFormed(b, ib) && Moved(a, ia, b, ib, a[e].uri, a[z].uri + [sg.names[e]], {})
  {
    hide WellFormed, ShapeOf, Formed, Seated, Fits, Indexed, Listed, Housed, Parented, StaleKept, SameElsewhere,
         SameOutside, Moved, SameBelow;
    var v := a[z].uri + [sg.names[e]];
    SeatedHere(c, sg, e, v);
    UriLive(c, ib, e);
    EnlistElsewhere(c, z, v, b, sg, e, v);
    OutsideElsewhere(a, c, sg.sub[e]);
    NowhereElse(c, b, sg.sub[e]);
    SameElsewhereTwice(a, c, b, sg.sub[e]);
    EnlistKeeps(c, ib, z, v, b);
    StaleKeptTwice(a, ia, c, ib, b, ib);
    AttachWellFormed(a, ia, sh, sg, z, e, b, ib);
    GraftSame(sh, sg, e, z);
    MoveDone(a, ia, sh, sg, e, v, b, ib);
  }

  lemma NowhereElse(a: Ents, b: Ents, s: set<Id>)
    requires SameElsewhere(a, b, {})
    ensures SameElsewhere(a, b, s)
  {}

  // ---------------------------------------------------------------- detach, then attach elsewhere

  /** Child of `z` to be: names apart, `z` a container outside the subtree, and the new place free. */
  ghost predicate MayReparent(ents: Ents, index: Index, e: Id, z: Id)
    requires e in ents && z in ents && ents[e].uri != []
  {
    && Container(ents[z].kind) && !(ents[e].uri <= ents[z].uri)
    && NoKey(ents, index, [Last(ents[e].uri)]) && NoKey(ents, index, ents[z].uri + [Last(ents[e].uri)])
    && NamesApart(ents, index, e)
  }

  lemma MovedFrees(a: Ents, ia: Index, b: Ents, ib: Index, u: Path, v: Path, p: Path)
    requires Moved(a, ia, b, ib, u, v, {}) && NoKey(a, ia, p) && Apart(p, v)
    ensures NoKey(b, ib, p)
  {
    forall q | q in ib ensures !(p <= q) {
      var r :| r in ia && q == Rebase(r, u, v);
      if p <= q && v <= q { PrefixesCompare(p, v, q); }
    }
  }

  lemma PrefixShift(x: Path, s: Path, t: Path)
    ensures x + s <= x + t <==> s <= t
  {
    if s <= t { assert x + t == x + s + t[|s|..]; }
    if x + s <= x + t {
      assert forall i {:trigger s[i]} :: 0 <= i < |s| ==> s[i] == (x + s)[|x| + i] == (x + t)[|x| + i] == t[i];
      assert s == t[..|s|];
    }
  }

  /** Rebasing keeps the last segment, and the prefix order, of what is under `u`. */
  lemma RebaseShape(p: Path, q: Path, u: Path, v: Path)
    requires u != [] && v != [] && u <= p && u <= q && Last(u) == Last(v)
    ensures p != [] && Rebase(p, u, v) != [] && Last(Rebase(p, u, v)) == Last(p) && v <= Rebase(p, u, v)
    ensures p <= q <==> Rebase(p, u, v) <= Rebase(q, u, v)
  {
    var s, t := p[|u|..], q[|u|..];
    assert p == u + s && q == u + t;
    PrefixShift(u, s, t);
    PrefixShift(v, s, t);
  }

  /** What is under the new place is what was under the old one. */
  lemma MovedUnder(a: Ents, ia: Index, b: Ents, ib: Index, u: Path, v: Path, x: Id)
    requires Indexed(a, ia) && Moved(a, ia, b, ib, u, v, {}) && NoKey(a, ia, v) && x in a
    ensures x in b && (v <= b[x].uri <==> u <= a[x].uri) && (u <= a[x].uri ==> b[x].uri == Rebase(a[x].uri, u, v))
  {
    assert a[x].uri in ia && b[x].uri == Rebase(a[x].uri, u, v);
  }

  lemma ChainsAfterDetach(a: Ents, ia: Index, b: Ents, ib: Index, e: Id, n: string)
    requires Indexed(a, ia) && e in a && a[e].uri != [] && Last(a[e].uri) == n && NoKey(a, ia, [n])
             && ChainsDiffer(a, e, n)
    requires Moved(a, ia, b, ib, a[e].uri, [n], {}) && b[e].uri == [n]
    ensures ChainsDiffer(b, e, n)
  {
    hide Moved, NoKey, Indexed;
    var u, v := a[e].uri, [n];
    SameKeys(a, ia, b, ib, u, v);
    forall y, x {:trigger b[y], b[x]} | y in b && x in b && y != x && v <= b[y].uri <= b[x].uri && b[y].uri != []
      && b[x].uri != []
      ensures Last(b[x].uri) != (if y == e then n else Last(b[y].uri))
    {
      MovedUnder(a, ia, b, ib, u, v, y);
      MovedUnder(a, ia, b, ib, u, v, x);
      assert v <= b[x].uri;
      RebaseShape(a[y].uri, a[x].uri, u, v);
      RebaseShape(a[x].uri, a[x].uri, u, v);
    }
  }

  lemma SameKeys(a: Ents, ia: Index, b: Ents, ib: Index, u: Path, v: Path)
    requires Moved(a, ia, b, ib, u, v, {})
    ensures a.Keys == b.Keys
  {}

  lemma NamesAfterDetach(a: Ents, ia: Index, b: Ents, ib: Index, e: Id, n: string)
    requires Indexed(a, ia) && e in a && a[e].uri != [] && Last(a[e].uri) == n && NoKey(a, ia, [n])
             && ChainsDiffer(a, e, n) && NamesFree(a, ia, e)
    requires Moved(a, ia, b, ib, a[e].uri, [n], {}) && b[e].uri == [n]
    ensures NamesFree(b, ib, e)
  {
    hide Moved, NoKey, Indexed;
    var u, v := a[e].uri, [n];
    SameKeys(a, ia, b, ib, u, v);
    forall x {:trigger b[x]} | x in b && x != e && b[e].uri <= b[x].uri && b[x].uri != []
      ensures NoKey(b, ib, [Last(b[x].uri)])
    {
      MovedUnder(a, ia, b, ib, u, v, x);
      RebaseShape(a[x].uri, a[x].uri, u, v);
      assert Last(a[x].uri) != n;
      MovedFrees(a, ia, b, ib, u, v, [Last(a[x].uri)]);
    }
  }

  /** After the detach the subtree may be attached to `z`. */
  lemma ReparentReady(a: Ents, ia: Index, b: Ents, ib: Index, e: Id, z: Id, n: string)
    requires WellFormed(a, ia) && e in a && z in a && a[e].uri != [] && Last(a[e].uri) == n && MayReparent(a, ia, e, z)
    requires Moved(a, ia, b, ib, a[e].uri, [n], {})
    ensures e in b && z in b && b[e].uri == [n] && b[z].uri == a[z].uri && MayAttach(b, ib, z, e)
  {
    hide NoKey, NamesFree, ChainsDiffer, Rooted, KeysBelow, Parented, Indexed;
    assert b[e].uri == [n] + a[e].uri[|a[e].uri|..];
    assert b[z].uri == a[z].uri && b[z].kind == a[z].kind;
    hide Moved;
    UriLive(a, ia, z);
    FirstDiffers(a, ia, a[z].uri, n);
    assert (a[z].uri + [n])[0] == a[z].uri[0];
    MovedFrees(a, ia, b, ib, a[e].uri, [n], a[z].uri + [n]);
    ChainsAfterDetach(a, ia, b, ib, e, n);
    NamesAfterDetach(a, ia, b, ib, e, n);
  }

  // ---------------------------------------------------------------- attach straight from another parent

  /** The tree with `e` and what is below it cut off from its owner. */
  ghost function Pruned(sh: Shape, e: Id): Shape
    requires e in sh.sub
  {
    Shape(sh.own - {e}, sh.rank, sh.names, map y | y in sh.sub :: if y in sh.sub[e] then sh.sub[y]
      else sh.sub[y] - sh.sub[e])
  }

  lemma PrunedStep(sh: Shape, e: Id, y: Id, x: Id)
    requires Formed(sh) && e in sh.sub && y in sh.sub
    ensures var sp := Pruned(sh, e);
            && (x in sp.sub[y] && x != y ==> x in sp.own)
            && (x in sp.own && x in sp.sub[y] && x != y ==> sp.own[x] in sp.sub[y])
            && (x in sp.own && sp.own[x] in sp.sub[y] ==> x in sp.sub[y])
  {
    StrictlyOwned(sh, y, x);
    if x in sh.own { OwnerOutside(sh, y, x); OwnerOutside(sh, e, x); }
    if x == e && y in sh.sub[e] && e in sh.sub[y] { BelowRank(sh, y, e); BelowRank(sh, e, y); }
  }

  lemma PrunedKeys(sh: Shape, e: Id)
    requires Formed(sh) && e in sh.sub
    ensures var sp := Pruned(sh, e);
            && sp.names.Keys == sp.rank.Keys == sp.sub.Keys == sh.sub.Keys && sp.own == sh.own - {e}
                 && sp.rank == sh.rank && sp.names == sh.names
            && sp.own.Keys <= sp.rank.Keys && sp.sub[e] == sh.sub[e]
            && (forall y {:trigger sp.sub[y]} :: y in sp.sub ==> y in sp.sub[y] && sp.sub[y] <= sp.rank.Keys)
            && (forall y {:trigger sh.sub[y]} :: y in sh.sub[e] && y in sh.sub ==> sp.sub[y] == sh.sub[y])
  {}

  lemma PrunedFormed(sh: Shape, e: Id)
    requires Formed(sh) && e in sh.sub
    ensures Formed(Pruned(sh, e))
  {
    var sp := Pruned(sh, e);
    PrunedKeys(sh, e);
    forall x {:trigger sp.own[x]} | x in sp.own ensures x in sp.rank && sp.own[x] in sp.rank
      && sp.rank[sp.own[x]] < sp.rank[x]
    {
      assert sh.own[x] == sp.own[x];
    }
    hide Pruned;
    forall y, x | y in sp.sub
      ensures x in sp.sub[y] && x != y ==> x in sp.own
      ensures x in sp.own && x in sp.sub[y] && x != y ==> sp.own[x] in sp.sub[y]
      ensures x in sp.own && sp.own[x] in sp.sub[y] ==> x in sp.sub[y]
    {
      PrunedStep(sh, e, y, x);
    }
  }

  /** The tree with `e` taken from its owner and hung under `z`. */
  ghost function Regrafted(sh: Shape, e: Id, z: Id): Shape
    requires Formed(sh) && e in sh.sub && z in sh.rank
  {
    PrunedKeys(sh, e);
    Grafted(Pruned(sh, e), e, z)
  }

  lemma RegraftedFormed(sh: Shape, e: Id, z: Id)
    requires Formed(sh) && e in sh.sub && z in sh.rank && z !in sh.sub[e]
    ensures var sg := Regrafted(sh, e, z);
            Formed(sg) && sg.sub.Keys == sh.sub.Keys && sg.rank.Keys == sh.rank.Keys && sg.names == sh.names
              && sg.own == sh.own[e := z]
  {
    hide Pruned, Grafted, Formed;
    var sp := Pruned(sh, e);
    PrunedKeys(sh, e);
    PrunedFormed(sh, e);
    GraftedFormed(sp, e, z);
    GraftedKeys(sp, e, z);
    assert (sh.own - {e})[e := z] == sh.own[e := z];
  }

  lemma RegraftedBelow(sh: Shape, e: Id, z: Id, y: Id)
    requires Formed(sh) && e in sh.sub && z in sh.rank && z !in sh.sub[e] && y in sh.sub[e]
    ensures y in sh.sub && y in Regrafted(sh, e, z).sub && Regrafted(sh, e, z).sub[y] == sh.sub[y]
  {
    var sp := Pruned(sh, e);
    PrunedKeys(sh, e);
    PrunedFormed(sh, e);
    SubKnown(sh, e, y);
    assert sh.sub[y] == sh.sub[y];
    hide Pruned, Grafted, Formed;
    GraftedKeys(sp, e, z);
    GraftedBelow(sp, e, z, y);
  }

  lemma RegraftedIs(sh: Shape, e: Id, z: Id)
    requires Formed(sh) && e in sh.sub && z in sh.rank && z !in sh.sub[e]
    ensures var sg := Regrafted(sh, e, z);
            && Formed(sg) && sg.sub.Keys == sh.sub.Keys && sg.rank.Keys == sh.rank.Keys && sg.names == sh.names
                 && sg.own == sh.own[e := z] && sg.sub[e] == sh.sub[e]
            && forall y {:trigger y in sh.sub[e]} :: y in sh.sub[e] ==>
                 y in sh.sub && y in sg.sub && sg.sub[y] == sh.sub[y]
  {
    hide Regrafted, Formed;
    RegraftedFormed(sh, e, z);
    SelfBelow(sh, e);
    RegraftedBelow(sh, e, z, e);
    forall y {:trigger y in sh.sub[e]} | y in sh.sub[e]
      ensures y in sh.sub && y in Regrafted(sh, e, z).sub && Regrafted(sh, e, z).sub[y] == sh.sub[y]
    {
      RegraftedBelow(sh, e, z, y);
    }
  }

  /** The entity may go straight under `z`, which is neither above nor below it. */
  ghost predicate MayTake(ents: Ents, index: Index, z: Id, e: Id)
    requires e in ents && z in ents && ents[e].uri != []
  {
    && Container(ents[z].kind) && !(ents[e].uri <= ents[z].uri) && !Contains(ents[e].uri, ents[z].uri)
    && NoKey(ents, index, ents[z].uri + [Last(ents[e].uri)]) && NamesApart(ents, index, e)
  }

  lemma TakenListed(a: Ents, ia: Index, sh: Shape, sg: Shape, e: Id, z: Id, v: Path, b: Ents, ib: Index)
    requires Indexed(a, ia) && Fits(a, sh) && Listed(a, ia, sh, {}) && e in a && z in a && sg.own == sh.own[e := z]
             && Fits(b, sg)
    requires v != [] && NoKey(a, ia, v) && b == Reseat(a, e, v) && ib == Rekeyed(ia, a[e].uri, v, e)
    ensures Listed(b, ib, sg, {e})
  {
    assert forall y {:trigger b[y].children} :: y in b ==> b[y].children == a[y].children;
    assert forall q {:trigger q in ib} :: q in ib && q != v ==> q in ia && ib[q] == ia[q] && ib[q] != e;
  }

  lemma TakenFits(a: Ents, sh: Shape, sg: Shape, e: Id, z: Id, v: Path)
    requires Fits(a, sh) && Housed(a, sh) && Parented(a) && e in a && z in a && Container(a[z].kind)
             && sg.own == sh.own[e := z] && sg.names == sh.names
    requires v != [] && e in sh.names && Last(v) == sh.names[e]
    ensures var b := Reseat(a, e, v); Fits(b, sg) && Housed(b, sg) && Parented(b)
  {}

  /** Right after `e` alone took its new path. */
  lemma TakeStep(a: Ents, ia: Index, sh: Shape, sg: Shape, z: Id, e: Id, v: Path, b: Ents, ib: Index)
    requires WellFormed(a, ia) && e in a && z in a && a[e].uri != [] && MayTake(a, ia, z, e)
             && v == a[z].uri + [Last(a[e].uri)]
    requires sh == ShapeOf(a, ia) && Formed(sh) && e in sh.sub && z in sh.rank && sg == Regrafted(sh, e, z)
    requires b == Reseat(a, e, v) && ib == Rekeyed(ia, a[e].uri, v, e)
    ensures Good(b, ib, sg, {e}) && Covers(sg, b) && Unlisted(b, e) && Tidy(sg, e) && Clear(b, ib, sg, e)
            && Vacant(b, ib, sg, e, {})
    ensures OnlyLoose(sg, {e}, e) && e in sg.own && sg.own[e] == z && sg.names[e] == Last(v)
    ensures Covers(sh, a) && z !in sh.sub[e] && sg.sub[e] == sh.sub[e] && sg.own == sh.own[e := z]
            && sg.names == sh.names
  {
    hide WellFormed, ShapeOf, Regrafted, Formed, Housed, Parented, Fits, Listed, Indexed, Tidy, Clear, NoKey,
         NamesApart, Unlisted, Vacant, SameOutside, OnlyUnder;
    ApartShape(a, ia, sh, e);
    SameName(a, ia, sh, e);
    BelowIsPrefix(a, ia, sh, e, z);
    RegraftedIs(sh, e, z);
    SameTidy(sh, sg, e, z);
    SameClear(a, ia, sh, sg, e);
    UriLive(a, ia, z);
    NamesDiffer(a, ia, sg, e, a[z].uri);
    assert v[0] == a[z].uri[0];
    ReseatKeepsIndex(a, ia, e, v);
    NoKeyThere(a, ia, v);
    TakenFits(a, sh, sg, e, z, v);
    TakenListed(a, ia, sh, sg, e, z, v, b, ib);
    ReseatClear(a, ia, sg, e, v, b, ib);
    ReseatAlone(a, ia, e, v, b, ib);
    VacantAfterReseat(a, ia, b, ib, sg, e, v);
  }

  lemma NoKeyThere(a: Ents, ia: Index, v: Path)
    requires NoKey(a, ia, v)
    ensures v !in ia
  {}

  /** Taken straight from another parent: one move of the subtree; the old parent keeps the old key. */
  lemma TakeDone(a: Ents, ia: Index, sh: Shape, sg: Shape, z: Id, e: Id, v: Path, m: Ents, im: Index, b: Ents, c: Ents,
        ic: Index)
    requires e in a && z in a && z in b && a[e].uri != [] && v == a[z].uri + [Last(a[e].uri)] && m == Reseat(a, e, v)
             && im == Rekeyed(ia, a[e].uri, v, e) && NoKey(a, ia, v)
    requires Covers(sh, a) && Covers(sg, a) && Formed(sh) && z !in sh.sub[e] && sg.sub[e] == sh.sub[e]
             && sg.own == sh.own[e := z] && sg.names == sh.names && sg.names[e] == Last(v)
    requires Good(c, ic, sg, {}) && Agree(b, ic, sg, {e}) && Settled(m, im, b, ic, sg, e, v) && c == Enlist(b, z, v)
    requires WellFormed(a, ia) && sh == ShapeOf(a, ia)
    ensures WellFormed(c, ic) && Moved(a, ia, c, ic, a[e].uri, v, Leftover(a, ia, e))
  {
    hide WellFormed, ShapeOf, Formed, Seated, Fits, Indexed, Listed, Housed, Parented, StaleKept, SameElsewhere,
         SameOutside, Moved, SameBelow, NoKey, Leftover;
    SeatedHere(b, sg, e, v);
    UriLive(b, ic, e);
    EnlistElsewhere(b, z, v, c, sg, e, v);
    SameElsewhereReseat(a, m, sg, e, v);
    OutsideElsewhere(m, b, sg.sub[e]);
    NowhereElse(b, c, sg.sub[e]);
    SameElsewhereTwice(a, m, b, sg.sub[e]);
    SameElsewhereTwice(a, b, c, sg.sub[e]);
    EnlistKeeps(b, ic, z, v, c);
    StaleKeptTwice(m, im, b, ic, c, ic);
    AttachWellFormed(a, ia, sh, sg, z, e, c, ic);
    GraftSame(sh, sg, e, z);
    TakeMoves(a, ia, sh, sg, e, v, m, im, c, ic);
  }

  lemma TakeMoves(a: Ents, ia: Index, sh: Shape, sg: Shape, e: Id, v: Path, m: Ents, im: Index, c: Ents, ic: Index)
    requires e in a && a[e].uri != [] && v != [] && c.Keys == a.Keys && m == Reseat(a, e, v)
             && im == Rekeyed(ia, a[e].uri, v, e) && NoKey(a, ia, v) && StaleKept(m, im, c, ic)
    requires Covers(sh, a) && Covers(sg, a) && Formed(sh) && Formed(sg) && sg.sub[e] == sh.sub[e]
             && SameBelow(sh, sg, sh.sub[e], e)
    requires Seated(c, sg, e, v) && SameElsewhere(a, c, sg.sub[e])
    requires WellFormed(a, ia) && WellFormed(c, ic) && sh == ShapeOf(a, ia)
    ensures Moved(a, ia, c, ic, a[e].uri, v, Leftover(a, ia, e))
  {
    hide ShapeOf, Rooted, KeysBelow, Indexed, Parented, Formed, Seated, SameElsewhere, StaleKept, NoKey, Leftover,
         SameBelow;
    PathsFollow(a, ia, c, sh, sg, e, v);
    IndexFollows(a, ia, c, ic, a[e].uri, v);
    RenameStale(a, ia, e, v, m, im);
    ListsFollow(a, ia, m, im, c, ic, a[e].uri, Leftover(a, ia, e));
  }

  // ---------------------------------------------------------------- registration and clashes

  /** When a new entity at `uri` leaves the hierarchy well formed. */
  ghost predicate MayRegister(ents: Ents, index: Index, uri: Path) {
    && uri != [] && uri !in index
    && (|uri| >= 2 ==>
          Init(uri) in index && index[Init(uri)] in ents && Container(ents[index[Init(uri)]].kind)
          && uri in ents[index[Init(uri)]].children)
    && (forall z {:trigger ents[z]} :: z in ents && uri in ents[z].children ==> |uri| >= 2 && Init(uri) == ents[z].uri)
  }

  /** A rename to a path that another entity has takes that entity's key: it is no longer found. */
  lemma RenameClash(a: Ents, ia: Index, e: Id, x: Id, n: string)
    requires Indexed(a, ia) && e in a && x in a && x != e && a[e].uri != [] && a[x].uri == Init(a[e].uri) + [n]
    ensures var v := Init(a[e].uri) + [n];
            var b, ib := Reseat(a, e, v), Rekeyed(ia, a[e].uri, v, e);
            b[x].uri in ib && ib[b[x].uri] == e && !Indexed(b, ib)
  {
    ReseatKeepsIndex(a, ia, e, Init(a[e].uri) + [n]);
  }
}
