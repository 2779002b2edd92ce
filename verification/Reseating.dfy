/** What one detach-and-attach of a child does to the tree, and what a whole round over the children adds up to. */
module Reseating {
  import opened Common
  import opened EntityTree

  ghost predicate Good(ents: Ents, index: Index, sh: Shape, loose: set<Id>) {
    && Formed(sh) && sh.sub.Keys == sh.names.Keys == sh.rank.Keys == ents.Keys
    && Housed(ents, sh) && Parented(ents) && Agree(ents, index, sh, loose)
  }

  /** Below `e` nothing is loose, except perhaps `e` itself. */
  ghost predicate OnlyLoose(sh: Shape, loose: set<Id>, e: Id)
    requires e in sh.sub
  {
    forall x {:trigger x in loose} :: x in loose && x in sh.sub[e] ==> x == e
  }

  /** Entity `e`, listed nowhere, may move with its subtree to `v`. */
  ghost predicate MayMove(ents: Ents, index: Index, sh: Shape, e: Id, v: Path)
    requires Formed(sh) && e in sh.sub
  {
    v != [] && Tidy(sh, e) && Clear(ents, index, sh, e) && NoKey(ents, index, v)
  }

  function Unlist(a: Ents, z: Id, q: Path): (b: Ents)
    requires z in a
    ensures b.Keys == a.Keys && forall x {:trigger b[x]} :: x in a ==> b[x].uri == a[x].uri
  {
    a[z := a[z].(children := a[z].children - {q})]
  }

  function Enlist(a: Ents, z: Id, q: Path): Ents
    requires z in a
  {
    a[z := a[z].(children := a[z].children + {q})]
  }

  /** Only child lists may differ. */
  ghost predicate SamePlaces(a: Ents, b: Ents) {
    a.Keys == b.Keys && forall x {:trigger b[x].uri} :: x in a ==> b[x].uri == a[x].uri
  }

  lemma SamePlacesIndexed(a: Ents, b: Ents, ia: Index)
    requires SamePlaces(a, b) && Indexed(a, ia)
    ensures Indexed(b, ia)
  {}

  lemma SamePlacesFits(a: Ents, b: Ents, sh: Shape)
    requires SamePlaces(a, b) && Fits(a, sh)
    ensures Fits(b, sh)
  {}

  lemma UnlistListed(a: Ents, ia: Index, sh: Shape, loose: set<Id>, k: Id, z: Id, b: Ents)
    requires Indexed(a, ia) && Fits(a, sh) && Fits(b, sh) && Listed(a, ia, sh, loose)
    requires k in sh.own && z == sh.own[k] && b == Unlist(a, z, a[k].uri)
    ensures Listed(b, ia, sh, loose + {k}) && Unlisted(b, k)
  {
    assert forall x {:trigger b[x].children} :: x in a && x != z ==> b[x].children == a[x].children;
  }

  lemma UnlistKeeps(a: Ents, ia: Index, z: Id, q: Path, b: Ents)
    requires z in a && q in ia && b == Unlist(a, z, q)
    ensures SamePlaces(a, b) && StaleKept(a, ia, b, ia)
  {
    assert forall x {:trigger b[x].children} :: x in a && x != z ==> b[x].children == a[x].children;
  }

  lemma EnlistKeeps(a: Ents, ia: Index, z: Id, q: Path, b: Ents)
    requires z in a && q in ia && b == Enlist(a, z, q)
    ensures SamePlaces(a, b) && StaleKept(a, ia, b, ia)
  {
    assert forall x {:trigger b[x].children} :: x in a && x != z ==> b[x].children == a[x].children;
  }

  lemma UnlistAgrees(a: Ents, ia: Index, sh: Shape, loose: set<Id>, k: Id, z: Id, b: Ents)
    requires Agree(a, ia, sh, loose) && k in sh.own && z == sh.own[k] && b == Unlist(a, z, a[k].uri)
    ensures Agree(b, ia, sh, loose + {k}) && Unlisted(b, k) && StaleKept(a, ia, b, ia)
  {
    UnlistKeeps(a, ia, z, a[k].uri, b);
    SamePlacesIndexed(a, b, ia);
    SamePlacesFits(a, b, sh);
    UnlistListed(a, ia, sh, loose, k, z, b);
  }

  lemma EnlistKey(a: Ents, ia: Index, sh: Shape, k: Id, b: Ents, y: Id, q: Path)
    requires k in sh.own && k in a && sh.own[k] in a && b == Enlist(a, sh.own[k], a[k].uri) && a[k].uri in ia
             && ia[a[k].uri] == k
    requires y in b && q in b[y].children && q in ia
    requires q in a[y].children ==> ia[q] in sh.own && sh.own[ia[q]] == y
    ensures ia[q] in sh.own && sh.own[ia[q]] == y
  {}

  lemma EnlistListed(a: Ents, ia: Index, sh: Shape, loose: set<Id>, k: Id, z: Id, b: Ents)
    requires Indexed(a, ia) && Fits(a, sh) && Fits(b, sh) && Listed(a, ia, sh, loose)
    requires k in sh.own && z == sh.own[k] && b == Enlist(a, z, a[k].uri)
    ensures Listed(b, ia, sh, loose - {k})
  {
    assert a[k].uri in ia && ia[a[k].uri] == k;
    forall x {:trigger sh.own[x]} | x in sh.own && x !in loose - {k} ensures b[x].uri in b[sh.own[x]].children {
      assert x in a && sh.own[x] in a && b[x].uri == a[x].uri;
    }
    hide Indexed, Fits;
    forall y, q {:trigger q in b[y].children} | y in b && q in b[y].children && q in ia
      ensures ia[q] in sh.own && sh.own[ia[q]] == y
    {
      EnlistKey(a, ia, sh, k, b, y, q);
    }
  }

  lemma EnlistAgrees(a: Ents, ia: Index, sh: Shape, loose: set<Id>, k: Id, z: Id, b: Ents)
    requires Agree(a, ia, sh, loose) && k in sh.own && z == sh.own[k] && b == Enlist(a, z, a[k].uri)
    ensures Agree(b, ia, sh, loose - {k}) && StaleKept(a, ia, b, ia)
  {
    EnlistKeeps(a, ia, z, a[k].uri, b);
    SamePlacesIndexed(a, b, ia);
    SamePlacesFits(a, b, sh);
    EnlistListed(a, ia, sh, loose, k, z, b);
  }

  lemma StaleKeptTwice(a: Ents, ia: Index, b: Ents, ib: Index, c: Ents, ic: Index)
    requires StaleKept(a, ia, b, ib) && StaleKept(b, ib, c, ic)
    ensures StaleKept(a, ia, c, ic)
  {}

  // ---------------------------------------------------------------- a whole subtree moves

  /** From `a` to `b` the subtree of `e` moved to `v`: its lists kept their stale keys and nothing else changed. */
  ghost predicate Settled(a: Ents, ia: Index, b: Ents, ib: Index, sh: Shape, e: Id, v: Path)
    requires Formed(sh) && sh.rank.Keys == a.Keys && e in a
  {
    SameOutside(a, b, sh.sub[e]) && StaleKept(a, ia, b, ib) && Seated(b, sh, e, v)
  }

  lemma SettledTwice(a: Ents, ia: Index, b: Ents, ib: Index, c: Ents, ic: Index, sh: Shape, e: Id, v: Path, w: Path)
    requires Formed(sh) && sh.rank.Keys == a.Keys && e in a
    requires Settled(a, ia, b, ib, sh, e, v) && Settled(b, ib, c, ic, sh, e, w)
    ensures Settled(a, ia, c, ic, sh, e, w)
  {
    StaleKeptTwice(a, ia, b, ib, c, ic);
  }

  lemma SettledCarries(a: Ents, ia: Index, b: Ents, ib: Index, sh: Shape, loose: set<Id>, e: Id, v: Path)
    requires Formed(sh) && sh.rank.Keys == a.Keys && e in a && Unlisted(a, e)
    requires Agree(a, ia, sh, loose) && Agree(b, ib, sh, loose) && Settled(a, ia, b, ib, sh, e, v)
    ensures Carried(a, ia, b, ib, sh.sub[e], v)
  {
    var s := sh.sub[e];
    forall x {:trigger b[x].uri} | x in b && x in s ensures v <= b[x].uri { SeatedPrefix(b, sh, e, v, x); }
    MoveCarries(a, ia, b, ib, s, v);
  }

  lemma StillUnlisted(a: Ents, ia: Index, b: Ents, ib: Index, sh: Shape, loose: set<Id>, e: Id, v: Path)
    requires Formed(sh) && sh.rank.Keys == a.Keys && e in a
    requires Agree(b, ib, sh, loose) && Settled(a, ia, b, ib, sh, e, v) && NoKey(a, ia, v)
    ensures Unlisted(b, e)
  {
    forall z {:trigger b[z].children} | z in b ensures v !in b[z].children {
      if e in sh.own && z == sh.own[e] { ChildSubtree(sh, e); }
    }
  }

  // ---------------------------------------------------------------- one round over the children

  /** The place under `e` of each child not in `done` holds no key but that child's own. */
  ghost predicate Vacant(ents: Ents, index: Index, sh: Shape, e: Id, done: set<Id>)
    requires Formed(sh) && sh.rank.Keys == ents.Keys && e in ents
  {
    forall k {:trigger sh.own[k]} :: k in sh.own && sh.own[k] == e && k !in done ==>
      OnlyUnder(ents, index, ents[e].uri + [sh.names[k]], sh.sub[k])
  }

  lemma FirstDiffers(ents: Ents, index: Index, p: Path, n: string)
    requires NoKey(ents, index, [n]) && p in index && p != []
    ensures p[0] != n
  {
    assert p[0] == n ==> [n] <= p;
  }

  /** Names below `e` stay clear when a subtree settles somewhere that starts with another name. */
  lemma ClearAfter(a: Ents, ia: Index, b: Ents, ib: Index, sh: Shape, e: Id, s: set<Id>, v: Path)
    requires Formed(sh) && e in sh.sub && Clear(a, ia, sh, e) && Carried(a, ia, b, ib, s, v) && v != []
    requires forall x {:trigger sh.names[x]} :: x in sh.sub[e] && x != e ==> v[0] != sh.names[x]
    ensures Clear(b, ib, sh, e)
  {
    forall x | x in sh.sub[e] && x != e ensures NoKey(b, ib, [sh.names[x]]) {
      KeysAfterMove(a, ia, b, ib, s, v, [sh.names[x]], {});
    }
  }

  lemma FreeBelow(a: Ents, ia: Index, b: Ents, ib: Index, e: Id, v: Path, n: string)
    requires Indexed(a, ia) && Indexed(b, ib) && SameOutside(a, b, {e}) && e in b && b[e].uri == v && NoKey(a, ia, v)
    requires forall z {:trigger b[z].children} :: z in b ==> b[z].children == a[z].children
    ensures NoKey(b, ib, v + [n])
  {
    forall q | q in ib ensures !(v + [n] <= q) {
      var x := ib[q];
      assert x != e ==> a[x].uri == q && !(v <= q);
      assert v <= v + [n];
    }
    forall z, q {:trigger q in b[z].children} | z in b && q in b[z].children ensures !(v + [n] <= q) {
      assert q in a[z].children && v <= v + [n];
    }
  }

  lemma NoKeyOnlyUnder(ents: Ents, index: Index, p: Path, s: set<Id>)
    requires NoKey(ents, index, p)
    ensures OnlyUnder(ents, index, p, s)
  {}

  /** Right after `e` alone moved to a free place, the places of its children are free too. */
  lemma VacantAfterReseat(a: Ents, ia: Index, b: Ents, ib: Index, sh: Shape, e: Id, v: Path)
    requires Formed(sh) && sh.rank.Keys == b.Keys && e in b && b[e].uri == v && NoKey(a, ia, v)
    requires Indexed(a, ia) && Indexed(b, ib) && SameOutside(a, b, {e})
    requires forall z {:trigger b[z].children} :: z in b ==> b[z].children == a[z].children
    ensures Vacant(b, ib, sh, e, {})
  {
    forall k {:trigger sh.own[k]} | k in sh.own && sh.own[k] == e
      ensures OnlyUnder(b, ib, v + [sh.names[k]], sh.sub[k])
    {
      FreeBelow(a, ia, b, ib, e, v, sh.names[k]);
      NoKeyOnlyUnder(b, ib, v + [sh.names[k]], sh.sub[k]);
    }
  }

  // ---------------------------------------------------------------- one child's turn

  lemma UnlistFrees(a: Ents, ia: Index, z: Id, q: Path, b: Ents, p: Path, s: set<Id>)
    requires z in a && b == Unlist(a, z, q)
    ensures OnlyUnder(a, ia, p, s) ==> OnlyUnder(b, ia, p, s)
    ensures NoKey(a, ia, p) ==> NoKey(b, ia, p)
  {
    assert forall x {:trigger b[x].children} :: x in b ==> b[x].children <= a[x].children;
  }

  lemma UnlistClear(a: Ents, ia: Index, z: Id, q: Path, b: Ents, sh: Shape, e: Id)
    requires Formed(sh) && e in sh.sub && z in a && b == Unlist(a, z, q) && Clear(a, ia, sh, e)
    ensures Clear(b, ia, sh, e)
  {
    forall x | x in sh.sub[e] && x != e ensures NoKey(b, ia, [sh.names[x]]) {
      UnlistFrees(a, ia, z, q, b, [sh.names[x]], {});
    }
  }

  /** Taking a key off a list leaves every place as free as it was. */
  lemma UnlistVacant(a: Ents, ia: Index, z: Id, q: Path, b: Ents, sh: Shape, e: Id, done: set<Id>)
    requires Formed(sh) && sh.rank.Keys == a.Keys == b.Keys && e in a && z in a && b == Unlist(a, z, q)
    requires Vacant(a, ia, sh, e, done)
    ensures Vacant(b, ia, sh, e, done)
  {
    forall k {:trigger sh.own[k]} | k in sh.own && sh.own[k] == e && k !in done
      ensures OnlyUnder(b, ia, b[e].uri + [sh.names[k]], sh.sub[k])
    {
      UnlistFrees(a, ia, z, q, b, a[e].uri + [sh.names[k]], sh.sub[k]);
    }
  }

  /** After the child was detached, its place under `e` is free for it. */
  lemma FreeForReturn(a: Ents, ia: Index, b: Ents, ib: Index, sh: Shape, k: Id, p: Path)
    requires Formed(sh) && k in sh.own && p != [] && p[0] != sh.names[k]
    requires Carried(a, ia, b, ib, sh.sub[k], [sh.names[k]])
    requires OnlyUnder(a, ia, p, sh.sub[k])
    ensures NoKey(b, ib, p)
  {
    KeysAfterMove(a, ia, b, ib, sh.sub[k], [sh.names[k]], p, sh.sub[k]);
  }

  /** The other children's places after the child's return. */
  lemma VacantAfterReturn(a: Ents, ia: Index, c: Ents, ic: Index, sh: Shape, k: Id, e: Id, done: set<Id>)
    requires Formed(sh) && sh.rank.Keys == a.Keys == c.Keys && k in sh.own && sh.own[k] == e && e in a
             && c[e].uri == a[e].uri
    requires Vacant(a, ia, sh, e, done) && Tidy(sh, e)
    requires Carried(a, ia, c, ic, sh.sub[k], a[e].uri + [sh.names[k]])
    ensures Vacant(c, ic, sh, e, done + {k})
  {
    var v := a[e].uri + [sh.names[k]];
    forall m {:trigger sh.own[m]} | m in sh.own && sh.own[m] == e && m !in done + {k}
      ensures OnlyUnder(c, ic, a[e].uri + [sh.names[m]], sh.sub[m])
    {
      var p := a[e].uri + [sh.names[m]];
      assert p[|a[e].uri|] != v[|a[e].uri|];
      KeysAfterMove(a, ia, c, ic, sh.sub[k], v, p, sh.sub[m]);
      assert sh.sub[m] - sh.sub[k] <= sh.sub[m];
    }
  }

  lemma EnlistFrees(a: Ents, ia: Index, z: Id, q: Path, b: Ents, p: Path, s: set<Id>)
    requires z in a && b == Enlist(a, z, q) && !(p <= q)
    ensures OnlyUnder(a, ia, p, s) ==> OnlyUnder(b, ia, p, s)
    ensures NoKey(a, ia, p) ==> NoKey(b, ia, p)
  {
    assert forall x {:trigger b[x].children} :: x in b && x != z ==> b[x].children == a[x].children;
  }

  lemma EnlistClear(a: Ents, ia: Index, z: Id, q: Path, b: Ents, sh: Shape, e: Id)
    requires Formed(sh) && e in sh.sub && z in a && b == Enlist(a, z, q) && Clear(a, ia, sh, e) && q != []
    requires forall x {:trigger sh.names[x]} :: x in sh.sub[e] && x != e ==> q[0] != sh.names[x]
    ensures Clear(b, ia, sh, e)
  {
    forall x | x in sh.sub[e] && x != e ensures NoKey(b, ia, [sh.names[x]]) {
      EnlistFrees(a, ia, z, q, b, [sh.names[x]], {});
    }
  }

  lemma EnlistVacant(a: Ents, ia: Index, b: Ents, sh: Shape, e: Id, k: Id, done: set<Id>)
    requires Formed(sh) && sh.rank.Keys == a.Keys == b.Keys && k in sh.own && sh.own[k] == e && e in a && Tidy(sh, e)
    requires b == Enlist(a, e, a[e].uri + [sh.names[k]]) && k in done && Vacant(a, ia, sh, e, done)
    ensures Vacant(b, ia, sh, e, done)
  {
    forall m {:trigger sh.own[m]} | m in sh.own && sh.own[m] == e && m !in done
      ensures OnlyUnder(b, ia, b[e].uri + [sh.names[m]], sh.sub[m])
    {
      var v, p := a[e].uri + [sh.names[k]], a[e].uri + [sh.names[m]];
      assert p[|a[e].uri|] != v[|a[e].uri|];
      EnlistFrees(a, ia, e, v, b, p, sh.sub[m]);
    }
  }

  /** Names strictly below `e` differ from the first segment of any live key. */
  lemma NamesDiffer(ents: Ents, index: Index, sh: Shape, e: Id, p: Path)
    requires Formed(sh) && e in sh.sub && Clear(ents, index, sh, e) && p in index && p != []
    ensures forall x {:trigger sh.names[x]} :: x in sh.sub[e] && x != e ==> p[0] != sh.names[x]
  {
    forall x | x in sh.sub[e] && x != e ensures p[0] != sh.names[x] { FirstDiffers(ents, index, p, sh.names[x]); }
  }

  /** Children already seated stay where they are while another child moves. */
  lemma SeatedAside(a: Ents, c: Ents, sh: Shape, e: Id, k: Id, m: Id, v: Path)
    requires Formed(sh) && sh.rank.Keys == a.Keys == c.Keys && k in sh.own && m in sh.own && sh.own[k] == e
             && sh.own[m] == e && k != m
    requires Seated(a, sh, m, v)
    requires forall x {:trigger c[x].uri} :: x in c && x !in sh.sub[k] ==> c[x].uri == a[x].uri
    ensures Seated(c, sh, m, v)
  {
    forall x | x in sh.sub[m] ensures x !in sh.sub[k] { if x in sh.sub[k] { OneChildAbove(sh, x, k, m); } }
  }

  /** All children of `e` are seated under it: so is its whole subtree. */
  lemma AllSeated(b: Ents, sh: Shape, e: Id)
    requires Formed(sh) && sh.rank.Keys == b.Keys && e in b
    requires forall k {:trigger sh.own[k]} :: k in sh.own && sh.own[k] == e ==>
             Seated(b, sh, k, b[e].uri + [sh.names[k]])
    ensures Seated(b, sh, e, b[e].uri)
  {
    forall x {:trigger sh.own[x]} | x in sh.sub[e] && x != e ensures b[x].uri == b[sh.own[x]].uri + [sh.names[x]] {
      var k := ChildAbove(sh, x, e);
    }
  }
}
