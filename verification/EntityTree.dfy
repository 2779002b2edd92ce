/** The values behind the hierarchy: entity records, the flat path index, and what it means for the two to agree. */
module EntityTree {
  import opened Common

  type Id = nat

  datatype Kind = COMPONENT | PERFORMER | PLUG | FACTORY

  datatype Entity = Entity(uri: Path, parent: Path, children: set<Path>, kind: Kind)

  type Ents = map<Id, Entity>
  type Index = map<Path, Id>

  predicate Container(k: Kind) { k == COMPONENT || k == PERFORMER }

  function Last(p: Path): string
    requires p != []
  {
    p[|p| - 1]
  }

  function Init(p: Path): Path
    requires p != []
  {
    p[..|p| - 1]
  }

  /** Segment form of ZstURI::contains. */
  predicate Contains(path: Path, compare: Path) { compare != [] && compare <= path }

  /** Replace the prefix `from` by `to`. */
  function Rebase(p: Path, from: Path, to: Path): Path {
    if from <= p then to + p[|from|..] else p
  }

  // ---------------------------------------------------------------- who owns whom

  /** The tree as the code means it: owner links, a rank that grows away from the root, each entity's own name,
      and the set of entities at or below each one. */
  datatype Shape = Shape(own: map<Id, Id>, rank: map<Id, nat>, names: map<Id, string>, sub: map<Id, set<Id>>)

  ghost predicate Formed(sh: Shape) {
    && sh.names.Keys == sh.rank.Keys == sh.sub.Keys && sh.own.Keys <= sh.rank.Keys
    && (forall x {:trigger sh.own[x]} :: x in sh.own ==>
          x in sh.rank && sh.own[x] in sh.rank && sh.rank[sh.own[x]] < sh.rank[x])
    && (forall e :: e in sh.sub ==> e in sh.sub[e] && sh.sub[e] <= sh.rank.Keys)
    && (forall e, x {:trigger x in sh.sub[e]} :: e in sh.sub && x in sh.sub[e] && x != e ==> x in sh.own)
    && (forall e, x {:trigger sh.sub[e], sh.own[x]} :: e in sh.sub && x in sh.own && x in sh.sub[e] && x != e ==>
          sh.own[x] in sh.sub[e])
    && (forall e, x {:trigger sh.sub[e], sh.own[x]} :: e in sh.sub && x in sh.own && sh.own[x] in sh.sub[e] ==>
          x in sh.sub[e])
  }

  lemma {:induction false} BelowRank(sh: Shape, x: Id, e: Id)
    requires Formed(sh) && e in sh.sub && x in sh.sub[e]
    ensures sh.rank[e] <= sh.rank[x] && (x != e ==> sh.rank[e] < sh.rank[x])
    decreases sh.rank[x]
  {
    if x != e { BelowRank(sh, sh.own[x], e); }
  }

  lemma {:induction false} BelowTransitive(sh: Shape, x: Id, y: Id, z: Id)
    requires Formed(sh) && z in sh.sub && y in sh.sub[z] && x in sh.sub[y]
    ensures x in sh.sub[z]
    decreases sh.rank[x]
  {
    if x != y { BelowTransitive(sh, sh.own[x], y, z); }
  }

  /** An entity strictly below `e` sits below a child of `e`... */
  lemma {:induction false} ChildAbove(sh: Shape, x: Id, e: Id) returns (k: Id)
    requires Formed(sh) && e in sh.sub && x in sh.sub[e] && x != e
    ensures k in sh.own && sh.own[k] == e && k in sh.sub && x in sh.sub[k]
    decreases sh.rank[x]
  {
    if sh.own[x] == e { k := x; } else { k := ChildAbove(sh, sh.own[x], e); }
  }

  /** ... and of only one. */
  lemma {:induction false} OneChildAbove(sh: Shape, x: Id, k: Id, m: Id)
    requires Formed(sh) && k in sh.own && m in sh.own && sh.own[k] == sh.own[m]
    requires x in sh.sub[k] && x in sh.sub[m]
    ensures k == m
    decreases sh.rank[x]
  {
    if x == k && x != m { BelowRank(sh, sh.own[x], m); }
    else if x == m && x != k { BelowRank(sh, sh.own[x], k); }
    else if x != k { OneChildAbove(sh, sh.own[x], k, m); }
  }

  lemma ChildSubtree(sh: Shape, k: Id)
    requires Formed(sh) && k in sh.own
    ensures sh.sub[k] < sh.sub[sh.own[k]] && sh.own[k] !in sh.sub[k]
  {
    var e := sh.own[k];
    forall x | x in sh.sub[k] ensures x in sh.sub[e] { BelowTransitive(sh, x, k, e); }
    if e in sh.sub[k] { BelowRank(sh, e, k); }
  }

  // ---------------------------------------------------------------- agreement of records and index

  /** The index is the inverse of the paths. */
  ghost predicate Indexed(ents: Ents, index: Index) {
    && (forall x {:trigger ents[x].uri} :: x in ents ==>
          ents[x].uri != [] && ents[x].uri in index && index[ents[x].uri] == x)
    && (forall q :: q in index ==> index[q] in ents && ents[index[q]].uri == q)
  }

  /** The child keys of `e` that are in the index lead to entities of that path. */
  ghost predicate Resolves(ents: Ents, index: Index, e: Id)
    requires e in ents
  {
    forall q {:trigger q in ents[e].children} :: q in ents[e].children && q in index ==>
      index[q] in ents && ents[index[q]].uri == q
  }

  lemma AllResolve(ents: Ents, index: Index, e: Id)
    requires Indexed(ents, index) && e in ents
    ensures Resolves(ents, index, e)
  {}

  ghost predicate Fits(ents: Ents, sh: Shape) {
    && (forall x {:trigger sh.own[x]} :: x in sh.own ==> x in ents && sh.own[x] in ents)
    && (forall x {:trigger x in ents} :: x in ents ==> x in sh.names)
    && (forall x {:trigger sh.names[x]} :: x in ents ==> ents[x].uri != [] && Last(ents[x].uri) == sh.names[x])
  }

  /** Only containers own entities. */
  ghost predicate Housed(ents: Ents, sh: Shape)
  {
    forall x {:trigger sh.own[x]} :: x in sh.own ==> sh.own[x] in ents && Container(ents[sh.own[x]].kind)
  }

  /** The parent field is the path without its last segment. */
  ghost predicate Parented(ents: Ents) {
    forall x {:trigger ents[x]} :: x in ents ==> ents[x].uri != [] && ents[x].parent == Init(ents[x].uri)
  }

  /** A child key that resolves names an entity owned here; every owned entity not in `loose` is listed by its owner. */
  ghost predicate Listed(ents: Ents, index: Index, sh: Shape, loose: set<Id>)
    requires Fits(ents, sh)
  {
    && (forall z, q {:trigger q in ents[z].children} :: z in ents && q in ents[z].children && q in index ==>
          index[q] in sh.own && sh.own[index[q]] == z)
    && (forall x {:trigger sh.own[x]} :: x in sh.own && x !in loose ==> ents[x].uri in ents[sh.own[x]].children)
  }

  ghost predicate Agree(ents: Ents, index: Index, sh: Shape, loose: set<Id>) {
    Indexed(ents, index) && Fits(ents, sh) && Listed(ents, index, sh, loose)
  }

  // ---------------------------------------------------------------- name clashes

  /** No live key and no child key, stale ones included, lies at or under `p`. */
  predicate NoKey(ents: Ents, index: Index, p: Path) {
    && (forall q :: q in index ==> !(p <= q))
    && (forall z, q {:trigger q in ents[z].children} :: z in ents && q in ents[z].children ==> !(p <= q))
  }

  /** The only keys at or under `p` are live keys of entities in `s`. */
  ghost predicate OnlyUnder(ents: Ents, index: Index, p: Path, s: set<Id>) {
    && (forall q :: q in index && p <= q ==> index[q] in s)
    && (forall z, q {:trigger q in ents[z].children} :: z in ents && q in ents[z].children && p <= q ==>
          q in index && index[q] in s)
  }

  /** No key starts with the name of an entity strictly below `e`. */
  ghost predicate Clear(ents: Ents, index: Index, sh: Shape, e: Id)
    requires Formed(sh) && e in sh.sub
  {
    forall x :: x in sh.sub[e] && x != e ==> NoKey(ents, index, [sh.names[x]])
  }

  /** Names differ along every chain and between siblings in the subtree of `e`. */
  ghost predicate Tidy(sh: Shape, e: Id)
    requires Formed(sh) && e in sh.sub
  {
    && (forall z, x {:trigger x in sh.sub[z]} :: z in sh.sub[e] && x in sh.sub[z] && x != z ==>
          sh.names[x] != sh.names[z])
    && (forall x, y {:trigger sh.own[x], sh.own[y]} ::
          x in sh.own && y in sh.own && x != y && sh.own[x] == sh.own[y] && sh.own[x] in sh.sub[e] ==>
          sh.names[x] != sh.names[y])
  }

  lemma TidyBelow(sh: Shape, e: Id, k: Id)
    requires Formed(sh) && e in sh.sub && Tidy(sh, e) && k in sh.sub[e]
    ensures Tidy(sh, k)
  {
    forall z | z in sh.sub[k] ensures z in sh.sub[e] { BelowTransitive(sh, z, k, e); }
  }

  lemma ClearBelow(ents: Ents, index: Index, sh: Shape, e: Id, k: Id)
    requires Formed(sh) && e in sh.sub && Clear(ents, index, sh, e) && k in sh.sub[e]
    ensures Clear(ents, index, sh, k)
  {
    forall x | x in sh.sub[k] && x != k ensures x in sh.sub[e] && x != e {
      BelowTransitive(sh, x, k, e);
      BelowRank(sh, x, k);
      BelowRank(sh, k, e);
    }
  }

  // ---------------------------------------------------------------- moves

  /** Child lists after a change hold live keys and the stale keys they held before, all of them. */
  ghost predicate StaleKept(a: Ents, ia: Index, b: Ents, ib: Index) {
    && a.Keys == b.Keys
    && (forall z, q {:trigger q in b[z].children} :: z in b && q in b[z].children ==>
          q in ib || (q in a[z].children && q !in ia))
    && (forall z, q {:trigger q in a[z].children} :: z in a && q in a[z].children && q !in ia ==>
          q in b[z].children && q !in ib)
  }

  /** Nothing outside the subtree of `e` changed. */
  ghost predicate SameOutside(a: Ents, b: Ents, s: set<Id>) {
    && a.Keys == b.Keys
    && (forall x {:trigger b[x].kind} :: x in b ==> b[x].kind == a[x].kind)
    && (forall x {:trigger b[x]} :: x in b && x !in s ==> b[x] == a[x])
  }

  /** The subtree of `e` sits at `v`: every path below is its owner's path plus its own name. */
  ghost predicate Seated(b: Ents, sh: Shape, e: Id, v: Path)
    requires Formed(sh) && sh.rank.Keys == b.Keys && e in b
  {
    && b[e].uri == v
    && (forall x {:trigger sh.own[x]} :: x in sh.sub[e] && x != e ==> b[x].uri == b[sh.own[x]].uri + [sh.names[x]])
  }

  lemma {:induction false} SeatedPrefix(b: Ents, sh: Shape, e: Id, v: Path, x: Id)
    requires Formed(sh) && sh.rank.Keys == b.Keys && e in b && Seated(b, sh, e, v) && x in sh.sub[e]
    ensures v <= b[x].uri
    decreases sh.rank[x]
  {
    if x != e { SeatedPrefix(b, sh, e, v, sh.own[x]); }
  }

  /** No list names `e`. */
  ghost predicate Unlisted(ents: Ents, e: Id)
    requires e in ents
  {
    forall z {:trigger ents[z].children} :: z in ents ==> ents[e].uri !in ents[z].children
  }

  /** Outside the new place `v`, the keys after a move are keys from before that name nothing in `s`. */
  ghost predicate Carried(a: Ents, ia: Index, b: Ents, ib: Index, s: set<Id>, v: Path) {
    && (forall q {:trigger q in ib} :: q in ib && !(v <= q) ==> q in ia && ia[q] == ib[q] && ib[q] !in s)
    && (forall z, q {:trigger q in b[z].children} :: z in b && q in b[z].children && !(v <= q) ==>
          z in a && q in a[z].children && (q in ia ==> q in ib && ib[q] == ia[q] && ia[q] !in s))
  }

  lemma MoveCarries(a: Ents, ia: Index, b: Ents, ib: Index, s: set<Id>, v: Path)
    requires Indexed(a, ia) && Indexed(b, ib) && SameOutside(a, b, s) && StaleKept(a, ia, b, ib)
    requires forall x {:trigger b[x].uri} :: x in b && x in s ==> v <= b[x].uri
    // the moved entities are listed by moved entities, before and after
    requires forall z, q {:trigger q in a[z].children} :: z in a && z !in s && q in a[z].children && q in ia ==>
             ia[q] !in s
    requires forall z, q {:trigger q in b[z].children} :: z in b && z in s && q in b[z].children && q in ib ==>
             ib[q] in s
    ensures Carried(a, ia, b, ib, s, v)
  {}

  lemma PrefixesCompare(p: Path, v: Path, q: Path)
    requires p <= q && v <= q
    ensures p <= v || v <= p
  {
    assert p == q[..|p|] && v == q[..|v|];
  }

  ghost predicate Apart(p: Path, v: Path) { !(p <= v) && !(v <= p) }

  /** Which keys a move can leave under a path apart from the new place. */
  lemma KeysAfterMove(a: Ents, ia: Index, b: Ents, ib: Index, s: set<Id>, v: Path, p: Path, t: set<Id>)
    requires Carried(a, ia, b, ib, s, v) && Apart(p, v) && OnlyUnder(a, ia, p, t)
    ensures OnlyUnder(b, ib, p, t - s)
    ensures t <= s ==> NoKey(b, ib, p)
  {
    forall q | q in ib && p <= q ensures ib[q] in t - s && !(t <= s) {
      if v <= q { PrefixesCompare(p, v, q); }
    }
    forall z, q {:trigger q in b[z].children} | z in b && q in b[z].children && p <= q
      ensures q in ib && ib[q] in t - s && !(t <= s)
    {
      if v <= q { PrefixesCompare(p, v, q); }
    }
  }

  // ---------------------------------------------------------------- one entity moves, its subtree stays behind

  function Rekeyed(index: Index, from: Path, to: Path, e: Id): Index { (index - {from})[to := e] }

  function Reseat(ents: Ents, e: Id, v: Path): Ents
    requires e in ents && v != []
  {
    ents[e := ents[e].(uri := v, parent := Init(v))]
  }

  function Renamed(sh: Shape, e: Id, n: string): Shape { sh.(names := sh.names[e := n]) }

  /** Moving a single record keeps records and index in step exactly when the new key is free or already its own. */
  lemma ReseatKeepsIndex(a: Ents, ia: Index, e: Id, v: Path)
    requires Indexed(a, ia) && e in a && v != []
    ensures Indexed(Reseat(a, e, v), Rekeyed(ia, a[e].uri, v, e)) <==> v !in ia || ia[v] == e
  {
    var b, ib := Reseat(a, e, v), Rekeyed(ia, a[e].uri, v, e);
    if v in ia && ia[v] != e {
      assert b[ia[v]].uri == v && ib[v] == e;
    } else {
      forall x | x in b ensures b[x].uri in ib && ib[b[x].uri] == x { assert x != e ==> a[x].uri != a[e].uri; }
    }
  }

  lemma ReseatFits(a: Ents, sh: Shape, e: Id, v: Path)
    requires Fits(a, sh) && e in a && v != []
    ensures Fits(Reseat(a, e, v), Renamed(sh, e, Last(v)))
  {}

  lemma ReseatListed(a: Ents, ia: Index, sh: Shape, loose: set<Id>, e: Id, v: Path, b: Ents, ib: Index)
    requires Indexed(a, ia) && Fits(a, sh) && Listed(a, ia, sh, loose) && e in a && e in loose
    requires v != [] && NoKey(a, ia, v) && b == Reseat(a, e, v) && ib == Rekeyed(ia, a[e].uri, v, e)
    requires Fits(b, Renamed(sh, e, Last(v)))
    ensures Listed(b, ib, Renamed(sh, e, Last(v)), loose)
  {
    assert forall z {:trigger b[z].children} :: z in b ==> b[z].children == a[z].children;
    assert forall q {:trigger q in ib} :: q in ib && q != v ==> q in ia && ib[q] == ia[q];
  }

  lemma ReseatCarried(a: Ents, ia: Index, e: Id, v: Path, b: Ents, ib: Index)
    requires Indexed(a, ia) && e in a && Unlisted(a, e)
    requires v != [] && NoKey(a, ia, v) && b == Reseat(a, e, v) && ib == Rekeyed(ia, a[e].uri, v, e)
    ensures Unlisted(b, e) && StaleKept(a, ia, b, ib) && SameOutside(a, b, {e})
    ensures Carried(a, ia, b, ib, {e}, v)
  {
    assert forall z {:trigger b[z].children} :: z in b ==> b[z].children == a[z].children;
    assert forall q {:trigger q in ib} :: q in ib && q != v ==> q in ia && ib[q] == ia[q];
  }

  lemma ReseatAgrees(a: Ents, ia: Index, sh: Shape, loose: set<Id>, e: Id, v: Path, b: Ents, ib: Index)
    requires Agree(a, ia, sh, loose) && e in a && e in loose
    requires v != [] && NoKey(a, ia, v) && b == Reseat(a, e, v) && ib == Rekeyed(ia, a[e].uri, v, e)
    ensures Agree(b, ib, Renamed(sh, e, Last(v)), loose)
  {
    ReseatKeepsIndex(a, ia, e, v);
    ReseatFits(a, sh, e, v);
    ReseatListed(a, ia, sh, loose, e, v, b, ib);
  }
}
