/** The stage's plugs inside its entity tree: where they sit, which entities are about to go, and what a leave, a new
    entity and the final erasure do to both. */
module StageTree {
  import opened Common
  import opened EntityTree
  import opened Moves
  import opened Renaming
  import opened Attaching
  import opened Subtrees
  import opened CableGraph
  import opened StageSteps

  /** What a plug has beside its place in the tree. */
  datatype Jack = Jack(input: bool, limit: nat, held: set<Address>)

  function UriOf(ents: Ents, p: Id): Path { if p in ents then ents[p].uri else [] }

  /** The plugs as the cable graph sees them: path from the tree, leaving when they are about to go. */
  function PlugsOf(jacks: map<Id, Jack>, ents: Ents, doomed: set<Id>): map<Id, Plug> {
    map p | p in jacks :: Plug(UriOf(ents, p), jacks[p].input, jacks[p].limit, jacks[p].held, p in doomed)
  }

  /** The part of the index that leads to plugs. */
  function LookupOf(jacks: map<Id, Jack>, index: Index): map<Path, Id> {
    map u | u in index && index[u] in jacks :: index[u]
  }

  /** Every child key is live. */
  ghost predicate NoStale(ents: Ents, index: Index) {
    forall z, q {:trigger q in ents[z].children} :: z in ents && q in ents[z].children ==> q in index
  }

  /** What lies below an entity that is about to go is about to go, and so is its parent, if it has one. */
  ghost predicate Closed(ents: Ents, doomed: set<Id>) { Downward(ents, doomed) && Upward(ents, doomed) }

  ghost predicate Upward(ents: Ents, doomed: set<Id>) {
    forall x, z {:trigger x in doomed, ents[z]} ::
      x in doomed && x in ents && z in ents && |ents[x].uri| >= 2 && ents[z].uri == Init(ents[x].uri) ==> z in doomed
  }

  ghost predicate Downward(ents: Ents, doomed: set<Id>) {
    && doomed <= ents.Keys
    && (forall x, y {:trigger x in doomed, ents[y]} :: x in doomed && y in ents && ents[x].uri <= ents[y].uri ==>
          y in doomed)
  }

  /** The jacks are those of the tree's plugs. */
  ghost predicate Matching(ents: Ents, jacks: map<Id, Jack>) {
    && (forall p {:trigger p in jacks} :: p in jacks ==> p in ents)
    && (forall x {:trigger ents[x]} :: x in ents ==> (x in jacks <==> ents[x].kind == PLUG))
  }

  /** Every queued root is a container registered at the top level, and about to go: its leaving event will find it. */
  ghost predicate RootsFound(ents: Ents, index: Index, doomed: set<Id>, leaving: seq<Path>) {
    forall r {:trigger r in leaving} :: r in leaving ==>
      |r| == 1 && r in index && index[r] in doomed && index[r] in ents && Container(ents[index[r]].kind)
  }

  ghost predicate Grounded(ents: Ents, index: Index, jacks: map<Id, Jack>, doomed: set<Id>, leaving: seq<Path>) {
    && WellFormed(ents, index) && NoStale(ents, index) && Closed(ents, doomed)
    && Matching(ents, jacks) && RootsFound(ents, index, doomed, leaving)
  }

  lemma LookupFound(ents: Ents, index: Index, jacks: map<Id, Jack>, s: State, doomed: set<Id>)
    requires Indexed(ents, index) && (forall p {:trigger p in jacks} :: p in jacks ==> p in ents)
    requires s.plugs == PlugsOf(jacks, ents, doomed) && s.lookup == LookupOf(jacks, index)
    ensures Found(s)
  {}

  // ---------------------------------------------------------------- changes to what a plug holds

  /** remove_cable on the plug found at `u`, if it is of the right direction. */
  function Unjacked(jacks: map<Id, Jack>, index: Index, u: Path, input: bool, a: Address): map<Id, Jack> {
    if u in index && index[u] in jacks && jacks[index[u]].input == input then
      jacks[index[u] := jacks[index[u]].(held := jacks[index[u]].held - {a})]
    else jacks
  }

  lemma UnjackedIs(jacks: map<Id, Jack>, ents: Ents, index: Index, doomed: set<Id>, u: Path, input: bool, a: Address)
    ensures var j := Unjacked(jacks, index, u, input, a);
            && j.Keys == jacks.Keys && LookupOf(j, index) == LookupOf(jacks, index)
            && PlugsOf(j, ents, doomed) == Unplugged(PlugsOf(jacks, ents, doomed), LookupOf(jacks, index), u, input, a)
  {}

  lemma HeldMore(jacks: map<Id, Jack>, ents: Ents, index: Index, doomed: set<Id>, p: Id, a: Address)
    requires p in jacks
    ensures var j, was := jacks[p := jacks[p].(held := jacks[p].held + {a})], PlugsOf(jacks, ents, doomed);
            && LookupOf(j, index) == LookupOf(jacks, index)
            && PlugsOf(j, ents, doomed) == was[p := was[p].(held := was[p].held + {a})]
  {}

  lemma SameJacks(ents: Ents, index: Index, jacks: map<Id, Jack>, more: map<Id, Jack>, doomed: set<Id>,
        leaving: seq<Path>)
    requires Grounded(ents, index, jacks, doomed, leaving) && more.Keys == jacks.Keys
    ensures Grounded(ents, index, more, doomed, leaving)
  {}

  /** The plugs below the entity found at `root`; a root that is not registered has none. */
  lemma PlugsBelow(ents: Ents, index: Index, jacks: map<Id, Jack>, doomed: set<Id>, root: Path, p: Id)
    requires WellFormed(ents, index) && Matching(ents, jacks) && root != [] && p in jacks
    ensures root <= PlugsOf(jacks, ents, doomed)[p].uri <==>
            root in index && index[root] in ents && p in Below(ents, index[root])
  {
    if root <= ents[p].uri {
      PrefixLive(ents, index, p, |root|);
      assert ents[p].uri[..|root|] == root;
    }
  }

  lemma TreeParts(ents: Ents, index: Index, jacks: map<Id, Jack>, doomed: set<Id>, leaving: seq<Path>)
    requires Grounded(ents, index, jacks, doomed, leaving)
    ensures WellFormed(ents, index) && Indexed(ents, index) && Matching(ents, jacks)
  {}

  lemma HeldIs(jacks: map<Id, Jack>, ents: Ents, doomed: set<Id>, p: Id)
    requires p in jacks
    ensures var plugs := PlugsOf(jacks, ents, doomed);
            p in plugs && plugs[p].held == jacks[p].held && plugs[p].limit == jacks[p].limit
              && plugs[p].input == jacks[p].input
  {}

  /** A listing of the plugs below the entity at `root` is exactly the plugs under that path. */
  lemma PlugsListed(ents: Ents, index: Index, jacks: map<Id, Jack>, doomed: set<Id>, root: Path, plugs: seq<Id>)
    requires WellFormed(ents, index) && Indexed(ents, index) && Matching(ents, jacks) && root != []
    requires root in index ==> forall x {:trigger x in plugs} :: x in plugs <==>
             x in Below(ents, index[root]) && Passes(ents, x, Some(PLUG))
    requires root !in index ==> plugs == []
    ensures PlugsOf(jacks, ents, doomed).Keys == jacks.Keys
    ensures forall p {:trigger p in plugs} :: p in plugs <==> p in jacks && root <= PlugsOf(jacks, ents, doomed)[p].uri
  {
    hide WellFormed, UriOf;
    forall p {:trigger p in plugs} ensures p in plugs <==> p in jacks && root <= PlugsOf(jacks, ents, doomed)[p].uri {
      if p in ents { assert ents[p] == ents[p]; }
      if p in jacks { PlugsBelow(ents, index, jacks, doomed, root, p); }
    }
  }

  /** Both plugs are found at the address and point the right way. */
  predicate Attachable(jacks: map<Id, Jack>, index: Index, a: Address) {
    && a.input in index && index[a.input] in jacks && jacks[index[a.input]].input
    && a.output in index && index[a.output] in jacks && !jacks[index[a.output]].input
  }

  lemma PlugableIs(s: State, jacks: map<Id, Jack>, ents: Ents, index: Index, doomed: set<Id>, a: Address)
    requires s.plugs == PlugsOf(jacks, ents, doomed) && s.lookup == LookupOf(jacks, index)
    ensures Plugable(s, a) <==> Attachable(jacks, index, a)
    ensures Attachable(jacks, index, a) ==> s.lookup[a.input] == index[a.input] && s.lookup[a.output] == index[a.output]
  {}

  /** The first segment of the entity's path is a registered performer. */
  predicate PerformerAbove(ents: Ents, index: Index, p: Id) {
    && UriOf(ents, p) != [] && [UriOf(ents, p)[0]] in index && index[[UriOf(ents, p)[0]]] in ents
    && ents[index[[UriOf(ents, p)[0]]]].kind == PERFORMER
  }

  /** The plugs found at an address have its paths. */
  lemma PlugPaths(ents: Ents, index: Index, jacks: map<Id, Jack>, doomed: set<Id>, leaving: seq<Path>, a: Address)
    requires Grounded(ents, index, jacks, doomed, leaving) && a.input in index && a.output in index
    ensures UriOf(ents, index[a.input]) == a.input && UriOf(ents, index[a.output]) == a.output
  {
    Registered(ents, index, a.input);
    Registered(ents, index, a.output);
  }

  lemma OneSegment(u: Path)
    requires u != []
    ensures |u| == 1 ==> u == [u[0]]
  {}

  /** Such a plug does not sit at the top level itself. */
  lemma UnderPerformer(ents: Ents, index: Index, jacks: map<Id, Jack>, doomed: set<Id>, leaving: seq<Path>, p: Id)
    requires Grounded(ents, index, jacks, doomed, leaving) && p in jacks && PerformerAbove(ents, index, p)
    ensures p in PlugsOf(jacks, ents, doomed) && |PlugsOf(jacks, ents, doomed)[p].uri| != 1
  {
    HasIndex(ents, index);
    UriLive(ents, index, p);
    assert ents[p] == ents[p];
    OneSegment(ents[p].uri);
  }

  // ---------------------------------------------------------------- an entity leaves

  /** The entity at `path` was taken from its parent, if it had one: from `a` to `b` its subtree moved to the
      landing. */
  ghost predicate Landed(a: Ents, ia: Index, b: Ents, ib: Index, path: Path)
    requires path != []
  {
    && WellFormed(b, ib)
    && (|path| == 1 ==> b == a && ib == ia)
    && (|path| >= 2 ==> NoKey(a, ia, [Last(path)]) && Moved(a, ia, b, ib, path, [Last(path)], {}))
  }

  /** In the landed tree exactly the subtree lies at the landing, and every path is the rebased one. */
  lemma LandedPath(a: Ents, ia: Index, b: Ents, ib: Index, path: Path, x: Id)
    requires path != [] && Indexed(a, ia) && Landed(a, ia, b, ib, path) && x in a
    ensures x in b && b[x].kind == a[x].kind && b[x].uri == Rebase(a[x].uri, path, Landing(path))
    ensures Landing(path) <= b[x].uri <==> path <= a[x].uri
    ensures !(path <= a[x].uri) ==> b[x].uri == a[x].uri
  {
    if |path| >= 2 {
      MovedUnder(a, ia, b, ib, path, [Last(path)], x);
      assert b[x].uri == Rebase(a[x].uri, path, [Last(path)]);
    } else if path <= a[x].uri {
      assert a[x].uri == path + a[x].uri[|path|..];
    }
  }

  lemma LandedKeys(a: Ents, ia: Index, b: Ents, ib: Index, path: Path)
    requires path != [] && Indexed(a, ia) && Landed(a, ia, b, ib, path)
    ensures a.Keys == b.Keys
  {}

  lemma LandedRoot(a: Ents, ia: Index, b: Ents, ib: Index, path: Path, r: Path)
    requires path != [] && Landed(a, ia, b, ib, path) && |r| == 1 && r in ia
    ensures r in ib && ib[r] == ia[r]
  {
    if |path| >= 2 { assert Rebase(r, path, [Last(path)]) == r && ia[r] == ia[r]; }
  }

  lemma LandedStale(a: Ents, ia: Index, b: Ents, ib: Index, path: Path)
    requires path != [] && Landed(a, ia, b, ib, path) && NoStale(a, ia)
    ensures NoStale(b, ib)
  {}

  lemma LandedDownward(a: Ents, ia: Index, b: Ents, ib: Index, path: Path, e: Id, doomed: set<Id>)
    requires path != [] && Indexed(a, ia) && Landed(a, ia, b, ib, path) && Downward(a, doomed)
    requires e in a && a[e].uri == path && e in b && a.Keys == b.Keys && b[e].uri == Landing(path)
    ensures Downward(b, doomed + Below(b, e))
  {
    var all := doomed + Below(b, e);
    forall x, y {:trigger x in all, b[y]} | x in all && y in b && b[x].uri <= b[y].uri ensures y in all {
      LandedPath(a, ia, b, ib, path, x);
      LandedPath(a, ia, b, ib, path, y);
      hide Landed, Indexed, Rebase;
      if Landing(path) <= b[x].uri {
        assert Landing(path) <= b[y].uri;
      } else if !(Landing(path) <= b[y].uri) {
        assert a[x].uri <= a[y].uri && x in doomed && a[y] == a[y];
      }
    }
  }

  lemma LandedUpward(a: Ents, ia: Index, b: Ents, ib: Index, path: Path, e: Id, doomed: set<Id>)
    requires path != [] && Indexed(a, ia) && Landed(a, ia, b, ib, path) && Upward(a, doomed) && doomed <= a.Keys
    requires e in a && a[e].uri == path && e in b && a.Keys == b.Keys && b[e].uri == Landing(path)
    ensures Upward(b, doomed + Below(b, e))
  {
    var all := doomed + Below(b, e);
    forall x, z {:trigger x in all, b[z]} | x in all && x in b && z in b && |b[x].uri| >= 2
      && b[z].uri == Init(b[x].uri) ensures z in all
    {
      LandedPath(a, ia, b, ib, path, x);
      LandedPath(a, ia, b, ib, path, z);
      hide Landed, Indexed, Rebase;
      assert Init(b[x].uri) <= b[x].uri;
      if Landing(path) <= b[x].uri {
        assert Landing(path) == b[x].uri[..1] == b[z].uri[..1];
      } else {
        assert !(Landing(path) <= b[z].uri) && x in doomed && a[z] == a[z];
      }
    }
  }

  lemma LandedClosed(a: Ents, ia: Index, b: Ents, ib: Index, path: Path, e: Id, doomed: set<Id>)
    requires path != [] && Indexed(a, ia) && Landed(a, ia, b, ib, path) && Closed(a, doomed) && e in a
             && a[e].uri == path && e in b
    ensures Closed(b, doomed + Below(b, e))
  {
    LandedKeys(a, ia, b, ib, path);
    LandedPath(a, ia, b, ib, path, e);
    LandsThere(path);
    hide Landed, Indexed, Upward, Rebase;
    LandedDownward(a, ia, b, ib, path, e, doomed);
    LandedUpward(a, ia, b, ib, path, e, doomed);
  }

  lemma LandsThere(path: Path)
    requires path != []
    ensures Rebase(path, path, Landing(path)) == Landing(path)
  {}

  lemma LandedPlug(a: Ents, ia: Index, b: Ents, ib: Index, path: Path, e: Id, jacks: map<Id, Jack>, doomed: set<Id>,
        p: Id)
    requires path != [] && Indexed(a, ia) && Landed(a, ia, b, ib, path) && e in a && a[e].uri == path && e in b
             && p in jacks && p in a
    ensures PlugsOf(jacks, b, doomed + Below(b, e))[p] == MovedPlugs(PlugsOf(jacks, a, doomed), path)[p]
  {
    LandedPath(a, ia, b, ib, path, e);
    LandsThere(path);
    LandedPath(a, ia, b, ib, path, p);
    hide Landed, Indexed, Rebase;
    assert p in Below(b, e) <==> path <= a[p].uri;
  }

  /** The plugs after the tree has done its part are the plugs the cable graph expects of a leave. */
  lemma LandedPlugs(a: Ents, ia: Index, b: Ents, ib: Index, path: Path, e: Id, jacks: map<Id, Jack>, doomed: set<Id>)
    requires path != [] && Indexed(a, ia) && Landed(a, ia, b, ib, path) && e in a && a[e].uri == path && e in b
    requires forall p {:trigger p in jacks} :: p in jacks ==> p in a
    ensures PlugsOf(jacks, b, doomed + Below(b, e)) == MovedPlugs(PlugsOf(jacks, a, doomed), path)
  {
    var l, r := PlugsOf(jacks, b, doomed + Below(b, e)), MovedPlugs(PlugsOf(jacks, a, doomed), path);
    assert l.Keys == jacks.Keys == r.Keys;
    hide Landed, Indexed, PlugsOf, MovedPlugs, Below;
    forall p | p in jacks ensures l[p] == r[p] { LandedPlug(a, ia, b, ib, path, e, jacks, doomed, p); }
  }

  lemma LandedMatching(a: Ents, ia: Index, b: Ents, ib: Index, path: Path, jacks: map<Id, Jack>)
    requires path != [] && Indexed(a, ia) && Landed(a, ia, b, ib, path) && Matching(a, jacks)
    ensures Matching(b, jacks)
  {
    LandedKeys(a, ia, b, ib, path);
    forall x {:trigger b[x]} | x in b ensures x in jacks <==> b[x].kind == PLUG {
      LandedPath(a, ia, b, ib, path, x);
      assert a[x] == a[x];
    }
  }

  lemma LandedRoots(a: Ents, ia: Index, b: Ents, ib: Index, path: Path, doomed: set<Id>, more: set<Id>,
        leaving: seq<Path>)
    requires path != [] && Landed(a, ia, b, ib, path) && Indexed(a, ia) && RootsFound(a, ia, doomed, leaving)
             && doomed <= more
    ensures RootsFound(b, ib, more, leaving)
  {
    forall r {:trigger r in leaving} | r in leaving
      ensures |r| == 1 && r in ib && ib[r] in more && ib[r] in b && Container(b[ib[r]].kind)
    {
      LandedRoot(a, ia, b, ib, path, r);
      LandedPath(a, ia, b, ib, path, ia[r]);
    }
  }

  lemma OneMoreRoot(b: Ents, ib: Index, doomed: set<Id>, leaving: seq<Path>, e: Id)
    requires RootsFound(b, ib, doomed, leaving) && Indexed(b, ib) && e in b && e in doomed && Container(b[e].kind)
             && |b[e].uri| == 1
    ensures RootsFound(b, ib, doomed, leaving + [b[e].uri])
  {
    UriLive(b, ib, e);
  }

  /** All that a landing keeps, apart from the queue of roots. */
  lemma LandedBase(a: Ents, ia: Index, b: Ents, ib: Index, path: Path, e: Id, jacks: map<Id, Jack>, doomed: set<Id>,
        leaving: seq<Path>)
    requires path != [] && path in ia && e == ia[path] && Grounded(a, ia, jacks, doomed, leaving)
             && Landed(a, ia, b, ib, path)
    ensures e in a && e in b && a[e].uri == path && b[e].uri == Landing(path) && b[e].kind == a[e].kind
            && Indexed(b, ib)
    ensures Grounded(b, ib, jacks, doomed + Below(b, e), leaving)
    ensures PlugsOf(jacks, b, doomed + Below(b, e)) == MovedPlugs(PlugsOf(jacks, a, doomed), path)
  {
    hide WellFormed, NoStale, Closed, RootsFound, Below, PlugsOf, MovedPlugs;
    Registered(a, ia, path);
    LandedParts(a, ia, b, ib, path);
    LandedPath(a, ia, b, ib, path, e);
    hide Landed, Indexed;
    LandsThere(path);
    LandedStale(a, ia, b, ib, path);
    LandedClosed(a, ia, b, ib, path, e, doomed);
    LandedPlugs(a, ia, b, ib, path, e, jacks, doomed);
    LandedMatching(a, ia, b, ib, path, jacks);
    LandedRoots(a, ia, b, ib, path, doomed, doomed + Below(b, e), leaving);
  }

  lemma LandedGrounded(a: Ents, ia: Index, b: Ents, ib: Index, path: Path, e: Id, jacks: map<Id, Jack>, doomed: set<Id>,
        leaving: seq<Path>)
    requires path != [] && path in ia && e == ia[path] && Grounded(a, ia, jacks, doomed, leaving)
             && Landed(a, ia, b, ib, path)
    requires e in a && Container(a[e].kind)
    ensures e in b && a[e].uri == path && b[e].uri == Landing(path)
    ensures Grounded(b, ib, jacks, doomed + Below(b, e), leaving + [Landing(path)])
    ensures PlugsOf(jacks, b, doomed + Below(b, e)) == MovedPlugs(PlugsOf(jacks, a, doomed), path)
  {
    hide WellFormed, NoStale, Closed, RootsFound, Below, PlugsOf, MovedPlugs, Landed, Indexed, Matching;
    LandedBase(a, ia, b, ib, path, e, jacks, doomed, leaving);
    SelfIsBelow(b, e);
    OneMoreRoot(b, ib, doomed + Below(b, e), leaving, e);
  }

  /** The keys are kept, and the landing leads to the entity that landed there. */
  lemma LandedFound(a: Ents, ia: Index, b: Ents, ib: Index, path: Path, e: Id)
    requires path != [] && path in ia && e == ia[path] && WellFormed(a, ia) && Landed(a, ia, b, ib, path)
    ensures a.Keys == b.Keys && e in b && Landing(path) in ib && ib[Landing(path)] == e && WellFormed(b, ib)
            && Indexed(b, ib)
  {
    hide WellFormed;
    Registered(a, ia, path);
    LandedParts(a, ia, b, ib, path);
    LandedKeys(a, ia, b, ib, path);
    LandedPath(a, ia, b, ib, path, e);
    LandsThere(path);
    hide Landed, Indexed;
    UriLive(b, ib, e);
  }

  lemma LandedParts(a: Ents, ia: Index, b: Ents, ib: Index, path: Path)
    requires path != [] && Landed(a, ia, b, ib, path)
    ensures WellFormed(b, ib) && Indexed(b, ib)
  {}

  lemma Registered(a: Ents, ia: Index, path: Path)
    requires WellFormed(a, ia) && path in ia
    ensures Indexed(a, ia) && ia[path] in a && a[ia[path]].uri == path
  {}

  // ---------------------------------------------------------------- a plug leaves on its own

  /** Below a plug there is nothing... */
  lemma OnlyItself(a: Ents, ia: Index, p: Id)
    requires WellFormed(a, ia) && p in a && !Container(a[p].kind)
    ensures Below(a, p) == {p} && forall x {:trigger a[x]} :: x in a && a[p].uri <= a[x].uri ==> x == p
  {
    LeafHasNone(a, ia, p);
    SelfIsBelow(a, p);
    hide WellFormed;
    assert forall x {:trigger a[x]} :: x in a && a[p].uri <= a[x].uri ==> x in Below(a, p);
  }

  /** ... so its names clash with nothing. */
  lemma LeafApart(a: Ents, ia: Index, p: Id)
    requires WellFormed(a, ia) && p in a && !Container(a[p].kind) && a[p].uri != []
    ensures NamesApart(a, ia, p)
  {
    OnlyItself(a, ia, p);
    hide WellFormed, Below, NoKey;
  }

  /** When a plug moves alone, its own path changes and no other. */
  lemma AlonePath(a: Ents, ia: Index, b: Ents, ib: Index, path: Path, p: Id, q: Id)
    requires path != [] && WellFormed(a, ia) && Landed(a, ia, b, ib, path) && p in a && a[p].uri == path
             && !Container(a[p].kind) && q in a
    ensures q in b && b[q].uri == (if q == p then Landing(path) else a[q].uri)
  {
    OnlyItself(a, ia, p);
    LandsThere(path);
    LandedPath(a, ia, b, ib, path, q);
    hide WellFormed, Below, Landed;
    assert a[q] == a[q];
  }

  lemma AlonePlugs(a: Ents, ia: Index, b: Ents, ib: Index, path: Path, p: Id, jacks: map<Id, Jack>, doomed: set<Id>)
    requires path != [] && WellFormed(a, ia) && Landed(a, ia, b, ib, path) && p in a && a[p].uri == path && p in jacks
             && !Container(a[p].kind)
    requires forall q {:trigger q in jacks} :: q in jacks ==> q in a
    ensures var was := PlugsOf(jacks, a, doomed);
            PlugsOf(jacks, b, doomed + {p}) == was[p := was[p].(uri := Landing(path), leaving := true)]
  {
    hide WellFormed, Landed;
    var was, now := PlugsOf(jacks, a, doomed), PlugsOf(jacks, b, doomed + {p});
    forall q | q in jacks ensures now[q] == was[p := was[p].(uri := Landing(path), leaving := true)][q] {
      AlonePath(a, ia, b, ib, path, p, q);
    }
  }

  lemma AloneKey(a: Ents, ia: Index, b: Ents, ib: Index, path: Path, p: Id, u: Path)
    requires path != [] && WellFormed(a, ia) && Landed(a, ia, b, ib, path) && p in a && a[p].uri == path
             && !Container(a[p].kind)
    ensures u in ib <==> u == Landing(path) || (u in ia && u != path)
    ensures u in ib ==> ib[u] == if u == Landing(path) then p else if u in ia then ia[u] else p
  {
    LandedParts(a, ia, b, ib, path);
    LandedKeys(a, ia, b, ib, path) by { HasIndex(a, ia); }
    HasIndex(a, ia);
    AlonePath(a, ia, b, ib, path, p, p);
    if u in ib { AlonePath(a, ia, b, ib, path, p, ib[u]); }
    if u in ia { AlonePath(a, ia, b, ib, path, p, ia[u]); }
    hide WellFormed, Landed;
  }

  lemma HasIndex(a: Ents, ia: Index)
    requires WellFormed(a, ia)
    ensures Indexed(a, ia)
  {}

  lemma AloneLookupAt(a: Ents, ia: Index, b: Ents, ib: Index, path: Path, p: Id, jacks: map<Id, Jack>, u: Path)
    requires path != [] && WellFormed(a, ia) && Landed(a, ia, b, ib, path) && p in a && a[p].uri == path && p in jacks
             && !Container(a[p].kind)
    ensures var l, r := LookupOf(jacks, ib), (LookupOf(jacks, ia) - {path})[Landing(path) := p];
            (u in l <==> u in r) && (u in l ==> l[u] == r[u])
  {
    hide WellFormed, Landed;
    AloneKey(a, ia, b, ib, path, p, u);
  }

  lemma SameMap(l: map<Path, Id>, r: map<Path, Id>)
    requires forall u {:trigger u in l} {:trigger u in r} :: (u in l <==> u in r) && (u in l ==> l[u] == r[u])
    ensures l == r
  {}

  lemma AloneLookup(a: Ents, ia: Index, b: Ents, ib: Index, path: Path, p: Id, jacks: map<Id, Jack>)
    requires path != [] && WellFormed(a, ia) && Landed(a, ia, b, ib, path) && p in a && a[p].uri == path && p in jacks
             && !Container(a[p].kind)
    ensures LookupOf(jacks, ib) == (LookupOf(jacks, ia) - {path})[Landing(path) := p]
  {
    hide WellFormed, Landed, LookupOf;
    var l, r := LookupOf(jacks, ib), (LookupOf(jacks, ia) - {path})[Landing(path) := p];
    forall u {:trigger u in l} {:trigger u in r} ensures (u in l <==> u in r) && (u in l ==> l[u] == r[u]) {
      AloneLookupAt(a, ia, b, ib, path, p, jacks, u);
    }
    SameMap(l, r);
  }

  lemma AloneGrounded(a: Ents, ia: Index, b: Ents, ib: Index, path: Path, p: Id, jacks: map<Id, Jack>, doomed: set<Id>,
        leaving: seq<Path>)
    requires path != [] && path in ia && p == ia[path] && p in jacks && Grounded(a, ia, jacks, doomed, leaving)
             && Landed(a, ia, b, ib, path)
    ensures Grounded(b, ib, jacks, doomed + {p}, leaving)
  {
    hide WellFormed, NoStale, Closed, RootsFound, Landed, Below, PlugsOf, MovedPlugs, Indexed;
    LandedBase(a, ia, b, ib, path, p, jacks, doomed, leaving);
    assert b[p].kind == PLUG by { assert b[p] == b[p]; }
    OnlyItself(b, ib, p);
  }

  // ---------------------------------------------------------------- an entity arrives

  /** A new entity may arrive at `uri`: the path is free, and its parent, if it needs one, is a container that stays. */
  predicate MayArrive(ents: Ents, index: Index, doomed: set<Id>, uri: Path, kind: Kind) {
    && uri != [] && uri !in index && (kind == PERFORMER <==> |uri| == 1)
    && (|uri| >= 2 ==>
          Init(uri) in index && index[Init(uri)] in ents && index[Init(uri)] !in doomed
          && Container(ents[index[Init(uri)]].kind))
  }

  lemma ArrivedTree(a: Ents, ia: Index, doomed: set<Id>, x: Id, uri: Path, kind: Kind)
    requires WellFormed(a, ia) && NoStale(a, ia) && x !in a && MayArrive(a, ia, doomed, uri, kind)
    ensures var b, ib := Arrived(a, ia, x, uri, kind), ia[uri := x];
            Indexed(b, ib) && Parented(b) && KeysBelow(b, ib) && NoStale(b, ib)
  {
    hide Rooted;
    assert [] !in ia;
  }

  lemma ArrivedRooted(a: Ents, ia: Index, doomed: set<Id>, x: Id, uri: Path, kind: Kind)
    requires WellFormed(a, ia) && x !in a && MayArrive(a, ia, doomed, uri, kind)
    ensures var b, ib := Arrived(a, ia, x, uri, kind), ia[uri := x];
            Rooted(b, ib)
  {
    hide KeysBelow, Parented, WithChild;
    NotUsed(a, ia, doomed, uri, kind);
    var b, ib := Arrived(a, ia, x, uri, kind), ia[uri := x];
    forall y {:trigger b[y]} | y in b && |b[y].uri| >= 2
      ensures Init(b[y].uri) in ib && ib[Init(b[y].uri)] in b && Container(b[ib[Init(b[y].uri)]].kind)
      ensures b[y].uri in b[ib[Init(b[y].uri)]].children
    {
      hide Arrived;
      ArrivedIs(a, ia, x, uri, kind);
      ArrivedLists(a, ia, x, uri, kind);
      if y != x { assert a[y] == a[y] && a[ia[Init(a[y].uri)]].uri == Init(a[y].uri); }
    }
  }

  lemma ArrivedLists(a: Ents, ia: Index, x: Id, uri: Path, kind: Kind)
    requires uri != [] && x !in a
    ensures var b := Arrived(a, ia, x, uri, kind);
            && (Init(uri) in ia && ia[Init(uri)] in a ==> uri in b[ia[Init(uri)]].children)
            && forall y {:trigger b[y]} :: y in a ==> a[y].children <= b[y].children
  {}

  /** The tree with the new entity, once its parent lists it. */
  function Arrived(ents: Ents, index: Index, x: Id, uri: Path, kind: Kind): Ents
    requires uri != []
  {
    WithChild(ents, index, uri)[x := Entity(uri, Init(uri), {}, kind)]
  }

  lemma ArrivedRecord(a: Ents, ia: Index, x: Id, uri: Path, kind: Kind)
    requires uri != []
    ensures Arrived(a, ia, x, uri, kind) == WithChild(a, ia, uri)[x := Entity(uri, Init(uri), {}, kind)]
  {}

  lemma ArrivedIs(a: Ents, ia: Index, x: Id, uri: Path, kind: Kind)
    requires uri != [] && x !in a
    ensures var b := Arrived(a, ia, x, uri, kind);
            && b.Keys == a.Keys + {x} && b[x].uri == uri && b[x].kind == kind
            && forall y {:trigger b[y]} :: y in a ==> y in b && b[y].uri == a[y].uri && b[y].kind == a[y].kind
  {}

  /** The new record is found at its path and listed by its parent; every other record keeps path, kind and children. */
  ghost predicate Joined(a: Ents, b: Ents, ib: Index, x: Id, uri: Path, kind: Kind) {
    && uri != [] && uri in ib && ib[uri] == x && x !in a && b.Keys == a.Keys + {x}
    && b[x] == Entity(uri, Init(uri), {}, kind)
    && (|uri| >= 2 ==> Init(uri) in ib && ib[Init(uri)] in a && uri in b[ib[Init(uri)]].children)
    && forall y {:trigger b[y]} :: y in a ==>
         b[y].uri == a[y].uri && b[y].kind == a[y].kind && a[y].children <= b[y].children <= a[y].children + {uri}
  }

  lemma JoinedIs(a: Ents, ia: Index, doomed: set<Id>, x: Id, uri: Path, kind: Kind)
    requires x !in a && MayArrive(a, ia, doomed, uri, kind)
    ensures uri != [] && Joined(a, Arrived(a, ia, x, uri, kind), ia[uri := x], x, uri, kind)
  {
    assert Init(uri) != uri;
  }

  lemma NoPlug(a: Ents, jacks: map<Id, Jack>, doomed: set<Id>, e: Id)
    requires Matching(a, jacks) && e in a && Container(a[e].kind)
    ensures e !in PlugsOf(jacks, a, doomed)
  {
    assert a[e] == a[e];
  }

  lemma PlugAdded(s: State, x: Id, uri: Path, isInput: bool, limit: nat)
    ensures var t := Added(s, x, uri, isInput, limit);
            && t == s.(plugs := t.plugs, lookup := t.lookup)
            && x in t.plugs && t.plugs[x] == Plug(uri, isInput, limit, {}, false)
  {}

  lemma NotUnderDoomed(a: Ents, ia: Index, doomed: set<Id>, uri: Path, kind: Kind, d: Id)
    requires Indexed(a, ia) && Downward(a, doomed) && MayArrive(a, ia, doomed, uri, kind) && d in doomed
    ensures d in a && !(a[d].uri <= uri)
  {
    UriLive(a, ia, d);
    PrefixOfInit(a[d].uri, uri);
    if |uri| >= 2 { assert a[ia[Init(uri)]].uri == Init(uri); }
  }

  lemma ArrivedDownward(a: Ents, ia: Index, doomed: set<Id>, x: Id, uri: Path, kind: Kind)
    requires Indexed(a, ia) && Downward(a, doomed) && x !in a && MayArrive(a, ia, doomed, uri, kind) && uri != []
    ensures Downward(Arrived(a, ia, x, uri, kind), doomed)
  {
    var b := Arrived(a, ia, x, uri, kind);
    ArrivedIs(a, ia, x, uri, kind);
    hide Arrived, MayArrive, Indexed;
    forall d, y {:trigger d in doomed, b[y]} | d in doomed && y in b && b[d].uri <= b[y].uri ensures y in doomed {
      NotUnderDoomed(a, ia, doomed, uri, kind, d);
      assert y != x && a[y] == a[y];
    }
  }

  lemma ArrivedUpward(a: Ents, ia: Index, doomed: set<Id>, x: Id, uri: Path, kind: Kind)
    requires Rooted(a, ia) && Upward(a, doomed) && doomed <= a.Keys && x !in a && uri !in ia && uri != []
    ensures Upward(Arrived(a, ia, x, uri, kind), doomed)
  {
    var b := Arrived(a, ia, x, uri, kind);
    ArrivedIs(a, ia, x, uri, kind);
    hide Arrived;
    forall d, z {:trigger d in doomed, b[z]} | d in doomed && d in b && z in b && |b[d].uri| >= 2
      && b[z].uri == Init(b[d].uri)
      ensures z in doomed
    {
      assert a[d] == a[d] && Init(a[d].uri) in ia;
      assert z != x && a[z] == a[z];
    }
  }

  lemma ArrivedClosed(a: Ents, ia: Index, doomed: set<Id>, x: Id, uri: Path, kind: Kind)
    requires WellFormed(a, ia) && Closed(a, doomed) && x !in a && MayArrive(a, ia, doomed, uri, kind)
    ensures uri != [] && Closed(Arrived(a, ia, x, uri, kind), doomed)
  {
    hide Indexed, Rooted, Arrived, MayArrive, KeysBelow, Parented, Upward;
    NotUsed(a, ia, doomed, uri, kind);
    ArrivedDownward(a, ia, doomed, x, uri, kind);
    ArrivedUpward(a, ia, doomed, x, uri, kind);
  }

  lemma NotUsed(a: Ents, ia: Index, doomed: set<Id>, uri: Path, kind: Kind)
    requires MayArrive(a, ia, doomed, uri, kind)
    ensures uri != [] && uri !in ia
  {}

  lemma ArrivedMatching(a: Ents, ia: Index, jacks: map<Id, Jack>, x: Id, uri: Path, kind: Kind, more: map<Id, Jack>)
    requires Matching(a, jacks) && uri != [] && x !in a
    requires if kind == PLUG then x in more && more == jacks[x := more[x]] else more == jacks
    ensures Matching(Arrived(a, ia, x, uri, kind), more)
  {
    ArrivedIs(a, ia, x, uri, kind);
    hide Arrived;
    assert forall y {:trigger a[y]} :: y in a ==> y != x;
  }

  lemma ArrivedRoots(a: Ents, ia: Index, doomed: set<Id>, leaving: seq<Path>, x: Id, uri: Path, kind: Kind)
    requires RootsFound(a, ia, doomed, leaving) && uri !in ia && uri != [] && x !in a
    ensures RootsFound(Arrived(a, ia, x, uri, kind), ia[uri := x], doomed, leaving)
  {
    ArrivedIs(a, ia, x, uri, kind);
    var b := Arrived(a, ia, x, uri, kind);
    hide Arrived;
    forall r {:trigger r in leaving} | r in leaving ensures r != uri && ia[r] in b && Container(b[ia[r]].kind) {
      assert b[ia[r]].kind == a[ia[r]].kind;
    }
  }

  lemma ArrivedGrounded(a: Ents, ia: Index, jacks: map<Id, Jack>, doomed: set<Id>, leaving: seq<Path>, x: Id, uri: Path,
        kind: Kind, more: map<Id, Jack>)
    requires Grounded(a, ia, jacks, doomed, leaving) && x !in a && MayArrive(a, ia, doomed, uri, kind)
    requires if kind == PLUG then x in more && more == jacks[x := more[x]] else more == jacks
    ensures Grounded(Arrived(a, ia, x, uri, kind), ia[uri := x], more, doomed, leaving)
  {
    ArrivedTree(a, ia, doomed, x, uri, kind);
    ArrivedRooted(a, ia, doomed, x, uri, kind);
    hide Indexed, Rooted, KeysBelow, Parented, NoStale, Closed, Matching, RootsFound, WithChild;
    NotUsed(a, ia, doomed, uri, kind);
    ArrivedClosed(a, ia, doomed, x, uri, kind);
    ArrivedMatching(a, ia, jacks, x, uri, kind, more);
    ArrivedRoots(a, ia, doomed, leaving, x, uri, kind);
  }

  lemma ArrivedPlugs(a: Ents, ia: Index, jacks: map<Id, Jack>, doomed: set<Id>, x: Id, uri: Path, kind: Kind, j: Jack)
    requires Matching(a, jacks) && doomed <= a.Keys && x !in a && uri != []
    ensures var b := Arrived(a, ia, x, uri, kind);
            && PlugsOf(jacks[x := j], b, doomed) == PlugsOf(jacks, a,
                 doomed)[x := Plug(uri, j.input, j.limit, j.held, false)]
            && PlugsOf(jacks, b, doomed) == PlugsOf(jacks, a, doomed)
  {
    ArrivedIs(a, ia, x, uri, kind);
    hide Arrived;
    var b := Arrived(a, ia, x, uri, kind);
    assert x !in jacks;
    forall p | p in jacks ensures UriOf(b, p) == UriOf(a, p) { assert b[p].uri == a[p].uri; }
  }

  lemma ArrivedLookup(a: Ents, ia: Index, jacks: map<Id, Jack>, x: Id, uri: Path, j: Jack)
    requires Indexed(a, ia) && Matching(a, jacks) && x !in a && uri !in ia
    ensures LookupOf(jacks[x := j], ia[uri := x]) == LookupOf(jacks, ia)[uri := x]
    ensures LookupOf(jacks, ia[uri := x]) == LookupOf(jacks, ia)
  {
    assert x !in jacks && forall u {:trigger u in ia} :: u in ia ==> ia[u] != x;
  }

  // ---------------------------------------------------------------- what is about to go, goes

  function Erased(index: Index, doomed: set<Id>): Index { map u | u in index && index[u] !in doomed :: index[u] }

  lemma RootPath(ents: Ents, index: Index, jacks: map<Id, Jack>, doomed: set<Id>, leaving: seq<Path>, i: nat)
    requires Grounded(ents, index, jacks, doomed, leaving) && i < |leaving|
    ensures leaving[i] != []
  {
    assert leaving[i] in leaving;
  }

  lemma RootsServed(ents: Ents, index: Index, jacks: map<Id, Jack>, doomed: set<Id>, leaving: seq<Path>)
    requires Grounded(ents, index, jacks, doomed, leaving)
    ensures Grounded(ents, index, jacks, doomed, [])
  {}

  lemma ErasedNone(a: Ents, ia: Index, jacks: map<Id, Jack>, doomed: set<Id>)
    ensures a - {} == a && Erased(ia, {}) == ia && jacks - {} == jacks
  {}

  lemma ErasedOne(a: Ents, ia: Index, jacks: map<Id, Jack>, doomed: set<Id>, gone: set<Id>, x: Id)
    requires Grounded(a, ia, jacks, doomed, []) && x in doomed && x !in gone
    ensures x in a && x in (a - gone) && a - gone - {x} == a - (gone + {x})
            && jacks - gone - {x} == jacks - (gone + {x})
    ensures Erased(ia, gone) - {(a - gone)[x].uri} == Erased(ia, gone + {x})
  {
    assert a[x] == a[x];
  }

  lemma ErasedKeys(a: Ents, ia: Index, doomed: set<Id>)
    requires Indexed(a, ia) && Parented(a) && KeysBelow(a, ia) && NoStale(a, ia) && Upward(a, doomed)
    ensures var b, ib := a - doomed, Erased(ia, doomed);
            Indexed(b, ib) && Parented(b) && KeysBelow(b, ib) && NoStale(b, ib)
  {
    var b, ib := a - doomed, Erased(ia, doomed);
    forall z, q {:trigger q in b[z].children} | z in b && q in b[z].children ensures q in ib {
      assert a[z] == b[z] && q in a[z].children && q in ia;
      var x := ia[q];
      assert a[x].uri == q && a[z].uri == Init(q) && |q| >= 2;
    }
  }

  lemma ErasedRooted(a: Ents, ia: Index, doomed: set<Id>)
    requires Indexed(a, ia) && Rooted(a, ia) && Downward(a, doomed)
    ensures Rooted(a - doomed, Erased(ia, doomed))
  {
    var b, ib := a - doomed, Erased(ia, doomed);
    forall x {:trigger b[x]} | x in b && |b[x].uri| >= 2
      ensures Init(b[x].uri) in ib && ib[Init(b[x].uri)] in b && ib[Init(b[x].uri)] == ia[Init(a[x].uri)]
    {
      assert a[x] == b[x];
      var z := ia[Init(a[x].uri)];
      assert a[z].uri == Init(a[x].uri) && a[z].uri <= a[x].uri;
    }
  }

  lemma ErasedGrounded(a: Ents, ia: Index, jacks: map<Id, Jack>, doomed: set<Id>, leaving: seq<Path>)
    requires Grounded(a, ia, jacks, doomed, leaving)
    ensures Grounded(a - doomed, Erased(ia, doomed), jacks - doomed, {}, [])
  {
    ErasedKeys(a, ia, doomed);
    ErasedRooted(a, ia, doomed);
    hide Indexed, Rooted, KeysBelow, Parented, NoStale, Closed, Erased;
    assert Closed(a - doomed, {}) by { NoneClosed(a - doomed); }
    assert forall x {:trigger (a - doomed)[x]} :: x in a - doomed ==> (a - doomed)[x] == a[x];
  }

  lemma NoneClosed(a: Ents)
    ensures Closed(a, {})
  {}

  lemma ErasedPlugs(a: Ents, ia: Index, jacks: map<Id, Jack>, doomed: set<Id>)
    requires Indexed(a, ia) && Matching(a, jacks)
    ensures var was := PlugsOf(jacks, a, doomed);
            && PlugsOf(jacks - doomed, a - doomed, {}) == (map p | p in was && !was[p].leaving :: was[p])
            && LookupOf(jacks - doomed, Erased(ia, doomed)) ==
                 map u | u in LookupOf(jacks, ia) && LookupOf(jacks, ia)[u] in was
                   && !was[LookupOf(jacks, ia)[u]].leaving :: LookupOf(jacks, ia)[u]
  {
    hide Indexed;
  }

  /** A leaving subtree lands clear of all plugs. */
  lemma NoPlugThere(a: Ents, ia: Index, jacks: map<Id, Jack>, doomed: set<Id>, leaving: seq<Path>, path: Path)
    requires Grounded(a, ia, jacks, doomed, leaving) && path != [] && (|path| >= 2 ==> NoKey(a, ia, [Last(path)]))
    ensures ClearLanding(PlugsOf(jacks, a, doomed), path)
  {
    forall p {:trigger PlugsOf(jacks, a, doomed)[p]} | p in PlugsOf(jacks, a, doomed) && |path| >= 2
      ensures !([Last(path)] <= PlugsOf(jacks, a, doomed)[p].uri)
    {
      UriLive(a, ia, p);
    }
  }

  lemma NothingYet(s: State)
    requires s == State(map[], map[], map[], [], [], [], [], 0)
    ensures Inv(s) && Grounded(map[], map[], map[], {}, []) && PlugsOf(map[], map[], {}) == map[]
            && LookupOf(map[], map[]) == map[]
  {
    assert forall r {:trigger r in s.moduleQueue} :: r !in s.moduleQueue;
  }

  // ---------------------------------------------------------------- what the stage's methods rest on

  lemma ArrivedAll(s: State, a: Ents, ia: Index, jacks: map<Id, Jack>, doomed: set<Id>, leaving: seq<Path>, x: Id,
        uri: Path, kind: Kind, j: Jack)
    requires Inv(s) && Grounded(a, ia, jacks, doomed, leaving) && x !in a && MayArrive(a, ia, doomed, uri, kind)
             && j.held == {}
    requires s == State(PlugsOf(jacks, a, doomed), LookupOf(jacks, ia), s.cables, s.sessionQueue, s.moduleQueue,
             leaving, s.announced, s.made)
    ensures var b, ib := Arrived(a, ia, x, uri, kind), ia[uri := x];
            var more := if kind == PLUG then jacks[x := j] else jacks;
            var t := State(PlugsOf(more, b, doomed), LookupOf(more, ib), s.cables, s.sessionQueue, s.moduleQueue,
              leaving, s.announced, s.made);
            Grounded(b, ib, more, doomed, leaving) && Inv(t)
              && t == if kind == PLUG then Added(s, x, uri, j.input, j.limit) else s
  {
    hide Inv, PlugsOf, LookupOf, WellFormed, NoStale, RootsFound, Arrived;
    TreeParts(a, ia, jacks, doomed, leaving);
    NotUsed(a, ia, doomed, uri, kind);
    ArrivedGrounded(a, ia, jacks, doomed, leaving, x, uri, kind, if kind == PLUG then jacks[x := j] else jacks);
    ArrivedPlugs(a, ia, jacks, doomed, x, uri, kind, j);
    ArrivedLookup(a, ia, jacks, x, uri, j);
    hide Grounded, Indexed, Closed, Matching;
    if kind == PLUG {
      NoSuchPlug(a, ia, jacks, doomed, x, uri);
      AddedInv(s, x, uri, j.input, j.limit);
    }
  }

  lemma NoSuchPlug(a: Ents, ia: Index, jacks: map<Id, Jack>, doomed: set<Id>, x: Id, uri: Path)
    requires Matching(a, jacks) && x !in a && uri !in ia
    ensures x !in PlugsOf(jacks, a, doomed) && uri !in LookupOf(jacks, ia)
  {}

  lemma WholeBundle(ents: Ents, e: Id, bundle: seq<Id>)
    requires e in ents && forall x {:trigger x in bundle} :: x in bundle <==>
             x in Below(ents, e) && (true || x != e) && Passes(ents, x, None)
    ensures (set x | x in bundle) == Below(ents, e)
  {}

  lemma LeftTree(s: State, t: State, b: Ents, ib: Index, jacks: map<Id, Jack>, doomed: set<Id>, leaving: seq<Path>,
        path: Path)
    requires Inv(s) && path != [] && Grounded(b, ib, jacks, doomed, leaving)
    requires t.plugs == PlugsOf(jacks, b, doomed) && t.lookup == LookupOf(jacks, ib)
    requires t == s.(plugs := t.plugs, lookup := t.lookup, leaving := s.leaving + [Landing(path)])
             && t.plugs == MovedPlugs(s.plugs, path)
    ensures Inv(t) && Left(s, t, path)
  {
    hide Inv, PlugsOf, LookupOf, MovedPlugs, WellFormed;
    TreeParts(b, ib, jacks, doomed, leaving);
    LookupFound(b, ib, jacks, t, doomed);
    LeftInv(s, t, path);
  }

  lemma PlugIs(a: Ents, jacks: map<Id, Jack>, p: Id)
    requires Matching(a, jacks) && p in a && a[p].kind == PLUG
    ensures p in jacks
  {}

  lemma OnePrefix(r: Path, q: Path)
    requires |r| == 1 && |q| == 1
    ensures r <= q ==> r == q
  {}

  /** No queued root lies at the landing of a plug. */
  lemma NoRootThere(s: State, a: Ents, ia: Index, jacks: map<Id, Jack>, doomed: set<Id>, leaving: seq<Path>, path: Path,
        p: Id, r: Path)
    requires Grounded(a, ia, jacks, doomed, leaving) && path != [] && path in ia && p == ia[path] && p in jacks
             && r in leaving
    requires |path| >= 2 ==> NoKey(a, ia, [Last(path)])
    ensures !(r <= Landing(path))
  {
    hide WellFormed, NoStale, Closed, NoKey;
    assert |r| == 1 && r in ia && Container(a[ia[r]].kind);
    assert a[p].kind == PLUG by { assert a[p] == a[p]; }
    if |path| >= 2 { NoKeyThere(a, ia, [Last(path)]); }
    OnePrefix(r, Landing(path));
  }

  lemma AloneDue(s: State, t: State, p: Id, to: Path)
    requires Due(s) && p in s.plugs && t == Shifted(s, p, to) && |to| == 1
             && forall r {:trigger r in s.leaving} :: r in s.leaving ==> !(r <= to)
    ensures Due(t) <==> s.plugs[p].held == {}
  {
    if s.plugs[p].held == {} {
      forall q {:trigger t.plugs[q]} | q in t.plugs && t.plugs[q].leaving
        ensures UnderRoot(t, q) || (|t.plugs[q].uri| == 1 && t.plugs[q].held == {})
      {
        if q != p {
          assert t.plugs[q] == s.plugs[q];
          if UnderRoot(s, q) { var r :| r in s.leaving && r <= s.plugs[q].uri; assert r in t.leaving; }
        }
      }
    } else {
      assert t.plugs[p].leaving && !UnderRoot(t, p);
    }
  }

  lemma LeftAlone(s: State, t: State, a: Ents, ia: Index, b: Ents, ib: Index, jacks: map<Id, Jack>, doomed: set<Id>,
        leaving: seq<Path>, path: Path, p: Id)
    requires Inv(s) && path != [] && path in ia && p == ia[path] && p in jacks
             && Grounded(a, ia, jacks, doomed, leaving) && Landed(a, ia, b, ib, path)
    requires s.plugs == PlugsOf(jacks, a, doomed) && s.lookup == LookupOf(jacks, ia) && s.leaving == leaving
    requires t == s.(plugs := PlugsOf(jacks, b, doomed + {p}), lookup := LookupOf(jacks, ib))
    ensures p in s.plugs && t == Shifted(s, p, Landing(path)) && Sane(t)
            && Grounded(b, ib, jacks, doomed + {p}, leaving)
    ensures Inv(t) <==> jacks[p].held == {}
  {
    hide Sane, Due, PlugsOf, LookupOf, WellFormed, NoStale, Closed, RootsFound, NoKey, Indexed, Moves.Moved;
    TreeParts(a, ia, jacks, doomed, leaving);
    Registered(a, ia, path);
    assert a[p].kind == PLUG by { assert a[p] == a[p]; }
    HeldIs(jacks, a, doomed, p);
    AlonePlugs(a, ia, b, ib, path, p, jacks, doomed);
    AloneLookup(a, ia, b, ib, path, p, jacks);
    AloneGrounded(a, ia, b, ib, path, p, jacks, doomed, leaving);
    AlonePlace(s, a, ia, jacks, doomed, path, p);
    hide Landed;
    PlugMoved(s, p, Landing(path));
    forall r {:trigger r in s.leaving} | r in s.leaving ensures !(r <= Landing(path)) {
      NoRootThere(s, a, ia, jacks, doomed, leaving, path, p, r);
    }
    AloneDue(s, t, p, Landing(path));
  }

  lemma AlonePlace(s: State, a: Ents, ia: Index, jacks: map<Id, Jack>, doomed: set<Id>, path: Path, p: Id)
    requires Indexed(a, ia) && path != [] && path in ia && p == ia[path] && p in jacks && p in a
             && (|path| >= 2 ==> NoKey(a, ia, [Last(path)]))
    requires s.plugs == PlugsOf(jacks, a, doomed) && s.lookup == LookupOf(jacks, ia)
    ensures s.plugs[p].uri == path && (Landing(path) !in s.lookup || s.lookup[Landing(path)] == p)
  {}
}
