/** Facts about single steps of the stage session: creating, leaving, and the parts of a pass over the queues. */
module StageSteps {
  import opened Common
  import opened EntityTree
  import opened CableGraph
  import CableOrder
  import Uri

  datatype Request =
    | Connect(input: string, output: string)
    | Disconnect(input: string, output: string)
    | NewEntity(uri: string, kind: Kind, isInput: bool, max: int)
    | LeaveStage(path: string)
    | RunQueues

  // ---------------------------------------------------------------- the ordered set behind the map

  function AddressOf(k: CableOrder.Key): Address { Address(Uri.Split(k.input), Uri.Split(k.output)) }

  lemma AddressIs(input: string, output: string)
    ensures AddressOf(CableOrder.Key(input, output)) == Address(Uri.Split(input), Uri.Split(output))
  {}

  function KeyOf(a: Address): CableOrder.Key { CableOrder.Key(Uri.Join(a.input), Uri.Join(a.output)) }

  lemma KeyRoundTrip(k: CableOrder.Key)
    ensures KeyOf(AddressOf(k)) == k
  {
    Uri.SplitThenJoin(k.input);
    Uri.SplitThenJoin(k.output);
  }

  /** The entries of the ordered set are the cables of the map, object by object, under their string form. */
  ghost predicate Mirrors(cables: map<Address, Cable>, entries: seq<CableOrder.Cable>) {
    && (forall a {:trigger cables[a]} :: a in cables ==>
          AddressOf(KeyOf(a)) == a && CableOrder.Cable(cables[a].id, KeyOf(a)) in entries)
    && (forall x {:trigger x in entries} :: x in entries ==>
          AddressOf(x.address) in cables && cables[AddressOf(x.address)].id == x.id)
  }

  /** What a search finds in the set is what the map holds. */
  lemma FoundIsHeld(cables: map<Address, Cable>, entries: seq<CableOrder.Cable>, k: CableOrder.Key, r: Option<nat>)
    requires Mirrors(cables, entries) && CableOrder.At(entries, k, r)
    ensures r.Some? <==> AddressOf(k) in cables
  {
    KeyRoundTrip(k);
    if r.Some? { assert entries[r.value] in entries; }
    if AddressOf(k) in cables {
      var x := CableOrder.Cable(cables[AddressOf(k)].id, k);
      assert x in entries;
    }
  }

  lemma MirrorInsert(cables: map<Address, Cable>, entries: seq<CableOrder.Cable>, k: CableOrder.Key, c: Cable,
        more: map<Address, Cable>, longer: seq<CableOrder.Cable>)
    requires Mirrors(cables, entries) && AddressOf(k) !in cables && more == cables[AddressOf(k) := c]
    requires forall x {:trigger x in longer} :: x in longer <==> x in entries || x == CableOrder.Cable(c.id, k)
    ensures Mirrors(more, longer)
  {
    KeyRoundTrip(k);
  }

  lemma MirrorErase(cables: map<Address, Cable>, made: nat, entries: seq<CableOrder.Cable>, a: Address,
        fewer: seq<CableOrder.Cable>)
    requires Mirrors(cables, entries) && Numbered(cables, made) && a in cables
    requires forall x {:trigger x in fewer} :: x in fewer <==> x in entries && x.id != cables[a].id
    ensures Mirrors(cables - {a}, fewer) && Numbered(cables - {a}, made)
  {}

  lemma MirrorSame(cables: map<Address, Cable>, entries: seq<CableOrder.Cable>, made: nat, more: map<Address, Cable>)
    requires Mirrors(cables, entries) && Numbered(cables, made) && more.Keys == cables.Keys
    requires forall a {:trigger more[a]} :: a in more ==> more[a].id == cables[a].id
    ensures Mirrors(more, entries) && Numbered(more, made)
  {}

  lemma FreshId(cables: map<Address, Cable>, entries: seq<CableOrder.Cable>, made: nat)
    requires Mirrors(cables, entries) && Numbered(cables, made)
    ensures forall i :: 0 <= i < |entries| ==> entries[i].id != made
  {
    forall i | 0 <= i < |entries| ensures entries[i].id != made { assert entries[i] in entries; }
  }

  // ---------------------------------------------------------------- which steps repeat an announcement

  /** A request for cable `c` clears a full input plug that holds `a`. */
  ghost predicate Evicts(s: State, c: Address, a: Address) {
    && c !in s.cables && Plugable(s, c)
    && |s.plugs[s.lookup[c.input]].held| >= s.plugs[s.lookup[c.input]].limit && a in s.plugs[s.lookup[c.input]].held
  }

  /** Before request `q`, in state `s`: the request will announce cable `a` although it was announced before, or
      twice. */
  ghost predicate Repeats(s: State, q: Request, a: Address) {
    && a in s.cables
    && match q
       case Disconnect(i, o) => a == AddressOf(CableOrder.Key(i, o)) && s.cables[a].status != ACTIVATED
       case Connect(i, o) => Evicts(s, AddressOf(CableOrder.Key(i, o)), a) && s.cables[a].status != ACTIVATED
       case RunQueues =>
         || (s.cables[a].status != ACTIVATED && exists r {:trigger Hit(s, r, a)} :: r in s.leaving && Hit(s, r, a))
         || (exists i, j, p {:trigger Again(s, s.leaving, a, i, j, p)} :: Again(s, s.leaving, a, i, j, p))
       case _ => false
  }

  ghost predicate RepeatsObject(s: State, q: Request, a: Address, c: nat) {
    a in s.cables && s.cables[a].id == c && Repeats(s, q, a)
  }

  /** A step that leads from `s` to `t` leaves an object announced twice exactly when it was so before or the step
      repeats it. */
  ghost predicate Recounted(s: State, q: Request, t: State) {
    forall a, c {:trigger Twice(t, a, c)} :: Twice(t, a, c) <==> Twice(s, a, c) || RepeatsObject(s, q, a, c)
  }

  /** Nothing announced is forgotten, and a cable object that is gone was announced. */
  ghost predicate Accounted(s: State, t: State) {
    && s.announced <= t.announced && s.made <= t.made
    && forall a {:trigger s.cables[a]} :: a in s.cables ==>
         (a in t.cables && t.cables[a].id == s.cables[a].id) || Broadcast(a, s.cables[a].id) in t.announced
  }

  lemma AccountedTwice(s: State, t: State, u: State)
    requires Accounted(s, t) && Accounted(t, u)
    ensures Accounted(s, u)
  {
    forall a {:trigger s.cables[a]} | a in s.cables
      ensures (a in u.cables && u.cables[a].id == s.cables[a].id) || Broadcast(a, s.cables[a].id) in u.announced
    {
      if a in t.cables { assert t.cables[a] == t.cables[a]; }
    }
  }

  lemma QuietStep(s: State, q: Request, t: State)
    requires t.announced == s.announced && t.cables == s.cables && t.made == s.made && (q.NewEntity? || q.LeaveStage?)
    ensures Recounted(s, q, t) && Accounted(s, t)
  {}

  lemma RefusedStep(s: State, i: string, o: string)
    requires AddressOf(CableOrder.Key(i, o)) in s.cables || !Plugable(s, AddressOf(CableOrder.Key(i, o)))
    ensures Recounted(s, Connect(i, o), s) && Accounted(s, s)
  {}

  lemma MissingStep(s: State, i: string, o: string)
    requires AddressOf(CableOrder.Key(i, o)) !in s.cables
    ensures Recounted(s, Disconnect(i, o), s) && Accounted(s, s)
  {}

  lemma DisconnectStep(s: State, i: string, o: string)
    requires Counted(s) && AddressOf(CableOrder.Key(i, o)) in s.cables
    ensures var t := Destroyed(s, AddressOf(CableOrder.Key(i, o))); Recounted(s, Disconnect(i, o), t) && Accounted(s, t)
  {
    var b := AddressOf(CableOrder.Key(i, o));
    DestroyOne(s, b);
    var t := Destroyed(s, b);
    hide Destroyed, AddressOf, PlugsAfter, Numbered, Logged, Broadcasts, Distinct, Twice;
    forall a, c {:trigger Twice(t, a, c)} ensures Twice(t, a, c) <==>
      Twice(s, a, c) || RepeatsObject(s, Disconnect(i, o), a, c)
    {
      TwiceAfter(s, t, [b], a, c);
      OnceIn([b], a) by { OneDistinct(b); }
    }
  }

  lemma OneDistinct(a: Address)
    ensures Distinct([a])
  {}

  lemma ConnectStep(s: State, i: string, o: string, bundle: seq<Address>, t: State)
    requires Sane(s) && AddressOf(CableOrder.Key(i, o)) !in s.cables && Plugable(s, AddressOf(CableOrder.Key(i, o)))
             && Distinct(bundle)
    requires forall a {:trigger a in bundle} :: a in bundle <==>
             Evicts(s, AddressOf(CableOrder.Key(i, o)), a) && a in s.cables
    requires t.announced == s.announced + Broadcasts(s.cables, bundle) && t.made == s.made + 1
    requires t.cables.Keys >= s.cables.Keys && forall a {:trigger s.cables[a]} :: a in s.cables ==>
             t.cables[a].id == s.cables[a].id
    ensures Recounted(s, Connect(i, o), t) && Accounted(s, t)
  {
    hide AddressOf, Plugable, Distinct, Evicts;
    forall a, c {:trigger Twice(t, a, c)} ensures Twice(t, a, c) <==>
      Twice(s, a, c) || RepeatsObject(s, Connect(i, o), a, c)
    {
      TwiceAfter(s, t, bundle, a, c);
      OnceIn(bundle, a);
    }
  }

  lemma PassRecounts(s: State, rounds: seq<seq<Address>>, u: State, a: Address, c: nat)
    requires Counted(s) && Rounds(s, s.leaving, rounds) && |rounds| == |s.leaving|
             && u.announced == s.announced + Broadcasts(s.cables, Flat(rounds))
    ensures Twice(u, a, c) <==> Twice(s, a, c) || RepeatsObject(s, RunQueues, a, c)
  {
    TwiceAfter(s, u, Flat(rounds), a, c);
    AnnouncedIff(s, s.leaving, rounds, a);
    AnnouncedTwiceIff(s, s.leaving, rounds, a);
    hide Rounds, Flat, Again, Hit, Counted, Twice, Broadcasts;
  }

  lemma PassStep(s: State, rounds: seq<seq<Address>>, t: State, u: State)
    requires Counted(s) && Rounds(s, s.leaving, rounds) && |rounds| == |s.leaving| && CablesAfter(s, t, Flat(rounds))
             && Counted(t) && u == Swept(t)
    ensures Recounted(s, RunQueues, u) && Accounted(s, u)
  {
    assert u.announced == s.announced + Broadcasts(s.cables, Flat(rounds));
    PassAccounts(s, t, Flat(rounds));
    hide Rounds, Flat, Counted, CablesAfter, Swept, Accounted, Broadcasts, RepeatsObject, Twice;
    forall a, c {:trigger Twice(u, a, c)} ensures Twice(u, a, c) <==>
      Twice(s, a, c) || RepeatsObject(s, RunQueues, a, c)
    {
      PassRecounts(s, rounds, u, a, c);
    }
  }

  lemma PassAccounts(s: State, t: State, bundle: seq<Address>)
    requires CablesAfter(s, t, bundle) && Counted(t)
    ensures Accounted(s, Swept(t))
  {
    var u := Swept(t);
    hide Broadcasts, Numbered;
    forall a {:trigger s.cables[a]} | a in s.cables
      ensures (a in u.cables && u.cables[a].id == s.cables[a].id) || Broadcast(a, s.cables[a].id) in u.announced
    {
      assert t.cables[a] == t.cables[a] && t.cables[a].id == s.cables[a].id;
    }
  }

  /** Destroying the same cable twice before a pass announces it twice. */
  lemma DestroyedAgain(s: State, i: string, o: string)
    requires Sane(s) && AddressOf(CableOrder.Key(i, o)) in s.cables
    ensures var a := AddressOf(CableOrder.Key(i, o));
            var t := Destroyed(s, a);
            a in t.cables && Repeats(t, Disconnect(i, o), a) && Twice(Destroyed(t, a), a, s.cables[a].id)
  {
    hide Sane, Destroyed, AddressOf, AfterDestroy, Twice, Counted, Recounted, Accounted;
    var a := AddressOf(CableOrder.Key(i, o));
    DestroySane(s, a);
    var t := Destroyed(s, a);
    QueuedNow(s, a);
    DestroyedShape(s, t, a);
    SaneCounted(t);
    DisconnectStep(t, i, o);
    assert t.cables[a] == t.cables[a];
    RecountedAt(t, Disconnect(i, o), Destroyed(t, a), a, s.cables[a].id);
  }

  lemma SaneCounted(s: State)
    requires Sane(s)
    ensures Counted(s)
  {}

  lemma RecountedAt(s: State, q: Request, t: State, a: Address, c: nat)
    requires Recounted(s, q, t) && RepeatsObject(s, q, a, c)
    ensures Twice(t, a, c)
  {}

  /** An end of cable `a` lies in the subtree at `path`. */
  ghost predicate Touches(s: State, path: Path, a: Address) {
    && a in s.cables && s.cables[a].inp in s.plugs && s.cables[a].out in s.plugs
    && (path <= s.plugs[s.cables[a].inp].uri || path <= s.plugs[s.cables[a].out].uri)
  }

  /** After the move exactly the plugs of the subtree lie under its landing place. */
  lemma UnderLanding(s: State, t: State, path: Path, p: Id)
    requires path != [] && ClearLanding(s.plugs, path) && Left(s, t, path) && p in s.plugs
    ensures p in t.plugs && (Landing(path) <= t.plugs[p].uri <==> path <= s.plugs[p].uri)
    ensures t.plugs[p].held == s.plugs[p].held && t.plugs[p].leaving == (s.plugs[p].leaving || path <= s.plugs[p].uri)
  {}

  lemma HitIsTouch(s: State, t: State, path: Path, a: Address)
    requires path != [] && ClearLanding(s.plugs, path) && Left(s, t, path) && Ends(s) && Named(s) && Plugged(s)
             && a in s.cables && s.cables[a].status == ACTIVATED
    ensures Hit(t, Landing(path), a) <==> Touches(s, path, a)
  {
    var c := s.cables[a];
    UnderLanding(s, t, path, c.inp);
    UnderLanding(s, t, path, c.out);
    if Hit(t, Landing(path), a) {
      var p :| p in t.plugs && Landing(path) <= t.plugs[p].uri && a in t.plugs[p].held;
      UnderLanding(s, t, path, p);
    }
    hide ClearLanding;
    assert t.plugs[c.inp] == t.plugs[c.inp] && t.plugs[c.out] == t.plugs[c.out];
  }

  lemma UntouchedIsClear(s: State, t: State, path: Path, a: Address)
    requires path != [] && ClearLanding(s.plugs, path) && Left(s, t, path) && Ends(s) && a in s.cables
    ensures Untouched(t, [Landing(path)], a) <==> !Touches(s, path, a)
  {
    var c := s.cables[a];
    UnderLanding(s, t, path, c.inp);
    UnderLanding(s, t, path, c.out);
    hide ClearLanding;
    assert Landing(path) in [Landing(path)] && t.plugs[c.inp] == t.plugs[c.inp] && t.plugs[c.out] == t.plugs[c.out];
  }

  /** On a stage without pending leaves only active cables are in a plug's set. */
  lemma HeldIsActive(s: State, p: Id, a: Address)
    requires Named(s) && Due(s) && s.leaving == [] && p in s.plugs && a in s.plugs[p].held
    ensures !s.plugs[p].leaving && a in s.cables && s.cables[a].status == ACTIVATED
  {
    assert s.plugs[p] == s.plugs[p] && !UnderRoot(s, p);
  }

  lemma HitIsActive(s: State, t: State, path: Path, a: Address)
    requires Named(s) && Due(s) && s.leaving == [] && path != [] && ClearLanding(s.plugs, path) && Left(s, t, path)
             && Hit(t, Landing(path), a)
    ensures a in s.cables && s.cables[a].status == ACTIVATED
  {
    var p :| p in t.plugs && Landing(path) <= t.plugs[p].uri && a in t.plugs[p].held;
    UnderLanding(s, t, path, p);
    HeldIsActive(s, p, a);
  }

  lemma LeaveOutcome(s: State, t: State, path: Path, rounds: seq<seq<Address>>)
    requires Inv(s) && s.leaving == [] && path != [] && ClearLanding(s.plugs, path) && Left(s, t, path)
    requires |rounds| == |t.leaving| && Rounds(t, t.leaving, rounds)
    ensures Distinct(Flat(rounds))
    ensures forall a {:trigger a in Flat(rounds)} :: a in Flat(rounds) <==>
            a in s.cables && s.cables[a].status == ACTIVATED && Touches(s, path, a)
    ensures forall a {:trigger t.cables[a]} :: a in t.cables ==> (Untouched(t, t.leaving, a) <==> !Touches(s, path, a))
    ensures t.cables == s.cables && t.announced == s.announced && t.plugs.Keys == s.plugs.Keys
    ensures forall p {:trigger t.plugs[p]} :: p in s.plugs ==>
            t.plugs[p].leaving == (s.plugs[p].leaving || path <= s.plugs[p].uri)
  {
    assert t.leaving == [Landing(path)];
    assert Flat(rounds) == rounds[0] by { assert rounds[..0] == [] && |rounds| == 1; }
    assert Round(t, Landing(path), rounds[0]) by { assert rounds[..0] == []; NothingDestroyed(t); }
    SameKeys(s.plugs, path);
    forall p {:trigger t.plugs[p]} | p in s.plugs ensures t.plugs[p].leaving == (s.plugs[p].leaving
      || path <= s.plugs[p].uri)
    {
      UnderLanding(s, t, path, p);
    }
    hide Rounds, Flat, Touches, Untouched, Hit, ClearLanding, MovedPlugs, Distinct, Found, Queues, Capacity, Counted,
         Ends, Named, Plugged, Due;
    forall a | a in s.cables ensures Untouched(t, t.leaving, a) <==> !Touches(s, path, a) {
      UntouchedIsClear(s, t, path, a);
    }
    forall a {:trigger a in rounds[0]} ensures a in rounds[0] <==>
      a in s.cables && s.cables[a].status == ACTIVATED && Touches(s, path, a)
    {
      assert a in rounds[0] <==> Hit(t, Landing(path), a);
      if Hit(t, Landing(path), a) { HitIsActive(s, t, path, a); }
      if a in s.cables && s.cables[a].status == ACTIVATED { HitIsTouch(s, t, path, a); }
    }
  }

  lemma EventsDrained(s: State, t: State, rounds: seq<seq<Address>>, p: Id, a: Address)
    requires Inv(s) && |rounds| == |s.leaving| && Rounds(s, s.leaving, rounds) && AfterDestroy(s, t, Flat(rounds))
    requires p in t.plugs && t.plugs[p].leaving && a in t.plugs[p].held
    ensures a in t.cables && t.cables[a].status != ACTIVATED
  {
    assert a in s.plugs[p].held && s.plugs[p].leaving;
    hide Rounds, Flat, Sane, Due, AtAddress, Broadcasts;
    LeavingDrained(s, rounds, p, a);
  }

  lemma RoundsNext(s: State, roots: seq<Path>, rounds: seq<seq<Address>>, b: seq<Address>)
    requires Rounds(s, roots, rounds) && |rounds| < |roots| && Round(DestroyedAll(s, Flat(rounds)), roots[|rounds|], b)
    ensures Rounds(s, roots, rounds + [b]) && Flat(rounds + [b]) == Flat(rounds) + b
  {
    hide Round, DestroyedAll;
    var more := rounds + [b];
    assert more[..|rounds|] == rounds;
    forall i {:trigger more[i]} | 0 <= i < |more| ensures Round(DestroyedAll(s, Flat(more[..i])), roots[i], more[i]) {
      if i < |rounds| { assert more[..i] == rounds[..i] && more[i] == rounds[i]; }
    }
  }

  /** After the leaving events the agreement holds; on a stage with the full invariant what leaving plugs hold is
      queued. */
  lemma EventsSane(s: State, t: State, rounds: seq<seq<Address>>)
    requires Sane(s) && |rounds| == |s.leaving| && Rounds(s, s.leaving, rounds) && t == DestroyedAll(s, Flat(rounds))
    ensures Sane(t) && Found(t) && AfterDestroy(s, t, Flat(rounds)) && (Due(s) ==> Released(t))
  {
    hide DestroyedAll, Rounds, Flat, Sane, AfterDestroy, Found, Due;
    RoundsFind(s, s.leaving, rounds);
    DestroyAllSane(s, Flat(rounds));
    SaneFound(t);
    if Due(s) {
      forall p, a {:trigger a in t.plugs[p].held} | p in t.plugs && t.plugs[p].leaving && a in t.plugs[p].held
        ensures a in t.cables && t.cables[a].status != ACTIVATED
      {
        EventsDrained(s, t, rounds, p, a);
      }
    }
  }

  lemma QueueReady(t: State)
    requires Sane(t)
    ensures Distinct(t.moduleQueue) && forall a {:trigger a in t.moduleQueue} :: a in t.moduleQueue ==>
            a in t.cables && t.cables[a].queue == [Deactivate, Destroy]
    ensures forall a {:trigger t.cables[a]} :: a in t.cables ==>
            (a !in t.moduleQueue <==> t.cables[a].status == ACTIVATED)
  {}

  lemma SweptIs(t: State, u: State)
    requires forall a {:trigger t.cables[a]} :: a in t.cables ==>
             (a !in t.moduleQueue <==> t.cables[a].status == ACTIVATED)
    requires u.plugs == map p | p in t.plugs && !t.plugs[p].leaving :: t.plugs[p]
    requires u.lookup == map k | k in t.lookup && t.lookup[k] in t.plugs && !t.plugs[t.lookup[k]].leaving :: t.lookup[k]
    requires u.cables == map a | a in t.cables && a !in t.moduleQueue :: t.cables[a]
    requires u == State(u.plugs, u.lookup, u.cables, [], [], [], t.announced, t.made)
    ensures Swept(t) == u
  {
    forall a ensures a in Swept(t).cables <==> a in u.cables { if a in t.cables { assert t.cables[a] == t.cables[a]; } }
  }

  /** What a pass leaves of plugs and cables. */
  ghost predicate Survives(s: State, u: State) {
    && (forall a {:trigger a in u.cables} :: a in u.cables <==>
          a in s.cables && s.cables[a].status == ACTIVATED && Untouched(s, s.leaving, a))
    && (forall a {:trigger u.cables[a]} :: a in u.cables ==> a in s.cables && u.cables[a] == s.cables[a])
    && (forall p {:trigger p in u.plugs} :: p in u.plugs <==> p in s.plugs && !s.plugs[p].leaving)
  }

  lemma SweptSurvivors(s: State, t: State, rounds: seq<seq<Address>>)
    requires Named(s) && Plugged(s) && |rounds| == |s.leaving| && Rounds(s, s.leaving, rounds)
             && AfterDestroy(s, t, Flat(rounds))
    ensures Survives(s, Swept(t))
  {
    var u := Swept(t);
    hide Rounds, Flat, Untouched, Broadcasts, AtAddress;
    forall a {:trigger a in u.cables} ensures a in u.cables <==>
      a in s.cables && s.cables[a].status == ACTIVATED && Untouched(s, s.leaving, a)
    {
      if a in s.cables {
        assert t.cables[a] == t.cables[a];
        if s.cables[a].status == ACTIVATED { Spared(s, s.leaving, rounds, a); }
      }
    }
  }

  lemma SameKeys(plugs: map<Id, Plug>, path: Path)
    requires path != []
    ensures MovedPlugs(plugs, path).Keys == plugs.Keys
  {}

  /** One plug re-keyed and queued for deactivation. */
  function Shifted(t: State, p: Id, to: Path): State
    requires p in t.plugs
  {
    t.(plugs := t.plugs[p := t.plugs[p].(uri := to, leaving := true)], lookup := (t.lookup - {t.plugs[p].uri})[to := p])
  }

  lemma SaneFound(s: State)
    requires Sane(s)
    ensures Found(s) && Numbered(s.cables, s.made)
  {}

  function Added(s: State, p: Id, uri: Path, isInput: bool, limit: nat): State {
    s.(plugs := s.plugs[p := Plug(uri, isInput, limit, {}, false)], lookup := s.lookup[uri := p])
  }

  lemma AddedEnds(s: State, p: Id, uri: Path, isInput: bool, limit: nat)
    requires Found(s) && Ends(s) && Plugged(s) && p !in s.plugs && uri !in s.lookup
    ensures var t := Added(s, p, uri, isInput, limit); Found(t) && Ends(t) && Plugged(t)
  {}

  lemma AddedSets(s: State, p: Id, uri: Path, isInput: bool, limit: nat)
    requires Named(s) && Queues(s) && Capacity(s) && Due(s) && p !in s.plugs
    ensures var t := Added(s, p, uri, isInput, limit); Named(t) && Queues(t) && Capacity(t) && Due(t)
  {
    hide Distinct;
  }

  lemma AddedInv(s: State, p: Id, uri: Path, isInput: bool, limit: nat)
    requires Inv(s) && p !in s.plugs && uri !in s.lookup
    ensures Inv(Added(s, p, uri, isInput, limit))
  {
    hide Found, Ends, Plugged, Named, Queues, Capacity, Counted, Due;
    AddedEnds(s, p, uri, isInput, limit);
    AddedSets(s, p, uri, isInput, limit);
    SameCount(s, Added(s, p, uri, isInput, limit));
  }

  lemma RekeyFound(t: State, u: State, p: Id, to: Path)
    requires Found(t) && p in t.plugs && (to !in t.lookup || t.lookup[to] == p)
    requires u == t.(plugs := u.plugs, lookup := (t.lookup - {t.plugs[p].uri})[to := p])
    requires u.plugs == t.plugs[p := t.plugs[p].(uri := to, leaving := true)]
    ensures Found(u)
  {}

  lemma Collected(plugs: map<Id, Plug>, cables: map<Address, Cable>, below: seq<Id>, i: nat, was: seq<Address>,
        bundle: seq<Address>)
    requires i < |below| && below[i] in plugs
    requires forall a {:trigger a in was} :: a in was <==>
             a in cables && exists q {:trigger plugs[q]} :: q in below[..i] && q in plugs && a in plugs[q].held
    requires forall a {:trigger a in bundle} :: a in bundle <==> a in was || (a in plugs[below[i]].held && a in cables)
    ensures forall a {:trigger a in bundle} :: a in bundle <==>
            a in cables && exists q {:trigger plugs[q]} :: q in below[..i + 1] && q in plugs && a in plugs[q].held
  {
    assert below[..i + 1] == below[..i] + [below[i]];
    forall a {:trigger a in bundle}
      ensures a in bundle <==>
              a in cables && exists q {:trigger plugs[q]} :: q in below[..i + 1] && q in plugs && a in plugs[q].held
    {
      if a in was { var q :| q in below[..i] && q in plugs && a in plugs[q].held; assert plugs[q] == plugs[q]; }
      if a in plugs[below[i]].held { assert plugs[below[i]] == plugs[below[i]]; }
    }
  }

  lemma AllCollected(s: State, root: Path, below: seq<Id>, bundle: seq<Address>)
    requires Distinct(bundle) && forall p {:trigger p in below} :: p in below <==>
             p in s.plugs && root <= s.plugs[p].uri
    requires forall a {:trigger a in bundle} :: a in bundle <==>
             a in s.cables && exists p {:trigger s.plugs[p]} :: p in below && p in s.plugs && a in s.plugs[p].held
    ensures Round(s, root, bundle)
  {
    forall a {:trigger a in bundle} ensures a in bundle <==> Hit(s, root, a) {}
  }

  /** Destroying cables moves no plug. */
  lemma PathsStay(s: State, t: State, bundle: seq<Address>, i: Id, o: Id)
    requires t == DestroyedAll(s, bundle) && i in s.plugs && o in s.plugs
             && forall a {:trigger a in bundle} :: a in bundle ==> a in s.cables
    ensures i in t.plugs && o in t.plugs && t.plugs[i].uri == s.plugs[i].uri && t.plugs[o].uri == s.plugs[o].uri
            && t.lookup == s.lookup
  {
    DestroyAll(s, bundle);
    assert t.plugs[i] == t.plugs[i] && t.plugs[o] == t.plugs[o];
  }

  lemma DestroyedMissing(s: State, a: Address)
    requires a !in s.cables
    ensures Destroyed(s, a) == s
  {}

  /** The cable is active and in the sets of both its plugs. */
  ghost predicate InBothSets(s: State, a: Address) {
    && a in s.cables && s.cables[a].status == ACTIVATED && s.cables[a].inp in s.plugs && s.cables[a].out in s.plugs
    && a in s.plugs[s.cables[a].inp].held && a in s.plugs[s.cables[a].out].held
  }

  lemma CreatedInBoth(t: State, i: Id, o: Id, a: Address)
    requires i in t.plugs && o in t.plugs
    ensures InBothSets(Created(t, i, o, a), a)
  {}

  lemma {:induction false} InBroadcasts(cables: map<Address, Cable>, bundle: seq<Address>, a: Address)
    requires a in bundle && a in cables
    ensures Broadcast(a, cables[a].id) in Broadcasts(cables, bundle)
  {
    var n := |bundle| - 1;
    assert bundle == bundle[..n] + [bundle[n]];
    if a != bundle[n] { InBroadcasts(cables, bundle[..n], a); }
  }

  /** The input plug found for the request is at its limit. */
  ghost predicate Full(s: State, i: Id) { i in s.plugs && |s.plugs[i].held| >= s.plugs[i].limit }

  /** The cables of a full input plug are destroyed, then the new one is created between the two plugs found. */
  ghost predicate CarriedOut(s: State, t: State, a: Address, bundle: seq<Address>) {
    && a !in s.cables && Plugable(s, a)
    && (forall c {:trigger c in bundle} :: c in bundle <==> Evicts(s, a, c) && c in s.cables)
    && var mid := DestroyedAll(s, bundle);
       && s.lookup[a.input] in mid.plugs && s.lookup[a.output] in mid.plugs
       && t == Created(mid, s.lookup[a.input], s.lookup[a.output], a)
  }

  /** What a carried-out connect request leaves: the new cable between the two plugs found; and what the input plug
      held, if it was full, is queued and announced; all else as it was. */
  lemma ConnectEffect(s: State, t: State, u: State, a: Address, i: Id, o: Id, bundle: seq<Address>)
    requires Named(s) && a !in s.cables && Plugable(s, a) && i == s.lookup[a.input] && o == s.lookup[a.output]
    requires forall c {:trigger c in bundle} :: c in bundle <==> Evicts(s, a, c) && c in s.cables
    requires t == DestroyedAll(s, bundle) && i in t.plugs && o in t.plugs && u == Created(t, i, o, a)
    ensures a in u.cables && u.cables[a] == Cable(s.made, i, o, ACTIVATED, [])
    ensures u.cables.Keys == s.cables.Keys + {a}
    ensures forall c {:trigger u.cables[c]} :: c in s.cables ==>
              if Full(s, i) && c in s.plugs[i].held
              then u.cables[c].status != ACTIVATED && Broadcast(c, s.cables[c].id) in u.announced
              else u.cables[c] == s.cables[c]
    ensures !Full(s, i) ==> u.announced == s.announced
  {
    DestroyAll(s, bundle);
    assert bundle != [] ==> bundle[0] in bundle;
    hide DestroyedAll, PlugsAfter, Broadcasts;
    assert !Full(s, i) ==> Broadcasts(s.cables, bundle) == [] by { NoBroadcasts(s.cables); }
    forall c {:trigger u.cables[c]} | c in s.cables
      ensures if Full(s, i) && c in s.plugs[i].held
              then u.cables[c].status != ACTIVATED && Broadcast(c, s.cables[c].id) in u.announced
              else u.cables[c] == s.cables[c]
    {
      assert t.cables[c] == u.cables[c];
      if c in bundle { InBroadcasts(s.cables, bundle, c); }
    }
  }

  lemma CreatedNotice(t: State, i: Id, o: Id, a: Address)
    requires i in t.plugs && o in t.plugs
    ensures Created(t, i, o, a).sessionQueue == t.sessionQueue + [CableCreated(a)]
  {}

  lemma NoBroadcasts(cables: map<Address, Cable>)
    ensures Broadcasts(cables, []) == []
  {}

  lemma NothingDestroyed(s: State)
    ensures DestroyedAll(s, []) == s
  {}

  lemma CreatedIs(t: State, i: Id, o: Id, a: Address)
    requires i in t.plugs && o in t.plugs
    ensures Created(t, i, o, a) == t.(cables := t.cables[a := Cable(t.made, i, o, ACTIVATED, [])],
            plugs := Plugs(t, i, o, a),
                                      sessionQueue := t.sessionQueue + [CableCreated(a)], made := t.made + 1)
  {}

  /** Room for one more: either the plug was below its limit or everything it held was destroyed. */
  lemma MadeRoom(s: State, i: Id, bundle: seq<Address>)
    requires Inv(s) && i in s.plugs && s.plugs[i].input
    requires forall a {:trigger a in bundle} :: a in bundle ==> a in s.plugs[i].held && a in s.cables
    requires (|s.plugs[i].held| < s.plugs[i].limit && bundle == [])
             || forall a {:trigger a in s.plugs[i].held} :: a in s.plugs[i].held && a in s.cables ==> a in bundle
    ensures var t := DestroyedAll(s, bundle);
            && Inv(t) && t.plugs.Keys == s.plugs.Keys && t.lookup == s.lookup && t.cables.Keys == s.cables.Keys
                 && Room(t, i)
            && forall p {:trigger t.plugs[p]} :: p in s.plugs ==> t.plugs[p].input == s.plugs[p].input
  {
    DestroyAllSane(s, bundle);
    DestroyAll(s, bundle);
    var t := DestroyedAll(s, bundle);
    hide DestroyedAll, Ends, Plugged, Queues, Capacity, Counted, Due;
    if !s.plugs[i].leaving && !(|s.plugs[i].held| < s.plugs[i].limit && bundle == []) {
      forall a | a in s.plugs[i].held ensures a in bundle { assert a in s.cables; }
      ClearedPlug(s, i, bundle);
    } else if !s.plugs[i].leaving {
      assert t.plugs[i].held <= s.plugs[i].held by { assert forall a :: a in t.plugs[i].held ==> a in s.plugs[i].held; }
      FewerHeld(t.plugs[i].held, s.plugs[i].held);
    }
  }

  // ---------------------------------------------------------------- a plug leaves on its own

  lemma PlugMovedSets(s: State, p: Id, to: Path)
    requires Ends(s) && Named(s) && Plugged(s) && p in s.plugs
    ensures var t := Shifted(s, p, to); Ends(t) && Named(t) && Plugged(t)
  {}

  lemma PlugMovedQueues(s: State, p: Id, to: Path)
    requires Queues(s) && Capacity(s) && Counted(s) && p in s.plugs
    ensures var t := Shifted(s, p, to); Queues(t) && Capacity(t) && Counted(t)
  {
    SameCount(s, Shifted(s, p, to));
    hide Distinct, Counted;
  }

  lemma PlugMoved(s: State, p: Id, to: Path)
    requires Sane(s) && p in s.plugs && (to !in s.lookup || s.lookup[to] == p)
    ensures Sane(Shifted(s, p, to))
  {
    RekeyFound(s, Shifted(s, p, to), p, to);
    hide Found, Ends, Named, Plugged, Queues, Capacity, Counted, Shifted;
    PlugMovedSets(s, p, to);
    PlugMovedQueues(s, p, to);
  }

  /** The cables a plug leaves behind when it goes alone: active, and spared by the leaving events of the pass. */
  ghost predicate LeftBehind(s: State, p: Id, a: Address) {
    p in s.plugs && a in s.plugs[p].held && a in s.cables && s.cables[a].status == ACTIVATED
      && Untouched(s, s.leaving, a)
  }

  lemma AloneDrained(s: State, t: State, u: State, p: Id, to: Path, rounds: seq<seq<Address>>, q: Id, a: Address)
    requires Inv(s) && p in s.plugs && t == Shifted(s, p, to) && Sane(t) && Rounds(t, t.leaving, rounds)
             && |rounds| == |t.leaving| && AfterDestroy(t, u, Flat(rounds))
    requires q in u.plugs && u.plugs[q].leaving && a in u.plugs[q].held && (q == p ==> !LeftBehind(t, p, a))
    ensures a in u.cables && u.cables[a].status != ACTIVATED
  {
    hide Rounds, Flat, Broadcasts, AtAddress, Found, Queues, Capacity, Counted, Ends;
    assert a in t.plugs[q].held && t.plugs[q].leaving && a in t.cables;
    assert u.cables[a] == u.cables[a];
    if t.cables[a].status == ACTIVATED {
      Spared(t, t.leaving, rounds, a);
      if q != p {
        assert s.plugs[q] == t.plugs[q] && UnderRoot(s, q);
        var r :| r in s.leaving && r <= s.plugs[q].uri;
        assert t.plugs[q] == t.plugs[q] && r in t.leaving;
      }
    }
  }

  lemma AloneReleased(s: State, t: State, u: State, p: Id, to: Path, rounds: seq<seq<Address>>)
    requires Inv(s) && p in s.plugs && t == Shifted(s, p, to) && Sane(t) && Rounds(t, t.leaving, rounds)
             && |rounds| == |t.leaving|
    requires AfterDestroy(t, u, Flat(rounds))
    ensures Released(u) <==> forall a {:trigger LeftBehind(t, p, a)} :: !LeftBehind(t, p, a)
  {
    MovedLeaves(s, t, p, to);
    hide Rounds, Flat, AfterDestroy, Sane, Inv, LeftBehind, Shifted;
    if Released(u) {
      forall a {:trigger LeftBehind(t, p, a)} ensures !LeftBehind(t, p, a) {
        if LeftBehind(t, p, a) { BehindStays(t, u, p, rounds, a); }
      }
    }
    if forall a {:trigger LeftBehind(t, p, a)} :: !LeftBehind(t, p, a) {
      forall q, a {:trigger a in u.plugs[q].held} | q in u.plugs && u.plugs[q].leaving && a in u.plugs[q].held
        ensures a in u.cables && u.cables[a].status != ACTIVATED
      {
        AloneDrained(s, t, u, p, to, rounds, q, a);
      }
    }
  }

  /** After the pass the invariant holds exactly when the plug left no cable behind. */
  lemma AloneOutcome(s: State, t: State, u: State, p: Id, to: Path, rounds: seq<seq<Address>>)
    requires Inv(s) && p in s.plugs && t == Shifted(s, p, to) && Sane(t) && Rounds(t, t.leaving, rounds)
             && |rounds| == |t.leaving|
    requires AfterDestroy(t, u, Flat(rounds)) && Sane(u)
    ensures Inv(Swept(u)) <==> forall a {:trigger LeftBehind(t, p, a)} :: !LeftBehind(t, p, a)
  {
    SweptInv(u);
    AloneReleased(s, t, u, p, to, rounds);
  }

  /** A cable it did leave behind is active and has lost that end. */
  lemma AloneStrands(t: State, u: State, p: Id, rounds: seq<seq<Address>>, a: Address)
    requires Sane(t) && Sane(u) && Rounds(t, t.leaving, rounds) && |rounds| == |t.leaving|
             && AfterDestroy(t, u, Flat(rounds)) && LeftBehind(t, p, a) && t.plugs[p].leaving
    ensures a in Swept(u).cables && Swept(u).cables[a].status == ACTIVATED && p !in Swept(u).plugs
            && (Swept(u).cables[a].inp == p || Swept(u).cables[a].out == p)
  {
    BehindStays(t, u, p, rounds, a);
    SaneNamed(u);
    hide Sane, Rounds, Flat, AfterDestroy, LeftBehind, Named, Swept;
    SweptStrands(u, p, a);
  }

  lemma SaneNamed(s: State)
    requires Sane(s)
    ensures Named(s)
  {}

  /** ... and the pass does not announce it. */
  lemma AloneUnannounced(t: State, u: State, p: Id, rounds: seq<seq<Address>>, a: Address)
    requires Sane(t) && Sane(u) && Rounds(t, t.leaving, rounds) && |rounds| == |t.leaving|
             && AfterDestroy(t, u, Flat(rounds)) && LeftBehind(t, p, a) && t.plugs[p].leaving
    ensures a in u.cables && a in Swept(u).cables && Broadcast(a, Swept(u).cables[a].id) !in Swept(u).announced
  {
    BehindStays(t, u, p, rounds, a);
    hide Rounds, Flat, AfterDestroy, LeftBehind, Found, Ends, Named, Plugged, Queues, Capacity;
    assert u.cables[a] == u.cables[a] && Swept(u).cables[a] == u.cables[a];
  }

  lemma SweptQuiet(t: State)
    ensures Swept(t).leaving == []
  {}

  lemma NoRounds(s: State, roots: seq<Path>)
    ensures Rounds(s, roots, [])
  {}

  lemma BehindStays(t: State, u: State, p: Id, rounds: seq<seq<Address>>, a: Address)
    requires Sane(t) && Rounds(t, t.leaving, rounds) && |rounds| == |t.leaving| && AfterDestroy(t, u, Flat(rounds))
             && LeftBehind(t, p, a) && t.plugs[p].leaving
    ensures p in u.plugs && u.plugs[p].leaving && a in u.plugs[p].held && a in u.cables
            && u.cables[a].status == ACTIVATED
  {
    hide Rounds, Flat, Broadcasts, AtAddress, Found, Queues, Capacity, Counted, Ends;
    Spared(t, t.leaving, rounds, a);
    assert u.cables[a] == u.cables[a] && u.plugs[p] == u.plugs[p];
  }

  /** A cable destroyed between a component's leave and the pass, while the component's plug holds it: the plug has
      moved from the address, keeps the cable, and the leaving event announces it again. */
  lemma DestroyedWhileLeaving(s: State, t: State, path: Path, a: Address, p: Id)
    requires Sane(s) && Sane(t) && |path| >= 2 && ClearLanding(s.plugs, path) && Left(s, t, path)
    requires p in s.plugs && path <= s.plugs[p].uri && a in s.plugs[p].held && !s.plugs[p].leaving
    ensures var u := Destroyed(t, a);
            a in u.cables && Repeats(u, RunQueues, a) && Broadcast(a, u.cables[a].id) in u.announced
  {
    MovedAway(s, t, path, a, p);
    QueuedNow(t, a);
    StillHeld(t, a, p, Landing(path));
  }

  /** Two entities leave before one pass, the second with a plug at an end of a cable whose other end is in the first:
      the pass announces the cable twice. */
  lemma TwoRootsLeave(s: State, t: State, u: State, first: Path, second: Path, a: Address, p: Id, q: Id)
    requires Sane(t) && Found(u) && first != [] && |second| >= 2 && ClearLanding(s.plugs, first)
             && ClearLanding(t.plugs, second)
    requires Left(s, t, first) && Left(t, u, second)
    requires p in s.plugs && first <= s.plugs[p].uri && a in s.plugs[p].held && a in s.cables
    requires p in t.plugs && !(second <= t.plugs[p].uri)
    requires q in t.plugs && second <= t.plugs[q].uri && a in t.plugs[q].held && !t.plugs[q].leaving
    ensures Again(u, u.leaving, a, |s.leaving|, |s.leaving| + 1, q) && Repeats(u, RunQueues, a)
  {
    hide Sane, Found, ClearLanding, MovedPlugs, AtAddress, Left;
    UnderLanding(s, t, first, p);
    StaysPut(t, u, second, p);
    MovedAway(t, u, second, a, q);
    LeftQueue(s, t, first);
    LeftQueue(t, u, second);
    var i := |s.leaving|;
    assert u.leaving[i] == Landing(first) && u.leaving[i + 1] == Landing(second);
    assert Hit(u, u.leaving[i], a) by { assert u.plugs[p] == u.plugs[p]; }
    assert Again(u, u.leaving, a, i, i + 1, q);
  }

  lemma LeftQueue(s: State, t: State, path: Path)
    requires path != [] && Left(s, t, path)
    ensures t.leaving == s.leaving + [Landing(path)] && t.cables == s.cables
  {}

  lemma StaysPut(t: State, u: State, path: Path, p: Id)
    requires path != [] && Left(t, u, path) && p in t.plugs && !(path <= t.plugs[p].uri)
    ensures p in u.plugs && u.plugs[p] == t.plugs[p]
  {}

  lemma StillHeld(t: State, a: Address, p: Id, r: Path)
    requires a in t.cables && p in t.plugs && a in t.plugs[p].held && !AtAddress(t, p, a) && r <= t.plugs[p].uri
             && r in t.leaving
    ensures var u := Destroyed(t, a); r in u.leaving && Hit(u, r, a)
  {
    DestroyOne(t, a);
    var u := Destroyed(t, a);
    hide Destroyed, AtAddress, Broadcasts;
    assert u.plugs[p] == u.plugs[p];
  }

  lemma QueuedNow(t: State, a: Address)
    requires Sane(t) && a in t.cables
    ensures var u := Destroyed(t, a);
            a in u.cables && u.cables[a].status != ACTIVATED && Broadcast(a, u.cables[a].id) in u.announced
  {
    assert t.cables[a] == t.cables[a];
    hide Unplugged, Distinct;
  }

  lemma MovedAway(s: State, t: State, path: Path, a: Address, p: Id)
    requires Sane(s) && Found(t) && |path| >= 2 && ClearLanding(s.plugs, path) && Left(s, t, path)
    requires p in s.plugs && path <= s.plugs[p].uri && a in s.plugs[p].held && !s.plugs[p].leaving
    ensures p in t.plugs && a in t.cables && a in t.plugs[p].held && !AtAddress(t, p, a)
            && Landing(path) <= t.plugs[p].uri && Landing(path) in t.leaving
  {
    hide Queues, Capacity, Counted, Distinct;
    UnderLanding(s, t, path, p);
    assert s.plugs[p].uri == a.input || s.plugs[p].uri == a.output;
    assert !([Last(path)] <= s.plugs[p].uri);
    assert t.plugs[p].uri != s.plugs[p].uri;
  }

  // ---------------------------------------------------------------- small facts for the methods

  lemma InvSane(s: State)
    requires Inv(s)
    ensures Sane(s)
  {}

  lemma InvNumbered(s: State)
    requires Inv(s)
    ensures Numbered(s.cables, s.made)
  {}

  lemma DestroyedShape(s: State, t: State, a: Address)
    requires AfterDestroy(s, t, [a])
    ensures t.plugs.Keys == s.plugs.Keys && t.cables.Keys == s.cables.Keys
            && forall b {:trigger t.cables[b]} :: b in t.cables ==> t.cables[b].id == s.cables[b].id
  {}

  lemma BundleIds(s: State, t: State, bundle: seq<Address>)
    requires AfterDestroy(s, t, bundle)
    ensures t.cables.Keys == s.cables.Keys && (forall a {:trigger t.cables[a]} :: a in t.cables ==>
            t.cables[a].id == s.cables[a].id) && t.made == s.made
  {}

  lemma BundleKeeps(s: State, t: State, bundle: seq<Address>)
    requires t == DestroyedAll(s, bundle) && forall a {:trigger a in bundle} :: a in bundle ==> a in s.cables
    ensures t.cables.Keys == s.cables.Keys && (forall a {:trigger t.cables[a]} :: a in t.cables ==>
            t.cables[a].id == s.cables[a].id) && t.made == s.made
    ensures t.announced == s.announced + Broadcasts(s.cables, bundle)
  {
    DestroyAll(s, bundle);
  }

  lemma KeptIds(s: State, t: State, bundle: seq<Address>)
    requires AfterDestroy(s, t, bundle)
    ensures t.announced == s.announced + Broadcasts(s.cables, bundle) && t.plugs.Keys == s.plugs.Keys
  {}

  lemma ConnectBundle(s: State, c: Address, bundle: seq<Address>)
    requires Named(s) && c !in s.cables && Plugable(s, c) && Distinct(bundle)
    requires var i := s.lookup[c.input];
             forall a {:trigger a in bundle} :: a in bundle <==>
             a in s.plugs[i].held && a in s.cables && |s.plugs[i].held| >= s.plugs[i].limit
    ensures forall a {:trigger a in bundle} :: a in bundle <==> Evicts(s, c, a) && a in s.cables
  {}

  lemma ConnectCounts(s: State, t: State, u: State, i: string, o: string, bundle: seq<Address>, p: Id, q: Id)
    requires Sane(s) && AddressOf(CableOrder.Key(i, o)) !in s.cables && Plugable(s, AddressOf(CableOrder.Key(i, o)))
             && Distinct(bundle)
    requires forall a {:trigger a in bundle} :: a in bundle <==>
             Evicts(s, AddressOf(CableOrder.Key(i, o)), a) && a in s.cables
    requires t == DestroyedAll(s, bundle) && p in t.plugs && q in t.plugs
             && u == Created(t, p, q, AddressOf(CableOrder.Key(i, o)))
    ensures Recounted(s, Connect(i, o), u) && Accounted(s, u)
  {
    hide Sane, Evicts, Plugable, AddressOf, DestroyedAll, Distinct, Recounted, Accounted, Broadcasts;
    BundleKeeps(s, t, bundle);
    ConnectStep(s, i, o, bundle, u);
  }

  lemma MovedLeaves(s: State, t: State, p: Id, to: Path)
    requires p in s.plugs && t == Shifted(s, p, to)
    ensures p in t.plugs && t.plugs[p].leaving && t.leaving == s.leaving
  {}

  /** Without pending leaves the plug leaves behind exactly what it holds. */
  lemma AloneQuiet(s: State, t: State, p: Id, to: Path)
    requires Inv(s) && s.leaving == [] && p in s.plugs && t == Shifted(s, p, to)
    ensures (forall a {:trigger LeftBehind(t, p, a)} :: !LeftBehind(t, p, a)) <==> s.plugs[p].held == {}
  {
    forall a | a in s.plugs[p].held ensures LeftBehind(t, p, a) { HeldIsActive(s, p, a); }
    hide Inv;
    if s.plugs[p].held != {} { var a :| a in s.plugs[p].held; assert LeftBehind(t, p, a); }
  }

  lemma PassSurvives(s: State, t: State, rounds: seq<seq<Address>>)
    requires Inv(s) && |rounds| == |s.leaving| && Rounds(s, s.leaving, rounds) && AfterDestroy(s, t, Flat(rounds))
             && Sane(t)
    ensures Survives(s, Swept(t)) && Recounted(s, RunQueues, Swept(t)) && Accounted(s, Swept(t))
  {
    hide Rounds, Flat, Recounted, Accounted, Survives, Swept, PlugsAfter, CablesAfter, Found, Ends, Named, Plugged,
         Queues, Capacity, Counted, Due;
    SweptSurvivors(s, t, rounds);
    PassStep(s, rounds, t, Swept(t));
  }

  lemma SelfAccounted(s: State)
    ensures Accounted(s, s)
  {}

  /** Announcements counted over the first `n` requests of a run. */
  ghost predicate RunCounts(s: State, trace: seq<State>, requests: seq<Request>, t: State, n: nat) {
    && n <= |requests| && n <= |trace|
    && forall a, c {:trigger Twice(t, a, c)} :: Twice(t, a, c) <==>
         Twice(s, a, c) || exists k {:trigger trace[k]} :: 0 <= k < n && RepeatsObject(trace[k], requests[k], a, c)
  }

  lemma RunCountsNext(s: State, trace: seq<State>, requests: seq<Request>, t: State, u: State, n: nat)
    requires n < |requests| && n < |trace| && trace[n] == t && RunCounts(s, trace, requests, t, n)
             && Recounted(t, requests[n], u)
    ensures RunCounts(s, trace + [u], requests, u, n + 1)
  {
    hide Twice, RepeatsObject;
    var more := trace + [u];
    assert forall k {:trigger more[k]} {:trigger trace[k]} :: 0 <= k < |trace| ==> more[k] == trace[k];
    forall a, c {:trigger Twice(u, a, c)} ensures Twice(u, a, c) <==>
      Twice(s, a, c) || exists k {:trigger more[k]} :: 0 <= k < n + 1 && RepeatsObject(more[k], requests[k], a, c)
    {
      assert Twice(u, a, c) <==> Twice(t, a, c) || RepeatsObject(t, requests[n], a, c);
      if k :| 0 <= k < n && RepeatsObject(trace[k], requests[k], a, c) {
        assert RepeatsObject(more[k], requests[k], a, c);
      }
      if k :| 0 <= k < n + 1 && RepeatsObject(more[k], requests[k], a, c) { assert more[k] == trace[k]; }
      assert more[n] == t;
    }
  }

  lemma RunCountsDone(s: State, trace: seq<State>, requests: seq<Request>, t: State, n: nat)
    requires RunCounts(s, trace, requests, t, n)
    ensures forall a, c {:trigger Twice(t, a, c)} :: Twice(t, a, c) <==>
              Twice(s, a, c) || exists k {:trigger trace[k]} :: 0 <= k < n && RepeatsObject(trace[k], requests[k], a, c)
  {}

  lemma NotFound(cables: map<Address, Cable>, entries: seq<CableOrder.Cable>, k: CableOrder.Key)
    requires Mirrors(cables, entries) && AddressOf(k) !in cables
    ensures CableOrder.At(entries, k, None)
  {
    forall i | 0 <= i < |entries| ensures entries[i].address != k { assert entries[i] in entries; }
  }

  /** What the session finds after the leaving events, ready for the rest of the pass. */
  lemma EventsReady(s: State, t: State, rounds: seq<seq<Address>>, entries: seq<CableOrder.Cable>)
    requires Sane(s) && |rounds| == |s.leaving| && Rounds(s, s.leaving, rounds) && t == DestroyedAll(s, Flat(rounds))
             && Mirrors(s.cables, entries)
    ensures Found(t) && Numbered(t.cables, t.made) && Mirrors(t.cables, entries)
    ensures Distinct(t.moduleQueue) && forall a {:trigger a in t.moduleQueue} :: a in t.moduleQueue ==>
            a in t.cables && t.cables[a].queue == [Deactivate, Destroy]
    ensures forall a {:trigger t.cables[a]} :: a in t.cables ==>
            (a !in t.moduleQueue <==> t.cables[a].status == ACTIVATED)
  {
    hide Sane, Rounds, Flat, DestroyedAll, Found, Mirrors, Numbered, Distinct, AfterDestroy, Due, Released;
    EventsSane(s, t, rounds);
    SaneFound(s);
    SaneFound(t);
    BundleIds(s, t, Flat(rounds));
    MirrorSame(s.cables, entries, s.made, t.cables);
    QueueReady(t);
  }

  /** After a full plug was cleared, all is ready for the new cable. */
  lemma RoomMade(s: State, t: State, c: Address, i: Id, bundle: seq<Address>, entries: seq<CableOrder.Cable>)
    requires Inv(s) && Mirrors(s.cables, entries) && c !in s.cables && Plugable(s, c) && i == s.lookup[c.input]
             && t == DestroyedAll(s, bundle) && Distinct(bundle)
    requires forall a {:trigger a in bundle} :: a in bundle <==>
             a in s.plugs[i].held && a in s.cables && |s.plugs[i].held| >= s.plugs[i].limit
    ensures Inv(t) && Sane(s) && Mirrors(t.cables, entries) && c !in t.cables && Plugable(t, c) && t.lookup == s.lookup
            && t.plugs.Keys == s.plugs.Keys && Room(t, i)
    ensures forall a {:trigger a in bundle} :: a in bundle <==> Evicts(s, c, a) && a in s.cables
  {
    InvSane(s);
    SaneNamed(s);
    InvNumbered(s);
    hide Inv, Sane, Named, Mirrors, Numbered, DestroyedAll, Room, Distinct;
    assert (|s.plugs[i].held| < s.plugs[i].limit && bundle == [])
           || forall a {:trigger a in s.plugs[i].held} :: a in s.plugs[i].held && a in s.cables ==> a in bundle by {
      if bundle != [] { assert bundle[0] in bundle; }
    }
    MadeRoom(s, i, bundle);
    BundleKeeps(s, t, bundle);
    MirrorSame(s.cables, entries, s.made, t.cables);
    ConnectBundle(s, c, bundle);
  }

  lemma DestroyHandled(s: State, i: string, o: string, entries: seq<CableOrder.Cable>)
    requires Inv(s) && Mirrors(s.cables, entries) && AddressOf(CableOrder.Key(i, o)) in s.cables
    ensures var t := Destroyed(s, AddressOf(CableOrder.Key(i, o)));
            Inv(t) && Mirrors(t.cables, entries) && Recounted(s, Disconnect(i, o), t) && Accounted(s, t)
  {
    hide Inv, AfterDestroy, Mirrors, AddressOf, Recounted, Accounted, Destroyed, Numbered, Sane, Counted;
    var a := AddressOf(CableOrder.Key(i, o));
    DestroyInv(s, a);
    DestroyedShape(s, Destroyed(s, a), a);
    InvNumbered(s);
    MirrorSame(s.cables, entries, s.made, Destroyed(s, a).cables);
    InvSane(s);
    SaneCounted(s);
    DisconnectStep(s, i, o);
  }

  lemma ConnectHandled(s: State, t: State, u: State, i: string, o: string, bundle: seq<Address>, p: Id, q: Id)
    requires Sane(s) && AddressOf(CableOrder.Key(i, o)) !in s.cables && Plugable(s, AddressOf(CableOrder.Key(i, o)))
             && Distinct(bundle)
    requires forall a {:trigger a in bundle} :: a in bundle <==>
             Evicts(s, AddressOf(CableOrder.Key(i, o)), a) && a in s.cables
    requires t == DestroyedAll(s, bundle) && p in t.plugs && q in t.plugs
             && u == Created(t, p, q, AddressOf(CableOrder.Key(i, o)))
    ensures Recounted(s, Connect(i, o), u) && Accounted(s, u) && InBothSets(u, AddressOf(CableOrder.Key(i, o)))
  {
    hide Sane, Evicts, Plugable, AddressOf, DestroyedAll, Distinct, Recounted, Accounted, InBothSets, Created;
    ConnectCounts(s, t, u, i, o, bundle, p, q);
    CreatedInBoth(t, p, q, AddressOf(CableOrder.Key(i, o)));
  }
}
