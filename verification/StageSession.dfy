/** The stage session: cable requests, arriving and leaving entities, and the queue pass that carries the deferred work
    out. */
module StageSession {
  import opened Common
  import opened EntityTree
  import opened CableGraph
  import opened StageTree
  import opened StageSteps
  import Moves
  import Attaching
  import Subtrees
  import CableOrder
  import HierarchyTree
  import Uri

  /** CRASH stands for the null performer that the code dereferences. */
  datatype Signal =
    | EMPTY | OK | ERR_BAD_CABLE_CONNECT_REQUEST | ERR_CABLE_PLUGS_NOT_FOUND | ERR_ENTITY_NOT_FOUND
    | CRASH

  /** An int read as size_t. */
  function AsSize(max: int): nat { max % SIZE_T }

  /** The path leads to a plug of that direction. */
  predicate PlugAt(jacks: map<Id, Jack>, index: Index, p: Path, input: bool) {
    p in index && index[p] in jacks && jacks[index[p]].input == input
  }

  /** The first segment of the path is a registered performer. */
  predicate PerformerAt(ents: Ents, index: Index, p: Path) {
    p != [] && [p[0]] in index && index[[p[0]]] in ents && ents[index[[p[0]]]].kind == PERFORMER
  }

  /** How a request to connect the input plug at `u` to the output plug at `v` is answered. */
  ghost predicate ConnectAnswer(ents: Ents, index: Index, jacks: map<Id, Jack>, cables: map<Address, Cable>, u: Path,
        v: Path, r: Signal) {
    r == if Address(u, v) in cables then ERR_BAD_CABLE_CONNECT_REQUEST
         else if !PlugAt(jacks, index, u, true) || !PlugAt(jacks, index, v, false) then ERR_CABLE_PLUGS_NOT_FOUND
         else if !PerformerAt(ents, index, u) || !PerformerAt(ents, index, v) then CRASH
         else EMPTY
  }

  /** What such a request leaves when it is carried out: one new active cable, between the plugs registered at the two
      paths and in both their sets; a full input plug loses all it held; every other cable is as it was. */
  ghost predicate NewCable(index: Index, s: State, t: State, u: Path, v: Path) {
    var a := Address(u, v);
    && u in index && v in index && index[u] in s.plugs && index[u] in t.plugs && index[v] in t.plugs
    && a in t.cables && t.cables[a] == Cable(s.made, index[u], index[v], ACTIVATED, [])
    && a in t.plugs[index[u]].held && a in t.plugs[index[v]].held
    && t.cables.Keys == s.cables.Keys + {a} && CableCreated(a) in t.sessionQueue
    && (|s.plugs[index[u]].held| < s.plugs[index[u]].limit ==> t.announced == s.announced)
    && forall c {:trigger t.cables[c]} :: c in s.cables ==>
         if |s.plugs[index[u]].held| >= s.plugs[index[u]].limit && c in s.plugs[index[u]].held
         then t.cables[c].status != ACTIVATED && Broadcast(c, s.cables[c].id) in t.announced
         else t.cables[c] == s.cables[c]
  }

  /** The handler's branches give that answer. */
  lemma AnswerIs(ents: Ents, index: Index, jacks: map<Id, Jack>, doomed: set<Id>, leaving: seq<Path>,
        cables: map<Address, Cable>, a: Address)
    requires Grounded(ents, index, jacks, doomed, leaving)
    ensures a in cables ==> ConnectAnswer(ents, index, jacks, cables, a.input, a.output, ERR_BAD_CABLE_CONNECT_REQUEST)
    ensures a !in cables && !Attachable(jacks, index, a) ==>
              ConnectAnswer(ents, index, jacks, cables, a.input, a.output, ERR_CABLE_PLUGS_NOT_FOUND)
    ensures a !in cables && Attachable(jacks, index, a) ==>
              ConnectAnswer(ents, index, jacks, cables, a.input, a.output,
                if PerformerAbove(ents, index, index[a.input])
                  && PerformerAbove(ents, index, index[a.output]) then EMPTY
                else CRASH)
  {
    assert Address(a.input, a.output) == a;
    if Attachable(jacks, index, a) { PlugPaths(ents, index, jacks, doomed, leaving, a); }
    hide Grounded;
  }

  lemma CarriedOutIs(s: State, t: State, u: State, a: Address, i: Id, o: Id, bundle: seq<Address>)
    requires a !in s.cables && Plugable(s, a) && i == s.lookup[a.input] && o == s.lookup[a.output]
    requires forall c {:trigger c in bundle} :: c in bundle <==> Evicts(s, a, c) && c in s.cables
    requires t == DestroyedAll(s, bundle) && i in t.plugs && o in t.plugs && u == Created(t, i, o, a)
    ensures CarriedOut(s, u, a, bundle)
  {}

  /** What a request to destroy the cable from `v` to `u` leaves: if there is one, it is announced and notified, is not
      active any more, and has left the sets of the plugs found at its two paths; nothing else changes. */
  ghost predicate CableGone(s: State, t: State, u: Path, v: Path) {
    var a := Address(u, v);
    if a !in s.cables then t == s
    else
      && t.cables.Keys == s.cables.Keys && t.cables[a].status != ACTIVATED && t.plugs.Keys == s.plugs.Keys
      && t.announced == s.announced + [Broadcast(a, s.cables[a].id)]
      && t.sessionQueue == s.sessionQueue + [CableDestroyed(a)]
      && (forall c {:trigger t.cables[c]} :: c in s.cables && c != a ==> t.cables[c] == s.cables[c])
      && (forall p {:trigger t.plugs[p]} :: p in s.plugs ==>
            t.plugs[p] == s.plugs[p].(held := s.plugs[p].held - PulledFrom(s, a, p)))
      && t.lookup == s.lookup && t.leaving == s.leaving && t.made == s.made
  }

  lemma CableGoneIs(s: State, a: Address)
    requires Sane(s)
    ensures CableGone(s, Destroyed(s, a), a.input, a.output)
  {
    assert Address(a.input, a.output) == a;
    if a in s.cables {
      var t := Destroyed(s, a);
      OneDestroyed(s, a);
      QueuedNow(s, a);
      hide Sane, Destroyed, PlugsAfter, Broadcasts, PulledFrom;
      CablesKept(s, t, a);
      hide CablesAfter;
      forall p {:trigger t.plugs[p]} | p in s.plugs
        ensures p in t.plugs && t.plugs[p] == s.plugs[p].(held := s.plugs[p].held - PulledFrom(s, a, p))
      {
        PlugGone(s, t, a, p);
      }
      GoneShape(s, t, a);
    } else {
      DestroyedMissing(s, a);
    }
  }

  /** What the destruction of cable `a` takes from the plug: the cable, if the plug is found at that side's path. */
  function PulledFrom(s: State, a: Address, p: Id): set<Address>
    requires p in s.plugs
  {
    if (a.input in s.lookup && s.lookup[a.input] == p && s.plugs[p].input) ||
       (a.output in s.lookup && s.lookup[a.output] == p && !s.plugs[p].input) then {a} else {}
  }

  lemma PlugGone(s: State, t: State, a: Address, p: Id)
    requires PlugsAfter(s, t, [a]) && p in s.plugs
    ensures p in t.plugs && t.plugs[p] == s.plugs[p].(held := s.plugs[p].held - PulledFrom(s, a, p))
  {
    assert t.plugs[p] == t.plugs[p];
    assert forall c {:trigger c in t.plugs[p].held} :: c in t.plugs[p].held <==>
             c in s.plugs[p].held && !(c in [a] && AtAddress(s, p, c));
    assert t.plugs[p].held == s.plugs[p].held - PulledFrom(s, a, p);
  }

  lemma CablesKept(s: State, t: State, a: Address)
    requires CablesAfter(s, t, [a])
    ensures t.cables.Keys == s.cables.Keys && t.made == s.made
    ensures forall c {:trigger t.cables[c]} :: c in s.cables && c != a ==> t.cables[c] == s.cables[c]
  {}

  lemma GoneShape(s: State, t: State, a: Address)
    requires PlugsAfter(s, t, [a])
    ensures t.plugs.Keys == s.plugs.Keys && t.lookup == s.lookup && t.leaving == s.leaving
  {}

  lemma OneDestroyed(s: State, a: Address)
    requires a in s.cables
    ensures var t := Destroyed(s, a);
            && PlugsAfter(s, t, [a]) && CablesAfter(s, t, [a])
                 && t.announced == s.announced + [Broadcast(a, s.cables[a].id)]
            && t.sessionQueue == s.sessionQueue + [CableDestroyed(a)]
  {
    DestroyOne(s, a);
    OneBroadcast(s.cables, a);
  }

  /** A size of -1 is the largest one; every other size a caller can mean is read as it is. */
  lemma SizeRead(max: int)
    ensures 0 <= max < 0x1_0000_0000_0000_0000 ==> AsSize(max) == max
    ensures AsSize(-1) == 0xFFFF_FFFF_FFFF_FFFF
  {}

  /** A stage at one moment of a run: its cables and plugs, its tree, and what is about to go. */
  datatype Moment = Moment(state: State, ents: Ents, index: Index, doomed: set<Id>)

  /** What each request makes of a stage. */
  ghost predicate Follows(m: Moment, q: Request, n: Moment) {
    match q
    case Connect(input, output) =>
      var a := Address(Uri.Split(input), Uri.Split(output));
      && n == m.(state := n.state)
      && if a in m.state.cables || !Plugable(m.state, a) then n == m
         else (exists bundle {:trigger CarriedOut(m.state, n.state, a, bundle)} ::
                 CarriedOut(m.state, n.state, a, bundle))
              && NewCable(m.index, m.state, n.state, a.input, a.output)
    case Disconnect(input, output) =>
      n == m.(state := n.state) && CableGone(m.state, n.state, Uri.Split(input), Uri.Split(output))
    case NewEntity(uri, kind, isInput, max) => Arrives(m, n, Uri.Split(uri), kind, isInput, AsSize(max))
    case LeaveStage(uri) => Departs(m, n, Uri.Split(uri))
    case RunQueues =>
      && (exists rounds {:trigger Rounds(m.state, m.state.leaving, rounds)} ::
            |rounds| == |m.state.leaving| && Rounds(m.state, m.state.leaving, rounds)
            && n.state == Swept(DestroyedAll(m.state, Flat(rounds))))
      && n == m.(state := n.state, ents := m.ents - m.doomed, index := Erased(m.index, m.doomed), doomed := {})
  }

  /** A used path and an entity without parent are refused; otherwise one new entity joins, a plug with nothing held. */
  ghost predicate Arrives(m: Moment, n: Moment, path: Path, kind: Kind, isInput: bool, limit: nat) {
    if path in m.index || (kind != PERFORMER && |path| < 2) then n == m
    else
      && path != []
      && exists x {:trigger Arrived(m.ents, m.index, x, path, kind)} ::
           && x !in m.ents
           && n.ents == Arrived(m.ents, m.index, x, path, kind) && n.index == m.index[path := x] && n.doomed == m.doomed
           && n.state == if kind == PLUG then Added(m.state, x, path, isInput, limit) else m.state
  }

  /** An unregistered path changes nothing; a plug is moved and queued; a container moves with all below it, is queued
      with all below it, and raises its leaving event. */
  ghost predicate Departs(m: Moment, n: Moment, path: Path) {
    if path !in m.index then n == m
    else
      var e := m.index[path];
      && path != [] && e in n.ents && Landed(m.ents, m.index, n.ents, n.index, path)
      && if e in m.state.plugs then n.state == Shifted(m.state, e, Landing(path)) && n.doomed == m.doomed + {e}
         else Left(m.state, n.state, path) && n.doomed == m.doomed + Subtrees.Below(n.ents, e)
  }

  lemma RefusedIs(m: Moment, path: Path, kind: Kind, isInput: bool, limit: nat)
    requires path in m.index || (kind != PERFORMER && |path| < 2)
    ensures Arrives(m, m, path, kind, isInput, limit)
  {}

  lemma ArrivesIs(m: Moment, n: Moment, x: Id, path: Path, kind: Kind, isInput: bool, limit: nat)
    requires path !in m.index && !(kind != PERFORMER && |path| < 2) && path != [] && x !in m.ents
    requires n.ents == Arrived(m.ents, m.index, x, path, kind) && n.index == m.index[path := x] && n.doomed == m.doomed
    requires n.state == if kind == PLUG then Added(m.state, x, path, isInput, limit) else m.state
    ensures Arrives(m, n, path, kind, isInput, limit)
  {}

  lemma NewCableIs(index: Index, s: State, t: State, u: State, a: Address, i: Id, o: Id, bundle: seq<Address>)
    requires Named(s) && a !in s.cables && Plugable(s, a) && i == s.lookup[a.input] && o == s.lookup[a.output]
    requires forall c {:trigger c in bundle} :: c in bundle <==> Evicts(s, a, c) && c in s.cables
    requires t == DestroyedAll(s, bundle) && i in t.plugs && o in t.plugs && u == Created(t, i, o, a)
    requires a.input in index && a.output in index && i == index[a.input] && o == index[a.output]
    requires InBothSets(u, a)
    ensures NewCable(index, s, u, a.input, a.output)
  {
    ConnectEffect(s, t, u, a, i, o, bundle);
    CreatedNotice(t, i, o, a);
    hide DestroyedAll, Created, Named, Evicts;
    assert Address(a.input, a.output) == a;
  }

  class Stage {
    /** All registered entities: performers, components and plugs, with their flat index. */
    const tree: HierarchyTree.Hierarchy

    /** The ordered set of the cable objects, by the string form of their addresses. */
    const store: CableOrder.CableSet

    /** The plugs of the tree, and the entities queued for deactivation. */
    var jacks: map<Id, Jack>
    var doomed: set<Id>
    var cables: map<Address, Cable>
    var sessionQueue: seq<Notice>
    var moduleQueue: seq<Address>
    var leaving: seq<Path>
    var announced: seq<Broadcast>
    var made: nat
    var reaper: seq<Address>
    var next: Id

    ghost function Abs(): State
      reads this, tree
    {
      State(PlugsOf(jacks, tree.ents, doomed), LookupOf(jacks, tree.index), cables, sessionQueue, moduleQueue, leaving,
        announced, made)
    }

    ghost function Now(): Moment
      reads this, tree
    {
      Moment(Abs(), tree.ents, tree.index, doomed)
    }

    /** Plugs, doomed entities and queued roots are those of the tree, which is well formed. */
    ghost predicate InTree()
      reads this, tree
    {
      Grounded(tree.ents, tree.index, jacks, doomed, leaving)
        && forall x {:trigger x in tree.ents} :: x in tree.ents ==> x < next
    }

    /** The ordered set holds exactly the cables of the map. */
    ghost predicate Mirrored()
      reads this, store
    {
      store.Valid() && Mirrors(cables, store.cables)
    }

    ghost predicate Valid()
      reads this, tree, store
    {
      Inv(Abs()) && InTree() && Mirrored() && reaper == []
    }

    constructor ()
      ensures Valid() && fresh(tree) && fresh(store)
      ensures tree.ents == map[] && jacks == map[] && cables == map[] && leaving == [] && moduleQueue == []
              && sessionQueue == [] && announced == []
    {
      jacks, doomed, cables, sessionQueue, moduleQueue, leaving, announced, made, reaper, next := map[], {}, map[], [],
        [], [], [], 0, [], 0;
      tree := new HierarchyTree.Hierarchy();
      store := new CableOrder.CableSet();
      new;
      hide Inv, Grounded, PlugsOf, LookupOf;
      NothingYet(State(map[], map[], map[], [], [], [], [], 0));
    }

    /** find_cable: the scan of the set finds a cable exactly when there is one, and the set's own find finds the
        same. */
    method FindCable(k: CableOrder.Key) returns (r: Option<nat>, ghost ordered: Option<nat>)
      requires Mirrored()
      ensures r == ordered && CableOrder.At(store.cables, k, r) && CableOrder.At(store.cables, k, ordered)
      ensures r.Some? <==> AddressOf(k) in cables
    {
      r := store.FindLinear(k);
      var o := store.FindOrdered(k);
      ordered := o;
      CableOrder.SearchesAgree(store.cables, k, r, ordered);
      FoundIsHeld(cables, store.cables, k, r);
    }

    // ---------------------------------------------------------------- destroying cables

    /** destroy_cable on the cable found at `a`. */
    method DestroyCable(a: Address)
      modifies this`announced, this`jacks, this`sessionQueue, this`cables, this`moduleQueue
      ensures Abs() == Destroyed(old(Abs()), a) && jacks.Keys == old(jacks).Keys
    {
      hide PlugsOf, LookupOf, Unplugged;
      if a !in cables { return; }
      announced := announced + [Broadcast(a, cables[a].id)];
      UnjackedIs(jacks, tree.ents, tree.index, doomed, a.input, true, a);
      if a.input in tree.index && tree.index[a.input] in jacks && jacks[tree.index[a.input]].input {
        jacks := jacks[tree.index[a.input] := jacks[tree.index[a.input]].(held :=
          jacks[tree.index[a.input]].held - {a})];
      }
      UnjackedIs(jacks, tree.ents, tree.index, doomed, a.output, false, a);
      if a.output in tree.index && tree.index[a.output] in jacks && !jacks[tree.index[a.output]].input {
        jacks := jacks[tree.index[a.output] := jacks[tree.index[a.output]].(held :=
          jacks[tree.index[a.output]].held - {a})];
      }
      sessionQueue := sessionQueue + [CableDestroyed(a)];
      if cables[a].status == ACTIVATED {
        cables := cables[a := Queued(cables[a])];
        moduleQueue := moduleQueue + [a];
      }
    }

    method DestroyAllOf(bundle: seq<Address>)
      modifies this`announced, this`jacks, this`sessionQueue, this`cables, this`moduleQueue
      ensures Abs() == DestroyedAll(old(Abs()), bundle) && jacks.Keys == old(jacks).Keys
    {
      hide Destroyed;
      for i := 0 to |bundle|
        invariant Abs() == DestroyedAll(old(Abs()), bundle[..i]) && jacks.Keys == old(jacks).Keys
      {
        DestroyCable(bundle[i]);
        assert bundle[..i + 1][..i] == bundle[..i];
      }
      assert bundle[..|bundle|] == bundle;
    }

    /** get_child_cables of a plug: its cables that exist and are not in the bundle yet. */
    method ChildCables(p: Id, bundle: seq<Address>) returns (b: seq<Address>)
      requires p in jacks && Distinct(bundle)
      ensures Distinct(b) && forall a {:trigger a in b} :: a in b <==>
              a in bundle || (a in jacks[p].held && a in cables)
    {
      b := bundle;
      var rest := jacks[p].held;
      while rest != {}
        invariant rest <= jacks[p].held && Distinct(b)
        invariant forall a {:trigger a in b} :: a in b <==>
                  a in bundle || (a in jacks[p].held && a !in rest && a in cables)
        decreases rest
      {
        var a :| a in rest;
        rest := rest - {a};
        if a in cables {
          var existing := false;
          for i := 0 to |b|
            invariant existing <==> a in b[..i]
          {
            if b[i] == a { existing := true; }
          }
          assert b[..|b|] == b;
          if !existing { b := b + [a]; }
        }
      }
    }

    /** get_child_cables of the entity found at `root`: the cables of all plugs below it, each once. If none is found
        there is nothing to collect. */
    method CablesBelow(root: Path) returns (bundle: seq<Address>)
      requires InTree() && root != []
      ensures Round(Abs(), root, bundle)
    {
      hide PlugsOf, LookupOf, Grounded;
      ghost var was := PlugsOf(jacks, tree.ents, doomed);
      bundle := [];
      TreeParts(tree.ents, tree.index, jacks, doomed, leaving);
      var plugs := [];
      if root in tree.index { plugs := tree.GetChildEntities(tree.index[root], true, Some(PLUG)); }
      PlugsListed(tree.ents, tree.index, jacks, doomed, root, plugs);
      for i := 0 to |plugs|
        invariant Distinct(bundle)
        invariant forall a {:trigger a in bundle} :: a in bundle <==>
                  a in cables && exists p {:trigger was[p]} :: p in plugs[..i] && p in was && a in was[p].held
      {
        assert plugs[i] in plugs;
        ghost var before := bundle;
        bundle := ChildCables(plugs[i], bundle);
        HeldIs(jacks, tree.ents, doomed, plugs[i]);
        Collected(was, cables, plugs, i, before, bundle);
      }
      assert plugs[..|plugs|] == plugs;
      AllCollected(Abs(), root, plugs, bundle);
    }

    method DisconnectCables(root: Path) returns (bundle: seq<Address>)
      requires InTree() && root != []
      modifies this`announced, this`jacks, this`sessionQueue, this`cables, this`moduleQueue
      ensures Round(old(Abs()), root, bundle) && Abs() == DestroyedAll(old(Abs()), bundle)
              && jacks.Keys == old(jacks).Keys
    {
      bundle := CablesBelow(root);
      DestroyAllOf(bundle);
    }

    // ---------------------------------------------------------------- creating cables

    /** create_cable of the session, for an address that is not in use and plugs that were found. */
    method CreateCable(k: CableOrder.Key, i: Id, o: Id)
      requires Inv(Abs()) && Mirrored() && AddressOf(k) !in cables && Plugable(Abs(), AddressOf(k)) && i in jacks
               && o in jacks && i in Abs().plugs
      requires i == Abs().lookup[AddressOf(k).input] && o == Abs().lookup[AddressOf(k).output] && Room(Abs(), i)
               && o in Abs().plugs
      requires |Abs().plugs[i].uri| != 1 && |Abs().plugs[o].uri| != 1
      modifies this`cables, this`jacks, this`sessionQueue, this`made, store
      ensures o in old(Abs()).plugs && i in old(Abs()).plugs && Abs() == Created(old(Abs()), i, o, AddressOf(k))
              && Inv(Abs()) && Mirrored()
      ensures jacks.Keys == old(jacks).Keys
    {
      hide Inv, Created, Mirrors, AddressOf, PlugsOf, LookupOf;
      ghost var t, entries := Abs(), store.cables;
      var a := AddressOf(k);
      InvNumbered(t);
      FreshId(cables, store.cables, made);
      NotFound(cables, store.cables, k);
      var inserted := store.Insert(CableOrder.Cable(made, k));
      cables := cables[a := Cable(made, i, o, ACTIVATED, [])];
      HeldMore(jacks, tree.ents, tree.index, doomed, i, a);
      jacks := jacks[i := jacks[i].(held := jacks[i].held + {a})];
      HeldMore(jacks, tree.ents, tree.index, doomed, o, a);
      jacks := jacks[o := jacks[o].(held := jacks[o].held + {a})];
      sessionQueue := sessionQueue + [CableCreated(a)];
      made := made + 1;
      assert Abs() == Created(t, i, o, a) by { CreatedIs(t, i, o, a); }
      MirrorInsert(t.cables, entries, k, Cable(t.made, i, o, ACTIVATED, []), cables, store.cables);
      CreatedInv(t, a, i, o);
    }

    /** Existing cables are unplugged when the input plug is full. */
    method MakeRoom(a: Address, i: Id, o: Id) returns (b: seq<Address>)
      requires Valid() && a !in cables && Plugable(Abs(), a) && i in jacks && o in jacks && i in Abs().plugs
               && o in Abs().plugs
      requires i == Abs().lookup[a.input] && o == Abs().lookup[a.output]
      modifies this`announced, this`jacks, this`sessionQueue, this`cables, this`moduleQueue
      ensures Abs() == DestroyedAll(old(Abs()), b) && jacks.Keys == old(jacks).Keys && Distinct(b) && Inv(Abs())
              && Mirrored() && Sane(old(Abs()))
      ensures a !in cables && Plugable(Abs(), a) && Abs().lookup == old(Abs()).lookup
              && Abs().plugs.Keys == old(Abs()).plugs.Keys && i in Abs().plugs && Room(Abs(), i)
      ensures o in Abs().plugs && Abs().plugs[i].uri == old(Abs()).plugs[i].uri
              && Abs().plugs[o].uri == old(Abs()).plugs[o].uri
      ensures forall c {:trigger c in b} :: c in b <==> Evicts(old(Abs()), a, c) && c in old(cables)
    {
      hide Inv, DestroyedAll, Mirrors, Evicts, PlugsOf, LookupOf, Grounded, Room, Plugable, Sane;
      ghost var s := Abs();
      HeldIs(jacks, tree.ents, doomed, i);
      b := [];
      if |jacks[i].held| >= jacks[i].limit {
        b := ChildCables(i, []);
        DestroyAllOf(b);
      }
      NothingDestroyed(s);
      RoomMade(s, Abs(), a, i, b, store.cables);
      PathsStay(s, Abs(), b, i, o);
    }

    /** The handler goes on with the performers at the first segments of both plugs. */
    predicate BothPerformers(a: Address)
      reads this, tree
    {
      && Attachable(jacks, tree.index, a)
      && PerformerAbove(tree.ents, tree.index, tree.index[a.input])
           && PerformerAbove(tree.ents, tree.index, tree.index[a.output])
    }

    /** create_cable_handler. Where the code would go on with a null performer, CRASH is reported and nothing is
        changed. */
    method CreateCableHandler(input: string, output: string) returns (r: Signal, ghost bundle: seq<Address>)
      requires Valid()
      modifies this, store
      ensures Valid() && (r != CRASH ==>
              Recounted(old(Abs()), Connect(input, output), Abs()) && Accounted(old(Abs()), Abs()))
      ensures r != EMPTY ==> Abs() == old(Abs())
      ensures Now() == old(Now()).(state := Abs())
      ensures ConnectAnswer(old(tree.ents), old(tree.index), old(jacks), old(cables), Uri.Split(input),
                Uri.Split(output), r)
      ensures r == EMPTY ==>
                && CarriedOut(old(Abs()), Abs(), Address(Uri.Split(input), Uri.Split(output)), bundle)
                && NewCable(old(tree.index), old(Abs()), Abs(), Uri.Split(input), Uri.Split(output))
    {
      hide Inv, DestroyedAll, Created, Mirrors, AddressOf, Recounted, Accounted, Evicts, InBothSets, PlugsOf, LookupOf,
           Grounded, NewCable, CarriedOut, ConnectAnswer, PerformerAbove, Sane, Named, Plugable;
      ghost var s, j := Abs(), jacks;
      var k := CableOrder.Key(input, output);
      var a := AddressOf(k);
      AddressIs(input, output);
      var found, ordered := FindCable(k);
      AnswerIs(tree.ents, tree.index, jacks, doomed, leaving, cables, a);
      if found.Some? { RefusedStep(s, input, output); return ERR_BAD_CABLE_CONNECT_REQUEST, []; }
      PlugableIs(s, jacks, tree.ents, tree.index, doomed, a);
      if !Attachable(jacks, tree.index, a) { RefusedStep(s, input, output); return ERR_CABLE_PLUGS_NOT_FOUND, []; }
      var i, o := tree.index[a.input], tree.index[a.output];
      if !PerformerAbove(tree.ents, tree.index, i) || !PerformerAbove(tree.ents, tree.index, o) { return CRASH, []; }
      UnderPerformer(tree.ents, tree.index, jacks, doomed, leaving, i);
      UnderPerformer(tree.ents, tree.index, jacks, doomed, leaving, o);
      var b := MakeRoom(a, i, o);
      bundle := b;
      ghost var t := Abs();
      CreateCable(k, i, o);
      SameJacks(tree.ents, tree.index, j, jacks, doomed, leaving);
      ConnectHandled(s, t, Abs(), input, output, b, i, o);
      SaneNamed(s);
      CarriedOutIs(s, t, Abs(), a, i, o, b);
      NewCableIs(tree.index, s, t, Abs(), a, i, o, b);
      r := EMPTY;
    }

    method DestroyCableHandler(input: string, output: string) returns (r: Signal)
      requires Valid()
      modifies this
      ensures Valid() && r == OK && Abs() == Destroyed(old(Abs()), Address(Uri.Split(input), Uri.Split(output)))
      ensures CableGone(old(Abs()), Abs(), Uri.Split(input), Uri.Split(output)) && Now() == old(Now()).(state := Abs())
      ensures Recounted(old(Abs()), Disconnect(input, output), Abs()) && Accounted(old(Abs()), Abs())
    {
      hide Inv, AfterDestroy, Mirrors, AddressOf, Recounted, Accounted, PlugsOf, LookupOf, Grounded, Destroyed,
           CableGone;
      ghost var s, j := Abs(), jacks;
      var k := CableOrder.Key(input, output);
      var a := AddressOf(k);
      AddressIs(input, output);
      InvSane(s);
      CableGoneIs(s, a);
      var found, ordered := FindCable(k);
      if found.Some? {
        DestroyCable(a);
        SameJacks(tree.ents, tree.index, j, jacks, doomed, leaving);
        DestroyHandled(s, input, output, store.cables);
      } else {
        MissingStep(s, input, output);
        DestroyedMissing(s, a);
      }
      r := OK;
    }

    // ---------------------------------------------------------------- entities arrive and leave

    /** A request that the code either refuses or carries out with a parent in place. */
    predicate Expected(path: Path, kind: Kind)
      reads this, tree
    {
      kind != FACTORY && (path in tree.index || (kind != PERFORMER && |path| < 2)
        || MayArrive(tree.ents, tree.index, doomed, path, kind))
    }

    /** create_client_handler and create_entity_handler: a used path, and an entity without parent, are refused. */
    method AddEntity(uri: string, kind: Kind, isInput: bool, max: int) returns (added: bool)
      requires Valid() && Expected(Uri.Split(uri), kind)
      modifies this, tree
      ensures Valid() && cables == old(cables) && announced == old(announced)
      ensures added <==> !(Uri.Split(uri) in old(tree.index) || (kind != PERFORMER && |Uri.Split(uri)| < 2))
      ensures added ==> MayArrive(old(tree.ents), old(tree.index), old(doomed), Uri.Split(uri), kind)
      ensures !added ==> Now() == old(Now())
      ensures Arrives(old(Now()), Now(), Uri.Split(uri), kind, isInput, AsSize(max))
      ensures added ==>
              tree.ents == Arrived(old(tree.ents), old(tree.index), old(next), Uri.Split(uri), kind)
              && tree.index == old(tree.index)[Uri.Split(uri) := old(next)]
      ensures added ==> Joined(old(tree.ents), tree.ents, tree.index, old(next), Uri.Split(uri), kind)
      ensures added && kind == PLUG ==>
                old(next) in Abs().plugs
                && Abs().plugs[old(next)] == Plug(Uri.Split(uri), isInput, AsSize(max), {}, false)
      ensures added && kind == PLUG ==> Abs() == Added(old(Abs()), old(next), Uri.Split(uri), isInput, AsSize(max))
      ensures Recounted(old(Abs()), NewEntity(uri, kind, isInput, max), Abs()) && Accounted(old(Abs()), Abs())
    {
      hide Inv, InTree, Mirrored, Recounted, Accounted, PlugsOf, LookupOf, Arrived, MayArrive, Added, Joined, Arrives,
           AsSize;
      var path := Uri.Split(uri);
      ghost var m, x := Now(), next;
      QuietStep(m.state, NewEntity(uri, kind, isInput, max), m.state);
      if path in tree.index || (kind != PERFORMER && |path| < 2) {
        RefusedIs(m, path, kind, isInput, AsSize(max));
        return false;
      }
      NotUsed(m.ents, m.index, m.doomed, path, kind);
      Enter(path, kind, isInput, AsSize(max));
      JoinedIs(m.ents, m.index, m.doomed, x, path, kind);
      PlugAdded(m.state, x, path, isInput, AsSize(max));
      QuietStep(m.state, NewEntity(uri, kind, isInput, max), Abs());
      ArrivesIs(m, Now(), x, path, kind, isInput, AsSize(max));
      added := true;
    }

    /** add_proxy_entity for an entity whose parent, if it needs one, is in place. */
    method Enter(path: Path, kind: Kind, isInput: bool, limit: nat)
      requires Valid() && MayArrive(tree.ents, tree.index, doomed, path, kind)
      modifies this, tree
      ensures Valid() && path != [] && doomed == old(doomed) && old(next) !in old(tree.ents)
      ensures tree.ents == Arrived(old(tree.ents), old(tree.index), old(next), path, kind)
      ensures tree.index == old(tree.index)[path := old(next)]
      ensures Abs() == if kind == PLUG then Added(old(Abs()), old(next), path, isInput, limit) else old(Abs())
    {
      hide Inv, Mirrors, PlugsOf, LookupOf, Grounded, Arrived, Moves.WithChild, Moves.WellFormed, Indexed, Matching,
           Added,
           MayArrive;
      ghost var s, a, ia, j := Abs(), tree.ents, tree.index, jacks;
      NotUsed(a, ia, doomed, path, kind);
      TreeParts(a, ia, jacks, doomed, leaving);
      tree.AddProxy(next, path, kind);
      ArrivedRecord(a, ia, next, path, kind);
      ArrivedIs(a, ia, next, path, kind);
      if kind == PLUG { jacks := jacks[next := Jack(isInput, limit, {})]; }
      ArrivedAll(s, a, ia, j, doomed, leaving, next, path, kind, Jack(isInput, limit, {}));
      next := next + 1;
    }

    /** The conditions under which taking the entity at `path` from its parent moves its subtree as a whole. */
    predicate MayLeave(path: Path)
      reads this, tree
    {
      path in tree.index ==>
        && path != [] && tree.index[path] in tree.ents && tree.ents[tree.index[path]].uri == path
        && (|path| >= 2 ==> NoKey(tree.ents, tree.index, [Last(path)]))
        && (|path| >= 2 && Container(tree.ents[tree.index[path]].kind) ==>
              Attaching.NamesApart(tree.ents, tree.index, tree.index[path]))
    }

    /** destroy_entity_complete for the component or performer at `path`: the tree takes it from its parent, if it has
        one; its leaving event is deferred with the path it then has; everything in it is queued for deactivation. */
    method Leave(path: Path) returns (r: Signal)
      requires Valid() && MayLeave(path) && (path in tree.index ==> Container(tree.ents[tree.index[path]].kind))
      modifies this, tree
      ensures Valid() && r == (if path in old(tree.index) then OK else ERR_ENTITY_NOT_FOUND)
      ensures r == OK ==>
              path != [] && Left(old(Abs()), Abs(), path)
              && Landed(old(tree.ents), old(tree.index), tree.ents, tree.index, path)
      ensures Departs(old(Now()), Now(), path)
      ensures r == OK ==> Landing(path) in tree.index && tree.index[Landing(path)] == old(tree.index)[path]
      ensures r != OK ==> Now() == old(Now())
    {
      hide Inv, Mirrors, PlugsOf, LookupOf, Grounded, NoKey, Attaching.NamesApart, Moves.WellFormed, Indexed,
           Moves.Moved, MovedPlugs, Subtrees.Below;
      if path !in tree.index { return ERR_ENTITY_NOT_FOUND; }
      ghost var s, a, ia := Abs(), tree.ents, tree.index;
      TreeParts(a, ia, jacks, doomed, leaving);
      var e := tree.index[path];
      NoPlug(a, jacks, doomed, e);
      if |path| >= 2 {
        HierarchyTree.ParentFound(a, ia, e);
        tree.Detach(tree.index[Init(path)], e);
      }
      LandedGrounded(a, ia, tree.ents, tree.index, path, e, jacks, doomed, leaving);
      LandedFound(a, ia, tree.ents, tree.index, path, e);
      var bundle := tree.GetChildEntities(e, true, None);
      leaving := leaving + [tree.ents[e].uri];
      WholeBundle(tree.ents, e, bundle);
      doomed := doomed + set x | x in bundle;
      assert doomed == old(doomed) + Subtrees.Below(tree.ents, e);
      LeftTree(s, Abs(), tree.ents, tree.index, jacks, doomed, leaving, path);
      r := OK;
    }

    /** destroy_entity_complete for a plug: the tree takes it from its parent and it is queued for deactivation, but no
        leaving event is raised for it. The invariant is kept exactly when the plug holds no cable. */
    method LeavePlug(path: Path)
      requires Valid() && MayLeave(path) && path in tree.index && tree.ents[tree.index[path]].kind == PLUG
      modifies this, tree
      ensures path != [] && path in old(tree.index) && old(tree.index)[path] in old(Abs()).plugs
      ensures Abs() == Shifted(old(Abs()), old(tree.index)[path], Landing(path)) && Departs(old(Now()), Now(), path)
      ensures Sane(Abs()) && InTree() && Mirrored() && reaper == []
      ensures Inv(Abs()) <==> old(jacks)[old(tree.index)[path]].held == {}
    {
      hide Inv, Sane, Mirrors, PlugsOf, LookupOf, Grounded, NoKey, Attaching.NamesApart, Moves.WellFormed, Indexed,
           Moves.Moved, Shifted;
      ghost var s, a, ia, d := Abs(), tree.ents, tree.index, doomed;
      TreeParts(a, ia, jacks, doomed, leaving);
      var p := tree.index[path];
      PlugIs(a, jacks, p);
      if |path| >= 2 {
        HierarchyTree.ParentFound(a, ia, p);
        LeafApart(a, ia, p);
        tree.Detach(tree.index[Init(path)], p);
      }
      LandedFound(a, ia, tree.ents, tree.index, path, p);
      doomed := doomed + {p};
      LeftAlone(s, Abs(), a, ia, tree.ents, tree.index, jacks, d, leaving, path, p);
    }

    // ---------------------------------------------------------------- one pass over the queues

    /** The hierarchy's event queue, front to back: each leaving root is looked up and disconnects its cables. */
    method LeavingEvents() returns (ghost rounds: seq<seq<Address>>)
      requires InTree()
      modifies this`announced, this`jacks, this`sessionQueue, this`cables, this`moduleQueue, this`leaving
      ensures |rounds| == |old(leaving)| && Rounds(old(Abs()), old(leaving), rounds) && jacks.Keys == old(jacks).Keys
      ensures Abs() == DestroyedAll(old(Abs()), Flat(rounds)).(leaving := []) && InTree()
    {
      hide PlugsOf, LookupOf, Grounded, DestroyedAll, Rounds, Round;
      ghost var s := Abs();
      rounds := [];
      NothingDestroyed(s);
      assert Rounds(s, leaving, []) by { NoRounds(s, leaving); }
      for i := 0 to |leaving|
        invariant leaving == old(leaving) && |rounds| == i && Rounds(s, leaving, rounds)
        invariant Abs() == DestroyedAll(s, Flat(rounds)) && InTree() && jacks.Keys == old(jacks).Keys
      {
        ghost var j := jacks;
        RootPath(tree.ents, tree.index, jacks, doomed, leaving, i);
        var bundle := DisconnectCables(leaving[i]);
        SameJacks(tree.ents, tree.index, j, jacks, doomed, leaving);
        DestroyedTwice(s, Flat(rounds), bundle);
        RoundsNext(s, leaving, rounds, bundle);
        rounds := rounds + [bundle];
      }
      RootsServed(tree.ents, tree.index, jacks, doomed, leaving);
      leaving := [];
    }

    /** The hierarchy's synchronisable queue and its reaper: what was queued for deactivation is erased with its
        keys. */
    method EraseDoomed()
      requires InTree() && leaving == []
      modifies this`jacks, this`doomed, tree
      ensures tree.ents == old(tree.ents) - old(doomed) && tree.index == Erased(old(tree.index), old(doomed))
      ensures jacks == old(jacks) - old(doomed) && doomed == {} && InTree()
    {
      hide Grounded, Erased;
      ghost var a, ia, j, d, gone := tree.ents, tree.index, jacks, doomed, {};
      assert Grounded(a, ia, j, d, []);
      var rest := doomed;
      ErasedNone(a, ia, j, d);
      while rest != {}
        invariant doomed == d == gone + rest && gone !! rest
        invariant tree.ents == a - gone && tree.index == Erased(ia, gone) && jacks == j - gone
        decreases rest
      {
        var x :| x in rest;
        ErasedOne(a, ia, j, d, gone, x);
        tree.Remove(x);
        jacks := jacks - {x};
        rest := rest - {x};
        gone := gone + {x};
      }
      assert gone == d;
      ErasedGrounded(a, ia, j, d, []);
      doomed := {};
    }

    method DrainSession()
      modifies this`sessionQueue
      ensures sessionQueue == []
    {
      while sessionQueue != []
        decreases |sessionQueue|
      {
        sessionQueue := sessionQueue[1..];
      }
    }

    /** A cable's own queue: it is deactivated, then handed to the reaper. */
    method ProcessCable(a: Address)
      requires a in cables && cables[a].queue == [Deactivate, Destroy]
      modifies this`cables, this`reaper
      ensures cables == old(cables)[a := old(cables)[a].(status := DEACTIVATED, queue := [])]
      ensures reaper == old(reaper) + [a]
    {
      ghost var n := 0;
      while cables[a].queue != []
        invariant n <= 2 && a in cables && cables == old(cables)[a := cables[a]]
                  && cables[a].queue == [Deactivate, Destroy][n..]
        invariant cables[a] == old(cables)[a].(status := if n == 0 then old(cables)[a].status
                  else DEACTIVATED, queue := cables[a].queue)
        invariant reaper == if n < 2 then old(reaper) else old(reaper) + [a]
        decreases |cables[a].queue|
      {
        var job := cables[a].queue[0];
        cables := cables[a := cables[a].(queue := cables[a].queue[1..])];
        match job {
          case Deactivate => cables := cables[a := cables[a].(status := DEACTIVATED)];
          case Destroy => reaper := reaper + [a];
        }
        n := n + 1;
      }
    }

    /** The session's synchronisable queue: every queued cable gets exactly one cleanup operation. */
    method DrainModule()
      requires Distinct(moduleQueue)
      requires forall a {:trigger a in moduleQueue} :: a in moduleQueue ==>
               a in cables && cables[a].queue == [Deactivate, Destroy]
      modifies this`cables, this`reaper, this`moduleQueue
      ensures moduleQueue == [] && reaper == old(reaper) + old(moduleQueue) && cables.Keys == old(cables).Keys
      ensures forall a {:trigger cables[a]} :: a in cables ==>
                cables[a] == if a in old(moduleQueue) then old(cables)[a].(status := DEACTIVATED, queue := [])
                  else old(cables)[a]
    {
      ghost var q, n := moduleQueue, 0;
      while moduleQueue != []
        invariant n <= |q| && moduleQueue == q[n..] && reaper == old(reaper) + q[..n] && cables.Keys == old(cables).Keys
        invariant forall a {:trigger cables[a]} :: a in cables ==>
                    cables[a] == if a in q[..n] then old(cables)[a].(status := DEACTIVATED, queue := [])
                      else old(cables)[a]
        decreases |moduleQueue|
      {
        var a := moduleQueue[0];
        moduleQueue := moduleQueue[1..];
        assert a == q[n] && a in q && a !in q[..n];
        ProcessCable(a);
        assert q[..n + 1] == q[..n] + [a];
        n := n + 1;
      }
      assert q[..|q|] == q;
    }

    /** reap_all: when a cable is erased no queue refers to it any more, its own included. */
    method ReapAll()
      requires sessionQueue == [] && moduleQueue == [] && Mirrored() && Numbered(cables, made)
      requires forall a {:trigger a in reaper} :: a in reaper ==> a in cables && cables[a].queue == []
      modifies this`cables, this`reaper, store
      ensures reaper == [] && cables == (map a | a in old(cables) && a !in old(reaper) :: old(cables)[a]) && Mirrored()
    {
      hide Mirrors, Numbered;
      ghost var q, n := reaper, 0;
      while reaper != []
        invariant n <= |q| && reaper == q[n..] && Mirrored() && Numbered(cables, made)
        invariant cables == map a | a in old(cables) && a !in q[..n] :: old(cables)[a]
        decreases |reaper|
      {
        var a := reaper[0];
        reaper := reaper[1..];
        assert q[..n + 1] == q[..n] + [a];
        if a in cables {
          ghost var entries := store.cables;
          store.EraseOwned(cables[a].id);
          MirrorErase(cables, made, entries, a, store.cables);
          cables := cables - {a};
        }
        n := n + 1;
      }
      assert q[..|q|] == q;
    }

    /** The session's part of a pass: its events, its synchronisables, the reaper last. */
    method SessionQueues()
      requires Mirrored() && reaper == [] && Numbered(cables, made) && Distinct(moduleQueue)
      requires forall a {:trigger a in moduleQueue} :: a in moduleQueue ==>
               a in cables && cables[a].queue == [Deactivate, Destroy]
      modifies this`sessionQueue, this`moduleQueue, this`cables, this`reaper, store
      ensures sessionQueue == [] && moduleQueue == [] && reaper == [] && Mirrored()
      ensures cables == map a | a in old(cables) && a !in old(moduleQueue) :: old(cables)[a]
    {
      hide Mirrors, Numbered, Distinct;
      ghost var c := cables;
      DrainSession();
      DrainModule();
      MirrorSame(c, store.cables, made, cables);
      ReapAll();
    }

    /** The whole drain, also from states outside the invariant: the hierarchy's queues first, then the session's. */
    method DrainQueues() returns (ghost rounds: seq<seq<Address>>)
      requires Sane(Abs()) && InTree() && Mirrored() && reaper == []
      modifies this, tree, store
      ensures |rounds| == |old(leaving)| && Rounds(old(Abs()), old(leaving), rounds)
      ensures Abs() == Swept(DestroyedAll(old(Abs()), Flat(rounds))) && InTree() && Mirrored() && reaper == []
      ensures tree.ents == old(tree.ents) - old(doomed) && tree.index == Erased(old(tree.index), old(doomed))
              && doomed == {}
    {
      hide Sane, Rounds, Flat, DestroyedAll, Found, Mirrors, Numbered, Distinct, PlugsOf, LookupOf, Grounded, Erased,
           Swept;
      ghost var s := Abs();
      rounds := LeavingEvents();
      ghost var t, d := DestroyedAll(s, Flat(rounds)), doomed;
      EventsReady(s, t, rounds, store.cables);
      TreeParts(tree.ents, tree.index, jacks, doomed, leaving);
      ErasedPlugs(tree.ents, tree.index, jacks, doomed);
      EraseDoomed();
      SessionQueues();
      SweptIs(t, Abs());
    }

    /** One full pass from a stage in agreement. Every queued root is found at its event. */
    method Pass() returns (ghost rounds: seq<seq<Address>>)
      requires Valid()
      modifies this, tree, store
      ensures Valid() && leaving == [] && moduleQueue == [] && sessionQueue == [] && doomed == {}
      ensures RootsFound(old(tree.ents), old(tree.index), old(doomed), old(leaving))
      ensures |rounds| == |old(leaving)| && Rounds(old(Abs()), old(leaving), rounds)
      ensures announced == old(announced) + Broadcasts(old(cables), Flat(rounds)) && Survives(old(Abs()), Abs())
      ensures tree.ents == old(tree.ents) - old(doomed) && tree.index == Erased(old(tree.index), old(doomed))
      ensures Abs() == Swept(DestroyedAll(old(Abs()), Flat(rounds)))
      ensures Recounted(old(Abs()), RunQueues, Abs()) && Accounted(old(Abs()), Abs())
    {
      hide Sane, Due, Rounds, Flat, DestroyedAll, Recounted, Accounted, Survives, Mirrors, PlugsOf, LookupOf, Erased,
           Closed, Broadcasts;
      hide Moves.WellFormed, NoStale, Matching, RootsFound, AfterDestroy, Released;
      ghost var s := Abs();
      rounds := DrainQueues();
      ghost var t := DestroyedAll(s, Flat(rounds));
      EventsSane(s, t, rounds);
      PassSurvives(s, t, rounds);
      SweptInv(t);
      KeptIds(s, t, Flat(rounds));
    }

    // ---------------------------------------------------------------- a leave and the pass after it

    /** A component or performer leaves a stage without pending leaves: after one pass exactly the active cables without
        an end in its subtree remain, and each active cable with one was announced exactly once. */
    method LeaveThenPass(path: Path) returns (ghost b: seq<Address>)
      requires Valid() && leaving == [] && path in tree.index && MayLeave(path)
               && Container(tree.ents[tree.index[path]].kind)
      modifies this, tree, store
      ensures path != [] && Valid() && leaving == [] && moduleQueue == []
      ensures forall a {:trigger a in cables} :: a in cables <==>
                a in old(cables) && old(cables)[a].status == ACTIVATED && !Touches(old(Abs()), path, a)
      ensures announced == old(announced) + Broadcasts(old(cables), b) && Distinct(b)
      ensures forall a {:trigger a in b} :: a in b <==>
                a in old(cables) && old(cables)[a].status == ACTIVATED && Touches(old(Abs()), path, a)
      ensures forall p {:trigger p in Abs().plugs} :: p in Abs().plugs <==>
                p in old(Abs()).plugs && !(old(Abs()).plugs[p].leaving || path <= old(Abs()).plugs[p].uri)
    {
      hide Inv, Rounds, Flat, Touches, Distinct, Mirrors, PlugsOf, LookupOf, Grounded, Landed, Left, Broadcasts,
           Recounted, Accounted;
      hide Moves.WellFormed, ClearLanding, Untouched, RootsFound, Erased, Attaching.NamesApart;
      ghost var s := Abs();
      NoPlugThere(tree.ents, tree.index, jacks, doomed, leaving, path);
      hide NoKey;
      var r := Leave(path);
      ghost var t := Abs();
      ghost var rounds := Pass();
      b := Flat(rounds);
      LeaveOutcome(s, t, path, rounds);
    }

    /** A plug leaves on its own, then the queues run: the stage is in agreement afterwards exactly when the plug left
        no active cable that the pass spared. Each cable it did leave stays active without that end, unannounced by the
        pass. */
    method LeavePlugThenPass(path: Path)
      requires Valid() && path in tree.index && MayLeave(path) && tree.ents[tree.index[path]].kind == PLUG
      modifies this, tree, store
      ensures path != [] && old(tree.index)[path] in old(Abs()).plugs
      ensures var p := old(tree.index)[path];
              var t := Shifted(old(Abs()), p, Landing(path));
              && (Inv(Abs()) <==> forall a {:trigger LeftBehind(t, p, a)} :: !LeftBehind(t, p, a))
              && (forall a {:trigger LeftBehind(t, p, a)} :: LeftBehind(t, p, a) ==>
                    a in cables && cables[a].status == ACTIVATED && p !in Abs().plugs
                      && (cables[a].inp == p || cables[a].out == p))
              && (forall a {:trigger LeftBehind(t, p, a)} :: LeftBehind(t, p, a) ==>
                    Broadcast(a, cables[a].id) !in announced)
      ensures old(leaving) == [] ==> (Inv(Abs()) <==> old(jacks)[old(tree.index)[path]].held == {})
      ensures InTree() && Mirrored() && reaper == [] && leaving == []
    {
      hide Sane, Inv, Rounds, Flat, DestroyedAll, Mirrors, PlugsOf, LookupOf, Grounded, Shifted, LeftBehind, Swept,
           AfterDestroy;
      hide Moves.WellFormed, NoKey, Attaching.NamesApart, Erased;
      ghost var s, p := Abs(), tree.index[path];
      ghost var j, a, d := jacks, tree.ents, doomed;
      hide Matching, Indexed;
      TreeParts(a, tree.index, j, d, leaving);
      PlugIs(a, j, p);
      LeavePlug(path);
      HeldIs(j, a, d, p);
      ghost var t := Abs();
      ghost var rounds := DrainQueues();
      ghost var u := DestroyedAll(t, Flat(rounds));
      EventsSane(t, u, rounds);
      AloneOutcome(s, t, u, p, Landing(path), rounds);
      SweptQuiet(u);
      MovedLeaves(s, t, p, Landing(path));
      forall a {:trigger LeftBehind(t, p, a)} | LeftBehind(t, p, a)
        ensures a in cables && cables[a].status == ACTIVATED && p !in Abs().plugs
                && (cables[a].inp == p || cables[a].out == p)
        ensures Broadcast(a, cables[a].id) !in announced
      {
        AloneStrands(t, u, p, rounds, a);
        AloneUnannounced(t, u, p, rounds, a);
      }
      if s.leaving == [] { AloneQuiet(s, t, p, Landing(path)); }
    }

    // ---------------------------------------------------------------- runs

    /** The request is one that the model follows to its end: nothing crashes, an entity arrives under a parent that
        stays, a leaving subtree keeps clear of other names, and a plug that leaves on its own holds no cable. */
    predicate Served(q: Request)
      reads this, tree
    {
      match q
      case Connect(input, output) =>
        var a := AddressOf(CableOrder.Key(input, output));
        a in cables || !Attachable(jacks, tree.index, a) || BothPerformers(a)
      case NewEntity(uri, kind, isInput, max) => Expected(Uri.Split(uri), kind)
      case LeaveStage(uri) => MayLeave(Uri.Split(uri))
        && (Uri.Split(uri) in tree.index ==> Quiet(tree.index[Uri.Split(uri)]))
      case _ => true
    }

    /** A container, or a plug that holds no cable. */
    predicate Quiet(e: Id)
      reads this, tree
    {
      e in tree.ents && (Container(tree.ents[e].kind)
        || (tree.ents[e].kind == PLUG && e in jacks && jacks[e].held == {}))
    }

    /** What a run follows: every destroy request and every pass; every connect request but one at which the code
        crashes; every arrival that is refused or has a parent that stays; every leave of a path that is not registered,
        of a plug that holds nothing and lands where it can, and of a container whose subtree lands clear of other
        names. */
    lemma WhatIsServed(input: string, output: string, uri: string, kind: Kind, isInput: bool, max: int)
      requires InTree()
      ensures Served(Disconnect(input, output)) && Served(RunQueues)
      ensures Served(Connect(input, output)) <==>
                !ConnectAnswer(tree.ents, tree.index, jacks, cables, Uri.Split(input), Uri.Split(output), CRASH)
      ensures kind != FACTORY && (Uri.Split(uri) in tree.index || (kind != PERFORMER && |Uri.Split(uri)| < 2) ||
                MayArrive(tree.ents, tree.index, doomed, Uri.Split(uri), kind)) ==>
                Served(NewEntity(uri, kind, isInput, max))
      ensures Uri.Split(uri) !in tree.index ==> Served(LeaveStage(uri))
      ensures Uri.Split(uri) in tree.index ==>
                var e := tree.index[Uri.Split(uri)];
                Served(LeaveStage(uri)) <==>
                  && (|Uri.Split(uri)| >= 2 ==> NoKey(tree.ents, tree.index, [Last(Uri.Split(uri))]))
                  && e in tree.ents && tree.ents[e].uri != []
                  && if Container(tree.ents[e].kind) then |Uri.Split(uri)| >= 2 ==>
                       Attaching.NamesApart(tree.ents, tree.index, e)
                     else tree.ents[e].kind == PLUG && e in jacks && jacks[e].held == {}
    {
      AddressIs(input, output);
      AnswerIs(tree.ents, tree.index, jacks, doomed, leaving, cables, Address(Uri.Split(input), Uri.Split(output)));
      TreeParts(tree.ents, tree.index, jacks, doomed, leaving);
      if Uri.Split(uri) in tree.index { Registered(tree.ents, tree.index, Uri.Split(uri)); }
      hide Grounded, Moves.WellFormed, Attaching.NamesApart, NoKey, MayArrive;
    }

    /** A registered entity leaves: which of the two ways depends on its kind. */
    method ServeLeave(uri: string)
      requires Valid() && Served(LeaveStage(uri))
      modifies this, tree
      ensures Valid() && Recounted(old(Abs()), LeaveStage(uri), Abs()) && Accounted(old(Abs()), Abs())
      ensures Departs(old(Now()), Now(), Uri.Split(uri))
    {
      hide Inv, Mirrors, Recounted, Accounted, PlugsOf, LookupOf, Grounded, Landed, Sane, NoKey, Attaching.NamesApart,
           Moves.WellFormed, MovedPlugs, Departs;
      ghost var s := Abs();
      var path := Uri.Split(uri);
      if path in tree.index && tree.ents[tree.index[path]].kind == PLUG {
        LeavePlug(path);
      } else {
        var r := Leave(path);
      }
      QuietStep(s, LeaveStage(uri), Abs());
    }

    /** One request of a run. */
    method Serve(q: Request)
      requires Valid() && Served(q)
      modifies this, tree, store
      ensures Valid() && Recounted(old(Abs()), q, Abs()) && Accounted(old(Abs()), Abs())
      ensures Follows(old(Now()), q, Now())
    {
      hide Inv, Mirrors, Recounted, Accounted, PlugsOf, LookupOf, Grounded, NoKey, Attaching.NamesApart, MayArrive,
           AddressOf, Arrives, Departs, CableGone, NewCable, CarriedOut, Joined, Swept, Plugable;
      hide Added, Arrived, Created, DestroyedAll, Destroyed, Evicts, InBothSets, Rounds, Flat, Survives, Broadcasts,
           Erased, RootsFound;
      ghost var s := Abs();
      match q {
        case Connect(input, output) =>
          AddressIs(input, output);
          PlugableIs(s, jacks, tree.ents, tree.index, doomed, AddressOf(CableOrder.Key(input, output)));
          AnswerIs(tree.ents, tree.index, jacks, doomed, leaving, cables, AddressOf(CableOrder.Key(input, output)));
          var r, bundle := CreateCableHandler(input, output);
        case Disconnect(input, output) => var r := DestroyCableHandler(input, output);
        case NewEntity(uri, kind, isInput, max) => var added := AddEntity(uri, kind, isInput, max);
        case LeaveStage(uri) => ServeLeave(uri);
        case RunQueues => var rounds := Pass();
      }
    }

    /** A run serves requests until one comes that the model does not follow: the invariant holds in every state,
        whatever is gone was announced, and a cable object was announced twice exactly when a request of the run
        repeated it. */
    method Run(requests: seq<Request>) returns (n: nat, ghost trace: seq<State>, ghost moments: seq<Moment>)
      requires Valid()
      modifies this, tree, store
      ensures Valid() && n <= |requests| && |trace| == n + 1 && trace[0] == old(Abs()) && trace[n] == Abs()
      ensures n < |requests| ==> !Served(requests[n])
      ensures forall k {:trigger trace[k]} :: 0 <= k <= n ==> Inv(trace[k]) && Accounted(old(Abs()), trace[k])
      ensures |moments| == n + 1 && moments[0] == old(Now()) && moments[n] == Now()
      ensures forall k {:trigger moments[k]} :: 0 <= k <= n ==> moments[k].state == trace[k]
      ensures forall k {:trigger requests[k]} :: 0 <= k < n ==> Follows(moments[k], requests[k], moments[k + 1])
      ensures forall a, c {:trigger Twice(Abs(), a, c)} :: Twice(Abs(), a, c) <==>
                Twice(old(Abs()), a, c) || exists k {:trigger trace[k]} ::
                  0 <= k < n && RepeatsObject(trace[k], requests[k], a, c)
    {
      hide Inv, Mirrors, Recounted, Accounted, RepeatsObject, Twice, PlugsOf, LookupOf, Grounded, Served, Follows;
      ghost var s := Abs();
      n, trace, moments := 0, [s], [Now()];
      SelfAccounted(s);
      assert RunCounts(s, trace, requests, s, 0);
      while n < |requests| && Served(requests[n])
        invariant Valid() && n <= |requests| && |trace| == n + 1 && trace[0] == s && trace[n] == Abs()
        invariant forall k {:trigger trace[k]} :: 0 <= k <= n ==> Inv(trace[k]) && Accounted(s, trace[k])
        invariant RunCounts(s, trace, requests, Abs(), n)
        invariant |moments| == n + 1 && moments[0] == old(Now()) && moments[n] == Now()
        invariant forall k {:trigger moments[k]} :: 0 <= k <= n ==> moments[k].state == trace[k]
        invariant forall k {:trigger requests[k]} :: 0 <= k < n ==> Follows(moments[k], requests[k], moments[k + 1])
        decreases |requests| - n
      {
        ghost var t := Abs();
        Serve(requests[n]);
        AccountedTwice(s, t, Abs());
        RunCountsNext(s, trace, requests, t, Abs(), n);
        trace := trace + [Abs()];
        moments := moments + [Now()];
        n := n + 1;
      }
      RunCountsDone(s, trace, requests, Abs(), n);
    }
  }
}
