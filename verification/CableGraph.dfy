/** The stage's cables: the session's set, each plug's own set, and the queues through which a cable goes away. */
module CableGraph {
  import opened Common
  import opened EntityTree

  datatype Status = ACTIVATED | DEACTIVATION_QUEUED | DEACTIVATED

  /** Entries of a cable's own event queue. */
  datatype Job = Deactivate | Destroy

  /** A cable object: its identity, its two plugs, its status and its own queue. */
  datatype Cable = Cable(id: nat, inp: Id, out: Id, status: Status, queue: seq<Job>)

  /** A plug object. `leaving` is set once its deactivation is queued. */
  datatype Plug = Plug(uri: Path, input: bool, limit: nat, held: set<Address>, leaving: bool)

  /** A destroy broadcast carries an address; `cable` records which object it was sent for. */
  datatype Broadcast = Broadcast(address: Address, cable: nat)

  datatype Notice = CableCreated(address: Address) | CableDestroyed(address: Address)

  datatype State = State(
    plugs: map<Id, Plug>, lookup: map<Path, Id>, cables: map<Address, Cable>,
    sessionQueue: seq<Notice>, moduleQueue: seq<Address>,
    leaving: seq<Path>,              // deferred leaving events
    announced: seq<Broadcast>,       // destroy broadcasts, oldest first
    made: nat)                       // cables made so far

  // ---------------------------------------------------------------- destroying a cable

  /** Plug `p` is the one the hierarchy finds at its side of address `a`. */
  predicate AtAddress(s: State, p: Id, a: Address) {
    && p in s.plugs
    && ((a.input in s.lookup && s.lookup[a.input] == p && s.plugs[p].input) ||
        (a.output in s.lookup && s.lookup[a.output] == p && !s.plugs[p].input))
  }

  /** remove_cable on the plug found at `u`, if it is of the right direction. */
  function Unplugged(plugs: map<Id, Plug>, lookup: map<Path, Id>, u: Path, input: bool, a: Address): map<Id, Plug> {
    if u in lookup && lookup[u] in plugs && plugs[lookup[u]].input == input then
      plugs[lookup[u] := plugs[lookup[u]].(held := plugs[lookup[u]].held - {a})]
    else plugs
  }

  /** enqueue_deactivation: the two jobs join the cable's own queue. */
  function Queued(c: Cable): Cable { c.(status := DEACTIVATION_QUEUED, queue := c.queue + [Deactivate, Destroy]) }

  /** destroy_cable: broadcast, unplug both ends that are found, notify, and queue the deactivation unless queued. */
  function Destroyed(s: State, a: Address): State {
    if a !in s.cables then s
    else
      var active := s.cables[a].status == ACTIVATED;
      s.(announced := s.announced + [Broadcast(a, s.cables[a].id)],
         plugs := Unplugged(Unplugged(s.plugs, s.lookup, a.input, true, a), s.lookup, a.output, false, a),
         sessionQueue := s.sessionQueue + [CableDestroyed(a)],
         cables := if active then s.cables[a := Queued(s.cables[a])] else s.cables,
         moduleQueue := if active then s.moduleQueue + [a] else s.moduleQueue)
  }

  function DestroyedAll(s: State, bundle: seq<Address>): State {
    if bundle == [] then s else Destroyed(DestroyedAll(s, bundle[..|bundle| - 1]), bundle[|bundle| - 1])
  }

  function Broadcasts(cables: map<Address, Cable>, bundle: seq<Address>): seq<Broadcast> {
    if bundle == [] then []
    else
      var a := bundle[|bundle| - 1];
      Broadcasts(cables, bundle[..|bundle| - 1]) + if a in cables then [Broadcast(a, cables[a].id)] else []
  }

  /** `t` is `s` with the cables of `bundle` destroyed: each plug keeps what it held, less what was found at its own
      address; every cable of the bundle is queued; nothing else about plugs and cables changed. */
  ghost predicate AfterDestroy(s: State, t: State, bundle: seq<Address>) {
    PlugsAfter(s, t, bundle) && CablesAfter(s, t, bundle)
  }

  ghost predicate PlugsAfter(s: State, t: State, bundle: seq<Address>) {
    && t.lookup == s.lookup && t.leaving == s.leaving && t.plugs.Keys == s.plugs.Keys
    && (forall p {:trigger t.plugs[p]} :: p in s.plugs ==> t.plugs[p] == s.plugs[p].(held := t.plugs[p].held))
    && (forall p, a {:trigger a in t.plugs[p].held} :: p in s.plugs ==>
          (a in t.plugs[p].held <==> a in s.plugs[p].held && !(a in bundle && AtAddress(s, p, a))))
  }

  ghost predicate CablesAfter(s: State, t: State, bundle: seq<Address>) {
    && t.cables.Keys == s.cables.Keys
    && (forall a {:trigger t.cables[a]} :: a in s.cables ==>
          t.cables[a] == if a in bundle && s.cables[a].status == ACTIVATED then Queued(s.cables[a]) else s.cables[a])
    && t.announced == s.announced + Broadcasts(s.cables, bundle) && t.made == s.made
  }

  lemma DestroyOne(s: State, a: Address)
    requires a in s.cables
    ensures AfterDestroy(s, Destroyed(s, a), [a])
  {
    OneBroadcast(s.cables, a);
    hide Broadcasts;
  }

  lemma OneBroadcast(cables: map<Address, Cable>, a: Address)
    requires a in cables
    ensures Broadcasts(cables, [a]) == [Broadcast(a, cables[a].id)]
  {
    assert [a][..0] == [];
  }

  lemma AtAddressSame(s: State, t: State, p: Id, a: Address)
    requires t.lookup == s.lookup && t.plugs.Keys == s.plugs.Keys
    requires p in s.plugs ==> t.plugs[p].input == s.plugs[p].input
    ensures AtAddress(t, p, a) <==> AtAddress(s, p, a)
  {}

  lemma PlugsMore(s: State, t: State, u: State, bundle: seq<Address>, a: Address)
    requires PlugsAfter(s, t, bundle) && PlugsAfter(t, u, [a])
    ensures PlugsAfter(s, u, bundle + [a])
  {
    forall p, b | p in s.plugs ensures AtAddress(t, p, b) <==> AtAddress(s, p, b) { AtAddressSame(s, t, p, b); }
    hide AtAddress;
    assert forall b :: b in bundle + [a] <==> b in bundle || b == a;
  }

  lemma CablesMore(s: State, t: State, u: State, bundle: seq<Address>, a: Address)
    requires CablesAfter(s, t, bundle) && CablesAfter(t, u, [a]) && a in s.cables
    ensures CablesAfter(s, u, bundle + [a])
  {
    OneBroadcast(t.cables, a);
    assert (bundle + [a])[..|bundle|] == bundle && t.cables[a].id == s.cables[a].id;
    assert Broadcasts(s.cables, bundle + [a]) == Broadcasts(s.cables, bundle) + [Broadcast(a, s.cables[a].id)];
    hide Broadcasts;
    assert forall b :: b in bundle + [a] <==> b in bundle || b == a;
  }

  lemma DestroyNone(s: State)
    ensures AfterDestroy(s, s, [])
  {}

  lemma {:induction false} DestroyAll(s: State, bundle: seq<Address>)
    requires forall a {:trigger a in bundle} :: a in bundle ==> a in s.cables
    ensures AfterDestroy(s, DestroyedAll(s, bundle), bundle)
  {
    hide PlugsAfter, CablesAfter, Destroyed;
    if bundle == [] {
      DestroyNone(s);
    } else {
      var b, a := bundle[..|bundle| - 1], bundle[|bundle| - 1];
      assert forall x {:trigger x in b} :: x in b ==> x in bundle;
      DestroyAll(s, b);
      var t := DestroyedAll(s, b);
      assert a in bundle && a in s.cables;
      SameCables(s, t, b);
      DestroyOne(t, a);
      PlugsMore(s, t, Destroyed(t, a), b, a);
      CablesMore(s, t, Destroyed(t, a), b, a);
      assert b + [a] == bundle;
    }
  }

  lemma SameCables(s: State, t: State, bundle: seq<Address>)
    requires CablesAfter(s, t, bundle)
    ensures t.cables.Keys == s.cables.Keys
  {}

  // ---------------------------------------------------------------- the invariant

  /** The lookup is the inverse of the plugs' paths. */
  ghost predicate Found(s: State) {
    && (forall p {:trigger s.plugs[p]} :: p in s.plugs ==> s.plugs[p].uri in s.lookup && s.lookup[s.plugs[p].uri] == p)
    && (forall u {:trigger s.lookup[u]} :: u in s.lookup ==> s.lookup[u] in s.plugs && s.plugs[s.lookup[u]].uri == u)
  }

  /** Both ends of a cable exist, point the right way and, unless they are leaving, sit at the cable's address. */
  ghost predicate Ends(s: State) {
    forall a {:trigger s.cables[a]} :: a in s.cables ==>
      && s.cables[a].inp in s.plugs && s.plugs[s.cables[a].inp].input
           && (!s.plugs[s.cables[a].inp].leaving ==> s.plugs[s.cables[a].inp].uri == a.input)
      && s.cables[a].out in s.plugs && !s.plugs[s.cables[a].out].input
           && (!s.plugs[s.cables[a].out].leaving ==> s.plugs[s.cables[a].out].uri == a.output)
  }

  /** An address in a plug's set names a cable that ends there; a plug that is not leaving holds active cables only. */
  ghost predicate Named(s: State) {
    forall p, a {:trigger a in s.plugs[p].held} :: p in s.plugs && a in s.plugs[p].held ==>
      && a in s.cables && (s.cables[a].inp == p || s.cables[a].out == p)
      && (!s.plugs[p].leaving ==> s.cables[a].status == ACTIVATED)
  }

  /** An active cable is in both its ends' sets. */
  ghost predicate Plugged(s: State) {
    forall a {:trigger s.cables[a]} :: a in s.cables && s.cables[a].status == ACTIVATED ==>
      && s.cables[a].inp in s.plugs && a in s.plugs[s.cables[a].inp].held
      && s.cables[a].out in s.plugs && a in s.plugs[s.cables[a].out].held
  }

  /** The module queue holds each queued cable once and nothing else; a queued cable has its two jobs to do; what the
      session queue says was created exists. */
  ghost predicate Queues(s: State) {
    && Distinct(s.moduleQueue)
    && (forall a {:trigger a in s.moduleQueue} {:trigger s.cables[a]} :: a in s.moduleQueue <==>
          a in s.cables && s.cables[a].status == DEACTIVATION_QUEUED)
    && (forall a {:trigger s.cables[a]} :: a in s.cables ==>
          s.cables[a].status != DEACTIVATED && s.cables[a].queue == if s.cables[a].status == ACTIVATED then []
            else [Deactivate, Destroy])
    && (forall n {:trigger n in s.sessionQueue} :: n in s.sessionQueue && n.CableCreated? ==> n.address in s.cables)
  }

  /** An input plug that is not leaving holds no more cables than its limit; a limit of 0 acts as 1. */
  ghost predicate Capacity(s: State) {
    forall p {:trigger s.plugs[p]} :: p in s.plugs && s.plugs[p].input && !s.plugs[p].leaving ==>
      |s.plugs[p].held| <= if s.plugs[p].limit == 0 then 1 else s.plugs[p].limit
  }

  /** Plug `p` lies under a root whose leaving event is still queued. */
  ghost predicate UnderRoot(s: State, p: Id)
    requires p in s.plugs
  {
    exists r {:trigger r in s.leaving} :: r in s.leaving && r <= s.plugs[p].uri
  }

  /** A leaving plug lies under such a root, or it left on its own, sits at the top level and holds nothing. */
  ghost predicate Due(s: State) {
    forall p {:trigger s.plugs[p]} :: p in s.plugs && s.plugs[p].leaving ==>
      UnderRoot(s, p) || (|s.plugs[p].uri| == 1 && s.plugs[p].held == {})
  }

  /** Cable objects are told apart by their ids; an object that was announced is no longer active, and one that is no
      longer active was announced. */
  ghost predicate Counted(s: State) { Numbered(s.cables, s.made) && Logged(s.cables, s.announced, s.made) }

  ghost predicate Numbered(cables: map<Address, Cable>, made: nat) {
    && (forall a {:trigger cables[a]} :: a in cables ==> cables[a].id < made)
    && (forall a, b {:trigger cables[a].id, cables[b].id} ::
          a in cables && b in cables && cables[a].id == cables[b].id ==> a == b)
  }

  ghost predicate Logged(cables: map<Address, Cable>, announced: seq<Broadcast>, made: nat) {
    && (forall b {:trigger b in announced} :: b in announced ==> b.cable < made)
    && (forall a {:trigger cables[a]} :: a in cables ==>
          (cables[a].status != ACTIVATED <==> Broadcast(a, cables[a].id) in announced))
  }

  /** All of the invariant that does not depend on the leaving events. */
  ghost predicate Sane(s: State) {
    Found(s) && Ends(s) && Named(s) && Plugged(s) && Queues(s) && Capacity(s) && Counted(s)
  }

  ghost predicate Inv(s: State) { Sane(s) && Due(s) }

  lemma FewerHeld(x: set<Address>, y: set<Address>)
    requires x <= y
    ensures |x| <= |y|
  {
    assert y == x + (y - x);
  }

  lemma DestroyKeepsEnds(s: State, t: State, a: Address)
    requires AfterDestroy(s, t, [a]) && Found(s) && Ends(s)
    ensures Found(t) && Ends(t)
  {}

  lemma DestroyKeepsSets(s: State, t: State, a: Address)
    requires AfterDestroy(s, t, [a]) && Found(s) && Ends(s) && Named(s) && Plugged(s) && a in s.cables
    ensures Named(t) && Plugged(t)
  {
    var c := s.cables[a];
    assert !s.plugs[c.inp].leaving ==> AtAddress(s, c.inp, a);
    assert !s.plugs[c.out].leaving ==> AtAddress(s, c.out, a);
    hide AtAddress;
    assert forall b {:trigger b in [a]} :: b in [a] <==> b == a;
  }

  lemma DestroyKeepsCapacity(s: State, t: State, a: Address)
    requires AfterDestroy(s, t, [a]) && Capacity(s)
    ensures Capacity(t) && (Due(s) ==> Due(t))
  {
    forall p {:trigger t.plugs[p]} | p in t.plugs && t.plugs[p].input && !t.plugs[p].leaving
      ensures |t.plugs[p].held| <= if t.plugs[p].limit == 0 then 1 else t.plugs[p].limit
    {
      assert t.plugs[p].held <= s.plugs[p].held by { assert forall b :: b in t.plugs[p].held ==> b in s.plugs[p].held; }
      FewerHeld(t.plugs[p].held, s.plugs[p].held);
    }
    if Due(s) { DestroyKeepsDue(s, t, a); }
  }

  lemma DestroyKeepsDue(s: State, t: State, a: Address)
    requires PlugsAfter(s, t, [a]) && Due(s)
    ensures Due(t)
  {
    hide AtAddress;
    forall p {:trigger t.plugs[p]} | p in t.plugs && t.plugs[p].leaving
      ensures UnderRoot(t, p) || (|t.plugs[p].uri| == 1 && t.plugs[p].held == {})
    {
      assert t.plugs[p] == s.plugs[p].(held := t.plugs[p].held);
      if UnderRoot(s, p) {
        var r :| r in s.leaving && r <= s.plugs[p].uri;
        assert r in t.leaving;
      } else {
        assert forall b {:trigger b in t.plugs[p].held} :: b !in t.plugs[p].held;
      }
    }
  }

  lemma DestroyKeepsQueues(s: State, a: Address)
    requires Queues(s) && a in s.cables
    ensures Queues(Destroyed(s, a))
  {
    hide Unplugged;
    if s.cables[a].status == ACTIVATED { ActiveQueued(s, Destroyed(s, a), a); }
    hide Distinct;
  }

  lemma ActiveQueued(s: State, t: State, a: Address)
    requires Queues(s) && a in s.cables && s.cables[a].status == ACTIVATED
    requires t.cables == s.cables[a := Queued(s.cables[a])]
    requires t.moduleQueue == s.moduleQueue + [a] && t.sessionQueue == s.sessionQueue + [CableDestroyed(a)]
    ensures Queues(t)
  {
    assert a !in s.moduleQueue && Distinct(t.moduleQueue);
    hide Distinct;
    assert forall b {:trigger b in t.moduleQueue} :: b in t.moduleQueue <==> b in s.moduleQueue || b == a;
    assert forall b {:trigger t.cables[b]} :: b in s.cables && b != a ==> t.cables[b] == s.cables[b];
  }

  lemma RequeueLogged(cables: map<Address, Cable>, more: map<Address, Cable>, log: seq<Broadcast>, made: nat,
        a: Address)
    requires Logged(cables, log, made) && Numbered(cables, made) && a in cables && a in more
             && more == cables[a := more[a]]
    requires more[a].id == cables[a].id && more[a].status != ACTIVATED
    ensures Logged(more, log + [Broadcast(a, cables[a].id)], made) && Numbered(more, made)
  {
    var b0 := Broadcast(a, cables[a].id);
    assert forall b {:trigger b in log + [b0]} :: b in log + [b0] <==> b in log || b == b0;
    assert forall b {:trigger more[b]} :: b in more && b != a ==> more[b] == cables[b];
  }

  lemma DestroyKeepsCount(s: State, a: Address)
    requires Counted(s) && Queues(s) && a in s.cables
    ensures Counted(Destroyed(s, a))
  {
    hide Distinct, Numbered, Logged;
    var t := Destroyed(s, a);
    assert s.cables[a].status != DEACTIVATED;
    hide Queues, Unplugged;
    assert t.cables == s.cables[a := t.cables[a]];
    RequeueLogged(s.cables, t.cables, s.announced, s.made, a);
  }

  lemma DestroySane(s: State, a: Address)
    requires Sane(s) && a in s.cables
    ensures Sane(Destroyed(s, a)) && AfterDestroy(s, Destroyed(s, a), [a]) && (Due(s) ==> Due(Destroyed(s, a)))
  {
    hide Found, Ends, Named, Plugged, Queues, Capacity, Counted, PlugsAfter, CablesAfter, Destroyed, Due;
    DestroyOne(s, a);
    DestroyKeepsEnds(s, Destroyed(s, a), a);
    DestroyKeepsSets(s, Destroyed(s, a), a);
    DestroyKeepsCapacity(s, Destroyed(s, a), a);
    DestroyKeepsQueues(s, a);
    DestroyKeepsCount(s, a);
  }

  lemma DestroyInv(s: State, a: Address)
    requires Inv(s) && a in s.cables
    ensures Inv(Destroyed(s, a)) && AfterDestroy(s, Destroyed(s, a), [a])
  {
    hide Sane, Due, AfterDestroy, Destroyed;
    DestroySane(s, a);
  }

  lemma {:induction false} DestroyAllSane(s: State, bundle: seq<Address>)
    requires Sane(s) && forall a {:trigger a in bundle} :: a in bundle ==> a in s.cables
    ensures Sane(DestroyedAll(s, bundle)) && (Due(s) ==> Due(DestroyedAll(s, bundle)))
  {
    if bundle != [] {
      var b, a := bundle[..|bundle| - 1], bundle[|bundle| - 1];
      assert forall x {:trigger x in b} :: x in b ==> x in bundle;
      DestroyAllSane(s, b);
      DestroyAll(s, b);
      assert a in bundle && a in DestroyedAll(s, b).cables;
      hide Sane, Due, AfterDestroy, Destroyed;
      DestroySane(DestroyedAll(s, b), a);
    }
  }

  // ---------------------------------------------------------------- creating a cable

  function Plugs(s: State, i: Id, o: Id, a: Address): map<Id, Plug>
    requires i in s.plugs && o in s.plugs
  {
    var first := s.plugs[i := s.plugs[i].(held := s.plugs[i].held + {a})];
    first[o := first[o].(held := first[o].held + {a})]
  }

  /** create_cable for an address that is not in use. */
  function Created(s: State, i: Id, o: Id, a: Address): State
    requires i in s.plugs && o in s.plugs
  {
    s.(cables := s.cables[a := Cable(s.made, i, o, ACTIVATED, [])], plugs := Plugs(s, i, o, a),
      sessionQueue := s.sessionQueue + [CableCreated(a)],
       made := s.made + 1)
  }

  /** Both plugs are found at the address and point the right way. */
  predicate Plugable(s: State, a: Address) {
    && a.input in s.lookup && s.lookup[a.input] in s.plugs && s.plugs[s.lookup[a.input]].input
    && a.output in s.lookup && s.lookup[a.output] in s.plugs && !s.plugs[s.lookup[a.output]].input
  }

  ghost predicate Room(s: State, i: Id)
    requires i in s.plugs
  {
    s.plugs[i].leaving || |s.plugs[i].held| < if s.plugs[i].limit == 0 then 1 else s.plugs[i].limit
  }

  /** What creating a cable does to plugs and cables, in terms of both. */
  lemma CreatedEffect(s: State, a: Address, i: Id, o: Id)
    requires i in s.plugs && o in s.plugs
    ensures var t := Created(s, i, o, a);
            && t.plugs.Keys == s.plugs.Keys && t.lookup == s.lookup
                 && t.cables == s.cables[a := Cable(s.made, i, o, ACTIVATED, [])]
            && forall p {:trigger t.plugs[p]} :: p in s.plugs ==>
                 t.plugs[p] == s.plugs[p].(held := s.plugs[p].held + if p == i || p == o then {a} else {})
  {}

  lemma CreatedEnds(s: State, a: Address, i: Id, o: Id)
    requires Found(s) && Ends(s) && a !in s.cables && Plugable(s, a) && i == s.lookup[a.input]
             && o == s.lookup[a.output]
    ensures var t := Created(s, i, o, a); Found(t) && Ends(t)
  {
    CreatedEffect(s, a, i, o);
    hide Created;
  }

  lemma CreatedNamed(s: State, a: Address, i: Id, o: Id)
    requires Named(s) && a !in s.cables && i in s.plugs && o in s.plugs
    ensures Named(Created(s, i, o, a))
  {
    var t := Created(s, i, o, a);
    CreatedEffect(s, a, i, o);
    hide Created;
    forall p, b {:trigger b in t.plugs[p].held} | p in t.plugs && b in t.plugs[p].held
      ensures b in t.cables && (t.cables[b].inp == p || t.cables[b].out == p)
              && (!t.plugs[p].leaving ==> t.cables[b].status == ACTIVATED)
    {
      if b != a { assert b in s.plugs[p].held; }
    }
  }

  lemma CreatedPlugged(s: State, a: Address, i: Id, o: Id)
    requires Plugged(s) && a !in s.cables && i in s.plugs && o in s.plugs
    ensures Plugged(Created(s, i, o, a))
  {
    CreatedEffect(s, a, i, o);
    hide Created;
  }

  lemma CreatedQueues(s: State, a: Address, i: Id, o: Id)
    requires Queues(s) && a !in s.cables && i in s.plugs && o in s.plugs
    ensures Queues(Created(s, i, o, a))
  {
    hide Distinct;
  }

  lemma CreatedCapacity(s: State, a: Address, i: Id, o: Id)
    requires Capacity(s) && i in s.plugs && o in s.plugs && s.plugs[i].input && !s.plugs[o].input && Room(s, i)
    ensures Capacity(Created(s, i, o, a))
  {
    assert |s.plugs[i].held + {a}| <= |s.plugs[i].held| + 1;
  }

  lemma CreatedDue(s: State, a: Address, i: Id, o: Id)
    requires Due(s) && i in s.plugs && o in s.plugs && |s.plugs[i].uri| != 1 && |s.plugs[o].uri| != 1
    ensures Due(Created(s, i, o, a))
  {
    var t := Created(s, i, o, a);
    CreatedEffect(s, a, i, o);
    hide Created;
    assert t.leaving == s.leaving by { CreatedLeaving(s, a, i, o); }
    forall p {:trigger t.plugs[p]} | p in t.plugs && t.plugs[p].leaving
      ensures UnderRoot(t, p) || (|t.plugs[p].uri| == 1 && t.plugs[p].held == {})
    {
      assert s.plugs[p].leaving;
      if UnderRoot(s, p) {
        var r :| r in s.leaving && r <= s.plugs[p].uri;
        assert r in t.leaving;
      }
    }
  }

  lemma CreatedLeaving(s: State, a: Address, i: Id, o: Id)
    requires i in s.plugs && o in s.plugs
    ensures Created(s, i, o, a).leaving == s.leaving
  {}

  lemma CreatedCount(s: State, a: Address, i: Id, o: Id)
    requires Counted(s) && a !in s.cables && i in s.plugs && o in s.plugs
    ensures Counted(Created(s, i, o, a))
  {}

  lemma CreatedInv(s: State, a: Address, i: Id, o: Id)
    requires Inv(s) && a !in s.cables && Plugable(s, a) && i == s.lookup[a.input] && o == s.lookup[a.output]
             && Room(s, i)
    requires |s.plugs[i].uri| != 1 && |s.plugs[o].uri| != 1
    ensures Inv(Created(s, i, o, a))
  {
    hide Found, Ends, Named, Plugged, Queues, Capacity, Counted, Due, Created, Room;
    CreatedCount(s, a, i, o);
    CreatedDue(s, a, i, o);
    CreatedEnds(s, a, i, o);
    CreatedNamed(s, a, i, o);
    CreatedPlugged(s, a, i, o);
    CreatedQueues(s, a, i, o);
    CreatedCapacity(s, a, i, o);
  }

  /** Destroying all that a plug holds empties it, if it is not leaving. */
  lemma ClearedPlug(s: State, i: Id, bundle: seq<Address>)
    requires Found(s) && Ends(s) && Named(s) && i in s.plugs && !s.plugs[i].leaving
    requires forall a {:trigger a in bundle} :: a in bundle ==> a in s.cables
    requires forall a {:trigger a in s.plugs[i].held} :: a in s.plugs[i].held ==> a in bundle
    ensures DestroyedAll(s, bundle).plugs.Keys == s.plugs.Keys && DestroyedAll(s, bundle).plugs[i].held == {}
  {
    DestroyAll(s, bundle);
    hide DestroyedAll;
    forall a | a in s.plugs[i].held ensures AtAddress(s, i, a) { assert a in s.cables; }
    hide AtAddress;
    var t := DestroyedAll(s, bundle);
    assert forall a :: a !in t.plugs[i].held;
  }

  // ---------------------------------------------------------------- an entity leaves

  function Landing(path: Path): Path
    requires path != []
  {
    if |path| >= 2 then [Last(path)] else path
  }

  /** The plugs once the entity at `path` was taken from its parent and its subtree queued for deactivation. */
  function MovedPlugs(plugs: map<Id, Plug>, path: Path): map<Id, Plug>
    requires path != []
  {
    map p | p in plugs ::
      if path <= plugs[p].uri then plugs[p].(uri := Rebase(plugs[p].uri, path, Landing(path)), leaving := true)
      else plugs[p]
  }

  /** No plug lies where the subtree lands, unless it does not move at all. */
  predicate ClearLanding(plugs: map<Id, Plug>, path: Path)
    requires path != []
  {
    |path| >= 2 ==> forall p {:trigger plugs[p]} :: p in plugs ==> !([Last(path)] <= plugs[p].uri)
  }

  ghost predicate Left(s: State, t: State, path: Path)
    requires path != []
  {
    t == s.(plugs := MovedPlugs(s.plugs, path), leaving := s.leaving + [Landing(path)], lookup := t.lookup)
  }

  lemma LeftSets(s: State, t: State, path: Path)
    requires path != [] && Left(s, t, path) && Ends(s) && Named(s) && Plugged(s)
    ensures Ends(t) && Named(t) && Plugged(t)
  {
    hide Rebase;
  }

  lemma LeftQueues(s: State, t: State, path: Path)
    requires path != [] && Left(s, t, path) && Queues(s) && Capacity(s)
    ensures Queues(t) && Capacity(t)
  {
    hide Rebase, Distinct;
  }

  lemma LeftDue(s: State, t: State, path: Path)
    requires path != [] && Left(s, t, path) && Due(s)
    ensures Due(t)
  {
    forall p {:trigger t.plugs[p]} | p in t.plugs && t.plugs[p].leaving
      ensures UnderRoot(t, p) || (|t.plugs[p].uri| == 1 && t.plugs[p].held == {})
    {
      if path <= s.plugs[p].uri {
        assert Landing(path) in t.leaving && Landing(path) <= t.plugs[p].uri;
      } else if UnderRoot(s, p) {
        var r :| r in s.leaving && r <= s.plugs[p].uri;
        assert r in t.leaving;
      }
    }
  }

  lemma LeftInv(s: State, t: State, path: Path)
    requires Inv(s) && path != [] && Found(t) && Left(s, t, path)
    ensures Inv(t)
  {
    hide Found, Ends, Named, Plugged, Queues, Capacity, Counted, Due;
    LeftSets(s, t, path);
    LeftQueues(s, t, path);
    LeftDue(s, t, path);
    SameCount(s, t);
  }

  lemma SameCount(s: State, t: State)
    requires Counted(s) && t.cables == s.cables && t.announced == s.announced && t.made == s.made
    ensures Counted(t)
  {}

  // ---------------------------------------------------------------- the leaving events of one pass

  /** Some plug under `r` holds cable `a`. */
  ghost predicate Hit(s: State, r: Path, a: Address) {
    a in s.cables && exists p {:trigger s.plugs[p]} :: p in s.plugs && r <= s.plugs[p].uri && a in s.plugs[p].held
  }

  /** disconnect_cables for one root collects each cable held below it once. */
  ghost predicate Round(s: State, r: Path, b: seq<Address>) {
    Distinct(b) && forall a {:trigger a in b} {:trigger Hit(s, r, a)} :: a in b <==> Hit(s, r, a)
  }

  function Flat(rounds: seq<seq<Address>>): seq<Address> {
    if rounds == [] then [] else Flat(rounds[..|rounds| - 1]) + rounds[|rounds| - 1]
  }

  lemma {:induction false} DestroyedTwice(s: State, x: seq<Address>, y: seq<Address>)
    ensures DestroyedAll(s, x + y) == DestroyedAll(DestroyedAll(s, x), y)
    decreases |y|
  {
    if y == [] {
      assert x + y == x;
    } else {
      assert (x + y)[..|x + y| - 1] == x + y[..|y| - 1];
      DestroyedTwice(s, x, y[..|y| - 1]);
    }
  }

  /** One round for each root, each on the state the rounds before it left. */
  ghost predicate Rounds(s: State, roots: seq<Path>, rounds: seq<seq<Address>>) {
    && |rounds| <= |roots|
    && forall i {:trigger rounds[i]} :: 0 <= i < |rounds| ==>
         Round(DestroyedAll(s, Flat(rounds[..i])), roots[i], rounds[i])
  }

  lemma {:induction false} InFlat(rounds: seq<seq<Address>>, a: Address)
    ensures a in Flat(rounds) <==> exists i {:trigger rounds[i]} :: 0 <= i < |rounds| && a in rounds[i]
  {
    if rounds != [] {
      var n := |rounds| - 1;
      InFlat(rounds[..n], a);
      if a in Flat(rounds[..n]) { var i :| 0 <= i < n && a in rounds[..n][i]; assert a in rounds[i]; }
      if a in rounds[n] { assert a in Flat(rounds); }
      if i :| 0 <= i < |rounds| && a in rounds[i] { if i < n { assert a in rounds[..n][i]; } }
    }
  }

  /** What the rounds announce was there, and round `i` finds what is still held under its root. */
  lemma {:induction false} RoundsFind(s: State, roots: seq<Path>, rounds: seq<seq<Address>>)
    requires Rounds(s, roots, rounds)
    ensures forall a {:trigger a in Flat(rounds)} :: a in Flat(rounds) ==> a in s.cables
    ensures AfterDestroy(s, DestroyedAll(s, Flat(rounds)), Flat(rounds))
    decreases |rounds|
  {
    if rounds != [] {
      var n := |rounds| - 1;
      var rest := rounds[..n];
      assert Rounds(s, roots, rest) by {
        forall i {:trigger rest[i]} | 0 <= i < |rest|
          ensures Round(DestroyedAll(s, Flat(rest[..i])), roots[i], rest[i])
        {
          assert rest[..i] == rounds[..i] && rest[i] == rounds[i];
        }
      }
      RoundsFind(s, roots, rest);
      assert Round(DestroyedAll(s, Flat(rest)), roots[n], rounds[n]);
      assert forall a {:trigger a in rounds[n]} :: a in rounds[n] ==> a in s.cables;
    }
    DestroyAll(s, Flat(rounds));
  }

  /** Plug `p` under `r` holds `a`, and has not lost it with the cables of `gone`. */
  ghost predicate Keeps(s: State, r: Path, a: Address, p: Id, gone: seq<Address>) {
    p in s.plugs && r <= s.plugs[p].uri && a in s.plugs[p].held && !(a in gone && AtAddress(s, p, a))
  }

  /** Round `i` announces `a` exactly when a plug under its root holds `a` and did not lose it in an earlier round. */
  lemma RoundMeans(s: State, roots: seq<Path>, rounds: seq<seq<Address>>, i: nat, a: Address)
    requires Rounds(s, roots, rounds) && i < |rounds|
    ensures a in rounds[i] <==>
            a in s.cables && exists p {:trigger Keeps(s, roots[i], a, p, Flat(rounds[..i]))} ::
            Keeps(s, roots[i], a, p, Flat(rounds[..i]))
  {
    var rest := rounds[..i];
    assert Rounds(s, roots, rest) by {
      forall k {:trigger rest[k]} | 0 <= k < |rest| ensures Round(DestroyedAll(s, Flat(rest[..k])), roots[k], rest[k]) {
        assert rest[..k] == rounds[..k] && rest[k] == rounds[k];
      }
    }
    RoundsFind(s, roots, rest);
    var t := DestroyedAll(s, Flat(rest));
    assert Round(t, roots[i], rounds[i]);
    hide DestroyedAll, Flat, AtAddress, Rounds;
    assert a in rounds[i] <==> Hit(t, roots[i], a);
    if Hit(t, roots[i], a) {
      var p :| p in t.plugs && roots[i] <= t.plugs[p].uri && a in t.plugs[p].held;
      assert Keeps(s, roots[i], a, p, Flat(rest));
    }
    if p :| Keeps(s, roots[i], a, p, Flat(rest)) { assert a in t.plugs[p].held; }
  }

  // ---------------------------------------------------------------- what a pass announces

  /** Cable `a` is held under root `i`, and under the later root `j` by a plug that no longer sits at its address. */
  ghost predicate Again(s: State, roots: seq<Path>, a: Address, i: nat, j: nat, p: Id) {
    && i < j < |roots| && Hit(s, roots[i], a)
    && p in s.plugs && roots[j] <= s.plugs[p].uri && a in s.plugs[p].held && !AtAddress(s, p, a)
  }

  /** A cable held under a root is announced by that root's round or an earlier one. */
  lemma AnnouncedBy(s: State, roots: seq<Path>, rounds: seq<seq<Address>>, i: nat, a: Address)
    requires Rounds(s, roots, rounds) && i < |rounds| && Hit(s, roots[i], a)
    ensures (a in Flat(rounds[..i]) || a in rounds[i]) && a in Flat(rounds)
  {
    RoundMeans(s, roots, rounds, i, a);
    var p :| p in s.plugs && roots[i] <= s.plugs[p].uri && a in s.plugs[p].held;
    assert Keeps(s, roots[i], a, p, Flat(rounds[..i])) || a in Flat(rounds[..i]);
    InFlat(rounds, a);
    InFlat(rounds[..i], a);
    if a in Flat(rounds[..i]) { var k :| 0 <= k < i && a in rounds[..i][k]; assert a in rounds[k]; }
  }

  /** A round that announces what an earlier one announced found it with a plug that had moved away. */
  lemma AnnouncedAgain(s: State, roots: seq<Path>, rounds: seq<seq<Address>>, j: nat, a: Address)
    requires Rounds(s, roots, rounds) && j < |rounds| && a in rounds[j] && a in Flat(rounds[..j])
    ensures exists i, p {:trigger Again(s, roots, a, i, j, p)} :: Again(s, roots, a, i, j, p)
  {
    RoundMeans(s, roots, rounds, j, a);
    var p :| Keeps(s, roots[j], a, p, Flat(rounds[..j]));
    InFlat(rounds[..j], a);
    var i :| 0 <= i < j && a in rounds[..j][i];
    assert a in rounds[i];
    RoundMeans(s, roots, rounds, i, a);
    var q :| Keeps(s, roots[i], a, q, Flat(rounds[..i]));
    assert Hit(s, roots[i], a) by { assert s.plugs[q] == s.plugs[q]; }
    assert Again(s, roots, a, i, j, p);
  }

  lemma {:induction false} OnceIn(s: seq<Address>, a: Address)
    requires Distinct(s)
    ensures multiset(s)[a] == if a in s then 1 else 0
  {
    if s != [] {
      var n := |s| - 1;
      assert s == s[..n] + [s[n]];
      assert Distinct(s[..n]) && s[n] !in s[..n];
      OnceIn(s[..n], a);
    }
  }

  /** A cable is announced twice by the rounds exactly when some round announces it after an earlier one did. */
  lemma {:induction false} FlatCount(rounds: seq<seq<Address>>, a: Address)
    requires forall i {:trigger rounds[i]} :: 0 <= i < |rounds| ==> Distinct(rounds[i])
    ensures multiset(Flat(rounds))[a] >= 2 <==>
            exists j {:trigger rounds[j]} :: 0 <= j < |rounds| && a in rounds[j] && a in Flat(rounds[..j])
  {
    if rounds != [] {
      var n := |rounds| - 1;
      var rest := rounds[..n];
      assert forall i {:trigger rest[i]} {:trigger rounds[i]} :: 0 <= i < n ==>
             rest[i] == rounds[i] && rest[..i] == rounds[..i];
      FlatCount(rest, a);
      OnceIn(rounds[n], a);
      assert multiset(Flat(rounds))[a] == multiset(Flat(rest))[a] + multiset(rounds[n])[a];
      assert a in Flat(rest) <==> multiset(Flat(rest))[a] >= 1;
      hide Distinct, Flat;
      if multiset(Flat(rest))[a] >= 2 {
        var j :| 0 <= j < n && a in rest[j] && a in Flat(rest[..j]);
        assert a in rounds[j] && a in Flat(rounds[..j]);
      }
      if j :| 0 <= j < |rounds| && a in rounds[j] && a in Flat(rounds[..j]) {
        if j < n { assert a in rest[j] && a in Flat(rest[..j]); }
      }
    }
  }

  /** The leaving events of a pass announce a cable more than once exactly when it is held under one root and, by a plug
      moved away from its address, under a later one. */
  lemma AnnouncedTwiceIff(s: State, roots: seq<Path>, rounds: seq<seq<Address>>, a: Address)
    requires Rounds(s, roots, rounds) && |rounds| == |roots|
    ensures multiset(Flat(rounds))[a] >= 2 <==>
            exists i, j, p {:trigger Again(s, roots, a, i, j, p)} :: Again(s, roots, a, i, j, p)
  {
    assert forall i {:trigger rounds[i]} :: 0 <= i < |rounds| ==> Distinct(rounds[i]);
    FlatCount(rounds, a);
    hide Distinct, Rounds, Again, Flat;
    if i: nat, j: nat, p :| Again(s, roots, a, i, j, p) { AgainTwice(s, roots, rounds, a, i, j, p); }
    if j: nat :| j < |rounds| && a in rounds[j] && a in Flat(rounds[..j]) { AnnouncedAgain(s, roots, rounds, j, a); }
  }

  /** A pass announces exactly the cables held under some leaving root. */
  lemma AnnouncedIff(s: State, roots: seq<Path>, rounds: seq<seq<Address>>, a: Address)
    requires Rounds(s, roots, rounds) && |rounds| == |roots|
    ensures a in Flat(rounds) <==> exists r {:trigger Hit(s, r, a)} :: r in roots && Hit(s, r, a)
  {
    InFlat(rounds, a);
    if a in Flat(rounds) {
      var i :| 0 <= i < |rounds| && a in rounds[i];
      RoundMeans(s, roots, rounds, i, a);
      var p :| Keeps(s, roots[i], a, p, Flat(rounds[..i]));
      assert Hit(s, roots[i], a) by { assert s.plugs[p] == s.plugs[p]; }
    }
    if r :| r in roots && Hit(s, r, a) {
      var i :| 0 <= i < |roots| && roots[i] == r;
      AnnouncedBy(s, roots, rounds, i, a);
    }
  }

  // ---------------------------------------------------------------- how often a cable object is announced

  /** Object `c` at address `a` was announced more than once. */
  ghost predicate Twice(s: State, a: Address, c: nat) { multiset(s.announced)[Broadcast(a, c)] >= 2 }

  /** Destroying `bundle` announces cable `a` when it was announced before, or more than once. */
  ghost predicate Repeated(s: State, bundle: seq<Address>, a: Address) {
    a in s.cables && ((a in bundle && s.cables[a].status != ACTIVATED) || multiset(bundle)[a] >= 2)
  }

  lemma {:induction false} BroadcastCount(cables: map<Address, Cable>, bundle: seq<Address>, a: Address, c: nat)
    ensures multiset(Broadcasts(cables, bundle))[Broadcast(a, c)] ==
            if a in cables && cables[a].id == c then multiset(bundle)[a] else 0
  {
    if bundle != [] {
      var n := |bundle| - 1;
      BroadcastCount(cables, bundle[..n], a, c);
      assert bundle == bundle[..n] + [bundle[n]];
    }
  }

  lemma TwiceAfter(s: State, t: State, bundle: seq<Address>, a: Address, c: nat)
    requires Counted(s) && t.announced == s.announced + Broadcasts(s.cables, bundle)
    ensures Twice(t, a, c) <==> Twice(s, a, c) || (a in s.cables && s.cables[a].id == c && Repeated(s, bundle, a))
  {
    BroadcastCount(s.cables, bundle, a, c);
    var b := Broadcast(a, c);
    assert multiset(t.announced)[b] == multiset(s.announced)[b] + multiset(Broadcasts(s.cables, bundle))[b];
    hide Numbered;
    if a in s.cables && s.cables[a].id == c {
      assert s.cables[a].status != ACTIVATED <==> b in s.announced;
      assert b in s.announced <==> multiset(s.announced)[b] >= 1;
      assert a in bundle <==> multiset(bundle)[a] >= 1;
    }
  }

  lemma AgainTwice(s: State, roots: seq<Path>, rounds: seq<seq<Address>>, a: Address, i: nat, j: nat, p: Id)
    requires Rounds(s, roots, rounds) && |rounds| == |roots| && Again(s, roots, a, i, j, p)
    ensures a in rounds[j] && a in Flat(rounds[..j])
  {
    RoundMeans(s, roots, rounds, j, a);
    assert Keeps(s, roots[j], a, p, Flat(rounds[..j]));
    AnnouncedBy(s, roots, rounds, i, a);
    InFlat(rounds[..j], a);
    if a in Flat(rounds[..i]) {
      InFlat(rounds[..i], a);
      var k :| 0 <= k < i && a in rounds[..i][k];
      assert a in rounds[..j][k];
    } else {
      assert a in rounds[..j][i];
    }
  }

  // ---------------------------------------------------------------- what a pass leaves

  /** Neither end of cable `a` lies under one of the roots. */
  ghost predicate Untouched(s: State, roots: seq<Path>, a: Address)
    requires a in s.cables
  {
    forall p, r {:trigger s.plugs[p], r in roots} ::
      p in s.plugs && (p == s.cables[a].inp || p == s.cables[a].out) && r in roots ==> !(r <= s.plugs[p].uri)
  }

  /** The events of a pass spare exactly the active cables with no end under a leaving root. */
  lemma Spared(s: State, roots: seq<Path>, rounds: seq<seq<Address>>, a: Address)
    requires Rounds(s, roots, rounds) && |rounds| == |roots| && Named(s) && Plugged(s) && a in s.cables
             && s.cables[a].status == ACTIVATED
    ensures a !in Flat(rounds) <==> Untouched(s, roots, a)
  {
    InFlat(rounds, a);
    if a in Flat(rounds) {
      var i :| 0 <= i < |rounds| && a in rounds[i];
      RoundMeans(s, roots, rounds, i, a);
      var p :| Keeps(s, roots[i], a, p, Flat(rounds[..i]));
      assert p == s.cables[a].inp || p == s.cables[a].out;
      assert roots[i] in roots && s.plugs[p] == s.plugs[p];
    } else {
      forall p, r {:trigger s.plugs[p], r in roots} | p in s.plugs && (p == s.cables[a].inp || p == s.cables[a].out)
        && r in roots
        ensures !(r <= s.plugs[p].uri)
      {
        if r <= s.plugs[p].uri {
          var i :| 0 <= i < |roots| && roots[i] == r;
          assert Hit(s, roots[i], a);
          AnnouncedBy(s, roots, rounds, i, a);
        }
      }
    }
  }

  /** After the events of a pass, a leaving plug holds only cables that are queued. */
  lemma LeavingDrained(s: State, rounds: seq<seq<Address>>, p: Id, a: Address)
    requires Inv(s) && Rounds(s, s.leaving, rounds) && |rounds| == |s.leaving|
    requires p in s.plugs && s.plugs[p].leaving && a in s.plugs[p].held
    ensures a in s.cables && a in Flat(rounds)
  {
    assert s.plugs[p] == s.plugs[p] && UnderRoot(s, p);
    var r :| r in s.leaving && r <= s.plugs[p].uri;
    var i :| 0 <= i < |s.leaving| && s.leaving[i] == r;
    assert Hit(s, s.leaving[i], a);
    AnnouncedBy(s, s.leaving, rounds, i, a);
  }

  /** What is left once leaving plugs, their entries and all queued cables are gone and the queues are empty. */
  ghost function Swept(t: State): State {
    State(map p | p in t.plugs && !t.plugs[p].leaving :: t.plugs[p],
          map u | u in t.lookup && t.lookup[u] in t.plugs && !t.plugs[t.lookup[u]].leaving :: t.lookup[u],
          map a | a in t.cables && t.cables[a].status == ACTIVATED :: t.cables[a],
          [], [], [], t.announced, t.made)
  }

  /** No leaving plug holds an active cable. */
  ghost predicate Released(t: State) {
    forall p, a {:trigger a in t.plugs[p].held} :: p in t.plugs && t.plugs[p].leaving && a in t.plugs[p].held ==>
      a in t.cables && t.cables[a].status != ACTIVATED
  }

  lemma SweptSets(t: State)
    requires Found(t) && Ends(t) && Named(t) && Plugged(t) && Released(t)
    ensures var u := Swept(t); Found(u) && Ends(u) && Named(u) && Plugged(u)
  {
    var u := Swept(t);
    forall a {:trigger u.cables[a]} | a in u.cables
      ensures !t.plugs[t.cables[a].inp].leaving && !t.plugs[t.cables[a].out].leaving
    {
      assert t.cables[a].status == ACTIVATED;
      assert a in t.plugs[t.cables[a].inp].held && a in t.plugs[t.cables[a].out].held;
    }
  }

  lemma SweptQueues(t: State)
    requires Queues(t) && Capacity(t) && Counted(t)
    ensures var u := Swept(t); Queues(u) && Capacity(u) && Counted(u) && Due(u)
  {
    hide Distinct;
    assert Distinct<Address>([]) by { NoneDistinct(); }
  }

  lemma NoneDistinct()
    ensures Distinct<Address>([])
  {}

  /** Dropping the leaving plugs and the queued cables keeps the agreement exactly when no leaving plug held an active
      cable; one that did leaves that cable behind without its end. */
  lemma SweptInv(t: State)
    requires Sane(t)
    ensures Inv(Swept(t)) <==> Released(t)
  {
    if Released(t) {
      hide Found, Ends, Named, Plugged, Queues, Capacity, Counted, Due, Swept, Released;
      SweptSets(t);
      SweptQueues(t);
    } else {
      hide Found, Queues, Capacity, Counted, Plugged, Due;
      var p, a :| p in t.plugs && t.plugs[p].leaving && a in t.plugs[p].held
        && !(a in t.cables && t.cables[a].status != ACTIVATED);
      assert a in Swept(t).cables && p !in Swept(t).plugs;
      assert Swept(t).cables[a] == t.cables[a];
    }
  }

  /** An active cable of a leaving plug stays behind without that end. */
  lemma SweptStrands(t: State, p: Id, a: Address)
    requires Named(t) && p in t.plugs && t.plugs[p].leaving && a in t.plugs[p].held && a in t.cables
             && t.cables[a].status == ACTIVATED
    ensures var u := Swept(t);
            a in u.cables && u.cables[a] == t.cables[a] && p !in u.plugs
            && (u.cables[a].inp == p || u.cables[a].out == p)
  {}
}
