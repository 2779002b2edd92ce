/** Who may fire a plug: ownership requests to the stage, the broadcast log, and each client's view of it. */
module Ownership {

  import opened Common

  datatype Signal = OK | ENTITY_NOT_FOUND | PERFORMER_NOT_FOUND

  /** A broadcast: the empty path as owner is a release. */
  datatype Msg = Msg(entity: Path, owner: Path)

  /** What a client stores: an owner for each entity and the fire flag of each output plug. */
  datatype View = View(owner: map<Path, Path>, canFire: map<Path, bool>)

  // ---------------------------------------------------------------- a client

  /** Every entity at or under the named one changes owner; an output plug may fire exactly when the owner is local. */
  function Applied(v: View, m: Msg, local: Path): View {
    if m.entity !in v.owner then v
    else View(map p | p in v.owner :: if m.entity <= p then m.owner else v.owner[p],
              map p | p in v.canFire :: if m.entity <= p && p in v.owner then m.owner == local else v.canFire[p])
  }

  class Client {
    const local: Path
    var owner: map<Path, Path>
    var canFire: map<Path, bool>

    constructor (local: Path, entities: set<Path>, outputs: set<Path>)
      ensures this.local == local && owner == (map p | p in entities :: [])
      ensures canFire == map p | p in outputs :: local <= p
    {
      this.local := local;
      owner := map p | p in entities :: [];
      canFire := map p | p in outputs :: local <= p;
    }

    /** ZstOutputPlug::set_owner, or the base form for an entity that is no output plug. */
    method SetOwner(p: Path, o: Path)
      requires p in owner
      modifies this
      ensures owner == old(owner)[p := o]
      ensures canFire == if p in old(canFire) then old(canFire)[p := o == local] else old(canFire)
    {
      owner := owner[p := o];
      if p in canFire { canFire := canFire[p := local == o]; }
    }

    /** aquire_entity_ownership_handler: the owner is set on the entity and all below it, one by one. */
    method Handle(m: Msg)
      modifies this
      ensures View(owner, canFire) == Applied(View(old(owner), old(canFire)), m, local)
      ensures m.entity !in old(owner) ==> owner == old(owner) && canFire == old(canFire)
      ensures m.entity in old(owner) ==> forall p {:trigger owner[p]} :: p in old(owner) ==>
                p in owner && owner[p] == if m.entity <= p then m.owner else old(owner)[p]
      ensures m.entity in old(owner) ==> forall p {:trigger canFire[p]} :: p in old(canFire) ==>
                p in canFire &&
                (canFire[p] <==> if m.entity <= p && p in old(owner) then m.owner == local else old(canFire)[p])
    {
      if m.entity !in owner { return; }
      hide Partly;
      ghost var was := View(owner, canFire);
      var bundle := set p | p in owner && m.entity <= p;
      PartlyStart(was, m, local, bundle);
      while bundle != {}
        invariant bundle <= owner.Keys && Partly(was, View(owner, canFire), m, local, bundle)
        decreases bundle
      {
        var p :| p in bundle;
        PartlyStep(was, View(owner, canFire), m, local, bundle, p);
        SetOwner(p, m.owner);
        bundle := bundle - {p};
      }
      PartlyDone(was, View(owner, canFire), m, local);
    }

    /** A client that delivers a whole broadcast log in order holds the replay of that log. */
    method DeliverAll(w: World, log: seq<Msg>)
      requires View(owner, canFire) == Fresh(w, local)
      modifies this
      ensures View(owner, canFire) == Replayed(w, local, log, |log|)
    {
      hide Applied;
      for i := 0 to |log|
        invariant View(owner, canFire) == Replayed(w, local, log, i)
      {
        Handle(log[i]);
      }
    }
  }

  /** The entities of `bundle` still have to change owner. */
  ghost predicate Partly(was: View, v: View, m: Msg, local: Path, bundle: set<Path>) {
    && v.owner.Keys == was.owner.Keys && v.canFire.Keys == was.canFire.Keys
    && (forall p {:trigger p in bundle} :: p in bundle ==> p in was.owner && m.entity <= p)
    && (forall p {:trigger v.owner[p]} :: p in was.owner ==> v.owner[p] == if m.entity <= p && p !in bundle then m.owner
          else was.owner[p])
    && (forall p {:trigger v.canFire[p]} :: p in was.canFire ==>
          v.canFire[p] == if m.entity <= p && p in was.owner && p !in bundle then m.owner == local else was.canFire[p])
  }

  lemma PartlyStart(was: View, m: Msg, local: Path, bundle: set<Path>)
    requires bundle == set p | p in was.owner && m.entity <= p
    ensures Partly(was, was, m, local, bundle)
  {}

  lemma PartlyStep(was: View, v: View, m: Msg, local: Path, bundle: set<Path>, p: Path)
    requires Partly(was, v, m, local, bundle) && p in bundle && p in v.owner
    ensures var u := View(v.owner[p := m.owner], if p in v.canFire then v.canFire[p := m.owner == local]
            else v.canFire);
            Partly(was, u, m, local, bundle - {p})
  {}

  lemma PartlyDone(was: View, v: View, m: Msg, local: Path)
    requires Partly(was, v, m, local, {}) && m.entity in was.owner
    ensures v == Applied(was, m, local)
  {}

  // ---------------------------------------------------------------- the stage

  /** The performer a path belongs to. */
  function Root(p: Path): Path { if p == [] then [] else [p[0]] }

  class Stage {
    const performers: set<Path>
    var cables: set<Address>
    var owner: map<Path, Path>
    var log: seq<Msg>

    /** aquire_entity_ownership_handler: the owner is set on the one entity and the change is broadcast. Every performer
        with a cable from the entity is asked to connect to the new owner; in each pair of `connects` the code passes
        the receiving performer first, as the output client, and the new owner second, as the input client. */
    method Acquire(entity: Path, newOwner: Path) returns (r: Signal, connects: set<(Path, Path)>)
      modifies this
      ensures r == Answer(old(owner).Keys, performers, entity, newOwner) && cables == old(cables)
      ensures r == ENTITY_NOT_FOUND <==> entity !in old(owner)
      ensures r == PERFORMER_NOT_FOUND <==> entity in old(owner) && !(newOwner == [] || newOwner in performers)
      ensures r == OK <==> entity in old(owner) && (newOwner == [] || newOwner in performers)
      ensures log == if r == OK then old(log) + [Msg(entity, newOwner)] else old(log)
      ensures owner == if r == OK then old(owner)[entity := newOwner] else old(owner)
      ensures forall x, y :: (x, y) in connects <==>
                r == OK && newOwner != [] && y == newOwner
                  && exists c :: c in cables && c.output == entity && x == Root(c.input)
    {
      connects := {};
      if entity !in owner { return ENTITY_NOT_FOUND, {}; }
      if newOwner != [] && newOwner !in performers { return PERFORMER_NOT_FOUND, {}; }
      owner := owner[entity := newOwner];
      var receivers := {};
      var rest := cables;
      while rest != {}
        invariant rest <= cables && cables == old(cables) && log == old(log) && owner == old(owner)[entity := newOwner]
        invariant forall x :: x in receivers <==>
                  exists c :: c in cables && c !in rest && c.output == entity && x == Root(c.input)
        decreases rest
      {
        var c :| c in rest;
        rest := rest - {c};
        if c.output == entity { receivers := receivers + {Root(c.input)}; }
      }
      if newOwner != [] { connects := set x | x in receivers :: (x, newOwner); }
      log := log + [Msg(entity, newOwner)];
      r := OK;
    }
  }

  function Answer(entities: set<Path>, performers: set<Path>, entity: Path, newOwner: Path): Signal {
    if entity !in entities then ENTITY_NOT_FOUND
    else if newOwner != [] && newOwner !in performers then PERFORMER_NOT_FOUND
    else OK
  }

  // ---------------------------------------------------------------- runs

  /** The entities shared by the stage and all clients, the output plugs among them, and the performers. */
  datatype World = World(entities: set<Path>, outputs: set<Path>, performers: set<Path>)

  ghost predicate Sound(w: World) { w.outputs <= w.entities && forall c :: c in w.performers ==> |c| == 1 }

  datatype Peer = Peer(view: View, delivered: nat)

  datatype State = State(owner: map<Path, Path>, log: seq<Msg>, peers: map<Path, Peer>)

  datatype Action = Request(entity: Path, newOwner: Path) | Deliver(client: Path)

  function Fresh(w: World, local: Path): View {
    View(map p | p in w.entities :: [], map p | p in w.outputs :: local <= p)
  }

  function Start(w: World): State {
    State(map p | p in w.entities :: [], [], map c | c in w.performers :: Peer(Fresh(w, c), 0))
  }

  function Step(w: World, s: State, a: Action): State {
    match a
    case Request(e, o) =>
      if Answer(s.owner.Keys, w.performers, e, o) == OK then s.(owner := s.owner[e := o], log := s.log + [Msg(e, o)])
        else s
    case Deliver(c) =>
      if c in s.peers && s.peers[c].delivered < |s.log| then
        s.(peers := s.peers[c := Peer(Applied(s.peers[c].view, s.log[s.peers[c].delivered], c),
          s.peers[c].delivered + 1)])
      else s
  }

  function Run(w: World, acts: seq<Action>): State {
    if acts == [] then Start(w) else Step(w, Run(w, acts[..|acts| - 1]), acts[|acts| - 1])
  }

  /** A client's view after the first `n` broadcasts. */
  function Replayed(w: World, local: Path, log: seq<Msg>, n: nat): View
    requires n <= |log|
  {
    if n == 0 then Fresh(w, local) else Applied(Replayed(w, local, log, n - 1), log[n - 1], local)
  }

  lemma {:induction false} ReplayedPrefix(w: World, local: Path, log: seq<Msg>, m: Msg, n: nat)
    requires n <= |log|
    ensures Replayed(w, local, log + [m], n) == Replayed(w, local, log, n)
  {
    if n > 0 { ReplayedPrefix(w, local, log, m, n - 1); }
  }

  /** Each view is the replay of a prefix of the log, and each broadcast names a known entity. */
  ghost predicate Synced(w: World, s: State) {
    && s.peers.Keys == w.performers && s.owner.Keys == w.entities
    && (forall i :: 0 <= i < |s.log| ==>
          s.log[i].entity in w.entities && (s.log[i].owner == [] || s.log[i].owner in w.performers))
    && (forall c :: c in s.peers ==>
          s.peers[c].delivered <= |s.log| && s.peers[c].view == Replayed(w, c, s.log, s.peers[c].delivered))
  }

  lemma RequestKeeps(w: World, s: State, e: Path, o: Path)
    requires Synced(w, s)
    ensures Synced(w, Step(w, s, Request(e, o)))
  {
    hide Replayed;
    forall c | c in s.peers ensures Replayed(w, c, s.log + [Msg(e, o)], s.peers[c].delivered) == Replayed(w, c, s.log,
      s.peers[c].delivered)
    {
      ReplayedPrefix(w, c, s.log, Msg(e, o), s.peers[c].delivered);
    }
  }

  lemma DeliverKeeps(w: World, s: State, c: Path)
    requires Synced(w, s)
    ensures Synced(w, Step(w, s, Deliver(c)))
  {
    hide Applied;
  }

  lemma {:induction false} ViewsAreReplays(w: World, acts: seq<Action>)
    ensures Synced(w, Run(w, acts))
  {
    hide Step;
    if acts != [] {
      var t := Run(w, acts[..|acts| - 1]);
      ViewsAreReplays(w, acts[..|acts| - 1]);
      match acts[|acts| - 1]
      case Request(e, o) => RequestKeeps(w, t, e, o);
      case Deliver(c) => DeliverKeeps(w, t, c);
    }
  }

  // ---------------------------------------------------------------- what a replay comes to

  /** Position after the last of the first `n` broadcasts that touch `p`; 0 if none does. */
  ghost predicate LastTouch(log: seq<Msg>, n: nat, p: Path, k: nat) {
    k <= n <= |log| && (k > 0 ==> log[k - 1].entity <= p) && forall i :: k <= i < n ==> !(log[i].entity <= p)
  }

  lemma AppliedAt(v: View, m: Msg, local: Path, p: Path)
    requires m.entity in v.owner && p in v.owner
    ensures var u := Applied(v, m, local);
            && u.owner.Keys == v.owner.Keys && u.canFire.Keys == v.canFire.Keys
            && u.owner[p] == (if m.entity <= p then m.owner else v.owner[p])
            && (p in v.canFire ==> u.canFire[p] == if m.entity <= p then m.owner == local else v.canFire[p])
  {}

  /** Owner and fire flag are decided by the last broadcast that names the entity or one above it. */
  lemma {:induction false} LastTouchDecides(w: World, local: Path, log: seq<Msg>, n: nat, p: Path, k: nat)
    requires n <= |log| && p in w.entities && w.outputs <= w.entities && LastTouch(log, n, p, k)
    requires forall i :: 0 <= i < |log| ==> log[i].entity in w.entities
    ensures var v := Replayed(w, local, log, n);
            && v.owner.Keys == w.entities && v.canFire.Keys == w.outputs
            && v.owner[p] == (if k == 0 then [] else log[k - 1].owner)
            && (p in w.outputs ==> (v.canFire[p] <==> if k == 0 then local <= p else log[k - 1].owner == local))
    decreases n
  {
    hide Applied;
    if n > 0 {
      var j := if k < n then k else TouchedBefore(log, n - 1, p);
      LastTouchDecides(w, local, log, n - 1, p, j);
      AppliedAt(Replayed(w, local, log, n - 1), log[n - 1], local, p);
    }
  }

  /** The last touch among the first `n` broadcasts. */
  ghost function TouchedBefore(log: seq<Msg>, n: nat, p: Path): (k: nat)
    requires n <= |log|
    ensures LastTouch(log, n, p, k)
  {
    if n == 0 then 0 else if log[n - 1].entity <= p then n else TouchedBefore(log, n - 1, p)
  }

  /** Clients that have delivered the same prefix agree on every owner, in every run. */
  lemma PeersAgree(w: World, acts: seq<Action>, c: Path, d: Path, p: Path)
    requires Sound(w) && c in w.performers && d in w.performers && p in w.entities
    requires var s := Run(w, acts); c in s.peers && d in s.peers && s.peers[c].delivered == s.peers[d].delivered
    ensures var s := Run(w, acts);
            p in s.peers[c].view.owner && p in s.peers[d].view.owner
              && s.peers[c].view.owner[p] == s.peers[d].view.owner[p]
  {
    var s := Run(w, acts);
    ViewsAreReplays(w, acts);
    var n := s.peers[c].delivered;
    var k := TouchedBefore(s.log, n, p);
    LastTouchDecides(w, c, s.log, n, p, k);
    LastTouchDecides(w, d, s.log, n, p, k);
  }

  /** Once everything is delivered: a client can fire an output plug exactly when the last broadcast that touches the
      plug names that client, or none touches it and the plug is the client's own. A release leaves nobody. */
  lemma OnlyOwnerFires(w: World, acts: seq<Action>, c: Path, p: Path, k: nat)
    requires Sound(w) && c in w.performers && p in w.outputs
    requires var s := Run(w, acts); c in s.peers && s.peers[c].delivered == |s.log| && LastTouch(s.log, |s.log|, p, k)
    ensures var s := Run(w, acts);
            p in s.peers[c].view.canFire && (s.peers[c].view.canFire[p] <==> if k == 0 then c <= p
              else s.log[k - 1].owner == c)
  {
    ViewsAreReplays(w, acts);
    LastTouchDecides(w, c, Run(w, acts).log, |Run(w, acts).log|, p, k);
  }

  lemma AtMostOneFires(w: World, acts: seq<Action>, c: Path, d: Path, p: Path)
    requires Sound(w) && c in w.performers && d in w.performers && p in w.outputs
    requires var s := Run(w, acts);
             && c in s.peers && d in s.peers && s.peers[c].delivered == s.peers[d].delivered == |s.log|
             && p in s.peers[c].view.canFire && p in s.peers[d].view.canFire
             && s.peers[c].view.canFire[p] && s.peers[d].view.canFire[p]
    ensures c == d
  {
    var s := Run(w, acts);
    var k := TouchedBefore(s.log, |s.log|, p);
    OnlyOwnerFires(w, acts, c, p, k);
    OnlyOwnerFires(w, acts, d, p, k);
  }

  lemma RunOne(w: World, acts: seq<Action>, a: Action)
    ensures Run(w, acts + [a]) == Step(w, Run(w, acts), a)
  {
    assert (acts + [a])[..|acts + [a]| - 1] == acts;
  }

  lemma {:induction false} DeliveriesKeepLog(w: World, acts: seq<Action>, more: seq<Action>)
    requires forall a {:trigger a in more} :: a in more ==> a.Deliver?
    ensures Run(w, acts + more).log == Run(w, acts).log
    decreases |more|
  {
    if more == [] {
      assert acts + more == acts;
    } else {
      var n := |more| - 1;
      assert more[n] in more && forall a {:trigger a in more[..n]} :: a in more[..n] ==> a in more;
      DeliveriesKeepLog(w, acts, more[..n]);
      assert acts + more == acts + more[..n] + [more[n]];
      RunOne(w, acts + more[..n], more[n]);
    }
  }

  /** In every run a request for a known entity is broadcast if it names a performer or nobody, which is a release;
      every other request changes nothing. */
  lemma RequestIsBroadcast(w: World, acts: seq<Action>, e: Path, o: Path)
    ensures e in w.entities && (o == [] || o in w.performers) ==>
              Run(w, acts + [Request(e, o)]).log == Run(w, acts).log + [Msg(e, o)]
    ensures !(e in w.entities && (o == [] || o in w.performers)) ==> Run(w, acts + [Request(e, o)]) == Run(w, acts)
  {
    ViewsAreReplays(w, acts);
    RunOne(w, acts, Request(e, o));
  }

  /** Once such a request is delivered, whatever went before: a client can fire an output plug at or under the entity
      exactly when it is the new owner, so after a release none can. */
  lemma RequestDecides(w: World, acts: seq<Action>, e: Path, o: Path, more: seq<Action>, c: Path, p: Path)
    requires Sound(w) && e in w.entities && (o == [] || o in w.performers) && c in w.performers
    requires p in w.outputs && e <= p && forall a {:trigger a in more} :: a in more ==> a.Deliver?
    requires var s := Run(w, acts + [Request(e, o)] + more); c in s.peers && s.peers[c].delivered == |s.log|
    ensures var s := Run(w, acts + [Request(e, o)] + more);
            && p in s.peers[c].view.canFire && (s.peers[c].view.canFire[p] <==> c == o)
            && p in s.peers[c].view.owner && s.peers[c].view.owner[p] == o
  {
    hide Run;
    var all := acts + [Request(e, o)] + more;
    RequestIsBroadcast(w, acts, e, o);
    DeliveriesKeepLog(w, acts + [Request(e, o)], more);
    var log := Run(w, all).log;
    assert log == Run(w, acts).log + [Msg(e, o)] && LastTouch(log, |log|, p, |log|);
    ViewsAreReplays(w, all);
    LastTouchDecides(w, c, log, |log|, p, |log|);
  }

  /** A delivery brings its client one broadcast further, in the order of the log, until it has them all. */
  lemma DeliverAdvances(w: World, acts: seq<Action>, c: Path)
    requires c in w.performers
    ensures var s, t := Run(w, acts), Run(w, acts + [Deliver(c)]);
            && c in s.peers && c in t.peers && t.log == s.log && t.owner == s.owner
            && t.peers[c].delivered == (if s.peers[c].delivered < |s.log| then s.peers[c].delivered + 1 else |s.log|)
            && forall d {:trigger t.peers[d]} :: d in s.peers && d != c ==> d in t.peers && t.peers[d] == s.peers[d]
  {
    ViewsAreReplays(w, acts);
    RunOne(w, acts, Deliver(c));
  }

  // ---------------------------------------------------------------- the stage's own record

  /** The owner a broadcast log gives at position `k`, the empty one at 0. */
  function OwnerAt(log: seq<Msg>, k: nat): Path
    requires k <= |log|
  {
    if k == 0 then [] else log[k - 1].owner
  }

  /** Position after the last broadcast that names `p` itself; 0 if none does. */
  ghost predicate LastNamed(log: seq<Msg>, p: Path, j: nat) {
    j <= |log| && (j > 0 ==> log[j - 1].entity == p) && forall i :: j <= i < |log| ==> log[i].entity != p
  }

  /** The stage records the owner on the named entity only, so its record of `p` follows the broadcasts of `p`
      itself. */
  lemma {:induction false} StageRecord(w: World, acts: seq<Action>, p: Path, k: nat)
    requires p in w.entities
    requires LastNamed(Run(w, acts).log, p, k)
    ensures var s := Run(w, acts); p in s.owner && s.owner[p] == OwnerAt(s.log, k)
    decreases |acts|
  {
    if acts != [] {
      var t, a := Run(w, acts[..|acts| - 1]), acts[|acts| - 1];
      var s := Run(w, acts);
      ViewsAreReplays(w, acts[..|acts| - 1]);
      if s.log == t.log {
        StageRecord(w, acts[..|acts| - 1], p, k);
      } else if k < |s.log| {
        assert forall i :: 0 <= i < |t.log| ==> t.log[i] == s.log[i];
        assert s.log[|t.log|].entity != p;
        StageRecord(w, acts[..|acts| - 1], p, k);
      }
    }
  }

  /** Stage and client hold the same owner for `p` if and only if the last broadcast that touches `p` and the last one
      that names `p` itself give the same owner. */
  lemma StageAgrees(w: World, acts: seq<Action>, c: Path, p: Path, k: nat, j: nat)
    requires Sound(w) && c in w.performers && p in w.entities
    requires var s := Run(w, acts);
             c in s.peers && s.peers[c].delivered == |s.log| && LastTouch(s.log, |s.log|, p, k)
             && LastNamed(s.log, p, j)
    ensures var s := Run(w, acts);
            && p in s.owner && p in s.peers[c].view.owner
            && (s.owner[p] == s.peers[c].view.owner[p] <==> OwnerAt(s.log, j) == OwnerAt(s.log, k))
  {
    ViewsAreReplays(w, acts);
    LastTouchDecides(w, c, Run(w, acts).log, |Run(w, acts).log|, p, k);
    StageRecord(w, acts, p, j);
  }

  /** It does not hold when an entity above is taken: each client then moves `p`, and the stage does not. */
  lemma StageMissesBelow(w: World, e: Path, p: Path, o: Path, c: Path)
    requires Sound(w) && e in w.entities && p in w.entities && e <= p && e != p && o in w.performers
             && c in w.performers
    ensures var s := Run(w, [Request(e, o), Deliver(c)]);
            p in s.owner && s.owner[p] == [] && c in s.peers && p in s.peers[c].view.owner
              && s.peers[c].view.owner[p] == o
  {
    var acts := [Request(e, o), Deliver(c)];
    assert acts[..1] == [Request(e, o)] && acts[..1][..0] == [];
    var s0, s1 := Start(w), Step(w, Start(w), Request(e, o));
    assert Run(w, acts[..1]) == s1;
    assert s1.log == [Msg(e, o)] && s1.peers == s0.peers;
    assert Applied(Fresh(w, c), Msg(e, o), c).owner[p] == o;
  }
}
