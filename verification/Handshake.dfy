/** Peer-to-peer connection: the stage asks the input client to listen and the output client to start publishing
    handshakes; the first handshake that arrives makes the listener answer OK, and the stage then records the link. */
module Handshake {

  type Client = nat
  type Id = nat
  type Address = nat

  /** Output client and input client. */
  datatype Link = Link(out: Client, inp: Client)

  datatype Packet =
    | Listen(to: Client, sender: Client, address: Address, id: Id)
    | Start(to: Client, receiver: Client, id: Id)
    | Stop(to: Client, receiver: Client, id: Id)
    | Shake(to: Client, sender: Client)
    | OK(id: Id)

  /** What happened, in order. */
  datatype Event =
    | Listened(at: Client, sender: Client, address: Address, id: Id)   // pending entry written, socket connected
    | Started(at: Client, receiver: Client)
    | Stopped(at: Client, receiver: Client)
    | Shook(at: Client, sender: Client, id: Id)                         // handshake received while pending: OK sent
    | Recorded(link: Link, id: Id)                                      // the stage adds the subscriber
    | GaveUp(id: Id)                                                    // the stage's wait for the reply ran out

  datatype State = State(
    // stage
    subscribers: set<Link>, requests: map<Id, Link>, used: map<Id, Link>,
    // network
    packets: set<Packet>,
    // clients
    pending: map<Link, Id>,          // at the input client, by output client
    connected: set<(Client, Address)>,
    timers: set<Link>, armed: map<Link, nat>,
    log: seq<Event>)

  datatype Action =
    | Connect(link: Link, id: Id)                            // connect_clients
    | RecvListen(p: Packet)
    | RecvStart(p: Packet)
    | RecvStop(p: Packet)
    | Tick(link: Link, to: set<Client>)                      // a timer of the output client fires
    | RecvShake(p: Packet, last: bool)
    | RecvOK(id: Id)
    | Timeout(id: Id)

  const START := State({}, map[], map[], {}, map[], {}, {}, map[], [])

  function Armed(s: State, l: Link): nat { if l in s.armed then s.armed[l] else 0 }

  /** connect_clients: nothing to do for a recorded link or a client and itself. Message ids are never used twice. */
  function Connected(addr: Client -> Address, s: State, l: Link, id: Id): State {
    if l in s.subscribers || l.out == l.inp || id in s.used then s
    else s.(requests := s.requests[id := l], used := s.used[id := l],
            packets := s.packets + {Listen(l.inp, l.out, addr(l.out), id), Start(l.out, l.inp, id)})
  }

  function ListenReceived(s: State, p: Packet): State {
    if p.Listen? && p in s.packets then
      s.(packets := s.packets - {p}, pending := s.pending[Link(p.sender, p.to) := p.id],
         connected := s.connected + {(p.to, p.address)}, log := s.log + [Listened(p.to, p.sender, p.address, p.id)])
    else s
  }

  /** Each Start arms one more wait on the timer of that receiver. */
  function StartReceived(s: State, p: Packet): State {
    if p.Start? && p in s.packets then
      var l := Link(p.to, p.receiver);
      s.(packets := s.packets - {p}, timers := s.timers + {l}, armed := s.armed[l := Armed(s, l) + 1],
        log := s.log + [Started(p.to, p.receiver)])
    else s
  }

  function StopReceived(s: State, p: Packet): State {
    if p.Stop? && p in s.packets then
      s.(packets := s.packets - {p}, timers := s.timers - {Link(p.to, p.receiver)},
        log := s.log + [Stopped(p.to, p.receiver)])
    else s
  }

  /** A handshake is published to some of the clients connected to the output client's address; the wait is armed
      again only while the timer is still registered. */
  function Ticked(addr: Client -> Address, s: State, l: Link, to: set<Client>): State {
    if Armed(s, l) > 0 then
      s.(packets := s.packets + (set c | c in to && (c, addr(l.out)) in s.connected :: Shake(c, l.out)),
         armed := if l in s.timers then s.armed else s.armed[l := Armed(s, l) - 1])
    else s
  }

  function ShakeReceived(s: State, p: Packet, last: bool): State {
    if p.Shake? && p in s.packets then
      var t := if last then s.(packets := s.packets - {p}) else s;
      var l := Link(p.sender, p.to);
      if l in t.pending then
        t.(packets := t.packets + {OK(t.pending[l])}, pending := t.pending - {l},
          log := t.log + [Shook(p.to, p.sender, t.pending[l])])
      else t
    else s
  }

  /** The reply meets the request's promise: complete_client_connection. */
  function OKReceived(s: State, id: Id): State {
    if OK(id) in s.packets then
      var t := s.(packets := s.packets - {OK(id)});
      if id in s.requests then
        var l := s.requests[id];
        t.(requests := s.requests - {id}, subscribers := s.subscribers + {l},
           packets := t.packets + {Stop(l.out, l.inp, id)}, log := s.log + [Recorded(l, id)])
      else t
    else s
  }

  function GivenUp(s: State, id: Id): State {
    if id in s.requests then s.(requests := s.requests - {id}, log := s.log + [GaveUp(id)]) else s
  }

  function Step(addr: Client -> Address, s: State, a: Action): State {
    match a
    case Connect(l, id) => Connected(addr, s, l, id)
    case RecvListen(p) => ListenReceived(s, p)
    case RecvStart(p) => StartReceived(s, p)
    case RecvStop(p) => StopReceived(s, p)
    case Tick(l, to) => Ticked(addr, s, l, to)
    case RecvShake(p, last) => ShakeReceived(s, p, last)
    case RecvOK(id) => OKReceived(s, id)
    case Timeout(id) => GivenUp(s, id)
  }

  function Run(addr: Client -> Address, acts: seq<Action>): State {
    if acts == [] then START else Step(addr, Run(addr, acts[..|acts| - 1]), acts[|acts| - 1])
  }

  // ---------------------------------------------------------------- the invariant

  /** Ids lead to one link; what is in flight or pending under an id agrees with it. */
  ghost predicate Routed(addr: Client -> Address, s: State) {
    && (forall id {:trigger s.requests[id]} :: id in s.requests ==> id in s.used && s.used[id] == s.requests[id])
    && (forall p {:trigger p in s.packets} :: p in s.packets && p.Listen? ==>
          p.id in s.used && s.used[p.id] == Link(p.sender, p.to) && p.address == addr(p.sender))
    && (forall l {:trigger s.pending[l]} :: l in s.pending ==> s.pending[l] in s.used && s.used[s.pending[l]] == l)
  }

  /** No handshake was answered yet under an id whose Listen is in flight or pending, and a Listen is read once. */
  ghost predicate Unanswered(s: State) {
    && (forall p, e {:trigger p in s.packets, e in s.log} :: p in s.packets && p.Listen? && e in s.log && e.Shook? ==>
          e.id != p.id)
    && (forall p, l {:trigger p in s.packets, s.pending[l]} :: p in s.packets && p.Listen? && l in s.pending ==>
          s.pending[l] != p.id)
    && (forall l, e {:trigger s.pending[l], e in s.log} :: l in s.pending && e in s.log && e.Shook? ==>
          e.id != s.pending[l])
    && (forall e {:trigger e in s.log} :: e in s.log && e.Shook? ==>
          e.id in s.used && s.used[e.id] == Link(e.sender, e.at))
  }

  /** Every pending entry was written by a Listen that was processed; every OK follows a handshake. */
  ghost predicate Witnessed(addr: Client -> Address, s: State) {
    && (forall l {:trigger s.pending[l]} :: l in s.pending ==>
          Listened(l.inp, l.out, addr(l.out), s.pending[l]) in s.log)
    && (forall id {:trigger OK(id)} :: OK(id) in s.packets ==>
          id in s.used && Shook(s.used[id].inp, s.used[id].out, id) in s.log)
  }

  /** Each event has its cause before it. */
  ghost predicate Ordered(addr: Client -> Address, log: seq<Event>) {
    && (forall k {:trigger log[k]} :: 0 <= k < |log| && log[k].Recorded? ==>
          Shook(log[k].link.inp, log[k].link.out, log[k].id) in log[..k])
    && (forall k {:trigger log[k]} :: 0 <= k < |log| && log[k].Shook? ==>
          Listened(log[k].at, log[k].sender, addr(log[k].sender), log[k].id) in log[..k])
  }

  ghost predicate OncePerId(log: seq<Event>) {
    forall j, k {:trigger log[j], log[k]} :: 0 <= j < k < |log| && log[j].Shook? && log[k].Shook? ==>
      log[j].id != log[k].id
  }

  /** A processed Listen left the client connected; a handshake in flight goes to a connected client from a started
      one. */
  ghost predicate Linked(addr: Client -> Address, s: State) { Reached(s) && Shaken(addr, s) }

  ghost predicate Reached(s: State) {
    forall e {:trigger e in s.log} :: e in s.log && e.Listened? ==> (e.at, e.address) in s.connected
  }

  ghost predicate Shaken(addr: Client -> Address, s: State) {
    && (forall l {:trigger s.armed[l]} :: l in s.armed && s.armed[l] > 0 ==> Started(l.out, l.inp) in s.log)
    && (forall p {:trigger p in s.packets} :: p in s.packets && p.Shake? ==>
          (p.to, addr(p.sender)) in s.connected && exists r :: Started(p.sender, r) in s.log)
  }

  /** The stage's record is what the log says was recorded. */
  ghost predicate Record(s: State) {
    && (forall l {:trigger l in s.subscribers} :: l in s.subscribers <==> exists id :: Recorded(l, id) in s.log)
  }

  lemma RoutedStep(addr: Client -> Address, s: State, a: Action)
    requires Routed(addr, s)
    ensures Routed(addr, Step(addr, s, a))
  {}

  lemma UnansweredListen(addr: Client -> Address, s: State, p: Packet)
    requires Routed(addr, s) && Unanswered(s)
    ensures Unanswered(ListenReceived(s, p))
  {}

  lemma UnansweredShake(addr: Client -> Address, s: State, p: Packet, last: bool)
    requires Routed(addr, s) && Unanswered(s)
    ensures Unanswered(ShakeReceived(s, p, last))
  {}

  lemma UnansweredOther(addr: Client -> Address, s: State, a: Action)
    requires Routed(addr, s) && Unanswered(s) && !a.RecvListen? && !a.RecvShake?
    ensures Unanswered(Step(addr, s, a))
  {}

  lemma UnansweredStep(addr: Client -> Address, s: State, a: Action)
    requires Routed(addr, s) && Unanswered(s)
    ensures Unanswered(Step(addr, s, a))
  {
    hide Routed, Unanswered;
    match a
    case RecvListen(p) => UnansweredListen(addr, s, p);
    case RecvShake(p, last) => UnansweredShake(addr, s, p, last);
    case _ => UnansweredOther(addr, s, a);
  }

  lemma WitnessedStep(addr: Client -> Address, s: State, a: Action)
    requires Routed(addr, s) && Witnessed(addr, s)
    ensures Witnessed(addr, Step(addr, s, a))
  {}

  /** What a step appends to the log is backed by what happened before. */
  ghost predicate Backed(addr: Client -> Address, log: seq<Event>, e: Event) {
    && (e.Recorded? ==> Shook(e.link.inp, e.link.out, e.id) in log)
    && (e.Shook? ==> Listened(e.at, e.sender, addr(e.sender), e.id) in log)
    && (e.Shook? ==> forall x {:trigger x in log} :: x in log && x.Shook? ==> x.id != e.id)
  }

  lemma LogStep(addr: Client -> Address, s: State, a: Action)
    requires Routed(addr, s) && Unanswered(s) && Witnessed(addr, s)
    ensures var t := Step(addr, s, a);
            t.log == s.log || exists e :: t.log == s.log + [e] && Backed(addr, s.log, e)
  {
    var t := Step(addr, s, a);
    if t.log != s.log { assert t.log == s.log + [t.log[|s.log|]] && Backed(addr, s.log, t.log[|s.log|]); }
  }

  lemma BackedKeeps(addr: Client -> Address, log: seq<Event>, e: Event)
    requires Ordered(addr, log) && OncePerId(log) && Backed(addr, log, e)
    ensures Ordered(addr, log + [e]) && OncePerId(log + [e])
  {
    var t := log + [e];
    assert t[..|log|] == log;
    forall k {:trigger t[k]} | 0 <= k < |t| && t[k].Recorded?
      ensures Shook(t[k].link.inp, t[k].link.out, t[k].id) in t[..k]
    {
      if k < |log| { assert t[..k] == log[..k] && t[k] == log[k]; }
    }
    forall k {:trigger t[k]} | 0 <= k < |t| && t[k].Shook?
      ensures Listened(t[k].at, t[k].sender, addr(t[k].sender), t[k].id) in t[..k]
    {
      if k < |log| { assert t[..k] == log[..k] && t[k] == log[k]; }
    }
    forall j, k {:trigger t[j], t[k]} | 0 <= j < k < |t| && t[j].Shook? && t[k].Shook? ensures t[j].id != t[k].id {
      assert t[j] == log[j] && t[j] in log;
      if k < |log| { assert t[k] == log[k]; }
    }
  }

  lemma OrderedStep(addr: Client -> Address, s: State, a: Action)
    requires Routed(addr, s) && Unanswered(s) && Witnessed(addr, s) && Ordered(addr, s.log) && OncePerId(s.log)
    ensures Ordered(addr, Step(addr, s, a).log) && OncePerId(Step(addr, s, a).log)
  {
    hide Routed, Unanswered, Witnessed, Ordered, OncePerId, Backed, Step;
    LogStep(addr, s, a);
    var t := Step(addr, s, a);
    if t.log != s.log {
      var e :| t.log == s.log + [e] && Backed(addr, s.log, e);
      BackedKeeps(addr, s.log, e);
    }
  }

  lemma ReachedStep(addr: Client -> Address, s: State, a: Action)
    requires Reached(s)
    ensures Reached(Step(addr, s, a))
  {}

  lemma ShakenTick(addr: Client -> Address, s: State, l: Link, to: set<Client>)
    requires Shaken(addr, s)
    ensures Shaken(addr, Ticked(addr, s, l, to))
  {}

  lemma ShakenOther(addr: Client -> Address, s: State, a: Action)
    requires Shaken(addr, s) && !a.Tick?
    ensures Shaken(addr, Step(addr, s, a))
  {}

  lemma LinkedStep(addr: Client -> Address, s: State, a: Action)
    requires Linked(addr, s)
    ensures Linked(addr, Step(addr, s, a))
  {
    hide Reached, Shaken;
    ReachedStep(addr, s, a);
    if a.Tick? { ShakenTick(addr, s, a.link, a.to); } else { ShakenOther(addr, s, a); }
  }

  /** The effect of a step on the log, the stage's record and the timers together. */
  ghost predicate Effect(s: State, t: State, e: Event) {
    && t.log == s.log + [e] && t.used == s.used
    && (if e.Recorded? || e.GaveUp? then e.id in s.requests && t.requests == s.requests - {e.id}
        else t.requests == s.requests)
    && t.subscribers == (if e.Recorded? then s.subscribers + {e.link} else s.subscribers)
    && t.timers == (if e.Started? then s.timers + {Link(e.at, e.receiver)}
                    else if e.Stopped? then s.timers - {Link(e.at, e.receiver)} else s.timers)
  }

  lemma ClientEffect(addr: Client -> Address, s: State, a: Action)
    requires a.RecvListen? || a.RecvStart? || a.RecvStop? || a.RecvShake?
    ensures var t := Step(addr, s, a);
            (t.log == s.log && t.requests == s.requests && t.used == s.used && t.subscribers == s.subscribers
              && t.timers == s.timers) || exists e :: Effect(s, t, e)
  {
    var t := Step(addr, s, a);
    if t.log != s.log {
      match a
      case RecvListen(p) => assert Effect(s, t, Listened(p.to, p.sender, p.address, p.id));
      case RecvStart(p) => assert Effect(s, t, Started(p.to, p.receiver));
      case RecvStop(p) => assert Effect(s, t, Stopped(p.to, p.receiver));
      case RecvShake(p, last) => assert Effect(s, t, Shook(p.to, p.sender, s.pending[Link(p.sender, p.to)]));
    }
  }

  lemma StageEffect(addr: Client -> Address, s: State, a: Action)
    requires a.RecvOK? || a.Timeout? || a.Tick?
    ensures var t := Step(addr, s, a);
            (t.log == s.log && t.requests == s.requests && t.used == s.used && t.subscribers == s.subscribers
              && t.timers == s.timers) || exists e :: Effect(s, t, e)
  {
    var t := Step(addr, s, a);
    if t.log != s.log {
      match a
      case RecvOK(id) => assert Effect(s, t, Recorded(s.requests[id], id));
      case Timeout(id) => assert Effect(s, t, GaveUp(id));
      case Tick(l, to) =>
    }
  }

  lemma StepEffect(addr: Client -> Address, s: State, a: Action)
    requires !a.Connect?
    ensures var t := Step(addr, s, a);
            (t.log == s.log && t.requests == s.requests && t.used == s.used && t.subscribers == s.subscribers
              && t.timers == s.timers) || exists e :: Effect(s, t, e)
  {
    hide Step, Effect;
    if a.RecvOK? || a.Timeout? || a.Tick? { StageEffect(addr, s, a); } else { ClientEffect(addr, s, a); }
  }

  lemma RecordStep(s: State, t: State, e: Event)
    requires Record(s) && Effect(s, t, e)
    ensures Record(t)
  {
    forall l {:trigger l in t.subscribers} ensures l in t.subscribers <==> exists id :: Recorded(l, id) in t.log {
      if l in s.subscribers { var id :| Recorded(l, id) in s.log; assert Recorded(l, id) in t.log; }
      if e.Recorded? && l == e.link { assert Recorded(l, e.id) in t.log; }
    }
  }

  /** What closes a request: its record or its timeout. */
  predicate Closes(e: Event, id: Id) { (e.Recorded? || e.GaveUp?) && e.id == id }

  /** A request is open exactly while nothing has closed it; a record is of the link that was asked for. */
  ghost predicate Open(s: State) {
    && (forall id {:trigger id in s.requests} :: id in s.requests <==>
          id in s.used && forall e {:trigger e in s.log} :: e in s.log ==> !Closes(e, id))
    && (forall id {:trigger s.requests[id]} :: id in s.requests ==> s.used[id] == s.requests[id])
    && (forall e {:trigger e in s.log} :: e in s.log && (e.Recorded? || e.GaveUp?) ==> e.id in s.used)
  }

  ghost predicate ClosedOnce(log: seq<Event>) {
    forall j, k {:trigger log[j], log[k]} :: 0 <= j < k < |log| && (log[k].Recorded? || log[k].GaveUp?) ==>
      !Closes(log[j], log[k].id)
  }

  lemma OpenAppend(s: State, t: State, e: Event)
    requires Open(s) && Effect(s, t, e)
    ensures Open(t)
  {
    assert forall x {:trigger x in t.log} :: x in t.log <==> x in s.log || x == e;
    assert e in t.log && forall x {:trigger x in s.log} :: x in s.log ==> x in t.log;
    forall id {:trigger id in t.requests}
      ensures id in t.requests <==> id in t.used && forall x {:trigger x in t.log} :: x in t.log ==> !Closes(x, id)
    {
      if id in t.requests { assert id in s.requests && !Closes(e, id); }
      if id in t.used && forall x {:trigger x in t.log} :: x in t.log ==> !Closes(x, id) {
        assert id in s.requests && !Closes(e, id);
      }
    }
  }

  lemma ClosedAppend(s: State, t: State, e: Event)
    requires Open(s) && ClosedOnce(s.log) && Effect(s, t, e)
    ensures ClosedOnce(t.log)
  {
    forall j, k {:trigger t.log[j], t.log[k]} | 0 <= j < k < |t.log| && (t.log[k].Recorded? || t.log[k].GaveUp?)
      ensures !Closes(t.log[j], t.log[k].id)
    {
      assert t.log[j] == s.log[j] && s.log[j] in s.log;
      if k < |s.log| { assert t.log[k] == s.log[k]; } else { assert e.id in s.requests; }
    }
  }

  lemma OpenConnect(addr: Client -> Address, s: State, l: Link, id: Id)
    requires Open(s)
    ensures Open(Connected(addr, s, l, id)) && Connected(addr, s, l, id).log == s.log
  {
    var t := Connected(addr, s, l, id);
    forall x {:trigger x in t.requests} ensures x in t.requests <==>
      x in t.used && forall e {:trigger e in t.log} :: e in t.log ==> !Closes(e, x)
    {
      assert x in s.requests <==> x in s.used && forall e {:trigger e in s.log} :: e in s.log ==> !Closes(e, x);
    }
  }

  lemma OpenSame(s: State, t: State)
    requires Open(s) && t.log == s.log && t.requests == s.requests && t.used == s.used
    ensures Open(t)
  {
    forall x {:trigger x in t.requests} ensures x in t.requests <==>
      x in t.used && forall e {:trigger e in t.log} :: e in t.log ==> !Closes(e, x)
    {
      assert x in s.requests <==> x in s.used && forall e {:trigger e in s.log} :: e in s.log ==> !Closes(e, x);
    }
  }

  /** The last Start or Stop that the output client processed for this link is a Start. */
  ghost predicate Broadcasting(log: seq<Event>, l: Link) {
    log != [] && (var e := log[|log| - 1];
                  e == Started(l.out, l.inp) || (e != Stopped(l.out, l.inp) && Broadcasting(log[..|log| - 1], l)))
  }

  lemma TimersStep(s: State, t: State, e: Event)
    requires Effect(s, t, e) && forall l {:trigger l in s.timers} :: l in s.timers <==> Broadcasting(s.log, l)
    ensures forall l {:trigger l in t.timers} :: l in t.timers <==> Broadcasting(t.log, l)
  {
    assert t.log[..|t.log| - 1] == s.log;
  }

  ghost predicate Kept(s: State) {
    Record(s) && Open(s) && ClosedOnce(s.log) && forall l {:trigger l in s.timers} :: l in s.timers <==>
      Broadcasting(s.log, l)
  }

  lemma KeptSame(s: State, t: State)
    requires Kept(s) && t.log == s.log && t.subscribers == s.subscribers && t.timers == s.timers && Open(t)
    ensures Kept(t)
  {}

  lemma KeptConnect(addr: Client -> Address, s: State, l: Link, id: Id)
    requires Kept(s)
    ensures Kept(Connected(addr, s, l, id))
  {
    OpenConnect(addr, s, l, id);
    KeptSame(s, Connected(addr, s, l, id));
  }

  lemma KeptEffect(s: State, t: State, e: Event)
    requires Kept(s) && Effect(s, t, e)
    ensures Kept(t)
  {
    hide Open, ClosedOnce, Record, Broadcasting, Effect;
    RecordStep(s, t, e);
    TimersStep(s, t, e);
    OpenAppend(s, t, e);
    ClosedAppend(s, t, e);
  }

  lemma KeptStep(addr: Client -> Address, s: State, a: Action)
    requires Kept(s)
    ensures Kept(Step(addr, s, a))
  {
    if a.Connect? {
      hide Kept;
      KeptConnect(addr, s, a.link, a.id);
    } else {
      hide Step, Effect, Open, ClosedOnce, Record, Broadcasting;
      var t := Step(addr, s, a);
      StepEffect(addr, s, a);
      if e :| Effect(s, t, e) {
        KeptEffect(s, t, e);
      } else {
        OpenSame(s, t);
        KeptSame(s, t);
      }
    }
  }

  ghost predicate Inv(addr: Client -> Address, s: State) {
    && Routed(addr, s) && Unanswered(s) && Witnessed(addr, s) && Ordered(addr, s.log) && OncePerId(s.log)
    && Linked(addr, s) && Kept(s)
  }

  lemma {:induction false} InvAlways(addr: Client -> Address, acts: seq<Action>)
    ensures Inv(addr, Run(addr, acts))
  {
    if acts != [] {
      var s, a := Run(addr, acts[..|acts| - 1]), acts[|acts| - 1];
      InvAlways(addr, acts[..|acts| - 1]);
      hide Routed, Unanswered, Witnessed, Ordered, OncePerId, Linked, Kept, Step;
      RoutedStep(addr, s, a);
      UnansweredStep(addr, s, a);
      WitnessedStep(addr, s, a);
      OrderedStep(addr, s, a);
      LinkedStep(addr, s, a);
      KeptStep(addr, s, a);
    }
  }

  // ---------------------------------------------------------------- what every interleaving keeps

  /** In every run, when the stage records B as subscriber of A under an id, B had before processed the Listen of that
      id, connected to A's address, and after that received a handshake from A. */
  lemma RecordedAfterHandshake(addr: Client -> Address, acts: seq<Action>, k: nat) returns (i: nat, j: nat)
    requires var log := Run(addr, acts).log; k < |log| && log[k].Recorded?
    ensures var s := Run(addr, acts);
            && i < j < k && s.log[j] == Shook(s.log[k].link.inp, s.log[k].link.out, s.log[k].id)
            && s.log[i] == Listened(s.log[k].link.inp, s.log[k].link.out, addr(s.log[k].link.out), s.log[k].id)
            && (s.log[k].link.inp, addr(s.log[k].link.out)) in s.connected
  {
    InvAlways(addr, acts);
    var s := Run(addr, acts);
    var e := s.log[k];
    var shook := Shook(e.link.inp, e.link.out, e.id);
    assert shook in s.log[..k];
    j :| 0 <= j < k && s.log[..k][j] == shook;
    assert s.log[j] == shook;
    var listened := Listened(e.link.inp, e.link.out, addr(e.link.out), e.id);
    assert listened in s.log[..j];
    i :| 0 <= i < j && s.log[..j][i] == listened;
    assert s.log[i] == listened && s.log[i] in s.log;
  }

  /** In every run at most one OK is sent per Listen id, and a link is recorded exactly when a Recorded event says
      so. */
  lemma OneOKPerListen(addr: Client -> Address, acts: seq<Action>, j: nat, k: nat)
    requires var log := Run(addr, acts).log;
             j < |log| && k < |log| && log[j].Shook? && log[k].Shook? && log[j].id == log[k].id
    ensures j == k
  {
    InvAlways(addr, acts);
  }

  /** In every run a request is closed at most once: never recorded twice, and never after its wait ran out. */
  lemma RecordedOnceOrGivenUp(addr: Client -> Address, acts: seq<Action>, j: nat, k: nat)
    requires var log := Run(addr, acts).log; j < |log| && k < |log| && log[k].Recorded? && Closes(log[j], log[k].id)
    ensures j == k
  {
    InvAlways(addr, acts);
  }

  lemma SubscribersAreRecorded(addr: Client -> Address, acts: seq<Action>, l: Link)
    ensures var s := Run(addr, acts); l in s.subscribers <==> exists id :: Recorded(l, id) in s.log
  {
    InvAlways(addr, acts);
  }

  /** In every run a client keeps a broadcast timer exactly while its last Start or Stop was a Start, and a handshake in
      flight goes from a client that was started to one connected to its address. */
  lemma HandshakesOnlyWhenStarted(addr: Client -> Address, acts: seq<Action>)
    ensures var s := Run(addr, acts);
            && (forall l {:trigger l in s.timers} :: l in s.timers <==> Broadcasting(s.log, l))
            && (forall p {:trigger p in s.packets} :: p in s.packets && p.Shake? ==>
                  (p.to, addr(p.sender)) in s.connected && exists r :: Started(p.sender, r) in s.log)
  {
    InvAlways(addr, acts);
  }

  // ---------------------------------------------------------------- a link is made

  lemma RunOne(addr: Client -> Address, acts: seq<Action>, a: Action)
    ensures Run(addr, acts + [a]) == Step(addr, Run(addr, acts), a)
  {
    assert (acts + [a])[..|acts + [a]| - 1] == acts;
  }

  /** Both clients have done as they were asked: the input client listens under `id`, the output client publishes. */
  ghost predicate Ready(addr: Client -> Address, s: State, l: Link, id: Id) {
    && l in s.pending && s.pending[l] == id && (l.inp, addr(l.out)) in s.connected
    && l in s.timers && Armed(s, l) > 0 && id in s.requests && s.requests[id] == l
  }

  lemma BothAsked(addr: Client -> Address, s: State, l: Link, id: Id)
    requires l !in s.subscribers && l.out != l.inp && id !in s.used
    ensures var t := Connected(addr, s, l, id);
            Ready(addr, StartReceived(ListenReceived(t, Listen(l.inp, l.out, addr(l.out), id)),
              Start(l.out, l.inp, id)),
              l, id)
  {}

  lemma Answered(addr: Client -> Address, s: State, l: Link, id: Id, last: bool)
    requires Ready(addr, s, l, id)
    ensures var t := ShakeReceived(Ticked(addr, s, l, {l.inp}), Shake(l.inp, l.out), last);
            OK(id) in t.packets && id in t.requests && t.requests[id] == l && t.log == s.log + [Shook(l.inp, l.out, id)]
  {
    var t := Ticked(addr, s, l, {l.inp});
    assert Shake(l.inp, l.out) in t.packets;
  }

  lemma RecordedNow(s: State, l: Link, id: Id)
    requires OK(id) in s.packets && id in s.requests && s.requests[id] == l
    ensures var t := OKReceived(s, id);
            && t.subscribers == s.subscribers + {l} && id !in t.requests && t.log == s.log + [Recorded(l, id)]
            && OK(id) !in t.packets
            && Stop(l.out, l.inp, id) in t.packets && l !in StopReceived(t, Stop(l.out, l.inp, id)).timers
  {}

  /** The six steps of a handshake in their order, each on the packet that the ones before it sent. */
  ghost function Course(addr: Client -> Address, l: Link, id: Id, last: bool): seq<Action> {
    [Connect(l, id)] + [RecvListen(Listen(l.inp, l.out, addr(l.out), id))] + [RecvStart(Start(l.out, l.inp, id))]
    + [Tick(l, {l.inp})] + [RecvShake(Shake(l.inp, l.out), last)] + [RecvOK(id)]
  }

  lemma RunCourse(addr: Client -> Address, acts: seq<Action>, l: Link, id: Id, last: bool)
    ensures var t := StartReceived(ListenReceived(Connected(addr, Run(addr, acts), l, id),
                       Listen(l.inp, l.out, addr(l.out), id)), Start(l.out, l.inp, id));
            Run(addr, acts + Course(addr, l, id, last)) ==
            OKReceived(ShakeReceived(Ticked(addr, t, l, {l.inp}), Shake(l.inp, l.out), last), id)
  {
    hide Run, Connected, ListenReceived, StartReceived, Ticked, ShakeReceived, OKReceived;
    var a1 := acts + [Connect(l, id)];
    var a2 := a1 + [RecvListen(Listen(l.inp, l.out, addr(l.out), id))];
    var a3 := a2 + [RecvStart(Start(l.out, l.inp, id))];
    var a4 := a3 + [Tick(l, {l.inp})];
    var a5 := a4 + [RecvShake(Shake(l.inp, l.out), last)];
    RunOne(addr, acts, Connect(l, id));
    RunOne(addr, a1, RecvListen(Listen(l.inp, l.out, addr(l.out), id)));
    RunOne(addr, a2, RecvStart(Start(l.out, l.inp, id)));
    RunOne(addr, a3, Tick(l, {l.inp}));
    RunOne(addr, a4, RecvShake(Shake(l.inp, l.out), last));
    RunOne(addr, a5, RecvOK(id));
    assert acts + Course(addr, l, id, last) == a5 + [RecvOK(id)];
  }

  /** After every run, a link that is not recorded and an unused id: when input and output client do as the stage asks
      and one handshake gets through, the stage records exactly that link, and its Stop clears the output client's
      timer. */
  lemma LinkIsMade(addr: Client -> Address, acts: seq<Action>, l: Link, id: Id, last: bool)
    requires var s := Run(addr, acts); l !in s.subscribers && l.out != l.inp && id !in s.used
    ensures var t := Run(addr, acts + Course(addr, l, id, last));
            && t.subscribers == Run(addr, acts).subscribers + {l} && id !in t.requests && OK(id) !in t.packets
            && l !in Run(addr, acts + Course(addr, l, id, last) + [RecvStop(Stop(l.out, l.inp, id))]).timers
  {
    hide Run, Connected, ListenReceived, StartReceived, Ticked, ShakeReceived, OKReceived, StopReceived, Ready, Course;
    var s := Run(addr, acts);
    RunCourse(addr, acts, l, id, last);
    var t := StartReceived(ListenReceived(Connected(addr, s, l, id), Listen(l.inp, l.out, addr(l.out), id)),
      Start(l.out, l.inp, id));
    BothAsked(addr, s, l, id);
    SameSubscribers(addr, s, l, id, last);
    Answered(addr, t, l, id, last);
    RecordedNow(ShakeReceived(Ticked(addr, t, l, {l.inp}), Shake(l.inp, l.out), last), l, id);
    RunOne(addr, acts + Course(addr, l, id, last), RecvStop(Stop(l.out, l.inp, id)));
  }

  lemma SameSubscribers(addr: Client -> Address, s: State, l: Link, id: Id, last: bool)
    ensures var t := StartReceived(ListenReceived(Connected(addr, s, l, id), Listen(l.inp, l.out, addr(l.out), id)),
                       Start(l.out, l.inp, id));
            ShakeReceived(Ticked(addr, t, l, {l.inp}), Shake(l.inp, l.out), last).subscribers == s.subscribers
  {
    hide Connected, ListenReceived, StartReceived, Ticked, ShakeReceived;
    var s1 := Connected(addr, s, l, id);
    OnlyOKRecords(addr, s, Connect(l, id));
    var s2 := ListenReceived(s1, Listen(l.inp, l.out, addr(l.out), id));
    OnlyOKRecords(addr, s1, RecvListen(Listen(l.inp, l.out, addr(l.out), id)));
    var s3 := StartReceived(s2, Start(l.out, l.inp, id));
    OnlyOKRecords(addr, s2, RecvStart(Start(l.out, l.inp, id)));
    OnlyOKRecords(addr, s3, Tick(l, {l.inp}));
    OnlyOKRecords(addr, Ticked(addr, s3, l, {l.inp}), RecvShake(Shake(l.inp, l.out), last));
  }

  lemma OnlyOKRecords(addr: Client -> Address, s: State, a: Action)
    requires !a.RecvOK?
    ensures Step(addr, s, a).subscribers == s.subscribers
  {}

  /** What the stage asks for: the input client is to listen to the output client at that one's address, and the output
      client to publish for the input client; nothing is asked for a recorded link, or of a client and itself. */
  lemma WhoIsAsked(addr: Client -> Address, s: State, l: Link, id: Id, p: Packet)
    requires id !in s.used
    ensures p in Connected(addr, s, l, id).packets && p !in s.packets ==>
              l !in s.subscribers && l.out != l.inp &&
              (p == Listen(l.inp, l.out, addr(l.out), id) || p == Start(l.out, l.inp, id))
    ensures l in s.subscribers || l.out == l.inp ==> Connected(addr, s, l, id) == s
  {}

  /** A listener that was never asked, or has already answered, ignores the handshake; the last delivery of a packet
      takes it off the network. */
  lemma ShakeIgnored(s: State, p: Packet, last: bool)
    requires p.Shake? && Link(p.sender, p.to) !in s.pending
    ensures var t := ShakeReceived(s, p, last);
            && t.log == s.log && t.pending == s.pending && t.packets == if last then s.packets - {p} else s.packets
  {}

  // ---------------------------------------------------------------- nothing is done twice

  /** How often an event of the log satisfies its description. */
  ghost function Starts(log: seq<Event>, l: Link): nat {
    if log == [] then 0
    else Starts(log[..|log| - 1], l) + if log[|log| - 1] == Started(l.out, l.inp) then 1 else 0
  }

  ghost function Stops(log: seq<Event>, l: Link): nat {
    if log == [] then 0
    else Stops(log[..|log| - 1], l) + if log[|log| - 1] == Stopped(l.out, l.inp) then 1 else 0
  }

  ghost function Records(log: seq<Event>, l: Link): nat {
    if log == [] then 0
    else Records(log[..|log| - 1], l) + if log[|log| - 1].Recorded? && log[|log| - 1].link == l then 1 else 0
  }

  /** Start and Stop packets on their way for a link, and the ids under which the stage asked for it. */
  ghost function StartsSent(packets: set<Packet>, l: Link): set<Packet> {
    set p | p in packets && IsStart(p, l)
  }

  ghost function StopsSent(packets: set<Packet>, l: Link): set<Packet> {
    set p | p in packets && IsStop(p, l)
  }

  ghost function Asked(used: map<Id, Link>, l: Link): set<Id> { set id | id in used && used[id] == l }

  /** A Start bears an id in use, a Stop one whose request is closed. */
  ghost predicate Numbered(s: State) {
    && (forall p {:trigger p in s.packets} :: p in s.packets && (p.Start? || p.Stop?) ==> p.id in s.used)
    && (forall p {:trigger p in s.packets} :: p in s.packets && p.Stop? ==> p.id !in s.requests)
    && (forall id {:trigger s.requests[id]} :: id in s.requests ==> id in s.used)
  }

  ghost predicate Balanced(s: State, l: Link) {
    && Starts(s.log, l) + |StartsSent(s.packets, l)| == |Asked(s.used, l)|
    && Stops(s.log, l) + |StopsSent(s.packets, l)| == Records(s.log, l)
  }

  lemma NumberedStep(addr: Client -> Address, s: State, a: Action)
    requires Numbered(s)
    ensures Numbered(Step(addr, s, a))
  {}

  lemma AddPacket(packets: set<Packet>, p: Packet, l: Link)
    requires p !in packets || (!p.Start? && !p.Stop?)
    ensures |StartsSent(packets + {p}, l)| == |StartsSent(packets, l)| + if IsStart(p, l) then 1 else 0
    ensures |StopsSent(packets + {p}, l)| == |StopsSent(packets, l)| + if IsStop(p, l) then 1 else 0
  {
    AddStart(packets, p, l);
    AddStop(packets, p, l);
    hide StartsSent, StopsSent;
  }

  lemma AddStart(packets: set<Packet>, p: Packet, l: Link)
    requires p !in packets || (!p.Start? && !p.Stop?)
    ensures |StartsSent(packets + {p}, l)| == |StartsSent(packets, l)| + if IsStart(p, l) then 1 else 0
  {
    assert StartsSent(packets + {p}, l) == StartsSent(packets, l) + if IsStart(p, l) then {p} else {};
  }

  lemma AddStop(packets: set<Packet>, p: Packet, l: Link)
    requires p !in packets || (!p.Start? && !p.Stop?)
    ensures |StopsSent(packets + {p}, l)| == |StopsSent(packets, l)| + if IsStop(p, l) then 1 else 0
  {
    assert StopsSent(packets + {p}, l) == StopsSent(packets, l) + if IsStop(p, l) then {p} else {};
  }

  lemma DropPacket(packets: set<Packet>, p: Packet, l: Link)
    requires p in packets
    ensures |StartsSent(packets - {p}, l)| == |StartsSent(packets, l)| - if IsStart(p, l) then 1 else 0
    ensures |StopsSent(packets - {p}, l)| == |StopsSent(packets, l)| - if IsStop(p, l) then 1 else 0
  {
    AddPacket(packets - {p}, p, l);
    assert packets - {p} + {p} == packets;
  }

  ghost predicate IsStart(p: Packet, l: Link) { p.Start? && p.to == l.out && p.receiver == l.inp }

  ghost predicate IsStop(p: Packet, l: Link) { p.Stop? && p.to == l.out && p.receiver == l.inp }

  lemma SameSent(x: set<Packet>, y: set<Packet>, l: Link)
    requires forall p: Packet {:trigger p in y} :: p.Start? || p.Stop? ==> (p in x <==> p in y)
    ensures StartsSent(x, l) == StartsSent(y, l) && StopsSent(x, l) == StopsSent(y, l)
  {}

  lemma LogMore(log: seq<Event>, e: Event, l: Link)
    ensures Starts(log + [e], l) == Starts(log, l) + if e == Started(l.out, l.inp) then 1 else 0
    ensures Stops(log + [e], l) == Stops(log, l) + if e == Stopped(l.out, l.inp) then 1 else 0
    ensures Records(log + [e], l) == Records(log, l) + if e.Recorded? && e.link == l then 1 else 0
  {
    assert (log + [e])[..|log|] == log;
  }

  lemma AskMore(used: map<Id, Link>, id: Id, m: Link, l: Link)
    requires id !in used
    ensures |Asked(used[id := m], l)| == |Asked(used, l)| + if m == l then 1 else 0
  {
    assert Asked(used[id := m], l) == Asked(used, l) + if m == l then {id} else {};
  }

  lemma BalancedConnect(addr: Client -> Address, s: State, m: Link, id: Id, l: Link)
    requires Numbered(s) && Balanced(s, l)
    ensures Balanced(Connected(addr, s, m, id), l)
  {
    hide StartsSent, StopsSent, Asked, Starts, Stops, Records;
    var t := Connected(addr, s, m, id);
    if t != s {
      var p, q := Listen(m.inp, m.out, addr(m.out), id), Start(m.out, m.inp, id);
      assert q !in s.packets;
      hide Numbered;
      AddPacket(s.packets, p, l);
      AddPacket(s.packets + {p}, q, l);
      assert t.packets == s.packets + {p} + {q};
      AskMore(s.used, id, m, l);
    }
  }

  lemma BalancedStart(s: State, p: Packet, l: Link)
    requires Balanced(s, l)
    ensures Balanced(StartReceived(s, p), l)
  {
    hide StartsSent, StopsSent, Asked, Starts, Stops, Records;
    if StartReceived(s, p) != s {
      LogMore(s.log, Started(p.to, p.receiver), l);
      DropPacket(s.packets, p, l);
    }
  }

  lemma BalancedStop(s: State, p: Packet, l: Link)
    requires Balanced(s, l)
    ensures Balanced(StopReceived(s, p), l)
  {
    hide StartsSent, StopsSent, Asked, Starts, Stops, Records;
    if StopReceived(s, p) != s {
      LogMore(s.log, Stopped(p.to, p.receiver), l);
      DropPacket(s.packets, p, l);
    }
  }

  lemma BalancedOK(s: State, id: Id, l: Link)
    requires Numbered(s) && Balanced(s, l)
    ensures Balanced(OKReceived(s, id), l)
  {
    hide StartsSent, StopsSent, Asked, Starts, Stops, Records;
    if OK(id) in s.packets {
      DropPacket(s.packets, OK(id), l);
      if id in s.requests {
        var m := s.requests[id];
        var q := Stop(m.out, m.inp, id);
        assert q !in s.packets;
        hide Numbered;
        LogMore(s.log, Recorded(m, id), l);
        AddPacket(s.packets - {OK(id)}, q, l);
      }
    }
  }

  lemma OtherChanges(addr: Client -> Address, s: State, a: Action)
    requires a.RecvListen? || a.Tick? || a.RecvShake? || a.Timeout?
    ensures var t := Step(addr, s, a);
            && t.used == s.used && (forall p: Packet {:trigger p in t.packets} :: p.Start? || p.Stop? ==>
                 (p in s.packets <==> p in t.packets))
            && (t.log == s.log || exists e ::
                  t.log == s.log + [e] && !e.Started? && !e.Stopped? && !e.Recorded?)
  {
    var t := Step(addr, s, a);
    if t.log != s.log { assert t.log == s.log + [t.log[|s.log|]]; }
  }

  lemma BalancedOther(addr: Client -> Address, s: State, a: Action, l: Link)
    requires Balanced(s, l) && (a.RecvListen? || a.Tick? || a.RecvShake? || a.Timeout?)
    ensures Balanced(Step(addr, s, a), l)
  {
    hide Step, StartsSent, StopsSent, Asked, Starts, Stops, Records;
    var t := Step(addr, s, a);
    OtherChanges(addr, s, a);
    SameSent(s.packets, t.packets, l);
    if t.log != s.log {
      var e :| t.log == s.log + [e] && !e.Started? && !e.Stopped? && !e.Recorded?;
      LogMore(s.log, e, l);
    }
  }

  lemma {:induction false} AlwaysBalanced(addr: Client -> Address, acts: seq<Action>, l: Link)
    ensures Numbered(Run(addr, acts)) && Balanced(Run(addr, acts), l)
  {
    if acts != [] {
      var s, a := Run(addr, acts[..|acts| - 1]), acts[|acts| - 1];
      AlwaysBalanced(addr, acts[..|acts| - 1], l);
      hide Numbered, Balanced, Connected, ListenReceived, StartReceived, StopReceived, Ticked, ShakeReceived,
           OKReceived,
           GivenUp;
      NumberedStep(addr, s, a);
      match a
      case Connect(m, id) => BalancedConnect(addr, s, m, id, l);
      case RecvStart(p) => BalancedStart(s, p, l);
      case RecvStop(p) => BalancedStop(s, p, l);
      case RecvOK(id) => BalancedOK(s, id, l);
      case _ => BalancedOther(addr, s, a, l);
    }
  }

  /** In every run the output client starts as often as the stage asked for the link, less the requests still on their
      way, and stops as often as the link was recorded, less the Stops still on their way. */
  lemma EachAskedOnce(addr: Client -> Address, acts: seq<Action>, l: Link)
    ensures var s := Run(addr, acts);
            && Starts(s.log, l) + |StartsSent(s.packets, l)| == |Asked(s.used, l)|
            && Stops(s.log, l) + |StopsSent(s.packets, l)| == Records(s.log, l)
  {
    AlwaysBalanced(addr, acts, l);
  }

  // ---------------------------------------------------------------- waits run out

  /** Ticks that found a wait armed although the timer had been cleared. */
  ghost function Lapsed(addr: Client -> Address, acts: seq<Action>, l: Link): nat {
    if acts == [] then 0
    else
      var n, s := |acts| - 1, Run(addr, acts[..|acts| - 1]);
      Lapsed(addr, acts[..n], l) +
      if acts[n].Tick? && acts[n].link == l && Armed(s, l) > 0 && l !in s.timers then 1 else 0
  }

  /** In every run each Start arms one wait, and each wait is still armed or ran out at a tick after the timer was
      cleared; while the timer is there, none does. */
  lemma {:induction false} WaitsRunOut(addr: Client -> Address, acts: seq<Action>, l: Link)
    ensures Armed(Run(addr, acts), l) + Lapsed(addr, acts, l) == Starts(Run(addr, acts).log, l)
  {
    if acts != [] {
      var s, a := Run(addr, acts[..|acts| - 1]), acts[|acts| - 1];
      var t := Step(addr, s, a);
      WaitsRunOut(addr, acts[..|acts| - 1], l);
      ArmedStep(addr, s, a, l);
      hide Step;
      if t.log != s.log { LogMore(s.log, t.log[|s.log|], l); }
    }
  }

  /** What a step does to the log and to the waits of a link. */
  ghost predicate ArmedBy(s: State, t: State, a: Action, l: Link) {
    && (t.log == s.log || (|t.log| == |s.log| + 1 && t.log == s.log + [t.log[|s.log|]]))
    && Armed(t, l) == Armed(s, l) +
         (if t.log != s.log && t.log[|s.log|] == Started(l.out, l.inp) then 1 else 0) -
         (if a.Tick? && a.link == l && Armed(s, l) > 0 && l !in s.timers then 1 else 0)
  }

  lemma ArmedStep(addr: Client -> Address, s: State, a: Action, l: Link)
    ensures ArmedBy(s, Step(addr, s, a), a, l)
  {
    match a
    case RecvStart(p) => ArmedStart(s, p, l);
    case Tick(m, to) => ArmedTick(addr, s, m, to, l);
    case _ => ArmedOther(addr, s, a, l);
  }

  lemma ArmedStart(s: State, p: Packet, l: Link)
    ensures ArmedBy(s, StartReceived(s, p), RecvStart(p), l)
  {}

  lemma ArmedTick(addr: Client -> Address, s: State, m: Link, to: set<Client>, l: Link)
    ensures ArmedBy(s, Ticked(addr, s, m, to), Tick(m, to), l)
  {}

  lemma ArmedOther(addr: Client -> Address, s: State, a: Action, l: Link)
    requires !a.RecvStart? && !a.Tick?
    ensures ArmedBy(s, Step(addr, s, a), a, l)
  {}

  // ---------------------------------------------------------------- a handshake was published

  /** Every handshake that was answered came from a client that had been started. */
  ghost predicate Published(s: State) {
    forall e {:trigger e in s.log} :: e in s.log && e.Shook? ==> exists r :: Started(e.sender, r) in s.log
  }

  lemma PublishedStep(addr: Client -> Address, s: State, a: Action)
    requires Shaken(addr, s) && Published(s)
    ensures Published(Step(addr, s, a))
  {
    var t := Step(addr, s, a);
    forall e {:trigger e in t.log} | e in t.log && e.Shook? ensures exists r :: Started(e.sender, r) in t.log {
      if e in s.log {
        var r :| Started(e.sender, r) in s.log;
        assert Started(e.sender, r) in t.log;
      } else {
        var r :| Started(a.p.sender, r) in s.log;
        assert Started(e.sender, r) in t.log;
      }
    }
  }

  /** In every run an answered handshake, and so every record, goes back to a Start of the sender. */
  lemma {:induction false} AnsweredWasStarted(addr: Client -> Address, acts: seq<Action>)
    ensures Published(Run(addr, acts))
  {
    if acts != [] {
      AnsweredWasStarted(addr, acts[..|acts| - 1]);
      InvAlways(addr, acts[..|acts| - 1]);
      hide Step, Published;
      PublishedStep(addr, Run(addr, acts[..|acts| - 1]), acts[|acts| - 1]);
    }
  }
}
