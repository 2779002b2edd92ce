/** The request layer: promises by message id, blocking senders, the dispatch thread, and the recycling message pool. */
module Requests {
  import opened Common

  const MESSAGE_POOL_BLOCK := 4096

  type MsgId = nat

  /** The identity of a message object; objects are recycled through the pool. */
  type Obj = nat

  /** Where a blocking_send stands, with the message it took from its future, if any. */
  datatype Sender =
    | Waiting
    | Got(msg: Option<Obj>)        // the future was ready, or the wait timed out
    | Called(msg: Option<Obj>)     // on_recv_response has run
    | Returned

  /** What the dispatch thread is doing with a message. */
  datatype Dispatch = Idle | Handling(obj: Obj) | Owning(obj: Obj)

  /** One run of a request's callback: the request, and the id of the message it was given. */
  datatype Callback = Callback(request: MsgId, reply: Option<MsgId>)

  datatype State = State(
    pool: seq<Obj>, next: nat,
    ident: map<Obj, MsgId>,        // the id a message object was last given
    flagged: set<Obj>,             // has_promise
    queue: seq<Obj>, dispatch: Dispatch,
    promises: map<MsgId, Option<Obj>>, owned: map<MsgId, Obj>, dead: seq<MsgId>,
    senders: map<MsgId, Sender>,
    // history: deliveries are numbered; an object carries the number of its last one
    delivery: map<Obj, nat>, deliveries: nat,
    handled: set<nat>, cleaned: seq<nat>, callbacks: seq<Callback>)

  datatype Action =
    | Register(id: MsgId)      // blocking_send registers its promise and sends
    | Receive(id: MsgId)       // the socket thread fills a message from the pool and queues it
    | Handle                   // the dispatch thread takes a message and runs its handlers
    | Claim                    // a handler flagged the message for itself: the message is left to it
    | Complete                 // completion: no promise, or ownership is taken for the promise
    | Fulfil                   // set_value on the promise
    | Wake(id: MsgId)          // the future is ready
    | Timeout(id: MsgId)       // the wait ran out
    | Call(id: MsgId)          // on_recv_response
    | Return(id: MsgId)        // release what is owned, queue the promise for removal, return
    | Purge                    // cleanup_response_messages takes one dead promise

  const START := State([], 0, map[], {}, [], Idle, map[], map[], [], map[], map[], 0, {}, [], [])

  function Block(from: nat): seq<Obj> { seq(MESSAGE_POOL_BLOCK, i requires 0 <= i => from + i) }

  function Populated(s: State): State {
    if s.pool != [] then s else s.(pool := Block(s.next), next := s.next + MESSAGE_POOL_BLOCK)
  }

  function Received(s: State, id: MsgId): State {
    var t := Populated(s);
    var o := t.pool[0];
    t.(pool := t.pool[1..], ident := t.ident[o := id], queue := t.queue + [o],
       delivery := t.delivery[o := t.deliveries], deliveries := t.deliveries + 1)
  }

  function Handled(s: State): State {
    if s.dispatch.Idle? && s.queue != [] && s.queue[0] in s.delivery then
      s.(queue := s.queue[1..], dispatch := Handling(s.queue[0]), handled := s.handled + {s.delivery[s.queue[0]]})
    else s
  }

  function Claimed(s: State): State {
    if s.dispatch.Handling? then s.(dispatch := Idle, flagged := s.flagged + {s.dispatch.obj}) else s
  }

  function Completed(s: State): State {
    if s.dispatch.Handling? && s.dispatch.obj in s.ident && s.dispatch.obj in s.delivery then
      var o := s.dispatch.obj;
      if s.ident[o] in s.promises then
        s.(flagged := s.flagged + {o}, owned := s.owned[s.ident[o] := o], dispatch := Owning(o))
      else
        s.(cleaned := s.cleaned + [s.delivery[o]], pool := s.pool + [o], dispatch := Idle)
    else s
  }

  function Fulfilled(s: State): State {
    if s.dispatch.Owning? && s.dispatch.obj in s.ident then
      var id := s.ident[s.dispatch.obj];
      // a second set_value throws and is caught
      s.(dispatch := Idle,
         promises := if id in s.promises && s.promises[id].None? then s.promises[id := Some(s.dispatch.obj)]
                     else s.promises)
    else s
  }

  function Registered(s: State, id: MsgId): State {
    if id in s.senders then s else s.(promises := s.promises[id := None], senders := s.senders[id := Waiting])
  }

  function Woken(s: State, id: MsgId): State {
    if id in s.senders && s.senders[id].Waiting? && id in s.promises && s.promises[id].Some? then
      s.(senders := s.senders[id := Got(s.promises[id])])
    else s
  }

  function TimedOut(s: State, id: MsgId): State {
    if id in s.senders && s.senders[id].Waiting? then s.(senders := s.senders[id := Got(None)]) else s
  }

  function CalledBack(s: State, id: MsgId): State {
    if id in s.senders && s.senders[id].Got? && (s.senders[id].msg.Some? ==> s.senders[id].msg.value in s.ident) then
      var m := s.senders[id].msg;
      s.(senders := s.senders[id := Called(m)],
         callbacks := s.callbacks + [Callback(id, if m.Some? then Some(s.ident[m.value]) else None)])
    else s
  }

  /** release_owned_message: the cleanup of whatever message is owned under this message's id. */
  function ReleasedOwned(s: State, o: Obj): State {
    if o in s.ident && s.ident[o] in s.owned && s.owned[s.ident[o]] in s.delivery then
      s.(cleaned := s.cleaned + [s.delivery[s.owned[s.ident[o]]]], owned := s.owned - {s.ident[o]})
    else s
  }

  function ReturnedFrom(s: State, id: MsgId): State {
    if id in s.senders && s.senders[id].Called? then
      var m := s.senders[id].msg;
      var t := if m.Some? && m.value in s.flagged then ReleasedOwned(s, m.value) else s;
      t.(dead := t.dead + [id], senders := t.senders[id := Returned])
    else s
  }

  function Purged(s: State): State {
    if s.dispatch.Idle? && s.dead != [] then s.(dead := s.dead[1..], promises := s.promises - {s.dead[0]}) else s
  }

  function Step(s: State, a: Action): State {
    match a
    case Register(id) => Registered(s, id)
    case Receive(id) => Received(s, id)
    case Handle => Handled(s)
    case Claim => Claimed(s)
    case Complete => Completed(s)
    case Fulfil => Fulfilled(s)
    case Wake(id) => Woken(s, id)
    case Timeout(id) => TimedOut(s, id)
    case Call(id) => CalledBack(s, id)
    case Return(id) => ReturnedFrom(s, id)
    case Purge => Purged(s)
  }

  function Run(acts: seq<Action>): State {
    if acts == [] then START else Step(Run(acts[..|acts| - 1]), acts[|acts| - 1])
  }

  // ---------------------------------------------------------------- invariants

  /** Pool, queue and the message being handled are disjoint, without repetition, and unflagged. */
  ghost predicate Places(s: State) {
    && Distinct(s.pool) && Distinct(s.queue)
    && (forall o {:trigger o in s.pool} :: o in s.pool ==>
          o < s.next && o !in s.flagged && o !in s.queue && s.dispatch != Handling(o))
    && (forall o {:trigger o in s.queue} :: o in s.queue ==>
          o < s.next && o !in s.flagged && o in s.ident && s.dispatch != Handling(o))
    && (forall o {:trigger o in s.flagged} :: o in s.flagged ==> o < s.next && o in s.ident)
    && (s.dispatch.Handling? ==> s.dispatch.obj < s.next && s.dispatch.obj in s.ident && s.dispatch.obj !in s.flagged)
    && (s.dispatch.Owning? ==> s.dispatch.obj in s.flagged)
  }

  /** What is held for a promise is flagged and bears the promise's id. */
  ghost predicate Held(s: State) {
    && (forall id {:trigger s.promises[id]} :: id in s.promises && s.promises[id].Some? ==>
          s.promises[id].value in s.flagged && s.promises[id].value in s.ident && s.ident[s.promises[id].value] == id)
    && (forall id {:trigger s.owned[id]} :: id in s.owned ==>
          s.owned[id] in s.flagged && s.owned[id] in s.ident && s.ident[s.owned[id]] == id)
    && (forall id {:trigger s.senders[id]} ::
          id in s.senders && (s.senders[id].Got? || s.senders[id].Called?) && s.senders[id].msg.Some? ==>
          s.senders[id].msg.value in s.flagged && s.senders[id].msg.value in s.ident
            && s.ident[s.senders[id].msg.value] == id)
    && (forall id {:trigger id in s.promises} :: id in s.promises ==> id in s.senders)
  }

  ghost function Answered(s: State): set<MsgId> {
    set id | id in s.senders && (s.senders[id].Called? || s.senders[id].Returned?)
  }

  ghost predicate CalledOnce(s: State) {
    && (forall i, j {:trigger s.callbacks[i], s.callbacks[j]} :: 0 <= i < j < |s.callbacks| ==>
          s.callbacks[i].request != s.callbacks[j].request)
    && (forall id :: id in Answered(s) <==> exists i :: 0 <= i < |s.callbacks| && s.callbacks[i].request == id)
    && (forall i :: 0 <= i < |s.callbacks| ==>
          s.callbacks[i].reply.None? || s.callbacks[i].reply == Some(s.callbacks[i].request))
  }

  lemma PopFirst(s: seq<nat>)
    requires Distinct(s) && s != []
    ensures Distinct(s[1..]) && s[0] in s && forall x :: x in s[1..] <==> x in s && x != s[0]
  {
    forall x ensures x in s[1..] <==> x in s && x != s[0] {
      if x in s && x != s[0] { var i :| 0 <= i < |s| && s[i] == x; assert s[1..][i - 1] == x; }
    }
  }

  lemma PushLast(s: seq<nat>, x: nat)
    requires Distinct(s) && x !in s
    ensures Distinct(s + [x]) && forall y :: y in s + [x] <==> y in s || y == x
  {}

  lemma PopulatedPlaces(s: State)
    requires Places(s)
    ensures Places(Populated(s)) && Populated(s).pool != []
  {}

  lemma ReceivedPlaces(s: State, id: MsgId)
    requires Places(s)
    ensures Places(Received(s, id))
  {
    PopulatedPlaces(s);
    var t := Populated(s);
    hide Populated;
    PopFirst(t.pool);
    PushLast(t.queue, t.pool[0]);
    hide Distinct;
  }

  lemma DispatchPlaces(s: State, a: Action)
    requires Places(s) && (a == Handle || a == Claim || a == Complete || a == Fulfil)
    ensures Places(Step(s, a))
  {
    if a == Handle && s.queue != [] { PopFirst(s.queue); }
    if a == Complete && s.dispatch.Handling? { PushLast(s.pool, s.dispatch.obj); }
    hide Distinct;
  }

  lemma SenderPlaces(s: State, a: Action)
    requires Places(s) && !a.Receive? && a != Handle && a != Claim && a != Complete && a != Fulfil
    ensures Places(Step(s, a))
  {}

  lemma PlacesStep(s: State, a: Action)
    requires Places(s)
    ensures Places(Step(s, a))
  {
    hide Places;
    match a
    case Receive(id) => ReceivedPlaces(s, id);
    case Handle | Claim | Complete | Fulfil => DispatchPlaces(s, a);
    case _ => SenderPlaces(s, a);
  }

  lemma ReceivedHeld(s: State, id: MsgId)
    requires Places(s) && Held(s)
    ensures Held(Received(s, id))
  {
    PopulatedPlaces(s);
    var o := Populated(s).pool[0];
    assert o in Populated(s).pool && o !in s.flagged;
    hide Places, Populated;
    PopulatedSame(s);
    assert forall x {:trigger x in s.flagged} :: x in s.flagged && x in s.ident ==>
           Received(s, id).ident[x] == s.ident[x];
  }

  lemma PopulatedSame(s: State)
    ensures Populated(s).(pool := s.pool, next := s.next) == s
  {}

  lemma DispatchHeld(s: State, a: Action)
    requires Places(s) && Held(s) && (a == Handle || a == Claim || a == Complete || a == Fulfil)
    ensures Held(Step(s, a))
  {}

  lemma SenderHeld(s: State, a: Action)
    requires Held(s) && !a.Receive? && a != Handle && a != Claim && a != Complete && a != Fulfil
    ensures Held(Step(s, a))
  {}

  lemma HeldStep(s: State, a: Action)
    requires Places(s) && Held(s)
    ensures Held(Step(s, a))
  {
    hide Places, Held;
    match a
    case Receive(id) => ReceivedHeld(s, id);
    case Handle | Claim | Complete | Fulfil => DispatchHeld(s, a);
    case _ => SenderHeld(s, a);
  }

  lemma AnsweredStep(s: State, a: Action)
    requires Held(s)
    ensures !a.Call? ==> Step(s, a).callbacks == s.callbacks && Answered(Step(s, a)) == Answered(s)
    ensures a.Call? ==> Step(s, a) == s || (a.id !in Answered(s) && Answered(Step(s, a)) == Answered(s) + {a.id})
  {}

  lemma CalledStep(s: State, a: Action)
    requires Held(s) && CalledOnce(s)
    ensures CalledOnce(Step(s, a))
  {
    AnsweredStep(s, a);
    var t := Step(s, a);
    if a.Call? && t != s {
      assert t.callbacks[..|s.callbacks|] == s.callbacks;
      var last := t.callbacks[|s.callbacks|];
      assert last.request == a.id && (last.reply.None? || last.reply == Some(a.id));
      hide Held, Step, Answered;
      forall id ensures id in Answered(t) <==> exists i :: 0 <= i < |t.callbacks| && t.callbacks[i].request == id {
        if i :| 0 <= i < |s.callbacks| && s.callbacks[i].request == id { assert t.callbacks[i].request == id; }
        if id == a.id { assert t.callbacks[|s.callbacks|].request == id; }
      }
    }
  }

  // ---------------------------------------------------------------- cleanup

  /** A sender that may still hand message `o` to its callback. */
  ghost predicate Undelivered(s: State, id: MsgId, o: Obj) {
    && id in s.senders
    && ((s.senders[id].Waiting? && id in s.promises && s.promises[id] == Some(o)) || s.senders[id] == Got(Some(o)))
  }

  /** Delivery numbers name objects; what is queued, handled, owned or still to be handed over is not cleaned up. */
  ghost predicate Fresh(s: State) {
    && (forall o {:trigger s.delivery[o]} :: o in s.delivery ==> s.delivery[o] < s.deliveries)
    && (forall o {:trigger o in s.ident} :: o in s.ident <==> o in s.delivery)
    && (forall o, p {:trigger s.delivery[o], s.delivery[p]} ::
          o in s.delivery && p in s.delivery && s.delivery[o] == s.delivery[p] ==> o == p)
    && (forall d {:trigger d in s.cleaned} :: d in s.cleaned ==> d < s.deliveries && d in s.handled)
    && (forall d {:trigger d in s.handled} :: d in s.handled ==> d < s.deliveries)
    && Distinct(s.cleaned)
  }

  ghost predicate Kept(s: State, o: Obj) { o in s.delivery && s.delivery[o] !in s.cleaned }

  ghost predicate Uncleaned(s: State) {
    && (forall o {:trigger o in s.queue} :: o in s.queue ==> Kept(s, o))
    && (s.dispatch.Handling? ==> Kept(s, s.dispatch.obj) && s.delivery[s.dispatch.obj] in s.handled)
    && (forall id {:trigger s.owned[id]} :: id in s.owned ==>
          Kept(s, s.owned[id]) && s.delivery[s.owned[id]] in s.handled)
    && (forall id, o {:trigger Undelivered(s, id, o)} :: Undelivered(s, id, o) ==> Kept(s, o))
    && (s.dispatch.Owning? && s.dispatch.obj in s.ident ==> s.ident[s.dispatch.obj] in s.senders)
    && (s.dispatch.Owning? && s.dispatch.obj in s.ident && s.senders[s.ident[s.dispatch.obj]].Waiting? ==>
          Kept(s, s.dispatch.obj))
  }

  ghost predicate Inv(s: State) { Places(s) && Held(s) && CalledOnce(s) && Fresh(s) && Uncleaned(s) }

  lemma FlaggedApart(s: State, o: Obj)
    requires Places(s) && o in s.flagged
    ensures o !in s.pool && o !in s.queue && s.dispatch != Handling(o)
  {}

  /** A cleanup of the delivery of `x` leaves every other object's delivery as it was. */
  lemma CleanOne(s: State, t: State, x: Obj)
    requires Fresh(s) && x in s.delivery && t.delivery == s.delivery && t.cleaned == s.cleaned + [s.delivery[x]]
    ensures forall o {:trigger Kept(t, o)} :: Kept(s, o) && o != x ==> Kept(t, o)
  {}

  lemma ReceivedFresh(s: State, id: MsgId)
    requires Places(s) && Fresh(s)
    ensures Fresh(Received(s, id)) && Kept(Received(s, id), Populated(s).pool[0])
    ensures forall o {:trigger Kept(Received(s, id), o)} :: Kept(s, o) && o != Populated(s).pool[0] ==>
            Kept(Received(s, id), o)
  {
    PopulatedPlaces(s);
    PopulatedSame(s);
    hide Places, Populated, Distinct;
  }

  lemma ReceivedUncleaned(s: State, id: MsgId)
    requires Places(s) && Held(s) && Fresh(s) && Uncleaned(s)
    ensures Uncleaned(Received(s, id))
  {
    PopulatedPlaces(s);
    PopulatedSame(s);
    ReceivedFresh(s, id);
    var o, t := Populated(s).pool[0], Received(s, id);
    assert o in Populated(s).pool && o !in s.flagged && o !in s.queue && s.dispatch != Handling(o);
    hide Places, Populated, Fresh, Kept;
    forall i, p {:trigger Undelivered(t, i, p)} | Undelivered(t, i, p) ensures Kept(t, p) {
      assert Undelivered(s, i, p);
    }
    forall p {:trigger p in t.queue} | p in t.queue ensures Kept(t, p) { if p != o { assert p in s.queue; } }
  }

  lemma CompletedFresh(s: State)
    requires Fresh(s) && Uncleaned(s)
    ensures Fresh(Completed(s))
  {
    if s.dispatch.Handling? { PushLast(s.cleaned, s.delivery[s.dispatch.obj]); }
    hide Distinct;
  }

  lemma CompletedUncleaned(s: State)
    requires Places(s) && Held(s) && Fresh(s) && Uncleaned(s)
    ensures Uncleaned(Completed(s))
  {
    var t := Completed(s);
    if s.dispatch.Handling? {
      var x := s.dispatch.obj;
      if t.dispatch.Idle? {
        CleanOne(s, t, x);
        hide Fresh, Kept, Distinct;
        forall i, p {:trigger Undelivered(t, i, p)} | Undelivered(t, i, p) ensures Kept(t, p) {
          assert Undelivered(s, i, p);
        }
      } else {
        hide Fresh, Distinct;
        assert forall o {:trigger Kept(t, o)} :: Kept(s, o) ==> Kept(t, o);
        forall i, p {:trigger Undelivered(t, i, p)} | Undelivered(t, i, p) ensures Kept(t, p) {
          assert Undelivered(s, i, p);
        }
      }
    }
  }

  lemma FulfilledUncleaned(s: State)
    requires Places(s) && Held(s) && Uncleaned(s)
    ensures Uncleaned(Fulfilled(s))
  {
    var t := Fulfilled(s);
    assert forall o {:trigger Kept(t, o)} :: Kept(s, o) ==> Kept(t, o);
    hide Kept;
    forall i, p {:trigger Undelivered(t, i, p)} | Undelivered(t, i, p) ensures Kept(t, p) {
      if !Undelivered(s, i, p) { assert s.dispatch == Owning(p) && s.ident[p] == i; }
    }
  }

  lemma HandleFresh(s: State, a: Action)
    requires Places(s) && Fresh(s) && Uncleaned(s) && (a == Handle || a == Claim || a == Fulfil)
    ensures Fresh(Step(s, a))
  {
    hide Distinct;
  }

  lemma HandleUncleaned(s: State, a: Action)
    requires Places(s) && Held(s) && Uncleaned(s) && (a == Handle || a == Claim)
    ensures Uncleaned(Step(s, a))
  {
    var t := Step(s, a);
    if s.queue != [] { PopFirst(s.queue); }
    hide Distinct;
    assert forall o {:trigger Kept(t, o)} :: Kept(s, o) ==> Kept(t, o);
    hide Kept;
    forall i, p {:trigger Undelivered(t, i, p)} | Undelivered(t, i, p) ensures Kept(t, p) {
      assert Undelivered(s, i, p);
    }
  }

  lemma ReturnFresh(s: State, id: MsgId)
    requires Fresh(s) && Uncleaned(s)
    ensures Fresh(ReturnedFrom(s, id))
  {
    forall i | i in s.owned ensures Distinct(s.cleaned + [s.delivery[s.owned[i]]]) {
      PushLast(s.cleaned, s.delivery[s.owned[i]]);
    }
    hide Distinct;
  }

  lemma ReturnUncleaned(s: State, id: MsgId)
    requires Places(s) && Held(s) && Fresh(s) && Uncleaned(s)
    ensures Uncleaned(ReturnedFrom(s, id))
  {
    var t := ReturnedFrom(s, id);
    if t.cleaned != s.cleaned {
      var x := s.owned[id];
      CleanOne(s, t, x);
      FlaggedApart(s, x);
      hide Fresh, Distinct, Kept;
      forall i, p {:trigger Undelivered(t, i, p)} | Undelivered(t, i, p) ensures Kept(t, p) {
        assert Undelivered(s, i, p);
        assert p in s.ident && s.ident[p] == i;
      }
    } else {
      hide Fresh, Distinct;
      assert forall o {:trigger Kept(t, o)} :: Kept(s, o) ==> Kept(t, o);
      hide Kept;
      forall i, p {:trigger Undelivered(t, i, p)} | Undelivered(t, i, p) ensures Kept(t, p) {
        assert Undelivered(s, i, p);
      }
    }
  }

  lemma SenderFresh(s: State, a: Action)
    requires Fresh(s) && (a.Register? || a.Wake? || a.Timeout? || a.Call? || a.Purge?)
    ensures Fresh(Step(s, a))
  {
    hide Distinct;
  }

  lemma RegisterUncleaned(s: State, id: MsgId)
    requires Held(s) && Uncleaned(s)
    ensures Uncleaned(Registered(s, id))
  {
    var t := Registered(s, id);
    assert forall o {:trigger Kept(t, o)} :: Kept(s, o) ==> Kept(t, o);
    hide Kept;
    forall i, p {:trigger Undelivered(t, i, p)} | Undelivered(t, i, p) ensures Kept(t, p) {
      assert Undelivered(s, i, p);
    }
  }

  lemma SenderUncleaned(s: State, a: Action)
    requires Held(s) && Uncleaned(s) && (a.Wake? || a.Timeout? || a.Call? || a.Purge?)
    ensures Uncleaned(Step(s, a))
  {
    var t := Step(s, a);
    assert forall o {:trigger Kept(t, o)} :: Kept(s, o) ==> Kept(t, o);
    hide Kept;
    forall i, p {:trigger Undelivered(t, i, p)} | Undelivered(t, i, p) ensures Kept(t, p) {
      assert Undelivered(s, i, p);
    }
  }

  lemma InvStep(s: State, a: Action)
    requires Inv(s)
    ensures Inv(Step(s, a))
  {
    hide Places, Held, CalledOnce, Fresh, Uncleaned;
    PlacesStep(s, a);
    HeldStep(s, a);
    CalledStep(s, a);
    match a
    case Receive(id) => ReceivedFresh(s, id); ReceivedUncleaned(s, id);
    case Complete => CompletedFresh(s); CompletedUncleaned(s);
    case Fulfil => HandleFresh(s, a); FulfilledUncleaned(s);
    case Handle | Claim => HandleFresh(s, a); HandleUncleaned(s, a);
    case Return(id) => ReturnFresh(s, id); ReturnUncleaned(s, id);
    case Register(id) => SenderFresh(s, a); RegisterUncleaned(s, id);
    case _ => SenderFresh(s, a); SenderUncleaned(s, a);
  }

  lemma {:induction false} InvAlways(acts: seq<Action>)
    ensures Inv(Run(acts))
  {
    if acts != [] {
      InvAlways(acts[..|acts| - 1]);
      hide Inv, Step;
      InvStep(Run(acts[..|acts| - 1]), acts[|acts| - 1]);
    }
  }

  // ---------------------------------------------------------------- what every run keeps

  /** In every run, a blocking_send that has returned ran its callback exactly once, with no message or with a message
      that bears the id of its own request; and no callback runs for any other reason. */
  lemma CallbackExactlyOnce(acts: seq<Action>, id: MsgId)
    ensures var s := Run(acts);
            && (forall i, j :: 0 <= i < |s.callbacks| && 0 <= j < |s.callbacks| ==>
                  s.callbacks[i].request == id == s.callbacks[j].request ==> i == j)
            && (forall i :: 0 <= i < |s.callbacks| && s.callbacks[i].request == id ==>
                  s.callbacks[i].reply in {None, Some(id)})
            && ((exists i :: 0 <= i < |s.callbacks| && s.callbacks[i].request == id) <==>
                id in s.senders && (s.senders[id].Called? || s.senders[id].Returned?))
  {
    InvAlways(acts);
    var s := Run(acts);
    hide Run, Places, Held, Fresh, Uncleaned;
    assert id in Answered(s) <==> exists i :: 0 <= i < |s.callbacks| && s.callbacks[i].request == id;
  }

  /** Held for a promise: in the promise, in the owned map, with the sender, or on its way between them. */
  ghost predicate ForPromise(s: State, o: Obj) {
    || s.dispatch == Owning(o)
    || (exists id :: id in s.promises && s.promises[id] == Some(o))
    || (exists id :: id in s.owned && s.owned[id] == o)
    || (exists id :: id in s.senders && (s.senders[id] == Got(Some(o)) || s.senders[id] == Called(Some(o))))
  }

  /** In every run a message object is in at most one of pool, dispatch queue, handlers and hands of a promise; the pool
      and the queue hold it once; and the pool holds no message flagged as having a promise. */
  lemma OnePlace(acts: seq<Action>, o: Obj)
    ensures var s := Run(acts);
            && Distinct(s.pool) && Distinct(s.queue)
            && (o in s.pool ==> o !in s.flagged && o !in s.queue && s.dispatch != Handling(o) && !ForPromise(s, o))
            && (o in s.queue ==> s.dispatch != Handling(o) && !ForPromise(s, o))
            && (s.dispatch == Handling(o) ==> !ForPromise(s, o))
  {
    InvAlways(acts);
    var s := Run(acts);
    hide Run, CalledOnce, Fresh, Uncleaned;
    assert ForPromise(s, o) ==> o in s.flagged;
  }

  /** In every run each delivery is cleaned up at most once, only after its handlers ran, and never while a sender has
      still to run its callback on it. */
  lemma CleanupOnceAndLast(acts: seq<Action>)
    ensures var s := Run(acts);
            && Distinct(s.cleaned)
            && (forall d :: d in s.cleaned ==> d in s.handled)
            && (forall id, o {:trigger Undelivered(s, id, o)} :: Undelivered(s, id, o) ==>
                  o in s.delivery && s.delivery[o] !in s.cleaned)
  {
    InvAlways(acts);
    hide Run, Places, Held, CalledOnce;
  }

  lemma RunOne(acts: seq<Action>, a: Action)
    ensures Run(acts + [a]) == Step(Run(acts), a)
  {
    assert (acts + [a])[..|acts + [a]| - 1] == acts;
  }

  // ---------------------------------------------------------------- the objects behind the steps

  class MessagePool {
    var pool: seq<Obj>
    var next: nat

    method Populate(size: nat)
      modifies this
      ensures pool == old(pool) + seq(size, i requires 0 <= i => old(next) + i) && next == old(next) + size
    {
      ghost var was, from := pool, next;
      for i := 0 to size
        invariant pool == was + seq(i, k requires 0 <= k => from + k) && next == from + i
      {
        pool := pool + [next];
        next := next + 1;
      }
    }

    /** The first message of the pool, which is refilled when empty: what a Receive step takes. */
    method GetMsg(ghost s: State) returns (o: Obj)
      requires s.pool == pool && s.next == next
      modifies this
      ensures forall id {:trigger Received(s, id)} ::
                Received(s, id).pool == pool && Received(s, id).next == next && Received(s, id).queue == s.queue + [o]
      ensures old(pool) != [] ==> [o] + pool == old(pool) && next == old(next)
      ensures old(pool) == [] ==>
                o == old(next) && pool == seq(4095, i requires 0 <= i => old(next) + 1 + i) && next == old(next) + 4096
    {
      if pool == [] { Populate(MESSAGE_POOL_BLOCK); }
      o := pool[0];
      pool := pool[1..];
    }

    /** The end of a message without promise: what a Complete step returns to the pool. */
    method Release(o: Obj, ghost s: State)
      requires s.pool == pool && s.next == next
      requires s.dispatch == Handling(o) && o in s.ident && o in s.delivery && s.ident[o] !in s.promises
      modifies this
      ensures pool == old(pool) + [o] && pool == Completed(s).pool && next == Completed(s).next
    {
      pool := pool + [o];
    }
  }

  function PurgedTimes(s: State, n: nat): State { if n == 0 then s else Purged(PurgedTimes(s, n - 1)) }

  lemma {:induction false} PurgedIs(s: State, n: nat)
    requires s.dispatch.Idle? && n <= |s.dead|
    ensures PurgedTimes(s, n) == s.(dead := s.dead[n..], promises := map id | id in s.promises
            && id !in s.dead[..n] :: s.promises[id])
  {
    if n > 0 {
      PurgedIs(s, n - 1);
      assert s.dead[..n] == s.dead[..n - 1] + [s.dead[n - 1]];
    }
  }

  class Supervisor {
    var promises: map<MsgId, Option<Obj>>
    var owned: map<MsgId, Obj>
    var dead: seq<MsgId>

    /** cleanup_response_messages: as many Purge steps as there are dead promises. */
    method CleanupResponseMessages(ghost s: State)
      requires s.dispatch.Idle? && s.promises == promises && s.owned == owned && s.dead == dead
      modifies this
      ensures var t := PurgedTimes(s, |s.dead|); dead == t.dead && promises == t.promises && owned == t.owned
      ensures dead == [] && owned == old(owned)
      ensures promises == map id | id in old(promises) && id !in old(dead) :: old(promises)[id]
    {
      ghost var was, gone := promises, dead;
      ghost var n := 0;
      while dead != []
        invariant n <= |gone| && dead == gone[n..] && owned == old(owned)
        invariant promises == map id | id in was && id !in gone[..n] :: was[id]
        decreases |dead|
      {
        var id := dead[0];
        assert gone[..n + 1] == gone[..n] + [id];
        dead := dead[1..];
        if id in promises { promises := promises - {id}; }
        n := n + 1;
      }
      assert gone[..|gone|] == gone;
      PurgedIs(s, |gone|);
    }

    /** process_message_response for a message with this id: false stands for the exception that sends it to the
        pool. */
    method ProcessMessageResponse(o: Obj, id: MsgId, ghost s: State) returns (taken: bool)
      requires s.promises == promises && s.owned == owned && s.dead == dead
      requires s.dispatch == Handling(o) && o in s.ident && s.ident[o] == id && o in s.delivery
      modifies this
      ensures var t := if taken then Fulfilled(Completed(s)) else Completed(s);
              promises == t.promises && owned == t.owned && dead == t.dead
      ensures dead == old(dead) && taken == (id in old(promises))
      ensures owned == if taken then old(owned)[id := o] else old(owned)
      ensures promises == if taken && old(promises)[id].None? then old(promises)[id := Some(o)] else old(promises)
    {
      if |promises| == 0 { return false; }
      if id in promises {
        owned := owned[id := o];
        if promises[id].None? { promises := promises[id := Some(o)]; }
        return true;
      }
      taken := false;
    }
  }
}
