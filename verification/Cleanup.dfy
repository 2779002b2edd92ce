/** Which message deliveries are ever cleaned up: exactly when, over all continuations of all runs of the request
    layer. */
module Cleanup {
  import opened Common
  import opened Requests

  /** The request with this id may still release what is owned under it: it waits, or it holds a message. */
  ghost predicate Live(s: State, id: MsgId) {
    && id in s.senders
    && (s.senders[id].Waiting? || ((s.senders[id].Got? || s.senders[id].Called?) && s.senders[id].msg.Some?))
  }

  /** Message `o` is with the dispatch thread and no promise or a live request waits for it, or it is the one owned for
      a live request. */
  ghost predicate Cleanable(s: State, o: Obj) {
    && o in s.ident
    && ((s.dispatch == Handling(o) && (s.ident[o] !in s.promises || Live(s, s.ident[o]))) ||
        (s.ident[o] in s.owned && s.owned[s.ident[o]] == o && Live(s, s.ident[o])))
  }

  // ---------------------------------------------------------------- further invariants

  /** A request that has not returned keeps its promise; what is owned for a waiting request has reached its promise or
      is just about to. */
  ghost predicate Promised(s: State) {
    && (forall id {:trigger s.senders[id]} :: id in s.senders && !s.senders[id].Returned? ==> id in s.promises)
    && (forall id {:trigger id in s.dead} :: id in s.dead ==> id in s.senders && s.senders[id].Returned?)
    && (forall id {:trigger s.owned[id]} :: id in s.owned ==> id in s.senders)
    && (forall id {:trigger s.owned[id]} :: id in s.owned && s.senders[id].Waiting? ==>
          id in s.promises && (s.promises[id].Some? || s.dispatch == Owning(s.owned[id])))
  }

  /** A queued delivery was not handled yet, a pooled one was cleaned up, and a handled one is cleaned up or still has
      its object. */
  ghost predicate Traced(s: State) {
    && (forall o {:trigger s.delivery[o]} :: o in s.delivery ==> o < s.next)
    && (forall o {:trigger o in s.queue} :: o in s.queue ==> o in s.delivery && s.delivery[o] !in s.handled)
    && (forall o {:trigger o in s.pool} :: o in s.pool && o in s.delivery ==> s.delivery[o] in s.cleaned)
    && (forall d {:trigger d in s.handled} :: d in s.handled ==>
          d in s.cleaned || exists o {:trigger s.delivery[o]} :: o in s.delivery && s.delivery[o] == d)
  }

  lemma PromisedReceive(s: State, id: MsgId)
    requires Promised(s)
    ensures Promised(Received(s, id))
  {
    PopulatedSame(s);
    hide Populated;
  }

  lemma PromisedDispatch(s: State, a: Action)
    requires Inv(s) && Promised(s) && (a == Handle || a == Claim || a == Complete || a == Fulfil)
    ensures Promised(Step(s, a))
  {
    hide CalledOnce, Fresh, Uncleaned, Distinct;
  }

  lemma PromisedSender(s: State, a: Action)
    requires Promised(s) && (a.Register? || a.Wake? || a.Timeout? || a.Call?)
    ensures Promised(Step(s, a))
  {}

  lemma PromisedReturn(s: State, id: MsgId)
    requires Promised(s)
    ensures Promised(ReturnedFrom(s, id))
  {
    var t := ReturnedFrom(s, id);
    assert forall x {:trigger x in t.dead} :: x in t.dead ==> x in s.dead || x == id;
  }

  lemma PromisedPurge(s: State)
    requires Promised(s)
    ensures Promised(Purged(s))
  {
    if s.dead != [] {
      assert s.dead[0] in s.dead;
      assert forall x {:trigger x in s.dead[1..]} :: x in s.dead[1..] ==> x in s.dead;
    }
  }

  lemma PromisedStep(s: State, a: Action)
    requires Inv(s) && Promised(s)
    ensures Promised(Step(s, a))
  {
    hide Inv, Promised;
    match a
    case Receive(id) => PromisedReceive(s, id);
    case Handle | Claim | Complete | Fulfil => PromisedDispatch(s, a);
    case Return(id) => PromisedReturn(s, id);
    case Purge => PromisedPurge(s);
    case _ => PromisedSender(s, a);
  }

  lemma TracedReceive(s: State, id: MsgId)
    requires Inv(s) && Traced(s)
    ensures Traced(Received(s, id))
  {
    PopulatedPlaces(s);
    PopulatedSame(s);
    var p, t := Populated(s), Received(s, id);
    var o := p.pool[0];
    PopFirst(p.pool);
    assert forall x {:trigger x in p.pool} :: x in p.pool && x in s.delivery ==> s.delivery[x] in s.cleaned by {
      PooledClean(s);
    }
    assert o in p.pool && o < p.next && s.next <= p.next;
    hide Places, Held, CalledOnce, Uncleaned, Populated, Distinct;
    forall x {:trigger x in t.queue} | x in t.queue ensures x in t.delivery && t.delivery[x] !in t.handled {
      if x != o { assert x in s.queue; }
    }
    forall d {:trigger d in t.handled} | d in t.handled
      ensures d in t.cleaned || exists x {:trigger t.delivery[x]} :: x in t.delivery && t.delivery[x] == d
    {
      if d !in s.cleaned {
        var x :| x in s.delivery && s.delivery[x] == d;
        assert x != o;
        assert t.delivery[x] == d;
      }
    }
  }

  lemma PooledClean(s: State)
    requires Inv(s) && Traced(s)
    ensures forall x {:trigger x in Populated(s).pool} :: x in Populated(s).pool && x in s.delivery ==>
            s.delivery[x] in s.cleaned
  {
    hide Held, CalledOnce, Uncleaned, Distinct;
    forall x {:trigger x in Populated(s).pool} | x in Populated(s).pool && x in s.delivery
      ensures s.delivery[x] in s.cleaned
    {
      assert x < s.next && s.pool != [];
    }
  }

  /** Whatever keeps queue, deliveries and handled set, cleans up more and pools only what is clean. */
  lemma TracedSame(s: State, t: State)
    requires Traced(s) && t.queue == s.queue && t.delivery == s.delivery && t.handled == s.handled && t.next == s.next
    requires forall d {:trigger d in s.cleaned} :: d in s.cleaned ==> d in t.cleaned
    requires forall o {:trigger o in t.pool} :: o in t.pool ==>
               o in s.pool || (o in t.delivery && t.delivery[o] in t.cleaned)
    ensures Traced(t)
  {}

  lemma DispatchChanges(s: State, a: Action)
    requires a == Claim || a == Complete || a == Fulfil
    ensures var t := Step(s, a);
            && t.queue == s.queue && t.delivery == s.delivery && t.handled == s.handled && t.next == s.next
            && ((t.cleaned == s.cleaned && t.pool == s.pool) ||
                (s.dispatch.Handling? && s.dispatch.obj in s.delivery && t.pool == s.pool + [s.dispatch.obj]
                 && t.cleaned == s.cleaned + [s.delivery[s.dispatch.obj]]))
  {}

  lemma TracedDispatch(s: State, a: Action)
    requires Traced(s) && (a == Claim || a == Complete || a == Fulfil)
    ensures Traced(Step(s, a))
  {
    hide Step, Traced;
    var t := Step(s, a);
    DispatchChanges(s, a);
    TracedSame(s, t);
  }

  lemma TracedHandle(s: State)
    requires Inv(s) && Traced(s)
    ensures Traced(Handled(s))
  {
    var t := Handled(s);
    if t != s {
      var x := s.queue[0];
      PopFirst(s.queue);
      assert forall o {:trigger o in t.queue} :: o in t.queue ==> o in s.queue && o != x;
      hide Held, CalledOnce, Uncleaned, Distinct, Places;
      forall o {:trigger o in t.queue} | o in t.queue ensures o in t.delivery && t.delivery[o] !in t.handled {
        assert o in s.queue && o in s.delivery && x in s.delivery;
      }
      forall d {:trigger d in t.handled} | d in t.handled
        ensures d in t.cleaned || exists o {:trigger t.delivery[o]} :: o in t.delivery && t.delivery[o] == d
      {
        if d !in s.handled { assert t.delivery[x] == d; }
      }
    }
  }

  lemma SenderChanges(s: State, a: Action)
    requires a.Register? || a.Wake? || a.Timeout? || a.Call? || a.Return? || a.Purge?
    ensures var t := Step(s, a);
            && t.queue == s.queue && t.delivery == s.delivery && t.handled == s.handled && t.next == s.next
            && t.pool == s.pool && forall d {:trigger d in s.cleaned} :: d in s.cleaned ==> d in t.cleaned
  {}

  lemma TracedSender(s: State, a: Action)
    requires Traced(s) && (a.Register? || a.Wake? || a.Timeout? || a.Call? || a.Return? || a.Purge?)
    ensures Traced(Step(s, a))
  {
    hide Step, Traced;
    SenderChanges(s, a);
    TracedSame(s, Step(s, a));
  }

  lemma TracedStep(s: State, a: Action)
    requires Inv(s) && Traced(s)
    ensures Traced(Step(s, a))
  {
    hide Inv, Traced;
    match a
    case Receive(id) => TracedReceive(s, id);
    case Handle => TracedHandle(s);
    case Claim | Complete | Fulfil => TracedDispatch(s, a);
    case _ => TracedSender(s, a);
  }

  lemma {:induction false} AllAlways(acts: seq<Action>)
    ensures Inv(Run(acts)) && Promised(Run(acts)) && Traced(Run(acts))
  {
    InvAlways(acts);
    if acts != [] {
      AllAlways(acts[..|acts| - 1]);
      hide Inv, Promised, Traced, Step;
      PromisedStep(Run(acts[..|acts| - 1]), acts[|acts| - 1]);
      TracedStep(Run(acts[..|acts| - 1]), acts[|acts| - 1]);
    }
  }

  // ---------------------------------------------------------------- flagged messages

  lemma {:induction false} FlaggedStays(acts: seq<Action>, more: seq<Action>, o: Obj)
    requires o in Run(acts).flagged
    ensures o in Run(acts + more).flagged
    decreases |more|
  {
    hide Run, Step;
    if more == [] {
      assert acts + more == acts;
    } else {
      var n := |more| - 1;
      FlaggedStays(acts, more[..n], o);
      assert acts + more == acts + more[..n] + [more[n]];
      RunOne(acts + more[..n], more[n]);
      FlaggedStep(Run(acts + more[..n]), more[n]);
    }
  }

  /** A message flagged for a promise stays flagged and never returns to the pool, in any continuation. */
  lemma FlaggedForever(acts: seq<Action>, more: seq<Action>, o: Obj)
    requires o in Run(acts).flagged
    ensures o in Run(acts + more).flagged && o !in Run(acts + more).pool
  {
    hide Run, Held, CalledOnce, Fresh, Uncleaned;
    FlaggedStays(acts, more, o);
    InvAlways(acts + more);
  }

  lemma FlaggedStep(s: State, a: Action)
    ensures s.flagged <= Step(s, a).flagged
  {}

  // ---------------------------------------------------------------- what is lost stays lost

  /** Delivery `d` of object `o` was handled, is not cleaned up, and nothing can clean it up. */
  ghost predicate Lost(s: State, o: Obj, d: nat) {
    o in s.delivery && s.delivery[o] == d && d in s.handled && d !in s.cleaned && !Cleanable(s, o)
  }

  lemma LostReceive(s: State, id: MsgId, o: Obj, d: nat)
    requires Inv(s) && Traced(s) && Lost(s, o, d)
    ensures Lost(Received(s, id), o, d)
  {
    PooledClean(s);
    PopulatedPlaces(s);
    PopulatedSame(s);
    assert Populated(s).pool[0] in Populated(s).pool;
    hide Inv, Traced, Populated;
  }

  lemma LostHandle(s: State, o: Obj, d: nat)
    requires Inv(s) && Traced(s) && Lost(s, o, d)
    ensures Lost(Handled(s), o, d)
  {
    hide Inv;
    if s.queue != [] { assert s.queue[0] in s.queue; }
  }

  lemma LostComplete(s: State, o: Obj, d: nat)
    requires Inv(s) && Traced(s) && Lost(s, o, d)
    ensures Lost(Completed(s), o, d)
  {
    hide CalledOnce, Uncleaned, Distinct, Traced;
    var t := Completed(s);
    if t.cleaned != s.cleaned { assert s.dispatch.obj != o; }
  }

  lemma LostDispatch(s: State, a: Action, o: Obj, d: nat)
    requires Lost(s, o, d) && (a == Claim || a == Fulfil)
    ensures Lost(Step(s, a), o, d)
  {}

  lemma LostSender(s: State, a: Action, o: Obj, d: nat)
    requires Inv(s) && Promised(s) && Lost(s, o, d) && (a.Register? || a.Wake? || a.Timeout? || a.Call? || a.Purge?)
    ensures Lost(Step(s, a), o, d)
  {
    hide CalledOnce, Uncleaned, Fresh, Distinct, Places;
  }

  lemma LostReturn(s: State, id: MsgId, o: Obj, d: nat)
    requires Inv(s) && Lost(s, o, d)
    ensures Lost(ReturnedFrom(s, id), o, d)
  {
    hide CalledOnce, Uncleaned, Distinct, Places;
    var t := ReturnedFrom(s, id);
    if t.cleaned != s.cleaned { assert s.owned[id] != o; }
  }

  lemma LostStep(s: State, a: Action, o: Obj, d: nat)
    requires Inv(s) && Promised(s) && Traced(s) && Lost(s, o, d)
    ensures Lost(Step(s, a), o, d)
  {
    hide Inv, Promised, Traced, Lost;
    match a
    case Receive(id) => LostReceive(s, id, o, d);
    case Handle => LostHandle(s, o, d);
    case Complete => LostComplete(s, o, d);
    case Claim | Fulfil => LostDispatch(s, a, o, d);
    case Return(id) => LostReturn(s, id, o, d);
    case _ => LostSender(s, a, o, d);
  }

  lemma {:induction false} LostForever(acts: seq<Action>, more: seq<Action>, o: Obj, d: nat)
    requires Lost(Run(acts), o, d)
    ensures Lost(Run(acts + more), o, d)
    decreases |more|
  {
    hide Run, Step, Inv, Promised, Traced, Lost;
    if more == [] {
      assert acts + more == acts;
    } else {
      var n := |more| - 1;
      LostForever(acts, more[..n], o, d);
      AllAlways(acts + more[..n]);
      assert acts + more == acts + more[..n] + [more[n]];
      RunOne(acts + more[..n], more[n]);
      LostStep(Run(acts + more[..n]), more[n], o, d);
    }
  }

  // ---------------------------------------------------------------- what can be cleaned up, is

  /** How far a live request is from releasing what it owns. */
  ghost function Distance(s: State, id: MsgId): nat
    requires Live(s, id)
  {
    match s.senders[id]
    case Waiting => if id in s.promises && s.promises[id].Some? then 2 else 3
    case Got(_) => 1
    case _ => 0
  }

  /** The next step of a live request towards that release. */
  ghost function Towards(s: State, id: MsgId): Action
    requires Live(s, id)
  {
    match Distance(s, id)
    case 3 => Fulfil
    case 2 => Wake(id)
    case 1 => Call(id)
    case _ => Return(id)
  }

  lemma TowardsStep(s: State, id: MsgId, o: Obj)
    requires Inv(s) && Promised(s) && Live(s, id) && id in s.owned && s.owned[id] == o && o in s.delivery
    ensures var t := Step(s, Towards(s, id));
            && t.delivery == s.delivery
            && (Distance(s, id) > 0 ==>
                  Live(t, id) && id in t.owned && t.owned[id] == o && Distance(t, id) < Distance(s, id))
            && (Distance(s, id) == 0 ==> s.delivery[o] in t.cleaned)
  {
    hide CalledOnce, Uncleaned, Distinct, Places;
  }

  lemma {:induction false} ReleaseOwned(acts: seq<Action>, id: MsgId, o: Obj) returns (more: seq<Action>)
    requires var s := Run(acts); Live(s, id) && id in s.owned && s.owned[id] == o && o in s.delivery
    ensures Run(acts).delivery[o] in Run(acts + more).cleaned
    decreases Distance(Run(acts), id)
  {
    hide Run, Step, Inv, Promised, Traced, Live, Distance, Towards;
    var s := Run(acts);
    AllAlways(acts);
    var a := Towards(s, id);
    TowardsStep(s, id, o);
    RunOne(acts, a);
    if Distance(s, id) == 0 {
      more := [a];
    } else {
      var rest := ReleaseOwned(acts + [a], id, o);
      more := [a] + rest;
      assert acts + more == acts + [a] + rest;
    }
  }

  lemma CompleteStep(s: State, o: Obj)
    requires Inv(s) && s.dispatch == Handling(o) && Cleanable(s, o)
    ensures var t := Completed(s);
            && o in s.delivery && t.delivery == s.delivery
            && (s.ident[o] !in s.promises ==> s.delivery[o] in t.cleaned)
            && (s.ident[o] in s.promises ==> Live(t, s.ident[o]) && s.ident[o] in t.owned && t.owned[s.ident[o]] == o)
  {
    hide CalledOnce, Held, Distinct, Places;
  }

  lemma CleanIt(acts: seq<Action>, o: Obj) returns (more: seq<Action>)
    requires Cleanable(Run(acts), o) && o in Run(acts).delivery
    ensures Run(acts).delivery[o] in Run(acts + more).cleaned
  {
    hide Run, Inv, Live, Completed;
    var s := Run(acts);
    AllAlways(acts);
    if s.dispatch == Handling(o) {
      CompleteStep(s, o);
      RunOne(acts, Complete);
      if s.ident[o] in s.promises {
        var rest := ReleaseOwned(acts + [Complete], s.ident[o], o);
        more := [Complete] + rest;
        assert acts + more == acts + [Complete] + rest;
      } else {
        more := [Complete];
      }
    } else {
      more := ReleaseOwned(acts, s.ident[o], o);
    }
  }

  /** In every run, a delivery that was handled and is not cleaned up yet is cleaned up in some continuation if and only
      if its message is with the dispatch thread and no promise or a live request waits for it, or is the one owned for
      a live request. All others, late replies, replies overtaken by a duplicate and claimed messages, stay so for
      ever. */
  lemma CleanedIff(acts: seq<Action>, o: Obj)
    requires var s := Run(acts); o in s.delivery && s.delivery[o] in s.handled && s.delivery[o] !in s.cleaned
    ensures (exists more {:trigger Run(acts + more)} :: Run(acts).delivery[o] in Run(acts + more).cleaned) <==>
            Cleanable(Run(acts), o)
  {
    hide Run, Cleanable;
    var d := Run(acts).delivery[o];
    if Cleanable(Run(acts), o) {
      var more := CleanIt(acts, o);
      assert d in Run(acts + more).cleaned;
    } else {
      forall more {:trigger Run(acts + more)} ensures d !in Run(acts + more).cleaned { LostForever(acts, more, o, d); }
    }
  }

  /** Every handled delivery that is not cleaned up has its object, so the theorem speaks of all of them. */
  lemma HandledHasObject(acts: seq<Action>, d: nat)
    requires d in Run(acts).handled && d !in Run(acts).cleaned
    ensures exists o {:trigger Run(acts).delivery[o]} :: o in Run(acts).delivery && Run(acts).delivery[o] == d
  {
    hide Run, Inv, Promised;
    AllAlways(acts);
  }

  /** A second reply that is completed before the first one was released takes its place: the first is lost. */
  lemma OvertakenIsLost(s: State, id: MsgId, first: Obj, second: Obj)
    requires Inv(s) && id in s.owned && s.owned[id] == first && s.dispatch == Handling(second) && second in s.ident
             && s.ident[second] == id && id in s.promises
    ensures first in s.delivery && Lost(Completed(s), first, s.delivery[first])
  {
    hide CalledOnce, Distinct;
  }

  /** Two replies to one request are queued, one behind the other. */
  ghost predicate TwoQueued(s: State, id: MsgId) {
    && |s.queue| == 2 && s.queue[0] in s.ident && s.queue[1] in s.ident
         && s.ident[s.queue[0]] == id == s.ident[s.queue[1]]
    && s.queue[0] in s.delivery && s.queue[1] in s.delivery && s.dispatch == Idle && id in s.promises
         && s.promises[id].None?
  }

  lemma TwoReplies(s: State, id: MsgId)
    requires id !in s.senders && s.queue == [] && s.dispatch == Idle
    ensures TwoQueued(Received(Received(Registered(s, id), id), id), id)
  {
    var t := Received(Registered(s, id), id);
    PopulatedSame(Registered(s, id));
    PopulatedSame(t);
    hide Populated;
    assert t.queue[0] in t.ident && t.ident[t.queue[0]] == id && |t.queue| == 1;
  }

  lemma FirstTaken(s: State, id: MsgId)
    requires TwoQueued(s, id) && s.queue[0] != s.queue[1]
    ensures var u := Handled(Fulfilled(Completed(Handled(s))));
            && u.dispatch == Handling(s.queue[1]) && id in u.owned && u.owned[id] == s.queue[0] && id in u.promises
            && s.queue[1] in u.ident && u.ident[s.queue[1]] == id
  {
    var h := Handled(s);
    assert h.dispatch == Handling(s.queue[0]) && h.queue == [s.queue[1]];
    var c := Completed(h);
    assert c.dispatch == Owning(s.queue[0]) && c.queue == h.queue && id in c.owned && c.owned[id] == s.queue[0];
    assert c.delivery == s.delivery && c.ident == s.ident && c.promises == s.promises;
    hide Handled, Completed;
    var t := Fulfilled(c);
    assert t.queue == [s.queue[1]] && t.dispatch == Idle && t.delivery == s.delivery;
    assert t.owned == c.owned && t.ident == s.ident && id in t.promises;
    HandledNext(t);
  }

  lemma HandledNext(t: State)
    requires |t.queue| == 1 && t.dispatch == Idle && t.queue[0] in t.delivery
    ensures var u := Handled(t);
            u.dispatch == Handling(t.queue[0]) && u.owned == t.owned && u.promises == t.promises && u.ident == t.ident
  {
  }

  lemma QueuedApart(s: State, id: MsgId)
    requires Inv(s) && TwoQueued(s, id)
    ensures s.queue[0] != s.queue[1]
  {
    assert Distinct(s.queue);
  }

  /** After every run with an idle dispatch thread, a new request that is answered twice ends so: the first reply is
      lost. */
  lemma OvertakenHappens(acts: seq<Action>, id: MsgId)
    requires var s := Run(acts); id !in s.senders && s.queue == [] && s.dispatch == Idle
    ensures var sent := acts + [Register(id)] + [Receive(id)] + [Receive(id)];
            var done := sent + [Handle] + [Complete] + [Fulfil] + [Handle] + [Complete];
            && |Run(sent).queue| == 2 && Run(sent).queue[0] in Run(sent).delivery
            && exists d {:trigger Lost(Run(done), Run(sent).queue[0], d)} :: Lost(Run(done), Run(sent).queue[0], d)
  {
    hide Run, Received, Handled, Completed, Fulfilled, Registered, Lost, Inv;
    var s := Run(acts);
    var b := acts + [Register(id)];
    var sent := b + [Receive(id)] + [Receive(id)];
    RunOne(acts, Register(id));
    RunOne(b, Receive(id));
    RunOne(b + [Receive(id)], Receive(id));
    TwoReplies(s, id);
    InvAlways(sent);
    QueuedApart(Run(sent), id);
    FirstTaken(Run(sent), id);
    RunOne(sent, Handle);
    RunOne(sent + [Handle], Complete);
    RunOne(sent + [Handle] + [Complete], Fulfil);
    RunOne(sent + [Handle] + [Complete] + [Fulfil], Handle);
    var taken := sent + [Handle] + [Complete] + [Fulfil] + [Handle];
    InvAlways(taken);
    OvertakenIsLost(Run(taken), id, Run(sent).queue[0], Run(sent).queue[1]);
    RunOne(taken, Complete);
  }

  /** A request has returned and left a message behind in the owned map. */
  ghost predicate LeftOwned(s: State, id: MsgId) { id in s.senders && s.senders[id] == Returned && id in s.owned }

  lemma LeftOwnedIsLost(s: State, id: MsgId)
    requires Inv(s) && LeftOwned(s, id)
    ensures s.owned[id] in s.delivery && Lost(s, s.owned[id], s.delivery[s.owned[id]])
  {
    hide CalledOnce, Distinct;
  }

  lemma LateReplySteps(s: State, id: MsgId)
    requires id in s.senders && s.senders[id] == Called(None) && id in s.promises && s.queue == [] && s.dispatch == Idle
    ensures LeftOwned(ReturnedFrom(Fulfilled(Completed(Handled(Received(s, id)))), id), id)
  {
    var t := Received(s, id);
    var o := t.queue[0];
    assert t.queue == [o] && t.ident[o] == id && o in t.delivery && t.promises == s.promises && t.senders == s.senders
           && t.dispatch == Idle;
    hide Received, Populated;
    var u := Completed(Handled(t));
    assert u.owned == t.owned[id := o] && u.senders == s.senders;
  }

  /** Whenever a wait has run out and its callback has run, a reply that arrives before the sender returns is left
      so. */
  lemma LateReplyHappens(acts: seq<Action>, id: MsgId)
    requires var s := Run(acts);
             id in s.senders && s.senders[id] == Called(None) && id in s.promises && s.queue == [] && s.dispatch == Idle
    ensures LeftOwned(Run(acts + [Receive(id)] + [Handle] + [Complete] + [Fulfil] + [Return(id)]), id)
  {
    hide Run, Received, Handled, Completed, Fulfilled, ReturnedFrom, LeftOwned;
    LateReplySteps(Run(acts), id);
    RunOne(acts, Receive(id));
    RunOne(acts + [Receive(id)], Handle);
    RunOne(acts + [Receive(id)] + [Handle], Complete);
    RunOne(acts + [Receive(id)] + [Handle] + [Complete], Fulfil);
    RunOne(acts + [Receive(id)] + [Handle] + [Complete] + [Fulfil], Return(id));
  }
}
