/** What a blocking send is told, in which order messages are handled, and when a promise ends: over every run. */
module Replies {
  import opened Common
  import opened Requests
  import opened Cleanup

  // ---------------------------------------------------------------- which reply a callback gets

  /** Request `id` has met no timeout: whatever it was given is a message, and its callback got one with its own id. */
  ghost predicate Met(s: State, id: MsgId) {
    && (id in s.senders && (s.senders[id].Got? || s.senders[id].Called?) ==> s.senders[id].msg.Some?)
    && forall i {:trigger s.callbacks[i]} :: 0 <= i < |s.callbacks| && s.callbacks[i].request == id ==>
         s.callbacks[i].reply == Some(id)
  }

  /** Request `id` was never woken: it was given no message, and neither was its callback. */
  ghost predicate Unmet(s: State, id: MsgId) {
    && (id in s.senders && (s.senders[id].Got? || s.senders[id].Called?) ==> s.senders[id].msg.None?)
    && forall i {:trigger s.callbacks[i]} :: 0 <= i < |s.callbacks| && s.callbacks[i].request == id ==>
         s.callbacks[i].reply == None
  }

  /** A sender past its callback has one on record, with a reply exactly if it holds a message. */
  ghost predicate Handed(s: State) {
    forall id {:trigger s.senders[id]} :: id in s.senders && s.senders[id].Called? ==>
      exists i {:trigger s.callbacks[i]} :: 0 <= i < |s.callbacks| &&
        s.callbacks[i] == Callback(id, if s.senders[id].msg.Some? then Some(id) else None)
  }

  lemma MetStep(s: State, a: Action, id: MsgId)
    requires Held(s) && Met(s, id) && a != Timeout(id)
    ensures Met(Step(s, a), id)
  {}

  lemma UnmetStep(s: State, a: Action, id: MsgId)
    requires Unmet(s, id) && a != Wake(id)
    ensures Unmet(Step(s, a), id)
  {}

  lemma CallbacksGrow(s: State, a: Action)
    requires Held(s)
    ensures var t := Step(s, a);
            && s.callbacks <= t.callbacks
            && forall id {:trigger t.senders[id]} :: id in t.senders && t.senders[id].Called? ==>
                 (id in s.senders && s.senders[id] == t.senders[id]) ||
                 t.callbacks == s.callbacks + [Callback(id, if t.senders[id].msg.Some? then Some(id) else None)]
  {}

  lemma HandedStep(s: State, a: Action)
    requires Held(s) && Handed(s)
    ensures Handed(Step(s, a))
  {
    var t := Step(s, a);
    CallbacksGrow(s, a);
    hide Step, Held;
    forall id {:trigger t.senders[id]} | id in t.senders && t.senders[id].Called?
      ensures exists i {:trigger t.callbacks[i]} :: 0 <= i < |t.callbacks| &&
                t.callbacks[i] == Callback(id, if t.senders[id].msg.Some? then Some(id) else None)
    {
      if id in s.senders && s.senders[id] == t.senders[id] {
        var i :| 0 <= i < |s.callbacks| &&
                 s.callbacks[i] == Callback(id, if s.senders[id].msg.Some? then Some(id) else None);
        assert t.callbacks[i] == s.callbacks[i];
      } else {
        assert t.callbacks[|s.callbacks|] == Callback(id, if t.senders[id].msg.Some? then Some(id) else None);
      }
    }
  }

  /** In every run: without a timeout of the request its callback gets a message that bears its own id; without a
      wake-up it gets none. */
  lemma {:induction false} ReplyIsGiven(acts: seq<Action>, id: MsgId)
    ensures Timeout(id) !in acts ==> forall i {:trigger Run(acts).callbacks[i]} ::
              0 <= i < |Run(acts).callbacks| && Run(acts).callbacks[i].request == id ==>
              Run(acts).callbacks[i].reply == Some(id)
    ensures Wake(id) !in acts ==> forall i {:trigger Run(acts).callbacks[i]} ::
              0 <= i < |Run(acts).callbacks| && Run(acts).callbacks[i].request == id ==>
              Run(acts).callbacks[i].reply == None
  {
    if Timeout(id) !in acts { NeverTimedOut(acts, id); }
    if Wake(id) !in acts { NeverWoken(acts, id); }
  }

  lemma {:induction false} NeverTimedOut(acts: seq<Action>, id: MsgId)
    requires Timeout(id) !in acts
    ensures Met(Run(acts), id)
  {
    if acts != [] {
      var n := |acts| - 1;
      assert acts[n] in acts && forall a {:trigger a in acts[..n]} :: a in acts[..n] ==> a in acts;
      NeverTimedOut(acts[..n], id);
      InvAlways(acts[..n]);
      hide Met, Step;
      MetStep(Run(acts[..n]), acts[n], id);
    }
  }

  lemma {:induction false} NeverWoken(acts: seq<Action>, id: MsgId)
    requires Wake(id) !in acts
    ensures Unmet(Run(acts), id)
  {
    if acts != [] {
      var n := |acts| - 1;
      assert acts[n] in acts && forall a {:trigger a in acts[..n]} :: a in acts[..n] ==> a in acts;
      NeverWoken(acts[..n], id);
      hide Unmet, Step;
      UnmetStep(Run(acts[..n]), acts[n], id);
    }
  }

  /** In every run a sender past its callback has a callback on record, and that got a message exactly if the sender
      holds one. */
  lemma {:induction false} CalledIsRecorded(acts: seq<Action>)
    ensures Handed(Run(acts))
  {
    if acts != [] {
      var n := |acts| - 1;
      CalledIsRecorded(acts[..n]);
      InvAlways(acts[..n]);
      hide Handed, Step;
      HandedStep(Run(acts[..n]), acts[n]);
    }
  }

  // ---------------------------------------------------------------- order of handling

  /** The queue is in the order of arrival, and everything handled arrived before all of it. */
  ghost predicate InOrder(s: State) {
    && (forall i {:trigger s.queue[i]} :: 0 <= i < |s.queue| ==> s.queue[i] in s.delivery)
    && (forall i, j {:trigger s.queue[i], s.queue[j]} :: 0 <= i < j < |s.queue| ==>
          s.queue[i] in s.delivery && s.queue[j] in s.delivery && s.delivery[s.queue[i]] < s.delivery[s.queue[j]])
    && (forall d, i {:trigger d in s.handled, s.queue[i]} :: d in s.handled && 0 <= i < |s.queue| ==>
          s.queue[i] in s.delivery && d < s.delivery[s.queue[i]])
  }

  lemma InOrderReceive(s: State, id: MsgId)
    requires Places(s) && Fresh(s) && InOrder(s)
    ensures InOrder(Received(s, id))
  {
    PopulatedPlaces(s);
    PopulatedSame(s);
    var o, t := Populated(s).pool[0], Received(s, id);
    assert o in Populated(s).pool;
    hide Populated, Distinct;
    forall i {:trigger t.queue[i]} | 0 <= i < |s.queue| ensures t.queue[i] == s.queue[i] && s.queue[i] != o {
      assert s.queue[i] in s.queue;
    }
  }

  lemma InOrderHandle(s: State)
    requires InOrder(s)
    ensures InOrder(Handled(s))
  {}

  lemma InOrderSame(s: State, t: State)
    requires InOrder(s) && t.queue == s.queue && t.delivery == s.delivery && t.handled == s.handled
    ensures InOrder(t)
  {}

  lemma QueueSame(s: State, a: Action)
    requires !a.Receive? && a != Handle
    ensures var t := Step(s, a); t.queue == s.queue && t.delivery == s.delivery && t.handled == s.handled
  {}

  /** In every run messages are handled in the order in which they arrived, each at most once. */
  lemma {:induction false} HandledInOrder(acts: seq<Action>)
    ensures InOrder(Run(acts))
  {
    if acts != [] {
      var s, a := Run(acts[..|acts| - 1]), acts[|acts| - 1];
      HandledInOrder(acts[..|acts| - 1]);
      InvAlways(acts[..|acts| - 1]);
      hide InOrder, Places, Fresh;
      match a
      case Receive(id) => InOrderReceive(s, id);
      case Handle => InOrderHandle(s);
      case _ => QueueSame(s, a); InOrderSame(s, Step(s, a));
    }
  }

  // ---------------------------------------------------------------- the life of a promise

  /** A promise exists from the request on until it was purged after the return; the dead queue holds each returned
      request that was not purged once. */
  ghost predicate Living(s: State) {
    && Distinct(s.dead)
    && (forall id {:trigger id in s.dead} :: id in s.dead ==> id in s.senders && s.senders[id].Returned?)
    && (forall id {:trigger id in s.promises} {:trigger s.senders[id]} :: id in s.promises <==>
          id in s.senders && (s.senders[id].Returned? ==> id in s.dead))
  }

  lemma LivingReturn(s: State, id: MsgId)
    requires Living(s)
    ensures Living(ReturnedFrom(s, id))
  {
    if id in s.senders && s.senders[id].Called? { PushLast(s.dead, id); }
    hide Distinct;
  }

  lemma LivingPurge(s: State)
    requires Living(s)
    ensures Living(Purged(s))
  {
    if s.dead != [] { PopFirst(s.dead); }
    hide Distinct;
  }

  lemma LivingOther(s: State, a: Action)
    requires Living(s) && !a.Return? && a != Purge
    ensures Living(Step(s, a))
  {
    PopulatedSame(s);
    hide Distinct, Populated;
  }

  /** In every run exactly the requests that have not returned, or are still in the dead queue, have their promise. */
  lemma {:induction false} PromiseLives(acts: seq<Action>)
    ensures Living(Run(acts))
  {
    if acts != [] {
      var s, a := Run(acts[..|acts| - 1]), acts[|acts| - 1];
      PromiseLives(acts[..|acts| - 1]);
      hide Living;
      match a
      case Return(id) => LivingReturn(s, id);
      case Purge => LivingPurge(s);
      case _ => LivingOther(s, a);
    }
  }

  // ---------------------------------------------------------------- the ordinary course

  /** The state while one request is under way and nothing else: its only message is `o`. */
  ghost predicate Answering(s: State, id: MsgId, o: Obj) {
    && id in s.promises && o in s.ident && s.ident[o] == id && o in s.delivery && s.queue == []
    && id in s.senders && s.senders[id] == Waiting
  }

  lemma AnswerArrives(s: State, id: MsgId)
    requires id !in s.senders && s.queue == [] && s.dispatch == Idle
    ensures var t := Handled(Received(Registered(s, id), id));
            && t.dispatch.Handling? && Answering(t, id, t.dispatch.obj) && t.callbacks == s.callbacks
            && t.promises[id] == None
  {
    PopulatedSame(Registered(s, id));
    var t := Received(Registered(s, id), id);
    hide Populated;
    assert t.queue == [t.queue[0]] && t.ident[t.queue[0]] == id;
  }

  lemma AnswerTaken(s: State, id: MsgId)
    requires s.dispatch.Handling? && Answering(s, id, s.dispatch.obj) && s.promises[id] == None
    ensures var o, t := s.dispatch.obj, CalledBack(Woken(Fulfilled(Completed(s)), id), id);
            && t.callbacks == s.callbacks + [Callback(id, Some(id))] && id in t.senders
                 && t.senders[id] == Called(Some(o))
            && id in t.owned && t.owned[id] == o && o in t.flagged && t.dispatch == Idle && t.delivery == s.delivery
            && o in t.ident && t.ident[o] == id
  {}

  lemma AnswerReleased(t: State, id: MsgId, o: Obj)
    requires id in t.senders && t.senders[id] == Called(Some(o)) && id in t.owned && t.owned[id] == o && o in t.flagged
    requires o in t.delivery && o in t.ident && t.ident[o] == id
    ensures var u := ReturnedFrom(t, id);
            && id in u.senders && u.senders[id] == Returned && u.callbacks == t.callbacks
            && u.cleaned == t.cleaned + [t.delivery[o]] && id !in u.owned && u.dead == t.dead + [id]
  {}

  /** After every run that leaves the dispatch thread idle, a new request that is answered in time runs its callback
      once with its reply, cleans the reply up, and returns. */
  lemma OrdinaryCourse(acts: seq<Action>, id: MsgId)
    requires var s := Run(acts); id !in s.senders && s.queue == [] && s.dispatch == Idle
    ensures var handled := acts + [Register(id)] + [Receive(id)] + [Handle];
            var called := handled + [Complete] + [Fulfil] + [Wake(id)] + [Call(id)];
            var u := Run(called + [Return(id)]);
            && u.callbacks == Run(acts).callbacks + [Callback(id, Some(id))]
            && id in u.senders && u.senders[id] == Returned && id in u.dead && id !in u.owned
            && Run(handled).dispatch.Handling? && Run(handled).dispatch.obj in Run(handled).delivery
            && Run(handled).delivery[Run(handled).dispatch.obj] in u.cleaned
  {
    hide Run, Registered, Received, Handled, Completed, Fulfilled, Woken, CalledBack, ReturnedFrom;
    var s := Run(acts);
    var handled := acts + [Register(id)] + [Receive(id)] + [Handle];
    RunOne(acts, Register(id));
    RunOne(acts + [Register(id)], Receive(id));
    RunOne(acts + [Register(id)] + [Receive(id)], Handle);
    AnswerArrives(s, id);
    AnswerTaken(Run(handled), id);
    RunOne(handled, Complete);
    RunOne(handled + [Complete], Fulfil);
    RunOne(handled + [Complete] + [Fulfil], Wake(id));
    RunOne(handled + [Complete] + [Fulfil] + [Wake(id)], Call(id));
    var called := handled + [Complete] + [Fulfil] + [Wake(id)] + [Call(id)];
    AnswerReleased(Run(called), id, Run(handled).dispatch.obj);
    RunOne(called, Return(id));
  }

  /** A message that a handler claims is never cleaned up and never pooled again. */
  lemma ClaimedIsLost(acts: seq<Action>, more: seq<Action>, o: Obj)
    requires Run(acts).dispatch == Handling(o)
    ensures var t := Run(acts + [Claim] + more); o in t.flagged && o !in t.pool
    ensures o in Run(acts).delivery && Lost(Run(acts + [Claim] + more), o, Run(acts).delivery[o])
  {
    hide Run, Lost, Places, Held, CalledOnce, Fresh, Uncleaned, Promised, Traced;
    AllAlways(acts);
    RunOne(acts, Claim);
    ClaimLoses(Run(acts), o);
    FlaggedForever(acts + [Claim], more, o);
    LostForever(acts + [Claim], more, o, Run(acts).delivery[o]);
  }

  lemma ClaimLoses(s: State, o: Obj)
    requires Inv(s) && s.dispatch == Handling(o)
    ensures o in s.delivery && o in Claimed(s).flagged && Lost(Claimed(s), o, s.delivery[o])
  {
    hide CalledOnce, Distinct;
  }
}
