/** Heartbeat eviction: the stage's timer counts the ticks at which a performer was silent. */
module Heartbeat {
  const MAX_MISSED_HEARTBEATS := 10

  type Id = nat

  datatype Vitals = Vitals(active: bool, missed: nat)

  datatype Event = Beat(id: Id) | Tick

  // ---------------------------------------------------------------- one step of the stage

  function Ticked(v: Vitals): Vitals { if v.active then v.(active := false) else v.(missed := v.missed + 1) }

  predicate Expired(v: Vitals) { v.missed > MAX_MISSED_HEARTBEATS }

  function AfterBeat(s: map<Id, Vitals>, id: Id): map<Id, Vitals> {
    if id in s then s[id := Vitals(true, 0)] else s
  }

  function AfterTick(s: map<Id, Vitals>): map<Id, Vitals> {
    map id | id in s && !Expired(Ticked(s[id])) :: Ticked(s[id])
  }

  class Monitor {
    var performers: map<Id, Vitals>

    method Heartbeat(id: Id)
      modifies this
      ensures performers == AfterBeat(old(performers), id)
    {
      if id in performers { performers := performers[id := performers[id].(active := true, missed := 0)]; }
    }

    /** stage_heartbeat_timer: visit every performer, collect the expired ones, then remove them. */
    method Timer()
      modifies this
      ensures performers == AfterTick(old(performers))
    {
      ghost var was := performers;
      var bundle := performers.Keys;
      var removed: set<Id> := {};
      while bundle != {}
        invariant performers.Keys == was.Keys && bundle <= was.Keys
        invariant forall id :: id in was ==> performers[id] == if id in bundle then was[id] else Ticked(was[id])
        invariant forall id :: id in removed <==> id in was && id !in bundle && Expired(Ticked(was[id]))
        decreases bundle
      {
        var id :| id in bundle;
        bundle := bundle - {id};
        if performers[id].active {
          performers := performers[id := performers[id].(active := false)];
        } else {
          performers := performers[id := performers[id].(missed := performers[id].missed + 1)];
        }
        if performers[id].missed > MAX_MISSED_HEARTBEATS { removed := removed + {id}; }
      }
      performers := performers - removed;
    }

    /** A whole trace of heartbeats and timer ticks, in order. */
    method Watch(trace: seq<Event>)
      modifies this
      ensures performers == Run(old(performers), trace)
    {
      for i := 0 to |trace|
        invariant performers == Run(old(performers), trace[..i])
      {
        match trace[i] {
          case Beat(id) => Heartbeat(id);
          case Tick => Timer();
        }
        assert trace[..i + 1][..i] == trace[..i];
      }
      assert trace[..|trace|] == trace;
    }
  }

  // ---------------------------------------------------------------- whole traces

  function Run(s: map<Id, Vitals>, trace: seq<Event>): map<Id, Vitals> {
    if trace == [] then s
    else
      var before := Run(s, trace[..|trace| - 1]);
      match trace[|trace| - 1]
      case Beat(id) => AfterBeat(before, id)
      case Tick => AfterTick(before)
  }

  /** Ticks in the trace from position `from` on. */
  function Ticks(trace: seq<Event>, from: nat): nat
    requires from <= |trace|
    decreases |trace| - from
  {
    if from == |trace| then 0 else (if trace[from].Tick? then 1 else 0) + Ticks(trace, from + 1)
  }

  /** Performer `id` is silent from position `from` to the end. */
  ghost predicate Silent(trace: seq<Event>, id: Id, from: nat) {
    forall i :: from <= i < |trace| ==> trace[i] != Beat(id)
  }

  lemma {:induction false} TicksAtEnd(trace: seq<Event>, from: nat)
    requires from < |trace|
    ensures Ticks(trace, from) == Ticks(trace[..|trace| - 1], from) + if trace[|trace| - 1].Tick? then 1 else 0
    decreases |trace| - from
  {
    if from + 1 < |trace| { TicksAtEnd(trace, from + 1); }
  }

  /** `id` fell silent at `from`: its heartbeat came just before, or it never sent one and its first flag decides. */
  ghost predicate LastHeard(trace: seq<Event>, id: Id, from: nat) {
    from <= |trace| && Silent(trace, id, from) && (from > 0 ==> trace[from - 1] == Beat(id))
  }

  /** The ticks since the performer was last heard; an initial flag that is off counts as one tick gone. */
  ghost function Quiet(first: Vitals, trace: seq<Event>, from: nat): nat
    requires from <= |trace|
  {
    Ticks(trace, from) + if from == 0 && !first.active then 1 else 0
  }

  /** While a performer is present, its flag and counter are determined by the ticks since it was last heard: the
      first one clears the flag and every later one is counted. */
  lemma {:induction false} MissedIsQuiet(s: map<Id, Vitals>, trace: seq<Event>, id: Id, from: nat)
    requires id in s && s[id].missed == 0 && LastHeard(trace, id, from) && id in Run(s, trace)
    ensures var quiet := Quiet(s[id], trace, from);
            Run(s, trace)[id] == Vitals(quiet == 0, if quiet <= 1 then 0 else quiet - 1)
    decreases |trace|
  {
    if trace != [] {
      var t := trace[..|trace| - 1];
      if from < |trace| {
        TicksAtEnd(trace, from);
        assert LastHeard(t, id, from) by { assert forall i :: from <= i < |t| ==> t[i] == trace[i]; }
        MissedIsQuiet(s, t, id, from);
      }
    }
  }

  /** The performer present after `t` is evicted by the next tick exactly when that is the 12th one it is quiet for. */
  lemma EvictedAtTwelve(s: map<Id, Vitals>, t: seq<Event>, id: Id, from: nat)
    requires id in s && s[id].missed == 0 && LastHeard(t, id, from) && id in Run(s, t)
    ensures id !in Run(s, t + [Tick]) <==> Quiet(s[id], t, from) + 1 == 12
  {
    assert (t + [Tick])[..|t|] == t;
    MissedIsQuiet(s, t, id, from);
    StillCounted(s, t, id);
  }

  lemma {:induction false} StillCounted(s: map<Id, Vitals>, t: seq<Event>, id: Id)
    requires id in s && s[id].missed == 0 && id in Run(s, t)
    ensures Run(s, t)[id].missed <= MAX_MISSED_HEARTBEATS
  {
    if t != [] && id in Run(s, t[..|t| - 1]) { StillCounted(s, t[..|t| - 1], id); }
  }

  /** Gone is gone: only a performer present before a step is present after it. */
  lemma {:induction false} PresentBefore(s: map<Id, Vitals>, trace: seq<Event>, id: Id, n: nat)
    requires n <= |trace| && id in Run(s, trace)
    ensures id in Run(s, trace[..n])
    decreases |trace|
  {
    if n < |trace| {
      assert trace[..|trace| - 1][..n] == trace[..n];
      PresentBefore(s, trace[..|trace| - 1], id, n);
    } else {
      assert trace[..n] == trace;
    }
  }

  lemma {:induction false} HeardSomewhere(trace: seq<Event>, id: Id) returns (from: nat)
    ensures LastHeard(trace, id, from)
  {
    from := |trace|;
    while from > 0 && trace[from - 1] != Beat(id)
      invariant 0 <= from <= |trace| && Silent(trace, id, from)
    {
      from := from - 1;
    }
  }

  /** Over every trace: a performer is still there at the end exactly when no prefix shows it quiet for 12 ticks. */
  lemma {:induction false} PresentIffNeverQuiet(s: map<Id, Vitals>, trace: seq<Event>, id: Id)
    requires id in s && s[id].missed == 0
    ensures id in Run(s, trace) <==>
              forall n, from {:trigger LastHeard(trace[..n], id, from)} ::
                0 <= n <= |trace| && 0 <= from && LastHeard(trace[..n], id, from) ==>
                Quiet(s[id], trace[..n], from) < 12
    decreases |trace|
  {
    if id in Run(s, trace) {
      forall n, from {:trigger LastHeard(trace[..n], id, from)} | 0 <= n <= |trace| && 0 <= from
        && LastHeard(trace[..n], id, from)
        ensures Quiet(s[id], trace[..n], from) < 12
      {
        PresentBefore(s, trace, id, n);
        MissedIsQuiet(s, trace[..n], id, from);
        StillCounted(s, trace[..n], id);
      }
    } else {
      QuietWhenGone(s, trace, id);
    }
  }

  lemma {:induction false} QuietWhenGone(s: map<Id, Vitals>, trace: seq<Event>, id: Id)
    requires id in s && s[id].missed == 0 && id !in Run(s, trace)
    ensures exists n, from {:trigger LastHeard(trace[..n], id, from)} ::
            0 <= n <= |trace| && 0 <= from && LastHeard(trace[..n], id, from)
              && Quiet(s[id], trace[..n], from) >= 12
    decreases |trace|
  {
    var t := trace[..|trace| - 1];
    if id in Run(s, t) {
      var from := HeardSomewhere(t, id);
      MissedIsQuiet(s, t, id, from);
      StillCounted(s, t, id);
      TicksAtEnd(trace, from);
      assert trace[..|trace|] == trace;
      assert LastHeard(trace, id, from);
      assert LastHeard(trace[..|trace|], id, from);
    } else {
      QuietWhenGone(s, t, id);
      var n, from :| 0 <= n <= |t| && 0 <= from && LastHeard(t[..n], id, from)
        && Quiet(s[id], t[..n], from) >= 12;
      assert t[..n] == trace[..n];
      assert LastHeard(trace[..n], id, from);
    }
  }

}
