/** A joining client rebuilds the stage's graph from create messages: what any stream of them leads to. */
module Snapshot {
  import opened Common
  import opened EntityTree

  datatype Info = Info(kind: Kind, input: bool)

  datatype Msg = CreateEntity(path: Path, info: Info) | CreateCable(address: Address)

  /** A client's picture of the graph: known entities, child sets, cables, and the cables held by each plug. */
  datatype View = View(
    known: map<Path, Info>, children: map<Path, set<Path>>, cables: set<Address>, held: map<Path, set<Address>>)

  /** The stage's graph and the joining client's performer. */
  datatype World = World(tree: map<Path, Info>, cables: set<Address>, local: Path)

  predicate InputPlug(known: map<Path, Info>, p: Path) { p in known && known[p].kind == PLUG && known[p].input }

  predicate OutputPlug(known: map<Path, Info>, p: Path) { p in known && known[p].kind == PLUG && !known[p].input }

  /** Performers are the roots, every other entity has a container above it, cables join an input to an output. */
  ghost predicate Sound(w: World) {
    && w.local in w.tree && |w.local| == 1
    && (forall p {:trigger p in w.tree} :: p in w.tree ==> p != [] && (|p| == 1 <==> w.tree[p].kind == PERFORMER))
    && (forall p {:trigger Init(p)} :: p in w.tree && |p| >= 2 ==> Init(p) in w.tree && Container(w.tree[Init(p)].kind))
    && (forall c {:trigger c in w.cables} :: c in w.cables ==>
          InputPlug(w.tree, c.input) && OutputPlug(w.tree, c.output))
  }

  predicate Local(w: World, p: Path) { Contains(p, w.local) }

  /** A client that has just joined knows its own subtree. */
  ghost function Fresh(w: World): View {
    View(map p | p in w.tree && Local(w, p) :: w.tree[p],
         map p | p in w.tree && Local(w, p) :: set q | q in w.tree && |q| >= 2 && Init(q) == p,
         {},
         map p | p in w.tree && Local(w, p) :: {})
  }

  // ---------------------------------------------------------------- one message

  /** create_proxy_entity and add_proxy_entity: local, known and parentless entities are refused; the rest are stored,
      and listed by their parent if it is already known. */
  function EntityCreated(v: View, local: Path, p: Path, info: Info): View {
    if Contains(p, local) || p in v.known || p == [] || (info.kind != PERFORMER && |p| < 2) then v
    else
      var z := Init(p);
      var attached :=
        if z in v.known && z in v.children && Container(v.known[z].kind) then v.children[z := v.children[z] + {p}]
        else v.children;
      v.(known := v.known[p := info], children := attached[p := {}], held := v.held[p := {}])
  }

  /** create_cable: refused unless both plugs are known; a known address is left alone. */
  function CableCreated(v: View, a: Address): View {
    if InputPlug(v.known, a.input) && OutputPlug(v.known, a.output) && a !in v.cables && a.input in v.held
      && a.output in v.held then
      v.(cables := v.cables + {a}, held := v.held[a.input := v.held[a.input] + {a}][a.output := v.held[a.output] + {a}])
    else v
  }

  function Received(v: View, local: Path, m: Msg): View {
    match m
    case CreateEntity(p, info) => EntityCreated(v, local, p, info)
    case CreateCable(a) => CableCreated(v, a)
  }

  class Client {
    const local: Path
    var known: map<Path, Info>
    var children: map<Path, set<Path>>
    var cables: set<Address>
    var held: map<Path, set<Address>>

    ghost function Abs(): View
      reads this
    {
      View(known, children, cables, held)
    }

    /** A client that has just joined. */
    constructor (w: World)
      ensures local == w.local && Abs() == Fresh(w)
    {
      local := w.local;
      known := map p | p in w.tree && Contains(p, w.local) :: w.tree[p];
      children := map p | p in w.tree && Contains(p, w.local) :: set q | q in w.tree && |q| >= 2 && Init(q) == p;
      cables := {};
      held := map p | p in w.tree && Contains(p, w.local) :: {};
    }

    /** Every message of a stream, in order. */
    method Replay(w: World, stream: seq<Msg>)
      requires local == w.local && Abs() == Fresh(w)
      modifies this
      ensures Abs() == Replayed(w, stream)
    {
      hide Fresh, EntityCreated, CableCreated;
      for i := 0 to |stream|
        invariant Abs() == Replayed(w, stream[..i])
      {
        match stream[i] {
          case CreateEntity(p, info) => CreateProxyEntity(p, info);
          case CreateCable(a) => CableCreateHandler(a);
        }
        assert stream[..i + 1][..i] == stream[..i];
      }
      assert stream[..|stream|] == stream;
    }

    /** An own entity, one that is known already, and one that needs a parent and cannot have one. */
    predicate Refused(known: map<Path, Info>, p: Path, info: Info) {
      (local != [] && local <= p) || p in known || p == [] || (info.kind != PERFORMER && |p| < 2)
    }

    method CreateProxyEntity(p: Path, info: Info)
      modifies this
      ensures Abs() == EntityCreated(old(Abs()), local, p, info)
      ensures Refused(old(known), p, info) ==> Abs() == old(Abs())
      ensures !Refused(old(known), p, info) ==>
                && known == old(known)[p := info] && p in children && children[p] == {} && p in held && held[p] == {}
                && forall z {:trigger children[z]} :: z in old(children) && z != p ==>
                     z in children && children[z] == old(children)[z] +
                       if p != [] && z == Init(p) && z in old(known) && Container(old(known)[z].kind) then {p} else {}
    {
      if Contains(p, local) { return; }
      if p in known { return; }
      if p == [] || (info.kind != PERFORMER && |p| < 2) { return; }
      var parent := Init(p);
      if parent in known && parent in children && Container(known[parent].kind) {
        children := children[parent := children[parent] + {p}];
      }
      known := known[p := info];
      children := children[p := {}];
      held := held[p := {}];
    }

    method CableCreateHandler(a: Address)
      modifies this
      ensures Abs() == CableCreated(old(Abs()), a)
      ensures a in cables && a !in old(cables) ==>
                && a.input in known && known[a.input].kind == PLUG && known[a.input].input
                && a.output in known && known[a.output].kind == PLUG && !known[a.output].input
      ensures old(cables) <= cables <= old(cables) + {a} && known == old(known) && children == old(children)
      ensures a !in old(cables) && InputPlug(known, a.input) && OutputPlug(known, a.output)
              && a.input in old(held) && a.output in old(held) ==>
                a in cables && a.input in held && a in held[a.input] && a.output in held && a in held[a.output]
    {
      if !InputPlug(known, a.input) || !OutputPlug(known, a.output) || a.input !in held || a.output !in held { return; }
      if a in cables { return; }
      cables := cables + {a};
      held := held[a.input := held[a.input] + {a}];
      held := held[a.output := held[a.output] + {a}];
    }
  }

  // ---------------------------------------------------------------- streams

  ghost function Replayed(w: World, stream: seq<Msg>): View {
    if stream == [] then Fresh(w) else Received(Replayed(w, stream[..|stream| - 1]), w.local, stream[|stream| - 1])
  }

  /** Every message is a true create of the stage's graph; order and repetition are free. */
  ghost predicate Genuine(w: World, stream: seq<Msg>) {
    forall i {:trigger stream[i]} :: 0 <= i < |stream| ==>
      match stream[i]
      case CreateEntity(p, info) => p in w.tree && info == w.tree[p]
      case CreateCable(a) => a in w.cables
  }

  /** The position of the first create of `p`; the length if there is none. Local entities were there from the start. */
  ghost function FirstAt(w: World, stream: seq<Msg>, p: Path): int {
    if Local(w, p) then -1
    else if stream == [] then 0
    else
      var before := FirstAt(w, stream[..|stream| - 1], p);
      if before < |stream| - 1 then before
      else if stream[|stream| - 1].CreateEntity? && stream[|stream| - 1].path == p then |stream| - 1
      else |stream|
  }

  lemma {:induction false} FirstAtMeans(w: World, stream: seq<Msg>, p: Path)
    ensures Local(w, p) ==> FirstAt(w, stream, p) == -1
    ensures !Local(w, p) ==>
              var f := FirstAt(w, stream, p);
              && 0 <= f <= |stream|
              && (f < |stream| ==> stream[f].CreateEntity? && stream[f].path == p)
              && (forall i :: 0 <= i < f ==> !(stream[i].CreateEntity? && stream[i].path == p))
  {
    if stream != [] { FirstAtMeans(w, stream[..|stream| - 1], p); }
  }

  lemma FirstAtStep(w: World, s: seq<Msg>, m: Msg, p: Path)
    ensures var f := FirstAt(w, s, p);
            FirstAt(w, s + [m], p) == if f < |s| then f else if m.CreateEntity? && m.path == p then |s| else |s| + 1
    ensures -1 <= FirstAt(w, s, p) <= |s| && (Local(w, p) <==> FirstAt(w, s, p) == -1)
  {
    assert (s + [m])[..|s|] == s;
    FirstAtMeans(w, s, p);
  }

  // ---------------------------------------------------------------- what a stream comes to

  /** Known is what was there or was created, with the stage's kinds. */
  ghost predicate KnownIs(w: World, s: seq<Msg>, v: View) {
    && v.known.Keys == v.children.Keys == v.held.Keys
    && (forall p {:trigger p in v.known} :: p in v.known <==> p in w.tree && FirstAt(w, s, p) < |s|)
    && (forall p {:trigger v.known[p]} :: p in v.known ==> p in w.tree && v.known[p] == w.tree[p])
  }

  /** A child is listed by its known parent exactly when the parent's create came first. */
  ghost predicate ListedIs(w: World, s: seq<Msg>, v: View)
    requires v.known.Keys == v.children.Keys
  {
    forall z, p {:trigger p in v.children[z]} :: z in v.known ==>
      (p in v.children[z] <==>
        p in v.known && |p| >= 2 && Init(p) == z && (Local(w, p) || FirstAt(w, s, z) < FirstAt(w, s, p)))
  }

  /** Some create of the cable came after the creates of both its plugs. */
  ghost predicate CableTime(w: World, s: seq<Msg>, a: Address, i: nat) {
    i < |s| && s[i] == CreateCable(a) && FirstAt(w, s, a.input) < i && FirstAt(w, s, a.output) < i
  }

  ghost predicate CablesAre(w: World, s: seq<Msg>, v: View) {
    forall a {:trigger a in v.cables} :: a in v.cables <==>
      a in w.cables && exists i {:trigger CableTime(w, s, a, i)} :: CableTime(w, s, a, i)
  }

  /** The set of each plug is the set of cables that name it. */
  ghost predicate HeldIs(v: View)
    requires v.known.Keys == v.held.Keys
  {
    && (forall a {:trigger a in v.cables} :: a in v.cables ==> a.input in v.known && a.output in v.known)
    && (forall p, a {:trigger a in v.held[p]} :: p in v.known ==>
          (a in v.held[p] <==> a in v.cables && (a.input == p || a.output == p)))
  }

  ghost predicate Outcome(w: World, s: seq<Msg>, v: View) {
    KnownIs(w, s, v) && ListedIs(w, s, v) && CablesAre(w, s, v) && HeldIs(v)
  }

  lemma FreshOutcome(w: World)
    requires Sound(w)
    ensures Outcome(w, [], Fresh(w))
  {
    var v := Fresh(w);
    forall z, p {:trigger p in v.children[z]} | z in v.known
      ensures p in v.children[z] <==>
              p in v.known && |p| >= 2 && Init(p) == z && (Local(w, p) || FirstAt(w, [], z) < FirstAt(w, [], p))
    {
      if p in v.children[z] { assert w.local <= Init(p) <= p; }
    }
  }

  lemma EntityKnown(w: World, s: seq<Msg>, v: View, p: Path, info: Info)
    requires Sound(w) && KnownIs(w, s, v) && p in w.tree && info == w.tree[p]
    ensures KnownIs(w, s + [CreateEntity(p, info)], EntityCreated(v, w.local, p, info))
  {
    var m := CreateEntity(p, info);
    var t, u := s + [m], EntityCreated(v, w.local, p, info);
    hide Sound, FirstAt, EntityCreated;
    assert u.known.Keys == u.children.Keys == u.held.Keys
           && u.known == (if Local(w, p) || p in v.known then v.known else v.known[p := info]) by {
      EntityAdds(w, v, p, info);
    }
    forall x {:trigger x in u.known} ensures x in u.known <==> x in w.tree && FirstAt(w, t, x) < |t| {
      FirstAtStep(w, s, m, x);
    }
  }

  lemma EntityAdds(w: World, v: View, p: Path, info: Info)
    requires Sound(w) && p in w.tree && info == w.tree[p] && v.known.Keys == v.children.Keys == v.held.Keys
    requires forall x {:trigger v.known[x]} :: x in v.known ==> x in w.tree && v.known[x] == w.tree[x]
    ensures var u := EntityCreated(v, w.local, p, info);
            && u.known.Keys == u.children.Keys == u.held.Keys && u.cables == v.cables && p != []
            && if Local(w, p) || p in v.known then u == v
               else
                 && u.known == v.known[p := info] && u.held == v.held[p := {}] && u.children[p] == {}
                 && (forall z {:trigger u.children[z]} :: z in v.known && z != p ==>
                       u.children[z] == v.children[z] + if |p| >= 2 && z == Init(p) then {p} else {})
  {}

  /** A local entity's child is local, and only local entities have local children. */
  lemma LocalChild(w: World, p: Path)
    requires |w.local| == 1 && |p| >= 2
    ensures Local(w, p) <==> Local(w, Init(p))
  {
    if w.local <= p { assert w.local == p[..1] == Init(p)[..1]; }
    if w.local <= Init(p) { assert w.local == Init(p)[..1] == p[..1]; }
  }

  lemma EntityListed(w: World, s: seq<Msg>, v: View, p: Path, info: Info)
    requires Sound(w) && KnownIs(w, s, v) && ListedIs(w, s, v) && p in w.tree && info == w.tree[p]
    requires KnownIs(w, s + [CreateEntity(p, info)], EntityCreated(v, w.local, p, info))
    ensures ListedIs(w, s + [CreateEntity(p, info)], EntityCreated(v, w.local, p, info))
  {
    var m := CreateEntity(p, info);
    var t, u := s + [m], EntityCreated(v, w.local, p, info);
    EntityAdds(w, v, p, info);
    FirstAtStep(w, s, m, p);
    assert |w.local| == 1;
    hide Sound, FirstAt, EntityCreated, Local;
    forall z, x {:trigger x in u.children[z]} | z in u.known
      ensures x in u.children[z] <==>
              x in u.known && |x| >= 2 && Init(x) == z && (Local(w, x) || FirstAt(w, t, z) < FirstAt(w, t, x))
    {
      FirstAtStep(w, s, m, x);
      FirstAtStep(w, s, m, z);
      if |x| >= 2 { LocalChild(w, x); }
    }
  }

  lemma EntityCables(w: World, s: seq<Msg>, m: Msg, a: Address)
    requires m != CreateCable(a)
    ensures (exists i {:trigger CableTime(w, s, a, i)} :: CableTime(w, s, a, i)) <==>
            exists i {:trigger CableTime(w, s + [m], a, i)} :: CableTime(w, s + [m], a, i)
  {
    FirstAtStep(w, s, m, a.input);
    FirstAtStep(w, s, m, a.output);
    hide FirstAt;
    if i :| CableTime(w, s, a, i) { assert CableTime(w, s + [m], a, i); }
    if i :| CableTime(w, s + [m], a, i) { assert CableTime(w, s, a, i); }
  }

  lemma EntityKeepsCables(w: World, s: seq<Msg>, v: View, p: Path, info: Info)
    requires Sound(w) && KnownIs(w, s, v) && CablesAre(w, s, v) && HeldIs(v) && p in w.tree && info == w.tree[p]
    requires KnownIs(w, s + [CreateEntity(p, info)], EntityCreated(v, w.local, p, info))
    ensures var u := EntityCreated(v, w.local, p, info); CablesAre(w, s + [CreateEntity(p, info)], u) && HeldIs(u)
  {
    var m, u := CreateEntity(p, info), EntityCreated(v, w.local, p, info);
    EntityAdds(w, v, p, info);
    hide Sound, FirstAt, EntityCreated, CableTime;
    forall a {:trigger a in u.cables}
      ensures a in u.cables <==>
              a in w.cables && exists i {:trigger CableTime(w, s + [m], a, i)} :: CableTime(w, s + [m], a, i)
    {
      EntityCables(w, s, m, a);
    }
  }

  lemma CableKnown(w: World, s: seq<Msg>, v: View, a: Address)
    requires KnownIs(w, s, v)
    ensures KnownIs(w, s + [CreateCable(a)], CableCreated(v, a))
    ensures var u := CableCreated(v, a); u.known == v.known && u.children == v.children
  {
    var m, u := CreateCable(a), CableCreated(v, a);
    hide FirstAt;
    forall x {:trigger x in u.known} ensures x in u.known <==> x in w.tree && FirstAt(w, s + [m], x) < |s + [m]| {
      FirstAtStep(w, s, m, x);
    }
  }

  lemma CableListed(w: World, s: seq<Msg>, v: View, a: Address)
    requires KnownIs(w, s, v) && ListedIs(w, s, v) && CableCreated(v, a).known == v.known
             && CableCreated(v, a).children == v.children
    ensures ListedIs(w, s + [CreateCable(a)], CableCreated(v, a))
  {
    var m, u := CreateCable(a), CableCreated(v, a);
    hide FirstAt, CableCreated;
    forall z, x {:trigger x in u.children[z]} | z in u.known
      ensures x in u.children[z] <==>
              x in u.known && |x| >= 2 && Init(x) == z
              && (Local(w, x) || FirstAt(w, s + [m], z) < FirstAt(w, s + [m], x))
    {
      FirstAtStep(w, s, m, x);
      FirstAtStep(w, s, m, z);
    }
  }

  lemma CableHeld(w: World, s: seq<Msg>, v: View, a: Address)
    requires Sound(w) && KnownIs(w, s, v) && HeldIs(v) && a in w.cables
    ensures var u := CableCreated(v, a);
            && u.cables == (if a.input in v.known && a.output in v.known then v.cables + {a} else v.cables)
            && u.known.Keys == u.held.Keys && HeldIs(u)
  {
    hide FirstAt;
  }

  lemma CableAdds(w: World, s: seq<Msg>, v: View, a: Address)
    requires Sound(w) && KnownIs(w, s, v) && CablesAre(w, s, v) && HeldIs(v) && a in w.cables
    ensures var u := CableCreated(v, a);
            u.known.Keys == u.held.Keys && CablesAre(w, s + [CreateCable(a)], u) && HeldIs(u)
  {
    var m, u := CreateCable(a), CableCreated(v, a);
    CableHeld(w, s, v, a);
    assert a.input in w.tree && a.output in w.tree;
    hide Sound, HeldIs, CableCreated, FirstAt, CableTime;
    CableTimes(w, s, a, v.known);
    forall b {:trigger b in u.cables}
      ensures b in u.cables <==>
              b in w.cables && exists i {:trigger CableTime(w, s + [m], b, i)} :: CableTime(w, s + [m], b, i)
    {
      if b != a { EntityCables(w, s, m, b); }
    }
  }

  /** A create of cable `a` takes effect exactly when both plugs are known. */
  lemma CableTimes(w: World, s: seq<Msg>, a: Address, known: map<Path, Info>)
    requires a.input in w.tree && a.output in w.tree
    requires forall p {:trigger p in known} :: p in known <==> p in w.tree && FirstAt(w, s, p) < |s|
    ensures var t := s + [CreateCable(a)];
            (exists i {:trigger CableTime(w, t, a, i)} :: CableTime(w, t, a, i)) <==>
              a.input in known && a.output in known
  {
    var m := CreateCable(a);
    FirstAtStep(w, s, m, a.input);
    FirstAtStep(w, s, m, a.output);
    hide FirstAt;
    if a.input in known && a.output in known { assert CableTime(w, s + [m], a, |s|); }
    if i: nat :| CableTime(w, s + [m], a, i) { assert i <= |s|; }
  }

  lemma OutcomeStep(w: World, s: seq<Msg>, v: View, m: Msg)
    requires Sound(w) && Outcome(w, s, v) && Genuine(w, [m])
    ensures Outcome(w, s + [m], Received(v, w.local, m))
  {
    assert [m][0] == m;
    hide Sound, KnownIs, ListedIs, CablesAre, HeldIs, EntityCreated, CableCreated;
    KeysMatch(w, s, v);
    match m
    case CreateEntity(p, info) =>
      EntityKnown(w, s, v, p, info);
      EntityListed(w, s, v, p, info);
      EntityKeepsCables(w, s, v, p, info);
    case CreateCable(a) =>
      CableKnown(w, s, v, a);
      KeysMatch(w, s + [m], CableCreated(v, a));
      CableListed(w, s, v, a);
      CableAdds(w, s, v, a);
  }

  lemma KeysMatch(w: World, s: seq<Msg>, v: View)
    requires KnownIs(w, s, v)
    ensures v.known.Keys == v.children.Keys == v.held.Keys
  {}

  /** Every genuine stream, in any order and with any repetition, has the outcome its first creates call for. */
  lemma {:induction false} StreamOutcome(w: World, stream: seq<Msg>)
    requires Sound(w) && Genuine(w, stream)
    ensures Outcome(w, stream, Replayed(w, stream))
    decreases |stream|
  {
    if stream == [] {
      FreshOutcome(w);
    } else {
      var s, m := stream[..|stream| - 1], stream[|stream| - 1];
      assert Genuine(w, s) by { assert forall i {:trigger s[i]} :: 0 <= i < |s| ==> s[i] == stream[i]; }
      StreamOutcome(w, s);
      assert Genuine(w, [m]) by { assert stream[|stream| - 1] == m; }
      assert s + [m] == stream;
      hide Outcome, Received, Genuine;
      OutcomeStep(w, s, Replayed(w, s), m);
    }
  }

  // ---------------------------------------------------------------- a stream that holds a snapshot

  /** All entities outside the client's subtree, then all cables. */
  ghost predicate IsSnapshot(w: World, snap: seq<Msg>) {
    && Genuine(w, snap)
    && (forall p {:trigger p in w.tree} :: p in w.tree && !Local(w, p) ==> CreateEntity(p, w.tree[p]) in snap)
    && (forall a {:trigger a in w.cables} :: a in w.cables ==> CreateCable(a) in snap)
    && (forall i, j {:trigger snap[i], snap[j]} ::
          0 <= i < |snap| && 0 <= j < |snap| && snap[i].CreateEntity? && snap[j].CreateCable? ==> i < j)
  }

  /** `snap` occurs in `stream` in its own order, at positions `at`, with anything in between. */
  ghost predicate Within(snap: seq<Msg>, stream: seq<Msg>, at: seq<nat>) {
    && |at| == |snap|
    && (forall i {:trigger at[i]} :: 0 <= i < |at| ==> at[i] < |stream| && stream[at[i]] == snap[i])
    && (forall i, j {:trigger at[i], at[j]} :: 0 <= i < j < |at| ==> at[i] < at[j])
  }

  ghost predicate ParentFirst(w: World, stream: seq<Msg>) {
    forall p {:trigger p in w.tree} :: p in w.tree && |p| >= 2 && !Local(w, p) ==>
      FirstAt(w, stream, Init(p)) < FirstAt(w, stream, p)
  }

  /** Every entity is listed by its parent and every listed path is a child. */
  ghost predicate AllAttached(w: World, v: View) {
    forall z, p {:trigger z in v.children, p in w.tree} :: z in v.children ==>
      (p in v.children[z] <==> p in w.tree && |p| >= 2 && Init(p) == z)
  }

  lemma SnapshotArrives(w: World, snap: seq<Msg>, stream: seq<Msg>, at: seq<nat>, p: Path)
    requires IsSnapshot(w, snap) && Within(snap, stream, at) && p in w.tree && !Local(w, p)
    ensures exists i :: 0 <= i < |snap| && snap[i] == CreateEntity(p, w.tree[p]) && FirstAt(w, stream, p) <= at[i]
  {
    assert CreateEntity(p, w.tree[p]) in snap;
    var i :| 0 <= i < |snap| && snap[i] == CreateEntity(p, w.tree[p]);
    assert stream[at[i]] == snap[i];
    FirstAtMeans(w, stream, p);
  }

  lemma CableArrives(w: World, snap: seq<Msg>, stream: seq<Msg>, at: seq<nat>, a: Address)
    requires Sound(w) && IsSnapshot(w, snap) && Within(snap, stream, at) && a in w.cables
    ensures exists i {:trigger CableTime(w, stream, a, i)} :: CableTime(w, stream, a, i)
  {
    assert CreateCable(a) in snap;
    var j :| 0 <= j < |snap| && snap[j] == CreateCable(a);
    forall p | p in {a.input, a.output} ensures FirstAt(w, stream, p) < at[j] {
      if Local(w, p) {
        FirstAtMeans(w, stream, p);
      } else {
        SnapshotArrives(w, snap, stream, at, p);
        var i :| 0 <= i < |snap| && snap[i] == CreateEntity(p, w.tree[p]) && FirstAt(w, stream, p) <= at[i];
        assert i < j && at[i] < at[j];
      }
    }
    assert CableTime(w, stream, a, at[j]);
  }

  /** Replaying a snapshot in its order, with any true creates mixed in anywhere, the client ends up with exactly the
      stage's entities and exactly its cables, each held by both of its plugs. */
  lemma SnapshotComplete(w: World, snap: seq<Msg>, stream: seq<Msg>, at: seq<nat>)
    requires Sound(w) && IsSnapshot(w, snap) && Within(snap, stream, at) && Genuine(w, stream)
    ensures var v := Replayed(w, stream);
            v.known == w.tree && v.children.Keys == v.known.Keys && v.cables == w.cables && HeldOnBothSides(v)
  {
    var v := Replayed(w, stream);
    StreamOutcome(w, stream);
    hide Replayed, Genuine, FirstAt, IsSnapshot, Within, CableTime;
    forall p {:trigger p in w.tree} | p in w.tree ensures p in v.known {
      if Local(w, p) {
        FirstAtMeans(w, stream, p);
      } else {
        Arrives(w, snap, stream, at, p);
      }
    }
    assert v.known == w.tree;
    forall a {:trigger a in w.cables} | a in w.cables ensures a in v.cables { CableArrives(w, snap, stream, at, a); }
  }

  lemma Arrives(w: World, snap: seq<Msg>, stream: seq<Msg>, at: seq<nat>, p: Path)
    requires IsSnapshot(w, snap) && Within(snap, stream, at) && p in w.tree && !Local(w, p)
    ensures FirstAt(w, stream, p) < |stream|
  {
    SnapshotArrives(w, snap, stream, at, p);
  }

  ghost predicate HeldOnBothSides(v: View) {
    && (forall a {:trigger a in v.cables} :: a in v.cables ==>
          a.input in v.held && a.output in v.held && a in v.held[a.input] && a in v.held[a.output])
    && (forall p, a {:trigger a in v.held[p]} :: p in v.held && a in v.held[p] ==>
          a in v.cables && (a.input == p || a.output == p))
  }

  /** And every entity is attached under its parent exactly when each first create came after its parent's. */
  lemma AttachedIffParentFirst(w: World, snap: seq<Msg>, stream: seq<Msg>, at: seq<nat>)
    requires Sound(w) && IsSnapshot(w, snap) && Within(snap, stream, at) && Genuine(w, stream)
    ensures AllAttached(w, Replayed(w, stream)) <==> ParentFirst(w, stream)
  {
    var v := Replayed(w, stream);
    StreamOutcome(w, stream);
    SnapshotComplete(w, snap, stream, at);
    hide Replayed, Genuine, FirstAt, IsSnapshot, Within, CableTime, CablesAre, HeldIs, HeldOnBothSides;
    if AllAttached(w, v) {
      forall p {:trigger p in w.tree} | p in w.tree && |p| >= 2 && !Local(w, p)
        ensures FirstAt(w, stream, Init(p)) < FirstAt(w, stream, p)
      {
        assert Init(p) in v.children && p in v.children[Init(p)];
      }
    }
    if ParentFirst(w, stream) {
      forall z, p {:trigger z in v.children, p in w.tree} | z in v.children
        ensures p in v.children[z] <==> p in w.tree && |p| >= 2 && Init(p) == z
      {
        assert p in v.children[z] <==>
               p in v.known && |p| >= 2 && Init(p) == z
               && (Local(w, p) || FirstAt(w, stream, z) < FirstAt(w, stream, p));
      }
    }
  }

  lemma {:induction false} FirstAtPrefix(w: World, s: seq<Msg>, extra: seq<Msg>, p: Path)
    requires FirstAt(w, s, p) < |s|
    ensures FirstAt(w, s + extra, p) == FirstAt(w, s, p)
    decreases |extra|
  {
    if extra == [] {
      assert s + extra == s;
    } else {
      var t := extra[..|extra| - 1];
      FirstAtPrefix(w, s, t, p);
      assert s + extra == s + t + [extra[|extra| - 1]];
      FirstAtStep(w, s + t, extra[|extra| - 1], p);
    }
  }

  /** Whatever follows a parent-first snapshot cannot detach anything. */
  lemma LateBroadcastsAttach(w: World, snap: seq<Msg>, extra: seq<Msg>)
    requires Sound(w) && IsSnapshot(w, snap) && ParentFirst(w, snap) && Genuine(w, extra)
    ensures AllAttached(w, Replayed(w, snap + extra))
  {
    var at := seq(|snap|, i requires 0 <= i => i);
    assert Within(snap, snap, at) && Within(snap, snap + extra, at);
    forall p {:trigger p in w.tree} | p in w.tree && |p| >= 2 && !Local(w, p)
      ensures FirstAt(w, snap + extra, Init(p)) < FirstAt(w, snap + extra, p)
    {
      LocalChild(w, p);
      Arrives(w, snap, snap, at, p);
      assert Init(p) in w.tree;
      Arrives(w, snap, snap, at, Init(p));
      FirstAtPrefix(w, snap, extra, p);
      FirstAtPrefix(w, snap, extra, Init(p));
    }
    hide Within;
    AttachedIffParentFirst(w, snap, snap + extra, at);
  }

  /** A broadcast of an entity that overtakes the snapshot leaves that entity known but not attached, whatever it is. */
  lemma EarlyBroadcastOrphans(w: World, snap: seq<Msg>, p: Path)
    requires Sound(w) && IsSnapshot(w, snap) && p in w.tree && |p| >= 2 && !Local(w, p)
    ensures var v := Replayed(w, [CreateEntity(p, w.tree[p])] + snap);
            p in v.known && Init(p) in v.children && p !in v.children[Init(p)]
  {
    var stream := [CreateEntity(p, w.tree[p])] + snap;
    assert Genuine(w, stream) by {
      assert forall i {:trigger stream[i]} :: 0 < i < |stream| ==> stream[i] == snap[i - 1];
    }
    var at := seq(|snap|, i requires 0 <= i => i + 1);
    assert Within(snap, stream, at) by { assert forall i :: 0 <= i < |snap| ==> stream[i + 1] == snap[i]; }
    SnapshotComplete(w, snap, stream, at);
    StreamOutcome(w, stream);
    FirstAtMeans(w, stream, p);
    FirstAtMeans(w, stream, Init(p));
    assert stream[0].path == p && Init(p) != p;
    LocalChild(w, p);
    var v := Replayed(w, stream);
    hide Replayed, FirstAt, IsSnapshot, Within, Genuine, CablesAre, HeldIs, HeldOnBothSides;
    assert Init(p) in w.tree;
    assert p !in v.children[Init(p)];
  }

  /** The client's picture is the stage's graph: its entities, each under its parent, and its cables, each at both
      plugs. */
  ghost predicate Mirrors(w: World, v: View) {
    v.known == w.tree && v.children.Keys == v.known.Keys && AllAttached(w, v) && v.cables == w.cables
      && HeldOnBothSides(v)
  }

  /** A parent-first snapshot followed by any true creates. */
  lemma SnapshotThenMore(w: World, snap: seq<Msg>, extra: seq<Msg>)
    requires Sound(w) && IsSnapshot(w, snap) && ParentFirst(w, snap) && Genuine(w, extra)
    ensures Mirrors(w, Replayed(w, snap + extra))
  {
    LateBroadcastsAttach(w, snap, extra);
    var at := seq(|snap|, i requires 0 <= i => i);
    assert Within(snap, snap + extra, at);
    assert Genuine(w, snap + extra) by {
      var all := snap + extra;
      assert forall i {:trigger all[i]} :: 0 <= i < |all| ==> all[i] == if i < |snap| then snap[i]
             else extra[i - |snap|];
    }
    hide Replayed, Genuine, Within, IsSnapshot, Sound, ParentFirst, AllAttached, HeldOnBothSides;
    SnapshotComplete(w, snap, snap + extra, at);
  }
}
