/** The stage's side of a join: it packs every other performer's subtree, then every cable. */
module StageSnapshot {
  import opened Common
  import opened EntityTree
  import opened Moves
  import opened Subtrees
  import opened HierarchyTree
  import Snapshot

  /** The stage's graph as the joining client should see it. */
  function WorldOf(ents: Ents, index: Index, inputs: set<Path>, cables: seq<Address>, local: Path): Snapshot.World
    requires Indexed(ents, index)
  {
    Snapshot.World(map p | p in index :: Snapshot.Info(ents[index[p]].kind, p in inputs), (set a | a in cables), local)
  }

  lemma {:induction false} NoFilter(ents: Ents, s: seq<Id>)
    requires forall x :: x in s ==> x in ents
    ensures Filtered(ents, s, None) == s
  {
    if s != [] { NoFilter(ents, s[1..]); }
  }

  /** The subtrees packed so far: of the performers in `done`, ancestors first. */
  ghost predicate Packed(ents: Ents, done: set<Id>, bundle: seq<Id>) {
    && AncestorsFirst(ents, bundle)
    && (forall x {:trigger x in bundle} :: x in bundle <==>
          exists r {:trigger r in done} :: r in done && r in ents && x in Below(ents, r))
  }

  lemma PackNext(ents: Ents, done: set<Id>, bundle: seq<Id>, r: Id, more: seq<Id>)
    requires Packed(ents, done, bundle) && r in ents && r !in done && AncestorsFirst(ents, more)
    requires forall x {:trigger x in more} :: x in more <==> x in Below(ents, r)
    requires forall q {:trigger q in done} :: q in done ==>
             q in ents && |ents[q].uri| == 1 && ents[q].uri != ents[r].uri
    requires |ents[r].uri| == 1
    ensures Packed(ents, done + {r}, bundle + more)
  {
    var all := bundle + more;
    forall i, j {:trigger all[i], all[j]} | 0 <= i < j < |all| && all[i] in ents && all[j] in ents
      ensures !(ents[all[j]].uri <= ents[all[i]].uri)
    {
      if i < |bundle| && j >= |bundle| {
        assert all[i] == bundle[i] && bundle[i] in bundle && all[j] == more[j - |bundle|] && all[j] in more;
        var q :| q in done && q in ents && all[i] in Below(ents, q);
        SamePrefix(ents[r].uri, ents[q].uri, ents[all[j]].uri, ents[all[i]].uri);
      } else if i >= |bundle| {
        assert all[i] == more[i - |bundle|] && all[j] == more[j - |bundle|];
      }
    }
    forall x {:trigger x in all} ensures x in all <==>
      exists q {:trigger q in done + {r}} :: q in done + {r} && q in ents && x in Below(ents, q)
    {
      if x in bundle { var q :| q in done && q in ents && x in Below(ents, q); assert q in done + {r}; }
      if x in more { assert r in done + {r}; }
    }
  }

  /** In a sound graph the performers are the entities with one segment. */
  lemma Roots(ents: Ents, index: Index, inputs: set<Path>, cables: seq<Address>, local: Path)
    requires Indexed(ents, index) && Snapshot.Sound(WorldOf(ents, index, inputs, cables, local))
    ensures forall x {:trigger ents[x]} :: x in ents ==>
            ents[x].uri != [] && (ents[x].kind == PERFORMER <==> |ents[x].uri| == 1)
    ensures forall x, y {:trigger ents[x], ents[y]} :: x in ents && y in ents && ents[x].uri == ents[y].uri ==> x == y
    ensures |local| == 1
  {
    var w := WorldOf(ents, index, inputs, cables, local);
    forall x {:trigger ents[x]} | x in ents ensures ents[x].kind == PERFORMER <==> |ents[x].uri| == 1 {
      assert ents[x].uri in w.tree;
    }
  }

  /** Packing every other performer packs every entity outside the client's subtree. */
  lemma PackedAll(ents: Ents, index: Index, local: Path, done: set<Id>, bundle: seq<Id>)
    requires WellFormed(ents, index) && |local| == 1 && Packed(ents, done, bundle)
    requires forall x {:trigger ents[x]} :: x in ents ==>
             ents[x].uri != [] && (ents[x].kind == PERFORMER <==> |ents[x].uri| == 1)
    requires forall x {:trigger x in done} :: x in done <==>
             x in ents && ents[x].kind == PERFORMER && ents[x].uri != local
    ensures forall x {:trigger x in bundle} :: x in bundle <==> x in ents && !Contains(ents[x].uri, local)
  {
    forall x {:trigger x in bundle} ensures x in bundle <==> x in ents && !Contains(ents[x].uri, local) {
      if x in bundle {
        var r :| r in done && r in ents && x in Below(ents, r);
        PrefixesEqual(local, ents[r].uri, ents[x].uri);
      }
      if x in ents && !Contains(ents[x].uri, local) {
        PrefixLive(ents, index, x, 1);
        var r := index[ents[x].uri[..1]];
        assert ents[r].uri == ents[x].uri[..1];
        assert r in done && x in Below(ents, r);
      }
    }
  }

  lemma PrefixesEqual(p: Path, q: Path, x: Path)
    requires |p| == |q| && q <= x
    ensures p <= x ==> p == q
  {
    if p <= x { assert p == x[..|p|]; }
  }

  lemma PackIsSnapshot(ents: Ents, index: Index, inputs: set<Path>, cables: seq<Address>, local: Path, bundle: seq<Id>,
        msgs: seq<Snapshot.Msg>)
    requires Indexed(ents, index) && |msgs| == |bundle| + |cables|
    requires forall x {:trigger x in bundle} :: x in bundle <==> x in ents && !Contains(ents[x].uri, local)
    requires forall k {:trigger bundle[k]} :: 0 <= k < |bundle| ==>
             bundle[k] in ents && msgs[k] == Create(ents, inputs, bundle[k])
    requires forall k {:trigger cables[k]} :: 0 <= k < |cables| ==>
             msgs[|bundle| + k] == Snapshot.CreateCable(cables[k])
    ensures Snapshot.IsSnapshot(WorldOf(ents, index, inputs, cables, local), msgs)
    ensures forall m {:trigger m in msgs} :: m in msgs && m.CreateEntity? ==> !Contains(m.path, local)
  {
    var w := WorldOf(ents, index, inputs, cables, local);
    forall i {:trigger msgs[i]} | 0 <= i < |msgs|
      ensures i < |bundle| ==> msgs[i].CreateEntity? && msgs[i].path in w.tree && msgs[i].info == w.tree[msgs[i].path]
      ensures i < |bundle| ==> !Contains(msgs[i].path, local)
      ensures i >= |bundle| ==> msgs[i].CreateCable? && msgs[i].address in w.cables
    {
      if i < |bundle| { assert bundle[i] in bundle; } else { assert cables[i - |bundle|] in cables; }
    }
    forall p {:trigger p in w.tree} | p in w.tree && !Snapshot.Local(w, p)
      ensures Snapshot.CreateEntity(p, w.tree[p]) in msgs
    {
      assert index[p] in bundle;
      var k :| 0 <= k < |bundle| && bundle[k] == index[p];
      assert msgs[k] == Snapshot.CreateEntity(p, w.tree[p]);
    }
    forall a {:trigger a in w.cables} | a in w.cables ensures Snapshot.CreateCable(a) in msgs {
      var k :| 0 <= k < |cables| && cables[k] == a;
      assert msgs[|bundle| + k] == Snapshot.CreateCable(a);
    }
  }

  lemma PackParentFirst(ents: Ents, index: Index, inputs: set<Path>, cables: seq<Address>, local: Path, bundle: seq<Id>,
        msgs: seq<Snapshot.Msg>)
    requires Indexed(ents, index) && |msgs| == |bundle| + |cables| && AncestorsFirst(ents, bundle)
    requires Snapshot.Sound(WorldOf(ents, index, inputs, cables, local))
    requires forall x {:trigger x in bundle} :: x in bundle <==> x in ents && !Contains(ents[x].uri, local)
    requires forall k {:trigger bundle[k]} :: 0 <= k < |bundle| ==>
             bundle[k] in ents && msgs[k] == Create(ents, inputs, bundle[k])
    requires forall k {:trigger cables[k]} :: 0 <= k < |cables| ==>
             msgs[|bundle| + k] == Snapshot.CreateCable(cables[k])
    ensures Snapshot.ParentFirst(WorldOf(ents, index, inputs, cables, local), msgs)
  {
    var w := WorldOf(ents, index, inputs, cables, local);
    forall p {:trigger p in w.tree} | p in w.tree && |p| >= 2 && !Snapshot.Local(w, p)
      ensures Snapshot.FirstAt(w, msgs, Init(p)) < Snapshot.FirstAt(w, msgs, p)
    {
      Snapshot.LocalChild(w, p);
      Snapshot.FirstAtMeans(w, msgs, p);
      Snapshot.FirstAtMeans(w, msgs, Init(p));
      hide Snapshot.FirstAt;
      assert Init(p) in w.tree;
      var f := Snapshot.FirstAt(w, msgs, p);
      assert index[p] in bundle && index[Init(p)] in bundle;
      var i :| 0 <= i < |bundle| && bundle[i] == index[p];
      var g :| 0 <= g < |bundle| && bundle[g] == index[Init(p)];
      assert msgs[i].path == p && msgs[g].path == Init(p);
      assert f <= i && f < |bundle| && bundle[f] == index[p] by {
        assert msgs[f] == Create(ents, inputs, bundle[f]);
      }
      assert Init(p) <= p && Init(p) != p;
      assert g < f;
    }
  }

  /** synchronise_client_graph_handler: the messages sent to the joining client. */
  method Pack(h: Hierarchy, inputs: set<Path>, cables: seq<Address>, local: Path) returns (msgs: seq<Snapshot.Msg>)
    requires WellFormed(h.ents, h.index) && Indexed(h.ents, h.index)
    requires Snapshot.Sound(WorldOf(h.ents, h.index, inputs, cables, local))
    ensures var w := WorldOf(h.ents, h.index, inputs, cables, local);
            Snapshot.IsSnapshot(w, msgs) && Snapshot.ParentFirst(w, msgs)
    ensures forall m {:trigger m in msgs} :: m in msgs && m.CreateEntity? ==> !Contains(m.path, local)
  {
    hide WellFormed, Snapshot.IsSnapshot, Snapshot.ParentFirst, Snapshot.Sound, Indexed;
    ghost var w := WorldOf(h.ents, h.index, inputs, cables, local);
    Roots(h.ents, h.index, inputs, cables, local);
    var bundle := [];
    ghost var done: set<Id> := {};
    var performers := set x | x in h.ents && h.ents[x].kind == PERFORMER;
    ghost var all := performers;
    while performers != {}
      invariant performers <= all
      invariant forall x {:trigger x in done} {:trigger x in all} :: x in done <==>
                x in all && x !in performers && h.ents[x].uri != local
      invariant Packed(h.ents, done, bundle)
      decreases performers
    {
      var r :| r in performers;
      performers := performers - {r};
      if h.ents[r].uri != local {
        ghost var more: seq<Id>;
        var was := bundle;
        bundle, more := h.ChildEntities(r, true, None, bundle);
        NoFilter(h.ents, more);
        PackNext(h.ents, done, was, r, more);
        done := done + {r};
      }
    }
    msgs := [];
    for i := 0 to |bundle|
      invariant |msgs| == i && forall k :: 0 <= k < i ==>
                bundle[k] in h.ents && msgs[k] == Create(h.ents, inputs, bundle[k])
    {
      assert bundle[i] in bundle;
      msgs := msgs + [Snapshot.CreateEntity(h.ents[bundle[i]].uri,
        Snapshot.Info(h.ents[bundle[i]].kind, h.ents[bundle[i]].uri in inputs))];
    }
    for i := 0 to |cables|
      invariant |msgs| == |bundle| + i && forall k :: 0 <= k < |bundle| ==> msgs[k] == Create(h.ents, inputs, bundle[k])
      invariant forall k :: 0 <= k < i ==> msgs[|bundle| + k] == Snapshot.CreateCable(cables[k])
    {
      msgs := msgs + [Snapshot.CreateCable(cables[i])];
    }
    PackedAll(h.ents, h.index, local, done, bundle);
    PackIsSnapshot(h.ents, h.index, inputs, cables, local, bundle, msgs);
    PackParentFirst(h.ents, h.index, inputs, cables, local, bundle, msgs);
  }

  function Create(ents: Ents, inputs: set<Path>, x: Id): Snapshot.Msg
    requires x in ents
  {
    Snapshot.CreateEntity(ents[x].uri, Snapshot.Info(ents[x].kind, ents[x].uri in inputs))
  }

  /** A whole join: a new client that replays what the stage packs for it, then any true creates, ends up with exactly
      the stage's entities, each under its parent, and exactly its cables, each held by both plugs. */
  method Join(h: Hierarchy, inputs: set<Path>, cables: seq<Address>, local: Path, extra: seq<Snapshot.Msg>)
        returns (client: Snapshot.Client)
    requires WellFormed(h.ents, h.index) && Indexed(h.ents, h.index)
    requires Snapshot.Sound(WorldOf(h.ents, h.index, inputs, cables, local))
             && Snapshot.Genuine(WorldOf(h.ents, h.index, inputs, cables, local), extra)
    ensures fresh(client) && Snapshot.Mirrors(WorldOf(h.ents, h.index, inputs, cables, local), client.Abs())
    ensures client.known.Keys == h.index.Keys && client.cables == (set a | a in cables)
    ensures forall p {:trigger client.known[p]} :: p in h.index ==>
              client.known[p] == Snapshot.Info(h.ents[h.index[p]].kind, p in inputs)
    ensures forall p {:trigger h.index[p]} :: p in h.index && |p| >= 2 ==>
              Init(p) in client.children && p in client.children[Init(p)]
    ensures forall a {:trigger a in cables} :: a in cables ==>
              a.input in client.held && a in client.held[a.input] && a.output in client.held
                && a in client.held[a.output]
  {
    hide WellFormed, Indexed, WorldOf, Snapshot.Mirrors, Snapshot.Sound, Snapshot.IsSnapshot, Snapshot.ParentFirst,
         Snapshot.Genuine;
    var w := WorldOf(h.ents, h.index, inputs, cables, local);
    var msgs := Pack(h, inputs, cables, local);
    client := new Snapshot.Client(w);
    LocalIs(h.ents, h.index, inputs, cables, local);
    client.Replay(w, msgs + extra);
    Snapshot.SnapshotThenMore(w, msgs, extra);
    MirrorsMeans(h.ents, h.index, inputs, cables, local, client.Abs());
  }

  lemma MirrorsMeans(ents: Ents, index: Index, inputs: set<Path>, cables: seq<Address>, local: Path, v: Snapshot.View)
    requires Indexed(ents, index) && Snapshot.Sound(WorldOf(ents, index, inputs, cables, local))
    requires Snapshot.Mirrors(WorldOf(ents, index, inputs, cables, local), v)
    ensures v.known.Keys == index.Keys && v.cables == (set a | a in cables)
    ensures forall p {:trigger v.known[p]} :: p in index ==>
              v.known[p] == Snapshot.Info(ents[index[p]].kind, p in inputs)
    ensures forall p {:trigger index[p]} :: p in index && |p| >= 2 ==>
              Init(p) in v.children && p in v.children[Init(p)]
    ensures forall a {:trigger a in cables} :: a in cables ==>
              a.input in v.held && a in v.held[a.input] && a.output in v.held && a in v.held[a.output]
  {
    var w := WorldOf(ents, index, inputs, cables, local);
    forall a {:trigger a in cables} | a in cables
      ensures a.input in v.held && a in v.held[a.input] && a.output in v.held && a in v.held[a.output]
    {
      assert a in w.cables && a in v.cables;
    }
    hide Indexed, Snapshot.HeldOnBothSides;
    forall p {:trigger index[p]} | p in index && |p| >= 2 ensures Init(p) in v.children && p in v.children[Init(p)] {
      assert p in w.tree && Init(p) in w.tree;
      assert Init(p) in v.children;
    }
  }

  lemma LocalIs(ents: Ents, index: Index, inputs: set<Path>, cables: seq<Address>, local: Path)
    requires Indexed(ents, index)
    ensures WorldOf(ents, index, inputs, cables, local).local == local
  {}
}
