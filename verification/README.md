# Showtime, modelled in Dafny

Showtime is a distributed dataflow library. A stage and its clients each keep a tree of named entities, a flat index of
that tree by path, and a set of cables between plugs, and they keep these in step through messages and deferred event
queues. This project models the parts of the library where that agreement is decided and proves what every call, every
interleaving or every trace keeps.

| file | models |
|---|---|
| `Common.dfy` | what several modules share |
| `Uri.dfy` | the path algebra of `ZstURI` on strings |
| `EntityTree.dfy`, `Reseating.dfy`, `Moves.dfy`, `Renaming.dfy`, `Attaching.dfy`, `Subtrees.dfy`, `Clashes.dfy`, `HierarchyTree.dfy` | the entity tree and its flat index: rename, detach, attach, listing, walking, and what name clashes do |
| `CableOrder.dfy` | address order and the ordered cable set |
| `CableGraph.dfy`, `StageTree.dfy`, `StageSteps.dfy`, `StageSession.dfy` | the stage's entity tree with its plugs, cables, plug sets, capacity, leaving entities, queue pass and reaper |
| `Snapshot.dfy`, `StageSnapshot.dfy` | what a joining client builds from create messages, and what the stage sends it |
| `Handshake.dfy` | the peer-to-peer connection protocol |
| `Ownership.dfy` | ownership requests, broadcast log and fire flags |
| `Requests.dfy`, `Cleanup.dfy`, `Replies.dfy` | promises, blocking senders, message ownership, the message pool; which messages are ever cleaned up; what a sender is told, and in which order messages are handled |
| `Wakeup.dfy` | semaphore, deferred queues and the stage's event loop |
| `Heartbeat.dfy` | missed heartbeats and eviction |

Check everything with `dafny verify dfyconfig.toml`.

## How the code is read

- Entities, plugs, cables and messages are identified by numbers that stand for pointers; the records behind them are maps
  that methods reassign. Iteration over a set takes its elements in any order.
- Message handlers and one pass over the queues are single steps, except where interleaving is the subject (`Handshake`,
  `Requests`, `Wakeup`, `Ownership`), where every interleaving of the listed steps is covered.
- Paths are strings in `Uri` and lists of segments elsewhere; `Uri.JoinThenSplit` and `Uri.SplitThenJoin` tie the two.
  Characters compare as Dafny characters; the sign of `char` above 127 is not modelled.
- The tree modules speak of registered entities, so every parent and child lookup goes through the index.
- Names must not clash in the ways that make the code erase or overwrite live keys: a name that is moved is not the first
  segment of a live or stale key, the new place is free, and no entity bears the name of one of its ancestors. These are the
  predicates `MayRename`, `NamesApart`, `MayAttach`, `MayTake` and `MayReparent`; for whole subtrees they are sufficient.
  For an entity without children, and for a leave of an entity whose children have none, nothing is assumed about names
  and the exact condition is proved (`HierarchyTree.Hierarchy.SetNameLeaf`, `HierarchyTree.Hierarchy.DetachFlat`);
  `EntityTree.ReseatKeepsIndex` is the exact condition for a single re-keying.
- The stage holds its tree as an object of the hierarchy class. An entity that leaves is a registered one, the tree's own
  `Detach` takes it from its parent under the conditions of that method (`StageSession.Stage.MayLeave`), and each leaving
  event looks its path up again. `StageTree.RootsFound`, part of the stage's invariant, says that every queued root is
  still found there.
- Where the code goes on with a null performer, which happens for a connect request to a plug at or under its landing
  place, the handler of the model answers `CRASH` and changes nothing; what the process would do is not followed.
- The capacity rule speaks of plugs that are not leaving: a plug that has moved to its landing place no longer loses its
  cables when it is found full.
- The stage's cables are a map by address beside the ordered set of cable objects (`CableOrder.CableSet`), which is the set
  the code keeps; `StageSession.Stage.Mirrored` ties the two, object by object.
- In the stage model nothing but a leave moves a plug; update requests that carry a rename to the stage are not part of it.

## What the code does that its comments do not say

- A rename leaves the old key in the parent's child set (`Leftover` in `HierarchyTree.Hierarchy.SetName`).
- `set_parent` keeps a path that already contains the parent, so an entity handed to a remote ancestor stays where it was
  (`HierarchyTree.ParentTakesHold`).
- `contains` with an empty argument is false, `+` with an empty side adds an empty segment, and the guard of `range` is
  weaker than what its loops need.
- A create broadcast that overtakes the snapshot leaves an entity that is known but listed by no parent
  (`Snapshot.EarlyBroadcastOrphans`).
- A release names no owner, so afterwards no client can fire the plug; a comment says that ownership goes back to the
  original owner. The stage records an owner on the named entity only, the clients on its whole subtree
  (`Ownership.StageMissesBelow`).
- A leaving component is first taken from its parent, which re-keys it to its own name; its plugs then no longer sit at the
  addresses of their cables. A cable can therefore be announced twice: by a destroy request between the leave and the pass
  (`StageSteps.DestroyedWhileLeaving`), or when two roots leave before one pass (`StageSteps.TwoRootsLeave`). A destroy
  request for a cable that is already queued announces it again as well (`StageSteps.DestroyedAgain`).
  `StageSteps.Repeats` is the condition on the state before each request, and `StageSession.Stage.Run` shows that it is
  exact over every run.
- A leaving component passes through the top level, and so does each of its children. If a child bears the component's own
  name, the component's key is lost to it: the leaving event finds the child and the other cables are never destroyed. If
  a child bears the name of a performer, that performer's key is erased, and when it leaves later its event finds nothing.
  `HierarchyTree.Hierarchy.DetachFlat` says when either happens, for components whose children have no children.
- A plug that leaves on its own raises no leaving event, so its cables outlive it
  (`StageSession.Stage.LeavePlugThenPass` says exactly when the stage is consistent afterwards).
- When ownership is acquired, the stage asks each receiving performer and the new owner to connect, but passes them in the
  order of output client and input client with the receiver first (`Ownership.Stage.Acquire`).
- An input plug with limit 0 still takes one cable (`CableGraph.Capacity` counts a limit of 0 as 1); -1 is read as the
  largest `size_t`.
- A message that was flagged for a promise never returns to the pool (`Cleanup.FlaggedForever`). A reply that comes after the
  wait ran out, one that is overtaken by a duplicate (`Cleanup.OvertakenHappens`), and one that a handler claims are never cleaned up:
  `Cleanup.CleanedIff` says exactly which deliveries can be.
- The compute and log queues do not share the stage's semaphore (`Wakeup.NoLostWakeup` names exactly the queues that do).

## Model

| member | source | states |
|---|---|---|
| `Uri.Init` | src/core/ZstURI.cpp:84-114 | the buffer filled by the scan holds exactly the segments of the path, for any path with fewer than 255 delimiters |
| `Uri.SplitThenJoin` | src/core/ZstURI.cpp:84-114 | joining the split segments gives back the path |
| `Uri.JoinThenSplit` | src/core/ZstURI.cpp:84-114 | splitting a join gives back the segments exactly when they are not the single empty one |
| `Uri.Range` | src/core/ZstURI.cpp:158-178 | for all indices: throws exactly when the guard says so, gives the join of the segment slice exactly when start <= end < size, and otherwise reads past the segments |
| `Uri.GuardTooWeak` | src/core/ZstURI.cpp:160-161 | exactly which index pairs pass the guard and still lead past the segments, the wrap-around included |
| `Uri.GuardLetsThrough` | src/core/ZstURI.cpp:160-161 | the path "a" with indices 0 and 1 is such a case |
| `Uri.AddConcatenates` | src/core/ZstURI.cpp:140-156 | `+` concatenates segments if and only if both sides are non-empty; what it does otherwise |
| `Uri.AddAssociates` | src/core/ZstURI.cpp:140-156 | `+` is associative |
| `Uri.ParentPlusLast` | src/core/ZstURI.cpp:180-202 | parent plus last rebuilds any path of two or more segments |
| `Uri.UndoAdd` | src/core/ZstURI.cpp:140-202 | adding a name and taking parent and last gives back both sides |
| `Uri.NameAlone` | src/core/ZstURI.cpp:180-202 | a single name has no parent and is its own last segment; exactly the empty path has no last segment |
| `Uri.Contains` | src/core/ZstURI.cpp:204-224 | the loop decides "same string, or prefix that ends at a delimiter", which is the segment prefix relation |
| `Uri.UnderIsPartialOrder` | src/core/ZstURI.cpp:204-224 | `contains` is reflexive, antisymmetric and transitive on non-empty paths |
| `Uri.LessIsTotal` | src/core/ZstURI.cpp:231-245 | `<` is irreflexive and asymmetric, and its ties are exactly equal paths |
| `Uri.LessIsTransitive` | src/core/ZstURI.cpp:231-245 | `<` is transitive |
| `Uri.LessMeans` | src/core/ZstURI.cpp:231-245 | `a < b` exactly when after a common beginning `a` ends first or has the smaller character |
| `EntityTree.ReseatKeepsIndex` | src/core/ZstHierarchy.cpp:308-324 | erase-and-insert of one key keeps the index the inverse of the paths if and only if the new key is free or the entity's own |
| `HierarchyTree.Hierarchy.Register` | src/core/ZstHierarchy.cpp:29-43 | registering at any path, overwriting a used key; the hierarchy stays well formed if and only if the path is new, no stray child key names it, and its parent is a container that lists it |
| `HierarchyTree.Hierarchy.AddProxy` | src/core/ZstHierarchy.cpp:148-162 | a known parent lists the new entity, whose record and key are added, whatever the path |
| `HierarchyTree.ParentTakesHold` | src/core/entities/ZstEntityBase.cpp:351-368 | set_parent yields parent plus own name exactly when the old path does not contain the parent or already is that path |
| `HierarchyTree.Hierarchy.BaseSetParent` | src/core/entities/ZstEntityBase.cpp:351-368 | the new path and parent field, and the index with exactly that one key moved |
| `HierarchyTree.Hierarchy.SetParent` | src/core/entities/ZstComponent.cpp:154-166 | after every child was removed and added again the whole subtree sits at its new place, stale keys are kept, nothing else changed |
| `HierarchyTree.Hierarchy.RemoveChild` | src/core/entities/ZstComponent.cpp:112-133 | the child's subtree sits at the top level under its own name and no list names it |
| `HierarchyTree.Hierarchy.AddChild` | src/core/entities/ZstComponent.cpp:84-110 | the subtree sits under the new parent, which lists it |
| `HierarchyTree.Hierarchy.ReattachChildren` | src/core/entities/ZstComponent.cpp:147-152 | a round of remove and add over all children, recursive through every level, terminates and leaves the subtree seated at the entity's path |
| `HierarchyTree.Hierarchy.SetName` | src/core/entities/ZstComponent.cpp:135-152 | renaming keeps the hierarchy well formed, rebases exactly the paths and index keys under the entity, and leaves each child set with its live children, its stale keys and, in the parent, the old key |
| `HierarchyTree.Hierarchy.BaseSetName` | src/core/entities/ZstEntityBase.cpp:149-172 | the base step: new path, index re-keyed, parent's child set refreshed, every child's place under the new path free for it |
| `HierarchyTree.Hierarchy.Detach` | src/core/entities/ZstComponent.cpp:112-133 | removing a child keeps the hierarchy well formed and is one move of its subtree to the top level |
| `HierarchyTree.Hierarchy.DetachLeaves` | src/core/entities/ZstComponent.cpp:112-166 | removing a child whose children have none, for all names: where every record and every key ends |
| `HierarchyTree.Hierarchy.DetachFlat` | src/core/ZstHierarchy.cpp:350-354 | after it the entity is found at its landing if and only if no child has its name (else that child is found, with nothing below it); a top-level key of another name is kept if and only if no child has that name; the index is right if and only if the landing was free and no child is named like it or like a top-level entity |
| `Clashes.FlatFound` | src/core/ZstHierarchy.cpp:308-324 | the first two of these, from where the keys end |
| `Clashes.FlatIndexed` | src/core/ZstHierarchy.cpp:308-324 | the third of these |
| `HierarchyTree.Hierarchy.Attach` | src/core/entities/ZstComponent.cpp:84-110 | adding a top-level entity keeps the hierarchy well formed and is one move of its subtree under the parent |
| `HierarchyTree.Hierarchy.AttachFrom` | src/core/entities/ZstComponent.cpp:84-110 | adding an entity that still has another parent is one move of its subtree straight under the new one; the old parent keeps the old key |
| `HierarchyTree.Hierarchy.SetParentFrom` | src/core/entities/ZstComponent.cpp:154-166 | the set_parent inside it seats the whole subtree at the new place |
| `HierarchyTree.Hierarchy.Reparent` | src/core/entities/ZstComponent.cpp:84-166 | remove then add elsewhere comes to one move: every path and key under the entity rebased, all others unchanged |
| `Moves.MovedTwice` | src/core/entities/ZstComponent.cpp:154-166 | two moves through a free stopover are one move, for paths, index and child sets |
| `Renaming.RenameDone` | src/core/entities/ZstEntityBase.cpp:149-172 | the steps of a rename add up to a well-formed hierarchy and one rebasing move |
| `Attaching.RenameClash` | src/core/entities/ZstEntityBase.cpp:149-160 | the first re-keying of a rename to the path of another entity takes its key, so that it is no longer found |
| `HierarchyTree.Hierarchy.SetNameLeaf` | src/core/entities/ZstEntityBase.cpp:149-166 | the whole set_name of an entity without children, for all names: its record changes in path and parent field only; its parent lists the new path beside all it listed before, the old path included, and nothing more; no other record changes; and the index is right afterwards if and only if nothing else had the new path and, below a parent, the top level was free of the new name |
| `HierarchyTree.Hierarchy.RefreshLeaf` | src/core/entities/ZstEntityBase.cpp:163-166 | the refresh of the parent's child set inside it, the early return included: every record afterwards in terms of the records before |
| `Clashes.RenamedKeys` | src/core/entities/ZstEntityBase.cpp:149-166 | the three re-keyings of such a rename keep the index the inverse of the paths exactly then |
| `HierarchyTree.Hierarchy.ChildEntities` | src/core/entities/ZstComponent.cpp:235-249 | the recursive listing terminates and holds each entity of the subtree exactly once, ancestors first; with a filter it is the filtered subsequence |
| `HierarchyTree.Hierarchy.GetChildEntities` | src/core/entities/ZstComponent.cpp:235-249 | the result is exactly the entities of the subtree that pass the filter, without repetition, every ancestor before its descendants |
| `HierarchyTree.Hierarchy.ChildBundle` | src/core/entities/ZstComponent.cpp:235-249 | the flat listing holds exactly the children whose keys resolve, each once |
| `Subtrees.PrefixLive` | src/core/ZstHierarchy.cpp:90-101 | in a well-formed hierarchy every prefix of a registered path is registered and every proper one is a container |
| `HierarchyTree.Hierarchy.WalkToEntity` | src/core/ZstHierarchy.cpp:103-122 | walking returns exactly the flat lookup on paths whose root is a performer and whose other proper prefixes are registered containers, and nothing on others; an empty path throws |
| `HierarchyTree.Hierarchy.WalkChild` | src/core/entities/ZstComponent.cpp:255-290 | the walk from one entity terminates and succeeds exactly when every step is a registered container |
| `Subtrees.RegisteredWalkable` | src/core/ZstHierarchy.cpp:103-122 | in a well-formed hierarchy a registered path is walkable if and only if its root is a performer |
| `CableOrder.BeforeIsTotal` | src/core/ZstCableAddress.cpp:55-67 | address order is strict and its ties are exactly equal addresses |
| `CableOrder.BeforeIsTransitive` | src/core/ZstCableAddress.cpp:64-67 | address order is transitive |
| `CableOrder.BeforeMeans` | src/core/ZstCableAddress.cpp:64-67 | the input path decides, the output path only between equal inputs |
| `CableOrder.InputsTogether` | src/core/ZstCableAddress.cpp:64-67 | in the ordered set the cables of one input plug stand together |
| `CableOrder.CompareTies` | include/showtime/ZstCable.h:57-81 | the comparator ties exactly on equal addresses, except that a null pointer ties with everything |
| `CableOrder.SearchesAgree` | src/core/ZstSession.cpp:151-164 | in a sorted set any two correct searches give the same position |
| `StageSession.Stage.FindCable` | src/core/ZstSession.cpp:151-164 | on every stage the scan and the ordered find pick the same cable, and find one exactly when the address has one |
| `StageSteps.FoundIsHeld` | src/core/ZstSession.cpp:151-164 | a search of the ordered set by string address finds exactly the cables of the stage's map |
| `CableOrder.CableSet.LowerBound` | src/core/ZstSession.cpp:309-322 | bisection finds the place of an address in the ordered set |
| `CableOrder.CableSet.FindOrdered` | src/core/ZstSession.cpp:309-322 | the ordered find returns the cable of that address, or none if there is none |
| `CableOrder.CableSet.FindLinear` | src/core/ZstSession.cpp:151-164 | the scan returns the first cable of that address, or none if there is none |
| `CableOrder.CableSet.Insert` | src/core/ZstSession.cpp:199-201 | insertion keeps the set strictly sorted with distinct objects, refuses a second cable of an address, and otherwise adds exactly one |
| `CableOrder.CableSet.EraseOwned` | src/core/ZstSession.cpp:309-322 | the reaper's scan and ordered find erase exactly the owned cable and keep the set valid |
| `CableGraph.DestroyAll` | src/core/ZstSession.cpp:110-138 | destroying a bundle removes each address from the plugs found at it, queues each active cable once, and changes nothing else |
| `CableGraph.DestroyInv` | src/server/ZstStageSession.cpp:347-362 | destroying a cable keeps the agreement of session, plug sets and queues |
| `CableGraph.CreatedInv` | src/core/ZstSession.cpp:182-222 | creating a cable keeps that agreement and the capacity rule |
| `CableGraph.LeftInv` | src/core/ZstHierarchy.cpp:343-386 | an entity that starts to leave, with its subtree re-keyed, keeps that agreement |
| `CableGraph.ClearedPlug` | src/server/ZstStageSession.cpp:162-170 | destroying all a plug holds empties it, because its cables sit at its address |
| `CableGraph.AnnouncedTwiceIff` | src/server/ZstStageSession.cpp:325-362 | the leaving events of a pass announce a cable more than once if and only if it is held under one root and, by a plug moved from its address, under a later one |
| `CableGraph.AnnouncedIff` | src/server/ZstStageSession.cpp:325-345 | a pass announces exactly the cables held under some leaving root |
| `CableGraph.TwiceAfter` | src/server/ZstStageSession.cpp:347-362 | a cable object has been announced more than once after a round of destructions exactly when it was before, or was announced before and is again, or is destroyed twice in it |
| `StageSteps.DestroyedAgain` | src/server/ZstStageSession.cpp:312-323 | a second destroy request before the pass announces the same cable again |
| `StageSteps.DestroyedWhileLeaving` | src/server/ZstStageSession.cpp:330-345 | a destroy request between a component's leave and the pass makes the pass announce the cable again |
| `StageSteps.TwoRootsLeave` | src/server/ZstStageSession.cpp:325-345 | two entities that leave before one pass, with a cable between them and the second below a parent, make the pass announce that cable twice |
| `CableGraph.Spared` | src/server/ZstStageSession.cpp:335-345 | an active cable escapes all leaving events exactly when neither end lies under a leaving root |
| `CableGraph.SweptInv` | src/core/ZstHierarchy.cpp:394-398 | dropping leaving plugs and queued cables keeps the agreement if and only if no leaving plug holds an active cable |
| `StageSession.Stage.ChildCables` | src/core/entities/ZstPlug.cpp:182-205 | a plug adds its existing cables to the bundle, each address once |
| `StageSession.Stage.CablesBelow` | src/core/entities/ZstComponent.cpp:224-233 | the bundle of an entity holds each cable held by a plug below it exactly once |
| `StageSession.Stage.DisconnectCables` | src/server/ZstStageSession.cpp:335-345 | every cable held below the entity is destroyed, once each |
| `StageSession.Stage.DestroyCable` | src/server/ZstStageSession.cpp:347-362 | one broadcast, both found plugs cleared, deactivation queued unless it was |
| `StageSession.Stage.CreateCable` | src/core/ZstSession.cpp:182-222 | one new object in the ordered set, the map and both plugs' sets, with the agreement kept |
| `StageSession.Stage.CreateCableHandler` | src/server/ZstStageSession.cpp:138-205 | the answer from what the tree finds at the two requested paths: used address, no input plug at the first or no output plug at the second, a null performer, or success; on success one new active cable whose ends are the plugs registered at those paths, in both their sets; a full input plug loses all it held, each announced, and every other cable is as it was; how the request changes what was announced |
| `StageSession.Stage.DestroyCableHandler` | src/server/ZstStageSession.cpp:312-323 | always OK; with no cable between the two requested paths nothing changes; otherwise it is announced, no longer active, and out of the sets of the plugs found there, and nothing else changes; the invariant is kept |
| `StageSession.CableGoneIs` | src/server/ZstStageSession.cpp:347-362 | the effect of destroying one cable, plug by plug and cable by cable |
| `StageSession.NewCableIs` | src/server/ZstStageSession.cpp:162-176 | the effect of making room and creating one cable, cable by cable |
| `StageTree.ArrivedGrounded` | src/core/ZstHierarchy.cpp:148-182 | an entity that arrives under a parent that stays keeps the tree well formed, the plugs matched, the leaving entities closed downward and upward, and every queued root found |
| `StageSession.Stage.AddEntity` | src/server/ZstStageHierarchy.cpp:123-195 | exactly a used path and an entity without parent are refused; otherwise one entity joins at its path, listed by its parent, all other records keep path, kind and children, a plug starts empty with its direction and limit, and the invariant is kept |
| `StageSession.SizeRead` | src/core/entities/ZstPlug.cpp:217-220 | -1 is read as the largest size, any other size as it is |
| `StageTree.LandedGrounded` | src/core/ZstHierarchy.cpp:343-386 | after the tree's own detach of a leaving entity, the paths of all plugs are the ones the cable agreement speaks of, all below the entity is about to go, and every queued root, the new one included, is found |
| `StageTree.PlugsListed` | src/core/entities/ZstComponent.cpp:224-233 | the tree's listing of plugs below a root gives exactly the plugs whose path starts with that root; an unregistered root has none |
| `StageSession.Stage.Leave` | src/core/ZstHierarchy.cpp:343-386 | for a registered component or performer: the tree moves its subtree, its leaving event is deferred with the path it then has, at which it is found, all in it is queued for deactivation, and the invariant is kept; an unregistered path is answered with not found and changes nothing |
| `StageSession.Stage.LeavePlug` | src/core/ZstHierarchy.cpp:343-386 | for a registered plug: moved and queued, and no event is raised; the invariant is kept if and only if the plug holds no cable |
| `StageSession.Stage.LeavePlugThenPass` | src/core/ZstHierarchy.cpp:359-386 | after the pass the invariant holds if and only if the plug left no active cable that the pass spared (without pending leaves: held none); each such cable stays active without that end and was not announced |
| `StageSession.Stage.LeavingEvents` | src/server/ZstStageSession.cpp:325-345 | one round of disconnections per queued root, each root looked up at its event and each round on what the earlier ones left |
| `StageSession.Stage.EraseDoomed` | src/core/ZstHierarchy.cpp:405-443 | exactly the entities queued for deactivation disappear, with their keys, from tree and plugs |
| `StageTree.ErasedGrounded` | src/core/ZstHierarchy.cpp:405-443 | what is left is a well-formed tree with its plugs |
| `StageSession.Stage.ProcessCable` | src/core/ZstSynchronisable.cpp:75-102 | a queued cable runs its two jobs, ends deactivated with an empty queue, and gets one cleanup operation |
| `StageSession.Stage.DrainModule` | src/core/ZstSynchronisableModule.cpp:15-25 | every queued cable gets exactly one cleanup operation and none is left in the queue |
| `StageSession.Stage.ReapAll` | src/core/ZstReaper.cpp:19-36 | called only when session queue, module queue and the cables' own queues hold no reference; erases exactly the listed cables from map and ordered set |
| `StageSession.Stage.SessionQueues` | src/core/ZstSession.cpp:38-41 | session events, synchronisables, reaper: exactly the queued cables disappear |
| `StageSession.Stage.DrainQueues` | src/core/ZstSession.cpp:35-42 | the whole drain, also from states outside the invariant: leaving rounds, then everything leaving or queued is swept |
| `StageSession.Stage.Pass` | src/core/ZstSession.cpp:35-42 | every queued root is found at its event; after the pass the queues are empty, the tree has lost exactly the leaving entities, and the surviving cables are exactly the active ones with no end under a leaving root |
| `StageSession.Stage.LeaveThenPass` | src/server/ZstStageSession.cpp:325-345 | when a component or performer leaves a stage without pending leaves, one pass removes exactly the active cables with an end in its subtree, besides those already queued, and announces each of them exactly once |
| `StageSession.Stage.Run` | src/server/ZstStageSession.cpp:39-78 | over every sequence of arrivals, cable requests, leaves and passes, up to the first request that `Served` rejects: each state follows from the one before as its request demands, in cables, plugs, tree and what is about to go; the invariant holds in every state; every cable object that is gone was announced, and more than once if and only if some request of the run repeated it |
| `StageSession.Stage.WhatIsServed` | src/server/ZstStageSession.cpp:39-78 | which requests a run follows, in terms of what the tree holds |
| `StageSession.Stage.Serve` | src/server/ZstStageSession.cpp:39-78 | each single request does to cables, plugs and tree what it asks for (`Follows`), keeps the invariant and changes the announcement counts exactly as its condition on the state before says |
| `StageSession.Stage.ServeLeave` | src/server/ZstStageHierarchy.cpp:275-297 | a leave request for an unregistered path changes nothing, moves and queues a plug, and moves, queues and announces to the event queue a container with all below it |
| `Snapshot.Client.Replay` | src/client/ZstClientHierarchy.cpp:270-273 | a client that takes in a whole stream of create messages ends in the replay of that stream, of which the lemmas below speak |
| `Snapshot.Client.CreateProxyEntity` | src/core/ZstHierarchy.cpp:124-182 | exactly own, known and parentless entities are refused; any other is stored with no children, and its parent lists it if it is known |
| `Snapshot.Client.CableCreateHandler` | src/core/ZstSession.cpp:182-222 | a cable is accepted exactly when an input and an output plug are known at its paths, once, and joins both their sets |
| `Snapshot.StreamOutcome` | src/core/ZstHierarchy.cpp:124-182 | for every stream of true creates, in any order and with any repetition: what is known, what is listed where, which cables exist and who holds them |
| `Snapshot.SnapshotComplete` | src/server/ZstStageSession.cpp:97-136 | replaying a snapshot with any other true creates mixed in gives exactly the stage's entities and cables |
| `Snapshot.AttachedIffParentFirst` | src/core/ZstHierarchy.cpp:148-182 | every entity is attached under its parent if and only if each first create comes after its parent's |
| `Snapshot.LateBroadcastsAttach` | src/server/ZstStageSession.cpp:97-136 | creates after a parent-first snapshot detach nothing |
| `Snapshot.EarlyBroadcastOrphans` | src/core/ZstHierarchy.cpp:148-182 | a create that overtakes the snapshot always leaves its entity unattached |
| `StageSnapshot.Pack` | src/server/ZstStageSession.cpp:97-136 | the messages the stage sends are every entity outside the client's subtree and none inside it, parents first, then every cable |
| `Snapshot.SnapshotThenMore` | src/server/ZstStageSession.cpp:97-136 | a parent-first snapshot followed by any true creates gives the stage's graph |
| `StageSnapshot.Join` | src/server/ZstStageSession.cpp:97-136 | a new client that replays what the stage packs, then any true creates, knows exactly the registered paths with their kinds and directions, lists each under its parent, and has exactly the stage's cables, each held by both plugs |
| `Handshake.RecordedAfterHandshake` | src/server/ZstStageSession.cpp:369-428 | in every interleaving, recording B as subscriber of A follows B's processing of that Listen, its connection to A's address, and then a handshake from A |
| `Handshake.LinkIsMade` | src/server/ZstStageSession.cpp:369-428 | after every run, for a link that is not recorded: when the output client is started, the input client listens, one handshake gets through and its OK is read, the stage records exactly that link and the Stop it sends clears the output client's timer |
| `Handshake.WhoIsAsked` | src/server/ZstStageSession.cpp:369-409 | the stage asks the input client to listen at the output client's address and the output client to publish, and asks nobody for a recorded link or a client and itself |
| `Handshake.EachAskedOnce` | src/client/ZstClient.cpp:683-750 | in every interleaving the output client has started a link as often as the stage asked for it and stopped it as often as it was recorded, less what is still on its way |
| `Handshake.WaitsRunOut` | src/client/ZstClient.cpp:683-750 | in every interleaving each Start arms one wait, which is still armed or ran out at a tick after the timer was cleared |
| `Handshake.AnsweredWasStarted` | src/client/ZstClient.cpp:683-760 | every handshake that was answered came from a client that had been started |
| `Handshake.OneOKPerListen` | src/client/ZstClient.cpp:232-256 | in every interleaving B sends at most one OK per Listen id |
| `Handshake.RecordedOnceOrGivenUp` | src/server/ZstStageSession.cpp:387-396 | in every interleaving a request is recorded at most once and never after its wait ran out |
| `Handshake.SubscribersAreRecorded` | src/server/ZstStageSession.cpp:413-428 | the subscriber record is exactly what was recorded on an OK |
| `Handshake.HandshakesOnlyWhenStarted` | src/client/ZstClient.cpp:683-750 | a timer is kept exactly while the last Start or Stop was a Start; handshakes in flight go from started clients to connected ones |
| `Handshake.InvAlways` | src/client/ZstClient.cpp:683-760 | the routing of ids, the order of causes and the single answer hold after every sequence of steps |
| `Ownership.Client.Handle` | src/client/ZstClientSession.cpp:123-135 | the loop sets the owner on the entity and all below it, and each fire flag to whether the owner is local |
| `Ownership.Client.DeliverAll` | src/client/ZstClientSession.cpp:123-135 | a client that delivers a whole log in order holds the replay of that log |
| `Ownership.Stage.Acquire` | src/server/ZstStageSession.cpp:250-310 | not found exactly for an unknown entity, no performer exactly for a known one and an owner that is neither empty nor a performer, OK otherwise; then the one owner changed, the one broadcast appended, and exactly which pairs of performers are asked to connect |
| `Ownership.ViewsAreReplays` | src/server/ZstStageSession.cpp:301-308 | in every sequence of requests and deliveries each client's view is the replay of a prefix of the broadcast log |
| `Ownership.RequestIsBroadcast` | src/server/ZstStageSession.cpp:264-308 | in every run a request for a known entity that names a performer or nobody is broadcast, and every other one changes nothing |
| `Ownership.RequestDecides` | src/client/ZstClientSession.cpp:123-135 | once such a request is delivered, a client can fire an output plug at or under the entity exactly when it is the new owner; after a release none can |
| `Ownership.DeliverAdvances` | src/client/ZstClientSession.cpp:123-135 | a delivery brings its client exactly one broadcast further and touches nobody else |
| `Ownership.LastTouchDecides` | src/core/entities/ZstPlug.cpp:384-404 | owner and fire flag are decided by the last broadcast that names the entity or one above it |
| `Ownership.PeersAgree` | src/client/ZstClientSession.cpp:123-135 | clients that delivered the same prefix agree on every owner |
| `Ownership.OnlyOwnerFires` | src/core/entities/ZstPlug.cpp:384-404 | once all is delivered a client can fire exactly when the last broadcast touching the plug names it, or none touches it and the plug is its own |
| `Ownership.AtMostOneFires` | src/core/entities/ZstPlug.cpp:329-337 | once all is delivered at most one client can fire a plug |
| `Ownership.StageRecord` | src/server/ZstStageSession.cpp:264-280 | the stage's record of an entity follows the last broadcast of that very entity |
| `Ownership.StageAgrees` | src/server/ZstStageSession.cpp:264-280 | stage and client hold the same owner if and only if the last broadcast touching the entity and the last one naming it give the same owner |
| `Ownership.StageMissesBelow` | src/client/ZstClientSession.cpp:128-134 | taking an entity above moves the plug at every client and not at the stage |
| `Requests.CallbackExactlyOnce` | src/core/transports/ZstTransportLayerBase.hpp:103-130 | under every interleaving a blocking send runs its callback exactly once by the time it returns, with no message or one that bears its own id |
| `Replies.ReplyIsGiven` | src/core/transports/ZstTransportLayerBase.hpp:103-130 | under every interleaving a request that met no timeout has its callback run on a message with its own id, and one that was never woken on none |
| `Replies.CalledIsRecorded` | src/core/transports/ZstTransportLayerBase.hpp:112-116 | a sender past its callback gave it a message exactly if it holds one |
| `Replies.OrdinaryCourse` | src/core/transports/ZstTransportLayerBase.hpp:103-130 | after every run with an idle dispatch thread, a new request that is answered in time runs its callback once on the reply, cleans the reply up and returns |
| `Replies.HandledInOrder` | src/core/transports/ZstTransportLayerBase.hpp:173-196 | under every interleaving messages are handled in the order of arrival |
| `Replies.PromiseLives` | src/core/ZstMessageSupervisor.cpp:16-35 | under every interleaving exactly the requests that have not returned, or wait in the dead queue, have their promise; the dead queue holds each once |
| `Replies.ClaimedIsLost` | src/core/transports/ZstTransportLayerBase.hpp:173-196 | a message that a handler claims is never cleaned up and never pooled again |
| `Requests.OnePlace` | src/core/transports/ZstTransportLayerBase.hpp:173-196 | a message is in at most one of pool, queue, handlers and hands of a promise; the pool has no duplicate and no flagged message |
| `Requests.CleanupOnceAndLast` | src/core/ZstMessageSupervisor.cpp:37-51 | each delivery is cleaned up at most once, after its handlers, and never while its reply callback is still to come |
| `Cleanup.CleanedIff` | src/core/ZstMessageSupervisor.cpp:37-51 | in every run a handled delivery is cleaned up in some continuation if and only if its message is with the dispatch thread and no promise or a live request waits for it, or is the one owned for a live request |
| `Cleanup.LostForever` | src/core/ZstMessageSupervisor.cpp:37-51 | what cannot be cleaned up stays so in every continuation |
| `Cleanup.HandledHasObject` | src/core/transports/ZstTransportLayerBase.hpp:173-196 | every handled delivery that is not cleaned up still has its message |
| `Cleanup.OvertakenIsLost` | src/core/ZstMessageSupervisor.cpp:37-41 | a duplicate that is owned before the first reply was released makes the first one lost |
| `Cleanup.OvertakenHappens` | src/core/ZstMessageSupervisor.cpp:37-41 | after every run with an idle dispatch thread, a new request that is answered twice loses its first reply |
| `Cleanup.FlaggedForever` | src/core/ZstMessageSupervisor.cpp:71-73 | a message flagged for a promise stays flagged and never returns to the pool |
| `Cleanup.LateReplyHappens` | src/core/transports/ZstTransportLayerBase.hpp:111-130 | a reply that arrives after the wait ran out and before the sender returns is left owned |
| `Cleanup.LeftOwnedIsLost` | src/core/ZstMessageSupervisor.cpp:43-51 | such a reply is lost |
| `Requests.InvAlways` | src/core/ZstMessageSupervisor.cpp:16-83 | the agreement of promises, owned messages, senders and pool after every sequence of steps |
| `Requests.MessagePool.Populate` | src/core/ZstMessagePool.hpp:23-28 | adds that many new messages behind the others |
| `Requests.MessagePool.GetMsg` | src/core/ZstMessagePool.hpp:30-40 | takes the first message, refilling an empty pool with one block: pool and queue of a Receive step |
| `Requests.MessagePool.Release` | src/core/ZstMessagePool.hpp:42-47 | the message goes to the end: the pool of a Complete step without promise |
| `Requests.Supervisor.CleanupResponseMessages` | src/core/ZstMessageSupervisor.cpp:29-35 | drains the dead queue and removes exactly those promises: as many Purge steps |
| `Requests.Supervisor.ProcessMessageResponse` | src/core/ZstMessageSupervisor.cpp:63-83 | takes the message if its promise exists, keeping a value that was already set; otherwise leaves all unchanged: the Complete step and, if taken, the Fulfil step after it |
| `Wakeup.InvAlways` | src/core/ZstEventDispatcher.hpp:195-215 | in every interleaving a non-empty queue that can wake the loop has a positive count, a producer about to notify, or the pass still ahead of it |
| `Wakeup.NoLostWakeup` | src/core/ZstSemaphore.h:14-34 | a queue is never left with an event while the loop sleeps if and only if it is neither the compute nor the log queue |
| `Wakeup.NotifiesCount` | src/core/ZstSemaphore.h:14-34 | in every interleaving each notify on the semaphore has woken the loop once or is still counted |
| `Wakeup.EventsConserved` | src/core/ZstEventDispatcher.hpp:195-215 | in every interleaving each deferred event was processed once or is still queued |
| `Wakeup.StillVisited` | src/server/ZstStageSession.cpp:24-37 | which queues a pass has still to visit at each position: the hierarchy's come first and again after the session's |
| `Wakeup.VisitOrder` | src/server/ZstStageSession.cpp:24-37 | the order of the visits, and that the loop leaves a queue only when it is empty |
| `Wakeup.PassDrains` | src/server/ZstStageSession.cpp:24-37 | left alone, a pass empties every queue it has still to visit and returns to wait |
| `Wakeup.EventsAreProcessed` | src/server/ZstStage.cpp:189-204 | from every reachable state the loop alone empties every queue that can wake it |
| `Heartbeat.Monitor.Watch` | src/server/ZstStage.cpp:156-187 | the stage that works through a whole trace of heartbeats and ticks ends in the state the lemmas below speak of |
| `Heartbeat.Monitor.Timer` | src/server/ZstStage.cpp:156-180 | one tick for every performer and the removal of exactly those over the limit |
| `Heartbeat.MissedIsQuiet` | src/core/entities/ZstPerformer.cpp:60-83 | over every trace the counter is the number of silent ticks after the one that cleared the flag |
| `Heartbeat.EvictedAtTwelve` | src/server/ZstStage.cpp:156-187 | a tick evicts a performer exactly when it is the 12th since it was last heard |
| `Heartbeat.PresentIffNeverQuiet` | src/server/ZstStage.cpp:156-187 | over every trace a performer is present at the end if and only if no prefix shows it quiet for 12 ticks |

## Left out

- HierarchyTree.Hierarchy.SetName: a rename to the name the entity already has, or to a name under which a live or stale key exists, is outside the contract, because the index then loses or revives keys; HierarchyTree.Hierarchy.SetNameLeaf is exact for an entity without children.
- HierarchyTree.Hierarchy.AttachFrom: a new parent that lies above the entity keeps the entity's path (HierarchyTree.ParentTakesHold); the child set that then lists a path it does not own is not followed further.
- HierarchyTree.Hierarchy.SetName: an entity whose parent is not registered, and the registration, activation and update messages a rename sends.
- HierarchyTree.Hierarchy.DetachFlat: which keys survive a clash in a deeper subtree; there only the sufficient conditions of HierarchyTree.Hierarchy.Detach are proved.
- StageSession.Stage.Run: stops at the first request outside `Served`: a connect request at which the code crashes, a leave with clashing names, a plug that leaves with cables (StageSession.Stage.LeavePlugThenPass treats it), an arrival without a parent that stays.
- StageSession.Stage.Leave: needs the landing free and the names of the subtree apart; HierarchyTree.Hierarchy.DetachFlat has what happens otherwise.
- StageSession.Stage.AddEntity: an entity whose parent is unknown, a plug, or about to go, which the code registers all the same; factories; and the check that the sender owns the path, whose refusals change nothing.
- StageSession.Stage.CreateCableHandler: the answer to the requestor after the peers are linked; the code does not guarantee one.
- StageSession.Stage.Serve: entity update requests, by which a client's rename reaches the stage.
- StageSession.Stage.Pass: factories, and the on_cable_created and on_cable_destroyed listeners.
- Requests.CleanupOnceAndLast: says at most once, because the code does not clean up every message; Cleanup.CleanedIff has the exact condition.
- Data races on the promise map between its unlocked find and its locked insert and erase; a step of the model is atomic.
- Heartbeat eviction inside the snapshot and cable models, since it sends no leave broadcast.
- Joining clients in the ownership model, since the owner string is serialised with a segment count as its length.
- The client's side of cable destruction and entity removal, which would repeat the stage's.
- Reply liveness, factory creation, beacon discovery, websocket output, plugin loading and logging.
- Sockets, timers, thread pools and FlatBuffers encoding: channels are sets or sequences of records and timers are steps.
- Memory management inside `ZstURI`, language bindings and the web monitor.
