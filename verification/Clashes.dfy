/** Taking an entity from its parent, or renaming one, where names clash: what becomes of the index, exactly, when the
    entities that come along have no children of their own. */
module Clashes {
  import opened Common
  import opened EntityTree
  import opened Reseating
  import opened Moves

  /** The child keys of `e` are live and their entities list no children. */
  predicate Flat(ents: Ents, index: Index, e: Id)
    requires e in ents
  {
    forall q {:trigger q in ents[e].children} :: q in ents[e].children ==>
      q in index && index[q] in ents && ents[index[q]].children == {}
  }

  /** Where a child named like its parent `n` ends: set_parent keeps a path that contains the parent's. */
  function Seat(n: string, c: Path): (r: Path)
    requires c != []
    ensures r != [] && [n] <= r && Last(r) == Last(c)
  {
    if Last(c) == n then [n] else [n, Last(c)]
  }

  function Seats(n: string, kids: set<Path>): set<Path>
    requires forall c {:trigger c in kids} :: c in kids ==> c != []
  {
    set c | c in kids :: Seat(n, c)
  }

  /** The keys once the entity at `u` went to the top level and its children `done`, out of `kids`, went through it. */
  ghost predicate KeyThere(ia: Index, u: Path, kids: set<Path>, done: set<Path>, q: Path)
    requires u != []
  {
    if q == [Last(u)] then true
    else if q == u then false
    else if q in kids then q !in done
    else if |q| == 1 && u + q in kids then u + q !in done && q in ia
    else if |q| == 2 && q[0] == Last(u) && q[1] != Last(u) && u + [q[1]] in done then true
    else q in ia
  }

  /** What such a key leads to. */
  ghost predicate KeyLeads(ia: Index, e: Id, u: Path, done: set<Path>, q: Path, x: Id)
    requires u != []
  {
    if q == [Last(u)] then (if u + q in done then u + q in ia && x == ia[u + q] else x == e)
    else if |q| == 2 && q[0] == Last(u) && q[1] != Last(u) && u + [q[1]] in done then u + [q[1]] in ia
      && x == ia[u + [q[1]]]
    else q in ia && x == ia[q]
  }

  ghost predicate FlatKeys(ia: Index, ib: Index, e: Id, u: Path, kids: set<Path>, done: set<Path>)
    requires u != []
  {
    forall q {:trigger q in ib} {:trigger ib[q]} ::
      (q in ib <==> KeyThere(ia, u, kids, done, q)) && (q in ib ==> KeyLeads(ia, e, u, done, q, ib[q]))
  }

  /** The children `kids` of the entity at `u`, by their keys. */
  ghost predicate KidsOf(a: Ents, ia: Index, e: Id, u: Path, kids: set<Path>) {
    && |u| >= 2 && e in a && a[e].uri == u && a[e].children == kids
    && forall c {:trigger c in kids} :: c in kids ==>
         c != [] && c == u + [Last(c)] && c in ia && ia[c] in a && a[ia[c]].uri == c
  }

  lemma TheKids(a: Ents, ia: Index, e: Id)
    requires WellFormed(a, ia) && e in a && |a[e].uri| >= 2 && Flat(a, ia, e)
    ensures KidsOf(a, ia, e, a[e].uri, a[e].children)
  {
    forall c {:trigger c in a[e].children} | c in a[e].children ensures c != [] && c == a[e].uri + [Last(c)] {
      assert Init(c) == a[e].uri;
    }
  }

  lemma FlatStart(ia: Index, e: Id, u: Path, kids: set<Path>)
    requires |u| >= 2 && forall c {:trigger c in kids} :: c in kids ==> c in ia && |c| > |u|
    ensures FlatKeys(ia, Rekeyed(ia, u, [Last(u)], e), e, u, kids, {})
  {}

  ghost predicate Longer(kids: set<Path>) { forall c {:trigger c in kids} :: c in kids ==> |c| > 2 }

  lemma ThereNext(ia: Index, ib: Index, e: Id, u: Path, kids: set<Path>, done: set<Path>, c: Path, k: Id, q: Path)
    requires |u| >= 2 && FlatKeys(ia, ib, e, u, kids, done) && c in kids && c !in done && done <= kids && Longer(kids)
             && c != [] && c == u + [Last(c)]
    ensures var ic := Rekeyed(Rekeyed(ib, c, [Last(c)], k), [Last(c)], Seat(Last(u), c), k);
            q in ic <==> KeyThere(ia, u, kids, done + {c}, q)
  {
    ByName(u, c, q);
  }

  lemma LeadsNext(ia: Index, ib: Index, e: Id, u: Path, kids: set<Path>, done: set<Path>, c: Path, k: Id, q: Path)
    requires |u| >= 2 && FlatKeys(ia, ib, e, u, kids, done) && c in kids && c !in done && done <= kids && Longer(kids)
             && c != [] && c == u + [Last(c)] && c in ia && k == ia[c]
    ensures var ic := Rekeyed(Rekeyed(ib, c, [Last(c)], k), [Last(c)], Seat(Last(u), c), k);
            q in ic ==> KeyLeads(ia, e, u, done + {c}, q, ic[q])
  {
    ByName(u, c, q);
  }

  lemma ByName(u: Path, c: Path, q: Path)
    requires u != [] && c != [] && c == u + [Last(c)]
    ensures |q| == 1 ==> (u + q == c <==> q == [Last(c)])
    ensures |q| == 2 ==>
            (u + [q[1]] == c <==> q[1] == Last(c)) && (q == [Last(u), Last(c)] <==> q[0] == Last(u) && q[1] == Last(c))
    ensures |c| == |u| + 1
  {
    if |q| == 1 { assert (u + q)[|u|] == q[0] && q == [q[0]]; }
    if |q| == 2 { assert (u + [q[1]])[|u|] == q[1] && q == [q[0], q[1]]; }
  }

  /** One child through the top level and back: two re-keyings. */
  lemma FlatNext(ia: Index, ib: Index, e: Id, u: Path, kids: set<Path>, done: set<Path>, c: Path, k: Id)
    requires |u| >= 2 && FlatKeys(ia, ib, e, u, kids, done) && c in kids && c !in done && done <= kids && Longer(kids)
             && c != [] && c == u + [Last(c)] && c in ia && k == ia[c]
    ensures FlatKeys(ia, Rekeyed(Rekeyed(ib, c, [Last(c)], k), [Last(c)], Seat(Last(u), c), k), e, u, kids, done + {c})
  {
    hide KeyThere, KeyLeads;
    var ic := Rekeyed(Rekeyed(ib, c, [Last(c)], k), [Last(c)], Seat(Last(u), c), k);
    forall q {:trigger q in ic} {:trigger ic[q]}
      ensures (q in ic <==> KeyThere(ia, u, kids, done + {c}, q))
              && (q in ic ==> KeyLeads(ia, e, u, done + {c}, q, ic[q]))
    {
      ThereNext(ia, ib, e, u, kids, done, c, k, q);
      LeadsNext(ia, ib, e, u, kids, done, c, k, q);
    }
  }

  // ---------------------------------------------------------------- the records

  /** The records at that point: the parent no longer lists the entity, the entity lists its children where they are. */
  ghost predicate FlatEnts(a: Ents, b: Ents, z: Id, e: Id, u: Path, kids: set<Path>, done: set<Path>)
    requires u != [] && e in a && forall c {:trigger c in done} :: c in done ==> c != []
  {
    && b.Keys == a.Keys
    && b[e] == Entity([Last(u)], [], (kids - done) + Seats(Last(u), done), a[e].kind)
    && forall x {:trigger b[x]} :: x in b && x != e ==>
         b[x] == if a[x].uri in done then a[x].(uri := Seat(Last(u), a[x].uri), parent := [Last(u)])
                 else if x == z then a[z].(children := a[z].children - {u}) else a[x]
  }

  lemma EntsNext(a: Ents, ia: Index, b: Ents, z: Id, e: Id, u: Path, kids: set<Path>, done: set<Path>, c: Path, k: Id,
        d: Ents)
    requires Indexed(a, ia) && KidsOf(a, ia, e, u, kids) && done <= kids && c in kids && c !in done && k == ia[c]
             && k != z && FlatEnts(a, b, z, e, u, kids, done)
    requires d == b[e := b[e].(children := b[e].children - {c} + {Seat(Last(u), c)})][k :=
             b[k].(uri := Seat(Last(u), c), parent := [Last(u)])]
    ensures FlatEnts(a, d, z, e, u, kids, done + {c})
  {
    SeatsNext(u, kids, done, c);
    forall x {:trigger d[x]} | x in d && x != e
      ensures d[x] == if a[x].uri in done + {c} then a[x].(uri := Seat(Last(u), a[x].uri), parent := [Last(u)])
                      else if x == z then a[z].(children := a[z].children - {u}) else a[x]
    {
      assert a[x].uri == c ==> x == k;
      assert b[x] == b[x];
    }
  }

  lemma SeatsNext(u: Path, kids: set<Path>, done: set<Path>, c: Path)
    requires |u| >= 2 && done <= kids && c in kids && c !in done
             && forall q {:trigger q in kids} :: q in kids ==> q != [] && |q| > 2
    ensures (kids - done) + Seats(Last(u), done) - {c} + {Seat(Last(u), c)} ==
            (kids - (done + {c})) + Seats(Last(u), done + {c})
  {
    assert Seats(Last(u), done + {c}) == Seats(Last(u), done) + {Seat(Last(u), c)};
    assert forall q {:trigger q in Seats(Last(u), done)} :: q in Seats(Last(u), done) ==> |q| <= 2;
  }

  ghost function PathsTo(a: Ents, bundle: seq<Id>, i: nat): set<Path>
    requires i <= |bundle|
  {
    set j | 0 <= j < i && bundle[j] in a :: a[bundle[j]].uri
  }

  /** The next child is untouched so far, and its stopover is not listed. */
  lemma LeafNext(a: Ents, ia: Index, b: Ents, z: Id, e: Id, u: Path, kids: set<Path>, done: set<Path>, k: Id,
        bundle: seq<Id>, i: nat)
    requires Indexed(a, ia) && KidsOf(a, ia, e, u, kids) && Flat(a, ia, e) && z in a && a[z].uri == Init(u)
             && done <= kids && FlatEnts(a, b, z, e, u, kids, done)
    requires forall x {:trigger x in bundle} :: x in bundle ==> x in a
    requires i < |bundle| && k == bundle[i] && k in a && a[k].uri in kids && done == PathsTo(a, bundle, i)
    requires forall i, j :: 0 <= i < j < |bundle| ==> bundle[i] != bundle[j]
    ensures var c := a[k].uri;
            && c !in done && c in ia && ia[c] == k && k != z && k != e && Longer(kids) && c != [] && c == u + [Last(c)]
            && k in b && e in b && b[k] == a[k] && b[k].children == {} && b[e].uri == [Last(u)] && c in b[e].children
                 && [Last(c)] !in b[e].children
  {
    var c := a[k].uri;
    assert c in ia && ia[c] == k;
    assert b[k] == b[k];
    SeatFree(u, kids, done, c);
  }

  lemma SeatFree(u: Path, kids: set<Path>, done: set<Path>, c: Path)
    requires u != [] && c in kids && c !in done && done <= kids && Longer(kids)
             && forall d {:trigger d in kids} :: d in kids ==> d != [] && d == u + [Last(d)]
    ensures [Last(c)] !in (kids - done) + Seats(Last(u), done)
  {
    assert forall d {:trigger d in done} :: d in done ==> d in kids && Last(d) != Last(c);
    assert forall d {:trigger d in done} :: d in done ==> Seat(Last(u), d) != [Last(c)];
  }

  /** After the entity itself was re-keyed. */
  lemma FlatBegins(a: Ents, ia: Index, z: Id, e: Id, u: Path, kids: set<Path>, b: Ents, ib: Index)
    requires KidsOf(a, ia, e, u, kids) && z in a && a[z].uri == Init(u) && ib == Rekeyed(ia, u, [Last(u)], e)
    requires b == Unlist(a, z, u)[e := a[e].(uri := [Last(u)], parent := [])]
    ensures FlatEnts(a, b, z, e, u, kids, {}) && Resolves(b, ib, e)
  {
    forall q {:trigger q in b[e].children} | q in b[e].children && q in ib ensures ib[q] in b && b[ib[q]].uri == q {
      assert q in kids && a[ia[q]].uri == q && |q| == |u| + 1;
    }
  }

  lemma NoKids(a: Ents, ia: Index, e: Id)
    requires WellFormed(a, ia) && e in a && Flat(a, ia, e)
    ensures a[e].children == {} || Container(a[e].kind)
  {
    if a[e].children != {} {
      var q :| q in a[e].children;
      assert a[ia[q]].uri == q;
    }
  }

  // ---------------------------------------------------------------- what is found afterwards

  /** The entity is found at its landing exactly when no child has its name; a top-level entity of another name is still
      found exactly when no child has that name. */
  lemma FlatFound(a: Ents, ia: Index, b: Ents, ib: Index, z: Id, e: Id, u: Path, kids: set<Path>)
    requires Indexed(a, ia) && KidsOf(a, ia, e, u, kids) && FlatKeys(ia, ib, e, u, kids, kids)
             && FlatEnts(a, b, z, e, u, kids, kids)
    ensures [Last(u)] in ib && (ib[[Last(u)]] == e <==> u + [Last(u)] !in kids)
    ensures u + [Last(u)] in kids ==> u + [Last(u)] in ia && ib[[Last(u)]] == ia[u + [Last(u)]]
    ensures forall q {:trigger q in ib} :: |q| == 1 && q in ia && q != [Last(u)] ==>
              (q in ib <==> u + q !in kids) && (q in ib ==> ib[q] == ia[q])
  {
    var c := u + [Last(u)];
    if c in kids { assert c in ia && a[ia[c]].uri == c && c != u; }
  }

  /** An entity that lists no children: no cable but its own is found below it. */
  predicate Bare(ents: Ents, x: Id) { x in ents && ents[x].children == {} }

  lemma FlatBare(a: Ents, ia: Index, b: Ents, z: Id, e: Id, u: Path, kids: set<Path>)
    requires KidsOf(a, ia, e, u, kids) && FlatEnts(a, b, z, e, u, kids, kids) && Flat(a, ia, e)
    ensures u + [Last(u)] in kids ==> u + [Last(u)] in ia && Bare(b, ia[u + [Last(u)]])
  {
    var c := u + [Last(u)];
    if c in kids {
      assert c in ia && a[ia[c]].uri == c && a[e].uri != c;
      assert b[ia[c]] == b[ia[c]];
    }
  }

  /** All is well with the index exactly when the landing was free and no child is named like it or like a top-level
      key. */
  ghost predicate FlatApart(ia: Index, u: Path, kids: set<Path>)
    requires u != []
  {
    [Last(u)] !in ia && forall c {:trigger c in kids} :: c in kids ==> c != [] && Last(c) != Last(u) && [Last(c)] !in ia
  }

  lemma FlatIndexed(a: Ents, ia: Index, b: Ents, ib: Index, z: Id, e: Id, u: Path, kids: set<Path>)
    requires WellFormed(a, ia) && KidsOf(a, ia, e, u, kids) && FlatKeys(ia, ib, e, u, kids, kids)
             && FlatEnts(a, b, z, e, u, kids, kids)
    ensures Indexed(b, ib) <==> FlatApart(ia, u, kids)
  {
    if FlatApart(ia, u, kids) { FlatKept(a, ia, b, ib, z, e, u, kids); } else { FlatLost(a, ia, b, ib, z, e, u, kids); }
  }

  lemma FlatLost(a: Ents, ia: Index, b: Ents, ib: Index, z: Id, e: Id, u: Path, kids: set<Path>)
    requires Indexed(a, ia) && KidsOf(a, ia, e, u, kids) && FlatKeys(ia, ib, e, u, kids, kids)
             && FlatEnts(a, b, z, e, u, kids, kids) && !FlatApart(ia, u, kids)
    ensures !Indexed(b, ib)
  {
    if [Last(u)] in ia {
      var x := ia[[Last(u)]];
      assert a[x].uri == [Last(u)] && b[x].uri == [Last(u)] && x != e;
      FlatFound(a, ia, b, ib, z, e, u, kids);
      if u + [Last(u)] in kids { assert a[ia[u + [Last(u)]]].uri == u + [Last(u)]; }
    } else {
      var c :| c in kids && (Last(c) == Last(u) || [Last(c)] in ia);
      FlatFound(a, ia, b, ib, z, e, u, kids);
      if Last(c) == Last(u) { assert b[e].uri == [Last(u)]; } else {
        var x := ia[[Last(c)]];
        assert a[x].uri == [Last(c)] && x != e && b[x].uri == [Last(c)];
      }
    }
  }

  lemma FlatKept(a: Ents, ia: Index, b: Ents, ib: Index, z: Id, e: Id, u: Path, kids: set<Path>)
    requires WellFormed(a, ia) && KidsOf(a, ia, e, u, kids) && FlatKeys(ia, ib, e, u, kids, kids)
             && FlatEnts(a, b, z, e, u, kids, kids) && FlatApart(ia, u, kids)
    ensures Indexed(b, ib)
  {
    hide WellFormed;
    assert Indexed(a, ia) by { IndexOf(a, ia); }
    forall x {:trigger b[x].uri} | x in b ensures b[x].uri != [] && b[x].uri in ib && ib[b[x].uri] == x {
      PathFound(a, ia, b, ib, z, e, u, kids, x);
    }
    forall q | q in ib ensures ib[q] in b && b[ib[q]].uri == q { KeyHolds(a, ia, b, ib, z, e, u, kids, q); }
  }

  lemma IndexOf(a: Ents, ia: Index)
    requires WellFormed(a, ia)
    ensures Indexed(a, ia)
  {}

  lemma PathFound(a: Ents, ia: Index, b: Ents, ib: Index, z: Id, e: Id, u: Path, kids: set<Path>, x: Id)
    requires Indexed(a, ia) && KidsOf(a, ia, e, u, kids) && FlatKeys(ia, ib, e, u, kids, kids)
             && FlatEnts(a, b, z, e, u, kids, kids) && FlatApart(ia, u, kids) && x in b
    requires WellFormed(a, ia)
    ensures b[x].uri != [] && b[x].uri in ib && ib[b[x].uri] == x
  {
    hide FlatKeys, WellFormed;
    assert FlatAt(ia, ib, e, u, kids, b[x].uri) by { FlatAtAny(ia, ib, e, u, kids, b[x].uri); }
    if x != e {
      if a[x].uri in kids {
        var c := a[x].uri;
        assert b[x].uri == [Last(u), Last(c)] && u + [Last(c)] == c && ia[c] == x;
      } else {
        NotUnderLanding(a, ia, u, x);
        NoTwin(ia, u, kids, a[x].uri);
        assert b[x].uri == a[x].uri;
      }
    }
  }

  /** FlatKeys at one key. */
  ghost predicate FlatAt(ia: Index, ib: Index, e: Id, u: Path, kids: set<Path>, q: Path)
    requires u != []
  {
    (q in ib <==> KeyThere(ia, u, kids, kids, q)) && (q in ib ==> KeyLeads(ia, e, u, kids, q, ib[q]))
  }

  lemma FlatAtAny(ia: Index, ib: Index, e: Id, u: Path, kids: set<Path>, q: Path)
    requires u != [] && FlatKeys(ia, ib, e, u, kids, kids)
    ensures FlatAt(ia, ib, e, u, kids, q)
  {}

  lemma NoTwin(ia: Index, u: Path, kids: set<Path>, q: Path)
    requires u != [] && FlatApart(ia, u, kids) && q in ia
    ensures |q| == 1 ==> u + q !in kids
  {
    assert |q| == 1 ==> q == [Last(u + q)];
  }

  /** Where the landing is free, nothing lies one level below it. */
  lemma NotUnderLanding(a: Ents, ia: Index, u: Path, x: Id)
    requires WellFormed(a, ia) && u != [] && [Last(u)] !in ia && x in a
    ensures a[x].uri != [Last(u)] && !(|a[x].uri| == 2 && a[x].uri[0] == Last(u))
  {
    assert a[x].uri in ia;
    if |a[x].uri| == 2 { assert Init(a[x].uri) == [a[x].uri[0]]; }
  }

  lemma KeyHolds(a: Ents, ia: Index, b: Ents, ib: Index, z: Id, e: Id, u: Path, kids: set<Path>, q: Path)
    requires Indexed(a, ia) && KidsOf(a, ia, e, u, kids) && FlatKeys(ia, ib, e, u, kids, kids)
             && FlatEnts(a, b, z, e, u, kids, kids) && FlatApart(ia, u, kids) && q in ib
    ensures ib[q] in b && b[ib[q]].uri == q
  {
    hide FlatKeys;
    assert FlatAt(ia, ib, e, u, kids, q) by { FlatAtAny(ia, ib, e, u, kids, q); }
    var x := ib[q];
    if q == [Last(u)] {
    } else if |q| == 2 && q[0] == Last(u) && q[1] != Last(u) && u + [q[1]] in kids {
      var c := u + [q[1]];
      assert Last(c) == q[1] && a[x].uri == c && b[x].uri == Seat(Last(u), c) && q == [q[0], q[1]];
    } else {
      assert a[x].uri == q && x != e && b[x] == b[x];
    }
  }

  // ---------------------------------------------------------------- a rename of an entity without children

  lemma SameKey(ib: Index, q: Path, e: Id)
    requires q in ib && ib[q] == e
    ensures Rekeyed(ib, q, q, e) == ib
  {}

  /** The three re-keyings of a rename below a parent: to the new path, to the top level, and back. */
  lemma RenamedKeys(a: Ents, ia: Index, e: Id, v: Path, w: Path, b: Ents, ib: Index)
    requires Indexed(a, ia) && e in a && v != [] && |v| >= 2 && (w == v || w == [Last(v)]) && |a[e].uri| >= 2
    requires b.Keys == a.Keys && b[e].uri == w && forall x {:trigger b[x]} :: x in b && x != e ==> b[x].uri == a[x].uri
    requires ib == Rekeyed(Rekeyed(Rekeyed(ia, a[e].uri, v, e), v, [Last(v)], e), [Last(v)], w, e)
    ensures Indexed(b, ib) <==> (v in ia ==> ia[v] == e) && [Last(v)] !in ia
  {
    if v in ia && ia[v] != e {
      assert b[ia[v]].uri == v && (v in ib ==> ib[v] == e);
    } else if [Last(v)] in ia {
      var x := ia[[Last(v)]];
      assert a[x].uri == [Last(v)] && x != e && b[x].uri == [Last(v)] && ([Last(v)] in ib ==> ib[[Last(v)]] == e);
    } else {
      forall x {:trigger b[x].uri} | x in b ensures b[x].uri != [] && b[x].uri in ib && ib[b[x].uri] == x {
        assert b[x] == b[x] && (x != e ==> a[x].uri != a[e].uri);
      }
      forall q | q in ib ensures ib[q] in b && b[ib[q]].uri == q {
        if q != w { assert q in ia && a[ia[q]].uri == q && b[ia[q]] == b[ia[q]]; }
      }
    }
  }
}
