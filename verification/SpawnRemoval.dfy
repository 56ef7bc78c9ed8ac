/** Removing an algorithm from the crypto registry (kernel/crypto/algapi.c crypto_remove_alg,
    crypto_remove_spawns, crypto_remove_spawn).

    Algorithms and spawns are numbered.  A spawn is an instance's use of another algorithm; the
    instance is itself an algorithm. */
module SpawnRemoval {
  import opened ListOps

  /** users is cra_users, alg is spawn->alg, hashed tells whether the instance is on its template's
      list, and doomed is the list of instances to be destroyed.  waiting is secondary_spawns. */
  datatype State = State(users: seq<seq<nat>>, alg: seq<Option<nat>>, dead: seq<bool>, hashed: seq<bool>,
                         doomed: seq<nat>, waiting: seq<nat>)

  /** What never changes: the instance of each spawn, and whether a reference to an instance's
      template can be taken. */
  datatype Fixed = Fixed(inst: seq<nat>, template: seq<bool>)

  predicate ListOk(list: seq<nat>, n: nat) {
    forall i :: 0 <= i < |list| ==> list[i] < n
  }

  predicate Shaped(f: Fixed, s: State) {
    && |s.users| == |s.dead| == |s.hashed| == |f.template| && |s.alg| == |f.inst|
    && ListOk(f.inst, |s.dead|) && ListOk(s.waiting, |f.inst|) && ListOk(s.doomed, |s.dead|)
    && forall a :: 0 <= a < |s.users| ==> ListOk(s.users[a], |f.inst|)
  }

  /** crypto_remove_spawn, for a spawn already taken off its list. */
  function Removed(f: Fixed, s: State, x: nat): State
    requires Shaped(f, s) && x < |f.inst|
  {
    var i := f.inst[x];
    var s1 := s.(alg := s.alg[x := None]);
    if s.dead[i] then s1
    else if !s.hashed[i] || !f.template[i] then s1.(dead := s.dead[i := true])
    else s1.(dead := s.dead[i := true], hashed := s.hashed[i := false], users := s.users[i := []],
             doomed := s.doomed + [i], waiting := s.users[i] + s.waiting)
  }

  // ----- what should happen -----

  /** Killing instance i passes the removal on to its users. */
  predicate Passes(f: Fixed, s: State, i: nat)
    requires Shaped(f, s) && i < |s.dead|
  {
    !s.dead[i] && s.hashed[i] && f.template[i]
  }

  /** S holds the users of a, and with a spawn of an instance that passes it on, that instance's users. */
  ghost predicate Closed(f: Fixed, s: State, a: nat, S: set<nat>)
    requires Shaped(f, s) && a < |s.dead|
  {
    && (forall x :: x in s.users[a] ==> x in S)
    && (forall x, y :: x in S && x < |f.inst| && Passes(f, s, f.inst[x]) && y in s.users[f.inst[x]] ==> y in S)
  }

  ghost predicate Least(f: Fixed, s: State, a: nat, S: set<nat>)
    requires Shaped(f, s) && a < |s.dead|
  {
    Closed(f, s, a, S) && forall T :: Closed(f, s, a, T) ==> S <= T
  }

  predicate Hit(f: Fixed, S: set<nat>, i: nat) {
    exists x :: x in S && x < |f.inst| && f.inst[x] == i
  }

  /** t is s after exactly the spawns of `done` have been removed. */
  ghost predicate After(f: Fixed, s: State, a: nat, done: set<nat>, t: State)
    requires Shaped(f, s) && a < |s.dead|
  {
    && Shaped(f, t) && |t.dead| == |s.dead|
    && (forall i :: 0 <= i < |s.dead| ==> (t.dead[i] <==> s.dead[i] || Hit(f, done, i)))
    && (forall i :: 0 <= i < |s.dead| ==>
          (t.hashed[i] <==> s.hashed[i] && !(Passes(f, s, i) && t.dead[i])))
    && (forall i :: 0 <= i < |s.dead| && i != a ==>
          t.users[i] == if Passes(f, s, i) && t.dead[i] then [] else s.users[i])
    && (forall x :: 0 <= x < |f.inst| ==> t.alg[x] == if x in done then None else s.alg[x])
    && (forall i :: 0 <= i < |s.dead| ==> (i in t.doomed <==> i in s.doomed || (Passes(f, s, i) && t.dead[i])))
  }

  /** What the loops keep: nothing reached is forgotten, and nothing else is touched. */
  ghost predicate Inv(f: Fixed, s: State, a: nat, done: set<nat>, t: State)
    requires Shaped(f, s) && a < |s.dead|
  {
    && After(f, s, a, done, t)
    && (forall x :: x in s.users[a] ==> x in done || x in t.users[a])
    && (forall x, y :: x in done && x < |f.inst| && Passes(f, s, f.inst[x]) && y in s.users[f.inst[x]] ==>
          y in done || y in t.waiting)
    && Within(f, s, a, done, t.users[a], t.waiting)
  }

  /** Every closed set holds all of these. */
  ghost predicate Within(f: Fixed, s: State, a: nat, done: set<nat>, here: seq<nat>, waiting: seq<nat>)
    requires Shaped(f, s) && a < |s.dead|
  {
    forall T, x :: Closed(f, s, a, T) && (x in done || x in here || x in waiting) ==> x in T
  }

  lemma HitMore(f: Fixed, S: set<nat>, x: nat, i: nat)
    requires x < |f.inst|
    ensures Hit(f, S + {x}, i) <==> Hit(f, S, i) || f.inst[x] == i
  {
    if f.inst[x] == i {
      assert x in S + {x};
    }
    if Hit(f, S, i) {
      var y :| y in S && y < |f.inst| && f.inst[y] == i;
      assert y in S + {x};
    }
  }

  /** Removing one spawn more. */
  lemma RemovedAfter(f: Fixed, s: State, a: nat, done: set<nat>, t: State, x: nat)
    requires Shaped(f, s) && a < |s.dead| && s.dead[a] && After(f, s, a, done, t) && x < |f.inst|
    ensures After(f, s, a, done + {x}, Removed(f, t, x))
  {
    hide Hit;
    forall i ensures Hit(f, done + {x}, i) <==> Hit(f, done, i) || f.inst[x] == i {
      HitMore(f, done, x, i);
    }
  }

  lemma RemoveAtMembers(list: seq<nat>, k: nat, n: nat)
    requires k < |list| && ListOk(list, n)
    ensures ListOk(RemoveAt(list, k), n)
    ensures forall x :: x in list <==> x in RemoveAt(list, k) || x == list[k]
  {
    assert list == list[..k] + [list[k]] + list[k + 1..];
  }

  /** u is t with the spawn x taken off the users of a or off the waiting list. */
  ghost predicate TakenOff(f: Fixed, a: nat, t: State, u: State, x: nat) {
    && Shaped(f, t) && Shaped(f, u) && a < |t.users| && x < |f.inst|
    && u == t.(users := u.users, waiting := u.waiting)
    && (forall i :: 0 <= i < |u.users| && i != a ==> u.users[i] == t.users[i])
    && (forall y :: y in t.users[a] || y in t.waiting <==> y in u.users[a] || y in u.waiting || y == x)
    && (forall y :: y in t.users[a] ==> y in u.users[a] || y == x)
    && (forall y :: y in t.waiting ==> y in u.waiting || y == x)
  }

  lemma TakenOffAfter(f: Fixed, s: State, a: nat, done: set<nat>, t: State, u: State, x: nat)
    requires Shaped(f, s) && a < |s.dead| && After(f, s, a, done, t) && TakenOff(f, a, t, u, x)
    ensures After(f, s, a, done, u)
  {
    hide Hit;
  }

  /** The spawn that is removed was reached, so what it passes on is reached too. */
  lemma {:induction false} RemovedInv(f: Fixed, s: State, a: nat, done: set<nat>, t: State, u: State, x: nat)
    requires Shaped(f, s) && a < |s.dead| && s.dead[a] && Inv(f, s, a, done, t)
    requires TakenOff(f, a, t, u, x)
    ensures Inv(f, s, a, done + {x}, Removed(f, u, x))
  {
    hide Within, After, Removed;
    TakenOffAfter(f, s, a, done, t, u, x);
    RemovedAfter(f, s, a, done, u, x);
    RemovedCovers(f, s, a, done, t, u, x);
    RemovedWithin(f, s, a, done, t, u, x);
  }

  lemma RemovedCovers(f: Fixed, s: State, a: nat, done: set<nat>, t: State, u: State, x: nat)
    requires Shaped(f, s) && a < |s.dead| && s.dead[a] && Inv(f, s, a, done, t)
    requires TakenOff(f, a, t, u, x)
    ensures var t', done' := Removed(f, u, x), done + {x};
            && (forall y :: y in s.users[a] ==> y in done' || y in t'.users[a])
            && (forall w, y :: w in done' && w < |f.inst| && Passes(f, s, f.inst[w]) && y in s.users[f.inst[w]] ==>
                  y in done' || y in t'.waiting)
  {
    hide Hit, Within;
    var t', done', i := Removed(f, u, x), done + {x}, f.inst[x];
    forall w, y | w in done' && w < |f.inst| && Passes(f, s, f.inst[w]) && y in s.users[f.inst[w]]
      ensures y in done' || y in t'.waiting
    {
      if w !in done && t.dead[i] {
        DeadWasHit(f, s, a, done, t, i);
        var v :| v in done && v < |f.inst| && f.inst[v] == i;
        assert y in done || y in t.waiting;
      }
    }
  }

  lemma DeadWasHit(f: Fixed, s: State, a: nat, done: set<nat>, t: State, i: nat)
    requires Shaped(f, s) && a < |s.dead| && After(f, s, a, done, t) && i < |s.dead| && t.dead[i] && !s.dead[i]
    ensures exists v :: v in done && v < |f.inst| && f.inst[v] == i
  {
  }

  lemma RemovedWithin(f: Fixed, s: State, a: nat, done: set<nat>, t: State, u: State, x: nat)
    requires Shaped(f, s) && a < |s.dead| && s.dead[a] && Inv(f, s, a, done, t)
    requires TakenOff(f, a, t, u, x)
    ensures var t' := Removed(f, u, x); Within(f, s, a, done + {x}, t'.users[a], t'.waiting)
  {
    hide Hit;
    var t', i := Removed(f, u, x), f.inst[x];
    forall T, y | Closed(f, s, a, T) && (y in done + {x} || y in t'.users[a] || y in t'.waiting) ensures y in T {
      assert x in t.users[a] || x in t.waiting;
      assert x in T;
      assert Passes(f, s, i) ==> forall z :: z in s.users[i] ==> z in T;
    }
  }

  /** When nothing waits any more, what was done is the least closed set. */
  lemma InvDone(f: Fixed, s: State, a: nat, done: set<nat>, t: State)
    requires Shaped(f, s) && a < |s.dead| && Inv(f, s, a, done, t) && t.users[a] == [] && t.waiting == []
    ensures Least(f, s, a, done)
  {
    hide After;
    forall T | Closed(f, s, a, T) ensures done <= T {
      forall x | x in done ensures x in T {
      }
    }
  }

  // ----- least means reached -----

  /** Each spawn of p after the first uses the instance of the one before, which passes the removal on. */
  predicate Chain(f: Fixed, s: State, a: nat, p: seq<nat>)
    requires Shaped(f, s) && a < |s.dead|
  {
    && p != [] && ListOk(p, |f.inst|) && p[0] in s.users[a]
    && forall j :: 0 <= j < |p| - 1 ==> Passes(f, s, f.inst[p[j]]) && p[j + 1] in s.users[f.inst[p[j]]]
  }

  ghost predicate Reached(f: Fixed, s: State, a: nat, x: nat)
    requires Shaped(f, s) && a < |s.dead|
  {
    exists p :: Chain(f, s, a, p) && p[|p| - 1] == x
  }

  lemma {:induction false} ChainInside(f: Fixed, s: State, a: nat, S: set<nat>, p: seq<nat>)
    requires Shaped(f, s) && a < |s.dead| && Closed(f, s, a, S) && Chain(f, s, a, p)
    ensures p[|p| - 1] in S
  {
    if |p| > 1 {
      var q := p[..|p| - 1];
      assert q[|q| - 1] == p[|p| - 2] && p[|p| - 2 + 1] == p[|p| - 1];
      ChainInside(f, s, a, S, q);
    }
  }

  lemma ReachedGrows(f: Fixed, s: State, a: nat, x: nat, y: nat)
    requires Shaped(f, s) && a < |s.dead| && Reached(f, s, a, x) && x < |f.inst|
    requires Passes(f, s, f.inst[x]) && y in s.users[f.inst[x]]
    ensures Reached(f, s, a, y)
  {
    var p :| Chain(f, s, a, p) && p[|p| - 1] == x;
    var q := p + [y];
    assert ListOk(s.users[f.inst[x]], |f.inst|);
    assert Chain(f, s, a, q);
    assert q[|q| - 1] == y;
  }

  /** The least closed set holds exactly the spawns a chain of uses leads to. */
  lemma LeastIsReached(f: Fixed, s: State, a: nat, S: set<nat>, x: nat)
    requires Shaped(f, s) && a < |s.dead| && Least(f, s, a, S)
    ensures x in S <==> Reached(f, s, a, x)
  {
    hide Passes;
    if Reached(f, s, a, x) {
      var p :| Chain(f, s, a, p) && p[|p| - 1] == x;
      ChainInside(f, s, a, S, p);
    }
    var T := set y | 0 <= y < |f.inst| && Reached(f, s, a, y);
    forall y | y in s.users[a] ensures y in T {
      OneLink(f, s, a, y);
    }
    forall w, y | w in T && w < |f.inst| && Passes(f, s, f.inst[w]) && y in s.users[f.inst[w]] ensures y in T {
      ReachedGrows(f, s, a, w, y);
      assert ListOk(s.users[f.inst[w]], |f.inst|);
    }
    assert Closed(f, s, a, T);
  }

  lemma OneLink(f: Fixed, s: State, a: nat, y: nat)
    requires Shaped(f, s) && a < |s.dead| && y in s.users[a]
    ensures y < |f.inst| && Reached(f, s, a, y)
  {
    assert ListOk(s.users[a], |f.inst|);
    var p := [y];
    assert Chain(f, s, a, p) && p[|p| - 1] == y;
  }

  /** A registry as it is between operations: every live instance is registered and its template
      can be referenced, and what uses a dead instance has been removed before.  Nothing is asked of
      algorithms that are no instance. */
  predicate Settled(f: Fixed, s: State, a: nat)
    requires Shaped(f, s) && a < |s.dead|
  {
    forall x :: 0 <= x < |f.inst| && f.inst[x] != a ==>
      var i := f.inst[x];
      (s.dead[i] ==> s.users[i] == []) && (!s.dead[i] ==> s.hashed[i] && f.template[i])
  }

  /** p leads from a to its last spawn, each using the instance of the one before. */
  predicate Uses(f: Fixed, s: State, a: nat, p: seq<nat>)
    requires Shaped(f, s) && a < |s.dead|
  {
    && p != [] && ListOk(p, |f.inst|) && p[0] in s.users[a]
    && forall j :: 0 <= j < |p| - 1 ==> p[j + 1] in s.users[f.inst[p[j]]]
  }

  /** In a settled registry every instance that depends on a, however indirectly, is killed. */
  lemma {:induction false} DependentsDie(f: Fixed, s: State, a: nat, S: set<nat>, t: State, p: seq<nat>)
    requires Shaped(f, s) && a < |s.dead| && s.dead[a] && Settled(f, s, a) && Uses(f, s, a, p)
    requires Closed(f, s, a, S) && After(f, s, a, S, t)
    ensures p[|p| - 1] in S && t.dead[f.inst[p[|p| - 1]]] && t.alg[p[|p| - 1]] == None
  {
    if |p| > 1 {
      var q := p[..|p| - 1];
      assert q[|q| - 1] == p[|p| - 2] && p[|p| - 2 + 1] == p[|p| - 1];
      DependentsDie(f, s, a, S, t, q);
    }
    assert p[|p| - 1] in S;
    assert Hit(f, S, f.inst[p[|p| - 1]]);
  }

  // ----- the loops -----

  function Live(dead: seq<bool>): nat {
    if dead == [] then 0 else (if dead[0] then 0 else 1) + Live(dead[1..])
  }

  lemma {:induction false} LiveDrops(dead: seq<bool>, i: nat)
    requires i < |dead|
    ensures Live(dead[i := true]) == Live(dead) - if dead[i] then 0 else 1
  {
    if i > 0 {
      assert dead[i := true][1..] == dead[1..][i - 1 := true];
      LiveDrops(dead[1..], i - 1);
    } else {
      assert dead[i := true][1..] == dead[1..];
    }
  }

  lemma InvStart(f: Fixed, s: State, a: nat)
    requires Shaped(f, s) && a < |s.dead| && s.waiting == []
    ensures Inv(f, s, a, {}, s)
  {
  }

  lemma InvAfter(f: Fixed, s: State, a: nat, done: set<nat>, t: State)
    requires Shaped(f, s) && a < |s.dead| && Inv(f, s, a, done, t)
    ensures After(f, s, a, done, t) && |t.dead| == |s.dead|
  {
  }

  lemma TookUser(f: Fixed, a: nat, t: State)
    requires Shaped(f, t) && a < |t.users| && t.users[a] != []
    ensures t.users[a][0] < |f.inst|
    ensures TakenOff(f, a, t, t.(users := t.users[a := t.users[a][1..]]), t.users[a][0])
  {
    var list := t.users[a];
    assert ListOk(list, |f.inst|);
    assert list == [list[0]] + list[1..];
  }

  lemma TookWaiting(f: Fixed, a: nat, t: State, k: nat)
    requires Shaped(f, t) && a < |t.users| && t.users[a] == [] && k < |t.waiting|
    ensures t.waiting[k] < |f.inst|
    ensures TakenOff(f, a, t, t.(waiting := RemoveAt(t.waiting, k)), t.waiting[k])
  {
    RemoveAtMembers(t.waiting, k, |f.inst|);
  }

  class Registry {
    const fixed: Fixed
    var users: seq<seq<nat>>
    var alg: seq<Option<nat>>
    var dead: seq<bool>
    var hashed: seq<bool>
    var listed: seq<bool>      // on the list of algorithms
    var doomed: seq<nat>
    var waiting: seq<nat>

    function View(): State
      reads this
    {
      State(users, alg, dead, hashed, doomed, waiting)
    }

    ghost predicate Valid()
      reads this
    {
      Shaped(fixed, View()) && |listed| == |dead|
    }

    constructor (f: Fixed, s: State, listed: seq<bool>)
      requires Shaped(f, s) && |listed| == |s.dead|
      ensures Valid() && View() == s && fixed == f
    {
      fixed, this.listed := f, listed;
      users, alg, dead, hashed, doomed, waiting := s.users, s.alg, s.dead, s.hashed, s.doomed, s.waiting;
    }

    /** crypto_remove_spawn. */
    method RemoveSpawn(x: nat)
      requires Valid() && x < |fixed.inst|
      modifies this`users, this`alg, this`dead, this`hashed, this`doomed, this`waiting
      ensures Valid() && View() == Removed(fixed, old(View()), x)
      ensures Live(dead) <= old(Live(dead))
      ensures Live(dead) == old(Live(dead)) ==> waiting == old(waiting)
      ensures |waiting| >= |old(waiting)|
      ensures forall b :: 0 <= b < |dead| && old(dead[b]) ==> dead[b] && users[b] == old(users[b])
    {
      var i := fixed.inst[x];
      alg := alg[x := None];
      if dead[i] {
        return;
      }
      LiveDrops(dead, i);
      dead := dead[i := true];
      if !hashed[i] || !fixed.template[i] {
        return;
      }
      doomed := doomed + [i];
      hashed := hashed[i := false];
      waiting := users[i] + waiting;
      users := users[i := []];
    }

    /** One pass over the waiting list.  Spawns spliced in go to the front, before the cursor, and
        are left for the next pass; a pass that splices nothing in leaves the list empty. */
    method Pass(a: nat, ghost s: State, ghost before: set<nat>) returns (ghost reached: set<nat>)
      requires Valid() && a < |dead| && dead[a] && users[a] == []
      requires Shaped(fixed, s) && a < |s.dead| && s.dead[a] && Inv(fixed, s, a, before, View())
      modifies this`users, this`alg, this`dead, this`hashed, this`doomed, this`waiting
      ensures Valid() && |dead| == |old(dead)| && dead[a] && users[a] == [] && Inv(fixed, s, a, reached, View())
      ensures Live(dead) < old(Live(dead)) || (Live(dead) == old(Live(dead)) && waiting == [])
    {
      hide Inv, Removed;
      reached := before;
      var cursor: nat := 0;
      while cursor < |waiting|
        invariant Valid() && |dead| == |old(dead)| && dead[a] && users[a] == [] && Inv(fixed, s, a, reached, View())
        invariant cursor <= |waiting| && Live(dead) <= old(Live(dead)) && (Live(dead) == old(Live(dead)) ==> cursor == 0)
        decreases |waiting| - cursor
      {
        var x := waiting[cursor];
        ghost var t := View();
        waiting := RemoveAt(waiting, cursor);
        TookWaiting(fixed, a, t, cursor);
        RemovedInv(fixed, s, a, reached, t, View(), x);
        var rest := |waiting|;
        RemoveSpawn(x);
        reached := reached + {x};
        cursor := cursor + (|waiting| - rest);
      }
    }

    /** crypto_remove_spawns for the users of a dead algorithm; reached is the set of spawns removed. */
    method RemoveSpawns(a: nat) returns (ghost reached: set<nat>)
      requires Valid() && a < |dead| && dead[a] && waiting == []
      modifies this`users, this`alg, this`dead, this`hashed, this`doomed, this`waiting
      ensures Valid() && waiting == [] && users[a] == []
      ensures Least(fixed, old(View()), a, reached) && After(fixed, old(View()), a, reached, View())
    {
      hide After, Least, Within, Removed, Inv;
      ghost var s := View();
      reached := {};
      InvStart(fixed, s, a);
      while users[a] != []
        invariant Valid() && a < |dead| && dead[a] && Inv(fixed, s, a, reached, View())
        decreases |users[a]|
      {
        var x := users[a][0];
        ghost var t := View();
        users := users[a := users[a][1..]];
        TookUser(fixed, a, t);
        RemovedInv(fixed, s, a, reached, t, View(), x);
        RemoveSpawn(x);
        reached := reached + {x};
      }
      while waiting != []
        invariant Valid() && a < |dead| && dead[a] && users[a] == [] && Inv(fixed, s, a, reached, View())
        decreases Live(dead), |waiting|
      {
        reached := Pass(a, s, reached);
      }
      InvDone(fixed, s, a, reached, View());
      InvAfter(fixed, s, a, reached, View());
    }

    /** crypto_remove_alg: false (ENOENT) when the algorithm is not registered. */
    method RemoveAlg(a: nat) returns (found: bool, ghost reached: set<nat>)
      requires Valid() && a < |dead| && waiting == []
      modifies this
      ensures Valid() && found == old(listed[a]) && waiting == []
      ensures !found ==> View() == old(View()) && listed == old(listed)
      ensures found ==>
                var s := old(View()).(dead := old(dead)[a := true]);
                && users[a] == [] && listed == old(listed)[a := false]
                && Least(fixed, s, a, reached) && After(fixed, s, a, reached, View())
    {
      hide After, Least;
      reached := {};
      found := listed[a];
      if !found {
        return;
      }
      dead := dead[a := true];
      listed := listed[a := false];
      reached := RemoveSpawns(a);
    }
  }
}
