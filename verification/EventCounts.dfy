/**
  What events say under interleaving: the sweeper and DisconnectUser count the sessions of a user
  with one command and take the version of their event with a later one.
*/
module EventCounts {
  import opened Base
  import opened Store
  import opened Threads
  import opened Interleaving
  import opened Races

  // ----- From the count to the version -----

  /** The thread is about to count the user's sessions for an event. */
  predicate Counts(t: Thread, order: seq<SessionId>) {
    t.SweepCount? || (t.UserList? && order == [])
  }

  /** The thread is about to take the version of its event. */
  predicate AtBump(t: Thread) {
    t.SweepTabsBump? || t.SweepOfflineBump? || t.UserBump?
  }

  /** The tab count the event will carry. */
  function TabsOf(t: Thread): nat {
    if t.SweepTabsBump? then t.remaining else 0
  }

  /** The thread has counted `n` sessions of `u` and has not published yet, or has nothing to publish. */
  predicate Carries(t: Thread, u: UserId, n: nat) {
    match t
    case SweepTabsBump(v, remaining) => v == u && remaining == n
    case SweepOffline(v) => v == u && n == 0
    case SweepOfflineBump(v) => v == u && n == 0
    case UserRepair(v) => v == u && n == 0
    case UserBump(v) => v == u && n == 0
    case Done => true
    case _ => false
  }

  lemma CountIsCarried(t: Thread, st: Store, order: seq<SessionId>)
    requires Counts(t, order) && (t.UserList? ==> Lists(order, st.At(t.u).members))
    ensures Carries(After(t, st, order), t.u, |st.At(t.u).members|)
  {
    if t.UserList? {
      assert st.At(t.u).members == {};
    }
  }

  lemma CountStays(t: Thread, st: Store, order: seq<SessionId>, u: UserId, n: nat)
    requires Carries(t, u, n) && !AtBump(t) && t != Done
    ensures Carries(After(t, st, order), u, n)
  {
  }

  /** Thread `id` counts the sessions of `u` at step `r` and takes the version of its event at step `m`. */
  ghost predicate Publishes(tr: seq<Machine>, acts: seq<Act>, id: nat, r: nat, m: nat, u: UserId)
    requires |tr| == |acts| + 1
  {
    && r < m < |acts|
    && RunsAt(tr, acts, id, r) && Counts(tr[r].threads[id], acts[r].order) && tr[r].threads[id].u == u
    && RunsAt(tr, acts, id, m) && AtBump(tr[m].threads[id])
    && (forall k: nat | r < k < m && RunsAt(tr, acts, id, k) :: !AtBump(tr[k].threads[id]))
  }

  predicate RunsAt(tr: seq<Machine>, acts: seq<Act>, id: nat, k: nat)
    requires k < |acts| < |tr|
  {
    acts[k].Run? && acts[k].id == id && id in tr[k].threads
  }

  lemma ThreadMoves(ttl: nat, tr: seq<Machine>, acts: seq<Act>, id: nat, k: nat)
    requires IsSchedule(ttl, tr, acts) && k < |acts| && id in tr[k].threads
    ensures id in tr[k + 1].threads
    ensures tr[k + 1].threads[id] ==
            if RunsAt(tr, acts, id, k) then After(tr[k].threads[id], tr[k].st, acts[k].order) else tr[k].threads[id]
    ensures RunsAt(tr, acts, id, k) ==> CanRun(tr[k], tr[k].threads[id], acts[k].order)
  {
    assert ActsAt(ttl, tr, acts, k);
  }

  lemma {:induction false} CountIsKept(
    ttl: nat, tr: seq<Machine>, acts: seq<Act>, id: nat, r: nat, m: nat, k: nat, u: UserId)
    requires IsSchedule(ttl, tr, acts) && Publishes(tr, acts, id, r, m, u) && r < k <= m
    ensures id in tr[k].threads && Carries(tr[k].threads[id], u, |tr[r].Members(u)|)
    decreases k
  {
    if k == r + 1 {
      ThreadMoves(ttl, tr, acts, id, r);
      CountIsCarried(tr[r].threads[id], tr[r].st, acts[r].order);
    } else {
      CountIsKept(ttl, tr, acts, id, r, m, k - 1, u);
      ThreadMoves(ttl, tr, acts, id, k - 1);
      if RunsAt(tr, acts, id, k - 1) {
        CountStays(tr[k - 1].threads[id], tr[k - 1].st, acts[k - 1].order, u, |tr[r].Members(u)|);
      }
    }
  }

  // ----- Sessions that come and go in between -----

  predicate JoinsIn(m: Machine, a: Act, u: UserId) {
    var c := CommandIn(m, a);
    c.EvalConnect? && c.u == u
  }

  predicate Removes(c: Command, u: UserId) {
    (c.EvalDisconnect? || c.SRem?) && c.u == u
  }

  predicate LeavesIn(m: Machine, a: Act, u: UserId) {
    var c := CommandIn(m, a);
    Removes(c, u) && c.s in m.Members(u)
  }

  /** How many sessions of `u` connect scripts add from step `i` up to state `j`. */
  function Joins(tr: seq<Machine>, acts: seq<Act>, i: nat, j: nat, u: UserId): nat
    requires i <= j <= |acts| < |tr|
    decreases j
  {
    if i == j then 0 else Joins(tr, acts, i, j - 1, u) + if JoinsIn(tr[j - 1], acts[j - 1], u) then 1 else 0
  }

  /** How many sessions of `u` disconnect scripts and sweeps remove from step `i` up to state `j`. */
  function Leaves(tr: seq<Machine>, acts: seq<Act>, i: nat, j: nat, u: UserId): nat
    requires i <= j <= |acts| < |tr|
    decreases j
  {
    if i == j then 0 else Leaves(tr, acts, i, j - 1, u) + if LeavesIn(tr[j - 1], acts[j - 1], u) then 1 else 0
  }

  lemma CommandMembers(a: Store, c: Command, ttl: nat, u: UserId)
    ensures Effect(a, c, ttl).At(u).members ==
            if c.EvalConnect? && c.u == u then a.At(u).members + {c.s}
            else if Removes(c, u) then a.At(u).members - {c.s}
            else a.At(u).members
  {
  }

  lemma CommandCounts(a: set<SessionId>, s: SessionId)
    ensures s !in a ==> |a + {s}| == |a| + 1
    ensures |a - {s}| == |a| - if s in a then 1 else 0
  {
    if s !in a {
      assert a - {s} == a;
    }
  }

  lemma StepCounts(ttl: nat, tr: seq<Machine>, acts: seq<Act>, k: nat, u: UserId)
    requires IsSchedule(ttl, tr, acts) && k < |acts|
    ensures |tr[k + 1].Members(u)| + (if LeavesIn(tr[k], acts[k], u) then 1 else 0)
            == |tr[k].Members(u)| + if JoinsIn(tr[k], acts[k], u) then 1 else 0
  {
    StepByCommand(ttl, tr, acts, k, u);
    var c := CommandIn(tr[k], acts[k]);
    CommandMembers(tr[k].st, c, ttl, u);
    if c.EvalConnect? || Removes(c, u) {
      CommandCounts(tr[k].Members(u), c.s);
    }
  }

  /** In every interleaving sessions are conserved: what connects add stays until a disconnect or sweep removes it. */
  lemma {:induction false} SessionsBalance(ttl: nat, tr: seq<Machine>, acts: seq<Act>, i: nat, j: nat, u: UserId)
    requires IsSchedule(ttl, tr, acts) && i <= j < |tr|
    ensures |tr[j].Members(u)| + Leaves(tr, acts, i, j, u) == |tr[i].Members(u)| + Joins(tr, acts, i, j, u)
    decreases j
  {
    if i < j {
      SessionsBalance(ttl, tr, acts, i, j - 1, u);
      StepCounts(ttl, tr, acts, j - 1, u);
    }
  }

  // ----- When the event is right -----

  lemma BumpOnlyBumps(t: Thread)
    requires AtBump(t)
    ensures CommandOf(t) == Incr(t.u)
  {
  }

  lemma BumpAtStep(ttl: nat, tr: seq<Machine>, acts: seq<Act>, id: nat, m: nat, u: UserId)
    requires IsSchedule(ttl, tr, acts) && m < |acts| && RunsAt(tr, acts, id, m)
    requires AtBump(tr[m].threads[id]) && tr[m].threads[id].u == u
    ensures tr[m + 1].st.At(u).version == tr[m].st.At(u).version + 1
    ensures tr[m + 1].Members(u) == tr[m].Members(u)
  {
    BumpOnlyBumps(tr[m].threads[id]);
    StepByCommand(ttl, tr, acts, m, u);
  }

  /**
    The event of a sweep or of a repair carries the number of sessions its user has right after the
    event's version is taken iff, since they were counted, as many sessions joined as left.
  */
  lemma EventIsRightIffBalanced(
    ttl: nat, tr: seq<Machine>, acts: seq<Act>, id: nat, r: nat, m: nat, u: UserId)
    requires IsSchedule(ttl, tr, acts) && Publishes(tr, acts, id, r, m, u)
    ensures tr[m + 1].st.At(u).version == tr[m].st.At(u).version + 1
    ensures TabsOf(tr[m].threads[id]) == |tr[m + 1].Members(u)|
            <==> Joins(tr, acts, r, m, u) == Leaves(tr, acts, r, m, u)
  {
    CountIsKept(ttl, tr, acts, id, r, m, m, u);
    BumpAtStep(ttl, tr, acts, id, m, u);
    SessionsBalance(ttl, tr, acts, r, m, u);
  }

  lemma {:induction false} NothingJoinsOrLeaves(tr: seq<Machine>, acts: seq<Act>, i: nat, j: nat, u: UserId)
    requires i <= j <= |acts| < |tr|
    requires forall k: nat | i <= k < j :: !JoinsIn(tr[k], acts[k], u) && !LeavesIn(tr[k], acts[k], u)
    ensures Joins(tr, acts, i, j, u) == 0 && Leaves(tr, acts, i, j, u) == 0
    decreases j
  {
    if i < j {
      NothingJoinsOrLeaves(tr, acts, i, j - 1, u);
    }
  }

  /** In particular it is right when no script or sweep touches the user's sessions in between. */
  lemma UndisturbedEventIsRight(
    ttl: nat, tr: seq<Machine>, acts: seq<Act>, id: nat, r: nat, m: nat, u: UserId)
    requires IsSchedule(ttl, tr, acts) && Publishes(tr, acts, id, r, m, u)
    requires forall k: nat | r <= k < m :: !JoinsIn(tr[k], acts[k], u) && !LeavesIn(tr[k], acts[k], u)
    ensures TabsOf(tr[m].threads[id]) == |tr[m + 1].Members(u)|
  {
    NothingJoinsOrLeaves(tr, acts, r, m, u);
    EventIsRightIffBalanced(ttl, tr, acts, id, r, m, u);
  }

  // ----- A wrong event -----

  const SWEPT := Machine(EMPTY, map[0 := SweepOfflineBump("u")], map[])

  lemma SweepSteps(ttl: nat)
    ensures Ran(Machine(EMPTY, map[0 := SweepList("u")], map[]), 0, SweepList("u"), [], ttl)
            == Machine(EMPTY, map[0 := SweepCount("u", false)], map[])
  {
  }

  lemma CountSteps(ttl: nat)
    ensures Ran(Machine(EMPTY, map[0 := SweepCount("u", false)], map[]), 0, SweepCount("u", false), [], ttl)
            == Machine(EMPTY, map[0 := SweepOffline("u")], map[])
  {
  }

  lemma OfflineSteps(ttl: nat)
    ensures Ran(Machine(EMPTY, map[0 := SweepOffline("u")], map[]), 0, SweepOffline("u"), [], ttl) == SWEPT
  {
  }

  /** A sweep finds no sessions and takes the user off the online set; its version is still to come. */
  lemma SweepIsAboutToBump(ttl: nat) returns (tr: seq<Machine>, acts: seq<Act>)
    ensures IsSchedule(ttl, tr, acts) && tr[|acts|] == SWEPT
  {
    tr, acts := [BOOT], [];
    tr, acts := Longer(ttl, tr, acts, Spawn(0, SweepList("u")));
    assert tr[|acts|] == Machine(EMPTY, map[0 := SweepList("u")], map[]);
    SweepSteps(ttl);
    tr, acts := Longer(ttl, tr, acts, Run(0, []));
    CountSteps(ttl);
    tr, acts := Longer(ttl, tr, acts, Run(0, []));
    OfflineSteps(ttl);
    tr, acts := Longer(ttl, tr, acts, Run(0, []));
  }

  lemma ConnectBumpsFirst(m: Machine, ttl: nat)
    requires m == SWEPT.(threads := SWEPT.threads[1 := ConnectScript("u", "s", "", false)])
    ensures CanAct(m, Run(1, []))
    ensures var y := Acted(m, Run(1, []), ttl);
            && y.Members("u") == {"s"} && y.st.At("u").version == 1
            && 0 in y.threads && y.threads[0] == SweepOfflineBump("u")
  {
  }

  lemma SweepBumpsSecond(m: Machine, ttl: nat)
    requires 0 in m.threads && m.threads[0] == SweepOfflineBump("u")
    ensures CanAct(m, Run(0, []))
    ensures var y := Acted(m, Run(0, []), ttl);
            y.Members("u") == m.Members("u") && y.st.At("u").version == m.st.At("u").version + 1
  {
  }

  /**
    It happens: a connect takes version 1 for its event with one tab, the sweep takes version 2 for
    its event with none, and the session is still there. The higher version is the wrong one.
  */
  lemma WrongEventHappens(ttl: nat) returns (tr: seq<Machine>, acts: seq<Act>)
    ensures IsSchedule(ttl, tr, acts) && acts != []
    ensures var n := |acts|;
            && RunsAt(tr, acts, 0, n - 1) && AtBump(tr[n - 1].threads[0]) && TabsOf(tr[n - 1].threads[0]) == 0
            && tr[n].st.At("u").version == 2 && tr[n].Members("u") == {"s"}
  {
    tr, acts := SweepIsAboutToBump(ttl);
    tr, acts := Longer(ttl, tr, acts, Spawn(1, ConnectScript("u", "s", "", false)));
    ConnectBumpsFirst(tr[|acts|], ttl);
    tr, acts := Longer(ttl, tr, acts, Run(1, []));
    SweepBumpsSecond(tr[|acts|], ttl);
    tr, acts := Longer(ttl, tr, acts, Run(0, []));
  }
}
