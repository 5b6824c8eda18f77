/**
  What holds of the presence store under every interleaving of commands, and exactly when the
  online set keeps up with the session sets.
*/
module Races {
  import opened Base
  import opened Store
  import opened Events
  import opened Threads
  import opened Interleaving
  import opened SweepConvergence

  // ----- Acts and commands -----

  /** The command an act performs, Read for an advance of the clock or a new thread. */
  function CommandIn(m: Machine, a: Act): Command {
    if a.Run? && a.id in m.threads then CommandOf(m.threads[a.id]) else Read
  }

  lemma ActsByCommand(m: Machine, a: Act, ttl: nat)
    requires CanAct(m, a)
    ensures var st, y := Effect(m.st, CommandIn(m, a), ttl), Acted(m, a, ttl).st;
            y.users == st.users && y.online == st.online && y.indexed == st.indexed
  {
  }

  // ----- Pruning is safe -----

  lemma StepAges(ttl: nat, tr: seq<Machine>, acts: seq<Act>, j: nat)
    requires IsSchedule(ttl, tr, acts) && 0 < j < |tr|
    ensures Ages(tr[j - 1].st, tr[j - 1].owner, tr[j].st, tr[j].owner)
  {
    ScheduleIsOk(ttl, tr, acts, j - 1);
    assert ActsAt(ttl, tr, acts, j - 1);
    ActKeepsOk(tr[j - 1], acts[j - 1], ttl);
  }

  lemma AgesOn(a: Machine, b: Machine, c: Machine)
    requires Ages(a.st, a.owner, b.st, b.owner) && Ages(b.st, b.owner, c.st, c.owner)
    ensures Ages(a.st, a.owner, c.st, c.owner)
  {
  }

  lemma {:induction false} ScheduleAges(ttl: nat, tr: seq<Machine>, acts: seq<Act>, i: nat, j: nat)
    requires IsSchedule(ttl, tr, acts) && i <= j < |tr|
    ensures Ages(tr[i].st, tr[i].owner, tr[j].st, tr[j].owner)
    decreases j
  {
    if i < j {
      ScheduleAges(ttl, tr, acts, i, j - 1);
      StepAges(ttl, tr, acts, j);
      AgesOn(tr[i], tr[j - 1], tr[j]);
    }
  }

  /** An expired or deleted session is never live again. */
  lemma ExpiredStaysExpired(ttl: nat, tr: seq<Machine>, acts: seq<Act>, i: nat, j: nat, s: SessionId)
    requires IsSchedule(ttl, tr, acts) && i <= j < |tr| && s in tr[i].owner && !tr[i].st.Live(s)
    ensures !tr[j].st.Live(s)
  {
    ScheduleAges(ttl, tr, acts, i, j);
  }

  /** In every interleaving a live session is in its owner's set, and no sweep is about to SREM one. */
  lemma PruningIsSafe(ttl: nat, tr: seq<Machine>, acts: seq<Act>, i: nat)
    requires IsSchedule(ttl, tr, acts) && i < |tr|
    ensures forall s | tr[i].st.Live(s) :: s in tr[i].owner && s in tr[i].Members(tr[i].owner[s])
    ensures forall id | id in tr[i].threads && tr[i].threads[id].SweepRem? :: !tr[i].st.Live(tr[i].threads[id].s)
  {
    ScheduleIsOk(ttl, tr, acts, i);
    assert forall id | id in tr[i].threads :: ThreadOk(tr[i].st, tr[i].owner, tr[i].threads[id]);
  }

  // ----- A scan repairs what interleaving left behind -----

  /**
    From any state of any interleaving in which users with sessions are online - a scan may have
    paused or a sweep died halfway, a disconnect may be half done, and any cursor may be saved -
    a full scan, once the one in progress is finished, leaves exactly the live sessions.
  */
  lemma ScanRepairsAnyInterleaving(
    ttl: nat, tr: seq<Machine>, acts: seq<Act>, i: nat, w: World, rest: seq<Tick>, ticks: seq<Tick>)
    requires IsSchedule(ttl, tr, acts) && i < |tr| && w.st == tr[i].st
    requires forall u :: OnlineIfSessions(w.st, u)
    requires FinishesLeftover(w, rest) && OneScan(ticks)
    requires NoExpiry(w.st, rest) && NoExpiry(w.st, ticks)
    requires ScanGuarantee(TickCalls(AfterTicks(w, rest), ticks))
    ensures var b := AfterTicks(AfterTicks(w, rest), ticks).st;
            && (forall u :: b.At(u).members == LiveSessions(w.st, u))
            && (forall u :: u in b.online <==> LiveSessions(w.st, u) != {})
            && (b.indexed ==> b.online != {})
  {
    ScheduleIsOk(ttl, tr, acts, i);
    ListedByOwner(w.st, tr[i].owner);
    SweepConverges(w, rest, ticks);
  }

  lemma ListedByOwner(st: Store, owner: map<SessionId, UserId>)
    requires SessionsOk(st, owner)
    ensures SweepConvergence.LiveListed(st)
  {
    forall u, s | s in st.sessions && st.Live(s)
      ensures s in st.At(u).members <==> st.sessions[s].user == u
    {
      assert MembersIssued(st.At(u), owner, u);
    }
  }

  // ----- Online set and session sets -----

  lemma ConnectKeepsOnline(a: Store, u: UserId, s: SessionId, device: string, ttl: nat, v: UserId)
    requires OnlineIfSessions(a, v)
    ensures OnlineIfSessions(a.Connect(u, s, device, ttl), v)
  {
    if u == v && a.At(u).members == {} {
      assert a.At(u).Join(s).members == {s};
    }
  }

  lemma CommandKeepsOnline(a: Store, c: Command, ttl: nat, u: UserId)
    requires OnlineIfSessions(a, u)
    requires c == SRemOnline(u) ==> a.At(u).members == {}
    ensures OnlineIfSessions(Effect(a, c, ttl), u)
  {
    match c
    case EvalConnect(v, s, device) => ConnectKeepsOnline(a, v, s, device, ttl, u);
    case _ =>
  }

  lemma RemovalKeepsSessions(a: Store, ttl: nat, u: UserId)
    ensures var b := Effect(a, SRemOnline(u), ttl); b.At(u) == a.At(u) && u !in b.online
  {
  }

  /** Step `k` removes `u` from the online set. */
  predicate Removes(tr: seq<Machine>, acts: seq<Act>, k: nat, u: UserId)
    requires k < |acts| < |tr|
  {
    CommandIn(tr[k], acts[k]) == SRemOnline(u)
  }

  /** Every removal of `u` before state `n` found the user without sessions. */
  ghost predicate RemovalsFindEmpty(tr: seq<Machine>, acts: seq<Act>, n: nat, u: UserId)
    requires n <= |acts| < |tr|
  {
    forall k: nat | k < n && Removes(tr, acts, k, u) :: tr[k].Members(u) == {}
  }

  lemma StepKeepsOnline(ttl: nat, tr: seq<Machine>, acts: seq<Act>, k: nat, u: UserId)
    requires IsSchedule(ttl, tr, acts) && k < |acts| && OnlineIfSessions(tr[k].st, u)
    requires Removes(tr, acts, k, u) ==> tr[k].Members(u) == {}
    ensures OnlineIfSessions(tr[k + 1].st, u)
  {
    assert ActsAt(ttl, tr, acts, k);
    ActsByCommand(tr[k], acts[k], ttl);
    CommandKeepsOnline(tr[k].st, CommandIn(tr[k], acts[k]), ttl, u);
  }

  lemma RemovalTakesOffline(ttl: nat, tr: seq<Machine>, acts: seq<Act>, k: nat, u: UserId)
    requires IsSchedule(ttl, tr, acts) && k < |acts| && Removes(tr, acts, k, u)
    ensures tr[k + 1].Members(u) == tr[k].Members(u) && u !in tr[k + 1].st.online
  {
    assert ActsAt(ttl, tr, acts, k);
    ActsByCommand(tr[k], acts[k], ttl);
    RemovalKeepsSessions(tr[k].st, ttl, u);
  }

  lemma {:induction false} EmptyRemovalsKeepOnline(ttl: nat, tr: seq<Machine>, acts: seq<Act>, n: nat, u: UserId)
    requires IsSchedule(ttl, tr, acts) && n < |tr| && RemovalsFindEmpty(tr, acts, n, u)
    ensures OnlineIfSessions(tr[n].st, u)
  {
    if n > 0 {
      EmptyRemovalsKeepOnline(ttl, tr, acts, n - 1, u);
      StepKeepsOnline(ttl, tr, acts, n - 1, u);
    }
  }

  /** A user is online whenever they have sessions, up to state `n`, iff each removal before found no sessions. */
  lemma OnlineIffRemovalsFindEmpty(ttl: nat, tr: seq<Machine>, acts: seq<Act>, n: nat, u: UserId)
    requires IsSchedule(ttl, tr, acts) && n < |tr|
    ensures (forall k: nat | k <= n :: OnlineIfSessions(tr[k].st, u)) <==> RemovalsFindEmpty(tr, acts, n, u)
  {
    if RemovalsFindEmpty(tr, acts, n, u) {
      forall k: nat | k <= n
        ensures OnlineIfSessions(tr[k].st, u)
      {
        EmptyRemovalsKeepOnline(ttl, tr, acts, k, u);
      }
    }
    if forall k: nat | k <= n :: OnlineIfSessions(tr[k].st, u) {
      forall k: nat | k < n && Removes(tr, acts, k, u)
        ensures tr[k].Members(u) == {}
      {
        RemovalTakesOffline(ttl, tr, acts, k, u);
        assert OnlineIfSessions(tr[k + 1].st, u);
      }
    }
  }

  /** Between reading that the user has no sessions and removing them from the online set. */
  predicate AboutToRemove(t: Thread, u: UserId) {
    t == SweepOffline(u) || t == UserRepair(u)
  }

  /** Before state `n` no connect script of `u` runs while some thread is about to remove `u`. */
  ghost predicate NoConnectInWindow(tr: seq<Machine>, acts: seq<Act>, n: nat, u: UserId)
    requires n <= |acts| < |tr|
  {
    forall k: nat | k < n :: ConnectsOutsideWindow(tr[k], acts[k], u)
  }

  ghost predicate ConnectsOutsideWindow(m: Machine, a: Act, u: UserId) {
    CommandIn(m, a).EvalConnect? && CommandIn(m, a).u == u ==>
      forall id | id in m.threads :: !AboutToRemove(m.threads[id], u)
  }

  predicate WindowOk(st: Store, t: Thread) {
    t.SweepOffline? || t.UserRepair? ==> st.At(t.u).members == {}
  }

  ghost predicate WindowsEmpty(m: Machine, u: UserId) {
    forall id | id in m.threads && AboutToRemove(m.threads[id], u) :: m.Members(u) == {}
  }

  lemma SweepRemovesAfterReading(t: Thread, st: Store, order: seq<SessionId>)
    ensures WindowOk(st, AfterSweep(t, st, order))
  {
  }

  lemma LeaveDoesNotRemove(t: Thread, st: Store, order: seq<SessionId>)
    ensures WindowOk(st, AfterLeave(t, st, order))
  {
    SweepRemovesAfterReading(t, st, order);
  }

  lemma RemovesAfterReading(t: Thread, st: Store, order: seq<SessionId>)
    requires t.UserList? ==> Lists(order, st.At(t.u).members)
    ensures WindowOk(st, After(t, st, order))
  {
    LeaveDoesNotRemove(t, st, order);
  }

  /** Only a connect adds to a session set. */
  lemma EmptyStaysEmpty(a: Store, c: Command, ttl: nat, u: UserId)
    requires a.At(u).members == {} && !(c.EvalConnect? && c.u == u)
    ensures Effect(a, c, ttl).At(u).members == {}
  {
  }

  /** A connect script is not followed by a removal. */
  lemma ConnectOpensNoWindow(t: Thread, st: Store, order: seq<SessionId>, u: UserId)
    requires t.ConnectScript?
    ensures !AboutToRemove(After(t, st, order), u)
  {
  }

  lemma RunKeepsWindowsEmpty(m: Machine, id: nat, order: seq<SessionId>, ttl: nat, u: UserId)
    requires id in m.threads && CanRun(m, m.threads[id], order) && WindowsEmpty(m, u)
    requires ConnectsOutsideWindow(m, Run(id, order), u)
    ensures WindowsEmpty(Ran(m, id, m.threads[id], order, ttl), u)
  {
    var t := m.threads[id];
    var c := CommandOf(t);
    var y := Ran(m, id, t, order, ttl);
    RemovesAfterReading(t, m.st, order);
    OnlyConnectsConnect(t);
    if t.ConnectScript? {
      ConnectOpensNoWindow(t, m.st, order, u);
    }
    forall k | k in y.threads && AboutToRemove(y.threads[k], u)
      ensures y.Members(u) == {}
    {
      assert m.Members(u) == {};
      EmptyStaysEmpty(m.st, c, ttl, u);
    }
  }

  lemma ActKeepsWindowsEmpty(m: Machine, a: Act, ttl: nat, u: UserId)
    requires CanAct(m, a) && WindowsEmpty(m, u) && ConnectsOutsideWindow(m, a, u)
    ensures WindowsEmpty(Acted(m, a, ttl), u)
  {
    match a
    case Run(id, order) => RunKeepsWindowsEmpty(m, id, order, ttl, u);
    case Tick(ms) => assert Acted(m, a, ttl).Members(u) == m.Members(u);
    case Spawn(id, t) => assert forall k | k in m.threads && AboutToRemove(m.threads[k], u) :: m.Members(u) == {};
  }

  lemma {:induction false} WindowsStayEmpty(ttl: nat, tr: seq<Machine>, acts: seq<Act>, n: nat, u: UserId)
    requires IsSchedule(ttl, tr, acts) && n < |tr| && NoConnectInWindow(tr, acts, n, u)
    ensures WindowsEmpty(tr[n], u)
  {
    if n > 0 {
      WindowsStayEmpty(ttl, tr, acts, n - 1, u);
      assert ActsAt(ttl, tr, acts, n - 1);
      assert ConnectsOutsideWindow(tr[n - 1], acts[n - 1], u);
      ActKeepsWindowsEmpty(tr[n - 1], acts[n - 1], ttl, u);
    }
  }

  lemma RemovesInWindow(t: Thread, u: UserId)
    requires CommandOf(t) == SRemOnline(u)
    ensures AboutToRemove(t, u)
  {
  }

  /** Without a connect of theirs in such a window so far, users with sessions are online, whatever others do. */
  lemma OnlineWithoutConnectInWindow(ttl: nat, tr: seq<Machine>, acts: seq<Act>, n: nat, u: UserId)
    requires IsSchedule(ttl, tr, acts) && n < |tr| && NoConnectInWindow(tr, acts, n, u)
    ensures OnlineIfSessions(tr[n].st, u)
  {
    forall k: nat | k < n && Removes(tr, acts, k, u)
      ensures tr[k].Members(u) == {}
    {
      WindowsStayEmpty(ttl, tr, acts, k, u);
      RemovesInWindow(tr[k].threads[acts[k].id], u);
    }
    EmptyRemovalsKeepOnline(ttl, tr, acts, n, u);
  }

  // ----- A connect in the window loses the user -----

  /** A schedule that goes on with one more act. */
  lemma Longer(ttl: nat, tr: seq<Machine>, acts: seq<Act>, a: Act) returns (tr': seq<Machine>, acts': seq<Act>)
    requires IsSchedule(ttl, tr, acts) && CanAct(tr[|acts|], a)
    ensures acts' == acts + [a] && IsSchedule(ttl, tr', acts')
    ensures tr'[|acts|] == tr[|acts|] && tr'[|acts'|] == Acted(tr[|acts|], a, ttl)
  {
    tr', acts' := tr + [Acted(tr[|acts|], a, ttl)], acts + [a];
    forall i: nat | i < |acts'|
      ensures ActsAt(ttl, tr', acts', i)
    {
      assert i < |acts| ==> ActsAt(ttl, tr, acts, i);
    }
  }

  lemma LateRemovalLoses(m: Machine, id: nat, ttl: nat, u: UserId)
    requires id in m.threads && AboutToRemove(m.threads[id], u) && m.Members(u) != {}
    ensures CanAct(m, Run(id, []))
    ensures !OnlineIfSessions(Acted(m, Run(id, []), ttl).st, u)
  {
    RemovalKeepsSessions(m.st, ttl, u);
  }

  /** From any state with an open window: a new session connects, then the removal takes its user offline. */
  lemma ConnectInWindowLosesUser(
    ttl: nat, tr: seq<Machine>, acts: seq<Act>, id: nat, id': nat, u: UserId, s: SessionId)
    returns (tr': seq<Machine>, acts': seq<Act>)
    requires IsSchedule(ttl, tr, acts)
    requires var m := tr[|acts|];
             id in m.threads && AboutToRemove(m.threads[id], u) && id' !in m.threads && s !in m.owner
    ensures IsSchedule(ttl, tr', acts') && !OnlineIfSessions(tr'[|acts'|].st, u)
  {
    var t := ConnectScript(u, s, "", false);
    var m := tr[|acts|];
    tr', acts' := Longer(ttl, tr, acts, Spawn(id', t));
    var m1 := m.(threads := m.threads[id' := t]);
    tr', acts' := Longer(ttl, tr', acts', Run(id', []));
    var m2 := Ran(m1, id', t, [], ttl);
    assert m2.threads[id] == m.threads[id];
    assert s in m2.Members(u);
    LateRemovalLoses(m2, id, ttl, u);
    tr', acts' := Longer(ttl, tr', acts', Run(id, []));
  }

  /** It happens: a disconnect request for an offline user races with that user's first connect. */
  lemma OnlineCanMissAUser(ttl: nat) returns (tr: seq<Machine>, acts: seq<Act>)
    ensures IsSchedule(ttl, tr, acts) && !OnlineIfSessions(tr[|acts|].st, "u")
  {
    tr, acts := [BOOT], [];
    tr, acts := Longer(ttl, tr, acts, Spawn(0, UserList("u")));
    var m := BOOT.(threads := map[0 := UserList("u")]);
    assert tr[|acts|] == m;
    assert Lists([], m.Members("u"));
    tr, acts := Longer(ttl, tr, acts, Run(0, []));
    assert tr[|acts|].threads[0] == UserRepair("u");
    tr, acts := ConnectInWindowLosesUser(ttl, tr, acts, 0, 1, "u", "s");
  }

  lemma CommandKeepsLost(a: Store, c: Command, ttl: nat, u: UserId)
    requires a.At(u).members != {} && u !in a.online && Effect(a, c, ttl).At(u).members != {}
    requires c.EvalConnect? && c.u == u ==> c.s !in a.At(u).members
    ensures u !in Effect(a, c, ttl).online
  {
    if c.EvalConnect? && c.u == u {
      assert |a.At(u).members + {c.s}| == |a.At(u).members| + 1;
    }
  }

  /** A connect script is about a session nobody lists yet. */
  lemma ConnectIsFresh(m: Machine, a: Act, u: UserId)
    requires MachineOk(m) && CanAct(m, a) && CommandIn(m, a).EvalConnect?
    ensures CommandIn(m, a).s !in m.Members(u)
  {
    assert MembersIssued(m.st.At(u), m.owner, u);
    OnlyConnectsConnect(m.threads[a.id]);
  }

  lemma StepByCommand(ttl: nat, tr: seq<Machine>, acts: seq<Act>, i: nat, u: UserId)
    requires IsSchedule(ttl, tr, acts) && i < |acts|
    ensures var a, b, c := tr[i].st, tr[i + 1].st, CommandIn(tr[i], acts[i]);
            && b.users == Effect(a, c, ttl).users && b.online == Effect(a, c, ttl).online
            && (c.EvalConnect? ==> c.s !in a.At(u).members)
  {
    ScheduleIsOk(ttl, tr, acts, i);
    assert ActsAt(ttl, tr, acts, i);
    ActsByCommand(tr[i], acts[i], ttl);
    if CommandIn(tr[i], acts[i]).EvalConnect? {
      ConnectIsFresh(tr[i], acts[i], u);
    }
  }

  /** A lost user stays off the online set, unseen by every sweep, until the last session is gone. */
  lemma {:induction false} LostUserStaysLost(
    ttl: nat, tr: seq<Machine>, acts: seq<Act>, i: nat, j: nat, u: UserId)
    requires IsSchedule(ttl, tr, acts) && i <= j < |tr| && !OnlineIfSessions(tr[i].st, u)
    requires forall k | i <= k <= j :: tr[k].Members(u) != {}
    ensures !OnlineIfSessions(tr[j].st, u)
    decreases j
  {
    if i < j {
      LostUserStaysLost(ttl, tr, acts, i, j - 1, u);
      StepByCommand(ttl, tr, acts, j - 1, u);
      CommandKeepsLost(tr[j - 1].st, CommandIn(tr[j - 1], acts[j - 1]), ttl, u);
    }
  }

  /** Step `k` removes `u`, who has sessions then and in every state up to `n`. */
  ghost predicate RemovedWithSessions(tr: seq<Machine>, acts: seq<Act>, k: nat, n: nat, u: UserId)
    requires k < |acts| < |tr| && n < |tr|
  {
    Removes(tr, acts, k, u) && k < n && forall m: nat | k <= m <= n :: tr[m].Members(u) != {}
  }

  lemma RemovedIsLost(ttl: nat, tr: seq<Machine>, acts: seq<Act>, k: nat, n: nat, u: UserId)
    requires IsSchedule(ttl, tr, acts) && k < |acts| && n < |tr| && RemovedWithSessions(tr, acts, k, n, u)
    ensures !OnlineIfSessions(tr[n].st, u)
  {
    RemovalTakesOffline(ttl, tr, acts, k, u);
    LostUserStaysLost(ttl, tr, acts, k + 1, n, u);
  }

  lemma {:induction false} LostWasRemoved(ttl: nat, tr: seq<Machine>, acts: seq<Act>, n: nat, u: UserId)
    returns (k: nat)
    requires IsSchedule(ttl, tr, acts) && n < |tr| && !OnlineIfSessions(tr[n].st, u)
    ensures k < |acts| && RemovedWithSessions(tr, acts, k, n, u)
  {
    if n == 0 {
      assert false;
    } else if OnlineIfSessions(tr[n - 1].st, u) {
      k := n - 1;
      if !(Removes(tr, acts, k, u) && tr[k].Members(u) != {}) {
        StepKeepsOnline(ttl, tr, acts, k, u);
      }
    } else {
      k := LostWasRemoved(ttl, tr, acts, n - 1, u);
    }
  }

  /**
    In any state a user has sessions without being online iff a removal hit them while they had
    sessions, and they have had some ever since.
  */
  lemma LostIffRemovedWithSessions(ttl: nat, tr: seq<Machine>, acts: seq<Act>, n: nat, u: UserId)
    requires IsSchedule(ttl, tr, acts) && n < |tr|
    ensures !OnlineIfSessions(tr[n].st, u)
            <==> exists k: nat :: k < |acts| && RemovedWithSessions(tr, acts, k, n, u)
  {
    if !OnlineIfSessions(tr[n].st, u) {
      var k := LostWasRemoved(ttl, tr, acts, n, u);
    }
    if k: nat :| k < |acts| && RemovedWithSessions(tr, acts, k, n, u) {
      RemovedIsLost(ttl, tr, acts, k, n, u);
    }
  }

  // ----- The scopes index -----

  predicate IndexedIfOnline(st: Store) {
    st.online != {} ==> st.indexed
  }

  lemma CommandKeepsIndexed(a: Store, c: Command, ttl: nat)
    requires IndexedIfOnline(a) && (c == SRemScope ==> a.online == {})
    ensures IndexedIfOnline(Effect(a, c, ttl))
  {
  }

  /** Step `k` takes the scope off the index. */
  predicate Drops(tr: seq<Machine>, acts: seq<Act>, k: nat)
    requires k < |acts| < |tr|
  {
    CommandIn(tr[k], acts[k]) == SRemScope
  }

  /** Before state `n` the scope is taken off the index only while nobody is online. */
  ghost predicate DropsFindEmpty(tr: seq<Machine>, acts: seq<Act>, n: nat)
    requires n <= |acts| < |tr|
  {
    forall k: nat | k < n && Drops(tr, acts, k) :: tr[k].st.online == {}
  }

  lemma StepKeepsIndexed(ttl: nat, tr: seq<Machine>, acts: seq<Act>, k: nat)
    requires IsSchedule(ttl, tr, acts) && k < |acts| && IndexedIfOnline(tr[k].st)
    requires Drops(tr, acts, k) ==> tr[k].st.online == {}
    ensures IndexedIfOnline(tr[k + 1].st)
  {
    assert ActsAt(ttl, tr, acts, k);
    ActsByCommand(tr[k], acts[k], ttl);
    CommandKeepsIndexed(tr[k].st, CommandIn(tr[k], acts[k]), ttl);
  }

  lemma DropTakesOff(ttl: nat, tr: seq<Machine>, acts: seq<Act>, k: nat)
    requires IsSchedule(ttl, tr, acts) && k < |acts| && Drops(tr, acts, k)
    ensures tr[k + 1].st.online == tr[k].st.online && !tr[k + 1].st.indexed
  {
    assert ActsAt(ttl, tr, acts, k);
    ActsByCommand(tr[k], acts[k], ttl);
  }

  lemma {:induction false} EmptyDropsKeepIndexed(ttl: nat, tr: seq<Machine>, acts: seq<Act>, n: nat)
    requires IsSchedule(ttl, tr, acts) && n < |tr| && DropsFindEmpty(tr, acts, n)
    ensures IndexedIfOnline(tr[n].st)
  {
    if n > 0 {
      EmptyDropsKeepIndexed(ttl, tr, acts, n - 1);
      StepKeepsIndexed(ttl, tr, acts, n - 1);
    }
  }

  /** Up to state `n` the scope is indexed whenever somebody is online iff each drop before found nobody. */
  lemma IndexedIffDropsFindEmpty(ttl: nat, tr: seq<Machine>, acts: seq<Act>, n: nat)
    requires IsSchedule(ttl, tr, acts) && n < |tr|
    ensures (forall k: nat | k <= n :: IndexedIfOnline(tr[k].st)) <==> DropsFindEmpty(tr, acts, n)
  {
    if DropsFindEmpty(tr, acts, n) {
      forall k: nat | k <= n
        ensures IndexedIfOnline(tr[k].st)
      {
        EmptyDropsKeepIndexed(ttl, tr, acts, k);
      }
    }
    if forall k: nat | k <= n :: IndexedIfOnline(tr[k].st) {
      forall k: nat | k < n && Drops(tr, acts, k)
        ensures tr[k].st.online == {}
      {
        DropTakesOff(ttl, tr, acts, k);
        assert IndexedIfOnline(tr[k + 1].st);
      }
    }
  }

  /** Every thread between reading that nobody is online and the drop finds nobody online. */
  ghost predicate DropsStandEmpty(m: Machine) {
    (exists id :: id in m.threads && m.threads[id] == ScopeDrop) ==> m.st.online == {}
  }

  ghost predicate ConnectsOutsideDrop(m: Machine, a: Act) {
    CommandIn(m, a).EvalConnect? ==> forall id | id in m.threads :: m.threads[id] != ScopeDrop
  }

  /** Before state `n` no connect script runs while some thread is about to drop the scope. */
  ghost predicate NoConnectBeforeDrop(tr: seq<Machine>, acts: seq<Act>, n: nat)
    requires n <= |acts| < |tr|
  {
    forall k: nat | k < n :: ConnectsOutsideDrop(tr[k], acts[k])
  }

  lemma SweepDropsNothing(t: Thread, st: Store, order: seq<SessionId>)
    ensures AfterSweep(t, st, order) != ScopeDrop
  {
  }

  lemma LeaveDropsNothing(t: Thread, st: Store, order: seq<SessionId>)
    ensures AfterLeave(t, st, order) != ScopeDrop
  {
    SweepDropsNothing(t, st, order);
  }

  lemma DropsAfterReading(t: Thread, st: Store, order: seq<SessionId>)
    requires After(t, st, order) == ScopeDrop
    ensures t == ScopeCount && st.online == {}
  {
    LeaveDropsNothing(t, st, order);
  }

  /** Only a connect brings somebody online. */
  lemma OfflineStaysOffline(a: Store, c: Command, ttl: nat)
    requires a.online == {} && !c.EvalConnect?
    ensures Effect(a, c, ttl).online == {}
  {
  }

  lemma RunKeepsDropsEmpty(m: Machine, id: nat, order: seq<SessionId>, ttl: nat)
    requires id in m.threads && CanRun(m, m.threads[id], order) && DropsStandEmpty(m)
    requires ConnectsOutsideDrop(m, Run(id, order))
    ensures DropsStandEmpty(Ran(m, id, m.threads[id], order, ttl))
  {
    var t := m.threads[id];
    var y := Ran(m, id, t, order, ttl);
    if k :| k in y.threads && y.threads[k] == ScopeDrop {
      if k == id {
        DropsAfterReading(t, m.st, order);
      }
      OfflineStaysOffline(m.st, CommandOf(t), ttl);
    }
  }

  lemma ActKeepsDropsEmpty(m: Machine, a: Act, ttl: nat)
    requires CanAct(m, a) && DropsStandEmpty(m) && ConnectsOutsideDrop(m, a)
    ensures DropsStandEmpty(Acted(m, a, ttl))
  {
    match a
    case Run(id, order) => RunKeepsDropsEmpty(m, id, order, ttl);
    case Tick(_) =>
    case Spawn(id, t) =>
      var y := Acted(m, a, ttl);
      if k :| k in y.threads && y.threads[k] == ScopeDrop {
        assert k in m.threads && m.threads[k] == ScopeDrop;
      }
  }

  lemma {:induction false} DropsStayEmpty(ttl: nat, tr: seq<Machine>, acts: seq<Act>, n: nat)
    requires IsSchedule(ttl, tr, acts) && n < |tr| && NoConnectBeforeDrop(tr, acts, n)
    ensures DropsStandEmpty(tr[n])
  {
    if n > 0 {
      DropsStayEmpty(ttl, tr, acts, n - 1);
      assert ActsAt(ttl, tr, acts, n - 1);
      assert ConnectsOutsideDrop(tr[n - 1], acts[n - 1]);
      ActKeepsDropsEmpty(tr[n - 1], acts[n - 1], ttl);
    }
  }

  lemma DropsInWindow(t: Thread)
    requires CommandOf(t) == SRemScope
    ensures t == ScopeDrop
  {
  }

  /** Without a connect in such a window so far, a scope with online users is indexed. */
  lemma IndexedWithoutConnectBeforeDrop(ttl: nat, tr: seq<Machine>, acts: seq<Act>, n: nat)
    requires IsSchedule(ttl, tr, acts) && n < |tr| && NoConnectBeforeDrop(tr, acts, n)
    ensures IndexedIfOnline(tr[n].st)
  {
    forall k: nat | k < n && Drops(tr, acts, k)
      ensures tr[k].st.online == {}
    {
      DropsStayEmpty(ttl, tr, acts, k);
      DropsInWindow(tr[k].threads[acts[k].id]);
    }
    EmptyDropsKeepIndexed(ttl, tr, acts, n);
  }

  lemma CursorIsReset(ttl: nat)
    ensures Ran(Machine(EMPTY, map[0 := ScanEnd], map[]), 0, ScanEnd, [], ttl)
            == Machine(EMPTY, map[0 := ScopeCount], map[])
  {
  }

  lemma NobodyIsCounted(ttl: nat)
    ensures Ran(Machine(EMPTY, map[0 := ScopeCount], map[]), 0, ScopeCount, [], ttl)
            == Machine(EMPTY, map[0 := ScopeDrop], map[])
  {
  }

  /** A scan of an empty scope has counted nobody online and is about to drop the scope. */
  lemma ScanIsAboutToDrop(ttl: nat) returns (tr: seq<Machine>, acts: seq<Act>)
    ensures IsSchedule(ttl, tr, acts) && tr[|acts|] == Machine(EMPTY, map[0 := ScopeDrop], map[])
  {
    tr, acts := [BOOT], [];
    tr, acts := Longer(ttl, tr, acts, Spawn(0, ScanEnd));
    assert tr[|acts|] == Machine(EMPTY, map[0 := ScanEnd], map[]);
    CursorIsReset(ttl);
    tr, acts := Longer(ttl, tr, acts, Run(0, []));
    NobodyIsCounted(ttl);
    tr, acts := Longer(ttl, tr, acts, Run(0, []));
  }

  lemma LateDropMisses(m: Machine, id: nat, ttl: nat)
    requires id in m.threads && m.threads[id] == ScopeDrop && m.st.online != {}
    ensures CanAct(m, Run(id, [])) && !IndexedIfOnline(Acted(m, Run(id, []), ttl).st)
  {
  }

  lemma FirstConnectGoesOnline(m: Machine, id: nat, u: UserId, s: SessionId, ttl: nat)
    requires m.Members(u) == {} && s !in m.owner && id in m.threads
    requires m.threads[id] == ConnectScript(u, s, "", false)
    ensures CanAct(m, Run(id, []))
    ensures var y := Acted(m, Run(id, []), ttl);
            u in y.st.online && forall k | k in m.threads && k != id :: k in y.threads && y.threads[k] == m.threads[k]
  {
    assert m.st.At(u).Join(s).members == {s};
  }

  /** It happens: the scan of an empty scope ends while the first user connects, and the scope is lost. */
  lemma IndexCanMissAScope(ttl: nat) returns (tr: seq<Machine>, acts: seq<Act>)
    ensures IsSchedule(ttl, tr, acts) && !IndexedIfOnline(tr[|acts|].st)
  {
    tr, acts := ScanIsAboutToDrop(ttl);
    var t := ConnectScript("u", "s", "", false);
    tr, acts := Longer(ttl, tr, acts, Spawn(1, t));
    var m := Machine(EMPTY, map[0 := ScopeDrop, 1 := t], map[]);
    assert tr[|acts|] == m;
    FirstConnectGoesOnline(m, 1, "u", "s", ttl);
    tr, acts := Longer(ttl, tr, acts, Run(1, []));
    LateDropMisses(tr[|acts|], 0, ttl);
    tr, acts := Longer(ttl, tr, acts, Run(0, []));
  }

  // ----- Versions -----

  lemma CommandsBumpByOne(a: Store, c: Command, ttl: nat, u: UserId)
    ensures var b := Effect(a, c, ttl); a.At(u).version <= b.At(u).version <= a.At(u).version + 1
  {
  }

  /** Every version stays or grows by one. */
  ghost predicate VersionsStep(a: Store, b: Store) {
    forall u :: a.At(u).version <= b.At(u).version <= a.At(u).version + 1
  }

  ghost predicate VersionsGrow(tr: seq<Machine>) {
    forall i | 0 < i < |tr| :: VersionsStep(tr[i - 1].st, tr[i].st)
  }

  lemma ScheduleGrowsVersions(ttl: nat, tr: seq<Machine>, acts: seq<Act>)
    requires IsSchedule(ttl, tr, acts)
    ensures VersionsGrow(tr)
  {
    forall i | 0 < i < |tr|
      ensures VersionsStep(tr[i - 1].st, tr[i].st)
    {
      var c := CommandIn(tr[i - 1], acts[i - 1]);
      assert ActsAt(ttl, tr, acts, i - 1);
      ActsByCommand(tr[i - 1], acts[i - 1], ttl);
      forall u
        ensures tr[i - 1].st.At(u).version <= tr[i].st.At(u).version <= tr[i - 1].st.At(u).version + 1
      {
        CommandsBumpByOne(tr[i - 1].st, c, ttl, u);
      }
    }
  }

  lemma {:induction false} GrowingNeverDecreases(tr: seq<Machine>, i: nat, j: nat, u: UserId)
    requires VersionsGrow(tr) && i <= j < |tr|
    ensures tr[i].st.At(u).version <= tr[j].st.At(u).version
    decreases j
  {
    if i < j {
      GrowingNeverDecreases(tr, i, j - 1, u);
      assert VersionsStep(tr[j - 1].st, tr[j].st);
    }
  }

  /** In every interleaving a user's version never decreases. */
  lemma VersionsNeverDecrease(ttl: nat, tr: seq<Machine>, acts: seq<Act>, i: nat, j: nat, u: UserId)
    requires IsSchedule(ttl, tr, acts) && i <= j < |tr|
    ensures tr[i].st.At(u).version <= tr[j].st.At(u).version
  {
    ScheduleGrowsVersions(ttl, tr, acts);
    GrowingNeverDecreases(tr, i, j, u);
  }

  /** Step `i` raises the version of `u`; the operation gets the new one as its reply. */
  predicate Bumps(tr: seq<Machine>, i: nat, u: UserId)
    requires i + 1 < |tr|
  {
    tr[i].st.At(u).version != tr[i + 1].st.At(u).version
  }

  /** No two bumps, by whatever operations, obtain the same version, and no version is skipped. */
  lemma BumpsObtainDistinctVersions(ttl: nat, tr: seq<Machine>, acts: seq<Act>, i: nat, j: nat, u: UserId)
    requires IsSchedule(ttl, tr, acts) && i < j < |acts| && Bumps(tr, i, u) && Bumps(tr, j, u)
    ensures tr[i + 1].st.At(u).version == tr[i].st.At(u).version + 1
    ensures tr[i + 1].st.At(u).version < tr[j + 1].st.At(u).version
  {
    ScheduleGrowsVersions(ttl, tr, acts);
    GrowingNeverDecreases(tr, i + 1, j, u);
    assert VersionsStep(tr[i + 1 - 1].st, tr[i + 1].st);
    assert VersionsStep(tr[j + 1 - 1].st, tr[j + 1].st);
  }
}
