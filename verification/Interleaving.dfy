/**
  Every interleaving of the presence operations, command by command (see module Threads): any
  number of threads, the clock advancing between any two commands, and nothing atomic but
  Lua scripts and single Redis commands.
*/
module Interleaving {
  import opened Base
  import opened Store
  import opened Threads

  /** `owner` is the user each session id was issued to. */
  datatype Machine = Machine(st: Store, threads: map<nat, Thread>, owner: map<SessionId, UserId>) {
    function Members(u: UserId): set<SessionId> {
      st.At(u).members
    }
  }

  const BOOT := Machine(EMPTY, map[], map[])

  datatype Act =
    | Tick(ms: nat)
    | Spawn(id: nat, t: Thread)
    | Run(id: nat, order: seq<SessionId>)

  /** Session ids are fresh UUIDs; SMEMBERS lists the set in some order. */
  ghost predicate CanRun(m: Machine, t: Thread, order: seq<SessionId>) {
    && t != Done
    && (t.ConnectScript? ==> t.s !in m.owner)
    && (t.UserList? || t.SweepList? ==> Lists(order, m.Members(t.u)))
  }

  ghost predicate CanAct(m: Machine, a: Act) {
    match a
    case Tick(_) => true
    case Spawn(id, t) => id !in m.threads && IsStart(t)
    case Run(id, order) => id in m.threads && CanRun(m, m.threads[id], order)
  }

  function Ran(m: Machine, id: nat, t: Thread, order: seq<SessionId>, ttl: nat): Machine {
    Machine(Effect(m.st, CommandOf(t), ttl),
            m.threads[id := After(t, m.st, order)],
            OwnerAfter(m.owner, CommandOf(t)))
  }

  function OwnerAfter(owner: map<SessionId, UserId>, c: Command): map<SessionId, UserId> {
    if c.EvalConnect? then owner[c.s := c.u] else owner
  }

  ghost function Acted(m: Machine, a: Act, ttl: nat): Machine
    requires CanAct(m, a)
  {
    match a
    case Tick(ms) => m.(st := m.st.(now := m.st.now + ms))
    case Spawn(id, t) => m.(threads := m.threads[id := t])
    case Run(id, order) => Ran(m, id, m.threads[id], order, ttl)
  }

  ghost predicate ActsAt(ttl: nat, tr: seq<Machine>, acts: seq<Act>, i: nat)
    requires i < |acts| && |tr| == |acts| + 1
  {
    CanAct(tr[i], acts[i]) && tr[i + 1] == Acted(tr[i], acts[i], ttl)
  }

  /** `tr` is the sequence of states the acts lead through. */
  ghost predicate IsSchedule(ttl: nat, tr: seq<Machine>, acts: seq<Act>) {
    && |tr| == |acts| + 1
    && tr[0] == BOOT
    && (forall i: nat | i < |acts| :: ActsAt(ttl, tr, acts, i))
  }

  // ----- The invariant -----

  /** A live session is its owner's and listed there, and nobody lists a session of someone else. */
  ghost predicate SessionsOk(st: Store, owner: map<SessionId, UserId>) {
    && (forall s | st.Live(s) :: s in owner && st.sessions[s].user == owner[s] && s in st.At(owner[s]).members)
    && (forall u :: MembersIssued(st.At(u), owner, u))
  }

  predicate MembersIssued(r: User, owner: map<SessionId, UserId>, u: UserId) {
    forall s | s in r.members :: s in owner && owner[s] == u
  }

  predicate Issued(owner: map<SessionId, UserId>, order: seq<SessionId>) {
    forall s | s in order :: s in owner
  }

  /** What a thread knows: the sessions it was given exist, and the one it prunes has expired. */
  predicate ThreadOk(st: Store, owner: map<SessionId, UserId>, t: Thread) {
    match t
    case SweepExists(_, s, rest, _) => s in owner && Issued(owner, rest)
    case SweepRem(_, s, rest) => s in owner && !st.Live(s) && Issued(owner, rest)
    case SweepDel(_, _, rest) => Issued(owner, rest)
    case _ => true
  }

  ghost predicate MachineOk(m: Machine) {
    && SessionsOk(m.st, m.owner)
    && (forall id | id in m.threads :: ThreadOk(m.st, m.owner, m.threads[id]))
  }

  /** Session ids stay issued, and an expired or deleted session never comes back. */
  ghost predicate Ages(a: Store, owner: map<SessionId, UserId>, b: Store, owner': map<SessionId, UserId>) {
    forall s | s in owner ::
      && s in owner' && owner'[s] == owner[s]
      && (b.Live(s) ==> a.Live(s))
  }

  // ----- Commands keep the invariant -----

  /** Session sets only gain sessions that have been issued. */
  lemma MembersStayIssued(a: Store, owner: map<SessionId, UserId>, b: Store, owner': map<SessionId, UserId>)
    requires SessionsOk(a, owner) && Ages(a, owner, b, owner')
    requires forall u :: b.At(u).members <= a.At(u).members || MembersIssued(b.At(u), owner', u)
    ensures forall u :: MembersIssued(b.At(u), owner', u)
  {
    forall u
      ensures MembersIssued(b.At(u), owner', u)
    {
      assert MembersIssued(a.At(u), owner, u);
    }
  }

  lemma ConnectKeepsSessions(a: Store, owner: map<SessionId, UserId>, u: UserId, s: SessionId,
                             device: string, ttl: nat)
    requires SessionsOk(a, owner) && s !in owner
    ensures SessionsOk(a.Connect(u, s, device, ttl), owner[s := u])
    ensures Ages(a, owner, a.Connect(u, s, device, ttl), owner[s := u])
  {
    assert MembersIssued(a.At(u), owner, u);
    MembersStayIssued(a, owner, a.Connect(u, s, device, ttl), owner[s := u]);
  }

  lemma HeartbeatKeepsSessions(a: Store, owner: map<SessionId, UserId>, s: SessionId, ttl: nat)
    requires SessionsOk(a, owner)
    ensures SessionsOk(a.Extend(s, ttl), owner) && Ages(a, owner, a.Extend(s, ttl), owner)
  {
    var b := a.Extend(s, ttl);
    assert forall k | b.Live(k) :: a.Live(k);
    MembersStayIssued(a, owner, b, owner);
  }

  lemma DisconnectKeepsSessions(a: Store, owner: map<SessionId, UserId>, u: UserId, s: SessionId)
    requires SessionsOk(a, owner)
    ensures SessionsOk(a.Disconnect(u, s), owner) && Ages(a, owner, a.Disconnect(u, s), owner)
  {
    MembersStayIssued(a, owner, a.Disconnect(u, s), owner);
  }

  /** SREM is safe for a session that has expired. */
  lemma SRemKeepsSessions(a: Store, owner: map<SessionId, UserId>, u: UserId, s: SessionId, ttl: nat)
    requires SessionsOk(a, owner) && !a.Live(s)
    ensures var b := Effect(a, SRem(u, s), ttl); SessionsOk(b, owner) && Ages(a, owner, b, owner)
  {
    MembersStayIssued(a, owner, Effect(a, SRem(u, s), ttl), owner);
  }

  predicate TouchesSessions(c: Command) {
    c.EvalConnect? || c.EvalHeartbeat? || c.EvalDisconnect? || c.SRem?
  }

  ghost predicate SameSessions(a: Store, b: Store) {
    b.sessions == a.sessions && b.now == a.now && forall u :: b.At(u).members == a.At(u).members
  }

  lemma OthersKeepSessions(a: Store, c: Command, ttl: nat)
    requires !TouchesSessions(c)
    ensures SameSessions(a, Effect(a, c, ttl))
  {
  }

  lemma SameSessionsOk(a: Store, b: Store, owner: map<SessionId, UserId>)
    requires SessionsOk(a, owner) && SameSessions(a, b)
    ensures SessionsOk(b, owner) && Ages(a, owner, b, owner)
  {
    assert forall s :: b.Live(s) == a.Live(s);
    MembersStayIssued(a, owner, b, owner);
  }

  lemma CommandKeepsSessions(a: Store, owner: map<SessionId, UserId>, c: Command, ttl: nat)
    requires SessionsOk(a, owner)
    requires c.EvalConnect? ==> c.s !in owner
    requires c.SRem? ==> !a.Live(c.s)
    ensures var b, owner' := Effect(a, c, ttl), OwnerAfter(owner, c);
            SessionsOk(b, owner') && Ages(a, owner, b, owner')
  {
    match c
    case EvalConnect(u, s, device) => ConnectKeepsSessions(a, owner, u, s, device, ttl);
    case EvalHeartbeat(s) => HeartbeatKeepsSessions(a, owner, s, ttl);
    case EvalDisconnect(u, s) => DisconnectKeepsSessions(a, owner, u, s);
    case SRem(u, s) => SRemKeepsSessions(a, owner, u, s, ttl);
    case _ =>
      OthersKeepSessions(a, c, ttl);
      SameSessionsOk(a, Effect(a, c, ttl), owner);
  }

  // ----- Threads keep what they know -----

  predicate Sweeping(t: Thread) {
    t.SweepList? || t.SweepExists? || t.SweepRem? || t.SweepDel?
  }

  lemma SweepingGoesOn(a: Store, owner: map<SessionId, UserId>, t: Thread, order: seq<SessionId>)
    requires Sweeping(t) && ThreadOk(a, owner, t)
    requires t.SweepList? ==> Issued(owner, order)
    ensures ThreadOk(a, owner, After(t, a, order))
  {
  }

  predicate MidSweep(t: Thread) {
    t.SweepExists? || t.SweepRem? || t.SweepDel?
  }

  lemma SweepsOnlyFromSweep(t: Thread, st: Store, order: seq<SessionId>)
    requires !Sweeping(t)
    ensures !MidSweep(AfterSweep(t, st, order))
  {
  }

  lemma LeaveDoesNotSweep(t: Thread, st: Store, order: seq<SessionId>)
    requires !Sweeping(t)
    ensures !MidSweep(AfterLeave(t, st, order))
  {
    SweepsOnlyFromSweep(t, st, order);
  }

  lemma OthersDoNotSweep(t: Thread, st: Store, order: seq<SessionId>)
    requires !Sweeping(t)
    ensures !MidSweep(After(t, st, order))
  {
    LeaveDoesNotSweep(t, st, order);
  }

  lemma ThreadAges(a: Store, owner: map<SessionId, UserId>, b: Store, owner': map<SessionId, UserId>, t: Thread)
    requires ThreadOk(a, owner, t) && Ages(a, owner, b, owner')
    ensures ThreadOk(b, owner', t)
  {
  }

  lemma MovesKeepOk(m: Machine, y: Machine, id: nat, t: Thread)
    requires MachineOk(m) && SessionsOk(y.st, y.owner) && Ages(m.st, m.owner, y.st, y.owner)
    requires y.threads == m.threads[id := t] && ThreadOk(m.st, m.owner, t)
    ensures MachineOk(y)
  {
    forall k | k in y.threads
      ensures ThreadOk(y.st, y.owner, y.threads[k])
    {
      assert k != id ==> ThreadOk(m.st, m.owner, m.threads[k]);
      ThreadAges(m.st, m.owner, y.st, y.owner, y.threads[k]);
    }
  }

  lemma OnlyConnectsConnect(t: Thread)
    ensures CommandOf(t).EvalConnect? ==> t.ConnectScript? && CommandOf(t).s == t.s && CommandOf(t).u == t.u
  {
  }

  lemma OnlySweepsPrune(t: Thread)
    ensures CommandOf(t).SRem? ==> t.SweepRem? && CommandOf(t).s == t.s
  {
  }

  lemma RunKeepsOk(m: Machine, id: nat, order: seq<SessionId>, ttl: nat)
    requires MachineOk(m) && id in m.threads && CanRun(m, m.threads[id], order)
    ensures var y := Ran(m, id, m.threads[id], order, ttl);
            MachineOk(y) && Ages(m.st, m.owner, y.st, y.owner)
  {
    var t := m.threads[id];
    assert ThreadOk(m.st, m.owner, t);
    OnlyConnectsConnect(t);
    OnlySweepsPrune(t);
    CommandKeepsSessions(m.st, m.owner, CommandOf(t), ttl);
    if Sweeping(t) {
      SweepingGoesOn(m.st, m.owner, t, order);
    } else {
      OthersDoNotSweep(t, m.st, order);
    }
    MovesKeepOk(m, Ran(m, id, t, order, ttl), id, After(t, m.st, order));
  }

  lemma TickKeepsOk(m: Machine, ms: nat)
    requires MachineOk(m)
    ensures var y := m.(st := m.st.(now := m.st.now + ms));
            MachineOk(y) && Ages(m.st, m.owner, y.st, y.owner)
  {
    var y := m.(st := m.st.(now := m.st.now + ms));
    assert forall s | y.st.Live(s) :: m.st.Live(s);
    MembersStayIssued(m.st, m.owner, y.st, y.owner);
    forall id | id in y.threads
      ensures ThreadOk(y.st, y.owner, y.threads[id])
    {
      ThreadAges(m.st, m.owner, y.st, y.owner, m.threads[id]);
    }
  }

  lemma ActKeepsOk(m: Machine, a: Act, ttl: nat)
    requires MachineOk(m) && CanAct(m, a)
    ensures var y := Acted(m, a, ttl);
            MachineOk(y) && Ages(m.st, m.owner, y.st, y.owner)
  {
    match a
    case Tick(ms) => TickKeepsOk(m, ms);
    case Spawn(id, t) => MovesKeepOk(m, Acted(m, a, ttl), id, t);
    case Run(id, order) => RunKeepsOk(m, id, order, ttl);
  }

  lemma {:induction false} ScheduleIsOk(ttl: nat, tr: seq<Machine>, acts: seq<Act>, i: nat)
    requires IsSchedule(ttl, tr, acts) && i < |tr|
    ensures MachineOk(tr[i])
  {
    if i > 0 {
      ScheduleIsOk(ttl, tr, acts, i - 1);
      assert ActsAt(ttl, tr, acts, i - 1);
      ActKeepsOk(tr[i - 1], acts[i - 1], ttl);
    }
  }
}
