/**
  The presence operations command by command: each Lua script and each single Redis command is
  one step, and an operation is a thread that keeps what it has read so far in its program counter.
*/
module Threads {
  import opened Base
  import opened Store
  import opened Presence

  // ----- Redis commands -----

  datatype Command =
    | EvalConnect(u: UserId, s: SessionId, device: string)
    | EvalHeartbeat(s: SessionId)
    | EvalDisconnect(u: UserId, s: SessionId)
    | SRem(u: UserId, s: SessionId)
    | SRemOnline(u: UserId)
    | SRemScope
    | Incr(u: UserId)
    | HSet(u: UserId, s: SessionId, status: Status)
    | HDel(u: UserId, s: SessionId)
    | SetLast(u: UserId, status: Status)
    | DelPresence(u: UserId)
    | HIncrBy(u: UserId, device: string, delta: int)
    | DelDevices(u: UserId)
    | SAddInvisible(u: UserId)
    | SRemInvisible(u: UserId)
    | SetCursor(cursor: nat)          // 0 stands for DEL
    | Read

  function Effect(st: Store, c: Command, ttl: nat): Store {
    match c
    case EvalConnect(u, s, device) => st.Connect(u, s, device, ttl)
    case EvalHeartbeat(s) => st.Extend(s, ttl)
    case EvalDisconnect(u, s) => st.Disconnect(u, s)
    case SRem(u, s) => st.Put(u, st.At(u).(members := st.At(u).members - {s}))
    case SRemOnline(u) => st.(online := st.online - {u})
    case SRemScope => st.(indexed := false)
    case Incr(u) => st.Put(u, st.At(u).(version := st.At(u).version + 1))
    case HSet(u, s, status) => st.Put(u, st.At(u).(states := st.At(u).states[s := status]))
    case HDel(u, s) => st.Put(u, st.At(u).(states := st.At(u).states - {s}))
    case SetLast(u, status) => st.Put(u, st.At(u).(lastPub := Some(status)))
    case DelPresence(u) => st.Put(u, st.At(u).(states := map[], lastPub := None))
    case HIncrBy(u, device, delta) => st.Put(u, st.At(u).AddDevice(device, delta))
    case DelDevices(u) => st.Put(u, st.At(u).(devices := map[]))
    case SAddInvisible(u) => st.(invisible := st.invisible + {u})
    case SRemInvisible(u) => st.(invisible := st.invisible - {u})
    case SetCursor(cursor) => st.(cursor := cursor)
    case Read => st
  }

  // ----- Threads -----

  /** Where an operation stands; the fields are its local variables. */
  datatype Thread =
    // Connect, followed by InitSessionPresenceOnConnect
    | ConnectScript(u: UserId, s: SessionId, device: string, hidden: bool)
    | ConnectHidden(u: UserId, s: SessionId, device: string, count: nat)
    | ConnectDevice(u: UserId, s: SessionId, device: string, count: nat)
    | InitState(u: UserId, s: SessionId, count: nat)
    | InitLast(u: UserId)
    // Heartbeat
    | BeatScript(s: SessionId)
    // Disconnect; DisconnectUser goes on with the sessions `rest`
    | LeaveGet(u: UserId, s: SessionId, rest: seq<SessionId>)
    | LeaveScript(u: UserId, s: SessionId, device: string, rest: seq<SessionId>)
    | LeaveHidden(u: UserId, rest: seq<SessionId>)
    | LeaveDevices(u: UserId, rest: seq<SessionId>)
    | LeavePresence(u: UserId, rest: seq<SessionId>)
    | LeaveDevice(u: UserId, s: SessionId, device: string, rest: seq<SessionId>)
    | LeaveState(u: UserId, s: SessionId, rest: seq<SessionId>)
    | LeaveStates(u: UserId, rest: seq<SessionId>)
    | LeaveLast(u: UserId, agg: Status, rest: seq<SessionId>)
    | LeaveSet(u: UserId, agg: Status, rest: seq<SessionId>)
    // DisconnectUser
    | UserList(u: UserId)
    | UserRepair(u: UserId)
    | UserBump(u: UserId)
    // SetSessionPresenceState, for an accepted spelling of the state
    | StateMember(u: UserId, s: SessionId, status: Status)
    | StatePut(u: UserId, s: SessionId, status: Status)
    | StateStates(u: UserId)
    | StateLast(u: UserId, agg: Status)
    | StateSet(u: UserId, agg: Status)
    | StateBump(u: UserId)
    // sweepUser
    | SweepList(u: UserId)
    | SweepExists(u: UserId, s: SessionId, rest: seq<SessionId>, pruned: bool)
    | SweepRem(u: UserId, s: SessionId, rest: seq<SessionId>)
    | SweepDel(u: UserId, s: SessionId, rest: seq<SessionId>)
    | SweepCount(u: UserId, pruned: bool)
    | SweepOffline(u: UserId)
    | SweepOfflineBump(u: UserId)
    | SweepClear(u: UserId)
    | SweepTabsBump(u: UserId, remaining: nat)
    | SweepStates(u: UserId)
    | SweepLast(u: UserId, agg: Status)
    // sweepScope: a pause, and the end of a full scan; the users of a scan are swept by threads of their own
    | ScanPause(cursor: nat)
    | ScanEnd
    | ScopeCount
    | ScopeDrop
    | Done

  /** The next command of a thread. */
  function CommandOf(t: Thread): Command {
    match t
    case ConnectScript(u, s, device, _) => EvalConnect(u, s, device)
    case ConnectHidden(u, _, _, _) => SAddInvisible(u)
    case ConnectDevice(u, _, device, _) => HIncrBy(u, device, 1)
    case InitState(u, s, _) => HSet(u, s, Active)
    case InitLast(u) => SetLast(u, Active)
    case BeatScript(s) => EvalHeartbeat(s)
    case LeaveScript(u, s, _, _) => EvalDisconnect(u, s)
    case LeaveHidden(u, _) => SRemInvisible(u)
    case LeaveDevices(u, _) => DelDevices(u)
    case LeavePresence(u, _) => DelPresence(u)
    case LeaveDevice(u, _, device, _) => HIncrBy(u, device, -1)
    case LeaveState(u, s, _) => HDel(u, s)
    case LeaveSet(u, agg, _) => SetLast(u, agg)
    case UserRepair(u) => SRemOnline(u)
    case UserBump(u) => Incr(u)
    case StatePut(u, s, status) => HSet(u, s, status)
    case StateSet(u, agg) => SetLast(u, agg)
    case StateBump(u) => Incr(u)
    case SweepRem(u, s, _) => SRem(u, s)
    case SweepDel(u, s, _) => HDel(u, s)
    case SweepOffline(u) => SRemOnline(u)
    case SweepOfflineBump(u) => Incr(u)
    case SweepClear(u) => DelPresence(u)
    case SweepTabsBump(u, _) => Incr(u)
    case SweepLast(u, agg) => SetLast(u, agg)
    case ScanPause(cursor) => SetCursor(cursor)
    case ScanEnd => SetCursor(0)
    case ScopeDrop => SRemScope
    case _ => Read
  }

  function NextLeave(u: UserId, rest: seq<SessionId>): Thread {
    if rest == [] then Done else LeaveGet(u, rest[0], rest[1..])
  }

  function NextSweep(u: UserId, rest: seq<SessionId>, pruned: bool): Thread {
    if rest == [] then SweepCount(u, pruned) else SweepExists(u, rest[0], rest[1..], pruned)
  }

  /** Where a thread stands after its command ran in state `st`; `order` is the reply of an SMEMBERS. */
  function After(t: Thread, st: Store, order: seq<SessionId>): Thread {
    match t
    case ConnectScript(u, s, device, hidden) =>
      var count := st.ConnectResult(u, s).count;
      if hidden then ConnectHidden(u, s, device, count)
      else if device != "" then ConnectDevice(u, s, device, count)
      else InitState(u, s, count)
    case ConnectHidden(u, s, device, count) =>
      if device != "" then ConnectDevice(u, s, device, count) else InitState(u, s, count)
    case ConnectDevice(u, s, _, count) => InitState(u, s, count)
    case InitState(u, _, count) => if count == 1 then InitLast(u) else Done
    case UserList(u) => if order == [] then UserRepair(u) else NextLeave(u, order)
    case UserRepair(u) => if u in st.online then UserBump(u) else Done
    case StateMember(u, s, status) => if s in st.At(u).members then StatePut(u, s, status) else Done
    case StatePut(u, _, _) => StateStates(u)
    case StateStates(u) => StateLast(u, Aggregate(st.At(u).states))
    case StateLast(u, agg) => if st.At(u).lastPub == Some(agg) then Done else StateSet(u, agg)
    case StateSet(u, _) => StateBump(u)
    case ScanEnd => ScopeCount
    case ScopeCount => if st.online == {} then ScopeDrop else Done
    case _ => AfterLeave(t, st, order)
  }

  /** The part of Disconnect. */
  function AfterLeave(t: Thread, st: Store, order: seq<SessionId>): Thread {
    match t
    case LeaveGet(u, s, rest) => LeaveScript(u, s, st.DeviceOf(s), rest)
    case LeaveScript(u, s, device, rest) =>
      if st.DisconnectResult(u, s).transition == Offline then LeaveHidden(u, rest)
      else if device != "" then LeaveDevice(u, s, device, rest)
      else LeaveState(u, s, rest)
    case LeaveHidden(u, rest) => LeaveDevices(u, rest)
    case LeaveDevices(u, rest) => LeavePresence(u, rest)
    case LeavePresence(u, rest) => NextLeave(u, rest)
    case LeaveDevice(u, s, _, rest) => LeaveState(u, s, rest)
    case LeaveState(u, _, rest) => LeaveStates(u, rest)
    case LeaveStates(u, rest) => LeaveLast(u, Aggregate(st.At(u).states), rest)
    case LeaveLast(u, agg, rest) =>
      if st.At(u).lastPub == Some(agg) then NextLeave(u, rest) else LeaveSet(u, agg, rest)
    case LeaveSet(u, _, rest) => NextLeave(u, rest)
    case _ => AfterSweep(t, st, order)
  }

  /** The part of sweepUser. */
  function AfterSweep(t: Thread, st: Store, order: seq<SessionId>): Thread {
    match t
    case SweepList(u) => NextSweep(u, order, false)
    case SweepExists(u, s, rest, pruned) =>
      if st.Live(s) then NextSweep(u, rest, pruned) else SweepRem(u, s, rest)
    case SweepRem(u, s, rest) => SweepDel(u, s, rest)
    case SweepDel(u, _, rest) => NextSweep(u, rest, true)
    case SweepCount(u, pruned) =>
      if st.At(u).members == {} then SweepOffline(u)
      else if pruned then SweepTabsBump(u, |st.At(u).members|)
      else Done
    case SweepOffline(u) => SweepOfflineBump(u)
    case SweepOfflineBump(u) => SweepClear(u)
    case SweepTabsBump(u, _) => SweepStates(u)
    case SweepStates(u) => SweepLast(u, Aggregate(st.At(u).states))
    case _ => Done
  }

  /** The operations a thread can be started for. */
  predicate IsStart(t: Thread) {
    match t
    case LeaveGet(_, _, rest) => rest == []
    case ConnectScript(_, _, _, _) => true
    case BeatScript(_) => true
    case UserList(_) => true
    case StateMember(_, _, _) => true
    case SweepList(_) => true
    case ScanPause(_) => true
    case ScanEnd => true
    case _ => false
  }

  /** The Redis connection performs each command as the machine does. */
  method Perform(rdb: Redis, c: Command, ttl: nat)
    modifies rdb
    ensures rdb.st == Effect(old(rdb.st), c, ttl)
  {
    match c
    case EvalConnect(u, s, device) => var _ := rdb.Connect(u, s, device, ttl);
    case EvalHeartbeat(s) => var _ := rdb.Heartbeat(s, ttl);
    case EvalDisconnect(u, s) => var _ := rdb.Disconnect(u, s);
    case SRem(u, s) => var _ := rdb.SRem(u, s);
    case SRemOnline(u) => var _ := rdb.SRemOnline(u);
    case SRemScope => rdb.SetIndexed(false);
    case Incr(u) => var _ := rdb.Incr(u);
    case HSet(u, s, status) => rdb.HSetState(u, s, status);
    case HDel(u, s) => rdb.HDelState(u, s);
    case SetLast(u, status) => rdb.SetLast(u, status);
    case DelPresence(u) => rdb.DelPresence(u);
    case HIncrBy(u, device, delta) => rdb.HIncrByDevice(u, device, delta);
    case DelDevices(u) => rdb.DelDevices(u);
    case SAddInvisible(u) => rdb.SetInvisible(rdb.st.invisible + {u});
    case SRemInvisible(u) => rdb.SetInvisible(rdb.st.invisible - {u});
    case SetCursor(cursor) => rdb.SetCursor(cursor);
    case Read =>
  }
}
