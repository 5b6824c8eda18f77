/**
  The two granularities agree: a thread that nobody disturbs performs, command by command,
  exactly the operation-level step of the same operation.
*/
module Atomicity {
  import opened Base
  import opened Store
  import opened Events
  import opened Presence
  import opened Sweep
  import opened Gateway
  import opened Threads

  /** A thread and the store it finds. */
  datatype Point = Point(st: Store, t: Thread)

  /** What the thread finds besides the store: the SMEMBERS reply and the session TTL. */
  datatype Setting = Setting(order: seq<SessionId>, ttl: nat)

  function Stepped(p: Point, env: Setting): Point {
    Point(Effect(p.st, CommandOf(p.t), env.ttl), After(p.t, p.st, env.order))
  }

  predicate StepsAt(ps: seq<Point>, i: nat, env: Setting)
    requires i + 1 < |ps|
  {
    ps[i + 1] == Stepped(ps[i], env)
  }

  /** `ps` are the points an undisturbed thread goes through from `p` to `q`. */
  ghost predicate IsPath(ps: seq<Point>, p: Point, q: Point, env: Setting) {
    && ps != [] && ps[0] == p && ps[|ps| - 1] == q
    && (forall i: nat | i + 1 < |ps| :: StepsAt(ps, i, env))
  }

  ghost predicate Reaches(p: Point, q: Point, env: Setting) {
    exists ps :: IsPath(ps, p, q, env)
  }

  lemma Here(p: Point, env: Setting)
    ensures Reaches(p, p, env)
  {
    assert IsPath([p], p, p, env);
  }

  lemma Onwards(p: Point, q: Point, r: Point, env: Setting)
    requires Reaches(p, q, env) && Reaches(q, r, env)
    ensures Reaches(p, r, env)
  {
    var ps :| IsPath(ps, p, q, env);
    var qs :| IsPath(qs, q, r, env);
    var path := ps[..|ps| - 1] + qs;
    forall i: nat | i + 1 < |path|
      ensures StepsAt(path, i, env)
    {
      if i + 1 < |ps| {
        assert StepsAt(ps, i, env);
        assert path[i] == ps[i] && path[i + 1] == ps[i + 1];
      } else {
        assert StepsAt(qs, i + 1 - |ps|, env);
      }
    }
    assert IsPath(path, p, r, env);
  }

  /** One step: the thread performs `c` and gets to `r`. */
  lemma Step(p: Point, c: Command, r: Point, env: Setting)
    requires CommandOf(p.t) == c && Effect(p.st, c, env.ttl) == r.st && After(p.t, p.st, env.order) == r.t
    ensures Reaches(p, r, env)
  {
    assert StepsAt([p, r], 0, env);
    assert IsPath([p, r], p, r, env);
  }

  lemma Advance(p: Point, q: Point, c: Command, r: Point, env: Setting)
    requires Reaches(p, q, env)
    requires CommandOf(q.t) == c && Effect(q.st, c, env.ttl) == r.st && After(q.t, q.st, env.order) == r.t
    ensures Reaches(p, r, env)
  {
    Step(q, c, r, env);
    Onwards(p, q, r, env);
  }

  // ----- Connect and heartbeat -----

  lemma InitAlone(st: Store, u: UserId, s: SessionId, count: nat, env: Setting)
    ensures Reaches(Point(st, InitState(u, s, count)),
                    Point(st.Put(u, Initialised(st.At(u), s, count)), Done), env)
  {
    var p := Point(st, InitState(u, s, count));
    var a := st.Put(u, st.At(u).(states := st.At(u).states[s := Active]));
    Step(p, HSet(u, s, Active), Point(a, if count == 1 then InitLast(u) else Done), env);
    if count == 1 {
      var b := st.Put(u, Initialised(st.At(u), s, count));
      Advance(p, Point(a, InitLast(u)), SetLast(u, Active), Point(b, Done), env);
    }
  }

  function DeviceThread(u: UserId, s: SessionId, device: string, count: nat): Thread {
    if device != "" then ConnectDevice(u, s, device, count) else InitState(u, s, count)
  }

  function DeviceAdded(st: Store, u: UserId, device: string, delta: int): Store {
    if device != "" then st.Put(u, st.At(u).AddDevice(device, delta)) else st
  }

  lemma DeviceAlone(st: Store, u: UserId, s: SessionId, device: string, count: nat, env: Setting)
    ensures var a := DeviceAdded(st, u, device, 1);
            Reaches(Point(st, DeviceThread(u, s, device, count)),
                    Point(a.Put(u, Initialised(a.At(u), s, count)), Done), env)
  {
    var a := DeviceAdded(st, u, device, 1);
    InitAlone(a, u, s, count, env);
    if device != "" {
      var p, q := Point(st, ConnectDevice(u, s, device, count)), Point(a, InitState(u, s, count));
      Step(p, HIncrBy(u, device, 1), q, env);
      Onwards(p, q, Point(a.Put(u, Initialised(a.At(u), s, count)), Done), env);
    }
  }

  function MadeInvisible(st: Store, u: UserId, hidden: bool): Store {
    if hidden then st.(invisible := st.invisible + {u}) else st
  }

  lemma ConnectScriptAlone(st: Store, u: UserId, s: SessionId, device: string, hidden: bool, env: Setting)
    ensures var a := st.Connect(u, s, device, env.ttl);
            Reaches(Point(st, ConnectScript(u, s, device, hidden)),
                    Point(MadeInvisible(a, u, hidden),
                          DeviceThread(u, s, device, st.ConnectResult(u, s).count)), env)
  {
    var p := Point(st, ConnectScript(u, s, device, hidden));
    var a := st.Connect(u, s, device, env.ttl);
    var count := st.ConnectResult(u, s).count;
    var next := DeviceThread(u, s, device, count);
    var masked := ConnectHidden(u, s, device, count);
    Step(p, EvalConnect(u, s, device), Point(a, if hidden then masked else next), env);
    if hidden {
      Advance(p, Point(a, masked), SAddInvisible(u), Point(MadeInvisible(a, u, true), next), env);
    }
  }

  /** An undisturbed connect is the operation-level connect. */
  lemma ConnectAlone(w: World, u: UserId, s: SessionId, device: string, hidden: bool, env: Setting)
    ensures Reaches(Point(w.st, ConnectScript(u, s, device, hidden)),
                    Point(GatewayConnected(w, u, s, device, hidden, env.ttl).st, Done), env)
  {
    var a := w.st.Connect(u, s, device, env.ttl);
    var b := MadeInvisible(a, u, hidden);
    var count := w.st.ConnectResult(u, s).count;
    var c := DeviceAdded(b, u, device, 1);
    var d := c.Put(u, Initialised(c.At(u), s, count));
    ConnectScriptAlone(w.st, u, s, device, hidden, env);
    DeviceAlone(b, u, s, device, count, env);
    Onwards(Point(w.st, ConnectScript(u, s, device, hidden)),
            Point(b, DeviceThread(u, s, device, count)), Point(d, Done), env);
    ConnectedInSteps(w, u, s, device, hidden, env.ttl);
  }

  lemma ConnectedInSteps(w: World, u: UserId, s: SessionId, device: string, hidden: bool, ttl: nat)
    ensures var b := MadeInvisible(w.st.Connect(u, s, device, ttl), u, hidden);
            var c := DeviceAdded(b, u, device, 1);
            c.Put(u, Initialised(c.At(u), s, w.st.ConnectResult(u, s).count))
            == GatewayConnected(w, u, s, device, hidden, ttl).st
  {
  }

  lemma HeartbeatAlone(st: Store, s: SessionId, env: Setting)
    ensures Reaches(Point(st, BeatScript(s)), Point(st.Extend(s, env.ttl), Done), env)
  {
    Step(Point(st, BeatScript(s)), EvalHeartbeat(s), Point(st.Extend(s, env.ttl), Done), env);
  }

  // ----- Disconnect -----

  lemma LeaveDevicesAlone(st: Store, u: UserId, rest: seq<SessionId>, env: Setting)
    ensures var r := st.At(u).(devices := map[], states := map[], lastPub := None);
            Reaches(Point(st, LeaveDevices(u, rest)), Point(st.Put(u, r), NextLeave(u, rest)), env)
  {
    var p := Point(st, LeaveDevices(u, rest));
    var b := st.Put(u, st.At(u).(devices := map[]));
    var r := st.At(u).(devices := map[], states := map[], lastPub := None);
    Step(p, DelDevices(u), Point(b, LeavePresence(u, rest)), env);
    Advance(p, Point(b, LeavePresence(u, rest)), DelPresence(u), Point(st.Put(u, r), NextLeave(u, rest)), env);
  }

  lemma LastLeaveAlone(st: Store, u: UserId, rest: seq<SessionId>, env: Setting)
    ensures var a := st.(invisible := st.invisible - {u});
            var r := st.At(u).(devices := map[], states := map[], lastPub := None);
            Reaches(Point(st, LeaveHidden(u, rest)), Point(a.Put(u, r), NextLeave(u, rest)), env)
  {
    var p := Point(st, LeaveHidden(u, rest));
    var a := st.(invisible := st.invisible - {u});
    var r := st.At(u).(devices := map[], states := map[], lastPub := None);
    Step(p, SRemInvisible(u), Point(a, LeaveDevices(u, rest)), env);
    LeaveDevicesAlone(a, u, rest, env);
    Onwards(p, Point(a, LeaveDevices(u, rest)), Point(a.Put(u, r), NextLeave(u, rest)), env);
  }

  lemma LeaveLastAlone(st: Store, u: UserId, agg: Status, rest: seq<SessionId>, env: Setting)
    ensures Reaches(Point(st, LeaveLast(u, agg, rest)), Point(LastSet(st, u, agg), NextLeave(u, rest)), env)
  {
    var p, q := Point(st, LeaveLast(u, agg, rest)), Point(st, LeaveSet(u, agg, rest));
    var r := Point(LastSet(st, u, agg), NextLeave(u, rest));
    if st.At(u).lastPub == Some(agg) {
      assert LastSet(st, u, agg) == st by {
        assert u in st.users;
      }
      Step(p, Read, r, env);
    } else {
      assert Reaches(p, q, env) by {
        Step(p, Read, q, env);
      }
      assert Reaches(q, r, env) by {
        Step(q, SetLast(u, agg), r, env);
      }
      Onwards(p, q, r, env);
    }
  }

  /** The last published value of a user who keeps sessions is brought up to date. */
  lemma PublishAlone(st: Store, u: UserId, rest: seq<SessionId>, env: Setting)
    ensures Reaches(Point(st, LeaveStates(u, rest)),
                    Point(LastSet(st, u, Aggregate(st.At(u).states)), NextLeave(u, rest)), env)
  {
    var agg := Aggregate(st.At(u).states);
    var p, q := Point(st, LeaveStates(u, rest)), Point(st, LeaveLast(u, agg, rest));
    Step(p, Read, q, env);
    LeaveLastAlone(st, u, agg, rest, env);
    Onwards(p, q, Point(LastSet(st, u, agg), NextLeave(u, rest)), env);
  }

  lemma LeaveStateAlone(st: Store, u: UserId, s: SessionId, rest: seq<SessionId>, env: Setting)
    ensures var states := st.At(u).states - {s};
            var r := st.At(u).(states := states, lastPub := Some(Aggregate(states)));
            Reaches(Point(st, LeaveState(u, s, rest)), Point(st.Put(u, r), NextLeave(u, rest)), env)
  {
    var p := Point(st, LeaveState(u, s, rest));
    var states := st.At(u).states - {s};
    var a := st.Put(u, st.At(u).(states := states));
    var r := st.At(u).(states := states, lastPub := Some(Aggregate(states)));
    Step(p, HDel(u, s), Point(a, LeaveStates(u, rest)), env);
    PublishAlone(a, u, rest, env);
    assert a.Put(u, r) == st.Put(u, r);
    Onwards(p, Point(a, LeaveStates(u, rest)), Point(st.Put(u, r), NextLeave(u, rest)), env);
  }

  function LeaveThread(u: UserId, s: SessionId, device: string, rest: seq<SessionId>): Thread {
    if device != "" then LeaveDevice(u, s, device, rest) else LeaveState(u, s, rest)
  }

  function Published(st: Store, u: UserId, s: SessionId): Store {
    var states := st.At(u).states - {s};
    st.Put(u, st.At(u).(states := states, lastPub := Some(Aggregate(states))))
  }

  lemma LeaveDeviceAlone(st: Store, u: UserId, s: SessionId, device: string, rest: seq<SessionId>, env: Setting)
    ensures Reaches(Point(st, LeaveThread(u, s, device, rest)),
                    Point(Published(DeviceAdded(st, u, device, -1), u, s), NextLeave(u, rest)), env)
  {
    var a := DeviceAdded(st, u, device, -1);
    var q := Point(a, LeaveState(u, s, rest));
    LeaveStateAlone(a, u, s, rest, env);
    if device != "" {
      var p := Point(st, LeaveDevice(u, s, device, rest));
      Step(p, HIncrBy(u, device, -1), q, env);
      Onwards(p, q, Point(Published(a, u, s), NextLeave(u, rest)), env);
    }
  }

  lemma LeaveScriptAlone(st: Store, u: UserId, s: SessionId, rest: seq<SessionId>, env: Setting)
    ensures Reaches(Point(st, LeaveGet(u, s, rest)),
                    Point(st.Disconnect(u, s),
                          if st.LastOne(u, s) then LeaveHidden(u, rest)
                          else LeaveThread(u, s, st.DeviceOf(s), rest)), env)
  {
    var p := Point(st, LeaveGet(u, s, rest));
    var q := Point(st, LeaveScript(u, s, st.DeviceOf(s), rest));
    var next := if st.LastOne(u, s) then LeaveHidden(u, rest) else LeaveThread(u, s, st.DeviceOf(s), rest);
    Step(p, Read, q, env);
    Advance(p, q, EvalDisconnect(u, s), Point(st.Disconnect(u, s), next), env);
  }

  lemma LastLeaves(st: Store, u: UserId, s: SessionId)
    requires st.LastOne(u, s)
    ensures var a := st.Disconnect(u, s);
            var r := a.At(u).(devices := map[], states := map[], lastPub := None);
            a.(invisible := a.invisible - {u}).Put(u, r) == Disconnected(st, u, s)
  {
    assert st.At(u).members == {s} by {
      assert forall k | k in st.At(u).members :: k == s || k in st.At(u).members - {s};
    }
  }

  lemma OneLeaves(st: Store, u: UserId, s: SessionId)
    requires !st.LastOne(u, s)
    ensures Published(DeviceAdded(st.Disconnect(u, s), u, st.DeviceOf(s), -1), u, s) == Disconnected(st, u, s)
  {
  }

  /** An undisturbed disconnect is the operation-level disconnect. */
  lemma DisconnectAlone(st: Store, u: UserId, s: SessionId, rest: seq<SessionId>, env: Setting)
    ensures Reaches(Point(st, LeaveGet(u, s, rest)),
                    Point(Disconnected(st, u, s), NextLeave(u, rest)), env)
  {
    var p, q := Point(st, LeaveGet(u, s, rest)), Point(Disconnected(st, u, s), NextLeave(u, rest));
    var a := st.Disconnect(u, s);
    LeaveScriptAlone(st, u, s, rest, env);
    if st.LastOne(u, s) {
      LastLeaveAlone(a, u, rest, env);
      LastLeaves(st, u, s);
      Onwards(p, Point(a, LeaveHidden(u, rest)), q, env);
    } else {
      LeaveDeviceAlone(a, u, s, st.DeviceOf(s), rest, env);
      OneLeaves(st, u, s);
      Onwards(p, Point(a, LeaveThread(u, s, st.DeviceOf(s), rest)), q, env);
    }
  }

  lemma {:induction false} DisconnectAllAlone(st: Store, u: UserId, order: seq<SessionId>, env: Setting)
    ensures Reaches(Point(st, NextLeave(u, order)), Point(DisconnectedAll(st, u, order), Done), env)
    decreases |order|
  {
    var p := Point(st, NextLeave(u, order));
    if order == [] {
      Here(p, env);
    } else {
      var a := Disconnected(st, u, order[0]);
      DisconnectAlone(st, u, order[0], order[1..], env);
      DisconnectAllAlone(a, u, order[1..], env);
      Onwards(p, Point(a, NextLeave(u, order[1..])), Point(DisconnectedAll(st, u, order), Done), env);
    }
  }

  lemma RepairAlone(st: Store, u: UserId, env: Setting)
    ensures Reaches(Point(st, UserRepair(u)), Point(DisconnectedUser(st, u, []), Done), env)
  {
    var p := Point(st, UserRepair(u));
    var a := st.(online := st.online - {u});
    if u in st.online {
      Step(p, SRemOnline(u), Point(a, UserBump(u)), env);
      Advance(p, Point(a, UserBump(u)), Incr(u), Point(DisconnectedUser(st, u, []), Done), env);
    } else {
      assert a == st;
      Step(p, SRemOnline(u), Point(a, Done), env);
    }
  }

  /** An undisturbed DisconnectUser is the operation-level one. */
  lemma DisconnectUserAlone(st: Store, u: UserId, env: Setting)
    ensures Reaches(Point(st, UserList(u)), Point(DisconnectedUser(st, u, env.order), Done), env)
  {
    var p := Point(st, UserList(u));
    var q := Point(st, if env.order == [] then UserRepair(u) else NextLeave(u, env.order));
    Step(p, Read, q, env);
    if env.order == [] {
      RepairAlone(st, u, env);
    } else {
      DisconnectAllAlone(st, u, env.order, env);
    }
    Onwards(p, q, Point(DisconnectedUser(st, u, env.order), Done), env);
  }

  // ----- Presence state -----

  lemma StateBumpAlone(st: Store, u: UserId, agg: Status, env: Setting)
    ensures Reaches(Point(st, Thread.StateSet(u, agg)), Point(Bumped(LastSet(st, u, agg), u), Done), env)
  {
    var p, q := Point(st, Thread.StateSet(u, agg)), Point(LastSet(st, u, agg), StateBump(u));
    var r := Point(Bumped(LastSet(st, u, agg), u), Done);
    assert Reaches(p, q, env) by {
      Step(p, SetLast(u, agg), q, env);
    }
    assert Reaches(q, r, env) by {
      Step(q, Incr(u), r, env);
    }
    Onwards(p, q, r, env);
  }

  function StateDone(st: Store, u: UserId): Store {
    var agg := Aggregate(st.At(u).states);
    if st.At(u).lastPub == Some(agg) then st else Bumped(LastSet(st, u, agg), u)
  }

  lemma StateLastAlone(st: Store, u: UserId, env: Setting)
    ensures Reaches(Point(st, StateLast(u, Aggregate(st.At(u).states))), Point(StateDone(st, u), Done), env)
  {
    var agg := Aggregate(st.At(u).states);
    var p := Point(st, StateLast(u, agg));
    if st.At(u).lastPub == Some(agg) {
      Step(p, Read, Point(st, Done), env);
    } else {
      Step(p, Read, Point(st, Thread.StateSet(u, agg)), env);
      StateBumpAlone(st, u, agg, env);
      Onwards(p, Point(st, Thread.StateSet(u, agg)), Point(StateDone(st, u), Done), env);
    }
  }

  lemma StatePutStep(st: Store, u: UserId, s: SessionId, status: Status, env: Setting)
    ensures var a := st.Put(u, st.At(u).(states := st.At(u).states[s := status]));
            Reaches(Point(st, StatePut(u, s, status)), Point(a, StateStates(u)), env)
  {
    var a := st.Put(u, st.At(u).(states := st.At(u).states[s := status]));
    Step(Point(st, StatePut(u, s, status)), HSet(u, s, status), Point(a, StateStates(u)), env);
  }

  lemma StateStatesStep(st: Store, u: UserId, env: Setting)
    ensures Reaches(Point(st, StateStates(u)), Point(st, StateLast(u, Aggregate(st.At(u).states))), env)
  {
    Step(Point(st, StateStates(u)), Read, Point(st, StateLast(u, Aggregate(st.At(u).states))), env);
  }

  lemma StatePutAlone(st: Store, u: UserId, s: SessionId, status: Status, env: Setting)
    ensures var a := st.Put(u, st.At(u).(states := st.At(u).states[s := status]));
            Reaches(Point(st, StatePut(u, s, status)), Point(StateDone(a, u), Done), env)
  {
    var a := st.Put(u, st.At(u).(states := st.At(u).states[s := status]));
    var p, q := Point(st, StatePut(u, s, status)), Point(a, StateStates(u));
    var r := Point(a, StateLast(u, Aggregate(a.At(u).states)));
    StatePutStep(st, u, s, status, env);
    StateStatesStep(a, u, env);
    Onwards(p, q, r, env);
    StateLastAlone(a, u, env);
    Onwards(p, r, Point(StateDone(a, u), Done), env);
  }

  /** An undisturbed presence change is the operation-level one. */
  lemma StateSetAlone(st: Store, u: UserId, s: SessionId, raw: string, status: Status, env: Setting)
    requires Normalize(raw) == Some(status)
    ensures Reaches(Point(st, StateMember(u, s, status)), Point(Presence.StateSet(st, u, s, raw), Done), env)
  {
    var p := Point(st, StateMember(u, s, status));
    if s in st.At(u).members {
      Step(p, Read, Point(st, StatePut(u, s, status)), env);
      StatePutAlone(st, u, s, status, env);
      StateChosen(st, u, s, raw, status);
      Onwards(p, Point(st, StatePut(u, s, status)), Point(Presence.StateSet(st, u, s, raw), Done), env);
    } else {
      Step(p, Read, Point(st, Done), env);
    }
  }

  lemma StateChosen(st: Store, u: UserId, s: SessionId, raw: string, status: Status)
    requires Normalize(raw) == Some(status) && s in st.At(u).members
    ensures var a := st.Put(u, st.At(u).(states := st.At(u).states[s := status]));
            Presence.StateSet(st, u, s, raw) == StateDone(a, u)
  {
  }

  // ----- Sweep -----

  ghost function ExpiredOf(st: Store, order: seq<SessionId>): set<SessionId> {
    set s | s in order && !st.Live(s)
  }

  function Unlisted(st: Store, u: UserId, s: SessionId): Store {
    st.Put(u, st.At(u).(members := st.At(u).members - {s}))
  }

  function Stateless(st: Store, u: UserId, s: SessionId): Store {
    st.Put(u, st.At(u).(states := st.At(u).states - {s}))
  }

  lemma PrunedInSteps(st: Store, u: UserId, s: SessionId)
    ensures Stateless(Unlisted(st, u, s), u, s) == Pruned(st, u, {s})
  {
  }

  lemma SweepDelStep(st: Store, u: UserId, s: SessionId, rest: seq<SessionId>, env: Setting)
    ensures Reaches(Point(st, SweepDel(u, s, rest)), Point(Stateless(st, u, s), NextSweep(u, rest, true)), env)
  {
    Step(Point(st, SweepDel(u, s, rest)), HDel(u, s), Point(Stateless(st, u, s), NextSweep(u, rest, true)), env);
  }

  lemma SweepRemAlone(st: Store, u: UserId, s: SessionId, rest: seq<SessionId>, env: Setting)
    ensures var a := Stateless(Unlisted(st, u, s), u, s);
            Reaches(Point(st, SweepRem(u, s, rest)), Point(a, NextSweep(u, rest, true)), env)
  {
    var a := Unlisted(st, u, s);
    var p, q := Point(st, SweepRem(u, s, rest)), Point(a, SweepDel(u, s, rest));
    var r := Point(Stateless(a, u, s), NextSweep(u, rest, true));
    Step(p, SRem(u, s), q, env);
    SweepDelStep(a, u, s, rest, env);
    Onwards(p, q, r, env);
  }

  lemma PruneAlone(st: Store, u: UserId, s: SessionId, rest: seq<SessionId>, pruned: bool, env: Setting)
    requires !st.Live(s)
    ensures Reaches(Point(st, SweepExists(u, s, rest, pruned)),
                    Point(Pruned(st, u, {s}), NextSweep(u, rest, true)), env)
  {
    var p, q := Point(st, SweepExists(u, s, rest, pruned)), Point(st, SweepRem(u, s, rest));
    Step(p, Read, q, env);
    SweepRemAlone(st, u, s, rest, env);
    PrunedInSteps(st, u, s);
    Onwards(p, q, Point(Pruned(st, u, {s}), NextSweep(u, rest, true)), env);
  }

  lemma PrunedTwice(st: Store, u: UserId, s: SessionId, more: set<SessionId>)
    ensures Pruned(Pruned(st, u, {s}), u, more) == Pruned(st, u, {s} + more)
  {
    var r := st.At(u);
    assert r.members - {s} - more == r.members - ({s} + more);
    assert r.states - {s} - more == r.states - ({s} + more);
    if more == {} {
      assert {s} + more == {s};
    }
  }

  /** What the loop over the listed sessions leads to. */
  ghost function AfterPruning(st: Store, u: UserId, order: seq<SessionId>, pruned: bool): Point {
    var dead := ExpiredOf(st, order);
    Point(Pruned(st, u, dead), SweepCount(u, pruned || dead != {}))
  }

  lemma AfterPruningOne(st: Store, u: UserId, s: SessionId, rest: seq<SessionId>, pruned: bool)
    ensures AfterPruning(st, u, [s] + rest, pruned) ==
            if st.Live(s) then AfterPruning(st, u, rest, pruned)
            else AfterPruning(Pruned(st, u, {s}), u, rest, true)
  {
    var more, dead := ExpiredOf(st, rest), ExpiredOf(st, [s] + rest);
    if st.Live(s) {
      assert dead == more;
    } else {
      assert dead == {s} + more && s in dead;
      assert ExpiredOf(Pruned(st, u, {s}), rest) == more;
      PrunedTwice(st, u, s, more);
    }
  }

  lemma PruneOneAlone(st: Store, u: UserId, s: SessionId, rest: seq<SessionId>, pruned: bool, env: Setting)
    ensures Reaches(Point(st, SweepExists(u, s, rest, pruned)),
                    if st.Live(s) then Point(st, NextSweep(u, rest, pruned))
                    else Point(Pruned(st, u, {s}), NextSweep(u, rest, true)), env)
  {
    if st.Live(s) {
      Step(Point(st, SweepExists(u, s, rest, pruned)), Read, Point(st, NextSweep(u, rest, pruned)), env);
    } else {
      PruneAlone(st, u, s, rest, pruned, env);
    }
  }

  lemma {:induction false} PruneAllAlone(st: Store, u: UserId, order: seq<SessionId>, pruned: bool, env: Setting)
    ensures Reaches(Point(st, NextSweep(u, order, pruned)), AfterPruning(st, u, order, pruned), env)
    decreases |order|
  {
    if order == [] {
      assert ExpiredOf(st, order) == {};
      Here(AfterPruning(st, u, order, pruned), env);
    } else {
      var s, rest := order[0], order[1..];
      assert order == [s] + rest;
      AfterPruningOne(st, u, s, rest, pruned);
      var p := Point(st, SweepExists(u, s, rest, pruned));
      PruneOneAlone(st, u, s, rest, pruned, env);
      if st.Live(s) {
        PruneAllAlone(st, u, rest, pruned, env);
        Onwards(p, Point(st, NextSweep(u, rest, pruned)), AfterPruning(st, u, rest, pruned), env);
      } else {
        var a := Pruned(st, u, {s});
        PruneAllAlone(a, u, rest, true, env);
        Onwards(p, Point(a, NextSweep(u, rest, true)), AfterPruning(a, u, rest, true), env);
      }
    }
  }

  lemma OfflineBumpAlone(st: Store, u: UserId, env: Setting)
    ensures Reaches(Point(st, SweepOfflineBump(u)), Point(Cleared(Bumped(st, u), u), Done), env)
  {
    var p, q := Point(st, SweepOfflineBump(u)), Point(Bumped(st, u), SweepClear(u));
    var r := Point(Cleared(Bumped(st, u), u), Done);
    assert Reaches(p, q, env) by {
      Step(p, Incr(u), q, env);
    }
    assert Reaches(q, r, env) by {
      Step(q, DelPresence(u), r, env);
    }
    Onwards(p, q, r, env);
  }

  lemma OfflineAlone(st: Store, u: UserId, env: Setting)
    ensures Reaches(Point(st, SweepOffline(u)),
                    Point(Cleared(Bumped(st.(online := st.online - {u}), u), u), Done), env)
  {
    var a := st.(online := st.online - {u});
    var p, q := Point(st, SweepOffline(u)), Point(a, SweepOfflineBump(u));
    Step(p, SRemOnline(u), q, env);
    OfflineBumpAlone(a, u, env);
    Onwards(p, q, Point(Cleared(Bumped(a, u), u), Done), env);
  }

  lemma SweepLastStep(st: Store, u: UserId, agg: Status, env: Setting)
    ensures Reaches(Point(st, SweepLast(u, agg)), Point(LastSet(st, u, agg), Done), env)
  {
    Step(Point(st, SweepLast(u, agg)), SetLast(u, agg), Point(LastSet(st, u, agg), Done), env);
  }

  lemma AggregateAlone(st: Store, u: UserId, env: Setting)
    ensures Reaches(Point(st, SweepStates(u)), Point(LastSet(st, u, Aggregate(st.At(u).states)), Done), env)
  {
    var agg := Aggregate(st.At(u).states);
    var p, q, r := Point(st, SweepStates(u)), Point(st, SweepLast(u, agg)), Point(LastSet(st, u, agg), Done);
    Step(p, Read, q, env);
    SweepLastStep(st, u, agg, env);
    Onwards(p, q, r, env);
  }

  lemma TabsAlone(st: Store, u: UserId, n: nat, env: Setting)
    ensures var a := Bumped(st, u);
            Reaches(Point(st, SweepTabsBump(u, n)), Point(LastSet(a, u, Aggregate(a.At(u).states)), Done), env)
  {
    var a := Bumped(st, u);
    var p, q := Point(st, SweepTabsBump(u, n)), Point(a, SweepStates(u));
    Step(p, Incr(u), q, env);
    AggregateAlone(a, u, env);
    Onwards(p, q, Point(LastSet(a, u, Aggregate(a.At(u).states)), Done), env);
  }

  lemma ConcludeAlone(a: Store, u: UserId, pruned: bool, env: Setting)
    ensures Reaches(Point(a, SweepCount(u, pruned)), Point(Concluded(a, u, pruned), Done), env)
  {
    var p := Point(a, SweepCount(u, pruned));
    if a.At(u).members == {} {
      Step(p, Read, Point(a, SweepOffline(u)), env);
      OfflineAlone(a, u, env);
      Onwards(p, Point(a, SweepOffline(u)), Point(Concluded(a, u, pruned), Done), env);
    } else if pruned {
      var n := |a.At(u).members|;
      Step(p, Read, Point(a, SweepTabsBump(u, n)), env);
      TabsAlone(a, u, n, env);
      Onwards(p, Point(a, SweepTabsBump(u, n)), Point(Concluded(a, u, pruned), Done), env);
    } else {
      Step(p, Read, Point(a, Done), env);
    }
  }

  /** An undisturbed sweep of a user is the operation-level sweep, in whatever order sessions are listed. */
  lemma SweepAlone(w: World, u: UserId, env: Setting)
    requires Lists(env.order, w.st.At(u).members)
    ensures Reaches(Point(w.st, SweepList(u)), Point(Swept(w, u).st, Done), env)
  {
    var p, q := Point(w.st, SweepList(u)), Point(w.st, NextSweep(u, env.order, false));
    var dead := Expired(w.st, u);
    var r := Point(Pruned(w.st, u, dead), SweepCount(u, dead != {}));
    assert dead == ExpiredOf(w.st, env.order);
    Step(p, Read, q, env);
    PruneAllAlone(w.st, u, env.order, false, env);
    Onwards(p, q, r, env);
    ConcludeAlone(r.st, u, dead != {}, env);
    SweptInSteps(w, u);
    Onwards(p, r, Point(Swept(w, u).st, Done), env);
  }

  // ----- End of a scan -----

  lemma ScopeCountAlone(st: Store, env: Setting)
    ensures Reaches(Point(st, ScopeCount), Point(st.(indexed := st.indexed && st.online != {}), Done), env)
  {
    var p := Point(st, ScopeCount);
    if st.online == {} {
      Step(p, Read, Point(st, ScopeDrop), env);
      Advance(p, Point(st, ScopeDrop), SRemScope, Point(st.(indexed := false), Done), env);
    } else {
      Step(p, Read, Point(st, Done), env);
    }
  }

  /** Undisturbed, the end of a full scan resets the cursor and takes an empty scope off the index. */
  lemma ScanEndAlone(w: World, env: Setting)
    ensures Reaches(Point(w.st, ScanEnd), Point(Finished(w).st, Done), env)
  {
    var q := Point(w.st.(cursor := 0), ScopeCount);
    Step(Point(w.st, ScanEnd), SetCursor(0), q, env);
    ScopeCountAlone(q.st, env);
    Onwards(Point(w.st, ScanEnd), q, Point(Finished(w).st, Done), env);
  }

  lemma ScanPauseAlone(w: World, cursor: nat, env: Setting)
    ensures Reaches(Point(w.st, ScanPause(cursor)), Point(WithCursor(w, cursor).st, Done), env)
  {
    Step(Point(w.st, ScanPause(cursor)), SetCursor(cursor), Point(WithCursor(w, cursor).st, Done), env);
  }
}
