/**
  The presence service (pkg/presence/service.go, pkg/presence/presence_state.go).

  Each operation has a function giving the store it leaves behind and a method of class
  Service that performs it one Redis call at a time.
*/
module Presence {
  import opened Base
  import opened Store

  // ----- Presence values -----

  /** Do-not-disturb beats idle, and idle beats active; no sessions at all reads as active. */
  function Aggregate(states: map<SessionId, Status>): Status {
    if Dnd in states.Values then Dnd else if Idle in states.Values then Idle else Active
  }

  function Lower(s: string): string {
    if s == "" then ""
    else [if 'A' <= s[0] <= 'Z' then s[0] + 32 as char else s[0]] + Lower(s[1..])
  }

  predicate IsSpace(c: char) {
    c == ' ' || '\t' <= c <= '\r'
  }

  function TrimLeft(s: string): string {
    if s != "" && IsSpace(s[0]) then TrimLeft(s[1..]) else s
  }

  function TrimRight(s: string): string {
    if s != "" && IsSpace(s[|s| - 1]) then TrimRight(s[..|s| - 1]) else s
  }

  /** The client's spelling of a presence value, None when it is rejected. */
  function Normalize(raw: string): Option<Status> {
    match Lower(TrimRight(TrimLeft(raw)))
    case "active" => Some(Active)
    case "online" => Some(Active)
    case "idle" => Some(Idle)
    case "dnd" => Some(Dnd)
    case "do_not_disturb" => Some(Dnd)
    case _ => None
  }

  // ----- Operations -----

  datatype TransitionResult = TransitionResult(
    transition: Transition, version: nat, count: nat, agg: Option<Status>, changed: bool)

  datatype UpdateResult =
    | InvalidState
    | UnknownSession
    | Updated(version: nat, count: nat, agg: Status, published: bool)

  function Connected(st: Store, u: UserId, s: SessionId, device: string, hidden: bool, ttl: nat): Store {
    var a := st.Connect(u, s, device, ttl);
    a.(invisible := if hidden then a.invisible + {u} else a.invisible)
     .Put(u, if device != "" then a.At(u).AddDevice(device, 1) else a.At(u))
  }

  function ConnectReport(st: Store, u: UserId, s: SessionId, hidden: bool): ScriptResult {
    var r := st.ConnectResult(u, s);
    if hidden && r.transition == Online then r.(transition := Hidden) else r
  }

  /** Registers the new session as active; the first session also resets the published value. */
  function Initialised(r: User, s: SessionId, count: nat): User {
    r.(states := r.states[s := Active], lastPub := if count == 1 then Some(Active) else r.lastPub)
  }

  /** The keys of a user after session `s`, recorded with `device`, has been disconnected. */
  function Left(r: User, s: SessionId, device: string): User {
    if r.members == {s} then NOBODY.(version := r.version + 1)
    else
      var a := if device != "" then r.Leave(s).AddDevice(device, -1) else r.Leave(s);
      a.(states := r.states - {s}, lastPub := Some(Aggregate(r.states - {s})))
  }

  function Disconnected(st: Store, u: UserId, s: SessionId): Store {
    var a := st.Disconnect(u, s);
    a.(invisible := if st.LastOne(u, s) then a.invisible - {u} else a.invisible)
     .Put(u, Left(st.At(u), s, st.DeviceOf(s)))
  }

  function DisconnectReport(st: Store, u: UserId, s: SessionId): TransitionResult {
    var r := st.DisconnectResult(u, s);
    if r.transition == Offline then TransitionResult(Offline, r.version, r.count, None, false)
    else
      var agg := Aggregate(st.At(u).states - {s});
      TransitionResult(r.transition, r.version, r.count, Some(agg), st.At(u).lastPub != Some(agg))
  }

  /** Disconnects the listed sessions one after the other. */
  function DisconnectedAll(st: Store, u: UserId, order: seq<SessionId>): Store
    decreases |order|
  {
    if order == [] then st
    else DisconnectedAll(Disconnected(st, u, order[0]), u, order[1..])
  }

  /** The store once invisible status and device count of a disconnected session are cleaned up. */
  function Forgotten(a: Store, u: UserId, device: string, offline: bool): Store {
    if offline then a.(invisible := a.invisible - {u}).Put(u, a.At(u).(devices := map[]))
    else if device != "" then a.Put(u, a.At(u).AddDevice(device, -1))
    else a
  }

  lemma DisconnectedInSteps(st: Store, u: UserId, s: SessionId)
    ensures var b := Forgotten(st.Disconnect(u, s), u, st.DeviceOf(s), st.LastOne(u, s));
            var r := b.At(u);
            && r.states == st.At(u).states && r.lastPub == st.At(u).lastPub
            && Disconnected(st, u, s) ==
                 b.Put(u, if st.LastOne(u, s) then r.(states := map[], lastPub := None)
                          else r.(states := r.states - {s}, lastPub := Some(Aggregate(r.states - {s}))))
  {
    assert st.LastOne(u, s) <==> st.At(u).members == {s} by {
      if st.LastOne(u, s) {
        assert forall k | k in st.At(u).members :: k == s || k in st.At(u).members - {s};
      }
    }
  }

  /** What the last of the listed disconnects reports. */
  function LastReport(st: Store, u: UserId, order: seq<SessionId>): TransitionResult
    requires order != []
    decreases |order|
  {
    if |order| == 1 then DisconnectReport(st, u, order[0])
    else LastReport(Disconnected(st, u, order[0]), u, order[1..])
  }

  /** DisconnectUser: every session in turn, or the repair of a stale online entry. */
  function DisconnectedUser(st: Store, u: UserId, order: seq<SessionId>): Store {
    if order != [] then DisconnectedAll(st, u, order)
    else if u in st.online then
      st.(online := st.online - {u}).Put(u, st.At(u).(version := st.At(u).version + 1))
    else st
  }

  function UserReport(st: Store, u: UserId, order: seq<SessionId>): TransitionResult {
    if order != [] then LastReport(st, u, order)
    else if u in st.online then TransitionResult(Offline, st.At(u).version + 1, 0, None, false)
    else TransitionResult(NoChange, st.At(u).version, 0, None, false)
  }

  /** A user's keys after one of their sessions chose `status`. */
  function StatusChosen(r: User, s: SessionId, status: Status): User {
    var states := r.states[s := status];
    var agg := Aggregate(states);
    if r.lastPub == Some(agg) then r.(states := states)
    else r.(states := states, lastPub := Some(agg), version := r.version + 1)
  }

  function StateSet(st: Store, u: UserId, s: SessionId, raw: string): Store {
    var status := Normalize(raw);
    if status == None || s !in st.At(u).members then st
    else st.Put(u, StatusChosen(st.At(u), s, status.value))
  }

  function StateReport(st: Store, u: UserId, s: SessionId, raw: string): UpdateResult {
    var r := st.At(u);
    var status := Normalize(raw);
    if status == None then InvalidState
    else if s !in r.members then UnknownSession
    else
      var a := StatusChosen(r, s, status.value);
      var agg := Aggregate(a.states);
      Updated(a.version, |r.members|, agg, r.lastPub != Some(agg))
  }

  /** The loop of aggregateSessionStates over the hash, in any order. */
  method AggregateSessionStates(states: map<SessionId, Status>) returns (agg: Status)
    ensures agg == Aggregate(states)
    ensures agg == Dnd <==> HasStatus(states, Dnd)
    ensures agg == Active <==> !HasStatus(states, Dnd) && !HasStatus(states, Idle)
  {
    AggregateHasPriority(states);
    var hasDnd, hasIdle := false, false;
    var left := states.Keys;
    while left != {}
      invariant left <= states.Keys
      invariant hasDnd <==> exists k :: k in states.Keys - left && states[k] == Dnd
      invariant hasIdle <==> exists k :: k in states.Keys - left && states[k] == Idle
      decreases left
    {
      var k :| k in left;
      left := left - {k};
      match states[k] {
        case Dnd => hasDnd := true;
        case Idle => hasIdle := true;
        case Active =>
      }
    }
    agg := if hasDnd then Dnd else if hasIdle then Idle else Active;
  }

  /** The presence domain API over one Redis connection. */
  class Service {
    const rdb: Redis
    const ttl: nat                                  // whole seconds of the session TTL

    /** `sessionTtl` is a duration in milliseconds; int(Seconds()) keeps the whole seconds. */
    constructor (rdb: Redis, sessionTtl: nat)
      ensures this.rdb == rdb && ttl == sessionTtl / 1000
    {
      this.rdb := rdb;
      this.ttl := sessionTtl / 1000;
    }

    method Connect(u: UserId, s: SessionId, device: string, hidden: bool) returns (r: ScriptResult)
      modifies rdb
      ensures rdb.st == Connected(old(rdb.st), u, s, device, hidden, ttl)
      ensures r == ConnectReport(old(rdb.st), u, s, hidden)
    {
      r := rdb.Connect(u, s, device, ttl);
      if hidden {
        rdb.SetInvisible(rdb.st.invisible + {u});
        if r.transition == Online {
          r := r.(transition := Hidden);
        }
      }
      if device != "" {
        rdb.HIncrByDevice(u, device, 1);
      }
    }

    method InitSessionPresenceOnConnect(u: UserId, s: SessionId, count: nat)
      modifies rdb
      ensures rdb.st == old(rdb.st).Put(u, Initialised(old(rdb.st).At(u), s, count))
    {
      rdb.HSetState(u, s, Active);
      if count == 1 {
        rdb.SetLast(u, Active);
      }
    }

    method Heartbeat(s: SessionId) returns (ok: bool)
      modifies rdb
      ensures rdb.st == old(rdb.st).Extend(s, ttl)
      ensures ok == old(rdb.st).Live(s)
    {
      ok := rdb.Heartbeat(s, ttl);
    }

    method SetSessionPresenceState(u: UserId, s: SessionId, raw: string) returns (r: UpdateResult)
      modifies rdb
      ensures rdb.st == StateSet(old(rdb.st), u, s, raw)
      ensures r == StateReport(old(rdb.st), u, s, raw)
    {
      var state := Normalize(raw);
      if state == None {
        return InvalidState;
      }
      if s !in rdb.st.At(u).members {
        return UnknownSession;
      }
      rdb.HSetState(u, s, state.value);
      var agg := AggregateSessionStates(rdb.st.At(u).states);
      if rdb.st.At(u).lastPub == Some(agg) {
        return Updated(rdb.st.At(u).version, |rdb.st.At(u).members|, agg, false);
      }
      rdb.SetLast(u, agg);
      var version := rdb.Incr(u);
      r := Updated(version, |rdb.st.At(u).members|, agg, true);
    }

    /** The state clean-up of a disconnect; `offline` when the last session left. */
    method ApplyDisconnectPresenceState(u: UserId, s: SessionId, offline: bool)
      returns (agg: Option<Status>, changed: bool)
      modifies rdb
      ensures var r := old(rdb.st).At(u);
              var a := Aggregate(r.states - {s});
              if offline then
                && rdb.st == old(rdb.st).Put(u, r.(states := map[], lastPub := None))
                && agg == None && !changed
              else
                && rdb.st == old(rdb.st).Put(u, r.(states := r.states - {s}, lastPub := Some(a)))
                && agg == Some(a) && changed == (r.lastPub != Some(a))
    {
      if offline {
        rdb.DelPresence(u);
        return None, false;
      }
      rdb.HDelState(u, s);
      var a := AggregateSessionStates(rdb.st.At(u).states);
      if rdb.st.At(u).lastPub == Some(a) {
        return Some(a), false;
      }
      rdb.SetLast(u, a);
      return Some(a), true;
    }

    /** The invisible and device clean-up that follows the disconnect script. */
    method ForgetDevice(u: UserId, device: string, offline: bool)
      modifies rdb
      ensures rdb.st == Forgotten(old(rdb.st), u, device, offline)
    {
      if offline {
        rdb.SetInvisible(rdb.st.invisible - {u});
        rdb.DelDevices(u);
      } else if device != "" {
        rdb.HIncrByDevice(u, device, -1);
      }
    }

    method Disconnect(u: UserId, s: SessionId) returns (r: TransitionResult)
      modifies rdb
      ensures rdb.st == Disconnected(old(rdb.st), u, s)
      ensures r == DisconnectReport(old(rdb.st), u, s)
    {
      DisconnectedInSteps(rdb.st, u, s);
      var device := rdb.st.DeviceOf(s);
      var t := rdb.Disconnect(u, s);
      ForgetDevice(u, device, t.transition == Offline);
      var agg, changed := ApplyDisconnectPresenceState(u, s, t.transition == Offline);
      r := TransitionResult(t.transition, t.version, t.count, agg, changed);
    }

    /** `order` is the order in which SMEMBERS listed the sessions. */
    method DisconnectUser(u: UserId) returns (r: TransitionResult, ghost order: seq<SessionId>)
      modifies rdb
      ensures Lists(order, old(rdb.st.At(u).members))
      ensures rdb.st == DisconnectedUser(old(rdb.st), u, order)
      ensures r == UserReport(old(rdb.st), u, order)
    {
      var sessions := Listing(rdb.st.At(u).members);
      order := sessions;
      if |sessions| == 0 {
        var removed := rdb.SRemOnline(u);
        if removed {
          var version := rdb.Incr(u);
          return TransitionResult(Offline, version, 0, None, false), order;
        }
        assert old(rdb.st).online - {u} == old(rdb.st).online;
        return TransitionResult(NoChange, rdb.st.At(u).version, 0, None, false), order;
      }
      var i := 0;
      r := TransitionResult(NoChange, 0, 0, None, false);
      while i < |sessions|
        invariant 0 <= i <= |sessions|
        invariant DisconnectedAll(rdb.st, u, sessions[i..]) == DisconnectedAll(old(rdb.st), u, sessions)
        invariant i < |sessions| ==>
          LastReport(rdb.st, u, sessions[i..]) == LastReport(old(rdb.st), u, sessions)
        invariant i == |sessions| ==> r == LastReport(old(rdb.st), u, sessions)
      {
        assert sessions[i..][1..] == sessions[i + 1..];
        r := Disconnect(u, sessions[i]);
        i := i + 1;
      }
    }
  }

  /** Some listing of a set, as SMEMBERS returns one. */
  method Listing<T(==)>(s: set<T>) returns (order: seq<T>)
    ensures Lists(order, s)
  {
    order := [];
    var left := s;
    while left != {}
      invariant left <= s
      invariant Lists(order, s - left)
      decreases left
    {
      var x :| x in left;
      order := order + [x];
      left := left - {x};
    }
  }

  // ----- Facts -----

  /** Some session shows `status`. */
  predicate HasStatus(states: map<SessionId, Status>, status: Status) {
    exists s :: s in states && states[s] == status
  }

  /** The priority of the three values, and what a user without states reads as. */
  lemma AggregateHasPriority(states: map<SessionId, Status>)
    ensures Aggregate(states) == Dnd <==> HasStatus(states, Dnd)
    ensures Aggregate(states) == Idle <==> HasStatus(states, Idle) && !HasStatus(states, Dnd)
    ensures Aggregate(states) == Active <==> !HasStatus(states, Idle) && !HasStatus(states, Dnd)
  {
    forall status: Status
      ensures status in states.Values <==> HasStatus(states, status)
    {
    }
  }

  /** A new active session never changes the aggregate. */
  lemma AddingActiveKeepsAggregate(states: map<SessionId, Status>, s: SessionId)
    requires s !in states
    ensures Aggregate(states[s := Active]) == Aggregate(states)
  {
    var more := states[s := Active];
    forall x: Status | x != Active
      ensures x in more.Values <==> x in states.Values
    {
      if x in states.Values {
        var k :| k in states && states[k] == x;
        assert more[k] == x;
      }
    }
  }
}
