/**
  One scope of the shared Redis store.

  The key families of pkg/presence/keys.go that belong to one user are the fields of a User
  record, the others are fields of the store; module Keys shows that the flat string keyspace
  keeps them apart. A collection key that does not exist reads as the empty collection. Time
  is counted in milliseconds; a session key is live exactly while `now` is before its deadline.
*/
module Store {
  import opened Base

  /** Session metadata kept under the session key, with the key's expiry. */
  datatype SessionKey = SessionKey(user: UserId, device: string, deadline: nat)

  /** The keys of one user. */
  datatype User = User(
    members: set<SessionId>,              // user_sessions
    version: nat,                         // user_version
    states: map<SessionId, Status>,       // session_states
    lastPub: Option<Status>,              // last_pub_presence
    devices: map<string, int>             // user_devices
  ) {
    function Join(s: SessionId): User {
      this.(members := members + {s}, version := if s in members then version else version + 1)
    }

    function Leave(s: SessionId): User {
      this.(members := members - {s}, version := if s in members then version + 1 else version)
    }

    function CountOf(d: string): int {
      if d in devices then devices[d] else 0
    }

    function AddDevice(d: string, delta: int): User {
      this.(devices := devices[d := CountOf(d) + delta])
    }
  }

  const NOBODY := User({}, 0, map[], None, map[])

  /** What the connect and disconnect scripts return. */
  datatype ScriptResult = ScriptResult(transition: Transition, version: nat, count: nat)

  datatype Store = Store(
    now: nat,
    sessions: map<SessionId, SessionKey>,
    users: map<UserId, User>,
    online: set<UserId>,
    indexed: bool,                        // is the scope in presence:scopes
    invisible: set<UserId>,
    cursor: nat                           // saved SSCAN cursor, 0 when absent
  ) {
    predicate Live(s: SessionId) {
      s in sessions && now < sessions[s].deadline
    }

    function At(u: UserId): User {
      if u in users then users[u] else NOBODY
    }

    function Put(u: UserId, r: User): Store {
      this.(users := users[u := r])
    }

    /** The device recorded under a live session key, "" when there is none. */
    function DeviceOf(s: SessionId): string {
      if Live(s) then sessions[s].device else ""
    }

    function Deadline(ttl: nat): nat {
      now + 1000 * ttl
    }

    /** Restarts the expiry of a live session key; times to live are in seconds. */
    function Extend(s: SessionId, ttl: nat): Store {
      if Live(s) then this.(sessions := sessions[s := sessions[s].(deadline := Deadline(ttl))])
      else this
    }

    /** The connect script as one update of the store. */
    function Connect(u: UserId, s: SessionId, device: string, ttl: nat): Store {
      var r := At(u).Join(s);
      this.(sessions := sessions[s := SessionKey(u, device, Deadline(ttl))],
            users := users[u := r],
            online := if |r.members| == 1 then online + {u} else online,
            indexed := |r.members| == 1 || indexed)
    }

    function ConnectResult(u: UserId, s: SessionId): ScriptResult {
      var r := At(u).Join(s);
      ScriptResult(if |r.members| == 1 then Online else NoChange, r.version, |r.members|)
    }

    predicate LastOne(u: UserId, s: SessionId) {
      s in At(u).members && At(u).members - {s} == {}
    }

    /** The disconnect script as one update of the store. */
    function Disconnect(u: UserId, s: SessionId): Store {
      this.(sessions := sessions - {s},
            users := users[u := At(u).Leave(s)],
            online := if LastOne(u, s) then online - {u} else online)
    }

    function DisconnectResult(u: UserId, s: SessionId): ScriptResult {
      var r := At(u).Leave(s);
      ScriptResult(if LastOne(u, s) then Offline else NoChange, r.version, |r.members|)
    }
  }

  const EMPTY := Store(0, map[], map[], {}, false, {}, 0)

  /** The Redis server, seen from one scope: one method for each command the engine sends. */
  class Redis {
    var st: Store

    constructor ()
      ensures st == EMPTY
    {
      st := EMPTY;
    }

    method SetEx(s: SessionId, u: UserId, device: string, ttl: nat)
      modifies this
      ensures var key := SessionKey(u, device, old(st).Deadline(ttl));
              st == old(st).(sessions := old(st).sessions[s := key])
    {
      st := st.(sessions := st.sessions[s := SessionKey(u, device, st.Deadline(ttl))]);
    }

    method Expire(s: SessionId, ttl: nat)
      modifies this
      ensures st == old(st).Extend(s, ttl)
    {
      st := st.Extend(s, ttl);
    }

    method DelSession(s: SessionId)
      modifies this
      ensures st == old(st).(sessions := old(st).sessions - {s})
    {
      st := st.(sessions := st.sessions - {s});
    }

    method SAdd(u: UserId, s: SessionId) returns (added: bool)
      modifies this
      ensures var r := old(st).At(u);
              st == old(st).Put(u, r.(members := r.members + {s})) && added == (s !in r.members)
    {
      var r := st.At(u);
      added := s !in r.members;
      st := st.Put(u, r.(members := r.members + {s}));
    }

    method SRem(u: UserId, s: SessionId) returns (removed: bool)
      modifies this
      ensures var r := old(st).At(u);
              st == old(st).Put(u, r.(members := r.members - {s})) && removed == (s in r.members)
    {
      var r := st.At(u);
      removed := s in r.members;
      st := st.Put(u, r.(members := r.members - {s}));
    }

    method SAddOnline(u: UserId)
      modifies this
      ensures st == old(st).(online := old(st).online + {u})
    {
      st := st.(online := st.online + {u});
    }

    method SRemOnline(u: UserId) returns (removed: bool)
      modifies this
      ensures st == old(st).(online := old(st).online - {u})
      ensures removed == (u in old(st).online)
    {
      removed := u in st.online;
      st := st.(online := st.online - {u});
    }

    method SetIndexed(b: bool)
      modifies this
      ensures st == old(st).(indexed := b)
    {
      st := st.(indexed := b);
    }

    method Incr(u: UserId) returns (version: nat)
      modifies this
      ensures version == old(st).At(u).version + 1
      ensures st == old(st).Put(u, old(st).At(u).(version := version))
    {
      version := st.At(u).version + 1;
      st := st.Put(u, st.At(u).(version := version));
    }

    method HSetState(u: UserId, s: SessionId, status: Status)
      modifies this
      ensures var r := old(st).At(u); st == old(st).Put(u, r.(states := r.states[s := status]))
    {
      var r := st.At(u);
      st := st.Put(u, r.(states := r.states[s := status]));
    }

    method HDelState(u: UserId, s: SessionId)
      modifies this
      ensures var r := old(st).At(u); st == old(st).Put(u, r.(states := r.states - {s}))
    {
      var r := st.At(u);
      st := st.Put(u, r.(states := r.states - {s}));
    }

    method SetLast(u: UserId, status: Status)
      modifies this
      ensures st == old(st).Put(u, old(st).At(u).(lastPub := Some(status)))
    {
      st := st.Put(u, st.At(u).(lastPub := Some(status)));
    }

    /** DEL of the per-tab states and the last published value. */
    method DelPresence(u: UserId)
      modifies this
      ensures st == old(st).Put(u, old(st).At(u).(states := map[], lastPub := None))
    {
      st := st.Put(u, st.At(u).(states := map[], lastPub := None));
    }

    method HIncrByDevice(u: UserId, d: string, delta: int)
      modifies this
      ensures st == old(st).Put(u, old(st).At(u).AddDevice(d, delta))
    {
      st := st.Put(u, st.At(u).AddDevice(d, delta));
    }

    method DelDevices(u: UserId)
      modifies this
      ensures st == old(st).Put(u, old(st).At(u).(devices := map[]))
    {
      st := st.Put(u, st.At(u).(devices := map[]));
    }

    method SetInvisible(users: set<UserId>)
      modifies this
      ensures st == old(st).(invisible := users)
    {
      st := st.(invisible := users);
    }

    method SetCursor(c: nat)
      modifies this
      ensures st == old(st).(cursor := c)
    {
      st := st.(cursor := c);
    }

    /** pkg/presence/lua/connect.lua, call by call. */
    method Connect(u: UserId, s: SessionId, device: string, ttl: nat) returns (r: ScriptResult)
      modifies this
      ensures st == old(st).Connect(u, s, device, ttl)
      ensures r == old(st).ConnectResult(u, s)
    {
      SetEx(s, u, device, ttl);
      var added := SAdd(u, s);
      var count := |st.At(u).members|;
      var transition := NoChange;
      var version := st.At(u).version;
      if added {
        version := Incr(u);
      }
      if count == 1 {
        SAddOnline(u);
        SetIndexed(true);
        transition := Online;
      }
      r := ScriptResult(transition, version, count);
    }

    /** pkg/presence/lua/heartbeat.lua, call by call; false stands for UNKNOWN. */
    method Heartbeat(s: SessionId, ttl: nat) returns (ok: bool)
      modifies this
      ensures st == old(st).Extend(s, ttl)
      ensures ok == old(st).Live(s)
    {
      ok := st.Live(s);
      if ok {
        Expire(s, ttl);
      }
    }

    /** pkg/presence/lua/disconnect.lua, call by call. */
    method Disconnect(u: UserId, s: SessionId) returns (r: ScriptResult)
      modifies this
      ensures st == old(st).Disconnect(u, s)
      ensures r == old(st).DisconnectResult(u, s)
    {
      DelSession(s);
      var removed := SRem(u, s);
      var count := |st.At(u).members|;
      var transition := NoChange;
      var version := st.At(u).version;
      if removed {
        version := Incr(u);
      }
      if removed && count == 0 {
        var _ := SRemOnline(u);
        transition := Offline;
      }
      r := ScriptResult(transition, version, count);
    }
  }
}
