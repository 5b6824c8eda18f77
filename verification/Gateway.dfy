/**
  The gateway connection (pkg/ws/client.go) and the API's disconnect_user handler
  (cmd/api/main.go): presence operations together with the events they publish.
*/
module Gateway {
  import opened Base
  import opened Store
  import opened Events
  import opened Presence
  import opened Debounce

  function ConnectEvents(u: UserId, r: ScriptResult, agg: Status, hidden: bool): seq<Event> {
    if r.transition == Online && !hidden then [Event(UserOnline, u, r.version, r.count, Some(agg))]
    else if r.transition == Hidden then []
    else if r.count > 0 && !hidden then [Event(UserTabs, u, r.version, r.count, Some(agg))]
    else []
  }

  /** A gateway connect: the script, the initial state, the event. */
  function GatewayConnected(
    w: World, u: UserId, s: SessionId, device: string, hidden: bool, ttl: nat): World
  {
    var r := ConnectReport(w.st, u, s, hidden);
    var a := Connected(w.st, u, s, device, hidden, ttl);
    var b := a.Put(u, Initialised(a.At(u), s, r.count));
    World(b, w.log + ConnectEvents(u, r, Aggregate(b.At(u).states), hidden))
  }

  function StateEvents(u: UserId, r: UpdateResult): seq<Event> {
    if r.Updated? && r.published then [Event(UserPresence, u, r.version, r.count, Some(r.agg))] else []
  }

  /** A presence_state message from session `s`. */
  function GatewayStateSet(w: World, u: UserId, s: SessionId, raw: string): World {
    World(StateSet(w.st, u, s, raw), w.log + StateEvents(u, StateReport(w.st, u, s, raw)))
  }

  /** A disconnect_user request; `order` is how SMEMBERS listed the sessions. */
  function ApiDisconnected(w: World, u: UserId, order: seq<SessionId>): World {
    var r := UserReport(w.st, u, order);
    var a := DisconnectedUser(w.st, u, order);
    World(a, w.log +
             if r.transition == Offline then [Event(UserOffline, u, r.version, r.count, None)]
             else if r.count > 0 then
               [Event(UserTabs, u, r.version, r.count, Some(Aggregate(a.At(u).states)))]
             else [])
  }

  datatype HeartbeatOutcome = RateLimited | Accepted | SessionExpired

  /** One WebSocket connection; `rateLimit` is in milliseconds. */
  class Client {
    const deb: Debouncer
    const u: UserId
    const s: SessionId
    const device: string
    const hidden: bool
    const rateLimit: nat
    var lastHeartbeat: nat
    var closed: bool

    constructor (deb: Debouncer, u: UserId, s: SessionId, device: string, hidden: bool, rateLimit: nat)
      ensures this.deb == deb && this.u == u && this.s == s && this.device == device
      ensures this.hidden == hidden && this.rateLimit == rateLimit && !closed
    {
      this.deb, this.u, this.s, this.device := deb, u, s, device;
      this.hidden, this.rateLimit := hidden, rateLimit;
      lastHeartbeat := 0;
      closed := false;
    }

    method Connect()
      modifies this, deb.svc.rdb, deb.bus, deb.keys
      ensures deb.View() ==
        Desk(GatewayConnected(old(deb.View().w), u, s, device, hidden, deb.svc.ttl),
             Cancelled(old(deb.keys.jobs), u, s))
      ensures lastHeartbeat == deb.svc.rdb.st.now && closed == old(closed)
    {
      var svc := deb.svc;
      var _ := deb.CancelDisconnect(u, s);
      var r := svc.Connect(u, s, device, hidden);
      svc.InitSessionPresenceOnConnect(u, s, r.count);
      var agg := AggregateSessionStates(svc.rdb.st.At(u).states);
      if r.transition == Online && !hidden {
        deb.bus.Publish(Event(UserOnline, u, r.version, r.count, Some(agg)));
      } else if r.transition == Hidden {
      } else if r.count > 0 && !hidden {
        deb.bus.Publish(Event(UserTabs, u, r.version, r.count, Some(agg)));
      }
      lastHeartbeat := svc.rdb.st.now;
    }

    method HandleHeartbeat() returns (outcome: HeartbeatOutcome)
      modifies this, deb.svc.rdb
      ensures var st0 := old(deb.svc.rdb.st);
              if st0.now - old(lastHeartbeat) < rateLimit then
                && outcome == RateLimited && deb.svc.rdb.st == st0
                && lastHeartbeat == old(lastHeartbeat) && closed == old(closed)
              else if st0.Live(s) then
                && outcome == Accepted && deb.svc.rdb.st == st0.Extend(s, deb.svc.ttl)
                && lastHeartbeat == st0.now && closed == old(closed)
              else
                && outcome == SessionExpired && deb.svc.rdb.st == st0
                && lastHeartbeat == old(lastHeartbeat) && closed
    {
      var now := deb.svc.rdb.st.now;
      if now - lastHeartbeat < rateLimit {
        return RateLimited;
      }
      var ok := deb.svc.Heartbeat(s);
      if !ok {
        closed := true;
        return SessionExpired;
      }
      lastHeartbeat := now;
      outcome := Accepted;
    }

    method HandlePresenceState(raw: string)
      modifies deb.svc.rdb, deb.bus
      ensures World(deb.svc.rdb.st, deb.bus.log) ==
              GatewayStateSet(World(old(deb.svc.rdb.st), old(deb.bus.log)), u, s, raw)
    {
      var res := deb.svc.SetSessionPresenceState(u, s, raw);
      if res.Updated? && res.published {
        deb.bus.Publish(Event(UserPresence, u, res.version, res.count, Some(res.agg)));
      }
    }
  }

  /** The body of handleDisconnectUser once the request has been authorised. */
  method HandleDisconnectUser(svc: Service, bus: Bus, u: UserId)
    returns (r: TransitionResult, ghost order: seq<SessionId>)
    modifies svc.rdb, bus
    ensures Lists(order, old(svc.rdb.st.At(u).members))
    ensures World(svc.rdb.st, bus.log) ==
            ApiDisconnected(World(old(svc.rdb.st), old(bus.log)), u, order)
    ensures r == UserReport(old(svc.rdb.st), u, order)
  {
    r, order := svc.DisconnectUser(u);
    if r.transition == Offline {
      bus.Publish(Event(UserOffline, u, r.version, r.count, None));
    } else if r.count > 0 {
      var agg := AggregateSessionStates(svc.rdb.st.At(u).states);
      bus.Publish(Event(UserTabs, u, r.version, r.count, Some(agg)));
    }
  }
}
