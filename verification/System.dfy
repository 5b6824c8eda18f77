/**
  The presence engine as a state machine at operation level: every exported operation and
  every advance of the clock is one step, in any order.

  Besides the world the state remembers which user and device each session id was issued to,
  when each connection's heartbeats arrived, and how many sessions came and went.
*/
module System {
  import opened Base
  import opened Store
  import opened Events
  import opened Presence
  import opened Sweep
  import opened Debounce
  import opened Gateway

  datatype Owner = Owner(user: UserId, device: string)

  /** A connection's last accepted heartbeat, and its last heartbeat of any outcome. */
  datatype Beat = Beat(accepted: nat, arrival: nat)

  /** How many sessions of a user were added, disconnected and pruned so far. */
  datatype Tally = Tally(added: nat, removed: nat, pruned: nat)

  datatype System = System(
    w: World,
    owner: map<SessionId, Owner>,
    beats: map<SessionId, Beat>,
    tally: map<UserId, Tally>
  ) {
    function TallyOf(u: UserId): Tally {
      if u in tally then tally[u] else Tally(0, 0, 0)
    }
  }

  const INITIAL := System(World(EMPTY, []), map[], map[], map[])

  /** The session TTL in whole seconds, the heartbeat rate limit in milliseconds. */
  datatype Settings = Settings(ttl: nat, rateLimit: nat)

  datatype Op =
    | Wait(ms: nat)
    | Connect(u: UserId, s: SessionId, device: string, hidden: bool)
    | Heartbeat(s: SessionId)
    | SetState(u: UserId, s: SessionId, raw: string)
    | Disconnect(u: UserId, s: SessionId, flapping: bool)
    | DisconnectUser(u: UserId, order: seq<SessionId>)
    | SweepUser(u: UserId)
    | EndScan

  /** Session ids are fresh UUIDs; a session is only ever disconnected for its own user. */
  ghost predicate Enabled(x: System, op: Op) {
    match op
    case Connect(u, s, _, _) => s !in x.owner
    case Disconnect(u, s, _) => s in x.owner ==> x.owner[s].user == u
    case DisconnectUser(u, order) => Lists(order, x.w.st.At(u).members)
    case _ => true
  }

  function Pass(w: World, ms: nat): World {
    w.(st := w.st.(now := w.st.now + ms))
  }

  /** A heartbeat message on connection `s`; an unknown session closes the connection. */
  function Beaten(x: System, cfg: Settings, s: SessionId): System {
    if s !in x.beats then x
    else
      var now, last := x.w.st.now, x.beats[s].accepted;
      if now - last < cfg.rateLimit then x.(beats := x.beats[s := Beat(last, now)])
      else if x.w.st.Live(s) then
        x.(w := x.w.(st := x.w.st.Extend(s, cfg.ttl)), beats := x.beats[s := Beat(now, now)])
      else x.(beats := x.beats - {s})
  }

  ghost function Count(x: System, u: UserId, added: nat, removed: nat, pruned: nat): map<UserId, Tally> {
    var t := x.TallyOf(u);
    x.tally[u := Tally(t.added + added, t.removed + removed, t.pruned + pruned)]
  }

  ghost function Next(cfg: Settings, x: System, op: Op): System {
    match op
    case Wait(ms) => x.(w := Pass(x.w, ms))
    case Connect(u, s, device, hidden) =>
      System(GatewayConnected(x.w, u, s, device, hidden, cfg.ttl),
             x.owner[s := Owner(u, device)],
             x.beats[s := Beat(x.w.st.now, x.w.st.now)],
             Count(x, u, 1, 0, 0))
    case Heartbeat(s) => Beaten(x, cfg, s)
    case SetState(u, s, raw) => x.(w := GatewayStateSet(x.w, u, s, raw))
    case Disconnect(u, s, flapping) =>
      x.(w := JobDisconnected(x.w, u, s, flapping),
         tally := Count(x, u, 0, if s in x.w.st.At(u).members then 1 else 0, 0))
    case DisconnectUser(u, order) =>
      x.(w := ApiDisconnected(x.w, u, order), tally := Count(x, u, 0, |order|, 0))
    case SweepUser(u) =>
      x.(w := Swept(x.w, u), tally := Count(x, u, 0, 0, |Expired(x.w.st, u)|))
    case EndScan => x.(w := Finished(x.w))
  }

  ghost predicate Follows(cfg: Settings, tr: seq<System>, ops: seq<Op>, i: nat)
    requires i < |ops| && |tr| == |ops| + 1
  {
    Enabled(tr[i], ops[i]) && tr[i + 1] == Next(cfg, tr[i], ops[i])
  }

  /** `tr` is the sequence of states a run of the operations `ops` goes through. */
  ghost predicate IsRun(cfg: Settings, tr: seq<System>, ops: seq<Op>) {
    && |tr| == |ops| + 1
    && tr[0] == INITIAL
    && (forall i: nat | i < |ops| :: Follows(cfg, tr, ops, i))
  }

  // ----- What the server says about a user -----

  /** Tab count and presence value as an event carries them. */
  datatype View = View(tabs: nat, state: Option<Status>)

  function ViewOf(r: User): View {
    View(|r.members|, if r.members == {} then None else Some(Aggregate(r.states)))
  }

  function EventView(e: Event): View {
    View(e.tabs, e.state)
  }

  // ----- The invariant -----

  /** States are kept for exactly the member sessions and their aggregate is the published value. */
  predicate UserOk(r: User, online: bool) {
    && r.states.Keys == r.members
    && (online <==> r.members != {})
    && (r.members != {} ==> r.lastPub == Some(Aggregate(r.states)) && r.version >= 1)
  }

  /** A session key belongs to the session's owner; while it is live its owner lists it. */
  predicate KeyOk(st: Store, owner: map<SessionId, Owner>, s: SessionId)
    requires s in st.sessions
  {
    && s in owner
    && st.sessions[s].user == owner[s].user
    && st.sessions[s].device == owner[s].device
    && (st.Live(s) ==> s in st.At(owner[s].user).members)
  }

  predicate MembersOk(st: Store, owner: map<SessionId, Owner>, u: UserId) {
    forall s | s in st.At(u).members :: s in owner && owner[s].user == u
  }

  ghost predicate StoreOk(st: Store, owner: map<SessionId, Owner>) {
    && (forall u :: UserOk(st.At(u), u in st.online))
    && (forall u :: MembersOk(st, owner, u))
    && (forall s | s in st.sessions :: KeyOk(st, owner, s))
    && (st.online != {} ==> st.indexed)
  }

  /** Every published event describes its user as of its version. */
  ghost predicate LogOk(w: World) {
    && (forall e | e in w.log :: EventOk(w.st.At(e.user), e))
    && (forall e, f | e in w.log && f in w.log && e.user == f.user && e.version == f.version ::
          EventView(e) == EventView(f))
  }

  predicate EventOk(r: User, e: Event) {
    && 1 <= e.version <= r.version
    && (e.version == r.version ==> EventView(e) == ViewOf(r))
  }

  ghost predicate SystemOk(x: System) {
    StoreOk(x.w.st, x.owner) && LogOk(x.w)
  }

  // ----- Steps seen from the user they are about -----

  /** Either the version grew, or it and everything it stands for stayed the same. */
  predicate Counted(a: User, wasOnline: bool, b: User, isOnline: bool) {
    a.version < b.version
    || (a.version == b.version && ViewOf(a) == ViewOf(b) && wasOnline == isOnline)
  }

  /** An event that shows user `u` as `r`. */
  predicate Shows(e: Event, u: UserId, r: User) {
    e.user == u && 1 <= e.version == r.version && EventView(e) == ViewOf(r)
  }

  /** A step about user `u` alone: others keep their keys, and new events show `u` as it leaves them. */
  ghost predicate About(a: World, b: World, u: UserId) {
    && (forall v | v != u :: b.st.At(v) == a.st.At(v) && (v in b.st.online <==> v in a.st.online))
    && Counted(a.st.At(u), u in a.st.online, b.st.At(u), u in b.st.online)
    && a.st.now <= b.st.now && a.log <= b.log
    && (forall e | e in b.log :: e in a.log || Shows(e, u, b.st.At(u)))
  }

  lemma AboutKeepsLog(a: World, b: World, u: UserId)
    requires LogOk(a) && About(a, b, u)
    ensures LogOk(b)
  {
    forall e | e in b.log
      ensures EventOk(b.st.At(e.user), e)
    {
    }
    forall e, f | e in b.log && f in b.log && e.user == f.user && e.version == f.version
      ensures EventView(e) == EventView(f)
    {
      assert e in a.log || Shows(e, u, b.st.At(u));
      assert f in a.log || Shows(f, u, b.st.At(u));
    }
  }

  // ----- Connect -----

  /** A user's keys after a gateway connect. */
  function Arrived(r: User, s: SessionId, device: string): User {
    var a := r.Join(s);
    Initialised(if device != "" then a.AddDevice(device, 1) else a, s, |a.members|)
  }

  lemma ArrivedOk(r: User, s: SessionId, device: string, online: bool)
    requires UserOk(r, online) && s !in r.members
    ensures var b := Arrived(r, s, device);
            && UserOk(b, online || |b.members| == 1)
            && b.version == r.version + 1 && b.members == r.members + {s}
  {
    var b := Arrived(r, s, device);
    assert s in b.members;
    assert |b.members| == |r.members| + 1;
    if r.members == {} {
      assert r.states == map[];
      AddingActiveKeepsAggregate(map[], s);
      assert b.states == map[s := Active];
    } else {
      AddingActiveKeepsAggregate(r.states, s);
    }
  }

  /** A step about `u` keeps the store invariant when it keeps it for `u` and for the session keys. */
  lemma LocalStepKeepsStore(
    a: Store, b: Store, owner: map<SessionId, Owner>, owner': map<SessionId, Owner>, u: UserId)
    requires StoreOk(a, owner) && a.now == b.now
    requires forall v | v != u :: b.At(v) == a.At(v) && (v in b.online <==> v in a.online)
    requires UserOk(b.At(u), u in b.online) && MembersOk(b, owner', u)
    requires forall s | s in owner :: s in owner' && owner'[s] == owner[s]
    requires forall s | s in b.sessions :: KeyOk(b, owner', s) || (
               && s in a.sessions && b.sessions[s] == a.sessions[s]
               && (s in a.At(u).members && b.Live(s) ==> s in b.At(u).members))
    requires b.online != {} ==> b.indexed
    ensures StoreOk(b, owner')
  {
    forall v
      ensures UserOk(b.At(v), v in b.online) && MembersOk(b, owner', v)
    {
      assert UserOk(a.At(v), v in a.online) && MembersOk(a, owner, v);
    }
    forall s | s in b.sessions
      ensures KeyOk(b, owner', s)
    {
      if !KeyOk(b, owner', s) {
        assert KeyOk(a, owner, s);
      }
    }
  }

  /** What a gateway connect that leaves user `u` with the keys `r` does to the world. */
  ghost predicate Connects(w: World, b: World, r: User, u: UserId, s: SessionId, device: string,
                           hidden: bool, ttl: nat)
  {
    && b.st.At(u) == r
    && (forall v | v != u :: b.st.At(v) == w.st.At(v))
    && b.st.online == (if |r.members| == 1 then w.st.online + {u} else w.st.online)
    && b.st.indexed == (|r.members| == 1 || w.st.indexed)
    && b.st.sessions == w.st.sessions[s := SessionKey(u, device, w.st.Deadline(ttl))]
    && b.st.now == w.st.now
    && b.log == w.log + if hidden then [] else
         [Event(if |r.members| == 1 then UserOnline else UserTabs,
                u, r.version, |r.members|, Some(Aggregate(r.states)))]
  }

  lemma ConnectShape(w: World, u: UserId, s: SessionId, device: string, hidden: bool, ttl: nat)
    ensures var r := Arrived(w.st.At(u), s, device);
            Connects(w, GatewayConnected(w, u, s, device, hidden, ttl), r, u, s, device, hidden, ttl)
  {
    var r := Arrived(w.st.At(u), s, device);
    assert s in r.members;
    assert r.members == w.st.At(u).Join(s).members;
  }

  lemma MoreMembersOk(a: Store, b: Store, owner: map<SessionId, Owner>, u: UserId, s: SessionId, device: string)
    requires MembersOk(a, owner, u) && b.At(u).members == a.At(u).members + {s}
    ensures MembersOk(b, owner[s := Owner(u, device)], u)
  {
  }

  lemma ConnectKeepsStore(w: World, b: World, r: User, owner: map<SessionId, Owner>,
                          u: UserId, s: SessionId, device: string, hidden: bool, ttl: nat)
    requires StoreOk(w.st, owner) && s !in owner
    requires Connects(w, b, r, u, s, device, hidden, ttl)
    requires UserOk(r, u in b.st.online)
    requires r.members == w.st.At(u).members + {s}
    ensures StoreOk(b.st, owner[s := Owner(u, device)])
  {
    var owner' := owner[s := Owner(u, device)];
    MoreMembersOk(w.st, b.st, owner, u, s, device);
    forall k | k in b.st.sessions
      ensures k == s ==> KeyOk(b.st, owner', k)
      ensures k != s ==> k in w.st.sessions && b.st.sessions[k] == w.st.sessions[k]
    {
    }
    LocalStepKeepsStore(w.st, b.st, owner, owner', u);
  }

  lemma ConnectIsAbout(w: World, b: World, r: User,
                       u: UserId, s: SessionId, device: string, hidden: bool, ttl: nat)
    requires Connects(w, b, r, u, s, device, hidden, ttl)
    requires r.version == w.st.At(u).version + 1 && s in r.members
    ensures About(w, b, u)
  {
  }

  lemma ConnectStep(w: World, owner: map<SessionId, Owner>, u: UserId, s: SessionId, device: string,
                    hidden: bool, ttl: nat)
    requires StoreOk(w.st, owner) && s !in owner
    ensures var b := GatewayConnected(w, u, s, device, hidden, ttl);
            && StoreOk(b.st, owner[s := Owner(u, device)]) && About(w, b, u)
            && b.st.At(u).version == w.st.At(u).version + 1
            && b.st.At(u).members == w.st.At(u).members + {s}
            && |b.log| == |w.log| + if hidden then 0 else 1
  {
    var b := GatewayConnected(w, u, s, device, hidden, ttl);
    var r := Arrived(w.st.At(u), s, device);
    ConnectShape(w, u, s, device, hidden, ttl);
    assert UserOk(w.st.At(u), u in w.st.online) && MembersOk(w.st, owner, u);
    ArrivedOk(w.st.At(u), s, device, u in w.st.online);
    ConnectKeepsStore(w, b, r, owner, u, s, device, hidden, ttl);
    ConnectIsAbout(w, b, r, u, s, device, hidden, ttl);
  }

  // ----- Disconnect -----

  lemma LeftOk(r: User, s: SessionId, device: string, online: bool)
    requires UserOk(r, online)
    ensures var b := Left(r, s, device);
            && UserOk(b, online && r.members != {s})
            && b.version == (if s in r.members then r.version + 1 else r.version)
            && b.members == r.members - {s}
            && (s !in r.members ==> ViewOf(b) == ViewOf(r))
            && (b.members != {} ==> b.states == r.states - {s})
  {
    var b := Left(r, s, device);
    if s !in r.members {
      assert r.states - {s} == r.states;
    }
    if r.members != {s} {
      assert r.members - {s} == {} ==> r.members == {} by {
        if r.members != {} {
          var k :| k in r.members && k != s;
          assert k in r.members - {s};
        }
      }
    }
  }

  /** What disconnecting `s`, which leaves user `u` with the keys `r`, does to the store. */
  ghost predicate Departs(a: Store, b: Store, r: User, u: UserId, s: SessionId) {
    && b.At(u) == r
    && (forall v | v != u :: b.At(v) == a.At(v))
    && b.online == (if a.At(u).members == {s} then a.online - {u} else a.online)
    && b.indexed == a.indexed && b.now == a.now
    && b.sessions == a.sessions - {s}
  }

  lemma DisconnectShape(st: Store, u: UserId, s: SessionId)
    ensures Departs(st, Disconnected(st, u, s), Left(st.At(u), s, st.DeviceOf(s)), u, s)
    ensures st.LastOne(u, s) <==> st.At(u).members == {s}
  {
    assert st.LastOne(u, s) <==> st.At(u).members == {s} by {
      if st.LastOne(u, s) {
        assert forall k | k in st.At(u).members :: k == s || k in st.At(u).members - {s};
      }
    }
  }

  lemma DepartKeepsStore(a: Store, b: Store, r: User, owner: map<SessionId, Owner>, u: UserId, s: SessionId)
    requires StoreOk(a, owner) && Departs(a, b, r, u, s)
    requires UserOk(r, u in b.online) && r.members == a.At(u).members - {s}
    ensures StoreOk(b, owner)
  {
    assert MembersOk(a, owner, u);
    LocalStepKeepsStore(a, b, owner, owner, u);
  }

  lemma JobEventsShow(st: Store, r: User, u: UserId, s: SessionId, flapping: bool)
    requires UserOk(st.At(u), u in st.online)
    requires r.version == st.DisconnectResult(u, s).version && r.members == st.At(u).members - {s}
    requires r.members != {} ==> r.states == st.At(u).states - {s} && r.version >= 1
    requires st.LastOne(u, s) <==> st.At(u).members == {s}
    ensures forall e | e in JobEvents(u, DisconnectReport(st, u, s), flapping) :: Shows(e, u, r)
  {
  }

  lemma DisconnectStep(w: World, owner: map<SessionId, Owner>, u: UserId, s: SessionId, flapping: bool)
    requires StoreOk(w.st, owner)
    ensures var b := JobDisconnected(w, u, s, flapping);
            && StoreOk(b.st, owner) && About(w, b, u)
            && b.st.At(u).version == w.st.At(u).version + (if s in w.st.At(u).members then 1 else 0)
            && b.st.At(u).members == w.st.At(u).members - {s}
            && |b.log| <= |w.log| + 2
  {
    var b := JobDisconnected(w, u, s, flapping);
    var r := Left(w.st.At(u), s, w.st.DeviceOf(s));
    assert UserOk(w.st.At(u), u in w.st.online);
    DisconnectShape(w.st, u, s);
    LeftOk(w.st.At(u), s, w.st.DeviceOf(s), u in w.st.online);
    DepartKeepsStore(w.st, b.st, r, owner, u, s);
    JobEventsShow(w.st, r, u, s, flapping);
    assert About(w, b, u);
  }

  // ----- DisconnectUser -----

  ghost function Elements<T>(order: seq<T>): set<T> {
    set x | x in order
  }

  /** What disconnecting every session of a user does to the store. */
  ghost predicate AllDepart(a: Store, b: Store, u: UserId, order: seq<SessionId>) {
    && b.At(u) == NOBODY.(version := a.At(u).version + |order|)
    && (forall v | v != u :: b.At(v) == a.At(v))
    && b.online == a.online - {u}
    && b.indexed == a.indexed && b.now == a.now
    && b.sessions == a.sessions - Elements(order)
  }

  lemma DepartThenAll(st: Store, a: Store, b: Store, r: User, u: UserId, order: seq<SessionId>)
    requires |order| > 1
    requires Departs(st, a, r, u, order[0]) && r.version == st.At(u).version + 1
    requires st.At(u).members != {order[0]}
    requires AllDepart(a, b, u, order[1..])
    ensures AllDepart(st, b, u, order)
  {
    assert Elements(order) == {order[0]} + Elements(order[1..]);
  }

  /** Disconnecting every listed session, one after the other. */
  lemma {:induction false} DisconnectAllShape(st: Store, u: UserId, order: seq<SessionId>)
    requires order != [] && Lists(order, st.At(u).members)
    ensures AllDepart(st, DisconnectedAll(st, u, order), u, order)
    ensures LastReport(st, u, order) ==
            TransitionResult(Offline, st.At(u).version + |order|, 0, None, false)
    decreases |order|
  {
    var s := order[0];
    var a := Disconnected(st, u, s);
    DisconnectShape(st, u, s);
    if |order| == 1 {
      assert st.At(u).members == {s};
      assert Elements(order) == {s};
      assert DisconnectedAll(st, u, order) == a;
    } else {
      var rest := order[1..];
      assert order[1] in st.At(u).members;
      assert Lists(rest, st.At(u).members - {s});
      DisconnectAllShape(a, u, rest);
      DepartThenAll(st, a, DisconnectedAll(a, u, rest), a.At(u), u, order);
    }
  }

  lemma DisconnectTakesOne(st: Store, u: UserId, s: SessionId)
    ensures Disconnected(st, u, s).At(u).members == st.At(u).members - {s}
    ensures DisconnectReport(st, u, s).transition == if st.At(u).members == {s} then Offline else NoChange
  {
    DisconnectShape(st, u, s);
  }

  lemma ListsRest<T>(order: seq<T>, all: set<T>)
    requires order != [] && Lists(order, all)
    ensures Lists(order[1..], all - {order[0]})
    ensures |order| == 1 <==> all == {order[0]}
  {
    if |order| > 1 {
      assert order[1] in all;
    }
  }

  lemma DisconnectedPrefix(st: Store, u: UserId, order: seq<SessionId>, i: nat)
    requires 0 < i <= |order|
    ensures DisconnectedAll(st, u, order[..i])
            == DisconnectedAll(Disconnected(st, u, order[0]), u, order[1..][..i - 1])
  {
    assert order[..i][1..] == order[1..][..i - 1];
  }

  /** Every disconnect of the loop but the last reports no transition. */
  lemma {:induction false} OnlyTheLastReportsOffline(st: Store, u: UserId, order: seq<SessionId>, i: nat)
    requires order != [] && Lists(order, st.At(u).members) && i < |order|
    ensures var a := DisconnectedAll(st, u, order[..i]);
            DisconnectReport(a, u, order[i]).transition == (if i == |order| - 1 then Offline else NoChange)
    decreases i
  {
    ListsRest(order, st.At(u).members);
    DisconnectTakesOne(st, u, order[0]);
    if i > 0 {
      DisconnectedPrefix(st, u, order, i);
      OnlyTheLastReportsOffline(Disconnected(st, u, order[0]), u, order[1..], i - 1);
    }
  }

  lemma AllDepartKeepsStore(
    a: Store, b: Store, owner: map<SessionId, Owner>, u: UserId, order: seq<SessionId>)
    requires StoreOk(a, owner) && AllDepart(a, b, u, order)
    requires Lists(order, a.At(u).members)
    ensures StoreOk(b, owner)
  {
    forall s | s in b.sessions
      ensures s in a.sessions && b.sessions[s] == a.sessions[s] && s !in a.At(u).members
    {
      assert s !in order;
    }
    LocalStepKeepsStore(a, b, owner, owner, u);
  }

  lemma ApiShape(w: World, u: UserId, order: seq<SessionId>)
    requires order != [] && Lists(order, w.st.At(u).members)
    ensures var b := ApiDisconnected(w, u, order);
            && AllDepart(w.st, b.st, u, order)
            && b.log == w.log + [Event(UserOffline, u, w.st.At(u).version + |order|, 0, None)]
  {
    DisconnectAllShape(w.st, u, order);
  }

  lemma AllDepartIsAbout(a: World, b: World, u: UserId, order: seq<SessionId>)
    requires order != [] && AllDepart(a.st, b.st, u, order)
    requires b.log == a.log + [Event(UserOffline, u, a.st.At(u).version + |order|, 0, None)]
    ensures About(a, b, u)
  {
  }

  lemma DisconnectUserStep(w: World, owner: map<SessionId, Owner>, u: UserId, order: seq<SessionId>)
    requires StoreOk(w.st, owner) && Lists(order, w.st.At(u).members)
    ensures var b := ApiDisconnected(w, u, order); StoreOk(b.st, owner) && About(w, b, u)
  {
    var b := ApiDisconnected(w, u, order);
    if order == [] {
      assert UserOk(w.st.At(u), u in w.st.online);
      assert w.st.At(u).members == {};
      assert b == w;
    } else {
      ApiShape(w, u, order);
      AllDepartKeepsStore(w.st, b.st, owner, u, order);
      AllDepartIsAbout(w, b, u, order);
    }
  }

  // ----- Sweeping a user -----

  lemma SweptUserOk(r: User, dead: set<SessionId>, online: bool)
    requires UserOk(r, online) && dead <= r.members
    ensures var b := SweptUser(r, dead);
            && UserOk(b, online && b.members != {})
            && b.members == r.members - dead
            && (b == r || b.version == r.version + 1)
            && (b.members == {} || dead != {} ==> b.version == r.version + 1)
  {
    assert (r.states - dead).Keys == r.members - dead;
    if dead == {} {
      assert r.members - dead == r.members;
    }
  }

  /** What a sweep that leaves user `u` with the keys `r` does to the world. */
  ghost predicate Sweeps(a: World, b: World, r: User, u: UserId, pruned: bool) {
    && b.st.At(u) == r
    && (forall v | v != u :: b.st.At(v) == a.st.At(v))
    && b.st.online == (if r.members == {} then a.st.online - {u} else a.st.online)
    && b.st.sessions == a.st.sessions && b.st.indexed == a.st.indexed && b.st.now == a.st.now
    && b.log == a.log + SweepEvents(u, r, pruned)
  }

  lemma SweepShape(w: World, u: UserId)
    ensures var dead := Expired(w.st, u);
            Sweeps(w, Swept(w, u), SweptUser(w.st.At(u), dead), u, dead != {})
  {
    if Expired(w.st, u) == {} {
      assert w.st.At(u).members - Expired(w.st, u) == w.st.At(u).members;
      assert w.log + [] == w.log;
    }
  }

  lemma SweepKeepsStore(a: World, b: World, r: User, owner: map<SessionId, Owner>, u: UserId, dead: set<SessionId>)
    requires StoreOk(a.st, owner) && Sweeps(a, b, r, u, dead != {}) && dead == Expired(a.st, u)
    requires UserOk(r, u in b.st.online) && r.members == a.st.At(u).members - dead
    ensures StoreOk(b.st, owner)
  {
    assert MembersOk(a.st, owner, u);
    LocalStepKeepsStore(a.st, b.st, owner, owner, u);
  }

  lemma SweepIsAbout(a: World, b: World, r: User, u: UserId, pruned: bool)
    requires Sweeps(a, b, r, u, pruned) && UserOk(r, u in b.st.online)
    requires r.version == a.st.At(u).version + 1 || (r == a.st.At(u) && r.members != {} && !pruned)
    ensures About(a, b, u)
  {
  }

  lemma SweepStep(w: World, owner: map<SessionId, Owner>, u: UserId)
    requires StoreOk(w.st, owner)
    ensures var b := Swept(w, u); StoreOk(b.st, owner) && About(w, b, u)
  {
    var dead := Expired(w.st, u);
    var r := SweptUser(w.st.At(u), dead);
    assert UserOk(w.st.At(u), u in w.st.online);
    SweptUserOk(w.st.At(u), dead, u in w.st.online);
    SweepShape(w, u);
    SweepKeepsStore(w, Swept(w, u), r, owner, u, dead);
    SweepIsAbout(w, Swept(w, u), r, u, dead != {});
  }

  // ----- Presence state -----

  lemma StatusChosenOk(r: User, s: SessionId, status: Status, online: bool)
    requires UserOk(r, online) && s in r.members
    ensures var b := StatusChosen(r, s, status);
            UserOk(b, online) && b.members == r.members && Counted(r, online, b, online)
  {
  }

  lemma SetStateStep(w: World, owner: map<SessionId, Owner>, u: UserId, s: SessionId, raw: string)
    requires StoreOk(w.st, owner)
    ensures var b := GatewayStateSet(w, u, s, raw); StoreOk(b.st, owner) && About(w, b, u)
  {
    var b := GatewayStateSet(w, u, s, raw);
    assert UserOk(w.st.At(u), u in w.st.online) && MembersOk(w.st, owner, u);
    if Normalize(raw).Some? && s in w.st.At(u).members {
      StatusChosenOk(w.st.At(u), s, Normalize(raw).value, u in w.st.online);
      StateSetKeepsStore(w.st, b.st, owner, u);
    }
  }

  lemma StateSetKeepsStore(a: Store, b: Store, owner: map<SessionId, Owner>, u: UserId)
    requires StoreOk(a, owner) && b == a.(users := b.users)
    requires forall v | v != u :: b.At(v) == a.At(v)
    requires UserOk(b.At(u), u in b.online) && b.At(u).members == a.At(u).members
    ensures StoreOk(b, owner)
  {
    assert MembersOk(a, owner, u);
    LocalStepKeepsStore(a, b, owner, owner, u);
  }
}
