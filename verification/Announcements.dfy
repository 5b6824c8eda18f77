/**
  What each step publishes: the events follow from the keys of the user before and after the step,
  and every version a user is left at is announced, with the exceptions the design makes.
*/
module Announcements {
  import opened Base
  import opened Store
  import opened Events
  import opened Presence
  import opened Sweep
  import opened Debounce
  import opened Gateway
  import opened System
  import opened Runs

  /** The event of type `kind` that describes user `u` with the keys `r`. */
  function Describing(kind: Kind, u: UserId, r: User): Event {
    Event(kind, u, r.version, ViewOf(r).tabs, ViewOf(r).state)
  }

  /** What an operation that takes its user from the keys `a` to the keys `b` has to publish. */
  function Announced(op: Op, a: User, b: User): seq<Event> {
    match op
    case Connect(u, _, _, hidden) =>
      if hidden then [] else [Describing(if a.members == {} then UserOnline else UserTabs, u, b)]
    case SetState(u, _, _) => if a.lastPub == b.lastPub then [] else [Describing(UserPresence, u, b)]
    case Disconnect(u, _, flapping) =>
      if b.members != {} then
        [Describing(UserTabs, u, b)] + if a.lastPub == b.lastPub then [] else [Describing(UserPresence, u, b)]
      else if a.members != {} && !flapping then [Describing(UserOffline, u, b)]
      else []
    case DisconnectUser(u, _) => if a.members == {} then [] else [Describing(UserOffline, u, b)]
    case SweepUser(u) =>
      if b.members == {} then [Describing(UserOffline, u, b)]
      else if a.members == b.members then []
      else [Describing(UserTabs, u, b)]
    case _ => []
  }

  // ----- One step -----

  lemma ConnectAnnounces(w: World, u: UserId, s: SessionId, device: string, hidden: bool, ttl: nat)
    requires UserOk(w.st.At(u), u in w.st.online) && s !in w.st.At(u).members
    ensures var b := GatewayConnected(w, u, s, device, hidden, ttl);
            b.log == w.log + Announced(Op.Connect(u, s, device, hidden), w.st.At(u), b.st.At(u))
  {
    ConnectShape(w, u, s, device, hidden, ttl);
    ArrivedOk(w.st.At(u), s, device, u in w.st.online);
    assert |w.st.At(u).members + {s}| == |w.st.At(u).members| + 1;
  }

  /** A connect reports the transition, and version and session count as it leaves them. */
  lemma ConnectIsReported(w: World, u: UserId, s: SessionId, device: string, hidden: bool, ttl: nat)
    requires s !in w.st.At(u).members
    ensures var a, b := w.st.At(u), GatewayConnected(w, u, s, device, hidden, ttl).st.At(u);
            ConnectReport(w.st, u, s, hidden) ==
              ScriptResult(if a.members != {} then NoChange else if hidden then Hidden else Online,
                           b.version, |b.members|)
  {
    ConnectShape(w, u, s, device, hidden, ttl);
    assert |w.st.At(u).members + {s}| == |w.st.At(u).members| + 1;
  }

  lemma DisconnectAnnounces(w: World, u: UserId, s: SessionId, flapping: bool)
    requires UserOk(w.st.At(u), u in w.st.online)
    ensures var b := JobDisconnected(w, u, s, flapping);
            b.log == w.log + Announced(Op.Disconnect(u, s, flapping), w.st.At(u), b.st.At(u))
  {
    var r := Left(w.st.At(u), s, w.st.DeviceOf(s));
    DisconnectShape(w.st, u, s);
    LeftOk(w.st.At(u), s, w.st.DeviceOf(s), u in w.st.online);
    ReportSaysLeft(w.st, u, s, r);
    JobEventsAnnounce(u, DisconnectReport(w.st, u, s), w.st.At(u), r, s, flapping);
  }

  /** The report of a disconnect describes the keys it leaves. */
  ghost predicate Reports(r: TransitionResult, a: User, b: User) {
    && (r.transition == Offline <==> b.members == {} && a.members != {})
    && r.version == b.version && r.count == |b.members|
    && (b.members != {} ==> r.agg == Some(Aggregate(b.states)) && (r.changed <==> a.lastPub != b.lastPub))
  }

  lemma ReportSaysLeft(st: Store, u: UserId, s: SessionId, b: User)
    requires b == Left(st.At(u), s, st.DeviceOf(s)) && b.members == st.At(u).members - {s}
    requires b.version == if s in st.At(u).members then st.At(u).version + 1 else st.At(u).version
    requires b.members != {} ==> b.states == st.At(u).states - {s}
    requires st.LastOne(u, s) <==> st.At(u).members == {s}
    ensures Reports(DisconnectReport(st, u, s), st.At(u), b)
  {
  }

  lemma JobEventsAnnounce(u: UserId, r: TransitionResult, a: User, b: User, s: SessionId, flapping: bool)
    requires Reports(r, a, b)
    ensures JobEvents(u, r, flapping) == Announced(Op.Disconnect(u, s, flapping), a, b)
  {
  }

  lemma DisconnectUserAnnounces(w: World, u: UserId, order: seq<SessionId>)
    requires UserOk(w.st.At(u), u in w.st.online) && Lists(order, w.st.At(u).members)
    ensures var b := ApiDisconnected(w, u, order);
            b.log == w.log + Announced(Op.DisconnectUser(u, order), w.st.At(u), b.st.At(u))
  {
    if order != [] {
      assert order[0] in w.st.At(u).members;
      ApiShape(w, u, order);
    } else {
      assert w.st.At(u).members == {};
    }
  }

  lemma SweepAnnounces(w: World, u: UserId)
    requires UserOk(w.st.At(u), u in w.st.online)
    ensures var b := Swept(w, u);
            b.log == w.log + Announced(Op.SweepUser(u), w.st.At(u), b.st.At(u))
  {
    var dead := Expired(w.st, u);
    SweptUserOk(w.st.At(u), dead, u in w.st.online);
    SweepShape(w, u);
    if dead != {} {
      var s :| s in dead;
      assert s !in w.st.At(u).members - dead;
    }
  }

  lemma SetStateAnnounces(w: World, u: UserId, s: SessionId, raw: string)
    requires UserOk(w.st.At(u), u in w.st.online)
    ensures var b := GatewayStateSet(w, u, s, raw);
            b.log == w.log + Announced(Op.SetState(u, s, raw), w.st.At(u), b.st.At(u))
  {
  }

  lemma StepAnnounces(cfg: Settings, x: System, op: Op)
    requires StoreOk(x.w.st, x.owner) && Enabled(x, op)
    ensures var u := SubjectOf(op); var y := Next(cfg, x, op);
            y.w.log == x.w.log + Announced(op, x.w.st.At(u), y.w.st.At(u))
  {
    assert UserOk(x.w.st.At(SubjectOf(op)), SubjectOf(op) in x.w.st.online);
    assert MembersOk(x.w.st, x.owner, SubjectOf(op));
    match op
    case Connect(u, s, device, hidden) => ConnectAnnounces(x.w, u, s, device, hidden, cfg.ttl);
    case SetState(u, s, raw) => SetStateAnnounces(x.w, u, s, raw);
    case Disconnect(u, s, flapping) => DisconnectAnnounces(x.w, u, s, flapping);
    case DisconnectUser(u, order) => DisconnectUserAnnounces(x.w, u, order);
    case SweepUser(u) => SweepAnnounces(x.w, u);
    case _ => assert x.w.log + [] == x.w.log;
  }

  /**
    DisconnectUser takes any store, whatever races left behind, to one in which the user has neither
    sessions nor an online entry, says so once iff there was either, and finds nothing to do afterwards.
  */
  lemma DisconnectUserSettles(w: World, u: UserId, order: seq<SessionId>)
    requires Lists(order, w.st.At(u).members)
    ensures var a, b := w.st.At(u), ApiDisconnected(w, u, order);
            && b.st.At(u).members == {} && u !in b.st.online
            && b.st.At(u).version == a.version +
                 (if a.members != {} then |a.members| else if u in w.st.online then 1 else 0)
            && b.log == w.log + (if a.members != {} || u in w.st.online
                                 then [Event(UserOffline, u, b.st.At(u).version, 0, None)] else [])
            && (forall v | v != u :: b.st.At(v) == w.st.At(v) && (v in b.st.online <==> v in w.st.online))
            && UserReport(w.st, u, order) ==
                 TransitionResult(if a.members != {} || u in w.st.online then Offline else NoChange,
                                  b.st.At(u).version, 0, None, false)
            && ApiDisconnected(b, u, []) == b
  {
    if order == [] {
      assert w.st.At(u).members == {};
    } else {
      assert order[0] in w.st.At(u).members;
      ListingLength(order, w.st.At(u).members);
      ApiShape(w, u, order);
      DisconnectAllShape(w.st, u, order);
    }
  }

  // ----- Whole runs -----

  /** Every step of a run publishes exactly what the keys of its user before and after it call for. */
  lemma StepsPublishExactly(cfg: Settings, tr: seq<System>, ops: seq<Op>, i: nat)
    requires IsRun(cfg, tr, ops) && i < |ops|
    ensures var u := SubjectOf(ops[i]);
            tr[i + 1].w.log == tr[i].w.log + Announced(ops[i], tr[i].w.st.At(u), tr[i + 1].w.st.At(u))
  {
    ReachableIsOk(cfg, tr, ops, i);
    assert Follows(cfg, tr, ops, i);
    StepAnnounces(cfg, tr[i], ops[i]);
  }

  /** The two changes kept from subscribers: an invisible connect, and going offline while flapping. */
  predicate Withheld(op: Op, b: User) {
    || (op.Connect? && op.hidden)
    || (op.Disconnect? && op.flapping && b.members == {})
  }

  /** Step `k` takes user `u` to version `v`. */
  predicate Raises(tr: seq<System>, ops: seq<Op>, k: nat, u: UserId, v: nat)
    requires k < |ops| < |tr|
  {
    SubjectOf(ops[k]) == u && tr[k].w.st.At(u).version < tr[k + 1].w.st.At(u).version == v
  }

  /** The log holds an event that shows user `u` as `r`. */
  predicate Published(log: seq<Event>, u: UserId, r: User) {
    exists e :: e in log && Shows(e, u, r)
  }

  /** What it takes for a step to have something to announce. */
  predicate HasNews(op: Op, a: User, b: User) {
    match op
    case Connect(_, _, _, _) => true
    case SetState(_, _, _) => a.lastPub != b.lastPub
    case Disconnect(_, _, _) => a.members != {}
    case DisconnectUser(_, _) => a.members != {}
    case SweepUser(_) => b.members == {} || a.members != b.members
    case _ => false
  }

  lemma RaisedVersionIsAnnounced(op: Op, a: User, b: User)
    requires HasNews(op, a, b) && b.version >= 1 && !Withheld(op, b)
    ensures Published(Announced(op, a, b), SubjectOf(op), b)
  {
    var es := Announced(op, a, b);
    assert es != [];
    assert es[0] in es && Shows(es[0], SubjectOf(op), b);
  }

  lemma DisconnectRaises(w: World, u: UserId, s: SessionId, flapping: bool)
    requires UserOk(w.st.At(u), u in w.st.online)
    requires w.st.At(u).version < JobDisconnected(w, u, s, flapping).st.At(u).version
    ensures w.st.At(u).members != {}
  {
    DisconnectShape(w.st, u, s);
    LeftOk(w.st.At(u), s, w.st.DeviceOf(s), u in w.st.online);
  }

  lemma DisconnectUserRaises(w: World, u: UserId, order: seq<SessionId>)
    requires UserOk(w.st.At(u), u in w.st.online) && Lists(order, w.st.At(u).members)
    requires w.st.At(u).version < ApiDisconnected(w, u, order).st.At(u).version
    ensures w.st.At(u).members != {}
  {
    if order != [] {
      assert order[0] in w.st.At(u).members;
    }
  }

  lemma SweepRaises(w: World, u: UserId)
    requires w.st.At(u).version < Swept(w, u).st.At(u).version
    ensures var a, b := w.st.At(u), Swept(w, u).st.At(u); b.members == {} || a.members != b.members
  {
    SweepShape(w, u);
    if Expired(w.st, u) != {} {
      var s :| s in Expired(w.st, u);
      assert s in w.st.At(u).members;
    }
  }

  lemma SetStateRaises(w: World, u: UserId, s: SessionId, raw: string)
    requires w.st.At(u).version < GatewayStateSet(w, u, s, raw).st.At(u).version
    ensures w.st.At(u).lastPub != GatewayStateSet(w, u, s, raw).st.At(u).lastPub
  {
  }

  lemma QuietStepKeepsUsers(cfg: Settings, x: System, op: Op)
    ensures op.Wait? || op.Heartbeat? || op.EndScan? ==> Next(cfg, x, op).w.st.users == x.w.st.users
  {
  }

  /** A version only grows when there is something to announce. */
  lemma RaisingStep(cfg: Settings, x: System, op: Op)
    requires UserOk(x.w.st.At(SubjectOf(op)), SubjectOf(op) in x.w.st.online) && Enabled(x, op)
    requires var u := SubjectOf(op); x.w.st.At(u).version < Next(cfg, x, op).w.st.At(u).version
    ensures var u := SubjectOf(op); HasNews(op, x.w.st.At(u), Next(cfg, x, op).w.st.At(u))
  {
    match op
    case Connect(_, _, _, _) =>
    case SetState(u, s, raw) => SetStateRaises(x.w, u, s, raw);
    case Disconnect(u, s, flapping) => DisconnectRaises(x.w, u, s, flapping);
    case DisconnectUser(u, order) => DisconnectUserRaises(x.w, u, order);
    case SweepUser(u) => SweepRaises(x.w, u);
    case _ => QuietStepKeepsUsers(cfg, x, op);
  }

  lemma StepToVersion(cfg: Settings, tr: seq<System>, ops: seq<Op>, k: nat, u: UserId)
    requires IsRun(cfg, tr, ops) && k < |ops| && tr[k].w.st.At(u).version < tr[k + 1].w.st.At(u).version
    ensures SubjectOf(ops[k]) == u
    ensures Withheld(ops[k], tr[k + 1].w.st.At(u)) || Published(tr[k + 1].w.log, u, tr[k + 1].w.st.At(u))
  {
    ReachableIsOk(cfg, tr, ops, k);
    assert Follows(cfg, tr, ops, k);
    if SubjectOf(ops[k]) != u {
      OthersUntouched(cfg, tr[k], ops[k], u);
    }
    var a, b := tr[k].w.st.At(u), tr[k + 1].w.st.At(u);
    assert UserOk(a, u in tr[k].w.st.online);
    RaisingStep(cfg, tr[k], ops[k]);
    StepsPublishExactly(cfg, tr, ops, k);
    if !Withheld(ops[k], b) {
      RaisedVersionIsAnnounced(ops[k], a, b);
      var e :| e in Announced(ops[k], a, b) && Shows(e, u, b);
      assert e in tr[k + 1].w.log;
    }
  }

  lemma SameShown(log: seq<Event>, u: UserId, a: User, b: User)
    requires Published(log, u, a) && a.version == b.version && ViewOf(a) == ViewOf(b)
    ensures Published(log, u, b)
  {
    var e :| e in log && Shows(e, u, a);
    assert Shows(e, u, b);
  }

  /**
    Every version: some step took the user to it, and unless that step was an invisible connect or
    took a flapping user offline, an event of this version that shows the user has been published.
  */
  lemma {:induction false} VersionsAreAnnounced(cfg: Settings, tr: seq<System>, ops: seq<Op>, i: nat, u: UserId)
    returns (k: nat)
    requires IsRun(cfg, tr, ops) && i < |tr| && tr[i].w.st.At(u).version > 0
    ensures k < i && Raises(tr, ops, k, u, tr[i].w.st.At(u).version)
    ensures Withheld(ops[k], tr[k + 1].w.st.At(u)) || Published(tr[k + 1].w.log, u, tr[i].w.st.At(u))
  {
    assert i > 0;
    VersionCountsEveryChange(cfg, tr, ops, i - 1, i, u);
    if tr[i - 1].w.st.At(u).version == tr[i].w.st.At(u).version {
      k := VersionsAreAnnounced(cfg, tr, ops, i - 1, u);
      if !Withheld(ops[k], tr[k + 1].w.st.At(u)) {
        SameShown(tr[k + 1].w.log, u, tr[i - 1].w.st.At(u), tr[i].w.st.At(u));
      }
    } else {
      k := i - 1;
      StepToVersion(cfg, tr, ops, k, u);
    }
  }
}
