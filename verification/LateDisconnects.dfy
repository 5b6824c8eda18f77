/**
  A disconnect that comes after the sweeper has pruned the user's last session: when a user
  without sessions is left with a published presence value.
*/
module LateDisconnects {
  import opened Base
  import opened Store
  import opened Events
  import opened Sweep
  import opened Debounce
  import opened Gateway
  import opened System
  import opened Runs

  /** A value is published for a user who has no sessions. */
  predicate Stale(r: User) {
    r.members == {} && r.lastPub.Some?
  }

  /** The operation disconnects some session of a user who has none. */
  predicate IsLate(x: System, op: Op, u: UserId) {
    op.Disconnect? && op.u == u && x.w.st.At(u).members == {}
  }

  // ----- One step -----

  lemma ConnectIsNotStale(w: World, u: UserId, s: SessionId, device: string, hidden: bool, ttl: nat)
    ensures GatewayConnected(w, u, s, device, hidden, ttl).st.At(u).members != {}
  {
    ConnectShape(w, u, s, device, hidden, ttl);
    assert s in Arrived(w.st.At(u), s, device).members;
  }

  lemma DisconnectStale(w: World, u: UserId, s: SessionId, flapping: bool)
    requires UserOk(w.st.At(u), u in w.st.online)
    ensures var b := JobDisconnected(w, u, s, flapping).st.At(u); Stale(b) <==> w.st.At(u).members == {}
  {
    DisconnectShape(w.st, u, s);
    LeftOk(w.st.At(u), s, w.st.DeviceOf(s), u in w.st.online);
  }

  lemma DisconnectUserStale(w: World, u: UserId, order: seq<SessionId>)
    requires UserOk(w.st.At(u), u in w.st.online) && Lists(order, w.st.At(u).members)
    ensures var b := ApiDisconnected(w, u, order).st.At(u); Stale(b) <==> Stale(w.st.At(u)) && b.members == {}
  {
    if order != [] {
      ApiShape(w, u, order);
      assert order[0] in w.st.At(u).members;
    }
  }

  lemma SweepStale(w: World, u: UserId)
    ensures !Stale(Swept(w, u).st.At(u))
  {
    SweepShape(w, u);
    if Expired(w.st, u) == {} {
      assert w.st.At(u).members - Expired(w.st, u) == w.st.At(u).members;
    }
  }

  lemma StateSetStale(w: World, u: UserId, s: SessionId, raw: string)
    ensures var b := GatewayStateSet(w, u, s, raw).st.At(u); Stale(b) <==> Stale(w.st.At(u)) && b.members == {}
  {
  }

  /** A step leaves `u` stale iff it is late, or `u` was stale before and the step neither connects nor sweeps `u`. */
  lemma StepStale(cfg: Settings, x: System, op: Op, u: UserId)
    requires StoreOk(x.w.st, x.owner) && Enabled(x, op)
    ensures var b := Next(cfg, x, op).w.st.At(u);
            Stale(b) <==> IsLate(x, op, u) || (Stale(x.w.st.At(u)) && b.members == {} && op != Op.SweepUser(u))
  {
    assert UserOk(x.w.st.At(u), u in x.w.st.online);
    if u != SubjectOf(op) || op.Wait? || op.Heartbeat? || op.EndScan? {
      OthersUntouched(cfg, x, op, u);
    } else {
      match op
      case Connect(_, s, device, hidden) => ConnectIsNotStale(x.w, u, s, device, hidden, cfg.ttl);
      case SetState(_, s, raw) => StateSetStale(x.w, u, s, raw);
      case Disconnect(_, s, flapping) => DisconnectStale(x.w, u, s, flapping);
      case DisconnectUser(_, order) => DisconnectUserStale(x.w, u, order);
      case SweepUser(_) => SweepStale(x.w, u);
    }
  }

  /** What a late disconnect does: it publishes and counts nothing, but leaves the value "active" behind. */
  lemma LateDisconnectLeavesActive(
    cfg: Settings, tr: seq<System>, ops: seq<Op>, i: nat, u: UserId, s: SessionId, flapping: bool)
    requires IsRun(cfg, tr, ops) && i < |ops| && ops[i] == Op.Disconnect(u, s, flapping)
    requires tr[i].w.st.At(u).members == {}
    ensures var a, b := tr[i].w.st.At(u), tr[i + 1].w.st.At(u);
            && b.lastPub == Some(Active) && b.states == map[] && b.version == a.version
            && tr[i + 1].w.log == tr[i].w.log
  {
    ReachableIsOk(cfg, tr, ops, i);
    LateDisconnect(tr[i].w, u, s, flapping);
    assert Follows(cfg, tr, ops, i);
  }

  lemma LateDisconnect(w: World, u: UserId, s: SessionId, flapping: bool)
    requires UserOk(w.st.At(u), u in w.st.online) && w.st.At(u).members == {}
    ensures var a, b := w.st.At(u), JobDisconnected(w, u, s, flapping);
            && b.st.At(u).lastPub == Some(Active) && b.st.At(u).states == map[]
            && b.st.At(u).version == a.version && b.log == w.log
  {
    DisconnectShape(w.st, u, s);
    assert w.st.At(u).states == map[];
    assert w.st.At(u).states - {s} == map[];
    assert w.st.At(u).members - {s} == {};
  }

  // ----- Whole runs -----

  /** Step `k` disconnects `u` late, and up to state `i` nobody connects or sweeps `u`. */
  ghost predicate LateSince(tr: seq<System>, ops: seq<Op>, k: nat, i: nat, u: UserId)
    requires k < |ops| && i < |tr| == |ops| + 1
  {
    && k < i && IsLate(tr[k], ops[k], u)
    && (forall m: nat | k <= m <= i :: tr[m].w.st.At(u).members == {})
    && (forall m: nat | k < m < i :: ops[m] != Op.SweepUser(u))
  }

  lemma StepStaleAt(cfg: Settings, tr: seq<System>, ops: seq<Op>, i: nat, u: UserId)
    requires IsRun(cfg, tr, ops) && i < |ops|
    ensures var a, b := tr[i].w.st.At(u), tr[i + 1].w.st.At(u);
            Stale(b) <==> IsLate(tr[i], ops[i], u) || (Stale(a) && b.members == {} && ops[i] != Op.SweepUser(u))
  {
    ReachableIsOk(cfg, tr, ops, i);
    assert Follows(cfg, tr, ops, i);
    StepStale(cfg, tr[i], ops[i], u);
  }

  lemma {:induction false} StaleSince(cfg: Settings, tr: seq<System>, ops: seq<Op>, i: nat, u: UserId)
    returns (k: nat)
    requires IsRun(cfg, tr, ops) && i < |tr| && Stale(tr[i].w.st.At(u))
    ensures k < |ops| && LateSince(tr, ops, k, i, u)
  {
    if i == 0 {
      assert false;
    } else {
      StepStaleAt(cfg, tr, ops, i - 1, u);
      if IsLate(tr[i - 1], ops[i - 1], u) {
        k := i - 1;
      } else {
        k := StaleSince(cfg, tr, ops, i - 1, u);
      }
    }
  }

  lemma {:induction false} LateMeansStale(
    cfg: Settings, tr: seq<System>, ops: seq<Op>, k: nat, i: nat, u: UserId)
    requires IsRun(cfg, tr, ops) && k < |ops| && i < |tr| && LateSince(tr, ops, k, i, u)
    ensures Stale(tr[i].w.st.At(u))
    decreases i
  {
    StepStaleAt(cfg, tr, ops, i - 1, u);
    if k < i - 1 {
      LateMeansStale(cfg, tr, ops, k, i - 1, u);
    }
  }

  /** A user without sessions has a published value iff a late disconnect came since the last connect or sweep. */
  lemma StaleIffLateDisconnect(cfg: Settings, tr: seq<System>, ops: seq<Op>, i: nat, u: UserId)
    requires IsRun(cfg, tr, ops) && i < |tr|
    ensures Stale(tr[i].w.st.At(u)) <==> exists k: nat :: k < |ops| && LateSince(tr, ops, k, i, u)
  {
    if Stale(tr[i].w.st.At(u)) {
      var k := StaleSince(cfg, tr, ops, i, u);
    }
    if k: nat :| k < |ops| && LateSince(tr, ops, k, i, u) {
      LateMeansStale(cfg, tr, ops, k, i, u);
    }
  }

  // ----- Such a run -----

  lemma ExpiredAfterWait(cfg: Settings, a: System, b: System, hidden: bool)
    requires a == Next(cfg, INITIAL, Op.Connect("u", "s", "", hidden)) && b == Next(cfg, a, Wait(1000 * cfg.ttl))
    ensures b.w.st.At("u").members == {"s"} && Expired(b.w.st, "u") == {"s"}
  {
    ConnectShape(INITIAL.w, "u", "s", "", hidden, cfg.ttl);
    assert Arrived(NOBODY, "s", "").members == {"s"};
    assert b.w.st.At("u") == a.w.st.At("u");
  }

  lemma SweptAway(cfg: Settings, b: System, c: System)
    requires b.w.st.At("u").members == {"s"} && Expired(b.w.st, "u") == {"s"}
    requires c == Next(cfg, b, Op.SweepUser("u"))
    ensures c.w.st.At("u").members == {}
  {
    SweepShape(b.w, "u");
  }

  lemma SessionExpires(cfg: Settings, hidden: bool) returns (tr: seq<System>, ops: seq<Op>)
    ensures IsRun(cfg, tr, ops) && ops == [Op.Connect("u", "s", "", hidden), Wait(1000 * cfg.ttl)]
    ensures var b := tr[|tr| - 1]; b.w.st.At("u").members == {"s"} && Expired(b.w.st, "u") == {"s"}
    ensures tr[|tr| - 1].owner == map["s" := Owner("u", "")]
  {
    tr, ops := [INITIAL], [];
    tr, ops := Longer(cfg, tr, ops, Op.Connect("u", "s", "", hidden));
    var a := tr[1];
    tr, ops := Longer(cfg, tr, ops, Wait(1000 * cfg.ttl));
    ExpiredAfterWait(cfg, a, tr[2], hidden);
  }

  lemma SessionIsPruned(cfg: Settings, hidden: bool) returns (tr: seq<System>, ops: seq<Op>)
    ensures IsRun(cfg, tr, ops)
    ensures ops == [Op.Connect("u", "s", "", hidden), Wait(1000 * cfg.ttl), Op.SweepUser("u")]
    ensures tr[|tr| - 1].w.st.At("u").members == {} && tr[|tr| - 1].owner == map["s" := Owner("u", "")]
  {
    tr, ops := SessionExpires(cfg, hidden);
    var b := tr[|ops|];
    tr, ops := Longer(cfg, tr, ops, Op.SweepUser("u"));
    SweptAway(cfg, b, tr[|ops|]);
  }

  /** It happens: a session expires, the sweeper prunes it, and only then the disconnect job runs. */
  lemma LateDisconnectHappens(cfg: Settings) returns (tr: seq<System>, ops: seq<Op>)
    ensures IsRun(cfg, tr, ops) && Stale(tr[|ops|].w.st.At("u"))
  {
    tr, ops := SessionIsPruned(cfg, false);
    var n := |ops|;
    tr, ops := Longer(cfg, tr, ops, Op.Disconnect("u", "s", false));
    assert IsLate(tr[n], ops[n], "u");
    StepStaleAt(cfg, tr, ops, n, "u");
  }
}
