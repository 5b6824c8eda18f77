/**
  What sessions that expire leave behind: the invisible mark and the device counts are cleaned up by
  disconnects, not by the sweeper.
*/
module Leftovers {
  import opened Base
  import opened Store
  import opened Events
  import opened Presence
  import opened Sweep
  import opened Debounce
  import opened Gateway
  import opened System
  import opened Runs
  import opened LateDisconnects

  /** The operation disconnects the user's last session, or all of them. */
  predicate TakesOffline(x: System, op: Op, u: UserId) {
    || (op.Disconnect? && op.u == u && x.w.st.At(u).members == {op.s})
    || (op.DisconnectUser? && op.u == u && x.w.st.At(u).members != {})
  }

  // ----- The invisible mark -----

  predicate Hides(op: Op, u: UserId) {
    op.Connect? && op.u == u && op.hidden
  }

  lemma {:induction false} AllMarks(st: Store, u: UserId, order: seq<SessionId>)
    requires order != [] && Lists(order, st.At(u).members)
    ensures DisconnectedAll(st, u, order).invisible == st.invisible - {u}
    decreases |order|
  {
    var s := order[0];
    DisconnectShape(st, u, s);
    ListsRest(order, st.At(u).members);
    var a := Disconnected(st, u, s);
    if |order| > 1 {
      AllMarks(a, u, order[1..]);
    } else {
      assert DisconnectedAll(st, u, order) == a;
    }
  }

  lemma DisconnectMarks(st: Store, u: UserId, s: SessionId)
    ensures Disconnected(st, u, s).invisible == if st.At(u).members == {s} then st.invisible - {u} else st.invisible
  {
    DisconnectShape(st, u, s);
  }

  lemma DisconnectUserMarks(st: Store, u: UserId, order: seq<SessionId>)
    requires Lists(order, st.At(u).members)
    ensures DisconnectedUser(st, u, order).invisible
            == if st.At(u).members == {} then st.invisible else st.invisible - {u}
  {
    if order != [] {
      assert order[0] in st.At(u).members;
      AllMarks(st, u, order);
    } else {
      assert st.At(u).members == {};
    }
  }

  lemma StepMarks(cfg: Settings, x: System, op: Op, u: UserId)
    requires Enabled(x, op)
    ensures u in Next(cfg, x, op).w.st.invisible <==>
            Hides(op, u) || (u in x.w.st.invisible && !TakesOffline(x, op, u))
  {
    match op
    case Disconnect(v, s, _) => DisconnectMarks(x.w.st, v, s);
    case DisconnectUser(v, order) => DisconnectUserMarks(x.w.st, v, order);
    case _ =>
  }

  /** Step `k` connects `u` invisibly, and up to state `i` no disconnect takes the user offline. */
  ghost predicate HiddenSince(tr: seq<System>, ops: seq<Op>, k: nat, i: nat, u: UserId)
    requires k < |ops| && i < |tr| == |ops| + 1
  {
    k < i && Hides(ops[k], u) && forall m: nat | k < m < i :: !TakesOffline(tr[m], ops[m], u)
  }

  lemma MarksAt(cfg: Settings, tr: seq<System>, ops: seq<Op>, i: nat, u: UserId)
    requires IsRun(cfg, tr, ops) && i < |ops|
    ensures u in tr[i + 1].w.st.invisible <==>
            Hides(ops[i], u) || (u in tr[i].w.st.invisible && !TakesOffline(tr[i], ops[i], u))
  {
    assert Follows(cfg, tr, ops, i);
    StepMarks(cfg, tr[i], ops[i], u);
  }

  lemma {:induction false} MarkedSince(cfg: Settings, tr: seq<System>, ops: seq<Op>, i: nat, u: UserId)
    returns (k: nat)
    requires IsRun(cfg, tr, ops) && i < |tr| && u in tr[i].w.st.invisible
    ensures k < |ops| && HiddenSince(tr, ops, k, i, u)
  {
    if i == 0 {
      assert false;
    } else {
      MarksAt(cfg, tr, ops, i - 1, u);
      if Hides(ops[i - 1], u) {
        k := i - 1;
      } else {
        k := MarkedSince(cfg, tr, ops, i - 1, u);
      }
    }
  }

  lemma {:induction false} HiddenMeansMarked(
    cfg: Settings, tr: seq<System>, ops: seq<Op>, k: nat, i: nat, u: UserId)
    requires IsRun(cfg, tr, ops) && k < |ops| && i < |tr| && HiddenSince(tr, ops, k, i, u)
    ensures u in tr[i].w.st.invisible
    decreases i
  {
    MarksAt(cfg, tr, ops, i - 1, u);
    if k < i - 1 {
      HiddenMeansMarked(cfg, tr, ops, k, i - 1, u);
    }
  }

  /** What a lookup says of a user (LookupUsers). */
  predicate LooksOnline(st: Store, u: UserId) {
    u in st.online && u !in st.invisible
  }

  /**
    A user looks online iff they have sessions and, since a disconnect last took them offline, no
    connect was invisible. Expiry and sweeps do not count.
  */
  lemma LooksOnlineIffVisibleSince(cfg: Settings, tr: seq<System>, ops: seq<Op>, i: nat, u: UserId)
    requires IsRun(cfg, tr, ops) && i < |tr|
    ensures LooksOnline(tr[i].w.st, u) <==>
            && tr[i].w.st.At(u).members != {}
            && !exists k: nat :: k < |ops| && HiddenSince(tr, ops, k, i, u)
  {
    ReachableUserAgrees(cfg, tr, ops, i, u);
    if u in tr[i].w.st.invisible {
      var k := MarkedSince(cfg, tr, ops, i, u);
    }
    if k: nat :| k < |ops| && HiddenSince(tr, ops, k, i, u) {
      HiddenMeansMarked(cfg, tr, ops, k, i, u);
    }
  }

  /**
    It goes wrong: an invisible session expires and is swept, and the user connects again, visibly.
    Subscribers are told that the user is online, lookups say offline.
  */
  lemma VisibleUserLooksOffline(cfg: Settings) returns (tr: seq<System>, ops: seq<Op>)
    ensures IsRun(cfg, tr, ops)
    ensures var w := tr[|ops|].w;
            && w.st.At("u").members == {"t"} && ops[|ops| - 1..] == [Op.Connect("u", "t", "", false)]
            && (exists e :: e in w.log && e.kind == UserOnline && Shows(e, "u", w.st.At("u")))
            && !LooksOnline(w.st, "u")
  {
    tr, ops := SessionIsPruned(cfg, true);
    var w := tr[|ops|].w;
    tr, ops := Longer(cfg, tr, ops, Op.Connect("u", "t", "", false));
    ConnectShape(w, "u", "t", "", false, cfg.ttl);
    assert Arrived(w.st.At("u"), "t", "").members == {"t"};
    var log := tr[|ops|].w.log;
    assert log[|log| - 1] in log && Shows(log[|log| - 1], "u", tr[|ops|].w.st.At("u"));
    assert HiddenSince(tr, ops, 0, |ops|, "u");
    HiddenMeansMarked(cfg, tr, ops, 0, |ops|, "u");
  }

  // ----- Device counts -----

  ghost function OnDevice(sessions: set<SessionId>, owner: map<SessionId, Owner>, d: string): set<SessionId> {
    set s | s in sessions && s in owner && owner[s].device == d
  }

  /** The count of device `d` is the number of member sessions on it and `n` more. */
  ghost predicate Counts(r: User, owner: map<SessionId, Owner>, d: string, n: nat) {
    r.CountOf(d) == |OnDevice(r.members, owner, d)| + n
  }

  /** The sessions on `d` that leave in this step without being uncounted: they have expired before. */
  ghost function Missed(x: System, op: Op, u: UserId, d: string): set<SessionId> {
    match op
    case SweepUser(v) => if v == u then OnDevice(Expired(x.w.st, u), x.owner, d) else {}
    case Disconnect(v, s, _) =>
      if v == u && s in OnDevice(Expired(x.w.st, u), x.owner, d) then {s} else {}
    case _ => {}
  }

  /** How many sessions on `d` were missed since a disconnect last took the user offline. */
  ghost function MissedSince(tr: seq<System>, ops: seq<Op>, i: nat, u: UserId, d: string): nat
    requires i <= |ops| < |tr|
  {
    if i == 0 || TakesOffline(tr[i - 1], ops[i - 1], u) then 0
    else MissedSince(tr, ops, i - 1, u, d) + |Missed(tr[i - 1], ops[i - 1], u, d)|
  }

  lemma ArrivedCounts(r: User, s: SessionId, device: string, d: string)
    requires d != ""
    ensures var b := Arrived(r, s, device);
            b.members == r.members + {s} && b.CountOf(d) == r.CountOf(d) + if device == d then 1 else 0
  {
  }

  lemma ArrivalIsCounted(
    r: User, b: User, owner: map<SessionId, Owner>, u: UserId, s: SessionId, device: string, d: string, n: nat)
    requires s !in r.members && d != "" && Counts(r, owner, d, n)
    requires b.members == r.members + {s}
    requires b.CountOf(d) == r.CountOf(d) + if device == d then 1 else 0
    ensures Counts(b, owner[s := Owner(u, device)], d, n)
  {
    var on := OnDevice(r.members, owner, d);
    assert OnDevice(b.members, owner[s := Owner(u, device)], d) == if device == d then on + {s} else on;
  }

  /** `device` is the session's recorded device, or "" when its key has expired. */
  lemma DepartureIsCounted(
    r: User, owner: map<SessionId, Owner>, s: SessionId, device: string, d: string, n: nat, missed: nat)
    requires d != "" && Counts(r, owner, d, n)
    requires device != "" ==> s in r.members && s in owner && owner[s].device == device
    requires missed == if s in OnDevice(r.members, owner, d) && device == "" then 1 else 0
    ensures Counts(Left(r, s, device), owner, d, if r.members == {s} then 0 else n + missed)
  {
    var b := Left(r, s, device);
    var on := OnDevice(r.members, owner, d);
    assert OnDevice(b.members, owner, d) == on - {s};
    if r.members == {s} {
      assert on - {s} == {};
    }
  }

  lemma SweepIsCounted(r: User, owner: map<SessionId, Owner>, dead: set<SessionId>, d: string, n: nat)
    requires Counts(r, owner, d, n) && dead <= r.members
    ensures Counts(SweptUser(r, dead), owner, d, n + |OnDevice(dead, owner, d)|)
  {
    var b := SweptUser(r, dead);
    var on, off := OnDevice(r.members, owner, d), OnDevice(dead, owner, d);
    assert b.members == r.members - dead by {
      if dead == {} {
        assert r.members - dead == r.members;
      }
    }
    assert OnDevice(b.members, owner, d) == on - off && off <= on;
    assert |on - off| == |on| - |off| by {
      assert on == (on - off) + off;
    }
  }

  /** The device read before the disconnect: that of the session, unless its key has expired. */
  lemma DeviceIsOwners(st: Store, owner: map<SessionId, Owner>, u: UserId, s: SessionId)
    requires s in owner ==> owner[s].user == u
    requires s in st.sessions ==> KeyOk(st, owner, s)
    ensures st.DeviceOf(s) != "" ==> s in st.At(u).members && s in owner && owner[s].device == st.DeviceOf(s)
    ensures s in owner && s in st.At(u).members && owner[s].device != "" ==>
              (st.DeviceOf(s) == "" <==> s in Expired(st, u))
  {
  }

  lemma DisconnectIsCounted(x: System, u: UserId, s: SessionId, flapping: bool, d: string, n: nat)
    requires StoreOk(x.w.st, x.owner) && d != "" && Counts(x.w.st.At(u), x.owner, d, n)
    requires s in x.owner ==> x.owner[s].user == u
    ensures var missed := if s in OnDevice(Expired(x.w.st, u), x.owner, d) then 1 else 0;
            Counts(JobDisconnected(x.w, u, s, flapping).st.At(u), x.owner, d,
                   if x.w.st.At(u).members == {s} then 0 else n + missed)
  {
    var st := x.w.st;
    assert s in st.sessions ==> KeyOk(st, x.owner, s);
    DeviceIsOwners(st, x.owner, u, s);
    var missed := if s in OnDevice(Expired(st, u), x.owner, d) then 1 else 0;
    assert missed == if s in OnDevice(st.At(u).members, x.owner, d) && st.DeviceOf(s) == "" then 1 else 0;
    DepartureIsCounted(st.At(u), x.owner, s, st.DeviceOf(s), d, n, missed);
    DisconnectShape(st, u, s);
    assert JobDisconnected(x.w, u, s, flapping).st.At(u) == Left(st.At(u), s, st.DeviceOf(s));
  }

  lemma DisconnectUserIsCounted(x: System, u: UserId, order: seq<SessionId>, d: string, n: nat)
    requires UserOk(x.w.st.At(u), u in x.w.st.online) && Lists(order, x.w.st.At(u).members)
    requires Counts(x.w.st.At(u), x.owner, d, n)
    ensures Counts(ApiDisconnected(x.w, u, order).st.At(u), x.owner, d, if x.w.st.At(u).members == {} then n else 0)
  {
    if order != [] {
      assert order[0] in x.w.st.At(u).members;
      DisconnectAllShape(x.w.st, u, order);
      assert OnDevice(ApiDisconnected(x.w, u, order).st.At(u).members, x.owner, d) == {};
    } else {
      assert x.w.st.At(u).members == {};
    }
  }

  lemma ConnectIsCounted(
    cfg: Settings, x: System, u: UserId, s: SessionId, device: string, hidden: bool, d: string, n: nat)
    requires StoreOk(x.w.st, x.owner) && s !in x.owner && d != ""
    requires Counts(x.w.st.At(u), x.owner, d, n)
    ensures Counts(GatewayConnected(x.w, u, s, device, hidden, cfg.ttl).st.At(u),
                   x.owner[s := Owner(u, device)], d, n)
  {
    assert MembersOk(x.w.st, x.owner, u);
    ConnectShape(x.w, u, s, device, hidden, cfg.ttl);
    ArrivedCounts(x.w.st.At(u), s, device, d);
    ArrivalIsCounted(x.w.st.At(u), Arrived(x.w.st.At(u), s, device), x.owner, u, s, device, d, n);
  }

  lemma SweepUserIsCounted(x: System, u: UserId, d: string, n: nat)
    requires Counts(x.w.st.At(u), x.owner, d, n)
    ensures Counts(Swept(x.w, u).st.At(u), x.owner, d, n + |OnDevice(Expired(x.w.st, u), x.owner, d)|)
  {
    SweepIsCounted(x.w.st.At(u), x.owner, Expired(x.w.st, u), d, n);
    SweepShape(x.w, u);
  }

  lemma SetStateIsCounted(
    w: World, owner: map<SessionId, Owner>, u: UserId, s: SessionId, raw: string, d: string, n: nat)
    requires Counts(w.st.At(u), owner, d, n)
    ensures Counts(GatewayStateSet(w, u, s, raw).st.At(u), owner, d, n)
  {
  }

  lemma SameDevices(r: User, owner: map<SessionId, Owner>, owner': map<SessionId, Owner>, d: string, n: nat)
    requires Counts(r, owner, d, n)
    requires forall s | s in r.members :: s in owner && s in owner' && owner'[s] == owner[s]
    ensures Counts(r, owner', d, n)
  {
    assert OnDevice(r.members, owner', d) == OnDevice(r.members, owner, d);
  }

  /** A step leaves the counts of the users it is not about alone. */
  lemma OthersAreCounted(cfg: Settings, x: System, op: Op, u: UserId, d: string, n: nat)
    requires StoreOk(x.w.st, x.owner) && Enabled(x, op)
    requires u != SubjectOf(op) || op.Wait? || op.Heartbeat? || op.EndScan?
    requires Counts(x.w.st.At(u), x.owner, d, n)
    ensures var y := Next(cfg, x, op); Counts(y.w.st.At(u), y.owner, d, n)
  {
    OthersUntouched(cfg, x, op, u);
    OwnersStay(cfg, x, op);
    assert MembersOk(x.w.st, x.owner, u);
    SameDevices(x.w.st.At(u), x.owner, Next(cfg, x, op).owner, d, n);
  }

  /** The sessions missed once `op` is done, `n` having been missed before. */
  ghost function MissedAfter(x: System, op: Op, u: UserId, d: string, n: nat): nat {
    if TakesOffline(x, op, u) then 0 else n + |Missed(x, op, u, d)|
  }

  lemma MissedByOp(x: System, op: Op, u: UserId, d: string, n: nat)
    requires u == SubjectOf(op)
    ensures op.Connect? || op.SetState? ==> MissedAfter(x, op, u, d, n) == n
    ensures op.DisconnectUser? ==> MissedAfter(x, op, u, d, n) == if x.w.st.At(u).members == {} then n else 0
    ensures op.SweepUser? ==> MissedAfter(x, op, u, d, n) == n + |OnDevice(Expired(x.w.st, u), x.owner, d)|
    ensures op.Disconnect? ==>
              var missed := if op.s in OnDevice(Expired(x.w.st, u), x.owner, d) then 1 else 0;
              MissedAfter(x, op, u, d, n) == if x.w.st.At(u).members == {op.s} then 0 else n + missed
  {
  }

  lemma SubjectIsCounted(cfg: Settings, x: System, op: Op, u: UserId, d: string, n: nat)
    requires StoreOk(x.w.st, x.owner) && Enabled(x, op) && d != "" && u == SubjectOf(op)
    requires !op.Wait? && !op.Heartbeat? && !op.EndScan?
    requires Counts(x.w.st.At(u), x.owner, d, n)
    ensures var y := Next(cfg, x, op); Counts(y.w.st.At(u), y.owner, d, MissedAfter(x, op, u, d, n))
  {
    assert UserOk(x.w.st.At(u), u in x.w.st.online);
    MissedByOp(x, op, u, d, n);
    match op
    case Connect(_, s, device, hidden) => ConnectIsCounted(cfg, x, u, s, device, hidden, d, n);
    case SetState(_, s, raw) => SetStateIsCounted(x.w, x.owner, u, s, raw, d, n);
    case Disconnect(_, s, flapping) => DisconnectIsCounted(x, u, s, flapping, d, n);
    case DisconnectUser(_, order) => DisconnectUserIsCounted(x, u, order, d, n);
    case SweepUser(_) => SweepUserIsCounted(x, u, d, n);
  }

  lemma StepIsCounted(cfg: Settings, x: System, op: Op, u: UserId, d: string, n: nat)
    requires StoreOk(x.w.st, x.owner) && Enabled(x, op) && d != ""
    requires Counts(x.w.st.At(u), x.owner, d, n)
    ensures var y := Next(cfg, x, op); Counts(y.w.st.At(u), y.owner, d, MissedAfter(x, op, u, d, n))
  {
    if u != SubjectOf(op) || op.Wait? || op.Heartbeat? || op.EndScan? {
      OthersAreCounted(cfg, x, op, u, d, n);
    } else {
      SubjectIsCounted(cfg, x, op, u, d, n);
    }
  }

  /**
    The count of a device is the number of the user's sessions on it and, for every session on it that
    expired before its disconnect since a disconnect last took the user offline, one more.
  */
  lemma {:induction false} DeviceCountsAreOffByTheMissed(
    cfg: Settings, tr: seq<System>, ops: seq<Op>, i: nat, u: UserId, d: string)
    requires IsRun(cfg, tr, ops) && i < |tr| && d != ""
    ensures tr[i].w.st.At(u).CountOf(d) ==
            |OnDevice(tr[i].w.st.At(u).members, tr[i].owner, d)| + MissedSince(tr, ops, i, u, d)
  {
    if i > 0 {
      DeviceCountsAreOffByTheMissed(cfg, tr, ops, i - 1, u, d);
      ReachableIsOk(cfg, tr, ops, i - 1);
      assert Follows(cfg, tr, ops, i - 1);
      StepIsCounted(cfg, tr[i - 1], ops[i - 1], u, d, MissedSince(tr, ops, i - 1, u, d));
    }
  }

  predicate Named(st: Store, u: UserId) {
    "" !in st.At(u).devices
  }

  lemma ConnectNames(w: World, u: UserId, s: SessionId, device: string, hidden: bool, ttl: nat)
    requires Named(w.st, u)
    ensures Named(GatewayConnected(w, u, s, device, hidden, ttl).st, u)
  {
    ConnectShape(w, u, s, device, hidden, ttl);
  }

  lemma DisconnectNames(w: World, u: UserId, s: SessionId, flapping: bool)
    requires Named(w.st, u)
    ensures Named(JobDisconnected(w, u, s, flapping).st, u)
  {
    DisconnectShape(w.st, u, s);
  }

  lemma DisconnectUserNames(w: World, u: UserId, order: seq<SessionId>)
    requires Lists(order, w.st.At(u).members) && Named(w.st, u)
    ensures Named(ApiDisconnected(w, u, order).st, u)
  {
    if order != [] {
      DisconnectAllShape(w.st, u, order);
    }
  }

  lemma SweepNames(w: World, u: UserId)
    requires Named(w.st, u)
    ensures Named(Swept(w, u).st, u)
  {
    SweepShape(w, u);
  }

  lemma SetStateNames(w: World, u: UserId, s: SessionId, raw: string)
    requires Named(w.st, u)
    ensures Named(GatewayStateSet(w, u, s, raw).st, u)
  {
  }

  lemma StepNames(cfg: Settings, x: System, op: Op, u: UserId)
    requires StoreOk(x.w.st, x.owner) && Enabled(x, op) && Named(x.w.st, u)
    ensures Named(Next(cfg, x, op).w.st, u)
  {
    if u != SubjectOf(op) || op.Wait? || op.Heartbeat? || op.EndScan? {
      OthersUntouched(cfg, x, op, u);
    } else {
      match op
      case Connect(_, s, device, hidden) => ConnectNames(x.w, u, s, device, hidden, cfg.ttl);
      case SetState(_, s, raw) => SetStateNames(x.w, u, s, raw);
      case Disconnect(_, s, flapping) => DisconnectNames(x.w, u, s, flapping);
      case DisconnectUser(_, order) => DisconnectUserNames(x.w, u, order);
      case SweepUser(_) => SweepNames(x.w, u);
    }
  }

  /** Sessions without a device are not counted. */
  lemma {:induction false} UnnamedDeviceIsNotCounted(
    cfg: Settings, tr: seq<System>, ops: seq<Op>, i: nat, u: UserId)
    requires IsRun(cfg, tr, ops) && i < |tr|
    ensures "" !in tr[i].w.st.At(u).devices
  {
    if i > 0 {
      UnnamedDeviceIsNotCounted(cfg, tr, ops, i - 1, u);
      ReachableIsOk(cfg, tr, ops, i - 1);
      assert Follows(cfg, tr, ops, i - 1);
      StepNames(cfg, tr[i - 1], ops[i - 1], u);
    }
  }

  predicate AllLive(st: Store, u: UserId) {
    forall s | s in st.At(u).members :: st.Live(s)
  }

  lemma {:induction false} NoneMissed(tr: seq<System>, ops: seq<Op>, i: nat, u: UserId, d: string)
    requires i <= |ops| < |tr| && forall k | 0 <= k < i :: AllLive(tr[k].w.st, u)
    ensures MissedSince(tr, ops, i, u, d) == 0
  {
    if i > 0 {
      NoneMissed(tr, ops, i - 1, u, d);
      assert AllLive(tr[i - 1].w.st, u);
      assert Expired(tr[i - 1].w.st, u) == {};
      assert Missed(tr[i - 1], ops[i - 1], u, d) == {};
    }
  }

  /** Device counts never fall below the truth; they are exact while no session expires first. */
  lemma DeviceCountsCoverSessions(cfg: Settings, tr: seq<System>, ops: seq<Op>, i: nat, u: UserId, d: string)
    requires IsRun(cfg, tr, ops) && i < |tr| && d != ""
    ensures var n := |OnDevice(tr[i].w.st.At(u).members, tr[i].owner, d)|;
            && n <= tr[i].w.st.At(u).CountOf(d)
            && ((forall k | 0 <= k < i :: AllLive(tr[k].w.st, u)) ==> n == tr[i].w.st.At(u).CountOf(d))
  {
    DeviceCountsAreOffByTheMissed(cfg, tr, ops, i, u, d);
    if forall k | 0 <= k < i :: AllLive(tr[k].w.st, u) {
      NoneMissed(tr, ops, i, u, d);
    }
  }
}
