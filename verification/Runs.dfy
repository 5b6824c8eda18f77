/** What holds in every run of the operation-level machine. */
module Runs {
  import opened Base
  import opened Store
  import opened Events
  import opened Presence
  import opened Sweep
  import opened Debounce
  import opened Gateway
  import opened System

  /** The user a step is about; steps about nobody change no user's keys. */
  function SubjectOf(op: Op): UserId {
    match op
    case Connect(u, _, _, _) => u
    case SetState(u, _, _) => u
    case Disconnect(u, _, _) => u
    case DisconnectUser(u, _) => u
    case SweepUser(u) => u
    case _ => ""
  }

  // ----- Every step keeps the invariant -----

  lemma QuietStep(a: World, b: World, owner: map<SessionId, Owner>)
    requires StoreOk(a.st, owner) && a.log == b.log && b.st.now >= a.st.now
    requires b.st.users == a.st.users && b.st.online == a.st.online
    requires b.st.online != {} ==> b.st.indexed
    requires forall s | s in b.st.sessions ::
      && s in a.st.sessions
      && b.st.sessions[s].user == a.st.sessions[s].user
      && b.st.sessions[s].device == a.st.sessions[s].device
      && (b.st.Live(s) ==> a.st.Live(s))
    ensures StoreOk(b.st, owner) && About(a, b, "")
  {
    forall u
      ensures UserOk(b.st.At(u), u in b.st.online) && MembersOk(b.st, owner, u)
    {
      assert UserOk(a.st.At(u), u in a.st.online) && MembersOk(a.st, owner, u);
    }
    forall s | s in b.st.sessions
      ensures KeyOk(b.st, owner, s)
    {
      assert KeyOk(a.st, owner, s);
    }
  }

  lemma WaitStep(w: World, owner: map<SessionId, Owner>, ms: nat)
    requires StoreOk(w.st, owner)
    ensures StoreOk(Pass(w, ms).st, owner) && About(w, Pass(w, ms), "")
  {
    QuietStep(w, Pass(w, ms), owner);
  }

  lemma HeartbeatStep(x: System, cfg: Settings, s: SessionId)
    requires StoreOk(x.w.st, x.owner)
    ensures var y := Beaten(x, cfg, s);
            StoreOk(y.w.st, y.owner) && About(x.w, y.w, "")
  {
    QuietStep(x.w, Beaten(x, cfg, s).w, x.owner);
  }

  lemma StepIsAboutItsSubject(cfg: Settings, x: System, op: Op)
    requires StoreOk(x.w.st, x.owner) && Enabled(x, op)
    ensures var y := Next(cfg, x, op);
            StoreOk(y.w.st, y.owner) && About(x.w, y.w, SubjectOf(op))
  {
    match op
    case Wait(ms) => WaitStep(x.w, x.owner, ms);
    case Connect(u, s, device, hidden) => ConnectStep(x.w, x.owner, u, s, device, hidden, cfg.ttl);
    case Heartbeat(s) => HeartbeatStep(x, cfg, s);
    case SetState(u, s, raw) => SetStateStep(x.w, x.owner, u, s, raw);
    case Disconnect(u, s, flapping) => DisconnectStep(x.w, x.owner, u, s, flapping);
    case DisconnectUser(u, order) => DisconnectUserStep(x.w, x.owner, u, order);
    case SweepUser(u) => SweepStep(x.w, x.owner, u);
    case EndScan => QuietStep(x.w, Finished(x.w), x.owner);
  }

  lemma StepKeepsOk(cfg: Settings, x: System, op: Op)
    requires SystemOk(x) && Enabled(x, op)
    ensures SystemOk(Next(cfg, x, op))
  {
    StepIsAboutItsSubject(cfg, x, op);
    AboutKeepsLog(x.w, Next(cfg, x, op).w, SubjectOf(op));
  }

  lemma {:induction false} ReachableIsOk(cfg: Settings, tr: seq<System>, ops: seq<Op>, i: nat)
    requires IsRun(cfg, tr, ops) && i < |tr|
    ensures SystemOk(tr[i])
  {
    if i > 0 {
      ReachableIsOk(cfg, tr, ops, i - 1);
      assert Follows(cfg, tr, ops, i - 1);
      StepKeepsOk(cfg, tr[i - 1], ops[i - 1]);
    }
  }

  /** What the runs guarantee from state to state. */
  ghost predicate Evolves(tr: seq<System>) {
    && (forall i | 0 <= i < |tr| :: SystemOk(tr[i]))
    && (forall i | 0 < i < |tr| :: Moves(tr[i - 1].w, tr[i].w))
  }

  ghost predicate Moves(a: World, b: World) {
    exists u :: About(a, b, u)
  }

  lemma RunsEvolve(cfg: Settings, tr: seq<System>, ops: seq<Op>)
    requires IsRun(cfg, tr, ops)
    ensures Evolves(tr)
  {
    forall i | 0 <= i < |tr|
      ensures SystemOk(tr[i])
    {
      ReachableIsOk(cfg, tr, ops, i);
    }
    forall i | 0 < i < |tr|
      ensures Moves(tr[i - 1].w, tr[i].w)
    {
      assert Follows(cfg, tr, ops, i - 1);
      StepIsAboutItsSubject(cfg, tr[i - 1], ops[i - 1]);
      assert About(tr[i - 1].w, tr[i].w, SubjectOf(ops[i - 1]));
    }
  }

  /** In every reachable state: online iff sessions, states exactly for members, published = aggregate. */
  lemma ReachableUserAgrees(cfg: Settings, tr: seq<System>, ops: seq<Op>, i: nat, u: UserId)
    requires IsRun(cfg, tr, ops) && i < |tr|
    ensures var st := tr[i].w.st; var r := st.At(u);
            && (u in st.online <==> r.members != {})
            && r.states.Keys == r.members
            && (r.members != {} ==> r.lastPub == Some(Aggregate(r.states)))
            && (st.online != {} ==> st.indexed)
            && (forall s | s in st.sessions && st.Live(s) && st.sessions[s].user == u :: s in r.members)
  {
    ReachableIsOk(cfg, tr, ops, i);
    var st := tr[i].w.st;
    assert UserOk(st.At(u), u in st.online);
    forall s | s in st.sessions && st.Live(s) && st.sessions[s].user == u
      ensures s in st.At(u).members
    {
      assert KeyOk(st, tr[i].owner, s);
    }
  }

  /** What is published for a user with sessions is dnd iff one of them is dnd, idle iff one is idle and none dnd. */
  lemma PublishedValueHasPriority(cfg: Settings, tr: seq<System>, ops: seq<Op>, i: nat, u: UserId)
    requires IsRun(cfg, tr, ops) && i < |tr| && tr[i].w.st.At(u).members != {}
    ensures var r := tr[i].w.st.At(u);
            && r.states.Keys == r.members
            && (r.lastPub == Some(Dnd) <==> HasStatus(r.states, Dnd))
            && (r.lastPub == Some(Idle) <==> HasStatus(r.states, Idle) && !HasStatus(r.states, Dnd))
            && (r.lastPub == Some(Active) <==> forall s | s in r.members :: r.states[s] == Active)
  {
    ReachableUserAgrees(cfg, tr, ops, i, u);
    AggregateHasPriority(tr[i].w.st.At(u).states);
  }

  /** A run that goes on with one more operation. */
  lemma Longer(cfg: Settings, tr: seq<System>, ops: seq<Op>, op: Op) returns (tr': seq<System>, ops': seq<Op>)
    requires IsRun(cfg, tr, ops) && Enabled(tr[|ops|], op)
    ensures ops' == ops + [op] && tr' == tr + [Next(cfg, tr[|ops|], op)]
    ensures IsRun(cfg, tr', ops')
  {
    tr', ops' := tr + [Next(cfg, tr[|ops|], op)], ops + [op];
    forall i: nat | i < |ops'|
      ensures Follows(cfg, tr', ops', i)
    {
      assert i < |ops| ==> Follows(cfg, tr, ops, i);
    }
  }

  // ----- The version is a faithful change counter -----

  lemma {:induction false} VersionsEvolve(tr: seq<System>, i: nat, j: nat, u: UserId)
    requires Evolves(tr) && i <= j < |tr|
    ensures var a, b := tr[i].w.st, tr[j].w.st;
            i == j || Counted(a.At(u), u in a.online, b.At(u), u in b.online)
    decreases j
  {
    if i < j {
      VersionsEvolve(tr, i, j - 1, u);
      assert Moves(tr[j - 1].w, tr[j].w);
    }
  }

  /** Versions never decrease, and two states with the same version look the same. */
  lemma VersionCountsEveryChange(
    cfg: Settings, tr: seq<System>, ops: seq<Op>, i: nat, j: nat, u: UserId)
    requires IsRun(cfg, tr, ops) && i <= j < |tr|
    ensures var a, b := tr[i].w.st, tr[j].w.st;
            && a.At(u).version <= b.At(u).version
            && (a.At(u).version == b.At(u).version ==>
                  ViewOf(a.At(u)) == ViewOf(b.At(u)) && (u in a.online <==> u in b.online))
  {
    RunsEvolve(cfg, tr, ops);
    VersionsEvolve(tr, i, j, u);
  }

  // ----- Event types -----

  /** An event's type says what its tab count and state say. */
  predicate KindOk(e: Event) {
    match e.kind
    case UserOnline => e.tabs == 1 && e.state.Some?
    case UserOffline => e.tabs == 0 && e.state.None?
    case OtherKind(_) => false
    case _ => e.tabs >= 1 && e.state.Some?
  }

  ghost predicate AddsOkKinds(a: seq<Event>, b: seq<Event>) {
    forall e | e in b :: e in a || KindOk(e)
  }

  lemma ConnectKinds(w: World, u: UserId, s: SessionId, device: string, hidden: bool, ttl: nat)
    ensures AddsOkKinds(w.log, GatewayConnected(w, u, s, device, hidden, ttl).log)
  {
    ConnectShape(w, u, s, device, hidden, ttl);
    assert s in Arrived(w.st.At(u), s, device).members;
  }

  lemma DisconnectKinds(w: World, u: UserId, s: SessionId, flapping: bool)
    ensures AddsOkKinds(w.log, JobDisconnected(w, u, s, flapping).log)
  {
    var r := DisconnectReport(w.st, u, s);
    assert r.transition == Offline ==> r.count == 0;
    forall e | e in JobEvents(u, r, flapping)
      ensures KindOk(e)
    {
    }
  }

  lemma StateSetKinds(w: World, u: UserId, s: SessionId, raw: string)
    ensures AddsOkKinds(w.log, GatewayStateSet(w, u, s, raw).log)
  {
    var r := StateReport(w.st, u, s, raw);
    assert r.Updated? ==> s in w.st.At(u).members;
    assert forall e | e in StateEvents(u, r) :: KindOk(e);
  }

  lemma DisconnectUserKinds(w: World, u: UserId, order: seq<SessionId>)
    requires Lists(order, w.st.At(u).members)
    ensures AddsOkKinds(w.log, ApiDisconnected(w, u, order).log)
  {
    if order != [] {
      ApiShape(w, u, order);
    }
  }

  lemma SweepKinds(w: World, u: UserId)
    ensures AddsOkKinds(w.log, Swept(w, u).log)
  {
    SweepShape(w, u);
    var a := SweptUser(w.st.At(u), Expired(w.st, u));
    assert forall e | e in SweepEvents(u, a, Expired(w.st, u) != {}) :: KindOk(e);
  }

  lemma StepKinds(cfg: Settings, x: System, op: Op)
    requires Enabled(x, op)
    ensures AddsOkKinds(x.w.log, Next(cfg, x, op).w.log)
  {
    match op
    case Connect(u, s, device, hidden) => ConnectKinds(x.w, u, s, device, hidden, cfg.ttl);
    case SetState(u, s, raw) => StateSetKinds(x.w, u, s, raw);
    case Disconnect(u, s, flapping) => DisconnectKinds(x.w, u, s, flapping);
    case DisconnectUser(u, order) => DisconnectUserKinds(x.w, u, order);
    case SweepUser(u) => SweepKinds(x.w, u);
    case _ =>
  }

  /** Of all events ever published, exactly those of type offline carry no tabs, and those of type online one tab. */
  lemma {:induction false} KindsMatchTabs(cfg: Settings, tr: seq<System>, ops: seq<Op>, i: nat, e: Event)
    requires IsRun(cfg, tr, ops) && i < |tr| && e in tr[i].w.log
    ensures KindOk(e)
  {
    if i > 0 {
      assert Follows(cfg, tr, ops, i - 1);
      StepKinds(cfg, tr[i - 1], ops[i - 1]);
      if e in tr[i - 1].w.log {
        KindsMatchTabs(cfg, tr, ops, i - 1, e);
      }
    }
  }

  // ----- Sessions are conserved -----

  predicate Conserved(x: System, u: UserId) {
    var t := x.TallyOf(u);
    |x.w.st.At(u).members| + t.removed + t.pruned == t.added
  }

  lemma {:induction false} ListingLength<T>(order: seq<T>, s: set<T>)
    requires Lists(order, s)
    ensures |order| == |s|
    decreases |order|
  {
    if order != [] {
      assert Lists(order[1..], s - {order[0]});
      ListingLength(order[1..], s - {order[0]});
    }
  }

  lemma ConnectConserves(cfg: Settings, x: System, u: UserId, s: SessionId, device: string, hidden: bool)
    requires MembersOk(x.w.st, x.owner, u) && s !in x.owner && Conserved(x, u)
    ensures Conserved(Next(cfg, x, Op.Connect(u, s, device, hidden)), u)
  {
    ConnectShape(x.w, u, s, device, hidden, cfg.ttl);
    assert Arrived(x.w.st.At(u), s, device).members == x.w.st.At(u).members + {s};
  }

  lemma DisconnectConserves(cfg: Settings, x: System, u: UserId, s: SessionId, flapping: bool)
    requires UserOk(x.w.st.At(u), u in x.w.st.online) && Conserved(x, u)
    ensures Conserved(Next(cfg, x, Op.Disconnect(u, s, flapping)), u)
  {
    DisconnectShape(x.w.st, u, s);
    LeftOk(x.w.st.At(u), s, x.w.st.DeviceOf(s), u in x.w.st.online);
  }

  lemma DisconnectUserConserves(cfg: Settings, x: System, u: UserId, order: seq<SessionId>)
    requires UserOk(x.w.st.At(u), u in x.w.st.online) && Conserved(x, u)
    requires Lists(order, x.w.st.At(u).members)
    ensures Conserved(Next(cfg, x, Op.DisconnectUser(u, order)), u)
  {
    ListingLength(order, x.w.st.At(u).members);
    DisconnectUserEmpties(x.w, u, order);
  }

  lemma DisconnectUserEmpties(w: World, u: UserId, order: seq<SessionId>)
    requires Lists(order, w.st.At(u).members)
    ensures ApiDisconnected(w, u, order).st.At(u).members == {}
  {
    if order == [] {
      assert w.st.At(u).members == {};
    } else {
      DisconnectAllShape(w.st, u, order);
    }
  }

  lemma SweepConserves(cfg: Settings, x: System, u: UserId)
    requires Conserved(x, u)
    ensures Conserved(Next(cfg, x, Op.SweepUser(u)), u)
  {
    var dead := Expired(x.w.st, u);
    assert dead <= x.w.st.At(u).members;
    if dead == {} {
      assert x.w.st.At(u).members - dead == x.w.st.At(u).members;
    }
    assert Swept(x.w, u).st.At(u).members == x.w.st.At(u).members - dead;
  }

  lemma SetStateConserves(cfg: Settings, x: System, u: UserId, s: SessionId, raw: string)
    requires Conserved(x, u)
    ensures Conserved(Next(cfg, x, Op.SetState(u, s, raw)), u)
  {
    assert GatewayStateSet(x.w, u, s, raw).st.At(u).members == x.w.st.At(u).members;
  }

  lemma TallyUntouched(cfg: Settings, x: System, op: Op, u: UserId)
    requires Enabled(x, op) && (u != SubjectOf(op) || op.Wait? || op.Heartbeat? || op.EndScan?)
    ensures Next(cfg, x, op).TallyOf(u) == x.TallyOf(u)
  {
  }

  /** A step leaves the keys and the tally of the users it is not about alone. */
  lemma OthersUntouched(cfg: Settings, x: System, op: Op, u: UserId)
    requires StoreOk(x.w.st, x.owner) && Enabled(x, op)
    requires u != SubjectOf(op) || op.Wait? || op.Heartbeat? || op.EndScan?
    ensures var y := Next(cfg, x, op); y.w.st.At(u) == x.w.st.At(u) && y.TallyOf(u) == x.TallyOf(u)
  {
    TallyUntouched(cfg, x, op, u);
    if u != SubjectOf(op) {
      StepIsAboutItsSubject(cfg, x, op);
    }
  }

  lemma StepConserves(cfg: Settings, x: System, op: Op, u: UserId)
    requires StoreOk(x.w.st, x.owner) && Enabled(x, op) && Conserved(x, u)
    ensures Conserved(Next(cfg, x, op), u)
  {
    assert MembersOk(x.w.st, x.owner, u) && UserOk(x.w.st.At(u), u in x.w.st.online);
    if u != SubjectOf(op) || op.Wait? || op.Heartbeat? || op.EndScan? {
      OthersUntouched(cfg, x, op, u);
    } else {
      match op
      case Connect(_, s, device, hidden) => ConnectConserves(cfg, x, u, s, device, hidden);
      case SetState(_, s, raw) => SetStateConserves(cfg, x, u, s, raw);
      case Disconnect(_, s, flapping) => DisconnectConserves(cfg, x, u, s, flapping);
      case DisconnectUser(_, order) => DisconnectUserConserves(cfg, x, u, order);
      case SweepUser(_) => SweepConserves(cfg, x, u);
    }
  }

  /** Session count = additions - disconnect removals - prunes, in every reachable state. */
  lemma {:induction false} SessionsAreConserved(cfg: Settings, tr: seq<System>, ops: seq<Op>, i: nat, u: UserId)
    requires IsRun(cfg, tr, ops) && i < |tr|
    ensures Conserved(tr[i], u)
  {
    if i > 0 {
      SessionsAreConserved(cfg, tr, ops, i - 1, u);
      ReachableIsOk(cfg, tr, ops, i - 1);
      assert Follows(cfg, tr, ops, i - 1);
      StepConserves(cfg, tr[i - 1], ops[i - 1], u);
    }
  }

  // ----- DisconnectUser -----

  /** On a user with n > 0 sessions: the version grows by n and nothing of the user is left. */
  lemma DisconnectUserLeavesNothing(
    cfg: Settings, tr: seq<System>, ops: seq<Op>, i: nat, u: UserId, order: seq<SessionId>)
    requires IsRun(cfg, tr, ops) && i < |ops| && ops[i] == Op.DisconnectUser(u, order)
    requires tr[i].w.st.At(u).members != {}
    ensures var a, b := tr[i].w.st, tr[i + 1].w.st;
            && b.At(u) == User({}, a.At(u).version + |a.At(u).members|, map[], None, map[])
            && u !in b.online
            && (forall s | s in a.At(u).members :: !b.Live(s))
            && (forall v | v != u :: b.At(v) == a.At(v))
            && tr[i + 1].w.log == tr[i].w.log + [Event(UserOffline, u, b.At(u).version, 0, None)]
  {
    assert tr[i + 1].w == ApiDisconnected(tr[i].w, u, order) && Lists(order, tr[i].w.st.At(u).members) by {
      assert Follows(cfg, tr, ops, i);
    }
    ApiLeavesNothing(tr[i].w, u, order);
  }

  lemma ApiLeavesNothing(w: World, u: UserId, order: seq<SessionId>)
    requires w.st.At(u).members != {} && Lists(order, w.st.At(u).members)
    ensures var a, c := w.st, ApiDisconnected(w, u, order);
            && c.st.At(u) == User({}, a.At(u).version + |a.At(u).members|, map[], None, map[])
            && u !in c.st.online
            && (forall s | s in a.At(u).members :: !c.st.Live(s))
            && (forall v | v != u :: c.st.At(v) == a.At(v))
            && c.log == w.log + [Event(UserOffline, u, c.st.At(u).version, 0, None)]
  {
    ListingLength(order, w.st.At(u).members);
    ApiShape(w, u, order);
    AllDepartLeavesNothing(w, ApiDisconnected(w, u, order), u, order);
  }

  lemma AllDepartLeavesNothing(a: World, b: World, u: UserId, order: seq<SessionId>)
    requires a.st.At(u).members != {} && Lists(order, a.st.At(u).members)
    requires |order| == |a.st.At(u).members|
    requires AllDepart(a.st, b.st, u, order)
    ensures b.st.At(u) == User({}, a.st.At(u).version + |a.st.At(u).members|, map[], None, map[])
    ensures u !in b.st.online
    ensures forall s | s in a.st.At(u).members :: !b.st.Live(s)
    ensures forall v | v != u :: b.st.At(v) == a.st.At(v)
  {
  }

  /** Session ids keep their owners. */
  lemma OwnersStay(cfg: Settings, x: System, op: Op)
    requires Enabled(x, op)
    ensures forall s | s in x.owner :: s in Next(cfg, x, op).owner && Next(cfg, x, op).owner[s] == x.owner[s]
  {
  }
}
