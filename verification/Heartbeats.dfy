/**
  How long heartbeats keep a session alive (pkg/ws/client.go, pkg/presence/lua/heartbeat.lua):
  rate-limited heartbeats do not extend the deadline, so the session TTL, in the whole seconds
  Redis is given, has to exceed the heartbeat interval by the rate limit.
*/
module Heartbeats {
  import opened Base
  import opened System
  import opened Runs

  /** The least distance between two accepted heartbeats at millisecond resolution. */
  function Spacing(cfg: Settings): nat {
    if cfg.rateLimit == 0 then 1 else cfg.rateLimit
  }

  /** `interval` is the longest gap between two heartbeat messages, in milliseconds. */
  predicate HasMargin(cfg: Settings, interval: nat) {
    Spacing(cfg) + interval <= 1000 * cfg.ttl
  }

  /** No heartbeat of `s` is overdue. */
  predicate Timely(x: System, s: SessionId, interval: nat) {
    s in x.beats ==> x.w.st.now <= x.beats[s].arrival + interval
  }

  predicate Disconnects(op: Op, u: UserId, s: SessionId) {
    match op
    case Disconnect(_, t, _) => t == s
    case DisconnectUser(v, _) => v == u
    case _ => false
  }

  /** Session `s` connects at step `i`; up to state `j` it keeps beating and nobody disconnects it. */
  ghost predicate Beating(cfg: Settings, interval: nat, tr: seq<System>, ops: seq<Op>, i: nat, j: nat,
                          u: UserId, s: SessionId)
  {
    && IsRun(cfg, tr, ops)
    && i < j < |tr|
    && ops[i].Connect? && ops[i].u == u && ops[i].s == s
    && (forall k | i < k < j :: !Disconnects(ops[k], u, s))
    && (forall k | i < k <= j :: Timely(tr[k], s, interval))
  }

  /** The deadline counts from the last accepted heartbeat, and later heartbeats came too soon. */
  predicate BeatOk(cfg: Settings, x: System, u: UserId, s: SessionId) {
    && s in x.beats && s in x.w.st.sessions && s in x.owner && x.owner[s].user == u
    && var b := x.beats[s];
    && b.accepted <= b.arrival <= x.w.st.now && b.arrival < b.accepted + Spacing(cfg)
    && x.w.st.sessions[s].deadline == b.accepted + 1000 * cfg.ttl
  }

  lemma BeatingIsLive(cfg: Settings, x: System, u: UserId, s: SessionId, interval: nat)
    requires HasMargin(cfg, interval) && BeatOk(cfg, x, u, s) && Timely(x, s, interval)
    ensures x.w.st.Live(s)
  {
  }

  /** Session `s` has the same key and owner in both systems, and its connection the same beat. */
  predicate SameSession(x: System, y: System, s: SessionId) {
    && (s in x.w.st.sessions ==> s in y.w.st.sessions && y.w.st.sessions[s] == x.w.st.sessions[s])
    && (s in x.owner ==> s in y.owner && y.owner[s] == x.owner[s])
    && (s in x.beats ==> s in y.beats && y.beats[s] == x.beats[s])
    && x.w.st.now <= y.w.st.now
  }

  lemma ConnectElsewhere(cfg: Settings, x: System, v: UserId, t: SessionId, device: string, hidden: bool,
                         s: SessionId)
    requires s != t
    ensures SameSession(x, Next(cfg, x, Op.Connect(v, t, device, hidden)), s)
  {
    ConnectShape(x.w, v, t, device, hidden, cfg.ttl);
  }

  lemma DisconnectElsewhere(cfg: Settings, x: System, v: UserId, t: SessionId, flapping: bool, s: SessionId)
    requires s != t
    ensures SameSession(x, Next(cfg, x, Op.Disconnect(v, t, flapping)), s)
  {
    DisconnectShape(x.w.st, v, t);
  }

  lemma DisconnectUserElsewhere(cfg: Settings, x: System, v: UserId, order: seq<SessionId>, s: SessionId)
    requires Lists(order, x.w.st.At(v).members) && s !in x.w.st.At(v).members
    ensures SameSession(x, Next(cfg, x, Op.DisconnectUser(v, order)), s)
  {
    if order != [] {
      DisconnectAllShape(x.w.st, v, order);
      assert s !in Elements(order);
    }
  }

  lemma HeartbeatElsewhere(cfg: Settings, x: System, t: SessionId, s: SessionId)
    requires s != t
    ensures SameSession(x, Next(cfg, x, Op.Heartbeat(t)), s)
  {
  }

  /** Only its own connect, heartbeat or disconnect changes a session key. */
  lemma KeyUntouched(cfg: Settings, x: System, op: Op, u: UserId, s: SessionId)
    requires StoreOk(x.w.st, x.owner) && Enabled(x, op)
    requires s in x.owner && x.owner[s].user == u
    requires op != Op.Heartbeat(s) && !Disconnects(op, u, s)
    ensures SameSession(x, Next(cfg, x, op), s)
  {
    match op
    case Connect(v, t, device, hidden) => ConnectElsewhere(cfg, x, v, t, device, hidden, s);
    case Heartbeat(t) => HeartbeatElsewhere(cfg, x, t, s);
    case Disconnect(v, t, flapping) => DisconnectElsewhere(cfg, x, v, t, flapping, s);
    case DisconnectUser(v, order) =>
      assert MembersOk(x.w.st, x.owner, v);
      DisconnectUserElsewhere(cfg, x, v, order, s);
    case SetState(v, t, raw) => assert SameSession(x, Next(cfg, x, op), s);
    case SweepUser(v) => assert SameSession(x, Next(cfg, x, op), s);
    case Wait(_) =>
    case EndScan =>
  }

  lemma StepKeepsBeat(cfg: Settings, x: System, op: Op, u: UserId, s: SessionId, interval: nat)
    requires StoreOk(x.w.st, x.owner) && Enabled(x, op) && !Disconnects(op, u, s)
    requires HasMargin(cfg, interval) && BeatOk(cfg, x, u, s) && Timely(x, s, interval)
    ensures BeatOk(cfg, Next(cfg, x, op), u, s)
  {
    BeatingIsLive(cfg, x, u, s, interval);
    if op == Op.Heartbeat(s) {
    } else {
      KeyUntouched(cfg, x, op, u, s);
    }
  }

  lemma ConnectStartsBeat(cfg: Settings, x: System, u: UserId, s: SessionId, device: string, hidden: bool)
    ensures BeatOk(cfg, Next(cfg, x, Op.Connect(u, s, device, hidden)), u, s)
  {
    ConnectShape(x.w, u, s, device, hidden, cfg.ttl);
  }

  lemma {:induction false} BeatingKeepsBeat(
    cfg: Settings, interval: nat, tr: seq<System>, ops: seq<Op>, i: nat, j: nat, u: UserId, s: SessionId)
    requires Beating(cfg, interval, tr, ops, i, j, u, s) && HasMargin(cfg, interval)
    ensures BeatOk(cfg, tr[j], u, s)
    decreases j
  {
    if j == i + 1 {
      assert Follows(cfg, tr, ops, i);
      ConnectStartsBeat(cfg, tr[i], u, s, ops[i].device, ops[i].hidden);
    } else {
      BeatingKeepsBeat(cfg, interval, tr, ops, i, j - 1, u, s);
      ReachableIsOk(cfg, tr, ops, j - 1);
      assert Follows(cfg, tr, ops, j - 1);
      StepKeepsBeat(cfg, tr[j - 1], ops[j - 1], u, s, interval);
    }
  }

  /** With margin, a beating session is live and listed in every state of the run: never swept. */
  lemma BeatingSessionStaysAlive(
    cfg: Settings, interval: nat, tr: seq<System>, ops: seq<Op>, i: nat, j: nat, u: UserId, s: SessionId)
    requires Beating(cfg, interval, tr, ops, i, j, u, s) && HasMargin(cfg, interval)
    ensures tr[j].w.st.Live(s) && s in tr[j].w.st.At(u).members && u in tr[j].w.st.online
  {
    BeatingKeepsBeat(cfg, interval, tr, ops, i, j, u, s);
    BeatingIsLive(cfg, tr[j], u, s, interval);
    ReachableIsOk(cfg, tr, ops, j);
    assert KeyOk(tr[j].w.st, tr[j].owner, s);
    assert UserOk(tr[j].w.st.At(u), u in tr[j].w.st.online);
  }

  // ----- The margin is exact -----

  /** Whatever else happens, heartbeats at gaps of at most `interval` keep every session alive. */
  ghost predicate KeepsAlive(cfg: Settings, interval: nat) {
    forall tr: seq<System>, ops: seq<Op>, i: nat, j: nat, u: UserId, s: SessionId
      | Beating(cfg, interval, tr, ops, i, j, u, s) ::
      tr[j].w.st.Live(s)
  }

  /** A beating run goes on with an operation that lets no heartbeat become overdue. */
  lemma BeatsOn(cfg: Settings, interval: nat, tr: seq<System>, ops: seq<Op>, op: Op, u: UserId, s: SessionId)
    returns (tr': seq<System>, ops': seq<Op>)
    requires Beating(cfg, interval, tr, ops, 0, |ops|, u, s)
    requires Enabled(tr[|ops|], op) && !Disconnects(op, u, s)
    requires Timely(Next(cfg, tr[|ops|], op), s, interval)
    ensures Beating(cfg, interval, tr', ops', 0, |ops'|, u, s)
    ensures |ops'| == |ops| + 1 && tr'[|ops'|] == Next(cfg, tr[|ops|], op)
  {
    tr', ops' := Longer(cfg, tr, ops, op);
  }

  /** `n` ms after its connect the session of "u" has just sent a heartbeat, and none has been accepted. */
  predicate OnlyRefused(cfg: Settings, x: System, n: nat) {
    && x.w.st.now == n
    && "s" in x.beats && x.beats["s"] == Beat(0, n)
    && "s" in x.w.st.sessions && x.w.st.sessions["s"].deadline == 1000 * cfg.ttl
  }

  lemma ConnectsAtZero(cfg: Settings)
    ensures OnlyRefused(cfg, Next(cfg, INITIAL, Op.Connect("u", "s", "", false)), 0)
  {
    ConnectShape(INITIAL.w, "u", "s", "", false, cfg.ttl);
  }

  lemma BeatIsRefused(cfg: Settings, x: System, n: nat)
    requires OnlyRefused(cfg, x, n) && n + 1 < Spacing(cfg)
    ensures var y := Next(cfg, x, Wait(1));
            y.w.st.now == n + 1 && y.beats == x.beats && OnlyRefused(cfg, Next(cfg, y, Op.Heartbeat("s")), n + 1)
  {
  }

  /** A client that beats every millisecond is refused as long as the rate limit lasts. */
  lemma {:induction false} RefusedBeats(cfg: Settings, interval: nat, n: nat)
    returns (tr: seq<System>, ops: seq<Op>)
    requires n < Spacing(cfg) && 1 <= interval
    ensures Beating(cfg, interval, tr, ops, 0, |ops|, "u", "s") && OnlyRefused(cfg, tr[|ops|], n)
    decreases n
  {
    if n == 0 {
      ConnectsAtZero(cfg);
      tr, ops := Longer(cfg, [INITIAL], [], Op.Connect("u", "s", "", false));
    } else {
      tr, ops := RefusedBeats(cfg, interval, n - 1);
      BeatIsRefused(cfg, tr[|ops|], n - 1);
      tr, ops := BeatsOn(cfg, interval, tr, ops, Wait(1), "u", "s");
      tr, ops := BeatsOn(cfg, interval, tr, ops, Op.Heartbeat("s"), "u", "s");
    }
  }

  lemma WaitsTooLong(cfg: Settings, interval: nat, x: System)
    requires OnlyRefused(cfg, x, Spacing(cfg) - 1) && !HasMargin(cfg, interval)
    ensures var y := Next(cfg, x, Wait(interval)); Timely(y, "s", interval) && !y.w.st.Live("s")
  {
  }

  /** The last refused heartbeat comes just before the rate limit ends, the next one `interval` later. */
  lemma WithoutMarginASessionDies(cfg: Settings, interval: nat)
    requires 1 <= interval && !HasMargin(cfg, interval)
    ensures !KeepsAlive(cfg, interval)
  {
    var tr, ops := RefusedBeats(cfg, interval, Spacing(cfg) - 1);
    WaitsTooLong(cfg, interval, tr[|ops|]);
    tr, ops := BeatsOn(cfg, interval, tr, ops, Wait(interval), "u", "s");
    assert !tr[|ops|].w.st.Live("s");
  }

  /** Heartbeats keep sessions alive exactly when the TTL covers rate limit and interval. */
  lemma HeartbeatMarginIsExact(cfg: Settings, interval: nat)
    requires 1 <= interval
    ensures KeepsAlive(cfg, interval) <==> HasMargin(cfg, interval)
  {
    if HasMargin(cfg, interval) {
      forall tr: seq<System>, ops: seq<Op>, i: nat, j: nat, u: UserId, s: SessionId
        | Beating(cfg, interval, tr, ops, i, j, u, s)
        ensures tr[j].w.st.Live(s)
      {
        BeatingSessionStaysAlive(cfg, interval, tr, ops, i, j, u, s);
      }
    } else {
      WithoutMarginASessionDies(cfg, interval);
    }
  }

  /** The constraint Config.Validate puts on the timing, durations in milliseconds. */
  predicate Validated(sessionTtl: nat, interval: nat) {
    sessionTtl >= interval * 2
  }

  /** A validated TTL of whole seconds keeps every beating session alive. */
  lemma WholeSecondTtlKeepsAlive(sessionTtl: nat, interval: nat, rateLimit: nat)
    requires Validated(sessionTtl, interval) && sessionTtl % 1000 == 0
    requires rateLimit <= interval && 1 <= interval
    ensures KeepsAlive(Settings(sessionTtl / 1000, rateLimit), interval)
  {
    HeartbeatMarginIsExact(Settings(sessionTtl / 1000, rateLimit), interval);
  }

  /** Validate alone is not enough: 3.5 s reaches Redis as 3 s, and a 1.75 s interval then fails. */
  lemma ValidateAloneIsNotEnough()
    ensures Validated(3500, 1750) && !KeepsAlive(Settings(3500 / 1000, 1750), 1750)
  {
    HeartbeatMarginIsExact(Settings(3500 / 1000, 1750), 1750);
  }
}
