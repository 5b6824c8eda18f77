/**
  Flap detection refines the full history: the pruned, expiring set of transition times gives
  the verdict that counting all transitions ever recorded would give.
*/
module FlapDetection {
  import opened Base
  import opened Debounce
  import opened System
  import opened Engine
  import opened JobRuns

  /** Twice the window, as EXPIRE receives it: whole seconds, at least one. */
  function FlapTtl(window: nat): nat {
    if 2 * window < 1000 then 1000 else 2 * window / 1000 * 1000
  }

  /** The expiry is the twofold window in whole seconds, at least one, and always outlives the window. */
  lemma FlapTtlCoversWindow(window: nat)
    ensures FlapTtl(window) >= window
    ensures FlapTtl(window) % 1000 == 0 && FlapTtl(window) >= 1000
    ensures 2 * window < FlapTtl(window) + 1000 && (FlapTtl(window) > 1000 ==> FlapTtl(window) <= 2 * window)
  {
    if 2 * window >= 1000 {
      var q, r := 2 * window / 1000, 2 * window % 1000;
      assert 2 * window == q * 1000 + r && q >= 1;
    }
  }

  predicate Ordered(ts: seq<int>) {
    forall i, k | 0 <= i < k < |ts| :: ts[i] <= ts[k]
  }

  /** The key after transitions at the times `ts`, one call of recordTransition after the other. */
  function After(ts: seq<int>, window: int, ttl: int): Option<FlapKey> {
    if ts == [] then None
    else Some(Recorded(After(ts[..|ts| - 1], window, ttl), ts[|ts| - 1], window, ttl))
  }

  /** The calls whose time lies in the window that ends at `now`. */
  ghost function InWindow(ts: seq<int>, now: int, window: int): set<nat> {
    set i: nat | i < |ts| && now - window < ts[i] <= now
  }

  lemma {:induction false} SinceConcat(a: seq<int>, b: seq<int>, start: int)
    ensures Since(a + b, start) == Since(a, start) + Since(b, start)
    decreases |a|
  {
    if a == [] {
      assert a + b == b;
    } else {
      assert (a + b)[1..] == a[1..] + b;
      SinceConcat(a[1..], b, start);
    }
  }

  /** Pruning twice is pruning to the later start. */
  lemma {:induction false} SinceTwice(a: seq<int>, early: int, late: int)
    requires early <= late
    ensures Since(Since(a, early), late) == Since(a, late)
    decreases |a|
  {
    if a != [] {
      SinceTwice(a[1..], early, late);
      SinceConcat(if early < a[0] then [a[0]] else [], Since(a[1..], early), late);
    }
  }

  lemma {:induction false} SinceOfOld(a: seq<int>, start: int)
    requires forall i | 0 <= i < |a| :: a[i] <= start
    ensures Since(a, start) == []
    decreases |a|
  {
    if a != [] {
      SinceOfOld(a[1..], start);
    }
  }

  lemma AfterOneMore(ts: seq<int>, now: int, window: int, ttl: int)
    ensures After(ts + [now], window, ttl) == Some(Recorded(After(ts, window, ttl), now, window, ttl))
  {
    assert (ts + [now])[..|ts|] == ts;
  }

  /** One call keeps the set at the current window, whether or not the key had expired. */
  lemma RecordedHoldsTheWindow(ts: seq<int>, last: int, now: int, window: int, ttl: int)
    requires forall i | 0 <= i < |ts| :: ts[i] <= last
    requires last <= now && 0 <= window <= ttl
    ensures Recorded(Some(FlapKey(Since(ts, last - window), last + ttl)), now, window, ttl)
            == FlapKey(Since(ts + [now], now - window), now + ttl)
  {
    SinceConcat(ts, [now], now - window);
    if now < last + ttl {
      SinceConcat(Since(ts, last - window), [now], now - window);
      SinceTwice(ts, last - window, now - window);
    } else {
      SinceOfOld(ts, now - window);
      SinceConcat([], [now], now - window);
    }
  }

  /** The set holds exactly the transitions of the current window. */
  lemma {:induction false} KeyHoldsTheWindow(ts: seq<int>, now: int, window: int, ttl: int)
    requires Ordered(ts + [now]) && 0 <= window <= ttl
    ensures After(ts + [now], window, ttl) == Some(FlapKey(Since(ts + [now], now - window), now + ttl))
    decreases |ts|
  {
    AfterOneMore(ts, now, window, ttl);
    if ts != [] {
      var front, last := ts[..|ts| - 1], ts[|ts| - 1];
      assert ts == front + [last];
      assert Ordered(ts) && forall i | 0 <= i < |ts| :: ts[i] <= last && ts[i] == (ts + [now])[i] by {
        assert forall i | 0 <= i < |ts| :: ts[i] == (ts + [now])[i];
      }
      assert last <= now by {
        assert (ts + [now])[|ts|] == now;
      }
      KeyHoldsTheWindow(front, last, window, ttl);
      RecordedHoldsTheWindow(ts, last, now, window, ttl);
    }
  }

  /** The pruned set has one entry for each transition of the window. */
  lemma {:induction false} SinceCounts(ts: seq<int>, now: int, window: int)
    requires forall i | 0 <= i < |ts| :: ts[i] <= now
    ensures |Since(ts, now - window)| == |InWindow(ts, now, window)|
    decreases |ts|
  {
    if ts == [] {
      assert InWindow(ts, now, window) == {};
    } else {
      var n := |ts| - 1;
      assert ts == ts[..n] + [ts[n]];
      SinceConcat(ts[..n], [ts[n]], now - window);
      SinceCounts(ts[..n], now, window);
      assert InWindow(ts, now, window) ==
             InWindow(ts[..n], now, window) + if now - window < ts[n] then {n} else {};
    }
  }

  /** recordTransition counts, of all transitions ever recorded, those in the window. */
  lemma RefinesFullHistory(ts: seq<int>, now: int, window: int, ttl: int)
    requires Ordered(ts + [now]) && 0 <= window <= ttl
    ensures |Recorded(After(ts, window, ttl), now, window, ttl).times| == |InWindow(ts + [now], now, window)|
  {
    AfterOneMore(ts, now, window, ttl);
    KeyHoldsTheWindow(ts, now, window, ttl);
    assert (ts + [now])[|ts|] == now;
    SinceCounts(ts + [now], now, window);
  }

  // ----- In every history of the engine -----

  predicate RunsJobOf(e: Engine, act: Act, u: UserId) {
    act.Execute? && e.jobs.LiveMeta(act.j, Now(e)) && e.jobs.meta[act.j].user == u
  }

  /** The times at which disconnect jobs of `u` took effect before state `i`. */
  function TransitionTimes(tr: seq<Engine>, acts: seq<Act>, i: nat, u: UserId): seq<int>
    requires i <= |acts| < |tr|
  {
    if i == 0 then []
    else
      TransitionTimes(tr, acts, i - 1, u)
      + if RunsJobOf(tr[i - 1], acts[i - 1], u) then [Now(tr[i - 1])] else []
  }

  lemma FlapStep(cfg: Conf, e: Engine, act: Act, u: UserId)
    requires !FlappingOff(cfg.deb)
    ensures var y := Step(cfg, e, act);
            FlapOf(y.jobs, u) ==
              if RunsJobOf(e, act, u)
              then Some(Recorded(FlapOf(e.jobs, u), Now(e), cfg.deb.window, cfg.deb.flapTtl))
              else FlapOf(e.jobs, u)
  {
  }

  lemma AfterStep(ts: seq<int>, key: Option<FlapKey>, runs: bool, now: int, window: int, ttl: int)
    requires var before := After(ts, window, ttl);
             key == if runs then Some(Recorded(before, now, window, ttl)) else before
    ensures key == After(ts + if runs then [now] else [], window, ttl)
  {
    if runs {
      AfterOneMore(ts, now, window, ttl);
    } else {
      assert ts + [] == ts;
    }
  }

  lemma FlapAt(cfg: Conf, tr: seq<Engine>, acts: seq<Act>, i: nat, u: UserId)
    requires IsHistory(cfg, tr, acts) && i < |acts| && !FlappingOff(cfg.deb)
    ensures FlapOf(tr[i + 1].jobs, u) ==
            if RunsJobOf(tr[i], acts[i], u)
            then Some(Recorded(FlapOf(tr[i].jobs, u), Now(tr[i]), cfg.deb.window, cfg.deb.flapTtl))
            else FlapOf(tr[i].jobs, u)
  {
    assert StepsAt(cfg, tr, acts, i);
    FlapStep(cfg, tr[i], acts[i], u);
  }

  lemma NoFlapsAtStart(cfg: Conf, tr: seq<Engine>, acts: seq<Act>, u: UserId)
    requires IsHistory(cfg, tr, acts)
    ensures FlapOf(tr[0].jobs, u) == None
  {
  }

  /** With detection off nothing is recorded. */
  lemma {:induction false} NothingRecordedWhenOff(
    cfg: Conf, tr: seq<Engine>, acts: seq<Act>, i: nat, u: UserId)
    requires IsHistory(cfg, tr, acts) && i < |tr| && (cfg.deb.threshold <= 0 || cfg.deb.window <= 0)
    ensures FlapOf(tr[i].jobs, u) == None
  {
    if i > 0 {
      NothingRecordedWhenOff(cfg, tr, acts, i - 1, u);
      assert StepsAt(cfg, tr, acts, i - 1);
      FlapStaysOff(cfg, tr[i - 1], acts[i - 1], u);
    } else {
      NoFlapsAtStart(cfg, tr, acts, u);
    }
  }

  lemma FlapStaysOff(cfg: Conf, e: Engine, act: Act, u: UserId)
    requires cfg.deb.threshold <= 0 || cfg.deb.window <= 0
    ensures FlapOf(Step(cfg, e, act).jobs, u) == FlapOf(e.jobs, u)
  {
  }

  lemma {:induction false} FlapKeyIsHistory(cfg: Conf, tr: seq<Engine>, acts: seq<Act>, i: nat, u: UserId)
    requires IsHistory(cfg, tr, acts) && i < |tr| && !FlappingOff(cfg.deb)
    ensures FlapOf(tr[i].jobs, u) == After(TransitionTimes(tr, acts, i, u), cfg.deb.window, cfg.deb.flapTtl)
  {
    if i > 0 {
      FlapKeyIsHistory(cfg, tr, acts, i - 1, u);
      FlapAt(cfg, tr, acts, i - 1, u);
      AfterStep(TransitionTimes(tr, acts, i - 1, u), FlapOf(tr[i].jobs, u), RunsJobOf(tr[i - 1], acts[i - 1], u),
                Now(tr[i - 1]), cfg.deb.window, cfg.deb.flapTtl);
    } else {
      NoFlapsAtStart(cfg, tr, acts, u);
    }
  }

  lemma {:induction false} TransitionTimesOrdered(tr: seq<Engine>, acts: seq<Act>, i: nat, u: UserId, delay: nat)
    requires QueueEvolves(tr, delay) && i <= |acts| < |tr|
    ensures var ts := TransitionTimes(tr, acts, i, u);
            Ordered(ts) && forall k | 0 <= k < |ts| :: ts[k] <= Now(tr[i])
  {
    if i > 0 {
      TransitionTimesOrdered(tr, acts, i - 1, u, delay);
      TimePasses(tr, delay, i - 1, i);
    }
  }

  lemma VerdictWhenOn(cfg: Conf, tr: seq<Engine>, acts: seq<Act>, i: nat, u: UserId)
    requires IsHistory(cfg, tr, acts) && i < |acts| && RunsJobOf(tr[i], acts[i], u)
    requires !FlappingOff(cfg.deb) && cfg.deb.flapTtl == FlapTtl(cfg.deb.window)
    ensures Flapping(tr[i].jobs, Now(tr[i]), cfg.deb, u) <==>
            |InWindow(TransitionTimes(tr, acts, i + 1, u), Now(tr[i]), cfg.deb.window)| >= cfg.deb.threshold
  {
    HistoryEvolvesQueue(cfg, tr, acts);
    TransitionTimesOrdered(tr, acts, i, u, cfg.deb.delay);
    FlapKeyIsHistory(cfg, tr, acts, i, u);
    FlapTtlCoversWindow(cfg.deb.window);
    RefinesFullHistory(TransitionTimes(tr, acts, i, u), Now(tr[i]), cfg.deb.window, cfg.deb.flapTtl);
  }

  /** A job is found flapping iff detection is on and enough of the user's job disconnects fall in the window. */
  lemma VerdictCountsAllTransitions(cfg: Conf, tr: seq<Engine>, acts: seq<Act>, i: nat, u: UserId)
    requires IsHistory(cfg, tr, acts) && i < |acts| && RunsJobOf(tr[i], acts[i], u)
    requires cfg.deb.window > 0 ==> cfg.deb.flapTtl == FlapTtl(cfg.deb.window)
    ensures Flapping(tr[i].jobs, Now(tr[i]), cfg.deb, u) <==>
            && cfg.deb.threshold > 0 && cfg.deb.window > 0
            && |InWindow(TransitionTimes(tr, acts, i + 1, u), Now(tr[i]), cfg.deb.window)| >= cfg.deb.threshold
  {
    if cfg.deb.threshold > 0 && cfg.deb.window > 0 {
      VerdictWhenOn(cfg, tr, acts, i, u);
    }
  }

  lemma LastJobPublishes(cfg: Conf, e: Engine, j: JobId, u: UserId, s: SessionId)
    requires e.jobs.LiveMeta(j, Now(e)) && e.jobs.meta[j].user == u && e.jobs.meta[j].session == s
    requires e.x.w.st.At(u).members == {s}
    ensures Step(cfg, e, Execute(j)).x.w.log == e.x.w.log <==> Flapping(e.jobs, Now(e), cfg.deb, u)
  {
    DisconnectShape(e.x.w.st, u, s);
  }

  /**
    The job that takes a user offline publishes nothing iff detection is on and at least `threshold`
    job disconnects of the user, this one included, lie in the window that ends now.
  */
  lemma OfflineWithheldIffFlapping(cfg: Conf, tr: seq<Engine>, acts: seq<Act>, i: nat, u: UserId, s: SessionId)
    requires IsHistory(cfg, tr, acts) && i < |acts| && RunsJobOf(tr[i], acts[i], u)
    requires tr[i].jobs.meta[acts[i].j].session == s && tr[i].x.w.st.At(u).members == {s}
    requires cfg.deb.window > 0 ==> cfg.deb.flapTtl == FlapTtl(cfg.deb.window)
    ensures tr[i + 1].x.w.log == tr[i].x.w.log <==>
            && cfg.deb.threshold > 0 && cfg.deb.window > 0
            && |InWindow(TransitionTimes(tr, acts, i + 1, u), Now(tr[i]), cfg.deb.window)| >= cfg.deb.threshold
  {
    LastJobPublishes(cfg, tr[i], acts[i].j, u, s);
    VerdictCountsAllTransitions(cfg, tr, acts, i, u);
    assert StepsAt(cfg, tr, acts, i);
  }
}
