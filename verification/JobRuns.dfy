/** What holds of disconnect jobs in every history of the engine. */
module JobRuns {
  import opened Base
  import opened Events
  import opened Debounce
  import opened System
  import opened Runs
  import opened Announcements
  import opened Engine

  // ----- Accounting -----

  /** Every scheduled job is in exactly one place: queued, executed, cancelled or dropped. */
  lemma JobsAreAccountedFor(cfg: Conf, tr: seq<Engine>, acts: seq<Act>, i: nat, j: JobId)
    requires IsHistory(cfg, tr, acts) && i < |tr|
    ensures j in tr[i].known <==> (j in tr[i].jobs.queue) != (j in tr[i].fate)
    ensures j in tr[i].fate ==> j !in tr[i].jobs.queue
  {
    HistoryIsOk(cfg, tr, acts, i);
    assert JobOk(cfg, tr[i], j);
  }

  /** An orphaned, cancelled or already executed job does nothing to presence. */
  lemma DeadJobDoesNothing(cfg: Conf, e: Engine, j: JobId)
    requires !e.jobs.LiveMeta(j, Now(e))
    ensures Step(cfg, e, Execute(j)).x == e.x
  {
  }

  lemma {:induction false} FateIsFinal(cfg: Conf, tr: seq<Engine>, acts: seq<Act>, i: nat, k: nat, j: JobId)
    requires IsHistory(cfg, tr, acts) && i <= k < |tr| && j in tr[i].fate
    ensures j in tr[k].fate && tr[k].fate[j] == tr[i].fate[j]
    decreases k
  {
    if i < k {
      FateIsFinal(cfg, tr, acts, i, k - 1, j);
      HistoryIsOk(cfg, tr, acts, k - 1);
      assert StepsAt(cfg, tr, acts, k - 1);
      StepIsOnward(cfg, tr[k - 1], acts[k - 1]);
    }
  }

  /** A job executes at most once, and not before its delay has passed. */
  lemma JobExecutesOnceAndOnTime(cfg: Conf, tr: seq<Engine>, acts: seq<Act>, i: nat, k: nat, j: JobId)
    requires IsHistory(cfg, tr, acts) && i <= k < |acts|
    requires j in tr[i].fate && tr[i].fate[j].WasExecuted?
    ensures j in tr[i].known && tr[i].known[j].at + cfg.deb.delay <= tr[i].fate[j].at
    ensures j in tr[k].fate && tr[k].fate[j] == tr[i].fate[j]
    ensures acts[k] == Execute(j) ==> tr[k + 1].x == tr[k].x
  {
    FateIsFinal(cfg, tr, acts, i, k, j);
    HistoryIsOk(cfg, tr, acts, i);
    HistoryIsOk(cfg, tr, acts, k);
    assert JobOk(cfg, tr[i], j);
    assert JobOk(cfg, tr[k], j) && EntryOk(tr[k], j);
    DeadJobDoesNothing(cfg, tr[k], j);
    assert StepsAt(cfg, tr, acts, k);
  }

  // ----- Cancellation -----

  /** No job can disconnect session `s` of user `u`. */
  ghost predicate NoJobFor(e: Engine, u: UserId, s: SessionId) {
    forall j | e.jobs.LiveMeta(j, Now(e)) :: !(e.jobs.meta[j].user == u && e.jobs.meta[j].session == s)
  }

  predicate Cancels(act: Act, u: UserId, s: SessionId) {
    act == Cancel(u, s) || (act.Do? && act.op.Connect? && act.op.u == u && act.op.s == s)
  }

  lemma CancelLeavesNoJob(cfg: Conf, e: Engine, act: Act, u: UserId, s: SessionId)
    requires EngineOk(cfg, e) && Allowed(cfg, e, act) && Cancels(act, u, s)
    ensures NoJobFor(Step(cfg, e, act), u, s)
  {
    var y := Step(cfg, e, act);
    StepIsOnward(cfg, e, act);
    assert y.jobs == Cancelled(e.jobs, u, s);
    forall j | y.jobs.LiveMeta(j, Now(y))
      ensures !(y.jobs.meta[j].user == u && y.jobs.meta[j].session == s)
    {
      assert EntryOk(e, j);
    }
  }

  lemma MetaComesFromSchedule(cfg: Conf, e: Engine, act: Act, j: JobId)
    requires j in JobsAfter(cfg, e, act).meta && !(act.Schedule? && act.j == j)
    ensures j in e.jobs.meta && e.jobs.meta[j] == JobsAfter(cfg, e, act).meta[j]
  {
  }

  /** Metadata only ever appears for the job being scheduled. */
  lemma MetaOnlyFromSchedule(cfg: Conf, e: Engine, act: Act, j: JobId)
    requires j in Step(cfg, e, act).jobs.meta && !(act.Schedule? && act.j == j)
    ensures j in e.jobs.meta && e.jobs.meta[j] == Step(cfg, e, act).jobs.meta[j]
  {
    assert Step(cfg, e, act).jobs == JobsAfter(cfg, e, act);
    MetaComesFromSchedule(cfg, e, act, j);
  }

  lemma NoJobStays(cfg: Conf, e: Engine, act: Act, u: UserId, s: SessionId)
    requires EngineOk(cfg, e) && Allowed(cfg, e, act) && NoJobFor(e, u, s)
    requires !(act.Schedule? && act.u == u && act.s == s)
    ensures NoJobFor(Step(cfg, e, act), u, s)
  {
    var y := Step(cfg, e, act);
    StepIsOnward(cfg, e, act);
    forall j | y.jobs.LiveMeta(j, Now(y))
      ensures !(y.jobs.meta[j].user == u && y.jobs.meta[j].session == s)
    {
      if !(act.Schedule? && act.j == j) {
        MetaOnlyFromSchedule(cfg, e, act, j);
      }
    }
  }

  lemma NoJobAt(cfg: Conf, tr: seq<Engine>, acts: seq<Act>, i: nat, u: UserId, s: SessionId)
    requires IsHistory(cfg, tr, acts) && i < |acts|
    requires Cancels(acts[i], u, s) || NoJobFor(tr[i], u, s)
    requires !(acts[i].Schedule? && acts[i].u == u && acts[i].s == s)
    ensures NoJobFor(tr[i + 1], u, s)
  {
    HistoryIsOk(cfg, tr, acts, i);
    assert StepsAt(cfg, tr, acts, i);
    if Cancels(acts[i], u, s) {
      CancelLeavesNoJob(cfg, tr[i], acts[i], u, s);
    } else {
      NoJobStays(cfg, tr[i], acts[i], u, s);
    }
  }

  lemma {:induction false} NoJobSinceCancel(
    cfg: Conf, tr: seq<Engine>, acts: seq<Act>, i: nat, k: nat, u: UserId, s: SessionId)
    requires IsHistory(cfg, tr, acts) && i < k < |tr| && Cancels(acts[i], u, s)
    requires forall m | i < m < k :: !(acts[m].Schedule? && acts[m].u == u && acts[m].s == s)
    ensures NoJobFor(tr[k], u, s)
    decreases k
  {
    if k > i + 1 {
      NoJobSinceCancel(cfg, tr, acts, i, k - 1, u, s);
    }
    NoJobAt(cfg, tr, acts, k - 1, u, s);
  }

  /** After a cancellation no job of the session acts until a new one is scheduled. */
  lemma CancellationIsComplete(
    cfg: Conf, tr: seq<Engine>, acts: seq<Act>, i: nat, k: nat, u: UserId, s: SessionId, j: JobId)
    requires IsHistory(cfg, tr, acts) && i < k < |acts| && Cancels(acts[i], u, s)
    requires forall m | i < m < k :: !(acts[m].Schedule? && acts[m].u == u && acts[m].s == s)
    requires acts[k] == Execute(j) && j in tr[k].known
    requires tr[k].known[j].user == u && tr[k].known[j].session == s
    ensures tr[k + 1].x == tr[k].x
  {
    NoJobSinceCancel(cfg, tr, acts, i, k, u, s);
    HistoryIsOk(cfg, tr, acts, k);
    assert EntryOk(tr[k], j);
    DeadJobDoesNothing(cfg, tr[k], j);
    assert StepsAt(cfg, tr, acts, k);
  }

  /** A cancellation leaves the jobs of every other user and session exactly as they were. */
  lemma CancellationSparesOthers(cfg: Conf, e: Engine, u: UserId, s: SessionId, j: JobId)
    requires EngineOk(cfg, e) && j in e.known
    requires e.known[j].user != u || e.known[j].session != s
    ensures var y := Step(cfg, e, Cancel(u, s));
            && (j in y.jobs.queue <==> j in e.jobs.queue)
            && (j in e.jobs.queue ==> y.jobs.queue[j] == e.jobs.queue[j])
            && (j in y.jobs.meta <==> j in e.jobs.meta)
            && (j in e.jobs.meta ==> y.jobs.meta[j] == e.jobs.meta[j])
            && (forall v, t | (v, t) != (u, s) :: y.jobs.Index(v, t) == e.jobs.Index(v, t))
            && y.x == e.x
  {
    assert IndexOk(e, u, s);
  }

  // ----- Executed or dropped -----

  /** A queued job's metadata is there, with the expiry it was given, expired or not. */
  predicate MetaOk(cfg: Conf, e: Engine, j: JobId) {
    j in e.jobs.queue ==>
      j in e.jobs.meta && j in e.known && e.jobs.meta[j].deadline == e.known[j].at + cfg.deb.jobTtl
  }

  lemma QueuedKeepsMeta(cfg: Conf, e: Engine, act: Act, j: JobId)
    requires j in JobsAfter(cfg, e, act).queue && (j in e.jobs.queue ==> j in e.jobs.meta)
    requires !(act.Schedule? && act.j == j)
    ensures var jobs := JobsAfter(cfg, e, act);
            j in e.jobs.queue && j in jobs.meta && jobs.meta[j] == e.jobs.meta[j]
  {
  }

  lemma StepKeepsMetaOk(cfg: Conf, e: Engine, act: Act, j: JobId)
    requires Allowed(cfg, e, act) && MetaOk(cfg, e, j)
    ensures MetaOk(cfg, Step(cfg, e, act), j)
  {
    var y := Step(cfg, e, act);
    assert y.jobs == JobsAfter(cfg, e, act);
    if j in y.jobs.queue && !(act.Schedule? && act.j == j) {
      QueuedKeepsMeta(cfg, e, act, j);
      KnownStep(cfg, e, act, j);
    }
  }

  lemma {:induction false} HistoryKeepsMetaOk(cfg: Conf, tr: seq<Engine>, acts: seq<Act>, i: nat, j: JobId)
    requires IsHistory(cfg, tr, acts) && i < |tr|
    ensures MetaOk(cfg, tr[i], j)
  {
    if i > 0 {
      HistoryKeepsMetaOk(cfg, tr, acts, i - 1, j);
      assert StepsAt(cfg, tr, acts, i - 1);
      StepKeepsMetaOk(cfg, tr[i - 1], acts[i - 1], j);
    }
  }

  lemma ExecutedOrDropped(cfg: Conf, e: Engine, j: JobId)
    requires j in e.jobs.queue && j !in e.fate
    ensures var y := Step(cfg, e, Execute(j));
            j in y.fate && y.fate[j] == if e.jobs.LiveMeta(j, Now(e)) then WasExecuted(Now(e)) else WasDropped
  {
    ExecutedLeavesQueue(cfg, e, j);
  }

  /** A queued job takes effect when it is run iff its metadata has not expired since; else it is dropped. */
  lemma JobTakesEffectIffInTime(cfg: Conf, tr: seq<Engine>, acts: seq<Act>, i: nat, j: JobId)
    requires IsHistory(cfg, tr, acts) && i < |acts| && acts[i] == Execute(j) && j in tr[i].jobs.queue
    ensures j in tr[i].known && j in tr[i + 1].fate
    ensures tr[i].known[j].at + cfg.deb.delay <= Now(tr[i])
    ensures tr[i + 1].fate[j] ==
            if Now(tr[i]) < tr[i].known[j].at + cfg.deb.jobTtl then WasExecuted(Now(tr[i])) else WasDropped
  {
    HistoryIsOk(cfg, tr, acts, i);
    HistoryKeepsMetaOk(cfg, tr, acts, i, j);
    assert JobOk(cfg, tr[i], j);
    assert StepsAt(cfg, tr, acts, i);
    ExecutedOrDropped(cfg, tr[i], j);
  }

  lemma StepExecutesNothing(cfg: Conf, e: Engine, act: Act, j: JobId)
    requires EngineOk(cfg, e) && Allowed(cfg, e, act) && MetaOk(cfg, e, if act.Execute? then act.j else j)
    requires cfg.deb.jobTtl <= cfg.deb.delay
    requires j in e.fate ==> !e.fate[j].WasExecuted?
    ensures j in Step(cfg, e, act).fate ==> !Step(cfg, e, act).fate[j].WasExecuted?
  {
    if act.Execute? {
      assert JobOk(cfg, e, act.j) && EntryOk(e, act.j);
    }
  }

  /** With metadata that lives no longer than the delay, no job is ever executed. */
  lemma {:induction false} ShortLivedJobsNeverRun(cfg: Conf, tr: seq<Engine>, acts: seq<Act>, i: nat, j: JobId)
    requires IsHistory(cfg, tr, acts) && i < |tr| && cfg.deb.jobTtl <= cfg.deb.delay
    ensures j in tr[i].fate ==> !tr[i].fate[j].WasExecuted?
  {
    if i > 0 {
      ShortLivedJobsNeverRun(cfg, tr, acts, i - 1, j);
      HistoryIsOk(cfg, tr, acts, i - 1);
      assert StepsAt(cfg, tr, acts, i - 1);
      HistoryKeepsMetaOk(cfg, tr, acts, i - 1, if acts[i - 1].Execute? then acts[i - 1].j else j);
      StepExecutesNothing(cfg, tr[i - 1], acts[i - 1], j);
    }
  }

  // ----- What a dropped job leaves behind -----

  predicate Indexed(e: Engine, j: JobId) {
    j in e.known && j in e.jobs.Index(e.known[j].user, e.known[j].session)
  }

  /** The job is in the cancellation index but no longer in the queue. */
  predicate Stranded(e: Engine, j: JobId) {
    Indexed(e, j) && j !in e.jobs.queue
  }

  /** Step `act` finds job `j` without metadata and drops it. */
  predicate Drops(e: Engine, act: Act, j: JobId) {
    act == Execute(j) && j in e.jobs.queue && !e.jobs.LiveMeta(j, Now(e))
  }

  lemma CancelIndexes(jobs: Jobs, v: UserId, t: SessionId, j: JobId, u: UserId, s: SessionId)
    requires j in jobs.Index(v, t) ==> v == u && t == s
    requires j in jobs.queue ==> j in jobs.Index(u, s)
    ensures var c := Cancelled(jobs, v, t);
            if v == u && t == s then j !in c.queue && j !in c.Index(u, s)
            else (j in c.queue <==> j in jobs.queue) && (j in c.Index(u, s) <==> j in jobs.Index(u, s))
  {
  }

  lemma ExecuteIndexes(cfg: Conf, e: Engine, k: JobId, j: JobId, u: UserId, s: SessionId)
    requires EntryOk(e, j) && j in e.known && e.known[j].user == u && e.known[j].session == s
    ensures var jobs := JobsAfter(cfg, e, Execute(k));
            if k == j && e.jobs.LiveMeta(k, Now(e)) then j !in jobs.queue && j !in jobs.Index(u, s)
            else
              && (j in jobs.queue <==> j in e.jobs.queue && k != j)
              && (j in jobs.Index(u, s) <==> j in e.jobs.Index(u, s))
  {
    var jobs := JobsAfter(cfg, e, Execute(k));
    if e.jobs.LiveMeta(k, Now(e)) {
      CompletedCompletes(e.jobs, jobs, k, e.jobs.meta[k].user, e.jobs.meta[k].session);
    } else {
      assert jobs == Dropped(e.jobs, k);
    }
  }

  lemma OthersIndex(cfg: Conf, e: Engine, act: Act, j: JobId, u: UserId, s: SessionId)
    requires !act.Execute? && !act.Cancel? && !(act.Do? && act.op.Connect?) && !(act.Schedule? && act.j == j)
    ensures var jobs := JobsAfter(cfg, e, act);
            (j in jobs.queue <==> j in e.jobs.queue) && (j in jobs.Index(u, s) <==> j in e.jobs.Index(u, s))
  {
  }

  /** What an act does to an older job of session `s` of user `u`. */
  lemma JobsIndex(cfg: Conf, e: Engine, act: Act, j: JobId, u: UserId, s: SessionId)
    requires EntryOk(e, j) && j in e.known && e.known[j].user == u && e.known[j].session == s
    requires forall v, t :: IndexOk(e, v, t)
    requires !(act.Schedule? && act.j == j)
    requires j in e.jobs.queue ==> j in e.jobs.Index(u, s)
    ensures var y := JobsAfter(cfg, e, act);
            && (j in y.queue ==> j in y.Index(u, s))
            && (j in y.Index(u, s) && j !in y.queue <==>
                  !Cancels(act, u, s) && ((j in e.jobs.Index(u, s) && j !in e.jobs.queue) || Drops(e, act, j)))
  {
    if act.Execute? {
      ExecuteIndexes(cfg, e, act.j, j, u, s);
    } else if act.Cancel? {
      assert IndexOk(e, act.u, act.s);
      CancelIndexes(e.jobs, act.u, act.s, j, u, s);
    } else if act.Do? && act.op.Connect? {
      assert IndexOk(e, act.op.u, act.op.s);
      CancelIndexes(e.jobs, act.op.u, act.op.s, j, u, s);
    } else {
      OthersIndex(cfg, e, act, j, u, s);
    }
  }

  lemma JobsAt(cfg: Conf, tr: seq<Engine>, acts: seq<Act>, i: nat, j: JobId)
    requires IsHistory(cfg, tr, acts) && i < |acts|
    ensures EngineOk(cfg, tr[i]) && EntryOk(tr[i], j)
    ensures tr[i + 1].jobs == JobsAfter(cfg, tr[i], acts[i])
    ensures j in tr[i].known ==> !(acts[i].Schedule? && acts[i].j == j)
    ensures if acts[i].Schedule? && acts[i].j == j
            then j in tr[i + 1].known && tr[i + 1].known[j].user == acts[i].u && tr[i + 1].known[j].session == acts[i].s
            else (j in tr[i + 1].known <==> j in tr[i].known)
                 && (j in tr[i].known ==> tr[i + 1].known[j] == tr[i].known[j])
  {
    HistoryIsOk(cfg, tr, acts, i);
    assert StepsAt(cfg, tr, acts, i);
  }

  /** Job `j` was dropped in step `k`, and up to state `i` nobody cancelled the jobs of its session. */
  ghost predicate DroppedSince(tr: seq<Engine>, acts: seq<Act>, k: nat, i: nat, j: JobId)
    requires k < |acts| && i < |tr| == |acts| + 1
  {
    && k < i && j in tr[k].known && Drops(tr[k], acts[k], j)
    && forall m: nat | k <= m < i :: !Cancels(acts[m], tr[k].known[j].user, tr[k].known[j].session)
  }

  lemma ScheduledIndexes(cfg: Conf, e: Engine, u: UserId, s: SessionId, j: JobId)
    ensures var y := JobsAfter(cfg, e, Schedule(u, s, j)); j in y.queue && j in y.Index(u, s)
  {
  }

  lemma QueuedAt(cfg: Conf, tr: seq<Engine>, acts: seq<Act>, i: nat, j: JobId)
    requires IsHistory(cfg, tr, acts) && i < |acts|
    requires j in tr[i].jobs.queue ==> Indexed(tr[i], j)
    ensures j in tr[i + 1].jobs.queue ==> Indexed(tr[i + 1], j)
  {
    JobsAt(cfg, tr, acts, i, j);
    if acts[i].Schedule? && acts[i].j == j {
      ScheduledIndexes(cfg, tr[i], acts[i].u, acts[i].s, j);
    } else if j in tr[i + 1].jobs.queue {
      QueueComesFromSchedule(cfg, tr[i], acts[i], j);
      JobsIndex(cfg, tr[i], acts[i], j, tr[i].known[j].user, tr[i].known[j].session);
    }
  }

  lemma {:induction false} QueuedIsIndexed(cfg: Conf, tr: seq<Engine>, acts: seq<Act>, i: nat, j: JobId)
    requires IsHistory(cfg, tr, acts) && i < |tr|
    ensures j in tr[i].jobs.queue ==> Indexed(tr[i], j)
  {
    if i > 0 {
      QueuedIsIndexed(cfg, tr, acts, i - 1, j);
      QueuedAt(cfg, tr, acts, i - 1, j);
    }
  }

  /** A step makes `j` stranded iff it drops it, or `j` was stranded and is not cancelled; a new job never is. */
  lemma StrandedAt(cfg: Conf, tr: seq<Engine>, acts: seq<Act>, i: nat, j: JobId)
    requires IsHistory(cfg, tr, acts) && i < |acts|
    ensures j in tr[i].known ==>
              && j in tr[i + 1].known && tr[i + 1].known[j] == tr[i].known[j]
              && (Stranded(tr[i + 1], j) <==>
                    && !Cancels(acts[i], tr[i].known[j].user, tr[i].known[j].session)
                    && (Stranded(tr[i], j) || Drops(tr[i], acts[i], j)))
    ensures j !in tr[i].known ==> !Stranded(tr[i + 1], j)
  {
    JobsAt(cfg, tr, acts, i, j);
    if j in tr[i].known {
      QueuedIsIndexed(cfg, tr, acts, i, j);
      JobsIndex(cfg, tr[i], acts[i], j, tr[i].known[j].user, tr[i].known[j].session);
    } else if acts[i].Schedule? && acts[i].j == j {
      ScheduledIndexes(cfg, tr[i], acts[i].u, acts[i].s, j);
    }
  }

  lemma {:induction false} StrandedSince(cfg: Conf, tr: seq<Engine>, acts: seq<Act>, i: nat, j: JobId)
    returns (k: nat)
    requires IsHistory(cfg, tr, acts) && i < |tr| && Stranded(tr[i], j)
    ensures k < |acts| && DroppedSince(tr, acts, k, i, j) && tr[k].known[j] == tr[i].known[j]
  {
    assert i > 0;
    StrandedAt(cfg, tr, acts, i - 1, j);
    if Drops(tr[i - 1], acts[i - 1], j) {
      k := i - 1;
    } else {
      k := StrandedSince(cfg, tr, acts, i - 1, j);
    }
  }

  lemma {:induction false} DroppedMeansStranded(
    cfg: Conf, tr: seq<Engine>, acts: seq<Act>, k: nat, i: nat, j: JobId)
    requires IsHistory(cfg, tr, acts) && k < |acts| && i < |tr| && DroppedSince(tr, acts, k, i, j)
    ensures Stranded(tr[i], j) && tr[i].known[j] == tr[k].known[j]
    decreases i
  {
    StrandedAt(cfg, tr, acts, i - 1, j);
    if k < i - 1 {
      DroppedMeansStranded(cfg, tr, acts, k, i - 1, j);
    }
  }

  /**
    The index holds the queued jobs of a session and, besides, exactly the dropped ones that nobody
    has cancelled since; the key has no expiry, and the session id never comes back.
  */
  lemma IndexedIffQueuedOrDropped(cfg: Conf, tr: seq<Engine>, acts: seq<Act>, i: nat, j: JobId)
    requires IsHistory(cfg, tr, acts) && i < |tr|
    ensures Indexed(tr[i], j) <==>
            j in tr[i].jobs.queue || exists k: nat :: k < |acts| && DroppedSince(tr, acts, k, i, j)
  {
    QueuedIsIndexed(cfg, tr, acts, i, j);
    if Stranded(tr[i], j) {
      var k := StrandedSince(cfg, tr, acts, i, j);
    }
    if k: nat :| k < |acts| && DroppedSince(tr, acts, k, i, j) {
      DroppedMeansStranded(cfg, tr, acts, k, i, j);
    }
  }

  // ----- Reconnecting -----

  /** Whoever has pending jobs has had a session. */
  lemma IndexedMeansIssued(cfg: Conf, e: Engine, u: UserId, s: SessionId)
    requires EngineOk(cfg, e)
    ensures e.jobs.Index(u, s) != {} ==> s in e.x.owner
  {
    if e.jobs.Index(u, s) != {} {
      var j :| j in e.jobs.Index(u, s);
      assert IndexOk(e, u, s) && JobOk(cfg, e, j);
    }
  }

  /** The cancellation a connect begins with finds nothing: every connection has a session id of its own. */
  lemma ConnectCancelsNothing(cfg: Conf, tr: seq<Engine>, acts: seq<Act>, i: nat)
    requires IsHistory(cfg, tr, acts) && i < |acts| && acts[i].Do? && acts[i].op.Connect?
    ensures tr[i + 1].jobs == tr[i].jobs
  {
    HistoryIsOk(cfg, tr, acts, i);
    IndexedMeansIssued(cfg, tr[i], acts[i].op.u, acts[i].op.s);
    assert StepsAt(cfg, tr, acts, i);
  }

  lemma OthersKeepOnline(w: World, u: UserId, s: SessionId, flapping: bool)
    requires UserOk(w.st.At(u), u in w.st.online) && w.st.At(u).members - {s} != {}
    ensures var b := JobDisconnected(w, u, s, flapping);
            u in b.st.online && forall e | e in b.log :: e in w.log || !e.kind.UserOffline?
  {
    DisconnectShape(w.st, u, s);
  }

  lemma LiveJobDisconnects(cfg: Conf, e: Engine, j: JobId, u: UserId, s: SessionId)
    requires e.jobs.LiveMeta(j, Now(e)) && e.jobs.meta[j].user == u && e.jobs.meta[j].session == s
    ensures Step(cfg, e, Execute(j)).x.w ==
            JobDisconnected(e.x.w, u, s, Flapping(e.jobs, Now(e), cfg.deb, u))
  {
  }

  /**
    A job that takes effect disconnects the session it was scheduled for and no other, and publishes
    what that calls for.
  */
  lemma JobDisconnectsItsSession(cfg: Conf, tr: seq<Engine>, acts: seq<Act>, i: nat, j: JobId)
    requires IsHistory(cfg, tr, acts) && i < |acts| && acts[i] == Execute(j)
    requires tr[i].jobs.LiveMeta(j, Now(tr[i]))
    ensures j in tr[i].known
    ensures var u, s := tr[i].known[j].user, tr[i].known[j].session;
            var a, b := tr[i].x.w, tr[i + 1].x.w;
            && b.st.At(u).members == a.st.At(u).members - {s} && !b.st.Live(s)
            && b.st.At(u).version == a.st.At(u).version + (if s in a.st.At(u).members then 1 else 0)
            && (forall v | v != u :: b.st.At(v) == a.st.At(v))
            && (forall t | t != s :: b.st.Live(t) <==> a.st.Live(t))
            && b.log == a.log + Announced(Op.Disconnect(u, s, Flapping(tr[i].jobs, Now(tr[i]), cfg.deb, u)),
                                          a.st.At(u), b.st.At(u))
  {
    HistoryIsOk(cfg, tr, acts, i);
    assert EntryOk(tr[i], j);
    assert StepsAt(cfg, tr, acts, i);
    var u, s := tr[i].known[j].user, tr[i].known[j].session;
    LiveJobDisconnects(cfg, tr[i], j, u, s);
    JobStep(tr[i].x.w, u, s, Flapping(tr[i].jobs, Now(tr[i]), cfg.deb, u));
  }

  lemma JobStep(w: World, u: UserId, s: SessionId, flapping: bool)
    requires UserOk(w.st.At(u), u in w.st.online)
    ensures var b := JobDisconnected(w, u, s, flapping);
            && b.st.At(u).members == w.st.At(u).members - {s} && !b.st.Live(s)
            && b.st.At(u).version == w.st.At(u).version + (if s in w.st.At(u).members then 1 else 0)
            && (forall v | v != u :: b.st.At(v) == w.st.At(v))
            && (forall t | t != s :: b.st.Live(t) <==> w.st.Live(t))
            && b.log == w.log + Announced(Op.Disconnect(u, s, flapping), w.st.At(u), b.st.At(u))
  {
    DisconnectShape(w.st, u, s);
    LeftOk(w.st.At(u), s, w.st.DeviceOf(s), u in w.st.online);
    DisconnectAnnounces(w, u, s, flapping);
  }

  /** What prevents flicker instead: a job never takes offline a user who has another session. */
  lemma ReconnectedUserStaysOnline(cfg: Conf, e: Engine, j: JobId, u: UserId, s: SessionId)
    requires EngineOk(cfg, e) && e.jobs.LiveMeta(j, Now(e))
    requires e.jobs.meta[j].user == u && e.jobs.meta[j].session == s
    requires e.x.w.st.At(u).members - {s} != {}
    ensures var y := Step(cfg, e, Execute(j));
            u in y.x.w.st.online && forall v | v in y.x.w.log :: v in e.x.w.log || !v.kind.UserOffline?
  {
    assert UserOk(e.x.w.st.At(u), u in e.x.w.st.online);
    LiveJobDisconnects(cfg, e, j, u, s);
    OthersKeepOnline(e.x.w, u, s, Flapping(e.jobs, Now(e), cfg.deb, u));
  }

  // ----- No effective job is stranded -----

  /** A pending job whose session is still listed is in a scope the debouncer polls. */
  lemma EffectiveJobIsPolled(cfg: Conf, tr: seq<Engine>, acts: seq<Act>, i: nat, j: JobId)
    requires IsHistory(cfg, tr, acts) && i < |tr| && j in tr[i].jobs.queue
    ensures j in tr[i].known
    ensures tr[i].known[j].session in tr[i].x.w.st.At(tr[i].known[j].user).members ==> tr[i].x.w.st.indexed
  {
    HistoryIsOk(cfg, tr, acts, i);
    assert EntryOk(tr[i], j);
    var u := tr[i].known[j].user;
    assert UserOk(tr[i].x.w.st.At(u), u in tr[i].x.w.st.online);
  }

  // ----- Draining -----

  /** A processScope call: it fetches at step `from`, and by state `to` has executed what it fetched. */
  datatype Call = Call(from: nat, to: nat)

  ghost predicate IsCall(tr: seq<Engine>, acts: seq<Act>, c: Call) {
    && c.from < c.to < |tr| && |tr| == |acts| + 1
    && acts[c.from].Fetch?
    && (forall j | j in acts[c.from].due :: exists m :: c.from < m < c.to && acts[m] == Execute(j))
  }

  /** The state from which call `i` may start. */
  function Earliest(start: nat, calls: seq<Call>, i: nat): nat
    requires i < |calls|
  {
    if i == 0 then start else calls[i - 1].to
  }

  /** The calls follow one another, the first no earlier than step `start`. */
  ghost predicate Calls(tr: seq<Engine>, acts: seq<Act>, start: nat, calls: seq<Call>) {
    && (forall c | c in calls :: IsCall(tr, acts, c))
    && (forall i | 0 <= i < |calls| :: Earliest(start, calls, i) <= calls[i].from)
  }

  /** Of the jobs that were due in `e`, those still queued in `y`. */
  ghost function StillDue(e: Engine, y: Engine): set<JobId> {
    set j | j in Due(e.jobs, Now(e)) && j in y.jobs.queue
  }

  /** A job once out of the queue stays out. */
  lemma {:induction false} GoneStaysGone(cfg: Conf, tr: seq<Engine>, acts: seq<Act>, i: nat, k: nat, j: JobId)
    requires IsHistory(cfg, tr, acts) && i <= k < |tr|
    requires j in tr[i].known && j !in tr[i].jobs.queue
    ensures j !in tr[k].jobs.queue
  {
    HistoryIsOk(cfg, tr, acts, i);
    assert JobOk(cfg, tr[i], j);
    FateIsFinal(cfg, tr, acts, i, k, j);
    HistoryIsOk(cfg, tr, acts, k);
    assert JobOk(cfg, tr[k], j);
  }

  lemma QueueComesFromSchedule(cfg: Conf, e: Engine, act: Act, j: JobId)
    requires j in JobsAfter(cfg, e, act).queue
    ensures var jobs := JobsAfter(cfg, e, act);
            || jobs.queue[j] == Now(e) + cfg.deb.delay
            || (j in e.jobs.queue && e.jobs.queue[j] == jobs.queue[j])
  {
  }

  lemma QueueOnlyFromSchedule(cfg: Conf, e: Engine, act: Act, j: JobId)
    requires j in Step(cfg, e, act).jobs.queue
    ensures var y := Step(cfg, e, act);
            || y.jobs.queue[j] == Now(e) + cfg.deb.delay
            || (j in e.jobs.queue && e.jobs.queue[j] == y.jobs.queue[j])
  {
    assert Step(cfg, e, act).jobs == JobsAfter(cfg, e, act);
    QueueComesFromSchedule(cfg, e, act, j);
  }

  /** A queued job was queued with the same run time a step before, or has just been scheduled. */
  ghost predicate QueueMoves(e: Engine, y: Engine, delay: nat) {
    && Now(e) <= Now(y)
    && (forall j | j in y.jobs.queue ::
          || y.jobs.queue[j] == Now(e) + delay
          || (j in e.jobs.queue && e.jobs.queue[j] == y.jobs.queue[j]))
  }

  ghost predicate QueueEvolves(tr: seq<Engine>, delay: nat) {
    forall k | 0 < k < |tr| :: QueueMoves(tr[k - 1], tr[k], delay)
  }

  lemma StepMovesQueue(cfg: Conf, e: Engine, act: Act)
    requires EngineOk(cfg, e) && Allowed(cfg, e, act)
    ensures QueueMoves(e, Step(cfg, e, act), cfg.deb.delay)
  {
    var y := Step(cfg, e, act);
    StepIsOnward(cfg, e, act);
    forall j | j in y.jobs.queue
      ensures || y.jobs.queue[j] == Now(e) + cfg.deb.delay
              || (j in e.jobs.queue && e.jobs.queue[j] == y.jobs.queue[j])
    {
      QueueOnlyFromSchedule(cfg, e, act, j);
    }
  }

  lemma HistoryEvolvesQueue(cfg: Conf, tr: seq<Engine>, acts: seq<Act>)
    requires IsHistory(cfg, tr, acts)
    ensures QueueEvolves(tr, cfg.deb.delay)
  {
    forall k | 0 < k < |tr|
      ensures QueueMoves(tr[k - 1], tr[k], cfg.deb.delay)
    {
      HistoryIsOk(cfg, tr, acts, k - 1);
      assert StepsAt(cfg, tr, acts, k - 1);
      StepMovesQueue(cfg, tr[k - 1], acts[k - 1]);
    }
  }

  lemma {:induction false} TimePasses(tr: seq<Engine>, delay: nat, i: nat, k: nat)
    requires QueueEvolves(tr, delay) && i <= k < |tr|
    ensures Now(tr[i]) <= Now(tr[k])
    decreases k
  {
    if i < k {
      TimePasses(tr, delay, i, k - 1);
      assert QueueMoves(tr[k - 1], tr[k], delay);
    }
  }

  /** What is due by the time of state `i` was already due then: later jobs run later. */
  lemma {:induction false} DueThenOrLater(tr: seq<Engine>, delay: nat, i: nat, k: nat, j: JobId)
    requires QueueEvolves(tr, delay) && i <= k < |tr| && delay > 0
    requires j in tr[k].jobs.queue && tr[k].jobs.queue[j] <= Now(tr[i])
    ensures j in StillDue(tr[i], tr[k]) && tr[i].jobs.queue[j] == tr[k].jobs.queue[j]
    decreases k
  {
    if i < k {
      TimePasses(tr, delay, i, k - 1);
      assert QueueMoves(tr[k - 1], tr[k], delay);
      DueThenOrLater(tr, delay, i, k - 1, j);
    }
  }

  lemma ExecutedLeavesQueue(cfg: Conf, e: Engine, j: JobId)
    ensures j !in Step(cfg, e, Execute(j)).jobs.queue
  {
  }

  lemma ExecutedIsGone(cfg: Conf, tr: seq<Engine>, acts: seq<Act>, m: nat, j: JobId)
    requires IsHistory(cfg, tr, acts) && m < |acts| && acts[m] == Execute(j)
    ensures j in tr[m + 1].known && j !in tr[m + 1].jobs.queue
  {
    HistoryIsOk(cfg, tr, acts, m);
    HistoryIsOk(cfg, tr, acts, m + 1);
    assert StepsAt(cfg, tr, acts, m);
    ExecutedLeavesQueue(cfg, tr[m], j);
    assert JobOk(cfg, tr[m], j);
  }

  lemma FetchedIsGone(cfg: Conf, tr: seq<Engine>, acts: seq<Act>, c: Call, k: nat, j: JobId)
    requires IsHistory(cfg, tr, acts) && IsCall(tr, acts, c) && c.to <= k < |tr|
    requires j in acts[c.from].due
    ensures j !in tr[k].jobs.queue
  {
    var m :| c.from < m < c.to && acts[m] == Execute(j);
    ExecutedIsGone(cfg, tr, acts, m, j);
    GoneStaysGone(cfg, tr, acts, m + 1, k, j);
  }

  lemma {:induction false} Smaller<T>(a: set<T>, b: set<T>, gone: set<T>)
    requires a <= b - gone && gone <= b
    ensures |a| <= |b| - |gone|
    decreases gone
  {
    if gone == {} {
      SubsetSize(a, b);
    } else {
      var x :| x in gone;
      Smaller(a, b - {x}, gone - {x});
    }
  }

  lemma {:induction false} SameSizeSubset<T>(a: set<T>, b: set<T>)
    requires a <= b && |a| == |b|
    ensures a == b
    decreases a
  {
    if a != {} {
      var x :| x in a;
      SameSizeSubset(a - {x}, b - {x});
    }
  }

  lemma {:induction false} KnownStays(cfg: Conf, tr: seq<Engine>, acts: seq<Act>, i: nat, k: nat, j: JobId)
    requires IsHistory(cfg, tr, acts) && i <= k < |tr| && j in tr[i].known
    ensures j in tr[k].known && tr[k].known[j] == tr[i].known[j]
    decreases k
  {
    if i < k {
      KnownStays(cfg, tr, acts, i, k - 1, j);
      assert StepsAt(cfg, tr, acts, k - 1);
      KnownStep(cfg, tr[k - 1], acts[k - 1], j);
    }
  }

  lemma KnownStep(cfg: Conf, e: Engine, act: Act, j: JobId)
    requires Allowed(cfg, e, act) && j in e.known
    ensures j in Step(cfg, e, act).known && Step(cfg, e, act).known[j] == e.known[j]
  {
  }

  /** A job due in state `i` that is still queued keeps its run time. */
  lemma StillDueKeepsTime(cfg: Conf, tr: seq<Engine>, acts: seq<Act>, i: nat, k: nat, j: JobId)
    requires IsHistory(cfg, tr, acts) && i <= k < |tr| && j in Due(tr[i].jobs, Now(tr[i]))
    ensures j in tr[k].known && (j in tr[k].jobs.queue ==> tr[k].jobs.queue[j] <= Now(tr[i]))
  {
    HistoryIsOk(cfg, tr, acts, i);
    HistoryIsOk(cfg, tr, acts, k);
    assert EntryOk(tr[i], j) && EntryOk(tr[k], j);
    KnownStays(cfg, tr, acts, i, k, j);
  }

  lemma StillDueShrinks(cfg: Conf, tr: seq<Engine>, acts: seq<Act>, i: nat, k: nat, m: nat)
    requires IsHistory(cfg, tr, acts) && i <= k <= m < |tr|
    ensures StillDue(tr[i], tr[m]) <= StillDue(tr[i], tr[k])
  {
    forall j | j in StillDue(tr[i], tr[m])
      ensures j in tr[k].jobs.queue
    {
      StillDueKeepsTime(cfg, tr, acts, i, k, j);
      if j !in tr[k].jobs.queue {
        GoneStaysGone(cfg, tr, acts, k, m, j);
      }
    }
  }

  /** A batch that leaves out a job of `oldest` consists of a full batch of such jobs. */
  lemma BatchTakesOldest(jobs: Jobs, now: nat, batchSize: int, due: seq<JobId>, oldest: set<JobId>, since: nat)
    requires IsDueBatch(jobs, now, batchSize, due) && batchSize >= 1 && since <= now
    requires forall j :: j in oldest <==> j in jobs.queue && jobs.queue[j] <= since
    ensures oldest <= Elements(due) || (Elements(due) <= oldest && |Elements(due)| == batchSize)
  {
    ListingLength(due, Elements(due));
    if k :| k in oldest && k !in Elements(due) {
      assert k in Due(jobs, now);
      if |due| == |Due(jobs, now)| {
        SameSizeSubset(Elements(due), Due(jobs, now));
      }
    }
  }

  /** One call removes a full batch of the jobs still due, or all of them. */
  lemma CallDrains(cfg: Conf, tr: seq<Engine>, acts: seq<Act>, i: nat, c: Call)
    requires IsHistory(cfg, tr, acts) && cfg.deb.delay > 0 && cfg.deb.batchSize >= 1
    requires i <= c.from && IsCall(tr, acts, c)
    ensures var before, after := StillDue(tr[i], tr[c.from]), StillDue(tr[i], tr[c.to]);
            after == {} || |after| <= |before| - cfg.deb.batchSize
  {
    var before, after := StillDue(tr[i], tr[c.from]), StillDue(tr[i], tr[c.to]);
    var due := acts[c.from].due;
    FetchTakesOldest(cfg, tr, acts, i, c);
    StillDueShrinks(cfg, tr, acts, i, c.from, c.to);
    forall j | j in Elements(due)
      ensures j !in after
    {
      FetchedIsGone(cfg, tr, acts, c, c.to, j);
    }
    if Elements(due) <= before {
      Smaller(after, before, Elements(due));
    }
  }

  lemma FetchTakesOldest(cfg: Conf, tr: seq<Engine>, acts: seq<Act>, i: nat, c: Call)
    requires IsHistory(cfg, tr, acts) && cfg.deb.delay > 0 && cfg.deb.batchSize >= 1
    requires i <= c.from && IsCall(tr, acts, c)
    ensures var before, batch := StillDue(tr[i], tr[c.from]), Elements(acts[c.from].due);
            before <= batch || (batch <= before && |batch| == cfg.deb.batchSize)
  {
    var e, delay := tr[c.from], cfg.deb.delay;
    HistoryEvolvesQueue(cfg, tr, acts);
    TimePasses(tr, delay, i, c.from);
    assert StepsAt(cfg, tr, acts, c.from);
    forall j
      ensures j in StillDue(tr[i], e) <==> j in e.jobs.queue && e.jobs.queue[j] <= Now(tr[i])
    {
      if j in StillDue(tr[i], e) {
        StillDueKeepsTime(cfg, tr, acts, i, c.from, j);
      } else if j in e.jobs.queue && e.jobs.queue[j] <= Now(tr[i]) {
        DueThenOrLater(tr, delay, i, c.from, j);
      }
    }
    BatchTakesOldest(e.jobs, Now(e), cfg.deb.batchSize, acts[c.from].due, StillDue(tr[i], e), Now(tr[i]));
  }

  /** Between two calls and in the second, the jobs still due only get fewer. */
  lemma NextCallDrains(cfg: Conf, tr: seq<Engine>, acts: seq<Act>, i: nat, k: nat, c: Call)
    requires IsHistory(cfg, tr, acts) && cfg.deb.delay > 0 && cfg.deb.batchSize >= 1
    requires i <= k <= c.from && IsCall(tr, acts, c)
    ensures var before, after := StillDue(tr[i], tr[k]), StillDue(tr[i], tr[c.to]);
            after == {} || |after| <= |before| - cfg.deb.batchSize
  {
    StillDueShrinks(cfg, tr, acts, i, k, c.from);
    SubsetSize(StillDue(tr[i], tr[c.from]), StillDue(tr[i], tr[k]));
    CallDrains(cfg, tr, acts, i, c);
  }

  lemma LastOfCalls(tr: seq<Engine>, acts: seq<Act>, i: nat, calls: seq<Call>)
    requires Calls(tr, acts, i, calls) && calls != []
    ensures var m := |calls| - 1;
            && IsCall(tr, acts, calls[m])
            && Earliest(i, calls, m) <= calls[m].from
            && Calls(tr, acts, i, calls[..m])
  {
    var front := calls[..|calls| - 1];
    forall k | 0 <= k < |front|
      ensures Earliest(i, front, k) <= front[k].from
    {
      assert Earliest(i, front, k) == Earliest(i, calls, k);
    }
  }

  lemma {:induction false} CallsGoOn(tr: seq<Engine>, acts: seq<Act>, i: nat, calls: seq<Call>)
    requires Calls(tr, acts, i, calls) && calls != []
    ensures i < calls[|calls| - 1].to < |tr|
    decreases |calls|
  {
    LastOfCalls(tr, acts, i, calls);
    if |calls| > 1 {
      CallsGoOn(tr, acts, i, calls[..|calls| - 1]);
    }
  }

  /** From state `k` to state `m` the jobs due in state `i` lose a full batch, or they are all gone. */
  ghost predicate LosesBatch(tr: seq<Engine>, i: nat, k: nat, m: nat, b: int)
    requires i < |tr| && k < |tr| && m < |tr|
  {
    StillDue(tr[i], tr[m]) == {} || |StillDue(tr[i], tr[m])| <= |StillDue(tr[i], tr[k])| - b
  }

  ghost predicate EveryCallDrains(tr: seq<Engine>, acts: seq<Act>, i: nat, b: int)
    requires i < |tr|
  {
    forall k: nat, c: Call | IsCall(tr, acts, c) && i <= k <= c.from :: LosesBatch(tr, i, k, c.to, b)
  }

  lemma BatchesAdd(tr: seq<Engine>, i: nat, k: nat, m: nat, n: nat, b: int)
    requires i < |tr| && k < |tr| && m < |tr| && b >= 1
    requires LosesBatch(tr, i, i, k, n * b) && LosesBatch(tr, i, k, m, b)
    ensures LosesBatch(tr, i, i, m, (n + 1) * b)
  {
  }

  /** After m calls at least m batches of the jobs that were due are gone. */
  lemma {:induction false} CallsDrain(tr: seq<Engine>, acts: seq<Act>, i: nat, calls: seq<Call>, b: int)
    requires i < |tr| && b >= 1 && EveryCallDrains(tr, acts, i, b)
    requires Calls(tr, acts, i, calls) && calls != []
    ensures calls[|calls| - 1].to < |tr| && LosesBatch(tr, i, i, calls[|calls| - 1].to, |calls| * b)
    decreases |calls|
  {
    var m := |calls| - 1;
    CallsGoOn(tr, acts, i, calls);
    LastOfCalls(tr, acts, i, calls);
    if m == 0 {
      assert LosesBatch(tr, i, i, calls[0].to, b);
    } else {
      CallsGoOn(tr, acts, i, calls[..m]);
      CallsDrain(tr, acts, i, calls[..m], b);
      assert LosesBatch(tr, i, calls[m - 1].to, calls[m].to, b);
      BatchesAdd(tr, i, calls[m - 1].to, calls[m].to, m, b);
    }
  }

  /** The n jobs due in state `i` are gone after ceil(n / batch size) calls, whatever happens meanwhile. */
  lemma DueJobsDrain(cfg: Conf, tr: seq<Engine>, acts: seq<Act>, i: nat, calls: seq<Call>)
    requires IsHistory(cfg, tr, acts) && cfg.deb.delay > 0 && cfg.deb.batchSize >= 1
    requires i < |tr| && Calls(tr, acts, i, calls) && calls != []
    requires var n := |Due(tr[i].jobs, Now(tr[i]))|;
             |calls| >= (n + cfg.deb.batchSize - 1) / cfg.deb.batchSize
    ensures calls[|calls| - 1].to < |tr|
    ensures forall j | j in Due(tr[i].jobs, Now(tr[i])) :: j !in tr[calls[|calls| - 1].to].jobs.queue
  {
    forall k: nat, c: Call | IsCall(tr, acts, c) && i <= k <= c.from
      ensures LosesBatch(tr, i, k, c.to, cfg.deb.batchSize)
    {
      NextCallDrains(cfg, tr, acts, i, k, c);
    }
    CallsDrain(tr, acts, i, calls, cfg.deb.batchSize);
    assert StillDue(tr[i], tr[i]) == Due(tr[i].jobs, Now(tr[i]));
    CeilingCovers(|Due(tr[i].jobs, Now(tr[i]))|, cfg.deb.batchSize, |calls|);
    var left := StillDue(tr[i], tr[calls[|calls| - 1].to]);
    assert left == {};
    forall j | j in Due(tr[i].jobs, Now(tr[i]))
      ensures j !in tr[calls[|calls| - 1].to].jobs.queue
    {
      assert j !in left;
    }
  }

  lemma CeilingCovers(n: nat, b: int, m: nat)
    requires b >= 1 && m >= (n + b - 1) / b
    ensures m * b >= n
  {
    var q := (n + b - 1) / b;
    assert q * b > n - 1;
    assert m * b >= q * b;
  }
}
