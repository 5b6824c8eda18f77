/**
  The presence machine together with the debouncer's jobs, at operation level: scheduling,
  cancelling, fetching and executing jobs interleave freely with every presence operation.
*/
module Engine {
  import opened Base
  import opened Debounce
  import opened System
  import opened Runs

  /** A job as it was scheduled. */
  datatype Job = Job(user: UserId, session: SessionId, at: nat, runAt: nat)

  datatype Fate = WasExecuted(at: nat) | WasCancelled | WasDropped

  /** Besides the job keys: all jobs ever scheduled, how they ended, and which were ever fetched as due. */
  datatype Engine = Engine(
    x: System, jobs: Jobs, known: map<JobId, Job>, fate: map<JobId, Fate>, fetched: set<JobId>)

  const START := Engine(INITIAL, Jobs(map[], map[], map[], map[]), map[], map[], {})

  datatype Conf = Conf(sys: Settings, deb: Config)

  datatype Act =
    | Do(op: Op)
    | Schedule(u: UserId, s: SessionId, j: JobId)
    | Cancel(u: UserId, s: SessionId)
    | Fetch(due: seq<JobId>)
    | Execute(j: JobId)

  /** Job ids are fresh UUIDs; a gateway schedules only for its own connected session. */
  ghost predicate Allowed(cfg: Conf, e: Engine, act: Act) {
    match act
    case Do(op) => Enabled(e.x, op)
    case Schedule(u, s, j) => j !in e.known && s in e.x.owner && e.x.owner[s].user == u
    case Cancel(_, _) => true
    case Fetch(due) => IsDueBatch(e.jobs, e.x.w.st.now, cfg.deb.batchSize, due)
    case Execute(j) => j in e.fetched
  }

  function Now(e: Engine): nat {
    e.x.w.st.now
  }

  /** The presence step an act amounts to; waiting no time is no step at all. */
  ghost function OpOf(cfg: Conf, e: Engine, act: Act): Op {
    match act
    case Do(op) => op
    case Execute(j) =>
      if e.jobs.LiveMeta(j, Now(e)) then
        var m := e.jobs.meta[j];
        Op.Disconnect(m.user, m.session, Flapping(e.jobs, Now(e), cfg.deb, m.user))
      else Wait(0)
    case _ => Wait(0)
  }

  /** A gateway connect begins by cancelling the session's pending jobs. */
  function JobsAfter(cfg: Conf, e: Engine, act: Act): Jobs {
    match act
    case Do(op) => if op.Connect? then Cancelled(e.jobs, op.u, op.s) else e.jobs
    case Schedule(u, s, j) => Scheduled(e.jobs, Now(e), cfg.deb, j, u, s)
    case Cancel(u, s) => Cancelled(e.jobs, u, s)
    case Fetch(_) => e.jobs
    case Execute(j) => Executed(Desk(e.x.w, e.jobs), cfg.deb, j).jobs
  }

  /** How the jobs that leave the queue in this step end. */
  function FateOf(e: Engine, act: Act): Fate {
    match act
    case Execute(j) => if e.jobs.LiveMeta(j, Now(e)) then WasExecuted(Now(e)) else WasDropped
    case _ => WasCancelled
  }

  ghost function Step(cfg: Conf, e: Engine, act: Act): Engine {
    var jobs := JobsAfter(cfg, e, act);
    Engine(
      Next(cfg.sys, e.x, OpOf(cfg, e, act)),
      jobs,
      if act.Schedule? then
        e.known[act.j := Job(act.u, act.s, Now(e), Now(e) + cfg.deb.delay)]
      else e.known,
      map j | j in e.fate.Keys + (e.jobs.queue.Keys - jobs.queue.Keys) ::
        if j in e.fate then e.fate[j] else FateOf(e, act),
      if act.Fetch? then e.fetched + Elements(act.due) else e.fetched)
  }

  ghost predicate StepsAt(cfg: Conf, tr: seq<Engine>, acts: seq<Act>, i: nat)
    requires i < |acts| && |tr| == |acts| + 1
  {
    Allowed(cfg, tr[i], acts[i]) && tr[i + 1] == Step(cfg, tr[i], acts[i])
  }

  /** `tr` is the sequence of states the acts lead through. */
  ghost predicate IsHistory(cfg: Conf, tr: seq<Engine>, acts: seq<Act>) {
    && |tr| == |acts| + 1
    && tr[0] == START
    && (forall i: nat | i < |acts| :: StepsAt(cfg, tr, acts, i))
  }

  // ----- The job invariant -----

  /** Queue, metadata and index agree with the job as it was scheduled. */
  predicate EntryOk(e: Engine, j: JobId) {
    && (j in e.jobs.queue ==> j in e.known && e.jobs.queue[j] == e.known[j].runAt)
    && (j in e.jobs.meta ==>
          && j in e.known
          && e.jobs.meta[j].user == e.known[j].user && e.jobs.meta[j].session == e.known[j].session)
    && (e.jobs.LiveMeta(j, Now(e)) ==>
          j in e.jobs.queue && j in e.jobs.Index(e.jobs.meta[j].user, e.jobs.meta[j].session))
  }

  predicate IndexOk(e: Engine, u: UserId, s: SessionId) {
    forall j | j in e.jobs.Index(u, s) ::
      j in e.known && e.known[j].user == u && e.known[j].session == s
  }

  /** Every job is accounted for once, ran no earlier than it should, and is for its own session. */
  predicate JobOk(cfg: Conf, e: Engine, j: JobId) {
    && (j in e.known <==> j in e.jobs.queue || j in e.fate)
    && !(j in e.jobs.queue && j in e.fate)
    && (j in e.known ==>
          && e.known[j].runAt == e.known[j].at + cfg.deb.delay
          && e.known[j].session in e.x.owner
          && e.x.owner[e.known[j].session].user == e.known[j].user)
    && (j in e.fetched ==> j in e.known && e.known[j].runAt <= Now(e))
    && (j in e.fate && e.fate[j].WasExecuted? ==>
          e.known[j].at + cfg.deb.delay <= e.fate[j].at <= Now(e))
  }

  ghost predicate EngineOk(cfg: Conf, e: Engine) {
    && SystemOk(e.x)
    && (forall j :: EntryOk(e, j) && JobOk(cfg, e, j))
    && (forall u, s :: IndexOk(e, u, s))
  }

  // ----- Steps keep the invariant -----

  /** What every step keeps of the rest: time and ownership only grow, ended jobs stay ended. */
  ghost predicate Onward(e: Engine, y: Engine) {
    && SystemOk(y.x)
    && Now(e) <= Now(y)
    && (forall s | s in e.x.owner :: s in y.x.owner && y.x.owner[s] == e.x.owner[s])
    && (forall j | j in e.fate :: j in y.fate && y.fate[j] == e.fate[j])
    && (forall j | j in y.fate :: j in e.fate || (j in e.jobs.queue && j !in y.jobs.queue))
    && (forall j | j in e.jobs.queue && j !in y.jobs.queue :: j in y.fate)
  }

  lemma JobsUntouched(cfg: Conf, e: Engine, y: Engine)
    requires EngineOk(cfg, e) && Onward(e, y) && y.jobs == e.jobs && y.known == e.known
    requires forall j | j in y.fetched :: j in e.fetched || (j in e.jobs.queue && e.jobs.queue[j] <= Now(e))
    ensures EngineOk(cfg, y)
  {
    forall j
      ensures EntryOk(y, j) && JobOk(cfg, y, j)
    {
      assert EntryOk(e, j) && JobOk(cfg, e, j);
    }
    forall u, s
      ensures IndexOk(y, u, s)
    {
      assert IndexOk(e, u, s);
    }
  }

  lemma JobScheduled(cfg: Conf, e: Engine, y: Engine, u: UserId, s: SessionId, j: JobId)
    requires EngineOk(cfg, e) && Onward(e, y) && Allowed(cfg, e, Schedule(u, s, j))
    requires y.jobs == Scheduled(e.jobs, Now(e), cfg.deb, j, u, s)
    requires y.known == e.known[j := Job(u, s, Now(e), Now(e) + cfg.deb.delay)]
    requires y.fetched == e.fetched
    ensures EngineOk(cfg, y)
  {
    forall k
      ensures EntryOk(y, k) && JobOk(cfg, y, k)
    {
      assert EntryOk(e, k) && JobOk(cfg, e, k);
    }
    forall v, t
      ensures IndexOk(y, v, t)
    {
      assert IndexOk(e, v, t);
      assert forall k | k in e.jobs.Index(v, t) :: k != j;
    }
  }

  lemma JobsCancelled(cfg: Conf, e: Engine, y: Engine, u: UserId, s: SessionId)
    requires EngineOk(cfg, e) && Onward(e, y)
    requires y.jobs == Cancelled(e.jobs, u, s) && y.known == e.known && y.fetched == e.fetched
    requires forall j | j in y.fate && j !in e.fate :: y.fate[j] == WasCancelled
    ensures EngineOk(cfg, y)
  {
    assert IndexOk(e, u, s);
    forall k
      ensures EntryOk(y, k) && JobOk(cfg, y, k)
    {
      assert EntryOk(e, k) && JobOk(cfg, e, k);
    }
    forall v, t
      ensures IndexOk(y, v, t)
    {
      assert IndexOk(e, v, t);
    }
  }

  lemma JobDropped(cfg: Conf, e: Engine, y: Engine, j: JobId)
    requires EngineOk(cfg, e) && Onward(e, y) && !e.jobs.LiveMeta(j, Now(e))
    requires y.jobs == Dropped(e.jobs, j) && y.known == e.known && y.fetched == e.fetched
    requires forall k | k in y.fate && k !in e.fate :: y.fate[k] == WasDropped
    ensures EngineOk(cfg, y)
  {
    forall k
      ensures EntryOk(y, k) && JobOk(cfg, y, k)
    {
      assert EntryOk(e, k) && JobOk(cfg, e, k);
    }
    forall v, t
      ensures IndexOk(y, v, t)
    {
      assert IndexOk(e, v, t);
    }
  }

  /** Completing job `j` of session `s` takes it, and no other job, out of queue, metadata and index. */
  ghost predicate Completes(a: Jobs, b: Jobs, j: JobId, u: UserId, s: SessionId) {
    && (forall k :: k in b.queue <==> k in a.queue && k != j)
    && (forall k | k in b.queue :: b.queue[k] == a.queue[k])
    && (forall k :: k in b.meta <==> k in a.meta && k != j)
    && (forall k | k in b.meta :: b.meta[k] == a.meta[k])
    && (forall v, t, k :: k in b.Index(v, t) <==> k in a.Index(v, t) && !(v == u && t == s && k == j))
  }

  lemma CompletedCompletes(a: Jobs, b: Jobs, j: JobId, u: UserId, s: SessionId)
    requires b.(flaps := a.flaps) == Completed(a, j, u, s)
    ensures Completes(a, b, j, u, s)
  {
  }

  lemma CompletedEntry(e: Engine, y: Engine, j: JobId, u: UserId, s: SessionId, k: JobId)
    requires EntryOk(e, k) && Completes(e.jobs, y.jobs, j, u, s) && y.known == e.known && Now(e) <= Now(y)
    ensures EntryOk(y, k)
  {
  }

  lemma JobCompleted(cfg: Conf, e: Engine, y: Engine, j: JobId, u: UserId, s: SessionId)
    requires EngineOk(cfg, e) && Onward(e, y) && e.jobs.LiveMeta(j, Now(e)) && j in e.fetched
    requires Completes(e.jobs, y.jobs, j, u, s)
    requires y.known == e.known && y.fetched == e.fetched
    requires forall k | k in y.fate && k !in e.fate :: y.fate[k] == WasExecuted(Now(e))
    ensures EngineOk(cfg, y)
  {
    forall k
      ensures EntryOk(y, k) && JobOk(cfg, y, k)
    {
      assert EntryOk(e, k) && JobOk(cfg, e, k);
      CompletedEntry(e, y, j, u, s, k);
    }
    forall v, t
      ensures IndexOk(y, v, t)
    {
      assert IndexOk(e, v, t);
    }
  }

  lemma OpIsEnabled(cfg: Conf, e: Engine, act: Act)
    requires EngineOk(cfg, e) && Allowed(cfg, e, act)
    ensures Enabled(e.x, OpOf(cfg, e, act))
  {
    match act
    case Execute(j) => assert EntryOk(e, j) && JobOk(cfg, e, j);
    case _ =>
  }

  lemma StepIsOnward(cfg: Conf, e: Engine, act: Act)
    requires EngineOk(cfg, e) && Allowed(cfg, e, act)
    ensures Onward(e, Step(cfg, e, act))
  {
    var op := OpOf(cfg, e, act);
    OpIsEnabled(cfg, e, act);
    StepKeepsOk(cfg.sys, e.x, op);
    StepIsAboutItsSubject(cfg.sys, e.x, op);
    OwnersStay(cfg.sys, e.x, op);
  }

  lemma DoKeepsEngineOk(cfg: Conf, e: Engine, op: Op)
    requires EngineOk(cfg, e) && Allowed(cfg, e, Do(op))
    ensures EngineOk(cfg, Step(cfg, e, Do(op)))
  {
    var y := Step(cfg, e, Do(op));
    StepIsOnward(cfg, e, Do(op));
    if op.Connect? {
      JobsCancelled(cfg, e, y, op.u, op.s);
    } else {
      JobsUntouched(cfg, e, y);
    }
  }

  lemma ExecuteShape(cfg: Conf, e: Engine, j: JobId)
    ensures var y := Step(cfg, e, Execute(j));
            && y.known == e.known && y.fetched == e.fetched
            && (forall k | k in y.fate && k !in e.fate ::
                  y.fate[k] == if e.jobs.LiveMeta(j, Now(e)) then WasExecuted(Now(e)) else WasDropped)
            && if e.jobs.LiveMeta(j, Now(e)) then
                 y.jobs.(flaps := e.jobs.flaps)
                 == Completed(e.jobs, j, e.jobs.meta[j].user, e.jobs.meta[j].session)
               else y.jobs == Dropped(e.jobs, j)
  {
  }

  lemma ExecuteKeepsEngineOk(cfg: Conf, e: Engine, y: Engine, j: JobId)
    requires EngineOk(cfg, e) && j in e.fetched && Onward(e, y)
    requires y.known == e.known && y.fetched == e.fetched
    requires forall k | k in y.fate && k !in e.fate ::
               y.fate[k] == if e.jobs.LiveMeta(j, Now(e)) then WasExecuted(Now(e)) else WasDropped
    requires if e.jobs.LiveMeta(j, Now(e)) then
               y.jobs.(flaps := e.jobs.flaps)
               == Completed(e.jobs, j, e.jobs.meta[j].user, e.jobs.meta[j].session)
             else y.jobs == Dropped(e.jobs, j)
    ensures EngineOk(cfg, y)
  {
    if e.jobs.LiveMeta(j, Now(e)) {
      CompletedCompletes(e.jobs, y.jobs, j, e.jobs.meta[j].user, e.jobs.meta[j].session);
      JobCompleted(cfg, e, y, j, e.jobs.meta[j].user, e.jobs.meta[j].session);
    } else {
      JobDropped(cfg, e, y, j);
    }
  }

  lemma StepKeepsEngineOk(cfg: Conf, e: Engine, act: Act)
    requires EngineOk(cfg, e) && Allowed(cfg, e, act)
    ensures EngineOk(cfg, Step(cfg, e, act))
  {
    match act
    case Do(op) => DoKeepsEngineOk(cfg, e, op);
    case Schedule(u, s, j) =>
      StepIsOnward(cfg, e, act);
      JobScheduled(cfg, e, Step(cfg, e, act), u, s, j);
    case Cancel(u, s) =>
      StepIsOnward(cfg, e, act);
      JobsCancelled(cfg, e, Step(cfg, e, act), u, s);
    case Fetch(due) =>
      StepIsOnward(cfg, e, act);
      JobsUntouched(cfg, e, Step(cfg, e, act));
    case Execute(j) =>
      StepIsOnward(cfg, e, act);
      ExecuteShape(cfg, e, j);
      ExecuteKeepsEngineOk(cfg, e, Step(cfg, e, act), j);
  }

  /** Executing a job is what the debouncer's executeJob does. */
  lemma ExecuteIsExecuteJob(cfg: Conf, e: Engine, j: JobId)
    ensures var y := Step(cfg, e, Execute(j));
            Desk(y.x.w, y.jobs) == Executed(Desk(e.x.w, e.jobs), cfg.deb, j)
  {
    assert Pass(e.x.w, 0) == e.x.w;
  }

  lemma {:induction false} HistoryIsOk(cfg: Conf, tr: seq<Engine>, acts: seq<Act>, i: nat)
    requires IsHistory(cfg, tr, acts) && i < |tr|
    ensures EngineOk(cfg, tr[i])
  {
    if i > 0 {
      HistoryIsOk(cfg, tr, acts, i - 1);
      assert StepsAt(cfg, tr, acts, i - 1);
      StepKeepsEngineOk(cfg, tr[i - 1], acts[i - 1]);
    }
  }

  lemma Longer(cfg: Conf, tr: seq<Engine>, acts: seq<Act>, act: Act) returns (tr': seq<Engine>, acts': seq<Act>)
    requires IsHistory(cfg, tr, acts) && Allowed(cfg, tr[|acts|], act)
    ensures tr' == tr + [Step(cfg, tr[|acts|], act)] && acts' == acts + [act]
    ensures IsHistory(cfg, tr', acts')
  {
    tr', acts' := tr + [Step(cfg, tr[|acts|], act)], acts + [act];
    forall i: nat | i < |acts'|
      ensures StepsAt(cfg, tr', acts', i)
    {
      assert i < |acts| ==> StepsAt(cfg, tr, acts, i);
    }
  }

  function Executions(due: seq<JobId>): seq<Act> {
    if due == [] then [] else [Execute(due[0])] + Executions(due[1..])
  }

  lemma {:induction false} ExecutionsGoOn(cfg: Conf, tr: seq<Engine>, acts: seq<Act>, due: seq<JobId>)
    returns (tr': seq<Engine>, acts': seq<Act>)
    requires IsHistory(cfg, tr, acts) && forall j | j in due :: j in tr[|acts|].fetched
    ensures IsHistory(cfg, tr', acts') && acts' == acts + Executions(due)
    ensures var e, y := tr[|acts|], tr'[|acts'|];
            Desk(y.x.w, y.jobs) == ExecutedAll(Desk(e.x.w, e.jobs), cfg.deb, due)
    decreases |due|
  {
    tr', acts' := tr, acts;
    if due != [] {
      ExecuteIsExecuteJob(cfg, tr[|acts|], due[0]);
      tr', acts' := Longer(cfg, tr, acts, Execute(due[0]));
      var mid := acts';
      tr', acts' := ExecutionsGoOn(cfg, tr', acts', due[1..]);
      assert mid + Executions(due[1..]) == acts + Executions(due);
    }
  }

  /** One call of processScope is a history: the fetch, and then every fetched job in turn. */
  lemma ProcessScopeIsAHistory(cfg: Conf, tr: seq<Engine>, acts: seq<Act>, due: seq<JobId>)
    returns (tr': seq<Engine>, acts': seq<Act>)
    requires IsHistory(cfg, tr, acts)
    requires IsDueBatch(tr[|acts|].jobs, Now(tr[|acts|]), cfg.deb.batchSize, due)
    ensures IsHistory(cfg, tr', acts') && acts' == acts + [Fetch(due)] + Executions(due)
    ensures var e, y := tr[|acts|], tr'[|acts'|];
            Desk(y.x.w, y.jobs) == ExecutedAll(Desk(e.x.w, e.jobs), cfg.deb, due)
  {
    var e := tr[|acts|];
    tr', acts' := Longer(cfg, tr, acts, Fetch(due));
    FetchShape(cfg, e, due);
    tr', acts' := ExecutionsGoOn(cfg, tr', acts', due);
  }

  lemma FetchShape(cfg: Conf, e: Engine, due: seq<JobId>)
    ensures var y := Step(cfg, e, Fetch(due));
            y.x.w == e.x.w && y.jobs == e.jobs && forall j | j in due :: j in y.fetched
  {
    assert Pass(e.x.w, 0) == e.x.w;
  }

  /** Every history of the engine is a run of the presence machine, so all of module Runs applies. */
  lemma HistoryIsARun(cfg: Conf, tr: seq<Engine>, acts: seq<Act>) returns (xs: seq<System>, ops: seq<Op>)
    requires IsHistory(cfg, tr, acts)
    ensures |xs| == |tr| && (forall i | 0 <= i < |tr| :: xs[i] == tr[i].x)
    ensures IsRun(cfg.sys, xs, ops)
  {
    xs := seq(|tr|, i requires 0 <= i < |tr| => tr[i].x);
    ops := seq(|acts|, i requires 0 <= i < |acts| && i < |tr| => OpOf(cfg, tr[i], acts[i]));
    forall i: nat | i < |ops|
      ensures Follows(cfg.sys, xs, ops, i)
    {
      HistoryIsOk(cfg, tr, acts, i);
      assert StepsAt(cfg, tr, acts, i);
      OpIsEnabled(cfg, tr[i], acts[i]);
    }
  }
}
