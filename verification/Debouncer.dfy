/**
  The debouncer (pkg/presence/debouncer.go): delayed disconnect jobs kept in a queue, expiring
  metadata and a cancellation index, and the sliding-window flap detector.
*/
module Debounce {
  import opened Base
  import opened Events
  import opened Presence

  datatype JobMeta = JobMeta(user: UserId, session: SessionId, deadline: nat)

  /** The transition times of one user, oldest first, and the expiry of their key. */
  datatype FlapKey = FlapKey(times: seq<int>, deadline: int)

  /** The debouncer's keys: job queue (score = run time), metadata, index, transitions. */
  datatype Jobs = Jobs(
    queue: map<JobId, nat>,
    meta: map<JobId, JobMeta>,
    index: map<(UserId, SessionId), set<JobId>>,
    flaps: map<UserId, FlapKey>
  ) {
    function Index(u: UserId, s: SessionId): set<JobId> {
      if (u, s) in index then index[(u, s)] else {}
    }

    predicate LiveMeta(j: JobId, now: nat) {
      j in meta && now < meta[j].deadline
    }
  }

  /** Durations in milliseconds. */
  datatype Config = Config(
    delay: nat, jobTtl: nat, batchSize: int, window: int, threshold: int, flapTtl: nat)

  /** Everything the debouncer works on. */
  datatype Desk = Desk(w: World, jobs: Jobs)

  // ----- Jobs -----

  function Scheduled(jobs: Jobs, now: nat, cfg: Config, j: JobId, u: UserId, s: SessionId): Jobs {
    jobs.(queue := jobs.queue[j := now + cfg.delay],
          meta := jobs.meta[j := JobMeta(u, s, now + cfg.jobTtl)],
          index := jobs.index[(u, s) := jobs.Index(u, s) + {j}])
  }

  function Cancelled(jobs: Jobs, u: UserId, s: SessionId): Jobs {
    var ids := jobs.Index(u, s);
    if ids == {} then jobs
    else jobs.(queue := jobs.queue - ids, meta := jobs.meta - ids, index := jobs.index - {(u, s)})
  }

  function Dropped(jobs: Jobs, j: JobId): Jobs {
    jobs.(queue := jobs.queue - {j})
  }

  function Completed(jobs: Jobs, j: JobId, u: UserId, s: SessionId): Jobs {
    jobs.(queue := jobs.queue - {j}, meta := jobs.meta - {j},
          index := PutSet(jobs.index, (u, s), jobs.Index(u, s) - {j}))
  }

  /** The due jobs ZRANGEBYSCORE returns: lowest run times first, at most a batch. */
  ghost predicate IsDueBatch(jobs: Jobs, now: nat, batchSize: int, due: seq<JobId>) {
    var all := Due(jobs, now);
    && (forall i, k | 0 <= i < k < |due| :: due[i] != due[k])
    && (forall j | j in due :: j in all)
    && (forall j, k | j in due && k in all && k !in due :: jobs.queue[j] <= jobs.queue[k])
    && |due| == if 0 < batchSize < |all| then batchSize else |all|
  }

  ghost function Due(jobs: Jobs, now: nat): set<JobId> {
    set j | j in jobs.queue && jobs.queue[j] <= now
  }

  // ----- Flap detection -----

  /** The times after `start`, in order. */
  function Since(times: seq<int>, start: int): seq<int> {
    if times == [] then []
    else (if start < times[0] then [times[0]] else []) + Since(times[1..], start)
  }

  predicate FlappingOff(cfg: Config) {
    cfg.threshold <= 0 || cfg.window <= 0
  }

  /** The transitions key after a transition at `now`. */
  function Recorded(key: Option<FlapKey>, now: int, window: int, ttl: int): FlapKey {
    var kept := if key.Some? && now < key.value.deadline then key.value.times else [];
    FlapKey(Since(kept + [now], now - window), now + ttl)
  }

  function FlapOf(jobs: Jobs, u: UserId): Option<FlapKey> {
    if u in jobs.flaps then Some(jobs.flaps[u]) else None
  }

  function TransitionRecorded(jobs: Jobs, now: nat, cfg: Config, u: UserId): Jobs {
    if FlappingOff(cfg) then jobs
    else jobs.(flaps := jobs.flaps[u := Recorded(FlapOf(jobs, u), now, cfg.window, cfg.flapTtl)])
  }

  predicate Flapping(jobs: Jobs, now: nat, cfg: Config, u: UserId) {
    && !FlappingOff(cfg)
    && |Recorded(FlapOf(jobs, u), now, cfg.window, cfg.flapTtl).times| >= cfg.threshold
  }

  // ----- Executing a job -----

  function JobEvents(u: UserId, r: TransitionResult, flapping: bool): seq<Event> {
    if r.transition == Offline then
      if flapping then [] else [Event(UserOffline, u, r.version, r.count, None)]
    else if r.count > 0 then
      [Event(UserTabs, u, r.version, r.count, r.agg)]
      + if r.changed then [Event(UserPresence, u, r.version, r.count, r.agg)] else []
    else []
  }

  /** A debounced disconnect and what it publishes. */
  function JobDisconnected(w: World, u: UserId, s: SessionId, flapping: bool): World {
    World(Disconnected(w.st, u, s), w.log + JobEvents(u, DisconnectReport(w.st, u, s), flapping))
  }

  function Executed(d: Desk, cfg: Config, j: JobId): Desk {
    var now := d.w.st.now;
    if !d.jobs.LiveMeta(j, now) then d.(jobs := Dropped(d.jobs, j))
    else
      var u, s := d.jobs.meta[j].user, d.jobs.meta[j].session;
      Desk(JobDisconnected(d.w, u, s, Flapping(d.jobs, now, cfg, u)),
           Completed(TransitionRecorded(d.jobs, now, cfg, u), j, u, s))
  }

  function ExecutedAll(d: Desk, cfg: Config, due: seq<JobId>): Desk
    decreases |due|
  {
    if due == [] then d else ExecutedAll(Executed(d, cfg, due[0]), cfg, due[1..])
  }

  /** The debouncer's keys in Redis. */
  class JobKeys {
    var jobs: Jobs

    constructor ()
      ensures jobs == Jobs(map[], map[], map[], map[])
    {
      jobs := Jobs(map[], map[], map[], map[]);
    }
  }

  class Debouncer {
    const svc: Service
    const bus: Bus
    const keys: JobKeys
    const cfg: Config

    constructor (svc: Service, bus: Bus, keys: JobKeys, cfg: Config)
      ensures this.svc == svc && this.bus == bus && this.keys == keys && this.cfg == cfg
    {
      this.svc := svc;
      this.bus := bus;
      this.keys := keys;
      this.cfg := cfg;
    }

    ghost function View(): Desk
      reads svc.rdb, bus, keys
    {
      Desk(World(svc.rdb.st, bus.log), keys.jobs)
    }

    /** `jobID` is the fresh UUID of the new job. */
    method ScheduleDisconnect(u: UserId, s: SessionId, jobID: JobId)
      modifies keys
      ensures keys.jobs == Scheduled(old(keys.jobs), svc.rdb.st.now, cfg, jobID, u, s)
    {
      var now := svc.rdb.st.now;
      var runAt := now + cfg.delay;
      keys.jobs := keys.jobs.(queue := keys.jobs.queue[jobID := runAt]);
      keys.jobs := keys.jobs.(meta := keys.jobs.meta[jobID := JobMeta(u, s, now + cfg.jobTtl)]);
      keys.jobs := keys.jobs.(index := keys.jobs.index[(u, s) := keys.jobs.Index(u, s) + {jobID}]);
    }

    method CancelDisconnect(u: UserId, s: SessionId) returns (n: nat)
      modifies keys
      ensures keys.jobs == Cancelled(old(keys.jobs), u, s)
      ensures n == |old(keys.jobs).Index(u, s)|
    {
      ghost var jobs0 := keys.jobs;
      var jobIDs := keys.jobs.Index(u, s);
      n := |jobIDs|;
      if n == 0 {
        return;
      }
      var left := jobIDs;
      ghost var gone: set<JobId> := {};
      while left != {}
        invariant gone + left == jobIDs
        invariant keys.jobs == jobs0.(queue := jobs0.queue - gone, meta := jobs0.meta - gone)
        decreases left
      {
        var jobID :| jobID in left;
        left := left - {jobID};
        assert jobs0.queue - gone - {jobID} == jobs0.queue - (gone + {jobID});
        assert jobs0.meta - gone - {jobID} == jobs0.meta - (gone + {jobID});
        keys.jobs := keys.jobs.(queue := keys.jobs.queue - {jobID});
        keys.jobs := keys.jobs.(meta := keys.jobs.meta - {jobID});
        gone := gone + {jobID};
      }
      assert gone == jobIDs;
      keys.jobs := keys.jobs.(index := keys.jobs.index - {(u, s)});
    }

    /** True iff the user is flapping. */
    method RecordTransition(u: UserId) returns (flapping: bool)
      modifies keys
      ensures keys.jobs == TransitionRecorded(old(keys.jobs), svc.rdb.st.now, cfg, u)
      ensures flapping == Flapping(old(keys.jobs), svc.rdb.st.now, cfg, u)
    {
      if cfg.threshold <= 0 || cfg.window <= 0 {
        return false;
      }
      var now := svc.rdb.st.now;
      var windowStart := now - cfg.window;
      var set_ := if u in keys.jobs.flaps && now < keys.jobs.flaps[u].deadline
                  then keys.jobs.flaps[u].times else [];
      set_ := set_ + [now];                          // ZADD
      set_ := Since(set_, windowStart);              // ZREMRANGEBYSCORE -inf windowStart
      var count := |set_|;                           // ZCARD
      keys.jobs := keys.jobs.(flaps := keys.jobs.flaps[u := FlapKey(set_, now + cfg.flapTtl)]);
      flapping := count >= cfg.threshold;
    }

    method ExecuteJob(jobID: JobId)
      modifies svc.rdb, bus, keys
      ensures View() == Executed(old(View()), cfg, jobID)
    {
      if !keys.jobs.LiveMeta(jobID, svc.rdb.st.now) {
        keys.jobs := keys.jobs.(queue := keys.jobs.queue - {jobID});
        return;
      }
      var u, s := keys.jobs.meta[jobID].user, keys.jobs.meta[jobID].session;
      var result := svc.Disconnect(u, s);
      var isFlapping := RecordTransition(u);
      PublishOutcome(u, result, isFlapping);
      CleanUp(jobID, u, s);
    }

    /** ZREM, DEL and SREM of a job that has been executed. */
    method CleanUp(jobID: JobId, u: UserId, s: SessionId)
      modifies keys
      ensures keys.jobs == Completed(old(keys.jobs), jobID, u, s)
    {
      keys.jobs := keys.jobs.(queue := keys.jobs.queue - {jobID});
      keys.jobs := keys.jobs.(meta := keys.jobs.meta - {jobID});
      keys.jobs := keys.jobs.(
        index := PutSet(keys.jobs.index, (u, s), keys.jobs.Index(u, s) - {jobID}));
    }

    /** The events of an executed job. */
    method PublishOutcome(u: UserId, r: TransitionResult, isFlapping: bool)
      requires r.transition != Offline ==> r.agg.Some?
      modifies bus
      ensures bus.log == old(bus.log) + JobEvents(u, r, isFlapping)
    {
      if r.transition == Offline {
        if !isFlapping {
          bus.Publish(Event(UserOffline, u, r.version, r.count, None));
        }
      } else if r.count > 0 {
        bus.Publish(Event(UserTabs, u, r.version, r.count, r.agg));
        if r.changed {
          bus.Publish(Event(UserPresence, u, r.version, r.count, r.agg));
        }
      }
    }

    /** `due` is what ZRANGEBYSCORE returned for this tick. */
    method ProcessScope(due: seq<JobId>)
      requires IsDueBatch(keys.jobs, svc.rdb.st.now, cfg.batchSize, due)
      modifies svc.rdb, bus, keys
      ensures View() == ExecutedAll(old(View()), cfg, due)
    {
      var i := 0;
      while i < |due|
        invariant 0 <= i <= |due|
        invariant ExecutedAll(View(), cfg, due[i..]) == ExecutedAll(old(View()), cfg, due)
      {
        assert due[i..][1..] == due[i + 1..];
        ExecuteJob(due[i]);
        i := i + 1;
      }
    }
  }
}
