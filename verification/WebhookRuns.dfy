/** Every run of the webhook workers: nothing is lost or duplicated, and retries are bounded and spaced. */
module WebhookRuns {
  import opened Webhooks

  // ----- Backoff -----

  function Least(a: nat, b: nat): nat {
    if a <= b then a else b
  }

  /** The first wait is the configured delay, each later one twice the one before, and none exceeds five minutes. */
  lemma BackoffDoubles(cfg: Config, n: nat)
    ensures Backoff(cfg, 0) == Least(cfg.retryDelay, 300_000_000_000)
    ensures Backoff(cfg, n + 1) == Least(2 * Backoff(cfg, n), 300_000_000_000)
    ensures Backoff(cfg, n) <= Backoff(cfg, n + 1)
  {
    assert cfg.retryDelay * Pow2(n + 1) == 2 * (cfg.retryDelay * Pow2(n));
  }

  lemma {:induction false} BackoffGrows(cfg: Config, n: nat, m: nat)
    requires n <= m
    ensures Backoff(cfg, n) <= Backoff(cfg, m) <= 300_000_000_000
    decreases m
  {
    if n < m {
      BackoffGrows(cfg, n, m - 1);
      BackoffDoubles(cfg, m - 1);
    }
  }

  // ----- Where events are -----

  function IdOf(m: Message): multiset<string> {
    if m.Carries? then multiset{m.e.id} else multiset{}
  }

  function StreamIds(ms: seq<Message>): multiset<string> {
    if ms == [] then multiset{} else IdOf(ms[0]) + StreamIds(ms[1..])
  }

  function TimerIds(ts: seq<Timer>): multiset<string> {
    if ts == [] then multiset{} else multiset{ts[0].e.id} + TimerIds(ts[1..])
  }

  function EventIds(es: seq<Event>): multiset<string> {
    if es == [] then multiset{} else multiset{es[0].id} + EventIds(es[1..])
  }

  /** The ids of all events, with repetitions, wherever they are. */
  function Places(h: Hooks): multiset<string> {
    StreamIds(h.stream) + TimerIds(h.waiting) + EventIds(h.delivered) + EventIds(h.dead)
  }

  lemma {:induction false} StreamIdsAppend(ms: seq<Message>, m: Message)
    ensures StreamIds(ms + [m]) == StreamIds(ms) + IdOf(m)
    decreases |ms|
  {
    if ms != [] {
      assert (ms + [m])[1..] == ms[1..] + [m];
      StreamIdsAppend(ms[1..], m);
    }
  }

  lemma {:induction false} TimerIdsAppend(ts: seq<Timer>, t: Timer)
    ensures TimerIds(ts + [t]) == TimerIds(ts) + multiset{t.e.id}
    decreases |ts|
  {
    if ts != [] {
      assert (ts + [t])[1..] == ts[1..] + [t];
      TimerIdsAppend(ts[1..], t);
    }
  }

  lemma {:induction false} EventIdsAppend(es: seq<Event>, e: Event)
    ensures EventIds(es + [e]) == EventIds(es) + multiset{e.id}
    decreases |es|
  {
    if es != [] {
      assert (es + [e])[1..] == es[1..] + [e];
      EventIdsAppend(es[1..], e);
    }
  }

  lemma {:induction false} TimerIdsRemove(ts: seq<Timer>, i: nat)
    requires i < |ts|
    ensures TimerIds(ts) == TimerIds(ts[..i] + ts[i + 1..]) + multiset{ts[i].e.id}
    decreases |ts|
  {
    if i == 0 {
      assert ts[..0] + ts[1..] == ts[1..];
    } else {
      assert (ts[..i] + ts[i + 1..])[1..] == ts[1..][..i - 1] + ts[1..][i..];
      TimerIdsRemove(ts[1..], i - 1);
    }
  }

  lemma {:induction false} StreamIdsRemove(ms: seq<Message>, i: nat)
    requires i < |ms|
    ensures StreamIds(ms) == StreamIds(ms[..i] + ms[i + 1..]) + IdOf(ms[i])
    decreases |ms|
  {
    if i == 0 {
      assert ms[..0] + ms[1..] == ms[1..];
    } else {
      assert (ms[..i] + ms[i + 1..])[1..] == ms[1..][..i - 1] + ms[1..][i..];
      StreamIdsRemove(ms[1..], i - 1);
    }
  }

  lemma {:induction false} StreamIdsHave(ms: seq<Message>, m: Message)
    requires m in ms && m.Carries?
    ensures m.e.id in StreamIds(ms)
    decreases |ms|
  {
    if ms[0] != m {
      StreamIdsHave(ms[1..], m);
    }
  }

  lemma {:induction false} TimerIdsHave(ts: seq<Timer>, t: Timer)
    requires t in ts
    ensures t.e.id in TimerIds(ts)
    decreases |ts|
  {
    if ts[0] != t {
      TimerIdsHave(ts[1..], t);
    }
  }

  lemma {:induction false} EventIdsHave(es: seq<Event>, e: Event)
    requires e in es
    ensures e.id in EventIds(es)
    decreases |es|
  {
    if es[0] != e {
      EventIdsHave(es[1..], e);
    }
  }

  // ----- The invariant -----

  function Limit(cfg: Config): nat {
    if cfg.retryAttempts < 0 then 0 else cfg.retryAttempts
  }

  /** Each try comes at least the backoff after the one before. */
  predicate Spaced(cfg: Config, times: seq<nat>) {
    forall k: nat | k + 1 < |times| :: times[k] + Backoff(cfg, k) <= times[k + 1]
  }

  predicate TriedTimes(cfg: Config, tries: map<string, seq<nat>>, id: string, n: nat) {
    id in tries && |tries[id]| == n && Spaced(cfg, tries[id])
  }

  /** An event in the stream was tried as often as its attempt says, and appended when its backoff was over. */
  predicate MessageOk(cfg: Config, now: nat, tries: map<string, seq<nat>>, m: Message) {
    m.Carries? ==>
      && m.e.attempt <= Limit(cfg)
      && TriedTimes(cfg, tries, m.e.id, m.e.attempt)
      && (m.e.attempt > 0 ==> tries[m.e.id][m.e.attempt - 1] + Backoff(cfg, m.e.attempt - 1) <= m.e.createdAt)
      && m.e.createdAt <= now
  }

  /** A timer runs out the backoff after the last try. */
  predicate TimerOk(cfg: Config, tries: map<string, seq<nat>>, t: Timer) {
    && t.e.attempt < cfg.retryAttempts
    && TriedTimes(cfg, tries, t.e.id, t.e.attempt + 1)
    && t.at == tries[t.e.id][t.e.attempt] + Backoff(cfg, t.e.attempt)
  }

  predicate DoneOk(cfg: Config, tries: map<string, seq<nat>>, e: Event) {
    e.attempt <= Limit(cfg) && TriedTimes(cfg, tries, e.id, e.attempt + 1)
  }

  predicate DeadOk(cfg: Config, tries: map<string, seq<nat>>, e: Event) {
    DoneOk(cfg, tries, e) && e.attempt == Limit(cfg)
  }

  /** Every event, wherever it is, was tried as often as its attempt says, with the backoff in between. */
  ghost predicate EventsOk(cfg: Config, h: Hooks, tries: map<string, seq<nat>>) {
    && (forall m | m in h.stream :: MessageOk(cfg, h.now, tries, m))
    && (forall t | t in h.waiting :: TimerOk(cfg, tries, t))
    && (forall e | e in h.delivered :: DoneOk(cfg, tries, e))
    && (forall e | e in h.dead :: DeadOk(cfg, tries, e))
  }

  ghost predicate RunOk(cfg: Config, r: Run) {
    && r.h.read <= |r.h.stream|
    && Places(r.h) == multiset(r.tries.Keys)
    && EventsOk(cfg, r.h, r.tries)
  }

  lemma PassKeepsOk(cfg: Config, r: Run, ns: nat)
    requires RunOk(cfg, r)
    ensures RunOk(cfg, Next(cfg, r, Pass(ns)))
  {
    var y := Next(cfg, r, Pass(ns));
    forall m | m in y.h.stream
      ensures MessageOk(cfg, y.h.now, y.tries, m)
    {
      assert MessageOk(cfg, r.h.now, r.tries, m);
    }
  }

  lemma OneMore(s: set<string>, id: string)
    requires id !in s
    ensures multiset(s + {id}) == multiset(s) + multiset{id}
  {
  }

  lemma PublishKeepsEvents(cfg: Config, h: Hooks, tries: map<string, seq<nat>>, id: string, m: Message)
    requires EventsOk(cfg, h, tries) && id !in tries
    requires m.Carries? && m.e.id == id && m.e.attempt == 0 && m.e.createdAt == h.now
    ensures EventsOk(cfg, h.(stream := h.stream + [m]), tries[id := []])
  {
    var more := tries[id := []];
    forall x | x in h.stream + [m]
      ensures MessageOk(cfg, h.now, more, x)
    {
      assert x in h.stream ==> MessageOk(cfg, h.now, tries, x);
    }
    assert forall t | t in h.waiting :: TimerOk(cfg, tries, t) ==> TimerOk(cfg, more, t);
    assert forall e | e in h.delivered :: DoneOk(cfg, tries, e) ==> DoneOk(cfg, more, e);
    assert forall e | e in h.dead :: DeadOk(cfg, tries, e) ==> DeadOk(cfg, more, e);
  }

  lemma PublishKeepsOk(cfg: Config, r: Run, id: string, url: string)
    requires RunOk(cfg, r) && id !in r.tries && cfg.enabled
    ensures RunOk(cfg, Next(cfg, r, Publish(id, url)))
  {
    var m := Carries(WebhookEvent(id, url, r.h.now, 0));
    StreamIdsAppend(r.h.stream, m);
    OneMore(r.tries.Keys, id);
    assert r.tries[id := []].Keys == r.tries.Keys + {id};
    PublishKeepsEvents(cfg, r.h, r.tries, id, m);
  }

  lemma ForeignKeepsOk(cfg: Config, r: Run)
    requires RunOk(cfg, r)
    ensures RunOk(cfg, Next(cfg, r, Foreign))
  {
    StreamIdsAppend(r.h.stream, Malformed);
    assert forall x | x in r.h.stream + [Malformed] :: x in r.h.stream || x == Malformed;
  }

  lemma PlacesWithout(h: Hooks, i: nat)
    requires i < h.read <= |h.stream|
    ensures Places(h) == IdOf(h.stream[i]) + Places(Taken(h, i))
  {
    StreamIdsRemove(h.stream, i);
  }

  lemma EntryIsUnique(h: Hooks, ids: set<string>, i: nat)
    requires Places(h) == multiset(ids) && i < h.read <= |h.stream|
    ensures h.stream[i].Carries? ==> h.stream[i].e.id !in Places(Taken(h, i))
  {
    PlacesWithout(h, i);
    if h.stream[i].Carries? {
      assert Places(h)[h.stream[i].e.id] <= 1;
    }
  }

  /** Events elsewhere keep their tries when another event is tried. */
  lemma OthersKeepTries(
    cfg: Config, h: Hooks, tries: map<string, seq<nat>>, more: map<string, seq<nat>>, id: string)
    requires EventsOk(cfg, h, tries) && id !in Places(h)
    requires forall k | k in tries && k != id :: k in more && more[k] == tries[k]
    ensures EventsOk(cfg, h, more)
  {
    forall m | m in h.stream
      ensures MessageOk(cfg, h.now, more, m)
    {
      assert MessageOk(cfg, h.now, tries, m);
      if m.Carries? {
        StreamIdsHave(h.stream, m);
      }
    }
    forall t | t in h.waiting
      ensures TimerOk(cfg, more, t)
    {
      assert TimerOk(cfg, tries, t);
      TimerIdsHave(h.waiting, t);
    }
    forall e | e in h.delivered
      ensures DoneOk(cfg, more, e)
    {
      assert DoneOk(cfg, tries, e);
      EventIdsHave(h.delivered, e);
    }
    forall e | e in h.dead
      ensures DeadOk(cfg, more, e)
    {
      assert DeadOk(cfg, tries, e);
      EventIdsHave(h.dead, e);
    }
  }

  lemma MoveOne(a: multiset<string>, b: multiset<string>, c: multiset<string>, d: multiset<string>, x: multiset<string>)
    ensures a + (b + x) + c + d == x + (a + b + c + d)
    ensures a + b + (c + x) + d == x + (a + b + c + d)
    ensures a + b + c + (d + x) == x + (a + b + c + d)
  {
  }

  lemma DeliveryMoves(a: Hooks, e: Event)
    ensures Places(a.(delivered := a.delivered + [e])) == multiset{e.id} + Places(a)
  {
    EventIdsAppend(a.delivered, e);
    MoveOne(StreamIds(a.stream), TimerIds(a.waiting), EventIds(a.delivered), EventIds(a.dead), multiset{e.id});
  }

  lemma RetryTimerMoves(a: Hooks, t: Timer)
    ensures Places(a.(waiting := a.waiting + [t])) == multiset{t.e.id} + Places(a)
  {
    TimerIdsAppend(a.waiting, t);
    MoveOne(StreamIds(a.stream), TimerIds(a.waiting), EventIds(a.delivered), EventIds(a.dead), multiset{t.e.id});
  }

  lemma DeathMoves(a: Hooks, e: Event)
    ensures Places(a.(dead := a.dead + [e])) == multiset{e.id} + Places(a)
  {
    EventIdsAppend(a.dead, e);
    MoveOne(StreamIds(a.stream), TimerIds(a.waiting), EventIds(a.delivered), EventIds(a.dead), multiset{e.id});
  }

  /** The event of the processed entry goes to exactly one other place. */
  lemma ProcessMoves(cfg: Config, h: Hooks, i: nat, ok: bool)
    requires i < h.read <= |h.stream|
    ensures Places(Processed(h, cfg, i, ok)) == IdOf(h.stream[i]) + Places(Taken(h, i))
  {
    match h.stream[i]
    case Malformed =>
      assert Processed(h, cfg, i, ok) == Taken(h, i);
    case Carries(e) =>
      if ok {
        DeliveryMoves(Taken(h, i), e);
      } else if e.attempt < cfg.retryAttempts {
        RetryTimerMoves(Taken(h, i), Timer(e, h.now + Backoff(cfg, e.attempt)));
      } else {
        DeathMoves(Taken(h, i), e);
      }
  }

  /** A try that comes when the backoff is over keeps the tries spaced. */
  lemma TryIsSpaced(cfg: Config, r: Run, e: Event)
    requires MessageOk(cfg, r.h.now, r.tries, Carries(e))
    ensures var more := Tried(r, Carries(e));
            TriedTimes(cfg, more, e.id, e.attempt + 1) && more[e.id][e.attempt] == r.h.now
  {
  }

  lemma ProcessKeepsEvents(cfg: Config, a: Hooks, y: Hooks, more: map<string, seq<nat>>, e: Event, ok: bool)
    requires EventsOk(cfg, a, more) && e.attempt <= Limit(cfg)
    requires TriedTimes(cfg, more, e.id, e.attempt + 1) && more[e.id][e.attempt] == a.now
    requires y == if ok then a.(delivered := a.delivered + [e])
                  else if e.attempt < cfg.retryAttempts then
                    a.(waiting := a.waiting + [Timer(e, a.now + Backoff(cfg, e.attempt))])
                  else a.(dead := a.dead + [e])
    ensures EventsOk(cfg, y, more)
  {
    var t := Timer(e, a.now + Backoff(cfg, e.attempt));
    assert forall x | x in a.delivered + [e] :: x in a.delivered || x == e;
    assert forall x | x in a.waiting + [t] :: x in a.waiting || x == t;
    assert forall x | x in a.dead + [e] :: x in a.dead || x == e;
  }

  lemma TakenOk(cfg: Config, h: Hooks, tries: map<string, seq<nat>>, i: nat)
    requires EventsOk(cfg, h, tries) && i < h.read <= |h.stream|
    ensures EventsOk(cfg, Taken(h, i), tries)
  {
    assert forall m | m in Taken(h, i).stream :: m in h.stream;
  }

  lemma ProcessKeepsAllEvents(cfg: Config, r: Run, i: nat, ok: bool)
    requires i < r.h.read <= |r.h.stream| && EventsOk(cfg, r.h, r.tries)
    requires r.h.stream[i].Carries? ==> r.h.stream[i].e.id !in Places(Taken(r.h, i))
    ensures EventsOk(cfg, Processed(r.h, cfg, i, ok), Tried(r, r.h.stream[i]))
    ensures Tried(r, r.h.stream[i]).Keys == r.tries.Keys
  {
    var more, m := Tried(r, r.h.stream[i]), r.h.stream[i];
    TakenOk(cfg, r.h, r.tries, i);
    assert MessageOk(cfg, r.h.now, r.tries, m);
    if m.Carries? {
      TryIsSpaced(cfg, r, m.e);
      OthersKeepTries(cfg, Taken(r.h, i), r.tries, more, m.e.id);
      ProcessKeepsEvents(cfg, Taken(r.h, i), Processed(r.h, cfg, i, ok), more, m.e, ok);
    }
  }

  lemma ProcessKeepsPlaces(cfg: Config, h: Hooks, i: nat, ok: bool)
    requires i < h.read <= |h.stream|
    ensures Places(Processed(h, cfg, i, ok)) == Places(h)
  {
    ProcessMoves(cfg, h, i, ok);
    PlacesWithout(h, i);
  }

  lemma ProcessKeepsRead(cfg: Config, h: Hooks, i: nat, ok: bool)
    requires i < h.read <= |h.stream|
    ensures Processed(h, cfg, i, ok).read <= |Processed(h, cfg, i, ok).stream|
  {
  }

  lemma ProcessKeepsOk(cfg: Config, r: Run, y: Run, i: nat, ok: bool)
    requires RunOk(cfg, r) && i < r.h.read <= |r.h.stream|
    requires y == Run(Processed(r.h, cfg, i, ok), Tried(r, r.h.stream[i]))
    ensures RunOk(cfg, y)
  {
    EntryIsUnique(r.h, r.tries.Keys, i);
    ProcessKeepsAllEvents(cfg, r, i, ok);
    ProcessKeepsPlaces(cfg, r.h, i, ok);
    ProcessKeepsRead(cfg, r.h, i, ok);
  }

  lemma RetryKeepsEvents(cfg: Config, h: Hooks, tries: map<string, seq<nat>>, i: nat)
    requires EventsOk(cfg, h, tries) && i < |h.waiting| && h.waiting[i].at <= h.now
    ensures EventsOk(cfg, Retried(h, i), tries)
  {
    var y, t := Retried(h, i), h.waiting[i];
    var m := Carries(t.e.(attempt := t.e.attempt + 1, createdAt := h.now));
    assert TimerOk(cfg, tries, t);
    assert MessageOk(cfg, h.now, tries, m);
    assert forall x | x in y.stream :: x in h.stream || x == m;
    assert forall x | x in y.waiting :: x in h.waiting;
  }

  lemma RetryMoves(h: Hooks, i: nat)
    requires i < |h.waiting|
    ensures Places(Retried(h, i)) == Places(h)
  {
    var e := h.waiting[i].e;
    TimerIdsRemove(h.waiting, i);
    StreamIdsAppend(h.stream, Carries(e.(attempt := e.attempt + 1, createdAt := h.now)));
  }

  lemma StepKeepsOk(cfg: Config, r: Run, a: Act)
    requires RunOk(cfg, r) && Enabled(r, a)
    ensures RunOk(cfg, Next(cfg, r, a))
  {
    match a
    case Pass(ns) => PassKeepsOk(cfg, r, ns);
    case Publish(id, url) =>
      if cfg.enabled {
        PublishKeepsOk(cfg, r, id, url);
      }
    case Foreign => ForeignKeepsOk(cfg, r);
    case Process(i, ok) => ProcessKeepsOk(cfg, r, Next(cfg, r, a), i, ok);
    case Retry(i) =>
      RetryMoves(r.h, i);
      RetryKeepsEvents(cfg, r.h, r.tries, i);
    case _ =>
  }

  lemma {:induction false} ReachableIsOk(cfg: Config, tr: seq<Run>, acts: seq<Act>, i: nat)
    requires IsRun(cfg, tr, acts) && i < |tr|
    ensures RunOk(cfg, tr[i])
  {
    if i > 0 {
      ReachableIsOk(cfg, tr, acts, i - 1);
      assert Follows(cfg, tr, acts, i - 1);
      StepKeepsOk(cfg, tr[i - 1], acts[i - 1]);
    }
  }

  // ----- Nothing is lost or duplicated -----

  /** A published event is, once, in the stream, waiting, delivered or dead. */
  lemma EveryEventIsInOnePlace(cfg: Config, tr: seq<Run>, acts: seq<Act>, i: nat, id: string)
    requires IsRun(cfg, tr, acts) && i < |tr|
    ensures var h := tr[i].h;
            StreamIds(h.stream)[id] + TimerIds(h.waiting)[id]
            + EventIds(h.delivered)[id] + EventIds(h.dead)[id]
            == if id in tr[i].tries then 1 else 0
  {
    ReachableIsOk(cfg, tr, acts, i);
    assert Places(tr[i].h)[id] == multiset(tr[i].tries.Keys)[id];
  }

  lemma {:induction false} InStream(ms: seq<Message>, id: string) returns (m: Message)
    requires id in StreamIds(ms)
    ensures m in ms && m.Carries? && m.e.id == id
    decreases |ms|
  {
    if ms[0].Carries? && ms[0].e.id == id {
      m := ms[0];
    } else {
      m := InStream(ms[1..], id);
    }
  }

  lemma {:induction false} InTimers(ts: seq<Timer>, id: string) returns (t: Timer)
    requires id in TimerIds(ts)
    ensures t in ts && t.e.id == id
    decreases |ts|
  {
    if ts[0].e.id == id {
      t := ts[0];
    } else {
      t := InTimers(ts[1..], id);
    }
  }

  lemma {:induction false} InEvents(es: seq<Event>, id: string) returns (e: Event)
    requires id in EventIds(es)
    ensures e in es && e.id == id
    decreases |es|
  {
    if es[0].id == id {
      e := es[0];
    } else {
      e := InEvents(es[1..], id);
    }
  }

  lemma EventIsBounded(cfg: Config, h: Hooks, tries: map<string, seq<nat>>, id: string)
    requires EventsOk(cfg, h, tries) && id in tries && id in Places(h)
    ensures |tries[id]| <= Limit(cfg) + 1 && Spaced(cfg, tries[id])
    ensures id in EventIds(h.dead) ==> |tries[id]| == Limit(cfg) + 1
  {
    if id in EventIds(h.dead) {
      var e := InEvents(h.dead, id);
      assert DeadOk(cfg, tries, e);
    } else if id in StreamIds(h.stream) {
      var m := InStream(h.stream, id);
      assert MessageOk(cfg, h.now, tries, m);
    } else if id in TimerIds(h.waiting) {
      var t := InTimers(h.waiting, id);
      assert TimerOk(cfg, tries, t);
    } else {
      var e := InEvents(h.delivered, id);
      assert DoneOk(cfg, tries, e);
    }
  }

  /** At most retryAttempts + 1 tries, each at least the backoff after the one before; a dead event had them all. */
  lemma AttemptsAreBounded(cfg: Config, tr: seq<Run>, acts: seq<Act>, i: nat, id: string)
    requires IsRun(cfg, tr, acts) && i < |tr| && id in tr[i].tries
    ensures var times := tr[i].tries[id];
            && |times| <= Limit(cfg) + 1
            && (forall k: nat | k + 1 < |times| ::
                  times[k] + Least(cfg.retryDelay * Pow2(k), 300_000_000_000) <= times[k + 1])
            && (id in EventIds(tr[i].h.dead) ==> |times| == Limit(cfg) + 1)
  {
    ReachableIsOk(cfg, tr, acts, i);
    assert multiset(tr[i].tries.Keys)[id] == 1;
    EventIsBounded(cfg, tr[i].h, tr[i].tries, id);
  }

  // ----- The time between two deliveries -----

  /** Step `k` tries to deliver event `id` for the n-th time, counting from 0. */
  predicate Tries(tr: seq<Run>, acts: seq<Act>, k: nat, id: string, n: nat)
    requires k < |acts| < |tr|
  {
    && acts[k].Process? && acts[k].i < |tr[k].h.stream| && tr[k].h.stream[acts[k].i].Carries?
    && var e := tr[k].h.stream[acts[k].i].e; e.id == id && e.attempt == n
  }

  /** Time `t` is on record as that of try `n` of event `id`. */
  predicate Recorded(r: Run, id: string, n: nat, t: nat) {
    id in r.tries && n < |r.tries[id]| && r.tries[id][n] == t
  }

  lemma StepKeepsRecord(cfg: Config, r: Run, a: Act, id: string, n: nat, t: nat)
    requires Enabled(r, a) && Recorded(r, id, n, t)
    ensures Recorded(Next(cfg, r, a), id, n, t)
  {
  }

  lemma TryIsRecorded(cfg: Config, tr: seq<Run>, acts: seq<Act>, j: nat, id: string, n: nat)
    requires IsRun(cfg, tr, acts) && j < |acts| && Tries(tr, acts, j, id, n)
    ensures Recorded(tr[j + 1], id, n, tr[j].h.now)
  {
    ReachableIsOk(cfg, tr, acts, j);
    assert Follows(cfg, tr, acts, j);
    assert MessageOk(cfg, tr[j].h.now, tr[j].tries, tr[j].h.stream[acts[j].i]);
  }

  lemma {:induction false} RecordStays(
    cfg: Config, tr: seq<Run>, acts: seq<Act>, i: nat, k: nat, id: string, n: nat, t: nat)
    requires IsRun(cfg, tr, acts) && i <= k < |tr| && Recorded(tr[i], id, n, t)
    ensures Recorded(tr[k], id, n, t)
    decreases k
  {
    if i < k {
      RecordStays(cfg, tr, acts, i, k - 1, id, n, t);
      assert Follows(cfg, tr, acts, k - 1);
      StepKeepsRecord(cfg, tr[k - 1], acts[k - 1], id, n, t);
    }
  }

  lemma {:induction false} SpacedFromTry(cfg: Config, times: seq<nat>, n: nat, m: nat)
    requires Spaced(cfg, times) && n < m < |times|
    ensures times[n] + Backoff(cfg, n) <= times[m]
    decreases m
  {
    if n + 1 < m {
      SpacedFromTry(cfg, times, n, m - 1);
    }
  }

  /** In every run two tries of an event are of different attempts, and the earlier one's backoff lies between them. */
  lemma DeliveriesAreSpaced(
    cfg: Config, tr: seq<Run>, acts: seq<Act>, j: nat, k: nat, id: string, n: nat, m: nat)
    requires IsRun(cfg, tr, acts) && j < k < |acts|
    requires Tries(tr, acts, j, id, n) && Tries(tr, acts, k, id, m)
    ensures n < m
    ensures tr[j].h.now + Least(cfg.retryDelay * Pow2(n), 300_000_000_000) <= tr[k].h.now
  {
    TryIsRecorded(cfg, tr, acts, j, id, n);
    RecordStays(cfg, tr, acts, j + 1, k, id, n, tr[j].h.now);
    ReachableIsOk(cfg, tr, acts, k);
    assert Follows(cfg, tr, acts, k);
    assert MessageOk(cfg, tr[k].h.now, tr[k].tries, tr[k].h.stream[acts[k].i]);
    if n + 1 < m {
      SpacedFromTry(cfg, tr[k].tries[id], n, m - 1);
    }
  }

  // ----- What becomes of an event -----

  /** Step `k` tries to deliver event `id`. */
  predicate TriesEvent(tr: seq<Run>, acts: seq<Act>, k: nat, id: string)
    requires k < |acts| < |tr|
  {
    && acts[k].Process? && acts[k].i < |tr[k].h.stream| && tr[k].h.stream[acts[k].i].Carries?
    && tr[k].h.stream[acts[k].i].e.id == id
  }

  /** Step `k` tries to deliver event `id`, and the endpoint accepts it. */
  predicate Succeeds(tr: seq<Run>, acts: seq<Act>, k: nat, id: string)
    requires k < |acts| < |tr|
  {
    TriesEvent(tr, acts, k, id) && acts[k].ok
  }

  lemma DeliveredNext(cfg: Config, r: Run, a: Act)
    requires Enabled(r, a)
    ensures Next(cfg, r, a).h.delivered ==
            if a.Process? && a.ok && r.h.stream[a.i].Carries? then r.h.delivered + [r.h.stream[a.i].e]
            else r.h.delivered
  {
  }

  lemma StepDelivers(cfg: Config, tr: seq<Run>, acts: seq<Act>, k: nat, id: string)
    requires IsRun(cfg, tr, acts) && k < |acts|
    ensures id in EventIds(tr[k + 1].h.delivered) <==>
            id in EventIds(tr[k].h.delivered) || Succeeds(tr, acts, k, id)
  {
    assert Follows(cfg, tr, acts, k);
    DeliveredNext(cfg, tr[k], acts[k]);
    if acts[k].Process? && tr[k].h.stream[acts[k].i].Carries? {
      EventIdsAppend(tr[k].h.delivered, tr[k].h.stream[acts[k].i].e);
    }
  }

  /** Some try before state `i` succeeded. */
  ghost predicate Accepted(tr: seq<Run>, acts: seq<Act>, i: nat, id: string)
    requires i <= |acts| < |tr|
  {
    exists k: nat :: k < i && Succeeds(tr, acts, k, id)
  }

  lemma AcceptedStep(tr: seq<Run>, acts: seq<Act>, i: nat, id: string)
    requires i < |acts| < |tr|
    ensures Accepted(tr, acts, i + 1, id) <==> Accepted(tr, acts, i, id) || Succeeds(tr, acts, i, id)
  {
  }

  /** An event counts as delivered iff some try of it succeeded. */
  lemma {:induction false} DeliveredIffAccepted(cfg: Config, tr: seq<Run>, acts: seq<Act>, i: nat, id: string)
    requires IsRun(cfg, tr, acts) && i < |tr|
    ensures id in EventIds(tr[i].h.delivered) <==> Accepted(tr, acts, i, id)
  {
    if i == 0 {
      assert EventIds(tr[0].h.delivered) == multiset{} && !Accepted(tr, acts, 0, id);
    } else {
      var k: nat := i - 1;
      DeliveredIffAccepted(cfg, tr, acts, k, id);
      StepDelivers(cfg, tr, acts, k, id);
      AcceptedStep(tr, acts, k, id);
      assert Accepted(tr, acts, k + 1, id) == Accepted(tr, acts, i, id);
    }
  }

  /** What is still to be tried, waits for a retry or is dead has never been accepted. */
  lemma UnsettledWasNeverAccepted(cfg: Config, tr: seq<Run>, acts: seq<Act>, i: nat, k: nat, id: string)
    requires IsRun(cfg, tr, acts) && k < i < |tr|
    requires id in StreamIds(tr[i].h.stream) || id in TimerIds(tr[i].h.waiting) || id in EventIds(tr[i].h.dead)
    ensures !Succeeds(tr, acts, k, id)
  {
    EveryEventIsInOnePlace(cfg, tr, acts, i, id);
    DeliveredIffAccepted(cfg, tr, acts, i, id);
  }

  /** After a try that succeeded there is none. */
  lemma NoTryAfterSuccess(cfg: Config, tr: seq<Run>, acts: seq<Act>, k: nat, m: nat, id: string)
    requires IsRun(cfg, tr, acts) && k < |acts| && m < |acts|
    requires Succeeds(tr, acts, k, id) && TriesEvent(tr, acts, m, id)
    ensures m <= k
  {
    if k < m {
      StreamIdsHave(tr[m].h.stream, tr[m].h.stream[acts[m].i]);
      UnsettledWasNeverAccepted(cfg, tr, acts, m, k, id);
    }
  }

  /** A failed try: the event waits for its next one, or had them all and is dead. */
  lemma FailedTryIsFollowedUp(cfg: Config, tr: seq<Run>, acts: seq<Act>, k: nat, id: string, n: nat)
    requires IsRun(cfg, tr, acts) && k < |acts| && Tries(tr, acts, k, id, n) && !acts[k].ok
    ensures n < cfg.retryAttempts ==> id in TimerIds(tr[k + 1].h.waiting)
    ensures n >= cfg.retryAttempts ==> id in EventIds(tr[k + 1].h.dead)
  {
    assert Follows(cfg, tr, acts, k);
    var h, e := tr[k].h, tr[k].h.stream[acts[k].i].e;
    if n < cfg.retryAttempts {
      TimerIdsAppend(h.waiting, Timer(e, h.now + Backoff(cfg, n)));
    } else {
      EventIdsAppend(h.dead, e);
    }
  }

  lemma StillToBeTried(cfg: Config, h: Hooks, tries: map<string, seq<nat>>, id: string)
    requires EventsOk(cfg, h, tries) && (id in StreamIds(h.stream) || id in TimerIds(h.waiting))
    ensures id in tries && |tries[id]| <= Limit(cfg)
  {
    if id in StreamIds(h.stream) {
      var m := InStream(h.stream, id);
      assert MessageOk(cfg, h.now, tries, m);
    } else {
      var t := InTimers(h.waiting, id);
      assert TimerOk(cfg, tries, t);
    }
  }

  /** An event is given up iff it was tried the full number of times and never accepted. */
  lemma DeadIffAllTriesFailed(cfg: Config, tr: seq<Run>, acts: seq<Act>, i: nat, id: string)
    requires IsRun(cfg, tr, acts) && i < |tr| && id in tr[i].tries
    ensures id in EventIds(tr[i].h.dead) <==>
            && |tr[i].tries[id]| == Limit(cfg) + 1
            && !Accepted(tr, acts, i, id)
  {
    ReachableIsOk(cfg, tr, acts, i);
    EveryEventIsInOnePlace(cfg, tr, acts, i, id);
    DeliveredIffAccepted(cfg, tr, acts, i, id);
    AttemptsAreBounded(cfg, tr, acts, i, id);
    if id in StreamIds(tr[i].h.stream) || id in TimerIds(tr[i].h.waiting) {
      StillToBeTried(cfg, tr[i].h, tr[i].tries, id);
    }
  }

  // ----- What is published arrives as it was -----

  /** Some act before state `i` publishes event `id`. */
  ghost predicate WasPublished(acts: seq<Act>, i: nat, id: string)
    requires i <= |acts|
  {
    exists k: nat :: k < i && acts[k].Publish? && acts[k].id == id
  }

  lemma PublishedStep(acts: seq<Act>, i: nat, id: string)
    requires i < |acts|
    ensures WasPublished(acts, i + 1, id) <==> WasPublished(acts, i, id) || (acts[i].Publish? && acts[i].id == id)
  {
  }

  /** The ids on record are those published, and none when webhooks are disabled. */
  lemma {:induction false} RecordedIffPublished(cfg: Config, tr: seq<Run>, acts: seq<Act>, i: nat, id: string)
    requires IsRun(cfg, tr, acts) && i < |tr|
    ensures id in tr[i].tries <==> cfg.enabled && WasPublished(acts, i, id)
    decreases i
  {
    if i > 0 {
      var k: nat := i - 1;
      RecordedIffPublished(cfg, tr, acts, k, id);
      ReachableIsOk(cfg, tr, acts, k);
      assert Follows(cfg, tr, acts, k);
      StepRecords(cfg, tr[k], acts[k], id);
      PublishedStep(acts, k, id);
      assert WasPublished(acts, k + 1, id) == WasPublished(acts, i, id);
    }
  }

  lemma StepRecords(cfg: Config, r: Run, a: Act, id: string)
    requires RunOk(cfg, r) && Enabled(r, a)
    ensures id in Next(cfg, r, a).tries <==> id in r.tries || (cfg.enabled && a.Publish? && a.id == id)
  {
    if a.Process? {
      assert MessageOk(cfg, r.h.now, r.tries, r.h.stream[a.i]);
    }
  }

  /** Wherever event `id` is, it is addressed to `url`. */
  ghost predicate Addressed(h: Hooks, id: string, url: string) {
    && (forall m | m in h.stream && m.Carries? && m.e.id == id :: m.e.url == url)
    && (forall t | t in h.waiting && t.e.id == id :: t.e.url == url)
    && (forall e | e in h.delivered && e.id == id :: e.url == url)
    && (forall e | e in h.dead && e.id == id :: e.url == url)
  }

  lemma UnknownIsNowhere(cfg: Config, r: Run, id: string, url: string)
    requires RunOk(cfg, r) && id !in r.tries
    ensures Addressed(r.h, id, url)
  {
    assert id !in Places(r.h);
    forall m | m in r.h.stream && m.Carries?
      ensures m.e.id != id
    {
      StreamIdsHave(r.h.stream, m);
    }
    forall t | t in r.h.waiting
      ensures t.e.id != id
    {
      TimerIdsHave(r.h.waiting, t);
    }
    forall e | e in r.h.delivered
      ensures e.id != id
    {
      EventIdsHave(r.h.delivered, e);
    }
    forall e | e in r.h.dead
      ensures e.id != id
    {
      EventIdsHave(r.h.dead, e);
    }
  }

  lemma StepKeepsAddress(cfg: Config, r: Run, a: Act, id: string, url: string)
    requires Enabled(r, a) && Addressed(r.h, id, url) && (a.Publish? && a.id == id ==> a.url == url)
    ensures Addressed(Next(cfg, r, a).h, id, url)
  {
  }

  /** An event that was published for an address is sent to it and to no other, however often it is retried. */
  lemma {:induction false} AddressIsKept(
    cfg: Config, tr: seq<Run>, acts: seq<Act>, k: nat, i: nat, id: string, url: string)
    requires IsRun(cfg, tr, acts) && cfg.enabled && k < i < |tr| && acts[k] == Publish(id, url)
    ensures Addressed(tr[i].h, id, url)
    decreases i
  {
    assert Follows(cfg, tr, acts, i - 1);
    if k < i - 1 {
      AddressIsKept(cfg, tr, acts, k, i - 1, id, url);
      RecordedIffPublished(cfg, tr, acts, i - 1, id);
    } else {
      ReachableIsOk(cfg, tr, acts, k);
      UnknownIsNowhere(cfg, tr[k], id, url);
    }
    StepKeepsAddress(cfg, tr[i - 1], acts[i - 1], id, url);
  }

  /** The timestamp an entry carries is that of its attempt: not before the backoff is over, not after the present. */
  lemma TimestampIsOfTheAttempt(cfg: Config, tr: seq<Run>, acts: seq<Act>, i: nat, m: Message)
    requires IsRun(cfg, tr, acts) && i < |tr| && m in tr[i].h.stream && m.Carries?
    ensures m.e.id in tr[i].tries && |tr[i].tries[m.e.id]| == m.e.attempt
    ensures m.e.createdAt <= tr[i].h.now
    ensures var n := m.e.attempt;
            n > 0 ==> tr[i].tries[m.e.id][n - 1] + Least(cfg.retryDelay * Pow2(n - 1), 300_000_000_000) <= m.e.createdAt
  {
    ReachableIsOk(cfg, tr, acts, i);
    assert MessageOk(cfg, tr[i].h.now, tr[i].tries, m);
  }

  // ----- Batches -----

  function Unread(h: Hooks): int {
    |h.stream| - h.read
  }

  function Reads(acts: seq<Act>, i: nat, j: nat): nat
    requires i <= j <= |acts|
    decreases j
  {
    if i == j then 0 else Reads(acts, i, j - 1) + if acts[j - 1].Read? then 1 else 0
  }

  lemma UnreadStep(cfg: Config, r: Run, a: Act)
    requires Enabled(r, a) && r.h.read <= |r.h.stream| && cfg.batchSize > 0
    requires !a.Publish? && !a.Foreign? && !a.Retry?
    ensures Unread(Next(cfg, r, a).h) ==
            if !a.Read? then Unread(r.h)
            else if cfg.batchSize < Unread(r.h) then Unread(r.h) - cfg.batchSize else 0
  {
    match a
    case Process(i, ok) => assert Processed(r.h, cfg, i, ok).stream == Taken(r.h, i).stream;
    case _ =>
  }

  lemma UnreadAt(cfg: Config, tr: seq<Run>, acts: seq<Act>, i: nat)
    requires IsRun(cfg, tr, acts) && i < |acts| && cfg.batchSize > 0
    requires !acts[i].Publish? && !acts[i].Foreign? && !acts[i].Retry?
    ensures 0 <= Unread(tr[i].h)
    ensures Unread(tr[i + 1].h) ==
            if !acts[i].Read? then Unread(tr[i].h)
            else if cfg.batchSize < Unread(tr[i].h) then Unread(tr[i].h) - cfg.batchSize else 0
  {
    ReachableIsOk(cfg, tr, acts, i);
    assert Follows(cfg, tr, acts, i);
    UnreadStep(cfg, tr[i], acts[i]);
  }

  /** Unless something is appended, every read takes a full batch of the unread entries, the last one what is left. */
  lemma {:induction false} ReadsTakeBatches(cfg: Config, tr: seq<Run>, acts: seq<Act>, i: nat, j: nat)
    requires IsRun(cfg, tr, acts) && i <= j < |tr| && cfg.batchSize > 0
    requires forall k | i <= k < j :: !acts[k].Publish? && !acts[k].Foreign? && !acts[k].Retry?
    ensures var taken := Reads(acts, i, j) * cfg.batchSize;
            Unread(tr[j].h) == if taken <= Unread(tr[i].h) then Unread(tr[i].h) - taken else 0
    decreases j
  {
    if i == j {
      ReachableIsOk(cfg, tr, acts, i);
    } else {
      ReadsTakeBatches(cfg, tr, acts, i, j - 1);
      UnreadAt(cfg, tr, acts, j - 1);
      var n, b := Reads(acts, i, j - 1), cfg.batchSize;
      assert (n + 1) * b == n * b + b;
    }
  }

  lemma Longer(cfg: Config, tr: seq<Run>, acts: seq<Act>, a: Act) returns (tr': seq<Run>, acts': seq<Act>)
    requires IsRun(cfg, tr, acts) && Enabled(tr[|acts|], a)
    ensures tr' == tr + [Next(cfg, tr[|acts|], a)] && acts' == acts + [a]
    ensures IsRun(cfg, tr', acts')
  {
    tr', acts' := tr + [Next(cfg, tr[|acts|], a)], acts + [a];
    forall i: nat | i < |acts'|
      ensures Follows(cfg, tr', acts', i)
    {
      assert i < |acts| ==> Follows(cfg, tr, acts, i);
    }
  }

  /** Deliveries end one after the other. */
  predicate InOrder(now: nat, outcomes: seq<Outcome>)
    decreases |outcomes|
  {
    outcomes == [] || (now <= outcomes[0].at && InOrder(outcomes[0].at, outcomes[1..]))
  }

  /** One worker that processes what it has read goes through steps of the machine. */
  lemma {:induction false} BatchIsARun(cfg: Config, tr: seq<Run>, acts: seq<Act>, outcomes: seq<Outcome>)
    returns (tr': seq<Run>, acts': seq<Act>)
    requires IsRun(cfg, tr, acts) && InOrder(tr[|acts|].h.now, outcomes)
    requires |outcomes| <= tr[|acts|].h.read <= |tr[|acts|].h.stream|
    ensures IsRun(cfg, tr', acts') && tr <= tr' && acts <= acts' && |acts'| == |acts| + 2 * |outcomes|
    ensures tr'[|acts'|].h == BatchProcessed(tr[|acts|].h, cfg, outcomes)
    ensures forall k: nat | k < |outcomes| :: acts'[|acts| + 2 * k + 1] == Process(0, outcomes[k].ok)
    decreases |outcomes|
  {
    tr', acts' := tr, acts;
    if outcomes != [] {
      var h := tr[|acts|].h;
      tr', acts' := Longer(cfg, tr, acts, Pass(outcomes[0].at - h.now));
      assert tr'[|acts'|].h == h.(now := outcomes[0].at);
      tr', acts' := Longer(cfg, tr', acts', Process(0, outcomes[0].ok));
      ghost var n := |acts'|;
      assert n == |acts| + 2 && tr <= tr' && acts <= acts' && acts'[|acts| + 1] == Process(0, outcomes[0].ok);
      tr', acts' := BatchIsARun(cfg, tr', acts', outcomes[1..]);
      forall k: nat | k < |outcomes|
        ensures acts'[|acts| + 2 * k + 1] == Process(0, outcomes[k].ok)
      {
        assert k > 0 ==> acts'[n + 2 * (k - 1) + 1] == Process(0, outcomes[1..][k - 1].ok);
      }
    }
  }

  // ----- Retries come to an end -----

  /** How many times the event can still be appended again. */
  function RetriesLeft(cfg: Config, e: Event): nat {
    if e.attempt < cfg.retryAttempts then cfg.retryAttempts - e.attempt else 0
  }

  function StreamWork(cfg: Config, ms: seq<Message>): nat {
    if ms == [] then 0
    else (if ms[0].Carries? then 3 * RetriesLeft(cfg, ms[0].e) + 2 else 2) + StreamWork(cfg, ms[1..])
  }

  function TimerWork(cfg: Config, ts: seq<Timer>): nat {
    if ts == [] then 0 else 3 * RetriesLeft(cfg, ts[0].e) + 1 + TimerWork(cfg, ts[1..])
  }

  /** A bound on the steps the worker still has to make. */
  function Work(cfg: Config, h: Hooks): nat
    requires h.read <= |h.stream|
  {
    StreamWork(cfg, h.stream) + (|h.stream| - h.read) + TimerWork(cfg, h.waiting)
  }

  lemma {:induction false} StreamWorkRemove(cfg: Config, ms: seq<Message>, i: nat)
    requires i < |ms|
    ensures StreamWork(cfg, ms) == StreamWork(cfg, ms[..i] + ms[i + 1..]) + StreamWork(cfg, [ms[i]])
    decreases |ms|
  {
    if i == 0 {
      assert ms[..0] + ms[1..] == ms[1..];
    } else {
      assert (ms[..i] + ms[i + 1..])[1..] == ms[1..][..i - 1] + ms[1..][i..];
      StreamWorkRemove(cfg, ms[1..], i - 1);
    }
  }

  lemma {:induction false} StreamWorkAppend(cfg: Config, ms: seq<Message>, m: Message)
    ensures StreamWork(cfg, ms + [m]) == StreamWork(cfg, ms) + StreamWork(cfg, [m])
    decreases |ms|
  {
    if ms == [] {
      assert ms + [m] == [m];
    } else {
      assert (ms + [m])[1..] == ms[1..] + [m];
      StreamWorkAppend(cfg, ms[1..], m);
    }
  }

  lemma {:induction false} TimerWorkAppend(cfg: Config, ts: seq<Timer>, t: Timer)
    ensures TimerWork(cfg, ts + [t]) == TimerWork(cfg, ts) + 3 * RetriesLeft(cfg, t.e) + 1
    decreases |ts|
  {
    if ts != [] {
      assert (ts + [t])[1..] == ts[1..] + [t];
      TimerWorkAppend(cfg, ts[1..], t);
    }
  }

  lemma {:induction false} TimerWorkRemove(cfg: Config, ts: seq<Timer>, i: nat)
    requires i < |ts|
    ensures TimerWork(cfg, ts) == TimerWork(cfg, ts[..i] + ts[i + 1..]) + 3 * RetriesLeft(cfg, ts[i].e) + 1
    decreases |ts|
  {
    if i == 0 {
      assert ts[..0] + ts[1..] == ts[1..];
    } else {
      assert (ts[..i] + ts[i + 1..])[1..] == ts[1..][..i - 1] + ts[1..][i..];
      TimerWorkRemove(cfg, ts[1..], i - 1);
    }
  }

  predicate Productive(r: Run, a: Act) {
    match a
    case Read => r.h.read < |r.h.stream|
    case Process(_, _) => true
    case Retry(_) => true
    case _ => false
  }

  lemma ProcessWorks(cfg: Config, h: Hooks, i: nat, ok: bool)
    requires i < h.read <= |h.stream|
    ensures Work(cfg, Processed(h, cfg, i, ok)) < Work(cfg, h)
  {
    StreamWorkRemove(cfg, h.stream, i);
    match h.stream[i]
    case Malformed =>
    case Carries(e) => TimerWorkAppend(cfg, h.waiting, Timer(e, h.now + Backoff(cfg, e.attempt)));
  }

  lemma RetryWorks(cfg: Config, h: Hooks, i: nat)
    requires h.read <= |h.stream| && i < |h.waiting| && h.waiting[i].e.attempt < cfg.retryAttempts
    ensures Work(cfg, Retried(h, i)) < Work(cfg, h)
  {
    var e := h.waiting[i].e;
    var m := Carries(e.(attempt := e.attempt + 1, createdAt := h.now));
    TimerWorkRemove(cfg, h.waiting, i);
    StreamWorkAppend(cfg, h.stream, m);
    assert StreamWork(cfg, [m]) == 3 * (RetriesLeft(cfg, e) - 1) + 2;
  }

  lemma StepWorks(cfg: Config, r: Run, a: Act)
    requires RunOk(cfg, r) && Enabled(r, a) && !a.Publish? && !a.Foreign?
    ensures Next(cfg, r, a).h.read <= |Next(cfg, r, a).h.stream|
    ensures Work(cfg, Next(cfg, r, a).h) + (if Productive(r, a) then 1 else 0) <= Work(cfg, r.h)
  {
    match a
    case Process(i, ok) => ProcessWorks(cfg, r.h, i, ok);
    case Retry(i) =>
      assert TimerOk(cfg, r.tries, r.h.waiting[i]);
      RetryWorks(cfg, r.h, i);
    case _ =>
  }

  function ProductiveSteps(tr: seq<Run>, acts: seq<Act>, i: nat, j: nat): nat
    requires i <= j <= |acts| < |tr|
    decreases j
  {
    if i == j then 0
    else ProductiveSteps(tr, acts, i, j - 1) + if Productive(tr[j - 1], acts[j - 1]) then 1 else 0
  }

  lemma StepWorksAt(cfg: Config, tr: seq<Run>, acts: seq<Act>, k: nat)
    requires IsRun(cfg, tr, acts) && k < |acts| && !acts[k].Publish? && !acts[k].Foreign?
    ensures tr[k].h.read <= |tr[k].h.stream| && tr[k + 1].h.read <= |tr[k + 1].h.stream|
    ensures Work(cfg, tr[k + 1].h) + (if Productive(tr[k], acts[k]) then 1 else 0) <= Work(cfg, tr[k].h)
  {
    ReachableIsOk(cfg, tr, acts, k);
    assert Follows(cfg, tr, acts, k);
    StepWorks(cfg, tr[k], acts[k]);
  }

  /** Without new messages, the workers make only as many steps as there is work. */
  lemma {:induction false} WorkComesToAnEnd(cfg: Config, tr: seq<Run>, acts: seq<Act>, i: nat, j: nat)
    requires IsRun(cfg, tr, acts) && i <= j < |tr|
    requires forall k | i <= k < j :: !acts[k].Publish? && !acts[k].Foreign?
    ensures tr[i].h.read <= |tr[i].h.stream| && tr[j].h.read <= |tr[j].h.stream|
    ensures Work(cfg, tr[j].h) + ProductiveSteps(tr, acts, i, j) <= Work(cfg, tr[i].h)
    decreases j
  {
    if i < j {
      WorkComesToAnEnd(cfg, tr, acts, i, j - 1);
      StepWorksAt(cfg, tr, acts, j - 1);
    } else {
      ReachableIsOk(cfg, tr, acts, i);
    }
  }

  /** While there is work, a step can be made, if need be after waiting for a timer. */
  lemma WorkGoesOn(cfg: Config, r: Run) returns (ns: nat, a: Act)
    requires RunOk(cfg, r) && Work(cfg, r.h) > 0
    ensures var later := Next(cfg, r, Pass(ns)); Enabled(later, a) && Productive(later, a)
  {
    ns, a := 0, Read;
    if r.h.read > 0 {
      a := Process(0, true);
    } else if r.h.stream == [] {
      var t := r.h.waiting[0];
      ns, a := if t.at > r.h.now then t.at - r.h.now else 0, Retry(0);
    }
  }

  /** When the work is done, every published event has been delivered or declared dead. */
  lemma DoneMeansSettled(cfg: Config, tr: seq<Run>, acts: seq<Act>, i: nat, id: string)
    requires IsRun(cfg, tr, acts) && i < |tr| && id in tr[i].tries
    requires tr[i].h.read <= |tr[i].h.stream| && Work(cfg, tr[i].h) == 0
    ensures (id in EventIds(tr[i].h.delivered)) != (id in EventIds(tr[i].h.dead))
  {
    EveryEventIsInOnePlace(cfg, tr, acts, i, id);
    var h := tr[i].h;
    assert h.stream == [];
    assert h.waiting == [];
  }
}
