/**
  Webhook delivery (pkg/webhooks/worker.go, pkg/webhooks/producer.go): a Redis stream, the workers
  of its consumer group, and bounded retries after an exponentially growing wait. Times are in
  nanoseconds.
*/
module Webhooks {
  datatype Event = WebhookEvent(id: string, url: string, createdAt: nat, attempt: nat)

  /** A stream entry; anything the worker cannot decode is malformed. */
  datatype Message = Malformed | Carries(e: Event)

  /** A failed event waiting to be appended to the stream again. */
  datatype Timer = Timer(e: Event, at: nat)

  datatype Config = Config(enabled: bool, retryAttempts: int, retryDelay: nat, batchSize: int)

  /** The first `read` entries of the stream have been read and are not acknowledged yet. */
  datatype Hooks = Hooks(
    now: nat, stream: seq<Message>, read: nat,
    waiting: seq<Timer>, delivered: seq<Event>, dead: seq<Event>)

  // ----- Backoff -----

  const MAX_DELAY: nat := 5 * 60 * 1000_000_000

  function Pow2(n: nat): (r: nat)
    ensures r >= 1
  {
    if n == 0 then 1 else 2 * Pow2(n - 1)
  }

  /** delay * 2^attempt, at most five minutes; doubling is exact in floating point. */
  function Backoff(cfg: Config, attempt: nat): nat {
    var delay := cfg.retryDelay * Pow2(attempt);
    if delay > MAX_DELAY then MAX_DELAY else delay
  }

  // ----- Operations -----

  function Published(h: Hooks, cfg: Config, id: string, url: string): Hooks {
    if cfg.enabled then h.(stream := h.stream + [Carries(WebhookEvent(id, url, h.now, 0))]) else h
  }

  /** XREADGROUP: the worker gets all new entries, at most a batch. */
  function BatchRead(h: Hooks, cfg: Config): Hooks
    requires h.read <= |h.stream|
  {
    var unread := |h.stream| - h.read;
    h.(read := if 0 < cfg.batchSize < unread then h.read + cfg.batchSize else |h.stream|)
  }

  /** Entry `i`, which some worker has read, is acknowledged and leaves the stream. */
  function Taken(h: Hooks, i: nat): Hooks
    requires i < h.read <= |h.stream|
  {
    h.(stream := h.stream[..i] + h.stream[i + 1..], read := h.read - 1)
  }

  /** A worker is done with entry `i`; `ok` tells whether the endpoint accepted it. */
  function Processed(h: Hooks, cfg: Config, i: nat, ok: bool): Hooks
    requires i < h.read <= |h.stream|
  {
    var a := Taken(h, i);
    match h.stream[i]
    case Malformed => a
    case Carries(e) =>
      if ok then a.(delivered := a.delivered + [e])
      else if e.attempt < cfg.retryAttempts then
        a.(waiting := a.waiting + [Timer(e, h.now + Backoff(cfg, e.attempt))])
      else a.(dead := a.dead + [e])
  }

  /** Timer `i` has run out: the event goes back to the stream with its attempt counted. */
  function Retried(h: Hooks, i: nat): Hooks
    requires i < |h.waiting|
  {
    var e := h.waiting[i].e;
    h.(waiting := h.waiting[..i] + h.waiting[i + 1..],
       stream := h.stream + [Carries(e.(attempt := e.attempt + 1, createdAt := h.now))])
  }

  /** When a delivery ends, and how. */
  datatype Outcome = Outcome(at: nat, ok: bool)

  /** One worker processes what it has read, oldest first. */
  function BatchProcessed(h: Hooks, cfg: Config, outcomes: seq<Outcome>): Hooks
    requires |outcomes| <= h.read <= |h.stream|
    decreases |outcomes|
  {
    if outcomes == [] then h
    else BatchProcessed(Processed(h.(now := outcomes[0].at), cfg, 0, outcomes[0].ok), cfg, outcomes[1..])
  }

  function EndOf(now: nat, outcomes: seq<Outcome>): nat {
    if outcomes == [] then now else outcomes[|outcomes| - 1].at
  }

  /** The Redis stream with its consumer group. */
  class Stream {
    var entries: seq<Message>
    var read: nat

    constructor ()
      ensures entries == [] && read == 0
    {
      entries, read := [], 0;
    }

    method XAdd(m: Message)
      modifies this
      ensures entries == old(entries) + [m] && read == old(read)
    {
      entries := entries + [m];
    }

    method XReadGroup(count: int)
      requires read <= |entries|
      modifies `read
      ensures var unread := |entries| - old(read);
              read == if 0 < count < unread then old(read) + count else |entries|
    {
      var unread := |entries| - read;
      if 0 < count < unread {
        read := read + count;
      } else {
        read := |entries|;
      }
    }

    /** Acknowledges the oldest entry that was read. */
    method XAck()
      requires 0 < read <= |entries|
      modifies this
      ensures entries == old(entries)[1..] && read == old(read) - 1
    {
      entries, read := entries[1..], read - 1;
    }
  }

  class Producer {
    const stream: Stream
    const cfg: Config

    constructor (stream: Stream, cfg: Config)
      ensures this.stream == stream && this.cfg == cfg
    {
      this.stream, this.cfg := stream, cfg;
    }

    method Publish(id: string, url: string, now: nat)
      modifies stream
      ensures stream.read == old(stream.read)
      ensures stream.entries == old(stream.entries) +
              if cfg.enabled then [Carries(WebhookEvent(id, url, now, 0))] else []
    {
      if !cfg.enabled {
        return;
      }
      stream.XAdd(Carries(WebhookEvent(id, url, now, 0)));
    }

    method PublishRetry(event: Event, now: nat)
      modifies stream
      ensures stream.read == old(stream.read)
      ensures stream.entries ==
              old(stream.entries) + [Carries(event.(attempt := event.attempt + 1, createdAt := now))]
    {
      var e := event.(attempt := event.attempt + 1);
      e := e.(createdAt := now);
      stream.XAdd(Carries(e));
    }
  }

  class Worker {
    const producer: Producer
    const cfg: Config
    var waiting: seq<Timer>
    var delivered: seq<Event>
    var dead: seq<Event>

    constructor (producer: Producer, cfg: Config)
      ensures this.producer == producer && this.cfg == cfg
      ensures waiting == [] && delivered == [] && dead == []
    {
      this.producer, this.cfg := producer, cfg;
      waiting, delivered, dead := [], [], [];
    }

    ghost function View(now: nat): Hooks
      reads this, producer.stream
    {
      Hooks(now, producer.stream.entries, producer.stream.read, waiting, delivered, dead)
    }

    method ProcessMessage(now: nat, ok: bool)
      requires 0 < producer.stream.read <= |producer.stream.entries|
      modifies this, producer.stream
      ensures View(now) == Processed(old(View(now)), cfg, 0, ok)
    {
      assert producer.stream.entries[..0] + producer.stream.entries[1..] == producer.stream.entries[1..];
      var stream := producer.stream;
      match stream.entries[0] {
        case Malformed =>
        case Carries(event) =>
          if ok {
            delivered := delivered + [event];
          } else if event.attempt < cfg.retryAttempts {
            var delay := Backoff(cfg, event.attempt);
            waiting := waiting + [Timer(event, now + delay)];
          } else {
            dead := dead + [event];
          }
      }
      stream.XAck();
    }

    /** One turn of the worker loop, `outcomes` being how and when its deliveries end. */
    method ReadAndProcess(now: nat, outcomes: seq<Outcome>)
      requires producer.stream.read == 0
      requires |outcomes| == BatchRead(View(now), cfg).read
      modifies this, producer.stream
      ensures View(EndOf(now, outcomes)) == BatchProcessed(BatchRead(old(View(now)), cfg), cfg, outcomes)
    {
      producer.stream.XReadGroup(cfg.batchSize);
      ghost var h := View(now);
      var i := 0;
      while i < |outcomes|
        invariant 0 <= i <= |outcomes|
        invariant producer.stream.read == |outcomes| - i <= |producer.stream.entries|
        invariant BatchProcessed(View(EndOf(now, outcomes[..i])), cfg, outcomes[i..])
                  == BatchProcessed(h, cfg, outcomes)
      {
        assert outcomes[i..][1..] == outcomes[i + 1..];
        ProcessMessage(outcomes[i].at, outcomes[i].ok);
        i := i + 1;
      }
      assert outcomes[..i] == outcomes;
    }

    /** What the goroutine of timer `i` does once its wait is over. */
    method Retry(now: nat, i: nat)
      requires i < |waiting|
      modifies this, producer.stream
      ensures View(now) == Retried(old(View(now)), i)
    {
      var event := waiting[i].e;
      waiting := waiting[..i] + waiting[i + 1..];
      producer.PublishRetry(event, now);
    }
  }

  // ----- The run machine -----

  /** The system with the times at which each published event was tried. */
  datatype Run = Run(h: Hooks, tries: map<string, seq<nat>>)

  const IDLE := Run(Hooks(0, [], 0, [], [], []), map[])

  datatype Act =
    | Pass(ns: nat)
    | Publish(id: string, url: string)
    | Foreign                         // something else writes to the stream
    | Read                            // some worker reads a batch
    | Process(i: nat, ok: bool)       // some worker is done with an entry it has read
    | Retry(i: nat)

  /** Event ids are fresh; a timer does not fire early. */
  predicate Enabled(r: Run, a: Act) {
    match a
    case Publish(id, _) => id !in r.tries
    case Read => r.h.read <= |r.h.stream|
    case Process(i, _) => i < r.h.read <= |r.h.stream|
    case Retry(i) => i < |r.h.waiting| && r.h.waiting[i].at <= r.h.now
    case _ => true
  }

  function Tried(r: Run, m: Message): map<string, seq<nat>> {
    match m
    case Malformed => r.tries
    case Carries(e) => r.tries[e.id := (if e.id in r.tries then r.tries[e.id] else []) + [r.h.now]]
  }

  function Next(cfg: Config, r: Run, a: Act): Run
    requires Enabled(r, a)
  {
    match a
    case Pass(ns) => r.(h := r.h.(now := r.h.now + ns))
    case Publish(id, url) =>
      Run(Published(r.h, cfg, id, url), if cfg.enabled then r.tries[id := []] else r.tries)
    case Foreign => r.(h := r.h.(stream := r.h.stream + [Malformed]))
    case Read => r.(h := BatchRead(r.h, cfg))
    case Process(i, ok) => Run(Processed(r.h, cfg, i, ok), Tried(r, r.h.stream[i]))
    case Retry(i) => r.(h := Retried(r.h, i))
  }

  ghost predicate Follows(cfg: Config, tr: seq<Run>, acts: seq<Act>, i: nat)
    requires i < |acts| && |tr| == |acts| + 1
  {
    Enabled(tr[i], acts[i]) && tr[i + 1] == Next(cfg, tr[i], acts[i])
  }

  ghost predicate IsRun(cfg: Config, tr: seq<Run>, acts: seq<Act>) {
    && |tr| == |acts| + 1
    && tr[0] == IDLE
    && (forall i: nat | i < |acts| :: Follows(cfg, tr, acts, i))
  }
}
