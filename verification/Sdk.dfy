/**
  The SDK's event filter (readPump in pkg/sdk/client.go) and its convergence to the server:
  events may be reordered, duplicated or lost on the way, but what a subscriber was shown last
  about a user is what the server said at the highest version that got through.
*/
module Sdk {
  import opened Base
  import opened Store
  import opened Events
  import opened System
  import opened Runs
  import opened Announcements

  /** A WebSocket message: text that does not decode, or an object, absent fields reading as zero. */
  datatype Message =
    | Malformed
    | Object(typ: string, user: UserId, version: nat, tabs: nat, state: Option<Status>)

  /** What the server sends a client whose session has expired. */
  const RECONNECT := Object("reconnect_required", "", 0, 0, None)

  function TypeName(k: Kind): string {
    match k
    case UserOnline => "user_online"
    case UserOffline => "user_offline"
    case UserTabs => "user_tabs"
    case UserPresence => "user_presence"
    case OtherKind(name) => name
  }

  function KindOf(typ: string): Kind {
    match typ
    case "user_online" => UserOnline
    case "user_offline" => UserOffline
    case "user_tabs" => UserTabs
    case "user_presence" => UserPresence
    case _ => OtherKind(typ)
  }

  function Encoded(e: Event): Message {
    Object(TypeName(e.kind), e.user, e.version, e.tabs, e.state)
  }

  function Decoded(m: Message): Event
    requires m.Object?
  {
    Event(KindOf(m.typ), m.user, m.version, m.tabs, m.state)
  }

  /** The highest version seen of each user, and the events handed to OnEvent. */
  datatype Filter = Filter(lastSeen: map<UserId, nat>, delivered: seq<Event>) {
    function LastSeen(u: UserId): nat {
      if u in lastSeen then lastSeen[u] else 0
    }
  }

  const FRESH := Filter(map[], [])

  function Take(f: Filter, e: Event): Filter {
    if e.version <= f.LastSeen(e.user) then f
    else Filter(f.lastSeen[e.user := e.version], f.delivered + [e])
  }

  function TakeAll(f: Filter, es: seq<Event>): Filter {
    if es == [] then f else Take(TakeAll(f, es[..|es| - 1]), es[|es| - 1])
  }

  /** What readPump takes for presence events: every object with a type. */
  function Heard(ms: seq<Message>): seq<Event> {
    if ms == [] then []
    else (if ms[0].Object? && ms[0].typ != "" then [Decoded(ms[0])] else []) + Heard(ms[1..])
  }

  /** What the last event delivered about `u` says; nothing yet reads as offline. */
  function Shown(delivered: seq<Event>, u: UserId): View {
    if delivered == [] then View(0, None)
    else
      var e := delivered[|delivered| - 1];
      if e.user == u then EventView(e) else Shown(delivered[..|delivered| - 1], u)
  }

  class Connection {
    var f: Filter

    constructor ()
      ensures f == FRESH
    {
      f := FRESH;
    }

    /**
      Reads the messages of one WebSocket until it fails. The reconnect request is looked for
      in objects without a type, where it cannot be, so no message ever triggers a reconnection.
    */
    method ReadPump(messages: seq<Message>) returns (reconnect: bool)
      modifies this
      ensures f == TakeAll(old(f), Heard(messages))
      ensures !reconnect
    {
      var i := 0;
      ghost var heard: seq<Event> := [];
      reconnect := false;
      while i < |messages|
        invariant 0 <= i <= |messages|
        invariant heard + Heard(messages[i..]) == Heard(messages)
        invariant f == TakeAll(old(f), heard)
        invariant !reconnect
      {
        var m := messages[i];
        assert messages[i..][1..] == messages[i + 1..];
        if m.Object? {
          if m.typ == "" {
            if m.typ == RECONNECT.typ {
              assert false;
            }
          } else {
            var event := Decoded(m);
            assert heard + ([event] + Heard(messages[i + 1..])) == heard + [event] + Heard(messages[i + 1..]);
            assert (heard + [event])[..|heard|] == heard;
            heard := heard + [event];
            Receive(event);
          }
        }
        i := i + 1;
      }
      assert heard + [] == heard;
    }

    /** The version gate, and the delivery of what passes it. */
    method Receive(event: Event)
      modifies this
      ensures f == Take(old(f), event)
    {
      var lastVersion := f.LastSeen(event.user);
      if event.version <= lastVersion {
        return;
      }
      f := f.(lastSeen := f.lastSeen[event.user := event.version]);
      f := f.(delivered := f.delivered + [event]);
    }
  }

  /** A server's request to reconnect is taken for an event of version 0 and dropped, in any state of the filter. */
  lemma ReconnectRequestIsLost(f: Filter, ms: seq<Message>)
    ensures TakeAll(f, Heard(ms + [RECONNECT])) == TakeAll(f, Heard(ms))
  {
    HeardAppend(ms, RECONNECT);
    assert Heard([RECONNECT]) == [Decoded(RECONNECT)];
    var es := Heard(ms);
    assert (es + [Decoded(RECONNECT)])[..|es|] == es;
  }

  lemma {:induction false} HeardAppend(ms: seq<Message>, m: Message)
    ensures Heard(ms + [m]) == Heard(ms) + Heard([m])
    decreases |ms|
  {
    if ms == [] {
      assert ms + [m] == [m];
    } else {
      assert (ms + [m])[1..] == ms[1..] + [m];
      HeardAppend(ms[1..], m);
    }
  }

  /** Events survive the wire. */
  lemma DecodedEncoded(e: Event)
    requires !e.kind.OtherKind?
    ensures Encoded(e).typ != "" && Decoded(Encoded(e)) == e
  {
  }

  /** A reconnected socket continues where the previous one stopped. */
  lemma {:induction false} ReconnectContinues(f: Filter, es: seq<Event>, fs: seq<Event>)
    ensures TakeAll(TakeAll(f, es), fs) == TakeAll(f, es + fs)
    decreases |fs|
  {
    if fs == [] {
      assert es + fs == es;
    } else {
      assert (es + fs)[..|es + fs| - 1] == es + fs[..|fs| - 1];
      ReconnectContinues(f, es, fs[..|fs| - 1]);
    }
  }

  /** The filter after the messages of one socket after the other. */
  function AfterSockets(f: Filter, sockets: seq<seq<Message>>): Filter
    decreases |sockets|
  {
    if sockets == [] then f else AfterSockets(TakeAll(f, Heard(sockets[0])), sockets[1..])
  }

  function AllHeard(sockets: seq<seq<Message>>): seq<Event> {
    if sockets == [] then [] else Heard(sockets[0]) + AllHeard(sockets[1..])
  }

  /** Reconnecting makes no difference to the filter. */
  lemma {:induction false} SocketsContinue(f: Filter, sockets: seq<seq<Message>>)
    ensures AfterSockets(f, sockets) == TakeAll(f, AllHeard(sockets))
    decreases |sockets|
  {
    if sockets != [] {
      ReconnectContinues(f, Heard(sockets[0]), AllHeard(sockets[1..]));
      SocketsContinue(TakeAll(f, Heard(sockets[0])), sockets[1..]);
    }
  }

  // ----- The filter is a version-gated register -----

  /** The highest version among the events about `u`, 0 when there are none. */
  function Highest(es: seq<Event>, u: UserId): nat {
    if es == [] then 0
    else
      var e, rest := es[|es| - 1], Highest(es[..|es| - 1], u);
      if e.user == u && e.version > rest then e.version else rest
  }

  lemma {:induction false} HighestIsMaximum(es: seq<Event>, u: UserId)
    ensures forall e | e in es && e.user == u :: e.version <= Highest(es, u)
    ensures Highest(es, u) > 0 ==>
              exists e :: e in es && e.user == u && e.version == Highest(es, u)
  {
    if es != [] {
      var front, last := es[..|es| - 1], es[|es| - 1];
      HighestIsMaximum(front, u);
      assert es == front + [last];
      assert last in es;
      assert forall e | e in es :: e in front || e == last;
      assert forall e | e in front :: e in es;
    }
  }

  /** The register holds the highest version and shows an event that carries it. */
  lemma {:induction false} FilterKeepsHighest(es: seq<Event>, u: UserId)
    ensures var f := TakeAll(FRESH, es);
            && f.LastSeen(u) == Highest(es, u)
            && (Highest(es, u) == 0 ==> Shown(f.delivered, u) == View(0, None))
            && (Highest(es, u) > 0 ==>
                  exists e :: e in es && e.user == u && e.version == Highest(es, u)
                              && Shown(f.delivered, u) == EventView(e))
  {
    if es != [] {
      var front, last := es[..|es| - 1], es[|es| - 1];
      FilterKeepsHighest(front, u);
      var g := TakeAll(FRESH, front);
      assert (g.delivered + [last])[..|g.delivered|] == g.delivered;
      assert last in es;
      assert forall e | e in front :: e in es;
      if Highest(front, u) > 0 {
        var e :| e in front && e.user == u && e.version == Highest(front, u)
                 && Shown(g.delivered, u) == EventView(e);
        assert e in es;
      }
    }
  }

  /** Of the events about one user that are delivered, each is newer than all before it. */
  lemma {:induction false} DeliveredVersionsIncrease(es: seq<Event>, i: nat, k: nat)
    requires i < k < |TakeAll(FRESH, es).delivered|
    requires var d := TakeAll(FRESH, es).delivered; d[i].user == d[k].user
    ensures var d := TakeAll(FRESH, es).delivered; d[i].version < d[k].version
  {
    var front := es[..|es| - 1];
    var d := TakeAll(FRESH, front).delivered;
    if k < |d| {
      DeliveredVersionsIncrease(front, i, k);
    } else {
      DeliveredIsSeen(front, i);
    }
  }

  lemma {:induction false} DeliveredIsSeen(es: seq<Event>, i: nat)
    requires i < |TakeAll(FRESH, es).delivered|
    ensures var f := TakeAll(FRESH, es); f.delivered[i].version <= f.LastSeen(f.delivered[i].user)
  {
    var front := es[..|es| - 1];
    if i < |TakeAll(FRESH, front).delivered| {
      DeliveredIsSeen(front, i);
    }
  }

  // ----- Convergence -----

  /** Any delivery of published events: any order, any repetition, any losses, and what has no version. */
  ghost predicate IsDelivery(es: seq<Event>, log: seq<Event>) {
    forall e | e in es :: e in log || e.version == 0
  }

  ghost predicate IsSent(m: Message, log: seq<Event>) {
    m == Malformed || m == RECONNECT || exists e :: e in log && m == Encoded(e)
  }

  /** A socket brings published events, requests to reconnect and garbage. */
  ghost predicate Brings(ms: seq<Message>, log: seq<Event>) {
    forall m | m in ms :: IsSent(m, log)
  }

  /** Some socket brings the event. */
  ghost predicate Arrives(sockets: seq<seq<Message>>, e: Event) {
    exists ms :: ms in sockets && Encoded(e) in ms
  }

  /** What arrives is heard. */
  lemma {:induction false} MessageIsHeard(ms: seq<Message>, e: Event)
    requires Encoded(e) in ms && !e.kind.OtherKind?
    ensures e in Heard(ms)
    decreases |ms|
  {
    DecodedEncoded(e);
    if ms[0] != Encoded(e) {
      MessageIsHeard(ms[1..], e);
    }
  }

  lemma {:induction false} ArrivalIsHeard(sockets: seq<seq<Message>>, e: Event)
    requires Arrives(sockets, e) && !e.kind.OtherKind?
    ensures e in AllHeard(sockets)
    decreases |sockets|
  {
    if Encoded(e) in sockets[0] {
      MessageIsHeard(sockets[0], e);
    } else {
      ArrivalIsHeard(sockets[1..], e);
    }
  }

  /** What is heard was sent: a published event, or a request to reconnect. */
  lemma {:induction false} HeardWasSent(ms: seq<Message>, log: seq<Event>, e: Event)
    requires Brings(ms, log) && (forall f | f in log :: !f.kind.OtherKind?) && e in Heard(ms)
    ensures e.version == 0 || (e in log && Encoded(e) in ms)
    decreases |ms|
  {
    var m := ms[0];
    assert IsSent(m, log);
    if m != Malformed && m != RECONNECT {
      var f :| f in log && m == Encoded(f);
      DecodedEncoded(f);
    }
    if e in Heard(ms[1..]) {
      HeardWasSent(ms[1..], log, e);
    }
  }

  lemma {:induction false} AllHeardArrived(sockets: seq<seq<Message>>, log: seq<Event>, e: Event)
    requires (forall ms | ms in sockets :: Brings(ms, log)) && (forall f | f in log :: !f.kind.OtherKind?)
    requires e in AllHeard(sockets)
    ensures e.version == 0 || (e in log && Arrives(sockets, e))
    decreases |sockets|
  {
    if e in Heard(sockets[0]) {
      HeardWasSent(sockets[0], log, e);
    } else {
      AllHeardArrived(sockets[1..], log, e);
    }
  }

  /** An event older than its user's version was already published a step before. */
  lemma EventOutlivesItsVersion(tr: seq<System>, i: nat, e: Event)
    requires Evolves(tr) && 0 < i < |tr| && e in tr[i].w.log
    requires e.version != tr[i].w.st.At(e.user).version
    ensures e in tr[i - 1].w.log
  {
    assert Moves(tr[i - 1].w, tr[i].w);
  }

  /** An event shows its user as every state with the event's version does. */
  lemma {:induction false} EventShowsItsVersion(tr: seq<System>, i: nat, j: nat, e: Event)
    requires Evolves(tr) && i < |tr| && j < |tr| && e in tr[i].w.log
    requires tr[0].w.log == []
    requires e.version == tr[j].w.st.At(e.user).version
    ensures EventView(e) == ViewOf(tr[j].w.st.At(e.user))
    decreases i
  {
    assert SystemOk(tr[i]);
    assert EventOk(tr[i].w.st.At(e.user), e);
    if e.version == tr[i].w.st.At(e.user).version {
      if i <= j {
        VersionsEvolve(tr, i, j, e.user);
      } else {
        VersionsEvolve(tr, j, i, e.user);
      }
    } else {
      EventOutlivesItsVersion(tr, i, e);
      EventShowsItsVersion(tr, i - 1, j, e);
    }
  }

  /** The subscriber is shown what any delivered event with the highest version says. */
  lemma SubscriberFollowsHighestVersion(
    cfg: Settings, tr: seq<System>, ops: seq<Op>, i: nat, es: seq<Event>, e: Event)
    requires IsRun(cfg, tr, ops) && i < |tr| && IsDelivery(es, tr[i].w.log)
    requires e in es && e.version > 0 && forall f | f in es && f.user == e.user :: f.version <= e.version
    ensures var f := TakeAll(FRESH, es);
            f.LastSeen(e.user) == e.version && Shown(f.delivered, e.user) == EventView(e)
  {
    ReachableIsOk(cfg, tr, ops, i);
    HighestIsMaximum(es, e.user);
    FilterKeepsHighest(es, e.user);
    assert EventOk(tr[i].w.st.At(e.user), e);
    var top :| top in es && top.user == e.user && top.version == Highest(es, e.user)
               && Shown(TakeAll(FRESH, es).delivered, e.user) == EventView(top);
    assert top in tr[i].w.log && e in tr[i].w.log;
  }

  /**
    A subscriber whose highest version for `u` is the server's version in any state `j` of the
    run (the events having been published up to any state `i`) is shown the server's view there.
  */
  lemma SubscriberConverges(
    cfg: Settings, tr: seq<System>, ops: seq<Op>, i: nat, j: nat, es: seq<Event>, u: UserId)
    requires IsRun(cfg, tr, ops) && i < |tr| && j < |tr| && IsDelivery(es, tr[i].w.log)
    requires TakeAll(FRESH, es).LastSeen(u) == tr[j].w.st.At(u).version
    ensures Shown(TakeAll(FRESH, es).delivered, u) == ViewOf(tr[j].w.st.At(u))
  {
    FilterKeepsHighest(es, u);
    RunsEvolve(cfg, tr, ops);
    assert SystemOk(tr[j]);
    assert UserOk(tr[j].w.st.At(u), u in tr[j].w.st.online);
    if Highest(es, u) > 0 {
      var e :| e in es && e.user == u && e.version == Highest(es, u)
               && Shown(TakeAll(FRESH, es).delivered, u) == EventView(e);
      EventShowsItsVersion(tr, i, j, e);
    }
  }

  lemma KindsAreKnown(cfg: Settings, tr: seq<System>, ops: seq<Op>, i: nat)
    requires IsRun(cfg, tr, ops) && i < |tr|
    ensures forall e | e in tr[i].w.log :: !e.kind.OtherKind?
  {
    forall e | e in tr[i].w.log
      ensures !e.kind.OtherKind?
    {
      KindsMatchTabs(cfg, tr, ops, i, e);
    }
  }

  /** A published event that reaches the client on any socket counts: its version is seen. */
  lemma ArrivedVersionIsSeen(
    cfg: Settings, tr: seq<System>, ops: seq<Op>, i: nat, sockets: seq<seq<Message>>, e: Event)
    requires IsRun(cfg, tr, ops) && i < |tr| && e in tr[i].w.log && Arrives(sockets, e)
    ensures e.version <= AfterSockets(FRESH, sockets).LastSeen(e.user)
  {
    KindsAreKnown(cfg, tr, ops, i);
    ArrivalIsHeard(sockets, e);
    SocketsContinue(FRESH, sockets);
    FilterKeepsHighest(AllHeard(sockets), e.user);
    HighestIsMaximum(AllHeard(sockets), e.user);
  }

  /** Of the events about `u`, one of version `v` arrives and none that is newer; for version 0 none at all. */
  ghost predicate ArrivesUpTo(sockets: seq<seq<Message>>, log: seq<Event>, u: UserId, v: nat) {
    && (forall e | e in log && e.user == u && Arrives(sockets, e) :: e.version <= v)
    && (v > 0 ==> exists e :: e in log && e.user == u && e.version == v && Arrives(sockets, e))
  }

  lemma SeenUpTo(cfg: Settings, tr: seq<System>, ops: seq<Op>, i: nat, sockets: seq<seq<Message>>, u: UserId, v: nat)
    requires IsRun(cfg, tr, ops) && i < |tr|
    requires forall ms | ms in sockets :: Brings(ms, tr[i].w.log)
    requires ArrivesUpTo(sockets, tr[i].w.log, u, v)
    ensures AfterSockets(FRESH, sockets).LastSeen(u) == v
  {
    var log, es := tr[i].w.log, AllHeard(sockets);
    KindsAreKnown(cfg, tr, ops, i);
    SocketsContinue(FRESH, sockets);
    FilterKeepsHighest(es, u);
    HighestIsMaximum(es, u);
    if v > 0 {
      var e :| e in log && e.user == u && e.version == v && Arrives(sockets, e);
      ArrivedVersionIsSeen(cfg, tr, ops, i, sockets, e);
    }
    if Highest(es, u) > 0 {
      var e :| e in es && e.user == u && e.version == Highest(es, u);
      AllHeardArrived(sockets, log, e);
    }
  }

  /**
    A whole connection: its sockets bring published events, garbage and requests to reconnect, and it
    reconnects any number of times. If an event of the server's version in some state `j` arrives and
    no newer one about `u`, the client is shown the server's view there.
  */
  lemma ConnectionConverges(
    cfg: Settings, tr: seq<System>, ops: seq<Op>, i: nat, j: nat, sockets: seq<seq<Message>>, u: UserId)
    requires IsRun(cfg, tr, ops) && i < |tr| && j < |tr|
    requires forall ms | ms in sockets :: Brings(ms, tr[i].w.log)
    requires ArrivesUpTo(sockets, tr[i].w.log, u, tr[j].w.st.At(u).version)
    ensures Shown(AfterSockets(FRESH, sockets).delivered, u) == ViewOf(tr[j].w.st.At(u))
  {
    SeenUpTo(cfg, tr, ops, i, sockets, u, tr[j].w.st.At(u).version);
    KindsAreKnown(cfg, tr, ops, i);
    SocketsContinue(FRESH, sockets);
    forall e | e in AllHeard(sockets)
      ensures e in tr[i].w.log || e.version == 0
    {
      AllHeardArrived(sockets, tr[i].w.log, e);
    }
    SubscriberConverges(cfg, tr, ops, i, j, AllHeard(sockets), u);
  }

  lemma {:induction false} LogGrows(tr: seq<System>, i: nat, j: nat)
    requires Evolves(tr) && i <= j < |tr|
    ensures tr[i].w.log <= tr[j].w.log
    decreases j
  {
    if i < j {
      LogGrows(tr, i, j - 1);
      assert Moves(tr[j - 1].w, tr[j].w);
    }
  }

  lemma PublishedStays(tr: seq<System>, i: nat, j: nat, u: UserId, r: User)
    requires Evolves(tr) && i <= j < |tr| && Published(tr[i].w.log, u, r)
    ensures Published(tr[j].w.log, u, r)
  {
    LogGrows(tr, i, j);
    var e :| e in tr[i].w.log && Shows(e, u, r);
    assert e in tr[j].w.log;
  }

  lemma VersionHasEvent(cfg: Settings, tr: seq<System>, ops: seq<Op>, i: nat, u: UserId)
    requires IsRun(cfg, tr, ops) && i < |tr| && tr[i].w.st.At(u).version > 0
    requires forall k: nat | k < i && Raises(tr, ops, k, u, tr[i].w.st.At(u).version) ::
               !Withheld(ops[k], tr[k + 1].w.st.At(u))
    ensures Published(tr[i].w.log, u, tr[i].w.st.At(u))
  {
    var k := VersionsAreAnnounced(cfg, tr, ops, i, u);
    RunsEvolve(cfg, tr, ops);
    PublishedStays(tr, k + 1, i, u, tr[i].w.st.At(u));
  }

  /**
    End to end: a client that receives every event published about `u`, in whatever order and however
    often, is shown the server's present view of `u`, unless the last change of `u` was withheld.
  */
  lemma CompleteDeliveryConverges(
    cfg: Settings, tr: seq<System>, ops: seq<Op>, i: nat, sockets: seq<seq<Message>>, u: UserId)
    requires IsRun(cfg, tr, ops) && i < |tr|
    requires forall ms | ms in sockets :: Brings(ms, tr[i].w.log)
    requires forall e | e in tr[i].w.log && e.user == u :: Arrives(sockets, e)
    requires forall k: nat | k < i && Raises(tr, ops, k, u, tr[i].w.st.At(u).version) ::
               !Withheld(ops[k], tr[k + 1].w.st.At(u))
    ensures Shown(AfterSockets(FRESH, sockets).delivered, u) == ViewOf(tr[i].w.st.At(u))
  {
    var v := tr[i].w.st.At(u).version;
    ReachableIsOk(cfg, tr, ops, i);
    forall e | e in tr[i].w.log && e.user == u
      ensures e.version <= v
    {
      assert EventOk(tr[i].w.st.At(e.user), e);
    }
    if v > 0 {
      VersionHasEvent(cfg, tr, ops, i, u);
      var e :| e in tr[i].w.log && Shows(e, u, tr[i].w.st.At(u));
      assert e.user == u && e.version == v && Arrives(sockets, e);
    }
    ConnectionConverges(cfg, tr, ops, i, i, sockets, u);
  }

  /** Deliveries of the same events show the same, whatever their order and repetitions. */
  lemma OrderDoesNotMatter(
    cfg: Settings, tr: seq<System>, ops: seq<Op>, i: nat, es: seq<Event>, fs: seq<Event>, u: UserId)
    requires IsRun(cfg, tr, ops) && i < |tr| && IsDelivery(es, tr[i].w.log)
    requires forall e :: e in es <==> e in fs
    ensures Shown(TakeAll(FRESH, es).delivered, u) == Shown(TakeAll(FRESH, fs).delivered, u)
  {
    HighestIsMaximum(es, u);
    HighestIsMaximum(fs, u);
    FilterKeepsHighest(es, u);
    FilterKeepsHighest(fs, u);
    if Highest(es, u) > 0 {
      var e :| e in es && e.user == u && e.version == Highest(es, u);
      assert e in fs;
      SubscriberFollowsHighestVersion(cfg, tr, ops, i, es, e);
      SubscriberFollowsHighestVersion(cfg, tr, ops, i, fs, e);
    }
  }
}
