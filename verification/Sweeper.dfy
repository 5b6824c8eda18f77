/**
  The sweeper (pkg/presence/sweeper.go): pruning one user, and the cursor scan of a scope
  that a time budget pauses and a later tick resumes.
*/
module Sweep {
  import opened Base
  import opened Store
  import opened Events
  import opened Presence

  // ----- One user -----

  ghost function Expired(st: Store, u: UserId): set<SessionId> {
    set s | s in st.At(u).members && !st.Live(s)
  }

  /** The sessions `gone` leave the user's set and the per-tab states. */
  function Without(r: User, gone: set<SessionId>): User {
    r.(members := r.members - gone, states := r.states - gone)
  }

  /** A user's keys after a sweep that found the sessions `dead` expired. */
  function SweptUser(r: User, dead: set<SessionId>): User {
    var a := Without(r, dead);
    if a.members == {} then User({}, r.version + 1, map[], None, r.devices)
    else if dead != {} then a.(version := r.version + 1, lastPub := Some(Aggregate(a.states)))
    else r
  }

  function SweepEvents(u: UserId, a: User, pruned: bool): seq<Event> {
    if a.members == {} then [Event(UserOffline, u, a.version, 0, None)]
    else if pruned then [Event(UserTabs, u, a.version, |a.members|, a.lastPub)]
    else []
  }

  function Pruned(st: Store, u: UserId, gone: set<SessionId>): Store {
    if gone == {} then st else st.Put(u, Without(st.At(u), gone))
  }

  ghost function Swept(w: World, u: UserId): World {
    var dead := Expired(w.st, u);
    var a := SweptUser(w.st.At(u), dead);
    if a.members != {} && dead == {} then w
    else
      World(w.st.(online := if a.members == {} then w.st.online - {u} else w.st.online).Put(u, a),
            w.log + SweepEvents(u, a, dead != {}))
  }

  // ----- The same, command by command -----

  function Bumped(st: Store, u: UserId): Store {
    st.Put(u, st.At(u).(version := st.At(u).version + 1))
  }

  function Cleared(st: Store, u: UserId): Store {
    st.Put(u, st.At(u).(states := map[], lastPub := None))
  }

  function LastSet(st: Store, u: UserId, agg: Status): Store {
    st.Put(u, st.At(u).(lastPub := Some(agg)))
  }

  /** The end of a sweep, once the expired sessions are pruned. */
  function Concluded(a: Store, u: UserId, pruned: bool): Store {
    if a.At(u).members == {} then Cleared(Bumped(a.(online := a.online - {u}), u), u)
    else if pruned then
      var b := Bumped(a, u);
      LastSet(b, u, Aggregate(b.At(u).states))
    else a
  }

  /** Pruning and then concluding is the whole sweep. */
  lemma SweptInSteps(w: World, u: UserId)
    ensures var dead := Expired(w.st, u);
            var a := Concluded(Pruned(w.st, u, dead), u, dead != {});
            Swept(w, u) == World(a, w.log + SweepEvents(u, a.At(u), dead != {}))
  {
    if Expired(w.st, u) == {} {
      assert w.st.At(u).members - Expired(w.st, u) == w.st.At(u).members;
      assert w.log + [] == w.log;
    }
  }

  lemma WithoutOneMore(r: User, gone: set<SessionId>, s: SessionId)
    ensures Without(Without(r, gone), {s}) == Without(r, gone + {s})
    ensures Without(r, {s}) == Without(r, {} + {s})
  {
    assert r.members - gone - {s} == r.members - (gone + {s});
    assert r.states - gone - {s} == r.states - (gone + {s});
    var none: set<SessionId> := {};
    assert none + {s} == {s};
  }

  // ----- One scan -----

  /** A reply of SSCAN: some users and the cursor to continue from (0 ends the iteration). */
  datatype ScanReply = ScanReply(users: seq<UserId>, next: nat)

  ghost function SweptAll(w: World, users: seq<UserId>): World
    decreases |users|
  {
    if users == [] then w else SweptAll(Swept(w, users[0]), users[1..])
  }

  function WithCursor(w: World, cursor: nat): World {
    w.(st := w.st.(cursor := cursor))
  }

  /** The end of a full scan: the cursor is reset and an empty scope leaves the index. */
  function Finished(w: World): World {
    w.(st := w.st.(cursor := 0, indexed := w.st.indexed && w.st.online != {}))
  }

  /** The budget allows exactly one SSCAN call for each reply, then the scan pauses. */
  ghost function Scanned(w: World, cursor: nat, replies: seq<ScanReply>): World
    decreases |replies|
  {
    if replies == [] then WithCursor(w, cursor)
    else
      var a := SweptAll(w, replies[0].users);
      if replies[0].next == 0 then Finished(a) else Scanned(a, replies[0].next, replies[1..])
  }

  class Sweeper {
    const svc: Service
    const bus: Bus

    constructor (svc: Service, bus: Bus)
      ensures this.svc == svc && this.bus == bus
    {
      this.svc := svc;
      this.bus := bus;
    }

    ghost function View(): World
      reads svc.rdb, bus
    {
      World(svc.rdb.st, bus.log)
    }

    /** SREM and HDEL of one expired session. */
    method PruneSession(u: UserId, s: SessionId, ghost st0: Store, ghost gone: set<SessionId>)
      requires svc.rdb.st == Pruned(st0, u, gone) && s !in gone
      modifies svc.rdb
      ensures svc.rdb.st == Pruned(st0, u, gone + {s})
    {
      var _ := svc.rdb.SRem(u, s);
      svc.rdb.HDelState(u, s);
      WithoutOneMore(st0.At(u), gone, s);
    }

    /** The EXISTS / SREM / HDEL loop of sweepUser. */
    method PruneSessions(u: UserId) returns (prunedCount: nat)
      modifies svc.rdb
      ensures svc.rdb.st == Pruned(old(svc.rdb.st), u, Expired(old(svc.rdb.st), u))
      ensures prunedCount == |Expired(old(svc.rdb.st), u)|
    {
      var rdb := svc.rdb;
      ghost var st0 := rdb.st;
      ghost var gone: set<SessionId> := {};
      var sessions := rdb.st.At(u).members;
      prunedCount := 0;
      while sessions != {}
        invariant sessions <= st0.At(u).members
        invariant forall s | s in st0.At(u).members :: s in sessions || s in gone || st0.Live(s)
        invariant forall s | s in gone :: s in st0.At(u).members && s !in sessions && !st0.Live(s)
        invariant rdb.st == Pruned(st0, u, gone)
        invariant prunedCount == |gone|
        decreases sessions
      {
        var s :| s in sessions;
        sessions := sessions - {s};
        if !rdb.st.Live(s) {
          PruneSession(u, s, st0, gone);
          prunedCount := prunedCount + 1;
          gone := gone + {s};
        }
      }
      assert gone == Expired(st0, u);
    }

    method SweepUser(u: UserId) returns (prunedCount: nat, wentOffline: bool)
      modifies svc.rdb, bus
      ensures View() == Swept(old(View()), u)
      ensures prunedCount == |Expired(old(svc.rdb.st), u)|
      ensures wentOffline == (svc.rdb.st.At(u).members == {})
    {
      SweptInSteps(View(), u);
      prunedCount := PruneSessions(u);
      wentOffline := false;
      var rdb := svc.rdb;
      var remaining := |rdb.st.At(u).members|;
      if remaining == 0 {
        var _ := rdb.SRemOnline(u);
        var version := rdb.Incr(u);
        bus.Publish(Event(UserOffline, u, version, 0, None));
        rdb.DelPresence(u);
        wentOffline := true;
      } else if prunedCount > 0 {
        var version := rdb.Incr(u);
        var agg := AggregateSessionStates(rdb.st.At(u).states);
        rdb.SetLast(u, agg);
        bus.Publish(Event(UserTabs, u, version, remaining, Some(agg)));
      }
    }

    method SweepUsers(users: seq<UserId>) returns (pruned: nat, offline: nat)
      modifies svc.rdb, bus
      ensures View() == SweptAll(old(View()), users)
    {
      pruned, offline := 0, 0;
      var i := 0;
      while i < |users|
        invariant 0 <= i <= |users|
        invariant SweptAll(View(), users[i..]) == SweptAll(old(View()), users)
      {
        assert users[i..][1..] == users[i + 1..];
        var n, wentOffline := SweepUser(users[i]);
        pruned := pruned + n;
        offline := if wentOffline then offline + 1 else offline;
        i := i + 1;
      }
    }

    /** `replies` are the answers SSCAN gives before the time budget runs out. */
    method SweepScope(replies: seq<ScanReply>) returns (complete: bool)
      modifies svc.rdb, bus
      ensures View() == Scanned(old(View()), old(svc.rdb.st.cursor), replies)
      ensures complete <==> exists i :: 0 <= i < |replies| && replies[i].next == 0
    {
      var rdb := svc.rdb;
      var cursor := rdb.st.cursor;
      var call := 0;
      while call < |replies|
        invariant 0 <= call <= |replies|
        invariant forall i | 0 <= i < call :: replies[i].next != 0
        invariant Scanned(View(), cursor, replies[call..]) ==
                  Scanned(old(View()), old(svc.rdb.st.cursor), replies)
      {
        assert replies[call..][1..] == replies[call + 1..];
        var _, _ := SweepUsers(replies[call].users);
        cursor := replies[call].next;
        if cursor == 0 {
          rdb.SetCursor(0);
          if |rdb.st.online| == 0 {
            rdb.SetIndexed(false);
          }
          return true;
        }
        call := call + 1;
      }
      rdb.SetCursor(cursor);
      return false;
    }
  }
}
