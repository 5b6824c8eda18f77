/**
  A complete sweep repairs a scope: however often the time budget pauses the scan and a later
  tick resumes it from the saved cursor, the sets end up describing exactly the live sessions.
*/
module SweepConvergence {
  import opened Base
  import opened Store
  import opened Events
  import opened Sweep

  /** An SSCAN call the sweeper makes: the set it runs on, the cursor it sends, the reply. */
  datatype ScanCall = ScanCall(before: set<UserId>, cursor: nat, reply: ScanReply)

  /** One sweeper tick for the scope: when it runs, and the replies its budget leaves time for. */
  datatype Tick = Tick(at: nat, replies: seq<ScanReply>)

  ghost function Calls(w: World, cursor: nat, replies: seq<ScanReply>): seq<ScanCall>
    decreases |replies|
  {
    if replies == [] then []
    else
      [ScanCall(w.st.online, cursor, replies[0])]
      + if replies[0].next == 0 then []
        else Calls(SweptAll(w, replies[0].users), replies[0].next, replies[1..])
  }

  function At(w: World, at: nat): World {
    w.(st := w.st.(now := at))
  }

  ghost function AfterTick(w: World, t: Tick): World {
    Scanned(At(w, t.at), w.st.cursor, t.replies)
  }

  ghost function AfterTicks(w: World, ticks: seq<Tick>): World
    decreases |ticks|
  {
    if ticks == [] then w else AfterTicks(AfterTick(w, ticks[0]), ticks[1..])
  }

  ghost function TickCalls(w: World, ticks: seq<Tick>): seq<ScanCall>
    decreases |ticks|
  {
    if ticks == [] then []
    else Calls(At(w, ticks[0].at), w.st.cursor, ticks[0].replies)
         + TickCalls(AfterTick(w, ticks[0]), ticks[1..])
  }

  /** No session key expires while the ticks run; nothing else touches the scope. */
  ghost predicate NoExpiry(st: Store, ticks: seq<Tick>) {
    forall t, s | t in ticks && s in st.sessions ::
      st.Live(s) <==> t.at < st.sessions[s].deadline
  }

  /** The replies of one full scan: every tick but the last pauses, the last call returns cursor 0. */
  predicate OneScan(ticks: seq<Tick>)
    decreases |ticks|
  {
    && ticks != []
    && if |ticks| == 1 then
         && ticks[0].replies != []
         && Pauses(ticks[0].replies[..|ticks[0].replies| - 1])
         && ticks[0].replies[|ticks[0].replies| - 1].next == 0
       else Pauses(ticks[0].replies) && OneScan(ticks[1..])
  }

  predicate Pauses(replies: seq<ScanReply>) {
    forall i | 0 <= i < |replies| :: replies[i].next != 0
  }

  /** Each call continues from the cursor the call before it returned. */
  predicate Chained(calls: seq<ScanCall>, cursor: nat) {
    && (calls != [] ==> calls[0].cursor == cursor)
    && (forall i | 0 < i < |calls| :: calls[i].cursor == calls[i - 1].reply.next)
  }

  /** A complete SSCAN iteration: from cursor 0 until cursor 0 comes back. */
  predicate CompleteIteration(calls: seq<ScanCall>) {
    && calls != []
    && Chained(calls, 0)
    && calls[|calls| - 1].reply.next == 0
  }

  /** SSCAN's documented guarantee: a complete iteration returns what was present throughout. */
  ghost predicate ScanGuarantee(calls: seq<ScanCall>) {
    CompleteIteration(calls) ==>
      forall u | (forall c | c in calls :: u in c.before) :: Returned(calls, u)
  }

  ghost predicate Returned(calls: seq<ScanCall>, u: UserId) {
    exists c :: c in calls && u in c.reply.users
  }

  // ----- The cursor survives pauses -----

  lemma {:induction false} CallsChained(w: World, cursor: nat, replies: seq<ScanReply>)
    requires Pauses(replies)
    ensures Chained(Calls(w, cursor, replies), cursor)
    ensures var calls := Calls(w, cursor, replies);
            Scanned(w, cursor, replies).st.cursor ==
              if calls == [] then cursor else calls[|calls| - 1].reply.next
    decreases |replies|
  {
    if replies != [] {
      CallsChained(SweptAll(w, replies[0].users), replies[0].next, replies[1..]);
    }
  }

  lemma {:induction false} FinalCallsChained(w: World, cursor: nat, replies: seq<ScanReply>)
    requires replies != [] && Pauses(replies[..|replies| - 1]) && replies[|replies| - 1].next == 0
    ensures var calls := Calls(w, cursor, replies);
            calls != [] && Chained(calls, cursor) && calls[|calls| - 1].reply.next == 0
    decreases |replies|
  {
    if |replies| > 1 {
      var rest := replies[1..];
      assert Pauses(rest[..|rest| - 1]) by {
        assert forall i | 0 <= i < |rest| - 1 :: rest[i] == replies[..|replies| - 1][i + 1];
      }
      assert replies[0] == replies[..|replies| - 1][0];
      FinalCallsChained(SweptAll(w, replies[0].users), replies[0].next, rest);
    }
  }

  /** Whatever the pauses, the SSCAN calls of one scan form one complete iteration. */
  lemma {:induction false} TicksResumeTheIteration(w: World, ticks: seq<Tick>)
    requires OneScan(ticks)
    ensures var calls := TickCalls(w, ticks);
            calls != [] && Chained(calls, w.st.cursor) && calls[|calls| - 1].reply.next == 0
    decreases |ticks|
  {
    var w0, t := At(w, ticks[0].at), ticks[0];
    var first := Calls(w0, w.st.cursor, t.replies);
    if |ticks| == 1 {
      FinalCallsChained(w0, w.st.cursor, t.replies);
      assert TickCalls(w, ticks) == first + [];
    } else {
      CallsChained(w0, w.st.cursor, t.replies);
      TicksResumeTheIteration(AfterTick(w, t), ticks[1..]);
    }
  }

  // ----- One user -----

  predicate OnlineIfSessions(st: Store, u: UserId) {
    st.At(u).members != {} ==> u in st.online
  }

  /** Exactly the live sessions are listed, and the user is online iff there is one. */
  ghost predicate Settled(st: Store, u: UserId) {
    && (forall s | s in st.At(u).members :: st.Live(s))
    && (u in st.online <==> st.At(u).members != {})
  }

  /** What sweeping, of this or any other user, keeps of user `u`. */
  ghost predicate Keeps(a: Store, b: Store, u: UserId) {
    && b.sessions == a.sessions
    && (forall s :: a.Live(s) == b.Live(s))
    && (u in b.online ==> u in a.online)
    && b.At(u).members <= a.At(u).members
    && (forall s | s in a.At(u).members && a.Live(s) :: s in b.At(u).members)
    && (OnlineIfSessions(a, u) ==> OnlineIfSessions(b, u))
    && (Settled(a, u) ==> Settled(b, u))
  }

  lemma SweptKeeps(w: World, v: UserId, u: UserId)
    ensures Keeps(w.st, Swept(w, v).st, u)
    ensures u == v && OnlineIfSessions(w.st, u) ==> Settled(Swept(w, v).st, u)
    ensures u != v ==> Swept(w, v).st.At(u) == w.st.At(u) && (u in Swept(w, v).st.online <==> u in w.st.online)
  {
    var dead := Expired(w.st, v);
    assert forall s :: w.st.Live(s) == Swept(w, v).st.Live(s);
    if u == v {
      assert forall s | s in w.st.At(u).members :: s in dead || w.st.Live(s);
    }
  }

  lemma {:induction false} SweptAllKeeps(w: World, users: seq<UserId>, u: UserId)
    ensures Keeps(w.st, SweptAll(w, users).st, u)
    ensures u in users && OnlineIfSessions(w.st, u) ==> Settled(SweptAll(w, users).st, u)
    decreases |users|
  {
    if users != [] {
      SweptKeeps(w, users[0], u);
      SweptAllKeeps(Swept(w, users[0]), users[1..], u);
    }
  }

  // ----- One tick, and many -----

  lemma {:induction false} ScannedKeeps(w: World, cursor: nat, replies: seq<ScanReply>, u: UserId)
    ensures Keeps(w.st, Scanned(w, cursor, replies).st, u)
    ensures u in Scanned(w, cursor, replies).st.online ==>
              forall c | c in Calls(w, cursor, replies) :: u in c.before
    ensures Returned(Calls(w, cursor, replies), u) && OnlineIfSessions(w.st, u) ==>
              Settled(Scanned(w, cursor, replies).st, u)
    decreases |replies|
  {
    if replies != [] {
      var a := SweptAll(w, replies[0].users);
      SweptAllKeeps(w, replies[0].users, u);
      var rest := if replies[0].next == 0 then [] else Calls(a, replies[0].next, replies[1..]);
      var calls := [ScanCall(w.st.online, cursor, replies[0])] + rest;
      assert calls == Calls(w, cursor, replies);
      assert Returned(calls, u) ==> u in replies[0].users || Returned(rest, u) by {
        if Returned(calls, u) {
          var c: ScanCall :| c in calls && u in c.reply.users;
          assert c == calls[0] || c in rest;
        }
      }
      if replies[0].next != 0 {
        ScannedKeeps(a, replies[0].next, replies[1..], u);
      }
    }
  }

  lemma {:induction false} TicksKeep(w: World, ticks: seq<Tick>, u: UserId)
    requires NoExpiry(w.st, ticks)
    ensures Keeps(w.st, AfterTicks(w, ticks).st, u)
    ensures u in AfterTicks(w, ticks).st.online ==>
              forall c | c in TickCalls(w, ticks) :: u in c.before
    ensures Returned(TickCalls(w, ticks), u) && OnlineIfSessions(w.st, u) ==>
              Settled(AfterTicks(w, ticks).st, u)
    decreases |ticks|
  {
    if ticks != [] {
      var w0, t := At(w, ticks[0].at), ticks[0];
      assert Keeps(w.st, w0.st, u);
      ScannedKeeps(w0, w.st.cursor, t.replies, u);
      var a := AfterTick(w, t);
      assert NoExpiry(a.st, ticks[1..]);
      TicksKeep(a, ticks[1..], u);
      var first, rest := Calls(w0, w.st.cursor, t.replies), TickCalls(a, ticks[1..]);
      assert Returned(first + rest, u) ==> Returned(first, u) || Returned(rest, u) by {
        if Returned(first + rest, u) {
          var c: ScanCall :| c in first + rest && u in c.reply.users;
          assert c in first || c in rest;
        }
      }
    }
  }

  // ----- The theorem -----

  ghost function LiveSessions(st: Store, u: UserId): set<SessionId> {
    set s | s in st.sessions && st.Live(s) && st.sessions[s].user == u
  }

  /** A live session is listed by its owner and by nobody else. */
  ghost predicate LiveListed(st: Store) {
    forall u, s | s in st.sessions && st.Live(s) ::
      s in st.At(u).members <==> st.sessions[s].user == u
  }

  /** A scan from cursor 0 leaves user `u` listed with exactly the live sessions. */
  lemma FreshScanSettles(w: World, ticks: seq<Tick>, u: UserId)
    requires OnlineIfSessions(w.st, u) && LiveListed(w.st)
    requires w.st.cursor == 0 && OneScan(ticks) && NoExpiry(w.st, ticks)
    requires ScanGuarantee(TickCalls(w, ticks))
    ensures var b := AfterTicks(w, ticks).st;
            b.At(u).members == LiveSessions(w.st, u) && (u in b.online <==> LiveSessions(w.st, u) != {})
  {
    var calls := TickCalls(w, ticks);
    var b := AfterTicks(w, ticks).st;
    TicksResumeTheIteration(w, ticks);
    TicksKeep(w, ticks, u);
    assert CompleteIteration(calls);
    assert u in b.online ==> Returned(calls, u);
    assert Settled(b, u);
    forall s
      ensures s in b.At(u).members <==> s in LiveSessions(w.st, u)
    {
    }
  }

  /** The ticks that finish a scan someone left behind; with no cursor saved there may be none. */
  predicate FinishesLeftover(w: World, ticks: seq<Tick>) {
    if ticks == [] then w.st.cursor == 0 else OneScan(ticks)
  }

  lemma LeftoverKeepsLive(w: World, ticks: seq<Tick>)
    requires LiveListed(w.st) && NoExpiry(w.st, ticks)
    ensures var b := AfterTicks(w, ticks).st;
            LiveListed(b) && b.sessions == w.st.sessions && forall s :: b.Live(s) == w.st.Live(s)
  {
    var b := AfterTicks(w, ticks).st;
    var anyUser: UserId := "";
    TicksKeep(w, ticks, anyUser);
    forall u, s | s in b.sessions && b.Live(s)
      ensures s in b.At(u).members <==> b.sessions[s].user == u
    {
      TicksKeep(w, ticks, u);
    }
  }

  /** Whatever cursor was saved: once that scan is finished, a full scan leaves `u` with exactly the live sessions. */
  lemma SweepSettles(w: World, rest: seq<Tick>, ticks: seq<Tick>, u: UserId)
    requires OnlineIfSessions(w.st, u) && LiveListed(w.st)
    requires FinishesLeftover(w, rest) && OneScan(ticks)
    requires NoExpiry(w.st, rest) && NoExpiry(w.st, ticks)
    requires ScanGuarantee(TickCalls(AfterTicks(w, rest), ticks))
    ensures var b := AfterTicks(AfterTicks(w, rest), ticks).st;
            b.At(u).members == LiveSessions(w.st, u) && (u in b.online <==> LiveSessions(w.st, u) != {})
  {
    var a := AfterTicks(w, rest);
    TicksKeep(w, rest, u);
    LeftoverKeepsLive(w, rest);
    if rest != [] {
      EmptyScopeLeavesTheIndex(w, rest);
    }
    assert LiveSessions(a.st, u) == LiveSessions(w.st, u);
    FreshScanSettles(a, ticks, u);
  }

  /** After such a scan the whole scope describes exactly the live sessions. */
  lemma SweepConverges(w: World, rest: seq<Tick>, ticks: seq<Tick>)
    requires forall u :: OnlineIfSessions(w.st, u)
    requires LiveListed(w.st)
    requires FinishesLeftover(w, rest) && OneScan(ticks)
    requires NoExpiry(w.st, rest) && NoExpiry(w.st, ticks)
    requires ScanGuarantee(TickCalls(AfterTicks(w, rest), ticks))
    ensures var b := AfterTicks(AfterTicks(w, rest), ticks).st;
            && (forall u :: b.At(u).members == LiveSessions(w.st, u))
            && (forall u :: u in b.online <==> LiveSessions(w.st, u) != {})
            && (forall s :: b.Live(s) == w.st.Live(s))
            && (b.indexed ==> b.online != {})
  {
    var a := AfterTicks(w, rest);
    forall u
      ensures var b := AfterTicks(a, ticks).st;
              b.At(u).members == LiveSessions(w.st, u) && (u in b.online <==> LiveSessions(w.st, u) != {})
    {
      SweepSettles(w, rest, ticks, u);
    }
    LeftoverKeepsLive(w, rest);
    LeftoverKeepsLive(a, ticks);
    EmptyScopeLeavesTheIndex(a, ticks);
  }

  /** A scope that the scan leaves without online users leaves the scopes index. */
  lemma {:induction false} EmptyScopeLeavesTheIndex(w: World, ticks: seq<Tick>)
    requires OneScan(ticks)
    ensures var b := AfterTicks(w, ticks).st;
            b.cursor == 0 && (b.indexed ==> b.online != {})
    decreases |ticks|
  {
    if |ticks| == 1 {
      FinalScan(At(w, ticks[0].at), w.st.cursor, ticks[0].replies);
      assert AfterTicks(w, ticks) == AfterTick(w, ticks[0]);
    } else {
      EmptyScopeLeavesTheIndex(AfterTick(w, ticks[0]), ticks[1..]);
    }
  }

  lemma {:induction false} FinalScan(w: World, cursor: nat, replies: seq<ScanReply>)
    requires replies != [] && Pauses(replies[..|replies| - 1]) && replies[|replies| - 1].next == 0
    ensures var b := Scanned(w, cursor, replies).st;
            b.cursor == 0 && (b.indexed ==> b.online != {})
    decreases |replies|
  {
    if |replies| > 1 {
      var rest := replies[1..];
      assert Pauses(rest[..|rest| - 1]) by {
        assert forall i | 0 <= i < |rest| - 1 :: rest[i] == replies[..|replies| - 1][i + 1];
      }
      assert replies[0] == replies[..|replies| - 1][0];
      FinalScan(SweptAll(w, replies[0].users), replies[0].next, rest);
    }
  }
}
