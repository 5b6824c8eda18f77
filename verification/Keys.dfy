/**
  The Redis keyspace (pkg/presence/keys.go): why separate typed maps may stand for the one flat
  map from strings, and what goes wrong when a scope id contains a colon.
*/
module Keys {
  /** One constructor for each key the presence package builds. */
  datatype Key =
    | Session(scope: string, session: string)
    | UserSessions(scope: string, user: string)
    | OnlineUsers(scope: string)
    | UserVersion(scope: string, user: string)
    | Scopes
    | DisconnectJobs(scope: string)
    | DisconnectJobMeta(scope: string, job: string)
    | DisconnectJobIndex(scope: string, user: string, session: string)
    | SweepCursor(scope: string)
    | SweepUserCursor(scope: string, user: string)
    | InvisibleUsers(scope: string)
    | UserDevices(scope: string, user: string)
    | UserSessionStates(scope: string, user: string)
    | UserLastPublishedPresence(scope: string, user: string)
    | Transitions(scope: string, user: string)

  /** With `tags` the key carries a Redis Cluster hash tag. */
  function HashTag(tags: bool, tag: string): string {
    if tags then "{" + tag + "}" else tag
  }

  function Name(k: Key): string {
    match k
    case Session(_, _) => "session"
    case UserSessions(_, _) => "user_sessions"
    case OnlineUsers(_) => "online_users"
    case UserVersion(_, _) => "user_version"
    case Scopes => "scopes"
    case DisconnectJobs(_) => "disconnect_jobs"
    case DisconnectJobMeta(_, _) => "disconnect_job_meta"
    case DisconnectJobIndex(_, _, _) => "disconnect_job_index"
    case SweepCursor(_) => "sweep_cursor"
    case SweepUserCursor(_, _) => "sweep_user_cursor"
    case InvisibleUsers(_) => "invisible_users"
    case UserDevices(_, _) => "user_devices"
    case UserSessionStates(_, _) => "session_states"
    case UserLastPublishedPresence(_, _) => "last_pub_presence"
    case Transitions(_, _) => "transitions"
  }

  /** What follows the family name, colon included. */
  function Arguments(tags: bool, k: Key): string {
    match k
    case Scopes => ""
    case Session(scope, session) => ":" + HashTag(tags, scope) + ":" + session
    case DisconnectJobMeta(scope, job) => ":" + HashTag(tags, scope) + ":" + job
    case DisconnectJobIndex(scope, user, session) => ":" + HashTag(tags, scope + ":" + user) + ":" + session
    case OnlineUsers(scope) => ":" + HashTag(tags, scope)
    case DisconnectJobs(scope) => ":" + HashTag(tags, scope)
    case SweepCursor(scope) => ":" + HashTag(tags, scope)
    case InvisibleUsers(scope) => ":" + HashTag(tags, scope)
    case UserSessions(scope, user) => ":" + HashTag(tags, scope + ":" + user)
    case UserVersion(scope, user) => ":" + HashTag(tags, scope + ":" + user)
    case SweepUserCursor(scope, user) => ":" + HashTag(tags, scope + ":" + user)
    case UserDevices(scope, user) => ":" + HashTag(tags, scope + ":" + user)
    case UserSessionStates(scope, user) => ":" + HashTag(tags, scope + ":" + user)
    case UserLastPublishedPresence(scope, user) => ":" + HashTag(tags, scope + ":" + user)
    case Transitions(scope, user) => ":" + HashTag(tags, scope + ":" + user)
  }

  function Render(tags: bool, k: Key): string {
    "presence:" + Name(k) + Arguments(tags, k)
  }

  // ----- Cutting at the first colon -----

  predicate NoColon(s: string) {
    ':' !in s
  }

  /** The part before the first colon. */
  function Head(s: string): string {
    if s == "" || s[0] == ':' then "" else [s[0]] + Head(s[1..])
  }

  /** A text without colon in front of a colon, or of the end, can be told from the text. */
  lemma {:induction false} HeadOf(a: string, b: string)
    requires NoColon(a) && (b == "" || b[0] == ':')
    ensures Head(a + b) == a
    decreases |a|
  {
    if a == "" {
      assert a + b == b;
    } else {
      assert (a + b)[0] == a[0] && (a + b)[1..] == a[1..] + b;
      HeadOf(a[1..], b);
    }
  }

  lemma CutUnique(a: string, b: string, c: string, d: string)
    requires NoColon(a) && NoColon(c) && (b == "" || b[0] == ':') && (d == "" || d[0] == ':')
    requires a + b == c + d
    ensures a == c && b == d
  {
    HeadOf(a, b);
    HeadOf(c, d);
    assert b == (a + b)[|a|..] && d == (c + d)[|c|..];
  }

  // ----- Families -----

  /** The family a name stands for, as a number. */
  function Code(name: string): int {
    if |name| == 12 && name[0] == 'u' then (if name[5] == 'v' then 1 else 2)
    else if |name| == 12 then (if name[0] == 'o' then 3 else 4)
    else if |name| == 15 then (if name[0] == 'd' then 5 else 6)
    else if |name| == 17 then (if name[0] == 's' then 7 else 8)
    else 100 + |name|
  }

  function CodeOf(k: Key): int {
    match k
    case UserVersion(_, _) => 1
    case UserDevices(_, _) => 2
    case OnlineUsers(_) => 3
    case SweepCursor(_) => 4
    case DisconnectJobs(_) => 5
    case InvisibleUsers(_) => 6
    case SweepUserCursor(_, _) => 7
    case UserLastPublishedPresence(_, _) => 8
    case Scopes => 106
    case Session(_, _) => 107
    case Transitions(_, _) => 111
    case UserSessions(_, _) => 113
    case UserSessionStates(_, _) => 114
    case DisconnectJobMeta(_, _) => 119
    case DisconnectJobIndex(_, _, _) => 120
  }

  lemma NamesAreFamilies(k: Key)
    ensures NoColon(Name(k)) && Code(Name(k)) == CodeOf(k)
  {
  }

  // ----- Arguments -----

  lemma TagUnique(tags: bool, a: string, b: string)
    requires HashTag(tags, a) == HashTag(tags, b)
    ensures a == b
  {
    if tags {
      assert a == ("{" + a + "}")[1..|a| + 1] && b == ("{" + b + "}")[1..|b| + 1];
    }
  }

  lemma TagHasNoColon(tags: bool, a: string)
    requires NoColon(a)
    ensures NoColon(HashTag(tags, a))
  {
  }

  lemma PairUnique(a: string, x: string, b: string, y: string)
    requires NoColon(a) && NoColon(b) && a + ":" + x == b + ":" + y
    ensures a == b && x == y
  {
    assert a + ":" + x == a + (":" + x) && b + ":" + y == b + (":" + y);
    CutUnique(a, ":" + x, b, ":" + y);
    assert x == (":" + x)[1..] && y == (":" + y)[1..];
  }

  lemma TaggedPairUnique(tags: bool, a: string, x: string, b: string, y: string)
    requires NoColon(a) && NoColon(b) && HashTag(tags, a) + ":" + x == HashTag(tags, b) + ":" + y
    ensures a == b && x == y
  {
    TagHasNoColon(tags, a);
    TagHasNoColon(tags, b);
    PairUnique(HashTag(tags, a), x, HashTag(tags, b), y);
    TagUnique(tags, a, b);
  }

  lemma UserTagUnique(tags: bool, a: string, u: string, b: string, v: string)
    requires NoColon(a) && NoColon(b) && HashTag(tags, a + ":" + u) == HashTag(tags, b + ":" + v)
    ensures a == b && u == v
  {
    TagUnique(tags, a + ":" + u, b + ":" + v);
    PairUnique(a, u, b, v);
  }

  lemma Regroup(tags: bool, a: string, u: string, x: string)
    ensures var l, r := if tags then "{" else "", if tags then "}" else "";
            HashTag(tags, a + ":" + u) + ":" + x == (l + a) + ":" + ((u + r) + ":" + x)
  {
  }

  lemma Unwrap(a: string, b: string, c: string)
    ensures a + b == a + c ==> b == c
    ensures b + a == c + a ==> b == c
  {
    assert b == (a + b)[|a|..] && c == (a + c)[|a|..];
    assert b == (b + a)[..|b + a| - |a|] && c == (c + a)[..|c + a| - |a|];
  }

  /** Three parts: the tag around scope and user opens before the first colon and closes after it. */
  lemma IndexUnique(tags: bool, a: string, u: string, x: string, b: string, v: string, y: string)
    requires NoColon(a) && NoColon(b) && NoColon(u) && NoColon(v)
    requires HashTag(tags, a + ":" + u) + ":" + x == HashTag(tags, b + ":" + v) + ":" + y
    ensures a == b && u == v && x == y
  {
    var l, r := if tags then "{" else "", if tags then "}" else "";
    Regroup(tags, a, u, x);
    Regroup(tags, b, v, y);
    PairUnique(l + a, (u + r) + ":" + x, l + b, (v + r) + ":" + y);
    PairUnique(u + r, x, v + r, y);
    Unwrap(l, a, b);
    Unwrap(r, u, v);
  }

  // ----- Distinct keys are distinct strings -----

  /** Scope and user ids without colon; session and job ids are free. */
  predicate Plain(k: Key) {
    match k
    case Scopes => true
    case Session(scope, _) => NoColon(scope)
    case DisconnectJobMeta(scope, _) => NoColon(scope)
    case DisconnectJobIndex(scope, user, _) => NoColon(scope) && NoColon(user)
    case OnlineUsers(scope) => NoColon(scope)
    case DisconnectJobs(scope) => NoColon(scope)
    case SweepCursor(scope) => NoColon(scope)
    case InvisibleUsers(scope) => NoColon(scope)
    case UserSessions(scope, user) => NoColon(scope) && NoColon(user)
    case UserVersion(scope, user) => NoColon(scope) && NoColon(user)
    case SweepUserCursor(scope, user) => NoColon(scope) && NoColon(user)
    case UserDevices(scope, user) => NoColon(scope) && NoColon(user)
    case UserSessionStates(scope, user) => NoColon(scope) && NoColon(user)
    case UserLastPublishedPresence(scope, user) => NoColon(scope) && NoColon(user)
    case Transitions(scope, user) => NoColon(scope) && NoColon(user)
  }

  lemma SplitAfter(p: string, a: string, b: string, c: string, d: string)
    requires NoColon(a) && NoColon(c) && (b == "" || b[0] == ':') && (d == "" || d[0] == ':')
    requires p + a + b == p + c + d
    ensures a == c && b == d
  {
    assert p + a + b == p + (a + b) && p + c + d == p + (c + d);
    Unwrap(p, a + b, c + d);
    CutUnique(a, b, c, d);
  }

  lemma SplitFamily(tags: bool, k: Key, l: Key)
    requires Render(tags, k) == Render(tags, l)
    ensures CodeOf(k) == CodeOf(l) && Arguments(tags, k) == Arguments(tags, l)
  {
    var a, b, c, d := Name(k), Arguments(tags, k), Name(l), Arguments(tags, l);
    NamesAreFamilies(k);
    NamesAreFamilies(l);
    ArgumentsStartWithColon(tags, k);
    ArgumentsStartWithColon(tags, l);
    SplitAfter("presence:", a, b, c, d);
  }

  lemma ArgumentsStartWithColon(tags: bool, k: Key)
    ensures Arguments(tags, k) == "" || Arguments(tags, k)[0] == ':'
  {
  }

  predicate IsUserKey(k: Key) {
    CodeOf(k) in {1, 2, 7, 8, 111, 113, 114}
  }

  predicate IsScopeKey(k: Key) {
    CodeOf(k) in {3, 4, 5, 6}
  }

  function UserOf(k: Key): (r: (string, string))
    requires IsUserKey(k)
  {
    match k
    case UserSessions(scope, user) => (scope, user)
    case UserVersion(scope, user) => (scope, user)
    case SweepUserCursor(scope, user) => (scope, user)
    case UserDevices(scope, user) => (scope, user)
    case UserSessionStates(scope, user) => (scope, user)
    case UserLastPublishedPresence(scope, user) => (scope, user)
    case Transitions(scope, user) => (scope, user)
  }

  lemma UserKey(tags: bool, k: Key)
    requires IsUserKey(k)
    ensures Arguments(tags, k) == ":" + HashTag(tags, UserOf(k).0 + ":" + UserOf(k).1)
    ensures Plain(k) ==> NoColon(UserOf(k).0)
  {
  }

  lemma UserKeyUnique(tags: bool, k: Key, l: Key)
    requires Plain(k) && Plain(l) && CodeOf(k) == CodeOf(l) && IsUserKey(k)
    requires Arguments(tags, k) == Arguments(tags, l)
    ensures k == l
  {
    UserKey(tags, k);
    UserKey(tags, l);
    var x, y := HashTag(tags, UserOf(k).0 + ":" + UserOf(k).1), HashTag(tags, UserOf(l).0 + ":" + UserOf(l).1);
    assert x == (":" + x)[1..] && y == (":" + y)[1..];
    UserTagUnique(tags, UserOf(k).0, UserOf(k).1, UserOf(l).0, UserOf(l).1);
  }

  lemma ScopeKeyUnique(tags: bool, k: Key, l: Key)
    requires CodeOf(k) == CodeOf(l) && IsScopeKey(k) && Arguments(tags, k) == Arguments(tags, l)
    ensures k == l
  {
    var x, y := HashTag(tags, k.scope), HashTag(tags, l.scope);
    assert x == (":" + x)[1..] && y == (":" + y)[1..];
    TagUnique(tags, k.scope, l.scope);
  }

  lemma OtherKeyUnique(tags: bool, k: Key, l: Key)
    requires Plain(k) && Plain(l) && CodeOf(k) == CodeOf(l) && Arguments(tags, k) == Arguments(tags, l)
    requires !IsUserKey(k) && !IsScopeKey(k)
    ensures k == l
  {
    match k
    case Scopes =>
    case Session(scope, session) => TaggedUnique(tags, scope, session, l.scope, l.session);
    case DisconnectJobMeta(scope, job) => TaggedUnique(tags, scope, job, l.scope, l.job);
    case DisconnectJobIndex(scope, user, session) =>
      WrappedIndexUnique(tags, scope, user, session, l.scope, l.user, l.session);
  }

  lemma WrappedIndexUnique(tags: bool, a: string, u: string, x: string, b: string, v: string, y: string)
    requires NoColon(a) && NoColon(b) && NoColon(u) && NoColon(v)
    requires ":" + HashTag(tags, a + ":" + u) + ":" + x == ":" + HashTag(tags, b + ":" + v) + ":" + y
    ensures a == b && u == v && x == y
  {
    var s, t := HashTag(tags, a + ":" + u) + ":" + x, HashTag(tags, b + ":" + v) + ":" + y;
    assert ":" + HashTag(tags, a + ":" + u) + ":" + x == ":" + s;
    assert ":" + HashTag(tags, b + ":" + v) + ":" + y == ":" + t;
    Unwrap(":", s, t);
    IndexUnique(tags, a, u, x, b, v, y);
  }

  lemma TaggedUnique(tags: bool, a: string, x: string, b: string, y: string)
    requires NoColon(a) && NoColon(b)
    requires ":" + HashTag(tags, a) + ":" + x == ":" + HashTag(tags, b) + ":" + y
    ensures a == b && x == y
  {
    var s, t := HashTag(tags, a) + ":" + x, HashTag(tags, b) + ":" + y;
    assert ":" + HashTag(tags, a) + ":" + x == ":" + s && ":" + HashTag(tags, b) + ":" + y == ":" + t;
    assert s == (":" + s)[1..] && t == (":" + t)[1..];
    TaggedPairUnique(tags, a, x, b, y);
  }

  /** In either mode, keys for ids without colon are different strings. */
  lemma KeysAreDistinct(tags: bool, k: Key, l: Key)
    requires Plain(k) && Plain(l)
    ensures Render(tags, k) == Render(tags, l) <==> k == l
  {
    if Render(tags, k) == Render(tags, l) {
      SplitFamily(tags, k, l);
      if IsUserKey(k) {
        UserKeyUnique(tags, k, l);
      } else if IsScopeKey(k) {
        ScopeKeyUnique(tags, k, l);
      } else {
        OtherKeyUnique(tags, k, l);
      }
    }
  }

  // ----- One flat map for the typed maps -----

  datatype Write<V> = Put(key: Key, value: V) | Delete(key: Key)

  function Typed<V>(writes: seq<Write<V>>): map<Key, V> {
    if writes == [] then map[]
    else
      var m, w := Typed(writes[..|writes| - 1]), writes[|writes| - 1];
      match w
      case Put(k, v) => m[k := v]
      case Delete(k) => m - {k}
  }

  /** The same writes as Redis sees them. */
  function Flat<V>(tags: bool, writes: seq<Write<V>>): map<string, V> {
    if writes == [] then map[]
    else
      var m, w := Flat(tags, writes[..|writes| - 1]), writes[|writes| - 1];
      match w
      case Put(k, v) => m[Render(tags, k) := v]
      case Delete(k) => m - {Render(tags, k)}
  }

  /** After any writes to plain keys, the flat map holds under each plain key what the typed map holds. */
  lemma {:induction false} FlatRefinesTyped<V>(tags: bool, writes: seq<Write<V>>, k: Key)
    requires Plain(k) && forall w | w in writes :: Plain(w.key)
    ensures Render(tags, k) in Flat(tags, writes) <==> k in Typed(writes)
    ensures k in Typed(writes) ==> Flat(tags, writes)[Render(tags, k)] == Typed(writes)[k]
    decreases |writes|
  {
    if writes != [] {
      var w := writes[|writes| - 1];
      FlatRefinesTyped(tags, writes[..|writes| - 1], k);
      KeysAreDistinct(tags, k, w.key);
    }
  }

  // ----- Ids with colons -----

  /** The scope, user and session ids in use, which may be all strings. */
  datatype Ids = Ids(scopes: iset<string>, users: iset<string>, sessions: iset<string>)

  /** A key that belongs to one user: the seven user families and the cancellation index. */
  predicate OfUser(k: Key) {
    IsUserKey(k) || k.DisconnectJobIndex?
  }

  function Owner(k: Key): (string, string)
    requires OfUser(k)
  {
    if k.DisconnectJobIndex? then (k.scope, k.user) else UserOf(k)
  }

  ghost predicate InUse(k: Key, ids: Ids) {
    && OfUser(k) && Owner(k).0 in ids.scopes && Owner(k).1 in ids.users
    && (k.DisconnectJobIndex? ==> k.session in ids.sessions)
  }

  /** No key of a user is a key of another user, of the same or any other family. */
  ghost predicate KeepsUsersApart(tags: bool, ids: Ids) {
    forall k, l | InUse(k, ids) && InUse(l, ids) && Render(tags, k) == Render(tags, l) :: Owner(k) == Owner(l)
  }

  /** Scope `b` is scope `a`, a colon and some text; user `u` is that text, a colon and user `v`. */
  predicate ScopesClash(a: string, u: string, b: string, v: string) {
    a + ":" <= b && u == b[|a| + 1..] + ":" + v
  }

  /** What separates the user from the session in a key of the cancellation index. */
  function Close(tags: bool): string {
    if tags then "}:" else ":"
  }

  predicate EndsIn(s: string, t: string) {
    |t| <= |s| && s[|s| - |t|..] == t
  }

  /** Session `y` is some text, the separator and session `x`; user `v` takes that text over and becomes user `u`. */
  predicate SessionsClash(tags: bool, a: string, u: string, x: string, b: string, v: string, y: string) {
    var end := Close(tags) + x;
    EndsIn(y, end) && a + ":" + u == b + ":" + (v + Close(tags) + y[..|y| - |end|])
  }

  ghost predicate ClashFree(tags: bool, ids: Ids) {
    && (forall a, u, b, v | a in ids.scopes && u in ids.users && b in ids.scopes && v in ids.users ::
          !ScopesClash(a, u, b, v))
    && (forall a, u, x, b, v, y | a in ids.scopes && u in ids.users && x in ids.sessions
          && b in ids.scopes && v in ids.users && y in ids.sessions ::
          !SessionsClash(tags, a, u, x, b, v, y))
  }

  // ----- Clashing ids collide -----

  lemma SameUserKey(tags: bool, a: string, u: string, b: string, v: string)
    requires a + ":" + u == b + ":" + v
    ensures Render(tags, UserSessions(a, u)) == Render(tags, UserSessions(b, v))
  {
  }

  lemma ScopeClashCollides(tags: bool, ids: Ids, a: string, u: string, b: string, v: string)
    requires a in ids.scopes && u in ids.users && b in ids.scopes && v in ids.users && ScopesClash(a, u, b, v)
    ensures !KeepsUsersApart(tags, ids)
  {
    var rest := b[|a| + 1..];
    assert b == a + ":" + rest;
    assert a + ":" + u == b + ":" + v;
    SameUserKey(tags, a, u, b, v);
    var k, l := UserSessions(a, u), UserSessions(b, v);
    assert InUse(k, ids) && InUse(l, ids) && Owner(k) != Owner(l);
  }

  function Open(tags: bool): string {
    if tags then "{" else ""
  }

  lemma IndexArguments(tags: bool, a: string, u: string, x: string)
    ensures Arguments(tags, DisconnectJobIndex(a, u, x)) == ":" + (Open(tags) + (a + ":" + u) + Close(tags) + x)
  {
    var k := DisconnectJobIndex(a, u, x);
    assert Arguments(tags, k) == ":" + HashTag(tags, a + ":" + u) + ":" + x;
    if tags {
      assert ":" + ("{" + (a + ":" + u) + "}") + ":" + x == ":" + ("{" + (a + ":" + u) + "}:" + x);
    } else {
      assert ":" + (a + ":" + u) + ":" + x == ":" + ("" + (a + ":" + u) + ":" + x);
    }
  }

  lemma SessionClashCollides(
    tags: bool, ids: Ids, a: string, u: string, x: string, b: string, v: string, y: string)
    requires a in ids.scopes && u in ids.users && x in ids.sessions
    requires b in ids.scopes && v in ids.users && y in ids.sessions
    requires SessionsClash(tags, a, u, x, b, v, y)
    ensures !KeepsUsersApart(tags, ids)
  {
    var c, k, l := Close(tags), DisconnectJobIndex(a, u, x), DisconnectJobIndex(b, v, y);
    var z := y[..|y| - |c + x|];
    assert y == z + (c + x);
    IndexArguments(tags, a, u, x);
    IndexArguments(tags, b, v, y);
    assert Open(tags) + (b + ":" + (v + c + z)) + c + x == Open(tags) + (b + ":" + v) + c + (z + (c + x));
    assert Render(tags, k) == Render(tags, l);
    assert |a + ":" + u| > |b + ":" + v|;
    assert InUse(k, ids) && InUse(l, ids) && Owner(k) != Owner(l);
  }

  // ----- Other ids do not -----

  lemma SameScopeLength(a: string, u: string, b: string, v: string)
    requires a + ":" + u == b + ":" + v && |a| == |b|
    ensures a == b && u == v
  {
    assert a == (a + ":" + u)[..|a|] && b == (b + ":" + v)[..|b|];
    assert u == (a + ":" + u)[|a| + 1..] && v == (b + ":" + v)[|b| + 1..];
  }

  lemma LongerScopeClashes(a: string, u: string, b: string, v: string)
    requires a + ":" + u == b + ":" + v && |a| < |b|
    ensures ScopesClash(a, u, b, v)
  {
    var s := a + ":" + u;
    assert s[..|a| + 1] == a + ":";
    assert (b + ":" + v)[..|a| + 1] == b[..|a| + 1];
    assert u == s[|a| + 1..] == (b + ":" + v)[|a| + 1..] == b[|a| + 1..] + ":" + v;
  }

  lemma PairsApart(tags: bool, ids: Ids, a: string, u: string, b: string, v: string)
    requires ClashFree(tags, ids) && a + ":" + u == b + ":" + v
    requires a in ids.scopes && u in ids.users && b in ids.scopes && v in ids.users
    ensures a == b && u == v
  {
    if |a| < |b| {
      LongerScopeClashes(a, u, b, v);
    } else if |b| < |a| {
      LongerScopeClashes(b, v, a, u);
    } else {
      SameScopeLength(a, u, b, v);
    }
  }

  /** The tail of `p + c + x` that is `y`, when longer than `x`, ends in `c + x`. */
  lemma LongerSessionEnds(tags: bool, p: string, x: string, q: string, y: string)
    requires p + Close(tags) + x == q + Close(tags) + y && |x| < |y|
    ensures EndsIn(y, Close(tags) + x)
  {
    var c := Close(tags);
    var s := p + c + x;
    var n := |s|;
    assert s == p + (c + x) && s == q + (c + y);
    assert s[n - |y|..] == y;
    assert s[n - |c + x|..] == c + x;
    if |y| < |c + x| {
      assert s[n - |x| - 2] == '}';
      assert s[n - |y| - 1] == ':';
    } else {
      assert y[|y| - |c + x|..] == s[n - |c + x|..];
    }
  }

  lemma LongerSessionClashes(tags: bool, a: string, u: string, x: string, b: string, v: string, y: string)
    requires |x| < |y|
    requires Open(tags) + (a + ":" + u) + Close(tags) + x == Open(tags) + (b + ":" + v) + Close(tags) + y
    ensures SessionsClash(tags, a, u, x, b, v, y)
  {
    var c, p, q := Close(tags), Open(tags) + (a + ":" + u), Open(tags) + (b + ":" + v);
    LongerSessionEnds(tags, p, x, q, y);
    var z := y[..|y| - |c + x|];
    assert y == z + (c + x);
    assert p + (c + x) == (q + c + z) + (c + x) by {
      assert q + c + y == (q + c + z) + (c + x);
      assert p + c + x == p + (c + x);
    }
    Unwrap(c + x, p, q + c + z);
    assert q + c + z == Open(tags) + (b + ":" + (v + c + z));
    Unwrap(Open(tags), a + ":" + u, b + ":" + (v + c + z));
  }

  lemma SameSessionLength(p: string, c: string, x: string, q: string, y: string)
    requires p + c + x == q + c + y && |x| == |y|
    ensures p == q
  {
    assert p == (p + c + x)[..|p|] && q == (q + c + y)[..|q|];
  }

  lemma IndexKeysApart(tags: bool, ids: Ids, k: Key, l: Key)
    requires ClashFree(tags, ids) && k.DisconnectJobIndex? && l.DisconnectJobIndex?
    requires InUse(k, ids) && InUse(l, ids) && Arguments(tags, k) == Arguments(tags, l)
    ensures Owner(k) == Owner(l)
  {
    IndexArguments(tags, k.scope, k.user, k.session);
    IndexArguments(tags, l.scope, l.user, l.session);
    var p, q := Open(tags) + (k.scope + ":" + k.user), Open(tags) + (l.scope + ":" + l.user);
    Unwrap(":", p + Close(tags) + k.session, q + Close(tags) + l.session);
    if |k.session| < |l.session| {
      LongerSessionClashes(tags, k.scope, k.user, k.session, l.scope, l.user, l.session);
    } else if |l.session| < |k.session| {
      LongerSessionClashes(tags, l.scope, l.user, l.session, k.scope, k.user, k.session);
    } else {
      SameSessionLength(p, Close(tags), k.session, q, l.session);
      Unwrap(Open(tags), k.scope + ":" + k.user, l.scope + ":" + l.user);
      PairsApart(tags, ids, k.scope, k.user, l.scope, l.user);
    }
  }

  lemma UserKeysApart(tags: bool, ids: Ids, k: Key, l: Key)
    requires ClashFree(tags, ids) && IsUserKey(k) && IsUserKey(l)
    requires InUse(k, ids) && InUse(l, ids) && Arguments(tags, k) == Arguments(tags, l)
    ensures Owner(k) == Owner(l)
  {
    var (a, u) := UserOf(k);
    var (b, v) := UserOf(l);
    UserKey(tags, k);
    UserKey(tags, l);
    Unwrap(":", HashTag(tags, a + ":" + u), HashTag(tags, b + ":" + v));
    TagUnique(tags, a + ":" + u, b + ":" + v);
    PairsApart(tags, ids, a, u, b, v);
  }

  /** Whatever ids are in use, no two users share a key iff no two of the ids clash. */
  lemma UsersApartIffClashFree(tags: bool, ids: Ids)
    ensures KeepsUsersApart(tags, ids) <==> ClashFree(tags, ids)
  {
    if ClashFree(tags, ids) {
      forall k, l | InUse(k, ids) && InUse(l, ids) && Render(tags, k) == Render(tags, l)
        ensures Owner(k) == Owner(l)
      {
        SplitFamily(tags, k, l);
        if IsUserKey(k) {
          UserKeysApart(tags, ids, k, l);
        } else {
          IndexKeysApart(tags, ids, k, l);
        }
      }
    }
    if !ClashFree(tags, ids) {
      ClashesCollide(tags, ids);
    }
  }

  lemma ClashesCollide(tags: bool, ids: Ids)
    requires !ClashFree(tags, ids)
    ensures !KeepsUsersApart(tags, ids)
  {
    if a, u, b, v :| a in ids.scopes && u in ids.users && b in ids.scopes && v in ids.users && ScopesClash(a, u, b, v) {
      ScopeClashCollides(tags, ids, a, u, b, v);
    } else {
      var a, u, x, b, v, y :| a in ids.scopes && u in ids.users && x in ids.sessions
        && b in ids.scopes && v in ids.users && y in ids.sessions && SessionsClash(tags, a, u, x, b, v, y);
      SessionClashCollides(tags, ids, a, u, x, b, v, y);
    }
  }

  // ----- Which ids are safe -----

  ghost predicate ColonFree(ids: iset<string>) {
    forall s | s in ids :: NoColon(s)
  }

  /** No scope id continues another one behind a colon. */
  ghost predicate PrefixFree(scopes: iset<string>) {
    forall a, b | a in scopes && b in scopes :: !(a + ":" <= b)
  }

  lemma EndHasColon(tags: bool, x: string, y: string)
    requires EndsIn(y, Close(tags) + x)
    ensures ':' in y
  {
    var t := Close(tags) + x;
    assert t[|Close(tags)| - 1] == ':';
    assert y[|y| - |t|..][|Close(tags)| - 1] == ':';
  }

  lemma ColonFreeSessionsDoNotClash(
    tags: bool, a: string, u: string, x: string, b: string, v: string, y: string)
    requires NoColon(y)
    ensures !SessionsClash(tags, a, u, x, b, v, y)
  {
    if EndsIn(y, Close(tags) + x) {
      EndHasColon(tags, x, y);
    }
  }

  lemma ClashingUserHasColon(a: string, u: string, b: string, v: string)
    requires ScopesClash(a, u, b, v)
    ensures ':' in u
  {
    assert u[|b[|a| + 1..]|] == ':';
  }

  /** Users and sessions without colon, such as UUIDs, are apart whatever the scope ids are. */
  lemma ColonFreeUsersAreApart(tags: bool, ids: Ids)
    requires ColonFree(ids.users) && ColonFree(ids.sessions)
    ensures KeepsUsersApart(tags, ids)
  {
    forall a, u, b, v | a in ids.scopes && u in ids.users && b in ids.scopes && v in ids.users
      ensures !ScopesClash(a, u, b, v)
    {
      if ScopesClash(a, u, b, v) {
        ClashingUserHasColon(a, u, b, v);
      }
    }
    forall a, u, x, b, v, y | y in ids.sessions
      ensures !SessionsClash(tags, a, u, x, b, v, y)
    {
      ColonFreeSessionsDoNotClash(tags, a, u, x, b, v, y);
    }
    UsersApartIffClashFree(tags, ids);
  }

  lemma ContinuedScopeClashes(a: string, b: string, v: string)
    requires a + ":" <= b
    ensures exists u :: ScopesClash(a, u, b, v)
  {
    assert ScopesClash(a, b[|a| + 1..] + ":" + v, b, v);
  }

  /** With session ids as this service issues them, and any string a user id, only the scope ids matter. */
  lemma AllUsersApartIffPrefixFree(tags: bool, ids: Ids)
    requires (forall u :: u in ids.users) && ColonFree(ids.sessions)
    ensures KeepsUsersApart(tags, ids) <==> PrefixFree(ids.scopes)
  {
    UsersApartIffClashFree(tags, ids);
    forall a, u, x, b, v, y | y in ids.sessions
      ensures !SessionsClash(tags, a, u, x, b, v, y)
    {
      ColonFreeSessionsDoNotClash(tags, a, u, x, b, v, y);
    }
    if ClashFree(tags, ids) {
      forall a, b | a in ids.scopes && b in ids.scopes
        ensures !(a + ":" <= b)
      {
        if a + ":" <= b {
          ContinuedScopeClashes(a, b, "v");
        }
      }
    }
  }

  /** Scope `a` with user `b:c` and scope `a:b` with user `c` are one and the same to Redis. */
  lemma CollidingUsers(tags: bool, ids: Ids)
    requires "a" in ids.scopes && "b:c" in ids.users && "a:b" in ids.scopes && "c" in ids.users
    ensures Render(tags, UserSessions("a", "b:c")) == Render(tags, UserSessions("a:b", "c"))
    ensures !KeepsUsersApart(tags, ids)
  {
    assert "a" + ":" + "b:c" == "a:b" + ":" + "c";
    SameUserKey(tags, "a", "b:c", "a:b", "c");
    assert "a" + ":" == "a:b"[..2] && "a:b"[2..] == "b" && "b" + ":" + "c" == "b:c";
    ScopeClashCollides(tags, ids, "a", "b:c", "a:b", "c");
  }
}
