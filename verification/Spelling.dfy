/** Which spellings of a presence value a client may send, and what sending one does. */
module Spelling {
  import opened Base
  import opened Store
  import opened Presence
  import opened System

  /** The names of a presence value. */
  function Names(status: Status): seq<string> {
    match status
    case Active => ["active", "online"]
    case Idle => ["idle"]
    case Dnd => ["dnd", "do_not_disturb"]
  }

  predicate IsBlank(s: string) {
    forall c | c in s :: IsSpace(c)
  }

  /** Letter `c` reads as `n`, in either case. */
  predicate ReadsAs(c: char, n: char) {
    c == n || ('A' <= c <= 'Z' && n as int == c as int + 32)
  }

  /** The characters from `i` to `j` are `name` in any case, and there is nothing but space around them. */
  predicate SpelledAt(raw: string, name: string, i: nat, j: nat) {
    && i <= j <= |raw| && j - i == |name|
    && IsBlank(raw[..i]) && IsBlank(raw[j..])
    && (forall k: nat | k < |name| :: ReadsAs(raw[i + k], name[k]))
  }

  ghost predicate Spells(raw: string, status: Status) {
    exists name, i, j :: name in Names(status) && SpelledAt(raw, name, i, j)
  }

  // ----- Space -----

  lemma {:induction false} TrimLeftBlank(s: string, i: nat)
    requires i <= |s| && IsBlank(s[..i]) && (i < |s| ==> !IsSpace(s[i]))
    ensures TrimLeft(s) == s[i..]
    decreases i
  {
    if i > 0 {
      assert s[0] in s[..i];
      assert s[1..][..i - 1] == s[..i][1..];
      TrimLeftBlank(s[1..], i - 1);
    }
  }

  lemma {:induction false} TrimRightBlank(s: string, j: nat)
    requires j <= |s| && IsBlank(s[j..]) && (j > 0 ==> !IsSpace(s[j - 1]))
    ensures TrimRight(s) == s[..j]
    decreases |s|
  {
    if j < |s| {
      assert s[|s| - 1] == s[j..][|s| - 1 - j];
      assert s[|s| - 1] in s[j..];
      assert s[..|s| - 1][j..] == s[j..][..|s| - 1 - j];
      TrimRightBlank(s[..|s| - 1], j);
      assert s[..|s| - 1][..j] == s[..j];
    }
  }

  lemma {:induction false} LeftBlank(s: string) returns (i: nat)
    ensures i <= |s| && IsBlank(s[..i]) && TrimLeft(s) == s[i..]
  {
    i := 0;
    if s != "" && IsSpace(s[0]) {
      var k := LeftBlank(s[1..]);
      i := k + 1;
      assert s[..i] == [s[0]] + s[1..][..k];
    }
  }

  lemma {:induction false} RightBlank(s: string) returns (j: nat)
    ensures j <= |s| && IsBlank(s[j..]) && TrimRight(s) == s[..j]
  {
    j := |s|;
    if s != "" && IsSpace(s[|s| - 1]) {
      var front := s[..|s| - 1];
      j := RightBlank(front);
      assert s[j..] == front[j..] + [s[|s| - 1]];
      assert front[..j] == s[..j];
    }
  }

  // ----- Case -----

  /** Letter by letter the two texts are the same, in either case. */
  predicate SameLetters(w: string, name: string) {
    |w| == |name| && forall k: nat | k < |name| :: ReadsAs(w[k], name[k])
  }

  /** No capitals, and no space at either end. */
  predicate IsPlain(name: string) {
    && (forall k: nat | k < |name| :: !('A' <= name[k] <= 'Z'))
    && name != "" && !IsSpace(name[0]) && !IsSpace(name[|name| - 1])
  }

  lemma NamesArePlain(status: Status, name: string)
    requires name in Names(status)
    ensures IsPlain(name)
  {
  }

  lemma {:induction false} LowerIsLetterwise(w: string, name: string)
    requires forall k: nat | k < |name| :: !('A' <= name[k] <= 'Z')
    ensures Lower(w) == name <==> SameLetters(w, name)
  {
    if w != "" && name != "" {
      LowerIsLetterwise(w[1..], name[1..]);
      LowerHead(w, name);
      SameLettersHead(w, name);
    }
  }

  lemma LowerHead(w: string, name: string)
    requires w != "" && name != "" && !('A' <= name[0] <= 'Z')
    ensures Lower(w) == name <==> ReadsAs(w[0], name[0]) && Lower(w[1..]) == name[1..]
  {
    assert name == [name[0]] + name[1..];
    assert Lower(w)[1..] == Lower(w[1..]);
  }

  lemma SameLettersHead(w: string, name: string)
    requires w != "" && name != ""
    ensures SameLetters(w, name) <==> ReadsAs(w[0], name[0]) && SameLetters(w[1..], name[1..])
  {
    if ReadsAs(w[0], name[0]) && SameLetters(w[1..], name[1..]) {
      forall k: nat | k < |name|
        ensures ReadsAs(w[k], name[k])
      {
        assert k > 0 ==> w[k] == w[1..][k - 1] && name[k] == name[1..][k - 1];
      }
    }
  }

  // ----- Spellings -----

  lemma SpaceIsNoLetter(c: char, n: char)
    requires ReadsAs(c, n) && !IsSpace(n)
    ensures !IsSpace(c)
  {
  }

  lemma SpelledIsTrimmed(raw: string, name: string, i: nat, j: nat)
    requires SpelledAt(raw, name, i, j) && IsPlain(name)
    ensures Lower(TrimRight(TrimLeft(raw))) == name
  {
    SpaceIsNoLetter(raw[i], name[0]);
    SpaceIsNoLetter(raw[j - 1], name[|name| - 1]);
    TrimLeftBlank(raw, i);
    var w := raw[i..];
    assert w[j - i..] == raw[j..];
    TrimRightBlank(w, j - i);
    assert w[..j - i] == raw[i..j];
    assert SameLetters(raw[i..j], name);
    LowerIsLetterwise(raw[i..j], name);
  }

  lemma TrimmedIsSpelled(raw: string, name: string) returns (i: nat, j: nat)
    requires Lower(TrimRight(TrimLeft(raw))) == name && IsPlain(name)
    ensures SpelledAt(raw, name, i, j)
  {
    i := LeftBlank(raw);
    var w := raw[i..];
    var n := RightBlank(w);
    j := i + n;
    assert w[n..] == raw[j..] && w[..n] == raw[i..j];
    LowerIsLetterwise(raw[i..j], name);
    assert forall k: nat | k < |name| :: raw[i..j][k] == raw[i + k];
  }

  /** A text is taken for a presence value iff it is one of its names, whatever the case, with any space around it. */
  lemma NormalizeReadsNames(raw: string, status: Status)
    ensures Normalize(raw) == Some(status) <==> Spells(raw, status)
  {
    var w := Lower(TrimRight(TrimLeft(raw)));
    if Normalize(raw) == Some(status) {
      NamesArePlain(status, w);
      var i, j := TrimmedIsSpelled(raw, w);
    }
    if Spells(raw, status) {
      var name, i, j :| name in Names(status) && SpelledAt(raw, name, i, j);
      NamesArePlain(status, name);
      SpelledIsTrimmed(raw, name, i, j);
    }
  }

  /** What a presence message is answered with, and when its change is published. */
  lemma ChoiceIsReported(st: Store, u: UserId, s: SessionId, raw: string)
    ensures var a, b, r := st.At(u), StateSet(st, u, s, raw).At(u), StateReport(st, u, s, raw);
            && (r == InvalidState <==> forall x :: !Spells(raw, x))
            && (r == UnknownSession <==> (exists x :: Spells(raw, x)) && s !in a.members)
            && (r.Updated? ==>
                  && r.version == b.version && r.count == |b.members| && Some(r.agg) == b.lastPub
                  && (r.published <==> a.lastPub != b.lastPub))
  {
    forall x
      ensures Normalize(raw) == Some(x) <==> Spells(raw, x)
    {
      NormalizeReadsNames(raw, x);
    }
    if Normalize(raw).Some? {
      assert Spells(raw, Normalize(raw).value);
    }
  }

  // ----- In a run -----

  /**
    A presence message changes the session's state to the value it spells; if it spells none, or the
    session is gone, it changes nothing.
  */
  lemma ChoiceTakesEffect(
    cfg: Settings, tr: seq<System>, ops: seq<Op>, i: nat, u: UserId, s: SessionId, raw: string, status: Status)
    requires IsRun(cfg, tr, ops) && i < |ops| && ops[i] == SetState(u, s, raw)
    ensures Spells(raw, status) && s in tr[i].w.st.At(u).members ==>
              tr[i + 1].w.st.At(u).states == tr[i].w.st.At(u).states[s := status]
    ensures s !in tr[i].w.st.At(u).members || (forall x :: !Spells(raw, x)) ==> tr[i + 1] == tr[i]
  {
    assert Follows(cfg, tr, ops, i);
    forall x
      ensures Normalize(raw) == Some(x) <==> Spells(raw, x)
    {
      NormalizeReadsNames(raw, x);
    }
    if s !in tr[i].w.st.At(u).members || (forall x :: !Spells(raw, x)) {
      assert Normalize(raw).Some? ==> Spells(raw, Normalize(raw).value);
      assert tr[i].w.log + [] == tr[i].w.log;
    }
  }
}
