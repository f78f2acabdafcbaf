/**
  The credential redactor of src/orbenchlab/agent_sessions.py.

  `Redacted` is the simple form: scan the whole text from left to right and replace the longest
  secret that starts here.  `StreamingSecretRedactor` is the fast form: it sees the text in chunks and
  holds back every suffix that may still grow into a secret.  The theorems say that the two agree
  for every way of cutting the text into chunks, and what a redacted text can still contain.
  */
module Redactor {

  newtype byte = x: int | 0 <= x < 256

  type Bytes = seq<byte>

  /** The marker `[REDACTED_PROVIDER_CREDENTIAL]`. */
  const REDACTION: Bytes :=
    [91, 82, 69, 68, 65, 67, 84, 69, 68, 95, 80, 82, 79, 86, 73, 68, 69, 82, 95,
     67, 82, 69, 68, 69, 78, 84, 73, 65, 76, 93]

  const MIN_SECRET_LENGTH := 8

  /** The secrets that are redacted at all: shorter values are dropped by the constructor. */
  function Active(secrets: seq<Bytes>): set<Bytes> {
    set s | s in secrets && |s| >= MIN_SECRET_LENGTH
  }

  ghost predicate LongEnough(secrets: set<Bytes>) {
    forall s :: s in secrets ==> |s| >= MIN_SECRET_LENGTH
  }

  // ---------------------------------------------------------------------------
  // The simple form
  // ---------------------------------------------------------------------------

  /** The first `n` bytes of `data` are a secret. */
  predicate Hit(secrets: set<Bytes>, data: Bytes, n: nat) {
    0 < n <= |data| && data[..n] in secrets
  }

  /** The length, at most `n`, of the longest secret that `data` starts with; 0 if there is none. */
  function LongestMatch(secrets: set<Bytes>, data: Bytes, n: nat): (length: nat)
    requires n <= |data|
    ensures length <= n
    ensures length > 0 ==> Hit(secrets, data, length)
    ensures forall m :: length < m <= n ==> !Hit(secrets, data, m)
  {
    if n == 0 then 0
    else if Hit(secrets, data, n) then n
    else LongestMatch(secrets, data, n - 1)
  }

  function MatchLength(secrets: set<Bytes>, data: Bytes): nat {
    LongestMatch(secrets, data, |data|)
  }

  function Redacted(secrets: set<Bytes>, data: Bytes): Bytes
    decreases |data|
  {
    if data == [] then []
    else
      var length := MatchLength(secrets, data);
      if length > 0 then REDACTION + Redacted(secrets, data[length..])
      else [data[0]] + Redacted(secrets, data[1..])
  }

  /** Whether redacting `data` replaces anything. */
  predicate Fires(secrets: set<Bytes>, data: Bytes)
    decreases |data|
  {
    data != [] && (MatchLength(secrets, data) > 0 || Fires(secrets, data[1..]))
  }

  lemma SameHits(secrets: set<Bytes>, data: Bytes, other: Bytes)
    requires forall m: nat :: Hit(secrets, data, m) <==> Hit(secrets, other, m)
    ensures MatchLength(secrets, data) == MatchLength(secrets, other)
  {
  }

  // ---------------------------------------------------------------------------
  // What may be decided before the rest of the text is known
  // ---------------------------------------------------------------------------

  /** No secret is a proper extension of `data`: later bytes cannot lengthen the match here. */
  ghost predicate Settled(secrets: set<Bytes>, data: Bytes) {
    forall s :: s in secrets && data <= s ==> |s| <= |data|
  }

  lemma SettledMatch(secrets: set<Bytes>, data: Bytes, future: Bytes)
    requires Settled(secrets, data)
    ensures MatchLength(secrets, data + future) == MatchLength(secrets, data)
  {
    forall m: nat
      ensures Hit(secrets, data + future, m) <==> Hit(secrets, data, m)
    {
      if m <= |data| {
        assert (data + future)[..m] == data[..m];
      } else if m <= |data + future| {
        assert (data + future)[..m][..|data|] == data;
      }
    }
    SameHits(secrets, data + future, data);
  }

  /** With `future` still to come, redacting `a` writes `out` and then behaves like `b`;
      `hit` says whether `out` contains a replacement. */
  ghost predicate YieldsWith(secrets: set<Bytes>, a: Bytes, out: Bytes, hit: bool, b: Bytes, future: Bytes) {
    && Redacted(secrets, a + future) == out + Redacted(secrets, b + future)
    && Fires(secrets, a + future) == (hit || Fires(secrets, b + future))
  }

  /** `YieldsWith` for every text that may still follow; after the final chunk only the empty one. */
  ghost predicate Yields(secrets: set<Bytes>, final: bool, a: Bytes, out: Bytes, hit: bool, b: Bytes) {
    forall future: Bytes {:trigger YieldsWith(secrets, a, out, hit, b, future)} ::
      (final ==> future == []) ==> YieldsWith(secrets, a, out, hit, b, future)
  }

  lemma YieldsNothing(secrets: set<Bytes>, final: bool, a: Bytes)
    ensures Yields(secrets, final, a, [], false, a)
  {
  }

  lemma ConcatAssoc(a: Bytes, b: Bytes, c: Bytes)
    ensures (a + b) + c == a + (b + c)
  {
  }

  lemma YieldsTrans(secrets: set<Bytes>, final: bool, a: Bytes, out1: Bytes, hit1: bool, b: Bytes,
                    out2: Bytes, hit2: bool, c: Bytes, hit: bool)
    requires hit == (hit1 || hit2)
    requires Yields(secrets, final, a, out1, hit1, b)
    requires Yields(secrets, final, b, out2, hit2, c)
    ensures Yields(secrets, final, a, out1 + out2, hit, c)
  {
    forall future: Bytes | final ==> future == []
      ensures YieldsWith(secrets, a, out1 + out2, hit, c, future)
    {
      assert YieldsWith(secrets, a, out1, hit1, b, future);
      assert YieldsWith(secrets, b, out2, hit2, c, future);
      ConcatAssoc(out1, out2, Redacted(secrets, c + future));
    }
  }

  lemma YieldsAppend(secrets: set<Bytes>, final: bool, a: Bytes, out: Bytes, hit: bool, b: Bytes, chunk: Bytes)
    requires Yields(secrets, false, a, out, hit, b)
    ensures Yields(secrets, final, a + chunk, out, hit, b + chunk)
  {
    forall future: Bytes | final ==> future == []
      ensures YieldsWith(secrets, a + chunk, out, hit, b + chunk, future)
    {
      assert YieldsWith(secrets, a, out, hit, b, chunk + future);
      ConcatAssoc(a, chunk, future);
      ConcatAssoc(b, chunk, future);
    }
  }

  lemma MatchWithFuture(secrets: set<Bytes>, final: bool, data: Bytes, future: Bytes)
    requires final || Settled(secrets, data)
    requires final ==> future == []
    ensures MatchLength(secrets, data + future) == MatchLength(secrets, data)
  {
    if final {
      assert data + future == data;
    } else {
      SettledMatch(secrets, data, future);
    }
  }

  lemma StepReplaces(secrets: set<Bytes>, final: bool, data: Bytes, length: nat)
    requires final || Settled(secrets, data)
    requires length == MatchLength(secrets, data) > 0
    ensures Yields(secrets, final, data, REDACTION, true, data[length..])
  {
    forall future: Bytes | final ==> future == []
      ensures YieldsWith(secrets, data, REDACTION, true, data[length..], future)
    {
      MatchWithFuture(secrets, final, data, future);
      assert (data + future)[length..] == data[length..] + future;
    }
  }

  lemma StepCopies(secrets: set<Bytes>, final: bool, data: Bytes)
    requires data != [] && (final || Settled(secrets, data)) && MatchLength(secrets, data) == 0
    ensures Yields(secrets, final, data, [data[0]], false, data[1..])
  {
    forall future: Bytes | final ==> future == []
      ensures YieldsWith(secrets, data, [data[0]], false, data[1..], future)
    {
      MatchWithFuture(secrets, final, data, future);
      assert (data + future)[1..] == data[1..] + future;
    }
  }

  lemma YieldsAll(secrets: set<Bytes>, data: Bytes, out: Bytes, hit: bool)
    requires Yields(secrets, true, data, out, hit, [])
    ensures out == Redacted(secrets, data) && hit == Fires(secrets, data)
  {
    assert YieldsWith(secrets, data, out, hit, [], []);
    assert data + [] == data;
    assert out + [] == out;
  }

  // ---------------------------------------------------------------------------
  // What a redacted text can still contain
  // ---------------------------------------------------------------------------

  /** For each byte of the redacted text, whether it belongs to an inserted marker. */
  ghost function Marks(secrets: set<Bytes>, data: Bytes): (marks: seq<bool>)
    ensures |marks| == |Redacted(secrets, data)|
    decreases |data|
  {
    if data == [] then []
    else
      var length := MatchLength(secrets, data);
      if length > 0 then seq(|REDACTION|, i => true) + Marks(secrets, data[length..])
      else [false] + Marks(secrets, data[1..])
  }

  ghost predicate OccursAt(s: Bytes, text: Bytes, at: nat) {
    at + |s| <= |text| && text[at..at + |s|] == s
  }

  lemma OccursShifts(s: Bytes, front: Bytes, text: Bytes, at: nat)
    requires OccursAt(s, text, at)
    ensures OccursAt(s, front + text, |front| + at)
  {
  }

  lemma OccursBelow(s: Bytes, front: Bytes, text: Bytes, at: nat)
    requires OccursAt(s, front + text, |front| + at)
    ensures OccursAt(s, text, at)
  {
  }

  /** Copied bytes at the front of the redacted text are the bytes at the front of the original. */
  lemma {:induction false} CopiedPrefix(secrets: set<Bytes>, data: Bytes, n: nat)
    requires n <= |Redacted(secrets, data)|
    requires forall i :: 0 <= i < n ==> !Marks(secrets, data)[i]
    ensures n <= |data| && Redacted(secrets, data)[..n] == data[..n]
    ensures n > 0 && Redacted(secrets, data)[..n] in secrets ==> Hit(secrets, data, n)
    decreases |data|
  {
    if n > 0 {
      assert MatchLength(secrets, data) > 0 ==> Marks(secrets, data)[0];
      var rest := Marks(secrets, data[1..]);
      assert forall i :: 0 <= i < n - 1 ==> rest[i] == Marks(secrets, data)[i + 1];
      CopiedPrefix(secrets, data[1..], n - 1);
      assert Redacted(secrets, data)[..n] == [data[0]] + Redacted(secrets, data[1..])[..n - 1] == data[..n];
    }
  }

  /** One of the `n` bytes from `from` on is marked. */
  ghost predicate Touched(marks: seq<bool>, from: nat, n: nat) {
    exists i :: from <= i < from + n && i < |marks| && marks[i]
  }

  lemma TouchedShifts(front: seq<bool>, marks: seq<bool>, from: nat, n: nat)
    requires Touched(marks, from, n)
    ensures Touched(front + marks, |front| + from, n)
  {
    var i :| from <= i < from + n && i < |marks| && marks[i];
    assert (front + marks)[|front| + i];
  }

  /** Wherever a secret occurs in redacted text, the occurrence touches an inserted marker. */
  lemma {:induction false} LeakTouchesMarker(secrets: set<Bytes>, data: Bytes, s: Bytes, at: nat)
    requires s in secrets && s != []
    requires OccursAt(s, Redacted(secrets, data), at)
    ensures Touched(Marks(secrets, data), at, |s|)
    decreases |data|
  {
    var length := MatchLength(secrets, data);
    if length > 0 && at < |REDACTION| {
      assert Marks(secrets, data)[at];
    } else if length > 0 {
      var front := seq(|REDACTION|, i => true);
      OccursBelow(s, REDACTION, Redacted(secrets, data[length..]), at - |REDACTION|);
      LeakTouchesMarker(secrets, data[length..], s, at - |REDACTION|);
      TouchedShifts(front, Marks(secrets, data[length..]), at - |REDACTION|, |s|);
    } else if at > 0 {
      OccursBelow(s, [data[0]], Redacted(secrets, data[1..]), at - 1);
      LeakTouchesMarker(secrets, data[1..], s, at - 1);
      TouchedShifts([false], Marks(secrets, data[1..]), at - 1, |s|);
    } else {
      LeakAtFront(secrets, data, s);
    }
  }

  lemma LeakAtFront(secrets: set<Bytes>, data: Bytes, s: Bytes)
    requires s in secrets && s != [] && MatchLength(secrets, data) == 0
    requires OccursAt(s, Redacted(secrets, data), 0)
    ensures Touched(Marks(secrets, data), 0, |s|)
  {
    if forall i :: 0 <= i < |s| ==> !Marks(secrets, data)[i] {
      assert Redacted(secrets, data)[..|s|] == s;
      CopiedPrefix(secrets, data, |s|);
    }
  }

  /** Laid over the marker with its first byte at `offset`, `s` agrees wherever the two meet. */
  ghost predicate FitsMarker(s: Bytes, offset: int) {
    && -|s| < offset < |REDACTION|
    && forall i :: 0 <= i < |s| && 0 <= offset + i < |REDACTION| ==> s[i] == REDACTION[offset + i]
  }

  /** A marked byte of the redacted text lies inside a whole copy of the marker. */
  lemma {:induction false} MarkedInsideMarker(secrets: set<Bytes>, data: Bytes, i: nat) returns (start: nat)
    requires i < |Redacted(secrets, data)| && Marks(secrets, data)[i]
    ensures start <= i < start + |REDACTION| && OccursAt(REDACTION, Redacted(secrets, data), start)
    decreases |data|
  {
    var length := MatchLength(secrets, data);
    if length > 0 && i < |REDACTION| {
      start := 0;
      assert Redacted(secrets, data)[0..|REDACTION|] == REDACTION;
    } else if length > 0 {
      start := MarkedInsideMarker(secrets, data[length..], i - |REDACTION|);
      OccursShifts(REDACTION, REDACTION, Redacted(secrets, data[length..]), start);
      start := |REDACTION| + start;
    } else {
      start := MarkedInsideMarker(secrets, data[1..], i - 1);
      OccursShifts(REDACTION, [data[0]], Redacted(secrets, data[1..]), start);
      start := 1 + start;
    }
  }

  lemma OverlapFits(s: Bytes, text: Bytes, at: nat, start: nat)
    requires OccursAt(s, text, at) && OccursAt(REDACTION, text, start)
    requires -|s| < at - start < |REDACTION|
    ensures FitsMarker(s, at - start)
  {
  }

  /** A secret that occurs in redacted text can be laid over the marker. */
  lemma LeakFitsMarker(secrets: set<Bytes>, data: Bytes, s: Bytes, at: nat) returns (offset: int)
    requires s in secrets && s != []
    requires OccursAt(s, Redacted(secrets, data), at)
    ensures FitsMarker(s, offset)
  {
    LeakTouchesMarker(secrets, data, s, at);
    var i :| at <= i < at + |s| && i < |Marks(secrets, data)| && Marks(secrets, data)[i];
    var start := MarkedInsideMarker(secrets, data, i);
    OverlapFits(s, Redacted(secrets, data), at, start);
    offset := at - start;
  }

  /** If no secret can be laid over the marker, redacted text contains no secret at all. */
  lemma NoSecretSurvives(secrets: set<Bytes>, data: Bytes, s: Bytes, at: nat)
    requires s in secrets && s != []
    requires forall offset :: !FitsMarker(s, offset)
    ensures !OccursAt(s, Redacted(secrets, data), at)
  {
    if OccursAt(s, Redacted(secrets, data), at) {
      var offset := LeakFitsMarker(secrets, data, s, at);
    }
  }

  /** In particular when the secrets share no byte with the marker. */
  lemma NoSharedByteNoSecret(secrets: set<Bytes>, data: Bytes, s: Bytes, at: nat)
    requires s in secrets && s != []
    requires forall i, j :: 0 <= i < |s| && 0 <= j < |REDACTION| ==> s[i] != REDACTION[j]
    ensures !OccursAt(s, Redacted(secrets, data), at)
  {
    forall offset
      ensures !FitsMarker(s, offset)
    {
      if -|s| < offset < |REDACTION| {
        var i := if offset < 0 then -offset else 0;
        assert s[i] != REDACTION[offset + i];
      }
    }
    NoSecretSurvives(secrets, data, s, at);
  }

  /** The condition is needed: a secret that is part of the marker is written by every replacement. */
  lemma {:induction false} PartOfMarkerLeaks(secrets: set<Bytes>, data: Bytes, s: Bytes, offset: nat) returns (at: nat)
    requires OccursAt(s, REDACTION, offset) && Fires(secrets, data)
    ensures OccursAt(s, Redacted(secrets, data), at)
    decreases |data|
  {
    if MatchLength(secrets, data) > 0 {
      at := offset;
      assert Redacted(secrets, data)[at..at + |s|] == REDACTION[at..at + |s|];
    } else {
      at := PartOfMarkerLeaks(secrets, data[1..], s, offset);
      OccursShifts(s, [data[0]], Redacted(secrets, data[1..]), at);
      at := 1 + at;
    }
  }

  /** Nothing is replaced at the bytes of `x` when `rest` follows them. */
  ghost predicate Copied(secrets: set<Bytes>, x: Bytes, rest: Bytes) {
    forall i :: 0 <= i < |x| ==> MatchLength(secrets, (x + rest)[i..]) == 0
  }

  lemma {:induction false} CopiedThrough(secrets: set<Bytes>, x: Bytes, rest: Bytes)
    requires Copied(secrets, x, rest)
    ensures Redacted(secrets, x + rest) == x + Redacted(secrets, rest)
  {
    if x == [] {
      assert x + rest == rest;
    } else {
      CopiedTail(secrets, x, rest);
      CopiedThrough(secrets, x[1..], rest);
      ConcatAssoc([x[0]], x[1..], Redacted(secrets, rest));
      assert [x[0]] + x[1..] == x;
    }
  }

  lemma CopiedTail(secrets: set<Bytes>, x: Bytes, rest: Bytes)
    requires Copied(secrets, x, rest) && x != []
    ensures Copied(secrets, x[1..], rest)
    ensures Redacted(secrets, x + rest) == [x[0]] + Redacted(secrets, x[1..] + rest)
  {
    var data, tail := x + rest, x[1..];
    assert data[0..] == data && data[1..] == tail + rest;
    forall i | 0 <= i < |tail| ensures MatchLength(secrets, (tail + rest)[i..]) == 0 {
      assert (tail + rest)[i..] == data[i + 1..];
    }
  }

  /** `t` is replaced, after `x` is copied and before `y`. */
  ghost predicate Replaced(secrets: set<Bytes>, x: Bytes, t: Bytes, y: Bytes) {
    t != [] && MatchLength(secrets, t + y) == |t| && Copied(secrets, x, t + y)
  }

  lemma ReplacedBetween(secrets: set<Bytes>, x: Bytes, t: Bytes, y: Bytes)
    requires Replaced(secrets, x, t, y)
    ensures Redacted(secrets, x + (t + y)) == x + (REDACTION + Redacted(secrets, y))
  {
    CopiedThrough(secrets, x, t + y);
    assert (t + y)[|t|..] == y;
  }

  // ---------------------------------------------------------------------------
  // Which secrets can leak at all
  // ---------------------------------------------------------------------------

  /** With these secrets, `s` among them, the redacted `data` contains `s`. */
  ghost predicate Leaks(secrets: set<Bytes>, s: Bytes, data: Bytes, at: nat) {
    s in secrets && LongEnough(secrets) && OccursAt(s, Redacted(secrets, data), at)
  }

  function Another(a: byte, b: byte): (c: byte)
    ensures c != a && c != b
  {
    if a != 0 && b != 0 then 0 else if a != 1 && b != 1 then 1 else 2
  }

  function Repeated(b: byte, n: nat): Bytes {
    seq(n, _ => b)
  }

  lemma NoHitNoMatch(secrets: set<Bytes>, data: Bytes)
    requires forall m: nat :: !Hit(secrets, data, m)
    ensures MatchLength(secrets, data) == 0
  {
  }

  /** A second secret `t` of one repeated byte, as long as `s`: nothing is replaced before it. */
  lemma FrontIsCopied(s: Bytes, b: byte, x: Bytes, y: Bytes)
    requires |x| < |s| && s[|s| - 1] != b && (x != [] ==> x[|x| - 1] != b)
    ensures Copied({s, Repeated(b, |s|)}, x, Repeated(b, |s|) + y)
  {
    var t := Repeated(b, |s|);
    var data := x + (t + y);
    forall i | 0 <= i < |x| ensures MatchLength({s, t}, data[i..]) == 0 {
      forall m: nat ensures !Hit({s, t}, data[i..], m) {
        if m == |s| <= |data[i..]| {
          assert data[i..][..m][|x| - 1 - i] == x[|x| - 1];
          assert data[i..][..m][m - 1] == t[i + m - 1 - |x|] == b;
        }
      }
      NoHitNoMatch({s, t}, data[i..]);
    }
  }

  /** It is replaced itself. */
  lemma RepeatedIsReplaced(s: Bytes, b: byte, y: Bytes)
    requires s != []
    ensures MatchLength({s, Repeated(b, |s|)}, Repeated(b, |s|) + y) == |s|
  {
    var t := Repeated(b, |s|);
    assert (t + y)[..|t|] == t;
    assert Hit({s, t}, t + y, |t|);
  }

  /** Nothing is replaced in a text shorter than every secret. */
  lemma {:induction false} ShortIsCopied(secrets: set<Bytes>, y: Bytes)
    requires forall s :: s in secrets ==> |y| < |s|
    ensures Redacted(secrets, y) == y
  {
    if y != [] {
      NoHitNoMatch(secrets, y);
      ShortIsCopied(secrets, y[1..]);
    }
  }

  /** `x`, the marker and `y` contain `s`, if its bytes before the marker are `x` and those behind it are `y`. */
  lemma LaidOver(s: Bytes, marker: Bytes, offset: int, x: Bytes, y: Bytes) returns (at: nat)
    requires -|s| < offset < |marker|
    requires forall i :: 0 <= i < |s| && 0 <= offset + i < |marker| ==> s[i] == marker[offset + i]
    requires x == if offset < 0 then s[..-offset] else []
    requires y == if |s| > |marker| - offset then s[|marker| - offset..] else []
    ensures OccursAt(s, x + (marker + y), at)
  {
    at := if offset < 0 then 0 else offset;
    var text := x + (marker + y);
    forall i | 0 <= i < |s| ensures text[at + i] == s[i] {
      if 0 <= offset + i < |marker| {
        assert text[at + i] == marker[offset + i];
      } else if offset + i >= |marker| {
        assert text[at + i] == y[offset + i - |marker|];
      }
    }
    assert text[at..at + |s|] == s;
  }

  /** Every secret that fits the marker somewhere is written by some replacement of another secret. */
  lemma FittingLeaks(s: Bytes, offset: int) returns (secrets: set<Bytes>, data: Bytes, at: nat)
    requires |s| >= MIN_SECRET_LENGTH && FitsMarker(s, offset)
    ensures Leaks(secrets, s, data, at)
  {
    var marker := REDACTION;
    var x := if offset < 0 then s[..-offset] else [];
    var y := if |s| > |marker| - offset then s[|marker| - offset..] else [];
    var taken := if x == [] then s[|s| - 1] else x[|x| - 1];
    var b := Another(taken, s[|s| - 1]);
    var t := Repeated(b, |s|);
    secrets, data := {s, t}, x + (t + y);
    FrontIsCopied(s, b, x, y);
    RepeatedIsReplaced(s, b, y);
    ReplacedBetween(secrets, x, t, y);
    ShortIsCopied(secrets, y);
    at := LaidOver(s, marker, offset, x, y);
  }

  /** Which secrets redacted text can contain: exactly those that can be laid over the marker, at either end, inside it
      or around it.  All others are safe whatever the other secrets and the text are. */
  lemma LeaksExactly(s: Bytes)
    requires |s| >= MIN_SECRET_LENGTH
    ensures (exists secrets, data, at :: Leaks(secrets, s, data, at)) <==> (exists offset :: FitsMarker(s, offset))
  {
    if exists offset :: FitsMarker(s, offset) {
      var offset :| FitsMarker(s, offset);
      var secrets, data, at := FittingLeaks(s, offset);
    }
    if exists secrets, data, at :: Leaks(secrets, s, data, at) {
      var secrets, data, at :| Leaks(secrets, s, data, at);
      var offset := LeakFitsMarker(secrets, data, s, at);
    }
  }

  // ---------------------------------------------------------------------------
  // The fast form
  // ---------------------------------------------------------------------------

  function Max(a: nat, b: nat): nat { if a < b then b else a }

  ghost predicate SortedByLength(secrets: seq<Bytes>) {
    forall i, j :: 0 <= i < j < |secrets| ==> |secrets[i]| >= |secrets[j]|
  }

  ghost predicate NoRepeats(secrets: seq<Bytes>) {
    forall i, j :: 0 <= i < j < |secrets| ==> secrets[i] != secrets[j]
  }

  lemma LongestExists(secrets: set<Bytes>)
    requires secrets != {}
    ensures exists s :: s in secrets && forall t :: t in secrets ==> |t| <= |s|
  {
    var s :| s in secrets;
    if secrets == {s} {
      assert forall t :: t in secrets ==> |t| <= |s|;
    } else {
      LongestExists(secrets - {s});
      var m :| m in secrets - {s} && forall t :: t in secrets - {s} ==> |t| <= |m|;
      var best := if |m| < |s| then s else m;
      assert best in secrets && forall t :: t in secrets ==> |t| <= |best|;
    }
  }

  function Extend(ordered: seq<Bytes>, s: Bytes): (longer: seq<Bytes>)
    ensures forall t :: t in longer <==> t in ordered || t == s
    ensures SortedByLength(ordered) && (forall t :: t in ordered ==> |s| <= |t|) ==> SortedByLength(longer)
    ensures NoRepeats(ordered) && s !in ordered ==> NoRepeats(longer)
  {
    ordered + [s]
  }

  /** The constructor's list: every active secret once, longest first. */
  ghost predicate ListsByLength(ordered: seq<Bytes>, secrets: set<Bytes>) {
    && SortedByLength(ordered) && NoRepeats(ordered)
    && (forall s :: s in ordered <==> s in secrets)
  }

  /** `sorted(values, key=len, reverse=True)` over a set: equal lengths come in any order. */
  method LongestFirst(values: set<Bytes>) returns (ordered: seq<Bytes>)
    ensures ListsByLength(ordered, values)
    ensures forall s :: s in values ==> ordered != [] && |s| <= |ordered[0]|
    ensures ordered != [] ==> ordered[0] in values
  {
    var rest := values;
    ordered := [];
    while rest != {}
      invariant forall s :: s in values <==> s in ordered || s in rest
      invariant SortedByLength(ordered) && NoRepeats(ordered) && forall s :: s in rest ==> s !in ordered
      invariant forall s, t :: s in ordered && t in rest ==> |t| <= |s|
      decreases |rest|
    {
      LongestExists(rest);
      var s :| s in rest && forall t :: t in rest ==> |t| <= |s|;
      ordered := Extend(ordered, s);
      rest := rest - {s};
    }
    forall s | s in values
      ensures ordered != [] && |s| <= |ordered[0]|
    {
      var i :| 0 <= i < |ordered| && ordered[i] == s;
    }
  }

  lemma FirstIsLongest(ordered: seq<Bytes>, secrets: set<Bytes>, data: Bytes, i: nat)
    requires ListsByLength(ordered, secrets) && LongEnough(secrets) && i < |ordered|
    requires ordered[i] <= data && forall j :: 0 <= j < i ==> !(ordered[j] <= data)
    ensures MatchLength(secrets, data) == |ordered[i]|
  {
    var n := MatchLength(secrets, data);
    assert ordered[i] in secrets && data[..|ordered[i]|] == ordered[i];
    assert Hit(secrets, data, |ordered[i]|);
    var j :| 0 <= j < |ordered| && ordered[j] == data[..n];
  }

  lemma NoneMatches(ordered: seq<Bytes>, secrets: set<Bytes>, data: Bytes)
    requires ListsByLength(ordered, secrets)
    requires forall j :: 0 <= j < |ordered| ==> !(ordered[j] <= data)
    ensures MatchLength(secrets, data) == 0
  {
  }

  /** The last `n` bytes of `data` start some secret, or `n` is 0. */
  ghost predicate StartsAtSuffix(secrets: set<Bytes>, data: Bytes, n: nat) {
    n <= |data| && (n > 0 ==> exists s :: s in secrets && data[|data| - n..] <= s)
  }

  /** Bytes are withheld only inside a suffix with which some secret starts. */
  ghost predicate WithheldForCause(secrets: set<Bytes>, data: Bytes, pending: Bytes) {
    && |pending| <= |data| && pending == data[|data| - |pending|..]
    && exists n: nat :: StartsAtSuffix(secrets, data, n) && |pending| <= n
  }

  class StreamingSecretRedactor {
    const secrets: seq<Bytes>
    const maximum: nat
    var pending: Bytes
    var redacted: bool
    ghost const active: set<Bytes>
    ghost var fed: Bytes
    ghost var emitted: Bytes

    /** What the constructor fixes. */
    ghost predicate Configured() {
      && ListsByLength(secrets, active)
      && LongEnough(active)
      && (forall s :: s in active ==> |s| <= maximum)
      && maximum >= 1
    }

    /** Between two chunks: what has been written is right for every continuation. */
    ghost predicate Valid()
      reads this
    {
      && Configured()
      && |pending| < maximum
      && Yields(active, false, fed, emitted, redacted, pending)
    }

    constructor (raw: seq<Bytes>)
      ensures Valid() && active == Active(raw)
      ensures fed == [] && emitted == [] && pending == [] && !redacted
      ensures maximum == 1 || exists s :: s in active && |s| == maximum
    {
      var ordered := LongestFirst(Active(raw));
      secrets := ordered;
      maximum := if ordered == [] then 1 else |ordered[0]|;
      pending := [];
      redacted := false;
      active := Active(raw);
      fed := [];
      emitted := [];
      new;
      YieldsNothing(active, false, []);
    }

    /** `next(secret for secret in secrets if data.startswith(secret))`, by its length. */
    method FirstMatch(data: Bytes) returns (length: nat)
      requires Configured()
      ensures length == MatchLength(active, data)
    {
      for i := 0 to |secrets|
        invariant forall j :: 0 <= j < i ==> !(secrets[j] <= data)
      {
        if secrets[i] <= data {
          FirstIsLongest(secrets, active, data, i);
          return |secrets[i]|;
        }
      }
      NoneMatches(secrets, active, data);
      length := 0;
    }

    /** `any(secret.startswith(suffix) for secret in secrets)`. */
    method StartsSecret(suffix: Bytes) returns (starts: bool)
      requires Configured()
      ensures starts <==> exists s :: s in active && suffix <= s
    {
      for i := 0 to |secrets|
        invariant forall j :: 0 <= j < i ==> !(suffix <= secrets[j])
      {
        if suffix <= secrets[i] {
          assert secrets[i] in active;
          return true;
        }
      }
      return false;
    }

    /** The longest suffix, shorter than the longest secret, with which some secret starts. */
    method Held(data: Bytes) returns (held: nat)
      requires Configured()
      ensures held < maximum
      ensures StartsAtSuffix(active, data, held)
      ensures forall i :: 0 <= i < |data| - held ==> Settled(active, data[i..])
    {
      held := 0;
      var top := if maximum - 1 < |data| then maximum - 1 else |data|;
      for length := 1 to top + 1
        invariant held <= top && held < length
        invariant StartsAtSuffix(active, data, held)
        invariant forall i :: |data| - length < i < |data| - held ==> Settled(active, data[i..])
      {
        var suffix := data[|data| - length..];
        var starts := StartsSecret(suffix);
        if starts {
          held := length;
        }
      }
      forall i | 0 <= i < |data| - held
        ensures Settled(active, data[i..])
      {
      }
    }

    /** One call of `feed`. */
    method Feed(chunk: Bytes, final: bool) returns (output: Bytes)
      requires Valid()
      modifies this
      ensures fed == old(fed) + chunk && emitted == old(emitted) + output
      ensures !final ==> Valid() && WithheldForCause(active, old(pending) + chunk, pending)
      ensures final ==> Configured() && pending == []
      ensures final ==> emitted == Redacted(active, fed) && redacted == Fires(active, fed)
    {
      var data := pending + chunk;
      fed := fed + chunk;
      YieldsAppend(active, final, old(fed), old(emitted), old(redacted), pending, chunk);
      var held := 0;
      if !final && secrets != [] {
        held := Held(data);
      }
      assert StartsAtSuffix(active, data, held);
      var limit := |data| - held;
      output := [];
      var index := 0;
      assert emitted + output == emitted && data[0..] == data;
      while index < limit
        invariant 0 <= index <= |data|
        invariant fed == old(fed) + chunk && emitted == old(emitted)
        invariant Yields(active, final, fed, emitted + output, redacted, data[index..])
      {
        output, index := Scan(data, final, index, output);
      }
      pending := data[index..];
      assert |pending| <= held;
      if final {
        assert pending == [];
        output := FlushPending(output);
        YieldsAll(active, fed, emitted + output, redacted);
      }
      emitted := emitted + output;
    }

    /** The source's second loop, which redacts what is still pending after the final chunk.  `Feed` calls
        it with nothing pending, since nothing is held back from a final chunk. */
    method FlushPending(output: Bytes) returns (output': Bytes)
      requires Configured()
      requires Yields(active, true, fed, emitted + output, redacted, pending)
      modifies this
      ensures fed == old(fed) && emitted == old(emitted)
      ensures pending == [] && Yields(active, true, fed, emitted + output', redacted, [])
    {
      output' := output;
      while pending != []
        invariant fed == old(fed) && emitted == old(emitted)
        invariant Yields(active, true, fed, emitted + output', redacted, pending)
        decreases |pending|
      {
        var next;
        assert pending[0..] == pending;
        output', next := Scan(pending, true, 0, output');
        pending := pending[next..];
      }
    }

    /** What has been written is a prefix of the redaction of every text the stream may become. */
    lemma EmittedIsFinal(future: Bytes)
      requires Valid()
      ensures emitted <= Redacted(active, fed + future)
      ensures redacted ==> Fires(active, fed + future)
    {
      assert YieldsWith(active, fed, emitted, redacted, pending, future);
    }

    /** One step of the scan at `index`: replace the longest secret there, or copy one byte. */
    method Scan(data: Bytes, final: bool, index: nat, output: Bytes) returns (output': Bytes, index': nat)
      requires Configured() && index < |data|
      requires final || Settled(active, data[index..])
      requires Yields(active, final, fed, emitted + output, redacted, data[index..])
      modifies this`redacted
      ensures index < index' <= |data|
      ensures Yields(active, final, fed, emitted + output', redacted, data[index'..])
    {
      var length := FirstMatch(data[index..]);
      ghost var was := redacted;
      if length > 0 {
        StepReplaces(active, final, data[index..], length);
        output' := output + REDACTION;
        index' := index + length;
        redacted := true;
        assert data[index..][length..] == data[index'..];
        YieldsTrans(active, final, fed, emitted + output, was, data[index..], REDACTION, true, data[index'..], true);
        ConcatAssoc(emitted, output, REDACTION);
      } else {
        StepCopies(active, final, data[index..]);
        output' := output + [data[index]];
        index' := index + 1;
        assert data[index..][1..] == data[index'..];
        YieldsTrans(active, final, fed, emitted + output, was, data[index..], [data[index]], false, data[index'..],
                    was);
        ConcatAssoc(emitted, output, [data[index]]);
      }
    }
  }

  /** `_redact_bytes`: one call of `feed` on the whole value. */
  method RedactBytes(value: Bytes, secrets: seq<Bytes>) returns (output: Bytes, redacted: bool)
    ensures output == Redacted(Active(secrets), value)
    ensures redacted == Fires(Active(secrets), value)
  {
    var redactor := new StreamingSecretRedactor(secrets);
    output := redactor.Feed(value, true);
    assert redactor.fed == value && redactor.emitted == output;
    redacted := redactor.redacted;
  }

  function Concat(chunks: seq<Bytes>): Bytes {
    if chunks == [] then [] else Concat(chunks[..|chunks| - 1]) + chunks[|chunks| - 1]
  }

  /** Any way of cutting a text into chunks gives the one-shot result. */
  method RedactInChunks(chunks: seq<Bytes>, secrets: seq<Bytes>) returns (output: Bytes, redacted: bool)
    ensures output == Redacted(Active(secrets), Concat(chunks))
    ensures redacted == Fires(Active(secrets), Concat(chunks))
  {
    var redactor := new StreamingSecretRedactor(secrets);
    output := [];
    for i := 0 to |chunks|
      invariant redactor.Valid() && redactor.active == Active(secrets)
      invariant redactor.fed == Concat(chunks[..i]) && redactor.emitted == output
    {
      var more := redactor.Feed(chunks[i], false);
      output := output + more;
      assert chunks[..i + 1][..i] == chunks[..i];
    }
    assert chunks[..|chunks|] == chunks;
    var rest := redactor.Feed([], true);
    output := output + rest;
    redacted := redactor.redacted;
    assert redactor.fed == Concat(chunks);
  }
}
