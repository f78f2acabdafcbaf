/**
  Relative POSIX paths as strings and as lists of components.
  */
module Paths {
  import opened Ordering

  type Path = string

  /** What is in a file. */
  type Content = string

  /** The components of `c + s`, given those of `s`. */
  function AddFront(c: char, parts: seq<string>): (longer: seq<string>)
    requires |parts| >= 1
    ensures |longer| >= 1
  {
    if c == '/' then [""] + parts else [[c] + parts[0]] + parts[1..]
  }

  function Split(s: string): (parts: seq<string>)
    ensures |parts| >= 1
  {
    if s == "" then [""] else AddFront(s[0], Split(s[1..]))
  }

  function Join(parts: seq<string>): string {
    if parts == [] then ""
    else if |parts| == 1 then parts[0]
    else parts[0] + "/" + Join(parts[1..])
  }

  /** `raw.rstrip("/")`. */
  function StripSlashes(s: string): string {
    if s != "" && s[|s| - 1] == '/' then StripSlashes(s[..|s| - 1]) else s
  }

  /** `right.startswith(left.rstrip("/") + "/")`. */
  predicate Contains(left: Path, right: Path) {
    StripSlashes(left) + "/" <= right
  }

  /** `_safe_relative_path` accepts `raw`: normalised, relative, without `..` and hidden roots. */
  predicate Safe(raw: string) {
    var parts := Split(raw);
    && (forall i :: 0 <= i < |parts| ==> parts[i] !in {"", ".", ".."})
    && parts[0][0] != '.'
    && '\\' !in raw
  }

  /** `left in PurePosixPath(right).parents`: fewer components, and the same ones. */
  predicate IsParent(left: Path, right: Path) {
    Split(left) < Split(right)
  }

  lemma AddFrontAppend(c: char, x: seq<string>, y: seq<string>)
    requires |x| >= 1
    ensures AddFront(c, x + y) == AddFront(c, x) + y
  {
  }

  lemma {:induction false} SplitAppend(a: string, b: string)
    ensures Split(a + "/" + b) == Split(a) + Split(b)
  {
    var whole := a + "/" + b;
    if a == "" {
      assert whole[1..] == b;
    } else {
      assert whole[1..] == a[1..] + "/" + b;
      SplitAppend(a[1..], b);
      AddFrontAppend(a[0], Split(a[1..]), Split(b));
    }
  }

  lemma {:induction false} SplitWithoutSlash(s: string)
    requires '/' !in s
    ensures Split(s) == [s]
  {
    if s != "" {
      SplitWithoutSlash(s[1..]);
      assert s == [s[0]] + s[1..];
    }
  }

  lemma {:induction false} JoinAppend(x: seq<string>, y: seq<string>)
    requires x != [] && y != []
    ensures Join(x + y) == Join(x) + "/" + Join(y)
  {
    assert (x + y)[0] == x[0] && (x + y)[1..] == x[1..] + y;
    if |x| > 1 {
      JoinAppend(x[1..], y);
      assert Join(x) == x[0] + "/" + Join(x[1..]);
      Assoc(x[0] + "/", Join(x[1..]) + "/", Join(y));
      Assoc(x[0] + "/", Join(x[1..]), "/");
    }
  }

  lemma {:induction false} JoinSplit(s: string)
    ensures Join(Split(s)) == s
  {
    if s != "" {
      JoinSplit(s[1..]);
      JoinAddFront(s[0], Split(s[1..]));
      assert s == [s[0]] + s[1..];
    }
  }

  lemma {:induction false} JoinAddFront(c: char, parts: seq<string>)
    requires |parts| >= 1
    ensures Join(AddFront(c, parts)) == [c] + Join(parts)
  {
    if c == '/' {
      assert ([""] + parts)[1..] == parts;
      assert Join([""] + parts) == "" + "/" + Join(parts);
    } else {
      var tail := parts[1..];
      assert ([[c] + parts[0]] + tail)[1..] == tail;
    }
  }

  lemma Assoc(a: string, b: string, c: string)
    ensures (a + b) + c == a + (b + c)
  {
  }

  lemma {:induction false} LastPart(s: string)
    requires s != "" && s[|s| - 1] == '/'
    ensures Split(s)[|Split(s)| - 1] == ""
  {
    var front := s[..|s| - 1];
    assert s == front + "/" + "";
    SplitAppend(front, "");
  }

  lemma SafeHasNoTrailingSlash(s: Path)
    requires Safe(s)
    ensures StripSlashes(s) == s && s != ""
  {
    if s != "" && s[|s| - 1] == '/' {
      LastPart(s);
    }
  }

  /** On safe paths the string test of the plan compiler is containment of path components. */
  lemma ContainsIsParent(left: Path, right: Path)
    requires Safe(left)
    ensures Contains(left, right) <==> IsParent(left, right)
  {
    SafeHasNoTrailingSlash(left);
    if Contains(left, right) {
      var rest := right[|left| + 1..];
      assert right == left + "/" + rest;
      SplitAppend(left, rest);
    }
    if IsParent(left, right) {
      var x, y := Split(left), Split(right)[|Split(left)|..];
      assert Split(right) == x + y;
      JoinAppend(x, y);
      JoinSplit(left);
      JoinSplit(right);
      assert right == left + "/" + Join(y);
    }
  }

  /** What contains a path comes strictly before it in sorted order. */
  lemma ContainerFirst(left: Path, right: Path)
    requires Safe(left) && Contains(left, right)
    ensures Le(left, right) && left != right
  {
    SafeHasNoTrailingSlash(left);
    PrefixFirst(left, right);
  }

  /** Two paths that contain the same path contain one another. */
  lemma SharedContainer(a: Path, b: Path, file: Path)
    requires Safe(a) && Safe(b)
    requires (a == file || Contains(a, file)) && (b == file || Contains(b, file))
    ensures a == b || Contains(a, b) || Contains(b, a)
  {
    ContainsIsParent(a, file);
    ContainsIsParent(b, file);
    ContainsIsParent(a, b);
    ContainsIsParent(b, a);
    JoinSplit(a);
    JoinSplit(b);
    var x, y, z := Split(a), Split(b), Split(file);
    assert x == z[..|x|] && y == z[..|y|];
    if |x| < |y| {
      assert x == y[..|x|];
    } else if |y| < |x| {
      assert y == x[..|y|];
    }
  }
}
