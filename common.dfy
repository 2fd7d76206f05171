/** Shared vocabulary of the model: optional values, how a Python step ends,
    and the string and path helpers the scripts use (str.startswith,
    str.endswith, slicing, str.join, str.split, os.path.join/dirname/basename). */
module Common {

  type Path = string

  datatype Option<T> = None | Some(value: T)

  /** How a step that does not return normally ends: `sys.exit(code)`, or an
      exception named `exc` that escapes (the interpreter then exits with 1). */
  datatype Failure = Exit(code: int) | Raise(exc: string)

  /** A step that returns nothing (Python `None`) or fails. */
  datatype Status = Ok | Fail(failure: Failure)

  /** A step that returns a value or fails. */
  datatype Outcome<T> = Done(value: T) | Failed(failure: Failure)

  const ExitOne: Status := Fail(Exit(1))

  /** No element occurs twice. */
  predicate Distinct<T(==)>(s: seq<T>)
  {
    forall i, j :: 0 <= i < j < |s| ==> s[i] != s[j]
  }

  function Min(a: int, b: int): int { if a <= b then a else b }

  predicate StartsWith(s: string, prefix: string)
  {
    |prefix| <= |s| && s[..|prefix|] == prefix
  }

  predicate EndsWith(s: string, suffix: string)
  {
    |suffix| <= |s| && s[|s| - |suffix|..] == suffix
  }

  /** A concatenation starts with its first part and ends with its second. */
  lemma ConcatAffixes(x: string, y: string)
    ensures StartsWith(x + y, x)
    ensures EndsWith(x + y, y)
  {
    assert (x + y)[..|x|] == x;
    assert (x + y)[|x|..] == y;
  }

  /** Python's `s[0:n]`: the slice is clamped to the string. */
  function Take(s: string, n: nat): (r: string)
    ensures |r| == Min(n, |s|)
    ensures StartsWith(s, r)
  {
    if n <= |s| then s[..n] else s
  }

  /** Python's `s[-n:]`: the last `n` characters, or all of a shorter string. */
  function Last(s: string, n: nat): (r: string)
    ensures |r| == Min(n, |s|)
    ensures EndsWith(s, r)
  {
    if n <= |s| then s[|s| - n..] else s
  }

  /** `sep.join(parts)`. */
  function Join(sep: string, parts: seq<string>): string
  {
    if |parts| == 0 then ""
    else if |parts| == 1 then parts[0]
    else parts[0] + sep + Join(sep, parts[1..])
  }

  /** `s.split(c)` for a one-character separator: never an empty list. */
  function Split(s: string, c: char): (r: seq<string>)
    ensures |r| >= 1
  {
    if s == [] then [""]
    else if s[0] == c then [""] + Split(s[1..], c)
    else
      var rest := Split(s[1..], c);
      [[s[0]] + rest[0]] + rest[1..]
  }

  /** Splitting a piece that holds no separator and then the rest. */
  lemma {:induction false} SplitAfterPiece(p: string, c: char, rest: string)
    requires c !in p
    ensures Split(p + [c] + rest, c) == [p] + Split(rest, c)
  {
    if p == [] {
      assert p + [c] + rest == [c] + rest;
      assert ([c] + rest)[1..] == rest;
    } else {
      SplitAfterPiece(p[1..], c, rest);
      assert (p + [c] + rest)[1..] == p[1..] + [c] + rest;
      assert [p[0]] + p[1..] == p;
    }
  }

  lemma {:induction false} SplitNoSeparator(p: string, c: char)
    requires c !in p
    ensures Split(p, c) == [p]
  {
    if p != [] {
      SplitNoSeparator(p[1..], c);
      assert [p[0]] + p[1..] == p;
    }
  }

  /** Joining with a one-character separator and splitting again gives the
      parts back, as long as no part holds the separator. */
  lemma {:induction false} SplitJoin(parts: seq<string>, c: char)
    requires |parts| >= 1
    requires forall i :: 0 <= i < |parts| ==> c !in parts[i]
    ensures Split(Join([c], parts), c) == parts
  {
    if |parts| == 1 {
      SplitNoSeparator(parts[0], c);
    } else {
      SplitJoin(parts[1..], c);
      SplitAfterPiece(parts[0], c, Join([c], parts[1..]));
      assert [parts[0]] + parts[1..] == parts;
    }
  }

  /** The text after the last `c`, or all of `s` when it holds none
      (Python's `s.split(c)[-1]`, and `os.path.basename` for '/'). */
  function AfterLast(s: string, c: char): (r: string)
    ensures |r| <= |s|
    ensures c !in r
  {
    if s == [] then []
    else if s[|s| - 1] == c then []
    else AfterLast(s[..|s| - 1], c) + [s[|s| - 1]]
  }

  /** The text before the last `c`, or "" when `s` holds none
      (`os.path.dirname` for '/'). */
  function BeforeLast(s: string, c: char): (r: string)
    ensures s != [] ==> |r| < |s|
  {
    if s == [] then []
    else if s[|s| - 1] == c then s[..|s| - 1]
    else BeforeLast(s[..|s| - 1], c)
  }

  lemma {:induction false} LastPiece(a: string, c: char, b: string)
    requires c !in b
    ensures AfterLast(a + [c] + b, c) == b
    ensures BeforeLast(a + [c] + b, c) == a
  {
    var s := a + [c] + b;
    if b == [] {
      assert s[..|s| - 1] == a;
    } else {
      var b' := b[..|b| - 1];
      LastPiece(a, c, b');
      assert s[..|s| - 1] == a + [c] + b';
      assert b' + [b[|b| - 1]] == b;
    }
  }

  /** A string holding `c` is the text before its last `c`, that `c`, and the
      text after it. */
  lemma {:induction false} SplitAtLast(s: string, c: char)
    requires c in s
    ensures s == BeforeLast(s, c) + [c] + AfterLast(s, c)
  {
    var init := s[..|s| - 1];
    assert s == init + [s[|s| - 1]];
    if s[|s| - 1] != c {
      assert c in init;
      SplitAtLast(init, c);
    }
  }

  lemma {:induction false} NoSeparator(s: string, c: char)
    requires c !in s
    ensures AfterLast(s, c) == s
    ensures BeforeLast(s, c) == ""
  {
    if s != [] {
      NoSeparator(s[..|s| - 1], c);
      assert s[..|s| - 1] + [s[|s| - 1]] == s;
    }
  }

  /** `os.path.join(a, b)` over plain relative names. */
  function PathJoin(a: Path, b: Path): Path
  {
    if a == "" then b else a + "/" + b
  }

  /** Each name joined onto `dir`, in order. */
  function Prefixed(dir: Path, files: seq<Path>): (r: seq<Path>)
    ensures |r| == |files|
    ensures forall i :: 0 <= i < |files| ==> r[i] == PathJoin(dir, files[i])
  {
    if files == [] then [] else [PathJoin(dir, files[0])] + Prefixed(dir, files[1..])
  }

  /** Joining different names onto one directory gives different paths. */
  lemma PrefixedDistinct(dir: Path, names: seq<Path>)
    requires Distinct(names)
    ensures Distinct(Prefixed(dir, names))
  {
    var ps := Prefixed(dir, names);
    forall i, j | 0 <= i < j < |ps| ensures ps[i] != ps[j] {
      if dir != "" {
        assert ps[i][|dir| + 1..] == names[i];
        assert ps[j][|dir| + 1..] == names[j];
      }
    }
  }

  /** The directory of the scripts themselves (`os.path.dirname(__file__)`).
      `__file__` is an absolute path, so this is one too; where the
      repository is checked out does not matter to the model. */
  const LlmDir: Path := "/nai-llm/llm"

  function Dirname(p: Path): Path { BeforeLast(p, '/') }

  function Basename(p: Path): Path { AfterLast(p, '/') }

  /** dirname and basename take a joined path apart again. */
  lemma JoinParts(a: Path, b: Path)
    requires '/' !in b
    ensures Dirname(PathJoin(a, b)) == a
    ensures Basename(PathJoin(a, b)) == b
  {
    if a == "" {
      NoSeparator(b, '/');
    } else {
      LastPiece(a, '/', b);
    }
  }

  /** Decimal rendering of an integer, as Python's `str(n)` / f-string. */
  function NatToString(n: nat): (r: string)
    ensures |r| >= 1
    decreases n
  {
    var d := ['0', '1', '2', '3', '4', '5', '6', '7', '8', '9'][n % 10];
    if n < 10 then [d] else NatToString(n / 10) + [d]
  }

  function IntToString(n: int): string
  {
    if n < 0 then "-" + NatToString(-n) else NatToString(n)
  }
}
