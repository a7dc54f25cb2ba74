/** The Python string operations the controllers rely on (`str.lower`,
    `str.replace`, `str.split`, `str.startswith`, `os.path.splitext`, and the
    ordering `sorted` uses on `str` keys), written out over `seq<char>`. */
module Text {

  predicate IsUpper(c: char) { 'A' <= c <= 'Z' }

  function LowerChar(c: char): (r: char)
    ensures !IsUpper(r)
    ensures !IsUpper(c) ==> r == c
  {
    if IsUpper(c) then (c as int + 32) as char else c
  }

  /** `s.lower()`, restricted to ASCII letters. */
  function Lower(s: string): (r: string)
    ensures |r| == |s|
    ensures forall i :: 0 <= i < |r| ==> r[i] == LowerChar(s[i])
  {
    seq(|s|, i requires 0 <= i < |s| => LowerChar(s[i]))
  }

  predicate IsLowerCase(s: string) { forall i :: 0 <= i < |s| ==> !IsUpper(s[i]) }

  lemma LowerIsLowerCase(s: string)
    ensures IsLowerCase(Lower(s))
    ensures IsLowerCase(s) ==> Lower(s) == s
  {
  }

  /** `s.replace(a, b)` for single characters `a` and `b`. */
  function ReplaceChar(s: string, a: char, b: char): (r: string)
    ensures |r| == |s|
    ensures forall i :: 0 <= i < |s| ==> r[i] == (if s[i] == a then b else s[i])
  {
    seq(|s|, i requires 0 <= i < |s| => if s[i] == a then b else s[i])
  }

  /** `s.startswith(p)`. */
  predicate StartsWith(s: string, p: string) { |p| <= |s| && s[..|p|] == p }

  /** `s.rfind(c)`: the index of the last occurrence of `c`, or -1. */
  function LastIndex(s: string, c: char): (r: int)
    ensures -1 <= r < |s|
    ensures r >= 0 ==> s[r] == c
    ensures forall j :: r < j < |s| ==> s[j] != c
  {
    if |s| == 0 then -1
    else if s[|s| - 1] == c then |s| - 1
    else LastIndex(s[..|s| - 1], c)
  }

  /** The last `c` of `a + [c] + b`, when `b` has none, is the one between. */
  lemma LastIndexAfter(a: string, b: string, c: char)
    requires c !in b
    ensures LastIndex(a + [c] + b, c) == |a|
  {
    var s := a + [c] + b;
    var r := LastIndex(s, c);
    assert s[|a|] == c;
    assert r >= |a|;
  }

  /** `s.split(c)` with an explicit one-character separator: the pieces
      between consecutive separators, empty pieces included; never empty. */
  function Split(s: string, c: char): (r: seq<string>)
    ensures |r| >= 1
  {
    if |s| == 0 then [""]
    else
      var init := Split(s[..|s| - 1], c);
      if s[|s| - 1] == c then init + [""]
      else init[..|init| - 1] + [init[|init| - 1] + [s[|s| - 1]]]
  }

  /** `c.join(parts)`. */
  function Join(parts: seq<string>, c: char): (r: string)
    requires |parts| >= 1
    decreases |parts|
  {
    if |parts| == 1 then parts[0]
    else Join(parts[..|parts| - 1], c) + [c] + parts[|parts| - 1]
  }

  /** Splitting and joining again gives the original string back, and no
      piece contains the separator. */
  lemma {:induction false} SplitJoin(s: string, c: char)
    ensures Join(Split(s, c), c) == s
    ensures forall k :: 0 <= k < |Split(s, c)| ==> c !in Split(s, c)[k]
    decreases |s|
  {
    if |s| > 0 {
      var init := Split(s[..|s| - 1], c);
      SplitJoin(s[..|s| - 1], c);
      var x := s[|s| - 1];
      if x == c {
        assert s == s[..|s| - 1] + [c];
      } else {
        var n := |init|;
        var init' := init[..n - 1] + [init[n - 1] + [x]];
        assert c !in init[n - 1] + [x];
        if n == 1 {
          assert s == s[..|s| - 1] + [x];
        } else {
          assert init'[..n - 1] == init[..n - 1];
          assert Join(init, c) == Join(init[..n - 1], c) + [c] + init[n - 1];
          assert s == Join(init[..n - 1], c) + [c] + init[n - 1] + [x];
        }
      }
    }
  }

  /** The last piece of `s.split(c)` is exactly what follows the last `c`. */
  lemma {:induction false} SplitLast(s: string, c: char)
    ensures Split(s, c)[|Split(s, c)| - 1] == s[LastIndex(s, c) + 1..]
    decreases |s|
  {
    if |s| == 0 {
      assert Split(s, c) == [""];
    } else if s[|s| - 1] == c {
      assert LastIndex(s, c) == |s| - 1;
      assert Split(s, c) == Split(s[..|s| - 1], c) + [""];
    } else {
      var t := s[..|s| - 1];
      var init := Split(t, c);
      SplitLast(t, c);
      var l := LastIndex(t, c);
      assert LastIndex(s, c) == l;
      assert Split(s, c) == init[..|init| - 1] + [init[|init| - 1] + [s[|s| - 1]]];
      assert t[l + 1..] + [s[|s| - 1]] == s[l + 1..];
    }
  }

  /** Without the separator, `s.split(c)` is the single piece `s`. */
  lemma {:induction false} SplitWithoutSeparator(s: string, c: char)
    requires LastIndex(s, c) < 0
    ensures Split(s, c) == [s]
    decreases |s|
  {
    if |s| > 0 {
      var t := s[..|s| - 1];
      SplitWithoutSeparator(t, c);
      assert t + [s[|s| - 1]] == s;
    }
  }

  /** Everything before the last separator splits as before, and what
      follows it is the final piece. */
  lemma {:induction false} SplitAtLast(s: string, c: char)
    requires LastIndex(s, c) >= 0
    ensures Split(s, c) == Split(s[..LastIndex(s, c)], c) + [s[LastIndex(s, c) + 1..]]
    decreases |s|
  {
    var t := s[..|s| - 1];
    var l := LastIndex(s, c);
    if s[|s| - 1] == c {
      assert l == |s| - 1;
      assert s[l + 1..] == "";
      assert s[..l] == t;
    } else {
      assert LastIndex(t, c) == l;
      SplitAtLast(t, c);
      var init := Split(t, c);
      assert init == Split(t[..l], c) + [t[l + 1..]];
      assert t[..l] == s[..l];
      assert t[l + 1..] + [s[|s| - 1]] == s[l + 1..];
    }
  }

  /** `os.path.splitext(p)` for POSIX paths: the extension runs from the last
      dot of the file name to the end, except that dots which begin the file
      name do not start an extension. */
  function Splitext(p: string): (r: (string, string))
    ensures r.0 + r.1 == p
    ensures r.1 == [] || (r.1[0] == '.' && '.' !in r.1[1..] && '/' !in r.1[1..])
  {
    var sep := LastIndex(p, '/');
    var dot := LastIndex(p, '.');
    if dot > sep && exists k :: sep + 1 <= k < dot && p[k] != '.' then
      assert p[..dot] + p[dot..] == p;
      (p[..dot], p[dot..])
    else (p, "")
  }

  /** Python's ordering of `str` values: the first differing character
      decides, and a proper prefix comes first. */
  predicate LessEq(a: string, b: string)
    decreases |a|
  {
    if |a| == 0 then true
    else if |b| == 0 then false
    else if a[0] != b[0] then a[0] < b[0]
    else LessEq(a[1..], b[1..])
  }

  lemma {:induction false} LessEqReflexive(a: string)
    ensures LessEq(a, a)
    decreases |a|
  {
    if |a| > 0 {
      LessEqReflexive(a[1..]);
    }
  }

  lemma {:induction false} LessEqTotal(a: string, b: string)
    ensures LessEq(a, b) || LessEq(b, a)
    decreases |a|
  {
    if |a| > 0 && |b| > 0 && a[0] == b[0] {
      LessEqTotal(a[1..], b[1..]);
    }
  }

  lemma {:induction false} LessEqTransitive(a: string, b: string, c: string)
    requires LessEq(a, b) && LessEq(b, c)
    ensures LessEq(a, c)
    decreases |a|
  {
    if |a| > 0 && |b| > 0 && |c| > 0 && a[0] == b[0] && b[0] == c[0] {
      LessEqTransitive(a[1..], b[1..], c[1..]);
    }
  }
}
