/** splitNonEmpty of internal/mcpserver/resources.go: the non-empty parts of a
    path between separators. */
module PathSplit {
  // ----- What the parts of a string are

  predicate Free(p: string, sep: char) {
    forall k | 0 <= k < |p| :: p[k] != sep
  }

  /** Where the run of non-separators that ends at n begins. */
  function RunStart(s: string, sep: char, n: nat): (start: nat)
    requires n <= |s|
    ensures start <= n && Free(s[start..n], sep)
    ensures start > 0 ==> s[start - 1] == sep
  {
    if n == 0 || s[n - 1] == sep then n
    else
      assert s[RunStart(s, sep, n - 1)..n] == s[RunStart(s, sep, n - 1)..n - 1] + [s[n - 1]];
      RunStart(s, sep, n - 1)
  }

  /** The parts of the first n characters. */
  function Parts(s: string, sep: char, n: nat): seq<string>
    requires n <= |s|
  {
    if n == 0 then []
    else if s[n - 1] == sep then Parts(s, sep, n - 1)
    else Parts(s, sep, RunStart(s, sep, n)) + [s[RunStart(s, sep, n)..n]]
  }

  function Split(s: string, sep: char): seq<string> {
    Parts(s, sep, |s|)
  }

  method SplitNonEmpty(s: string, sep: char) returns (out: seq<string>)
    ensures out == Split(s, sep)
  {
    out := [];
    var start := 0;
    for i := 0 to |s| + 1
      invariant i <= |s| ==> start == RunStart(s, sep, i) && out == Parts(s, sep, start)
      invariant i == |s| + 1 ==> out == Parts(s, sep, |s|)
    {
      if i == |s| || s[i] == sep {
        if i > start {
          out := out + [s[start..i]];
        }
        start := i + 1;
      }
    }
  }

  // ----- Joining

  function Seps(sep: char, n: nat): (r: string)
    ensures |r| == n && forall k | 0 <= k < n :: r[k] == sep
  {
    seq(n, _ => sep)
  }

  /** gaps[k] separators before part k, the last ones at the end; there is at
      least one between two parts. */
  predicate GapsFor(parts: seq<string>, gaps: seq<nat>) {
    |gaps| == |parts| + 1 && forall k | 0 < k < |parts| :: gaps[k] > 0
  }

  function Joined(parts: seq<string>, gaps: seq<nat>, sep: char): string
    requires |gaps| == |parts| + 1
  {
    var m := |parts|;
    if m == 0 then Seps(sep, gaps[0])
    else Joined(parts[..m - 1], gaps[..m], sep) + parts[m - 1] + Seps(sep, gaps[m])
  }

  predicate Proper(parts: seq<string>, sep: char) {
    forall k | 0 <= k < |parts| :: parts[k] != "" && Free(parts[k], sep)
  }

  lemma {:induction false} RunStartPrefix(s: string, t: string, sep: char, n: nat)
    requires n <= |s|
    ensures RunStart(s + t, sep, n) == RunStart(s, sep, n)
  {
    if n == 0 || s[n - 1] == sep {
    } else {
      RunStartPrefix(s, t, sep, n - 1);
    }
  }

  lemma {:induction false} PartsPrefix(s: string, t: string, sep: char, n: nat)
    requires n <= |s|
    ensures Parts(s + t, sep, n) == Parts(s, sep, n)
  {
    if n == 0 {
    } else if s[n - 1] == sep {
      PartsPrefix(s, t, sep, n - 1);
    } else {
      RunStartPrefix(s, t, sep, n);
      PartsPrefix(s, t, sep, RunStart(s, sep, n));
      assert (s + t)[RunStart(s, sep, n)..n] == s[RunStart(s, sep, n)..n];
    }
  }

  lemma {:induction false} TrailingSeps(s: string, sep: char, k: nat)
    ensures Parts(s + Seps(sep, k), sep, |s| + k) == Parts(s, sep, |s|)
  {
    if k == 0 {
      assert s + Seps(sep, 0) == s;
    } else {
      TrailingSeps(s, sep, k - 1);
      assert s + Seps(sep, k) == (s + Seps(sep, k - 1)) + [sep];
      PartsPrefix(s + Seps(sep, k - 1), [sep], sep, |s| + k - 1);
    }
  }

  lemma {:induction false} RunBack(s: string, sep: char, a: nat, n: nat)
    requires a <= n <= |s| && Free(s[a..n], sep) && (a > 0 ==> s[a - 1] == sep)
    ensures RunStart(s, sep, n) == a
  {
    if n == a {
    } else {
      assert s[n - 1] == s[a..n][n - 1 - a];
      assert s[a..n - 1] == s[a..n][..n - 1 - a];
      RunBack(s, sep, a, n - 1);
    }
  }

  lemma {:induction false} OnePartMore(s: string, p: string, sep: char)
    requires p != "" && Free(p, sep) && (s != "" ==> s[|s| - 1] == sep)
    ensures Parts(s + p, sep, |s| + |p|) == Parts(s, sep, |s|) + [p]
  {
    var t := s + p;
    assert t[|s|..|t|] == p;
    RunBack(t, sep, |s|, |t|);
    assert t[|t| - 1] == p[|p| - 1];
    PartsPrefix(s, p, sep, |s|);
  }

  lemma {:induction false} OnePartAndSeps(s: string, p: string, sep: char, k: nat)
    requires p != "" && Free(p, sep) && (s != "" ==> s[|s| - 1] == sep)
    ensures Split(s + p + Seps(sep, k), sep) == Split(s, sep) + [p]
  {
    OnePartMore(s, p, sep);
    TrailingSeps(s + p, sep, k);
  }

  lemma {:induction false} JoinedEnds(parts: seq<string>, gaps: seq<nat>, sep: char)
    requires GapsFor(parts, gaps)
    requires parts == [] || gaps[|parts|] > 0
    ensures var s := Joined(parts, gaps, sep); s != "" ==> s[|s| - 1] == sep
  {
    var m := |parts|;
    var s := Joined(parts, gaps, sep);
    if m > 0 {
      var seps := Seps(sep, gaps[m]);
      assert s[|s| - 1] == seps[|seps| - 1];
    }
  }

  lemma {:induction false} JoinedSnoc(parts: seq<string>, gaps: seq<nat>, sep: char)
    requires GapsFor(parts, gaps) && parts != []
    ensures var m := |parts|;
            var t := Joined(parts[..m - 1], gaps[..m], sep);
            && Joined(parts, gaps, sep) == t + parts[m - 1] + Seps(sep, gaps[m])
            && (t != "" ==> t[|t| - 1] == sep)
  {
    JoinedEnds(parts[..|parts| - 1], gaps[..|parts|], sep);
  }

  /** Splitting inverts joining, whatever the number of separators between,
      before and after the parts. */
  lemma {:induction false} JoinThenSplit(parts: seq<string>, gaps: seq<nat>, sep: char)
    requires GapsFor(parts, gaps) && Proper(parts, sep)
    ensures Split(Joined(parts, gaps, sep), sep) == parts
  {
    if parts == [] {
      TrailingSeps("", sep, gaps[0]);
      assert "" + Seps(sep, gaps[0]) == Seps(sep, gaps[0]);
    } else {
      var m := |parts|;
      var init, p := parts[..m - 1], parts[m - 1];
      JoinThenSplit(init, gaps[..m], sep);
      JoinedSnoc(parts, gaps, sep);
      OnePartAndSeps(Joined(init, gaps[..m], sep), p, sep, gaps[m]);
      assert parts == init + [p];
    }
  }

  // ----- Every string is its parts, joined

  lemma {:induction false} PartsProper(s: string, sep: char, n: nat)
    requires n <= |s|
    ensures Proper(Parts(s, sep, n), sep)
  {
    if n == 0 {
    } else if s[n - 1] == sep {
      PartsProper(s, sep, n - 1);
    } else {
      PartsProper(s, sep, RunStart(s, sep, n));
      RunIsNotEmpty(s, sep, n);
    }
  }

  lemma {:induction false} RunIsNotEmpty(s: string, sep: char, n: nat)
    requires 0 < n <= |s| && s[n - 1] != sep
    ensures RunStart(s, sep, n) < n
  {
  }

  /** s is the parts with these gaps. */
  predicate Spells(parts: seq<string>, gaps: seq<nat>, sep: char, s: string) {
    GapsFor(parts, gaps) && Joined(parts, gaps, sep) == s
  }

  /** A separator at the end widens the last gap. */
  lemma {:induction false} WidenLast(parts: seq<string>, gaps: seq<nat>, sep: char, s: string)
    requires Spells(parts, gaps, sep, s)
    ensures Spells(parts, gaps[|parts| := gaps[|parts|] + 1], sep, s + [sep])
  {
    var m := |parts|;
    var wider := gaps[m := gaps[m] + 1];
    assert Seps(sep, gaps[m] + 1) == Seps(sep, gaps[m]) + [sep];
    if m > 0 {
      assert wider[..m] == gaps[..m];
      var t := Joined(parts[..m - 1], gaps[..m], sep) + parts[m - 1];
      assert t + (Seps(sep, gaps[m]) + [sep]) == t + Seps(sep, gaps[m]) + [sep];
    }
  }

  lemma {:induction false} AddPart(parts: seq<string>, gaps: seq<nat>, sep: char, s: string, p: string)
    requires Spells(parts, gaps, sep, s) && (parts != [] ==> gaps[|parts|] > 0)
    ensures Spells(parts + [p], gaps + [0], sep, s + p)
  {
    var m := |parts|;
    assert (parts + [p])[..m] == parts && (gaps + [0])[..m + 1] == gaps;
    assert Joined(parts, gaps, sep) + p + Seps(sep, 0) == Joined(parts, gaps, sep) + p;
  }

  /** The gaps between the parts of the first n characters. */
  lemma {:induction false} GapsExist(s: string, sep: char, n: nat) returns (gaps: seq<nat>)
    requires n <= |s|
    ensures Spells(Parts(s, sep, n), gaps, sep, s[..n])
    ensures n > 0 && s[n - 1] == sep ==> gaps[|gaps| - 1] > 0
  {
    if n == 0 {
      gaps := [0];
    } else if s[n - 1] == sep {
      var before := GapsExist(s, sep, n - 1);
      gaps := before[|before| - 1 := before[|before| - 1] + 1];
      WidenLast(Parts(s, sep, n - 1), before, sep, s[..n - 1]);
      assert s[..n] == s[..n - 1] + [sep];
    } else {
      var a := RunStart(s, sep, n);
      RunIsNotEmpty(s, sep, n);
      var before := GapsExist(s, sep, a);
      gaps := before + [0];
      AddPart(Parts(s, sep, a), before, sep, s[..a], s[a..n]);
      assert s[..n] == s[..a] + s[a..n];
    }
  }

  /** The parts are non-empty, hold no separator, and with separators between,
      before and after them they make up the string: they are its maximal
      separator-free runs, in order. */
  lemma {:induction false} SplitThenJoin(s: string, sep: char)
    ensures var parts := Split(s, sep);
            Proper(parts, sep) && exists gaps :: Spells(parts, gaps, sep, s)
  {
    PartsProper(s, sep, |s|);
    var gaps := GapsExist(s, sep, |s|);
    assert s[..|s|] == s;
  }
}
