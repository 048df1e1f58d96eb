/** String helpers used by the URL composer and the availability test. */
module Text {

  predicate StartsWith(s: string, prefix: string) {
    |prefix| <= |s| && s[..|prefix|] == prefix
  }

  predicate EndsWith(s: string, suffix: string) {
    |suffix| <= |s| && s[|s| - |suffix|..] == suffix
  }

  /** A common prefix keeps a prefix relation. */
  lemma StartsWithAppend(a: string, t: string, h: string)
    requires StartsWith(t, h)
    ensures StartsWith(a + t, a) && StartsWith(a + t, a + h)
  {
    assert (a + t)[..|a|] == a;
    assert (a + t)[..|a + h|] == a + t[..|h|];
  }

  /** `t` occurs in `s` starting at index `i`. */
  predicate OccursAt(s: string, t: string, i: int) {
    0 <= i <= |s| - |t| && s[i..i + |t|] == t
  }

  /** Foundation's `String.contains`: some window of `s` spells `t`. */
  predicate Contains(s: string, t: string) {
    exists i | 0 <= i <= |s| - |t| :: OccursAt(s, t, i)
  }

  lemma StartsWithContains(s: string, t: string)
    requires StartsWith(s, t)
    ensures Contains(s, t)
  {
    assert OccursAt(s, t, 0);
  }

  /** The pieces of `s` between occurrences of `d`, in order (the way a
      query string falls apart at `&`). */
  function SplitOn(s: string, d: char): (parts: seq<string>)
    ensures |parts| >= 1
    ensures forall k | 0 <= k < |parts| :: d !in parts[k]
  {
    if s == [] then [[]]
    else
      var rest := SplitOn(s[1..], d);
      if s[0] == d then [[]] + rest else [[s[0]] + rest[0]] + rest[1..]
  }

  /** Glues pieces back together with `d` between neighbours. */
  function Join(parts: seq<string>, d: char): string {
    if |parts| <= 1 then (if parts == [] then [] else parts[0])
    else parts[0] + [d] + Join(parts[1..], d)
  }

  /** Splitting loses nothing: joining the pieces gives back the string. */
  lemma {:induction false} JoinSplit(s: string, d: char)
    ensures Join(SplitOn(s, d), d) == s
  {
    if s != [] {
      var rest := SplitOn(s[1..], d);
      JoinSplit(s[1..], d);
      if s[0] == d {
        assert SplitOn(s, d) == [[]] + rest;
        assert ([[]] + rest)[1..] == rest;
        assert s == [] + [d] + s[1..];
      } else if |rest| == 1 {
        assert SplitOn(s, d) == [[s[0]] + rest[0]];
        assert s == [s[0]] + s[1..];
      } else {
        var parts := SplitOn(s, d);
        assert parts == [[s[0]] + rest[0]] + rest[1..];
        assert parts[1..] == rest[1..];
        assert Join(rest, d) == rest[0] + [d] + Join(rest[1..], d);
        assert s == [s[0]] + s[1..];
      }
    }
  }

  /** A string free of `d` is one piece. */
  lemma {:induction false} SplitWithoutSeparator(a: string, d: char)
    requires d !in a
    ensures SplitOn(a, d) == [a]
  {
    if a != [] {
      assert d !in a[1..];
      SplitWithoutSeparator(a[1..], d);
      assert [a[0]] + a[1..] == a;
    }
  }

  /** A leading piece free of `d`, followed by `d`, is split off whole. */
  lemma {:induction false} SplitAfterSeparator(a: string, b: string, d: char)
    requires d !in a
    ensures SplitOn(a + [d] + b, d) == [a] + SplitOn(b, d)
  {
    var s := a + [d] + b;
    if a == [] {
      assert s[0] == d && s[1..] == b;
    } else {
      assert s[0] == a[0] && s[1..] == a[1..] + [d] + b;
      assert d !in a[1..];
      SplitAfterSeparator(a[1..], b, d);
      assert [a[0]] + a[1..] == a;
    }
  }

  /** Splitting is the inverse of joining pieces that are free of `d`. */
  lemma {:induction false} SplitJoin(parts: seq<string>, d: char)
    requires |parts| >= 1
    requires forall k | 0 <= k < |parts| :: d !in parts[k]
    ensures SplitOn(Join(parts, d), d) == parts
  {
    if |parts| == 1 {
      SplitWithoutSeparator(parts[0], d);
    } else {
      SplitJoin(parts[1..], d);
      SplitAfterSeparator(parts[0], Join(parts[1..], d), d);
      assert [parts[0]] + parts[1..] == parts;
    }
  }

  /** Joining one more piece appends `d` and that piece. */
  lemma {:induction false} JoinAppend(parts: seq<string>, x: string, d: char)
    requires |parts| >= 1
    ensures Join(parts + [x], d) == Join(parts, d) + [d] + x
  {
    if |parts| == 1 {
      assert parts + [x] == [parts[0], x];
      assert ([parts[0], x])[1..] == [x];
    } else {
      JoinAppend(parts[1..], x, d);
      assert (parts + [x])[1..] == parts[1..] + [x];
    }
  }

  /** `JoinAppend` with the separator and the new piece taken together. */
  lemma JoinOneMore(parts: seq<string>, x: string, d: char)
    requires |parts| >= 1
    ensures Join(parts, d) + ([d] + x) == Join(parts + [x], d)
  {
    JoinAppend(parts, x, d);
    assert Join(parts, d) + ([d] + x) == Join(parts, d) + [d] + x;
  }
}
