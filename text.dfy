/**
 * Sequence and string helpers standing for the JavaScript built-ins the
 * gateway calls: `Array.prototype.some` and `String.prototype.split` with a
 * one-character separator. Prefix tests (`startsWith`) use Dafny's `<=`.
 */
module Text {

  /** `xs.some(p)`: scans left to right and stops at the first hit. */
  function Any<T>(xs: seq<T>, p: T -> bool): bool
  {
    if xs == [] then false else p(xs[0]) || Any(xs[1..], p)
  }

  /** The scan finds a hit exactly when some element satisfies the predicate. */
  lemma {:induction false} AnyIsExists<T>(xs: seq<T>, p: T -> bool)
    ensures Any(xs, p) <==> exists i :: 0 <= i < |xs| && p(xs[i])
  {
    if xs != [] {
      AnyIsExists(xs[1..], p);
      if p(xs[0]) {
        assert p(xs[0]);
      } else if exists i :: 0 <= i < |xs| && p(xs[i]) {
        var i :| 0 <= i < |xs| && p(xs[i]);
        assert i != 0;
        assert xs[1..][i - 1] == xs[i];
      }
      if exists i :: 0 <= i < |xs[1..]| && p(xs[1..][i]) {
        var i :| 0 <= i < |xs[1..]| && p(xs[1..][i]);
        assert xs[i + 1] == xs[1..][i];
      }
    }
  }

  /** `s.split(sep)` for a one-character separator: always at least one part. */
  function Split(s: string, sep: char): (parts: seq<string>)
    ensures |parts| >= 1
    ensures forall i :: 0 <= i < |parts| ==> sep !in parts[i]
    decreases |s|
  {
    if s == [] then [""]
    else
      var rest := Split(s[1..], sep);
      if s[0] == sep then [""] + rest
      else [[s[0]] + rest[0]] + rest[1..]
  }

  /** `parts.join(sep)`, the inverse of `Split`. */
  function Join(parts: seq<string>, sep: char): string
    requires |parts| >= 1
    decreases |parts|
  {
    if |parts| == 1 then parts[0] else parts[0] + [sep] + Join(parts[1..], sep)
  }

  /** Splitting loses nothing: joining the parts with the separator gives the input back. */
  lemma {:induction false} JoinSplit(s: string, sep: char)
    ensures Join(Split(s, sep), sep) == s
    decreases |s|
  {
    if s != [] {
      var rest := Split(s[1..], sep);
      JoinSplit(s[1..], sep);
      if s[0] == sep {
        var parts := [""] + rest;
        assert parts[1..] == rest;
        assert Join(parts, sep) == "" + [sep] + Join(rest, sep);
        assert s == [s[0]] + s[1..];
      } else {
        var parts := [[s[0]] + rest[0]] + rest[1..];
        if |rest| == 1 {
          assert Join(parts, sep) == [s[0]] + rest[0];
        } else {
          assert parts[1..] == rest[1..];
          assert Join(parts, sep) == ([s[0]] + rest[0]) + [sep] + Join(rest[1..], sep);
          assert Join(rest, sep) == rest[0] + [sep] + Join(rest[1..], sep);
        }
        assert s == [s[0]] + s[1..];
      }
    }
  }

  /** A string without the separator splits into itself alone. */
  lemma {:induction false} SplitWithoutSeparator(s: string, sep: char)
    requires sep !in s
    ensures Split(s, sep) == [s]
    decreases |s|
  {
    if s != [] {
      assert sep !in s[1..];
      SplitWithoutSeparator(s[1..], sep);
      assert s == [s[0]] + s[1..];
    }
  }

  /**
   * The first part runs up to the first separator: it is the whole string
   * when there is none, and otherwise it is followed by the separator.
   */
  lemma {:induction false} SplitFirstPart(s: string, sep: char)
    ensures Split(s, sep)[0] == s || Split(s, sep)[0] + [sep] <= s
    decreases |s|
  {
    if s != [] {
      SplitFirstPart(s[1..], sep);
      assert s == [s[0]] + s[1..];
    }
  }
}
