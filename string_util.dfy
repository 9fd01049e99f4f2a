/**
 * Joining strings with a separator between consecutive elements, and the
 * splitting that undoes it.
 */
module StringUtil {

  /** The elements of `parts` in order, with `sep` between each consecutive pair. */
  function Join(parts: seq<string>, sep: string): string
  {
    if |parts| == 0 then ""
    else if |parts| == 1 then parts[0]
    else Join(parts[..|parts| - 1], sep) + sep + parts[|parts| - 1]
  }

  /** The pieces of `s` between occurrences of `c` (one piece when `c` does not occur). */
  function Split(s: string, c: char): (pieces: seq<string>)
    ensures |pieces| > 0
  {
    if |s| == 0 then [""]
    else
      var earlier := Split(s[..|s| - 1], c);
      if s[|s| - 1] == c then earlier + [""]
      else earlier[..|earlier| - 1] + [earlier[|earlier| - 1] + [s[|s| - 1]]]
  }

  /** Joining a single element gives that element back. */
  lemma JoinSingle(part: string, sep: string)
    ensures Join([part], sep) == part
  {}

  /** A string without the separator is one piece. */
  lemma {:induction false} SplitWithoutSeparator(s: string, c: char)
    requires c !in s
    ensures Split(s, c) == [s]
    decreases |s|
  {
    if |s| > 0 {
      SplitWithoutSeparator(s[..|s| - 1], c);
      assert s[..|s| - 1] + [s[|s| - 1]] == s;
    }
  }

  /** Text after the last separator becomes the last piece. */
  lemma {:induction false} SplitAfterSeparator(a: string, c: char, b: string)
    requires c !in b
    ensures Split(a + [c] + b, c) == Split(a, c) + [b]
    decreases |b|
  {
    var s := a + [c] + b;
    if |b| == 0 {
      assert s[..|s| - 1] == a;
    } else {
      var b' := b[..|b| - 1];
      assert s[..|s| - 1] == a + [c] + b';
      assert b' + [b[|b| - 1]] == b;
      SplitAfterSeparator(a, c, b');
    }
  }

  /**
   * Splitting a join at its one-character separator recovers the parts, provided
   * there is at least one part and none contains the separator.
   */
  lemma {:induction false} SplitJoin(parts: seq<string>, c: char)
    requires |parts| > 0
    requires forall i :: 0 <= i < |parts| ==> c !in parts[i]
    ensures Split(Join(parts, [c]), c) == parts
    decreases |parts|
  {
    if |parts| == 1 {
      SplitWithoutSeparator(parts[0], c);
    } else {
      var init := parts[..|parts| - 1];
      SplitJoin(init, c);
      SplitAfterSeparator(Join(init, [c]), c, parts[|parts| - 1]);
      assert init + [parts[|parts| - 1]] == parts;
    }
  }
}
