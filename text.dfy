/**
 * Joining strings with a separator (`string.Join`, and the separators the
 * StringBuilder loops append between items) and splitting a string on a
 * separator character, the inverse used to state what a joined string holds.
 */
module Text {

  /** `parts` with `sep` between consecutive parts and nowhere else. */
  function Join(parts: seq<string>, sep: string): string
  {
    if |parts| == 0 then ""
    else if |parts| == 1 then parts[0]
    else Join(parts[..|parts| - 1], sep) + sep + parts[|parts| - 1]
  }

  /** Joining one more part appends it, after a separator unless it is the first. */
  lemma JoinStep(parts: seq<string>, sep: string, x: string)
    ensures Join(parts + [x], sep) == Join(parts, sep) + (if |parts| > 0 then sep else "") + x
  {
    assert (parts + [x])[..|parts|] == parts;
  }

  /** The position of the last occurrence of `c` in `s`. */
  function LastIndex(s: string, c: char): (i: nat)
    requires c in s
    ensures i < |s| && s[i] == c && c !in s[i + 1..]
  {
    if s[|s| - 1] == c then |s| - 1
    else
      assert c in s[..|s| - 1] by {
        var j :| 0 <= j < |s| && s[j] == c;
        assert s[..|s| - 1][j] == c;
      }
      var i := LastIndex(s[..|s| - 1], c);
      assert s[i + 1..] == s[..|s| - 1][i + 1..] + [s[|s| - 1]];
      i
  }

  /** The last occurrence is the one with no occurrence after it. */
  lemma LastIndexAt(s: string, c: char, k: nat)
    requires k < |s| && s[k] == c && c !in s[k + 1..]
    ensures c in s && LastIndex(s, c) == k
  {
    assert c in s by { assert s[k] == c; }
    var i := LastIndex(s, c);
  }

  /** The pieces of `s` between occurrences of `sep`, in order; at least one piece. */
  function Split(s: string, sep: char): (pieces: seq<string>)
    ensures |pieces| >= 1
    decreases |s|
  {
    if sep !in s then [s]
    else
      var i := LastIndex(s, sep);
      Split(s[..i], sep) + [s[i + 1..]]
  }

  /** Splitting a joined list on its one-character separator gives the list back. */
  lemma {:induction false} SplitJoin(parts: seq<string>, sep: char)
    requires |parts| >= 1
    requires forall k :: 0 <= k < |parts| ==> sep !in parts[k]
    ensures Split(Join(parts, [sep]), sep) == parts
  {
    var n := |parts|;
    if n > 1 {
      var init := parts[..n - 1];
      var j := Join(init, [sep]);
      var s := j + [sep] + parts[n - 1];
      assert s[|j|] == sep && s[|j| + 1..] == parts[n - 1];
      LastIndexAt(s, sep, |j|);
      var i := |j|;
      assert s[..i] == j;
      assert s[i + 1..] == parts[n - 1];
      SplitJoin(init, sep);
      assert init + [parts[n - 1]] == parts;
    }
  }

  /** No piece of a split holds the separator. */
  lemma {:induction false} SplitPiecesExclude(s: string, sep: char)
    ensures forall k :: 0 <= k < |Split(s, sep)| ==> sep !in Split(s, sep)[k]
    decreases |s|
  {
    if sep in s {
      var i := LastIndex(s, sep);
      SplitPiecesExclude(s[..i], sep);
    }
  }

  /** Joining the pieces of a split with the separator gives the string back. */
  lemma {:induction false} JoinSplit(s: string, sep: char)
    ensures Join(Split(s, sep), [sep]) == s
    decreases |s|
  {
    if sep in s {
      var i := LastIndex(s, sep);
      var init := Split(s[..i], sep);
      JoinSplit(s[..i], sep);
      JoinStep(init, [sep], s[i + 1..]);
      assert s[..i] + [sep] + s[i + 1..] == s;
    }
  }

  /** A character in no part of either list is in no part of their concatenation. */
  lemma ConcatExcludes(a: seq<string>, b: seq<string>, c: char)
    requires forall k :: 0 <= k < |a| ==> c !in a[k]
    requires forall k :: 0 <= k < |b| ==> c !in b[k]
    ensures forall k :: 0 <= k < |a + b| ==> c !in (a + b)[k]
  {
    forall k | 0 <= k < |a + b| ensures c !in (a + b)[k] {
      if k < |a| {
        assert (a + b)[k] == a[k];
      } else {
        assert (a + b)[k] == b[k - |a|];
      }
    }
  }

  /** A character in none of the parts and not in the separator is not in the join. */
  lemma {:induction false} JoinExcludes(parts: seq<string>, sep: string, c: char)
    requires c !in sep
    requires forall k :: 0 <= k < |parts| ==> c !in parts[k]
    ensures c !in Join(parts, sep)
  {
    if |parts| > 1 {
      JoinExcludes(parts[..|parts| - 1], sep, c);
    }
  }
}
