/** The JavaScript string operations the client relies on: `indexOf`,
    `includes`, `replace` with a string pattern, `split` with a string
    separator, `toLowerCase`, and string concatenation of chunks. */
module Strings {

  /** `pat` occurs in `s` starting at index `i`. */
  predicate OccursAt(s: string, pat: string, i: int)
  {
    0 <= i && i + |pat| <= |s| && s[i..i + |pat|] == pat
  }

  /** `s.indexOf(pat)`: the first index at which `pat` occurs, or -1. */
  function IndexOf(s: string, pat: string): (r: int)
    ensures r == -1 || OccursAt(s, pat, r)
    ensures r >= 0 ==> forall j :: 0 <= j < r ==> !OccursAt(s, pat, j)
    ensures r == -1 ==> forall j :: !OccursAt(s, pat, j)
  {
    IndexFrom(s, pat, 0)
  }

  function IndexFrom(s: string, pat: string, i: nat): (r: int)
    requires i <= |s|
    requires forall j :: 0 <= j < i ==> !OccursAt(s, pat, j)
    ensures r == -1 || (i <= r && OccursAt(s, pat, r))
    ensures r >= 0 ==> forall j :: 0 <= j < r ==> !OccursAt(s, pat, j)
    ensures r == -1 ==> forall j :: !OccursAt(s, pat, j)
    decreases |s| - i
  {
    if i + |pat| > |s| then -1
    else if s[i..i + |pat|] == pat then i
    else IndexFrom(s, pat, i + 1)
  }

  /** `s.includes(pat)`, also `s.indexOf(pat) !== -1`. */
  predicate Contains(s: string, pat: string)
  {
    IndexOf(s, pat) >= 0
  }

  /** `s.replace(pat, rep)` with a string pattern: only the first occurrence is replaced. */
  function ReplaceFirst(s: string, pat: string, rep: string): (r: string)
    ensures !Contains(s, pat) ==> r == s
    ensures Contains(s, pat) ==> |r| == |s| - |pat| + |rep| && r[..IndexOf(s, pat)] == s[..IndexOf(s, pat)]
  {
    var i := IndexOf(s, pat);
    if i < 0 then s else s[..i] + rep + s[i + |pat|..]
  }

  /** `s.split(sep)` with a non-empty string separator. */
  function SplitOn(s: string, sep: string): (parts: seq<string>)
    requires |sep| > 0
    ensures |parts| > 0
    ensures forall k :: 0 <= k < |parts| ==> !Contains(parts[k], sep)
    decreases |s|
  {
    var i := IndexOf(s, sep);
    if i < 0 then [s]
    else
      PrefixBeforeFirst(s, sep, i);
      [s[..i]] + SplitOn(s[i + |sep|..], sep)
  }

  /** The text before the first occurrence of a pattern does not contain it. */
  lemma PrefixBeforeFirst(s: string, pat: string, i: int)
    requires |pat| > 0 && 0 <= i <= |s|
    requires forall j :: 0 <= j < i ==> !OccursAt(s, pat, j)
    ensures !Contains(s[..i], pat)
  {
    if Contains(s[..i], pat) {
      var j := IndexOf(s[..i], pat);
      assert s[..i][j..j + |pat|] == s[j..j + |pat|];
      assert OccursAt(s, pat, j);
      assert false;
    }
  }

  /** `parts.join(sep)`. */
  function Join(parts: seq<string>, sep: string): string
  {
    if |parts| == 0 then ""
    else if |parts| == 1 then parts[0]
    else parts[0] + sep + Join(parts[1..], sep)
  }

  /** Splitting and joining again with the same separator gives back the text. */
  lemma {:induction false} SplitJoin(s: string, sep: string)
    requires |sep| > 0
    ensures Join(SplitOn(s, sep), sep) == s
    decreases |s|
  {
    var i := IndexOf(s, sep);
    if i >= 0 {
      var rest := s[i + |sep|..];
      SplitJoin(rest, sep);
      assert SplitOn(s, sep) == [s[..i]] + SplitOn(rest, sep);
      assert s == s[..i] + s[i..i + |sep|] + rest;
    }
  }

  /** A one-character pattern occurs exactly where that character stands. */
  lemma OccursAtChar(s: string, c: char, j: int)
    ensures OccursAt(s, [c], j) <==> 0 <= j < |s| && s[j] == c
  {
    if 0 <= j < |s| && s[j] == c {
      assert s[j..j + 1] == [c];
    }
  }

  /** A text contains a one-character pattern iff the character occurs in it. */
  lemma ContainsChar(s: string, c: char)
    ensures Contains(s, [c]) <==> c in s
  {
    if c in s {
      var j :| 0 <= j < |s| && s[j] == c;
      OccursAtChar(s, c, j);
    } else {
      IndexOfAbsentChar(s, c);
    }
  }

  lemma IndexOfAbsentChar(s: string, c: char)
    requires c !in s
    ensures IndexOf(s, [c]) == -1
  {
    var i := IndexOf(s, [c]);
    if i >= 0 {
      OccursAtChar(s, c, i);
    }
  }

  /** A text without the separator character splits into itself. */
  lemma SplitNoSeparator(s: string, c: char)
    requires c !in s
    ensures SplitOn(s, [c]) == [s]
  {
    IndexOfAbsentChar(s, c);
  }

  /** Splitting at the first separator character peels off the text before it. */
  lemma SplitAtFirst(l: string, c: char, r: string)
    requires c !in l
    ensures SplitOn(l + [c] + r, [c]) == [l] + SplitOn(r, [c])
  {
    var s := l + [c] + r;
    OccursAtChar(s, c, |l|);
    forall j | 0 <= j < |l| ensures !OccursAt(s, [c], j) {
      OccursAtChar(s, c, j);
      assert s[j] == l[j];
    }
    assert s[..|l|] == l;
    assert s[|l| + 1..] == r;
  }

  /** The part before the first separator character. */
  lemma FirstPartBeforeSeparator(s: string, c: char)
    ensures |SplitOn(s, [c])[0]| <= |s|
    ensures SplitOn(s, [c])[0] == s[..|SplitOn(s, [c])[0]|]
    ensures c !in SplitOn(s, [c])[0]
    ensures |SplitOn(s, [c])[0]| < |s| ==> s[|SplitOn(s, [c])[0]|] == c
  {
    var i := IndexOf(s, [c]);
    if i >= 0 {
      OccursAtChar(s, c, i);
      forall j | 0 <= j < i ensures s[j] != c {
        OccursAtChar(s, c, j);
      }
    } else {
      forall j | 0 <= j < |s| ensures s[j] != c {
        OccursAtChar(s, c, j);
      }
    }
  }

  /** A pattern at the very start is found at index 0. */
  lemma IndexOfAtStart(pat: string, rest: string)
    ensures IndexOf(pat + rest, pat) == 0
  {
    assert OccursAt(pat + rest, pat, 0) by {
      assert (pat + rest)[..|pat|] == pat;
    }
  }

  /** The first occurrence of a single character that stands right after a text without it. */
  lemma IndexOfCharAfter(l: string, c: char, r: string)
    requires c !in l
    ensures IndexOf(l + [c] + r, [c]) == |l|
  {
    var s := l + [c] + r;
    OccursAtChar(s, c, |l|);
    forall j | 0 <= j < |l| ensures !OccursAt(s, [c], j) {
      OccursAtChar(s, c, j);
      assert s[j] == l[j];
    }
  }

  predicate IsUpper(c: char)
  {
    'A' <= c <= 'Z'
  }

  /** ASCII case mapping of one character. */
  function LowerChar(c: char): char
  {
    if IsUpper(c) then (c as int + 32) as char else c
  }

  /** `s.toLowerCase()` on ASCII letters. */
  function ToLower(s: string): (r: string)
    ensures |r| == |s|
    ensures forall i :: 0 <= i < |s| ==> r[i] == LowerChar(s[i])
  {
    seq(|s|, i requires 0 <= i < |s| => LowerChar(s[i]))
  }

  /** Lower-casing twice is lower-casing once. */
  lemma ToLowerIdempotent(s: string)
    ensures ToLower(ToLower(s)) == ToLower(s)
  {
  }

  /** Chunks appended one after another: `buffer += chunk` for each chunk in order. */
  function Concat(chunks: seq<string>): string
  {
    if chunks == [] then "" else Concat(chunks[..|chunks| - 1]) + chunks[|chunks| - 1]
  }

  lemma {:induction false} ConcatAppend(a: seq<string>, b: seq<string>)
    ensures Concat(a + b) == Concat(a) + Concat(b)
    decreases |b|
  {
    if b == [] {
      assert a + b == a;
    } else {
      var b' := b[..|b| - 1];
      ConcatAppend(a, b');
      assert (a + b)[..|a + b| - 1] == a + b';
      assert (a + b)[|a + b| - 1] == b[|b| - 1];
      assert Concat(a + b) == Concat(a + b') + b[|b| - 1];
      assert Concat(b) == Concat(b') + b[|b| - 1];
    }
  }

  /** `replace` with a one-character pattern rewrites its first occurrence only. */
  lemma ReplaceFirstChar(a: string, c: char, b: string, rep: string)
    requires c !in a
    ensures ReplaceFirst(a + [c] + b, [c], rep) == a + rep + b
  {
    var s := a + [c] + b;
    IndexOfCharAfter(a, c, b);
    assert s[..|a|] == a && s[|a| + 1..] == b;
  }

  /** `replace` leaves a text without the pattern character alone. */
  lemma ReplaceAbsentChar(s: string, c: char, rep: string)
    requires c !in s
    ensures ReplaceFirst(s, [c], rep) == s
  {
    IndexOfAbsentChar(s, c);
  }

  /** Cuts a text at its first separator character. */
  lemma CutAtFirst(s: string, c: char) returns (head: string, tail: string)
    requires c in s
    ensures s == head + [c] + tail && c !in head
    ensures SplitOn(s, [c]) == [head] + SplitOn(tail, [c])
  {
    FirstPartBeforeSeparator(s, c);
    head := SplitOn(s, [c])[0];
    assert |head| < |s|;
    tail := s[|head| + 1..];
    assert s == head + [c] + tail;
    SplitAtFirst(head, c, tail);
  }

  /** The last part of a split is what follows the last separator. */
  lemma {:induction false} SplitLast(s: string, c: char, b: string)
    requires c !in b
    ensures SplitOn(s + [c] + b, [c])[|SplitOn(s + [c] + b, [c])| - 1] == b
    decreases |s|
  {
    if c !in s {
      SplitAtFirst(s, c, b);
      SplitNoSeparator(b, c);
    } else {
      var h, t := CutAtFirst(s, c);
      assert s + [c] + b == h + [c] + (t + [c] + b);
      SplitAtFirst(h, c, t + [c] + b);
      SplitLast(t, c, b);
    }
  }
}
