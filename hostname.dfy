/** The project-name pattern shared by both hostname validators:

      ^([a-zA-Z0-9]+(-[a-zA-Z0-9]+)*)+(\.([a-zA-Z0-9]+(-[a-zA-Z0-9<ZWNJ><ZWSP>]+)*))*$

    The character class of the hyphen segments of every label after the
    first holds two invisible characters besides the alphanumerics: U+200C
    (zero-width non-joiner) and U+200B (zero-width space). The model keeps
    them. The outer `+` on the first label adds nothing: two labels written
    back to back form one label.

    `RegexTest` runs the pattern as a character-by-character recogniser;
    `WellFormedHost` says the same thing with labels and hyphen runs, and
    `RegexTestIffWellFormed` proves that the two agree on every string. */
module HostnameGrammar {
  import opened Strings

  const ZeroWidthNonJoiner: char := '\U{200C}'
  const ZeroWidthSpace: char := '\U{200B}'

  /** `[a-zA-Z0-9]` */
  predicate IsAlnum(c: char)
  {
    'a' <= c <= 'z' || 'A' <= c <= 'Z' || '0' <= c <= '9'
  }

  /** The class of hyphen segments in the labels after the first. */
  predicate IsSegmentChar(c: char)
  {
    IsAlnum(c) || c == ZeroWidthNonJoiner || c == ZeroWidthSpace
  }

  /** Where the recogniser stands: in the first label or a later one, and
      whether the current run still needs its first character. */
  datatype Phase = FirstNeed | FirstIn | LabelNeed | LabelIn | SegmentNeed | SegmentIn | Dead

  function Step(q: Phase, c: char): Phase
  {
    match q
    case FirstNeed => if IsAlnum(c) then FirstIn else Dead
    case FirstIn =>
      if IsAlnum(c) then FirstIn else if c == '-' then FirstNeed else if c == '.' then LabelNeed else Dead
    case LabelNeed => if IsAlnum(c) then LabelIn else Dead
    case LabelIn =>
      if IsAlnum(c) then LabelIn else if c == '-' then SegmentNeed else if c == '.' then LabelNeed else Dead
    case SegmentNeed => if IsSegmentChar(c) then SegmentIn else Dead
    case SegmentIn =>
      if IsSegmentChar(c) then SegmentIn else if c == '-' then SegmentNeed else if c == '.' then LabelNeed else Dead
    case Dead => Dead
  }

  function Run(q: Phase, s: string): Phase
    decreases |s|
  {
    if s == [] then q else Run(Step(q, s[0]), s[1..])
  }

  predicate Accepting(q: Phase)
  {
    q == FirstIn || q == LabelIn || q == SegmentIn
  }

  /** `hostnameRegex.test(s)` */
  predicate RegexTest(s: string)
  {
    Accepting(Run(FirstNeed, s))
  }

  // ----- the reference description -----

  predicate AlnumRun(p: string)
  {
    |p| > 0 && forall i :: 0 <= i < |p| ==> IsAlnum(p[i])
  }

  predicate SegmentRun(p: string)
  {
    |p| > 0 && forall i :: 0 <= i < |p| ==> IsSegmentChar(p[i])
  }

  predicate RunOk(p: string, segment: bool)
  {
    if segment then SegmentRun(p) else AlnumRun(p)
  }

  predicate AllRuns(runs: seq<string>, segment: bool)
  {
    forall j :: 0 <= j < |runs| ==> RunOk(runs[j], segment)
  }

  /** A label is non-empty alphanumeric runs joined by single hyphens; in a
      label after the first, the runs after a hyphen may also hold the two
      zero-width characters. */
  predicate WellFormedLabel(text: string, first: bool)
  {
    var runs := SplitOn(text, "-");
    AlnumRun(runs[0]) && AllRuns(runs[1..], !first)
  }

  predicate AllLaterLabels(labels: seq<string>)
  {
    forall i :: 0 <= i < |labels| ==> WellFormedLabel(labels[i], false)
  }

  /** Non-empty labels separated by single dots. */
  predicate WellFormedHost(s: string)
  {
    var labels := SplitOn(s, ".");
    WellFormedLabel(labels[0], true) && AllLaterLabels(labels[1..])
  }

  // ----- the recogniser and the description agree -----

  lemma {:induction false} RunConcat(q: Phase, a: string, b: string)
    ensures Run(q, a + b) == Run(Run(q, a), b)
    decreases |a|
  {
    if a == [] {
      assert a + b == b;
    } else {
      assert (a + b)[0] == a[0];
      assert (a + b)[1..] == a[1..] + b;
      RunConcat(Step(q, a[0]), a[1..], b);
    }
  }

  /** Running through a text, one character and the rest. */
  lemma RunThrough(q: Phase, p: string, c: char, rest: string)
    ensures Run(q, p + [c] + rest) == Run(Step(Run(q, p), c), rest)
  {
    assert p + [c] + rest == p + ([c] + rest);
    RunConcat(q, p, [c] + rest);
    assert ([c] + rest)[0] == c && ([c] + rest)[1..] == rest;
  }

  lemma {:induction false} RunDead(s: string)
    ensures Run(Dead, s) == Dead
    decreases |s|
  {
    if s != [] {
      RunDead(s[1..]);
    }
  }

  /** A dot moves on to the next label exactly when the current one is complete. */
  lemma StepDot(q: Phase)
    ensures Step(q, '.') == if Accepting(q) then LabelNeed else Dead
  {
  }

  lemma AllRunsCons(p: string, runs: seq<string>, segment: bool)
    ensures AllRuns([p] + runs, segment) <==> RunOk(p, segment) && AllRuns(runs, segment)
  {
    if RunOk(p, segment) && AllRuns(runs, segment) {
      forall j | 0 <= j < |[p] + runs| ensures RunOk(([p] + runs)[j], segment) {
        if j > 0 { assert ([p] + runs)[j] == runs[j - 1]; }
      }
    }
    if AllRuns([p] + runs, segment) {
      assert RunOk(([p] + runs)[0], segment);
      forall j | 0 <= j < |runs| ensures RunOk(runs[j], segment) {
        assert ([p] + runs)[j + 1] == runs[j];
      }
    }
  }

  lemma AllLaterLabelsCons(l: string, labels: seq<string>)
    ensures AllLaterLabels([l] + labels) <==> WellFormedLabel(l, false) && AllLaterLabels(labels)
  {
    if WellFormedLabel(l, false) && AllLaterLabels(labels) {
      forall i | 0 <= i < |[l] + labels| ensures WellFormedLabel(([l] + labels)[i], false) {
        if i > 0 { assert ([l] + labels)[i] == labels[i - 1]; }
      }
    }
    if AllLaterLabels([l] + labels) {
      assert WellFormedLabel(([l] + labels)[0], false);
      forall i | 0 <= i < |labels| ensures WellFormedLabel(labels[i], false) {
        assert ([l] + labels)[i + 1] == labels[i];
      }
    }
  }

  /** Runs inside the first label. */
  lemma {:induction false} RunFirst(q: Phase, p: string)
    requires q == FirstNeed || q == FirstIn
    requires '-' !in p && '.' !in p
    ensures Run(q, p) == if p == [] then q else if AlnumRun(p) then FirstIn else Dead
    decreases |p|
  {
    if p != [] {
      if IsAlnum(p[0]) {
        RunFirst(FirstIn, p[1..]);
        if p[1..] != [] && AlnumRun(p[1..]) {
          assert AlnumRun(p);
        }
      } else {
        RunDead(p[1..]);
      }
    }
  }

  /** The leading run of a later label. */
  lemma {:induction false} RunLabel(q: Phase, p: string)
    requires q == LabelNeed || q == LabelIn
    requires '-' !in p && '.' !in p
    ensures Run(q, p) == if p == [] then q else if AlnumRun(p) then LabelIn else Dead
    decreases |p|
  {
    if p != [] {
      if IsAlnum(p[0]) {
        RunLabel(LabelIn, p[1..]);
        if p[1..] != [] && AlnumRun(p[1..]) {
          assert AlnumRun(p);
        }
      } else {
        RunDead(p[1..]);
      }
    }
  }

  /** A hyphen segment of a later label. */
  lemma {:induction false} RunSegment(q: Phase, p: string)
    requires q == SegmentNeed || q == SegmentIn
    requires '-' !in p && '.' !in p
    ensures Run(q, p) == if p == [] then q else if SegmentRun(p) then SegmentIn else Dead
    decreases |p|
  {
    if p != [] {
      if IsSegmentChar(p[0]) {
        RunSegment(SegmentIn, p[1..]);
        if p[1..] != [] && SegmentRun(p[1..]) {
          assert SegmentRun(p);
        }
      } else {
        RunDead(p[1..]);
      }
    }
  }

  /** From a state that needs the first character of a run, the runs that follow
      are accepted exactly when each of them is a non-empty run of the class. */
  lemma {:induction false} RunsAccepted(q: Phase, r: string, segment: bool)
    requires '.' !in r
    requires q == (if segment then SegmentNeed else FirstNeed)
    ensures Accepting(Run(q, r)) <==> AllRuns(SplitOn(r, "-"), segment)
    decreases |r|
  {
    if '-' !in r {
      SplitNoSeparator(r, '-');
      if segment { RunSegment(q, r); } else { RunFirst(q, r); }
      AllRunsCons(r, [], segment);
    } else {
      var p, rest := CutAtFirst(r, '-');
      RunThrough(q, p, '-', rest);
      if segment { RunSegment(q, p); } else { RunFirst(q, p); }
      AllRunsCons(p, SplitOn(rest, "-"), segment);
      if RunOk(p, segment) {
        RunsAccepted(q, rest, segment);
      } else {
        RunDead(rest);
      }
    }
  }

  /** A text without dots is recognised as a first label exactly when it is one. */
  lemma FirstLabelAccepted(l: string)
    requires '.' !in l
    ensures Accepting(Run(FirstNeed, l)) <==> WellFormedLabel(l, true)
  {
    RunsAccepted(FirstNeed, l, false);
    var runs := SplitOn(l, "-");
    assert runs == [runs[0]] + runs[1..];
    AllRunsCons(runs[0], runs[1..], false);
  }

  /** A text without dots is recognised as a later label exactly when it is one. */
  lemma LaterLabelAccepted(l: string)
    requires '.' !in l
    ensures Accepting(Run(LabelNeed, l)) <==> WellFormedLabel(l, false)
  {
    if '-' !in l {
      SplitNoSeparator(l, '-');
      RunLabel(LabelNeed, l);
    } else {
      var p, rest := CutAtFirst(l, '-');
      RunThrough(LabelNeed, p, '-', rest);
      RunLabel(LabelNeed, p);
      var runs := SplitOn(l, "-");
      assert runs[0] == p && runs[1..] == SplitOn(rest, "-");
      if AlnumRun(p) {
        RunsAccepted(SegmentNeed, rest, true);
      } else {
        RunDead(rest);
      }
    }
  }

  /** The labels after a dot. */
  lemma {:induction false} LaterLabelsAccepted(r: string)
    ensures Accepting(Run(LabelNeed, r)) <==> AllLaterLabels(SplitOn(r, "."))
    decreases |r|
  {
    if '.' !in r {
      SplitNoSeparator(r, '.');
      LaterLabelAccepted(r);
      AllLaterLabelsCons(r, []);
    } else {
      var l, rest := CutAtFirst(r, '.');
      RunThrough(LabelNeed, l, '.', rest);
      StepDot(Run(LabelNeed, l));
      LaterLabelAccepted(l);
      AllLaterLabelsCons(l, SplitOn(rest, "."));
      if Accepting(Run(LabelNeed, l)) {
        LaterLabelsAccepted(rest);
      } else {
        RunDead(rest);
      }
    }
  }

  /** The pattern accepts a string exactly when it is non-empty labels separated by
      single dots, each label non-empty runs joined by single hyphens. */
  lemma RegexTestIffWellFormed(s: string)
    ensures RegexTest(s) <==> WellFormedHost(s)
  {
    if '.' !in s {
      SplitNoSeparator(s, '.');
      FirstLabelAccepted(s);
      assert SplitOn(s, ".")[1..] == [];
    } else {
      var l, rest := CutAtFirst(s, '.');
      RunThrough(FirstNeed, l, '.', rest);
      StepDot(Run(FirstNeed, l));
      FirstLabelAccepted(l);
      var labels := SplitOn(s, ".");
      assert labels[0] == l && labels[1..] == SplitOn(rest, ".");
      if Accepting(Run(FirstNeed, l)) {
        LaterLabelsAccepted(rest);
      } else {
        RunDead(rest);
      }
    }
  }

  // ----- what the pattern turns away -----

  /** Reading one more character is one more step. */
  lemma RunSnoc(q: Phase, a: string, c: char)
    ensures Run(q, a + [c]) == Step(Run(q, a), c)
  {
    RunThrough(q, a, c, []);
    assert a + [c] + [] == a + [c];
  }

  /** A character outside the alphanumerics, the two zero-width characters,
      `-` and `.` (an underscore, a slash, a space) anywhere in the text. */
  lemma ForeignCharRejected(a: string, c: char, b: string)
    requires !IsSegmentChar(c) && c != '-' && c != '.'
    ensures !RegexTest(a + [c] + b)
  {
    RunThrough(FirstNeed, a, c, b);
    RunDead(b);
  }

  /** Two separators in a row: `--`, `-.`, `.-` or `..`. */
  lemma DoubledSeparatorRejected(a: string, c1: char, c2: char, b: string)
    requires c1 in "-." && c2 in "-."
    ensures !RegexTest(a + [c1] + [c2] + b)
  {
    RunThrough(FirstNeed, a + [c1], c2, b);
    RunSnoc(FirstNeed, a, c1);
    RunDead(b);
  }

  /** A leading separator. */
  lemma LeadingSeparatorRejected(c: char, b: string)
    requires c in "-."
    ensures !RegexTest([c] + b)
  {
    RunThrough(FirstNeed, [], c, b);
    assert [] + [c] + b == [c] + b;
    RunDead(b);
  }

  /** A trailing separator. */
  lemma TrailingSeparatorRejected(a: string, c: char)
    requires c in "-."
    ensures !RegexTest(a + [c])
  {
    RunSnoc(FirstNeed, a, c);
  }
}
