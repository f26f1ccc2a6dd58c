/**
 * Naming of the step screenshots: the file-system-safe slug of a step
 * label, the zero-padded step number and the screenshot path built from
 * the two (webAgent.js, takeStepScreenshot).
 */
module StepNames {
  import opened Text

  /** A character a slug may contain: `a`-`z`, `0`-`9` or `_`. */
  predicate IsSlugChar(c: char) {
    IsAsciiLower(c) || IsDigit(c) || c == '_'
  }

  /** First pass of the slug: `replace(/[^a-z0-9]/gi, "_")`. */
  function ReplaceNonAlnum(s: string): string {
    seq(|s|, i requires 0 <= i < |s| => if IsAsciiAlnum(s[i]) then s[i] else '_')
  }

  /** The slug of a step label: every character outside `[A-Za-z0-9]`
      becomes `_`, then the whole string is lower-cased. After the first
      pass only ASCII characters remain, so ASCII lower-casing is exactly
      what `toLowerCase` does here. */
  function Slug(stepLabel: string): string
  {
    LowerAscii(ReplaceNonAlnum(stepLabel))
  }

  /** The slug has the label's length; letters and digits are kept,
      lower-cased, and every other character becomes `_`. */
  lemma {:induction false} SlugChars(stepLabel: string)
    ensures |Slug(stepLabel)| == |stepLabel|
    ensures forall i :: 0 <= i < |stepLabel| ==> IsSlugChar(Slug(stepLabel)[i])
    ensures forall i :: 0 <= i < |stepLabel| ==>
              if IsAsciiAlnum(stepLabel[i]) then Slug(stepLabel)[i] == ToLowerAscii(stepLabel[i])
              else Slug(stepLabel)[i] == '_'
  {
  }

  /** A slug is its own slug: slugging is idempotent. */
  lemma {:induction false} SlugIdempotent(stepLabel: string)
    ensures Slug(Slug(stepLabel)) == Slug(stepLabel)
  {
    var s := Slug(stepLabel);
    SlugChars(stepLabel);
    SlugChars(s);
    forall i | 0 <= i < |s| ensures Slug(s)[i] == s[i] {
      assert IsSlugChar(s[i]);
    }
  }

  /** A string is a slug of some label exactly when all its characters are
      slug characters; such a string is its own slug. */
  lemma {:induction false} SlugFixedPoints(s: string)
    ensures Slug(s) == s <==> forall i :: 0 <= i < |s| ==> IsSlugChar(s[i])
  {
    SlugChars(s);
    if forall i :: 0 <= i < |s| ==> IsSlugChar(s[i]) {
      forall i | 0 <= i < |s| ensures Slug(s)[i] == s[i] {
        assert IsSlugChar(s[i]);
      }
    }
  }

  lemma {:induction false} SlugExample()
    ensures Slug("Create Account!") == "create_account_"
  {
    var a := Slug("Create Account!");
    SlugChars("Create Account!");
    assert a[6] == '_' && a[14] == '_';
  }

  lemma {:induction false} SlugSelectorExample()
    ensures Slug("typed_label=First Name") == "typed_label_first_name"
  {
    var b := Slug("typed_label=First Name");
    SlugChars("typed_label=First Name");
    assert b[5] == '_' && b[11] == '_' && b[17] == '_';
  }

  /** `s.padStart(width, pad)` for a one-character pad string. */
  function PadStart(s: string, width: nat, pad: char): string
    decreases width - |s|
  {
    if |s| >= width then s else PadStart([pad] + s, width, pad)
  }

  /** `String(counter).padStart(2, "0")`: the two-digit step number. */
  function StepNumber(counter: nat): (r: string)
  {
    PadStart(Decimal(counter), 2, '0')
  }

  /** The step number is a numeral of at least two digits whose value is
      the counter: one digit gains a leading zero, more digits are kept. */
  lemma {:induction false} StepNumberDigits(counter: nat)
    ensures var r := StepNumber(counter);
            && AllDigits(r) && |r| >= 2
            && DigitsValue(r) == counter
            && (counter <= 9 ==> r == ['0', DigitChar(counter)])
            && (counter >= 10 ==> r == Decimal(counter))
  {
    var d := Decimal(counter);
    DecimalRoundTrip(counter);
    if |d| == 1 {
      LeadingZeroValue(d);
      assert PadStart(['0'] + d, 2, '0') == ['0'] + d;
    }
  }

  lemma {:induction false} StepNumberExamples()
    ensures StepNumber(1) == "01" && StepNumber(3) == "03" && StepNumber(12) == "12"
  {
    StepNumberDigits(1);
    StepNumberDigits(3);
    StepNumberDigits(12);
    assert Decimal(12) == Decimal(1) + [DigitChar(2)];
  }

  const ScreenshotDir: string := "screenshots/"
  const ScreenshotExt: string := ".png"

  /** The path of the screenshot of a step: `screenshots/NN_slug.png`. */
  function ScreenshotPath(counter: nat, stepName: string): (r: string)
  {
    ScreenshotDir + StepNumber(counter) + "_" + Slug(stepName) + ScreenshotExt
  }

  /** A digit string, `_`, then anything: the first `_` marks the split. */
  lemma {:induction false} SplitAfterDigits(a1: string, b1: string, a2: string, b2: string)
    requires AllDigits(a1) && AllDigits(a2)
    requires a1 + "_" + b1 == a2 + "_" + b2
    ensures a1 == a2 && b1 == b2
  {
    var s1, s2 := a1 + "_" + b1, a2 + "_" + b2;
    assert forall i :: 0 <= i < |a1| ==> s1[i] == a1[i] && s1[i] != '_';
    assert forall i :: 0 <= i < |a2| ==> s2[i] == a2[i] && s2[i] != '_';
    assert s1[|a1|] == '_' && s2[|a2|] == '_';
    assert |a1| == |a2|;
    assert a1 == s1[..|a1|] && a2 == s2[..|a2|];
    assert b1 == s1[|a1| + 1..] && b2 == s2[|a2| + 1..];
  }

  /** Two steps share a screenshot path only when they share the step
      number and the slug: distinct counter values never overwrite one
      another's file. */
  lemma {:induction false} ScreenshotPathInjective(n1: nat, name1: string, n2: nat, name2: string)
    ensures ScreenshotPath(n1, name1) == ScreenshotPath(n2, name2) ==> n1 == n2 && Slug(name1) == Slug(name2)
  {
    var m1 := StepNumber(n1) + "_" + Slug(name1);
    var m2 := StepNumber(n2) + "_" + Slug(name2);
    if ScreenshotPath(n1, name1) == ScreenshotPath(n2, name2) {
      assert m1 == m2 by {
        ScreenshotPathMiddle(n1, name1);
        ScreenshotPathMiddle(n2, name2);
        StripAffixes(ScreenshotDir, m1, m2, ScreenshotExt);
      }
      StepNumberDigits(n1);
      StepNumberDigits(n2);
      SplitAfterDigits(StepNumber(n1), Slug(name1), StepNumber(n2), Slug(name2));
    }
  }

  /** The path is the directory, the file stem `NN_slug`, then the
      extension. */
  lemma {:induction false} ScreenshotPathMiddle(counter: nat, stepName: string)
    ensures ScreenshotPath(counter, stepName) == ScreenshotDir + (StepNumber(counter) + "_" + Slug(stepName)) + ScreenshotExt
  {
  }

  /** Equal strings with the same prefix and suffix agree in between. */
  lemma {:induction false} StripAffixes(prefix: string, m1: string, m2: string, suffix: string)
    requires prefix + m1 + suffix == prefix + m2 + suffix
    ensures m1 == m2
  {
    var s1, s2 := prefix + m1 + suffix, prefix + m2 + suffix;
    assert |m1| == |m2|;
    assert m1 == s1[|prefix|..|prefix| + |m1|];
    assert m2 == s2[|prefix|..|prefix| + |m2|];
  }

  /** The paths of the screenshots of steps 1, 2, 3, ... with the given
      step names. */
  function StepPaths(names: seq<string>): (r: seq<string>)
    ensures |r| == |names|
  {
    seq(|names|, i requires 0 <= i < |names| => ScreenshotPath(i + 1, names[i]))
  }

  /** The paths of the screenshots of consecutive steps numbered on from
      `first`. */
  function PathsFrom(first: nat, names: seq<string>): (r: seq<string>)
    ensures |r| == |names|
  {
    seq(|names|, i requires 0 <= i < |names| => ScreenshotPath(first + i, names[i]))
  }

  /** The steps after `names` are numbered on from where `names` stopped. */
  lemma {:induction false} StepPathsConcat(names: seq<string>, more: seq<string>)
    ensures StepPaths(names + more) == StepPaths(names) + PathsFrom(|names| + 1, more)
  {
    var l, r := StepPaths(names + more), StepPaths(names) + PathsFrom(|names| + 1, more);
    forall i | 0 <= i < |l| ensures l[i] == r[i] {
      if i < |names| {
        assert (names + more)[i] == names[i];
      } else {
        assert (names + more)[i] == more[i - |names|];
      }
    }
  }

  /** The first of consecutive steps is numbered `first`, the rest on
      from `first + 1`. */
  lemma {:induction false} PathsFromCons(first: nat, name: string, more: seq<string>)
    ensures PathsFrom(first, [name] + more) == [ScreenshotPath(first, name)] + PathsFrom(first + 1, more)
  {
    var l, r := PathsFrom(first, [name] + more), [ScreenshotPath(first, name)] + PathsFrom(first + 1, more);
    forall i | 0 <= i < |l| ensures l[i] == r[i] {
      if i > 0 {
        assert ([name] + more)[i] == more[i - 1];
      }
    }
  }

  lemma {:induction false} StepPathsAppend(names: seq<string>, name: string)
    ensures StepPaths(names + [name]) == StepPaths(names) + [ScreenshotPath(|names| + 1, name)]
  {
    var l, r := StepPaths(names + [name]), StepPaths(names) + [ScreenshotPath(|names| + 1, name)];
    forall i | 0 <= i < |l| ensures l[i] == r[i] {
      if i < |names| {
        assert (names + [name])[i] == names[i];
      }
    }
  }

  /** Paths of two different step numbers differ. */
  lemma {:induction false} DistinctStepsDistinctPaths(i: nat, name1: string, j: nat, name2: string)
    requires i != j
    ensures ScreenshotPath(i, name1) != ScreenshotPath(j, name2)
  {
    ScreenshotPathInjective(i, name1, j, name2);
  }

  lemma {:induction false} StepPathsDiffer(names: seq<string>, i: nat, j: nat)
    requires i < j < |names|
    ensures StepPaths(names)[i] != StepPaths(names)[j]
  {
    DistinctStepsDistinctPaths(i + 1, names[i], j + 1, names[j]);
  }

  /** The screenshots of steps 1, 2, 3, ... have pairwise distinct paths,
      whatever their names. */
  lemma {:induction false} StepPathsDistinct(names: seq<string>)
    ensures forall i, j :: 0 <= i < j < |names| ==> StepPaths(names)[i] != StepPaths(names)[j]
  {
    forall i, j | 0 <= i < j < |names| {
      StepPathsDiffer(names, i, j);
    }
  }

  /** A two-digit step number is kept as it is. */
  lemma {:induction false} ScreenshotPathExample()
    ensures ScreenshotPath(12, "Email") == "screenshots/12_email.png"
  {
    StepNumberExamples();
    SlugChars("Email");
  }

  lemma {:induction false} FirstScreenshotPath()
    ensures ScreenshotPath(1, "page_loaded") == "screenshots/01_page_loaded.png"
  {
    StepNumberExamples();
    var s := Slug("page_loaded");
    SlugChars("page_loaded");
    assert s[4] == '_';
  }
}
