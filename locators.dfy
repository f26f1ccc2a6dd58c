/**
 * Locators of the form-filling agent (webAgent.js): the selector strings
 * `getLocator` dispatches on, and the fixed candidate lists that
 * `fillField` and `performClick` try in order.
 */
module Locators {
  import opened Camel

  /** How an element is looked up on the page. The patterns of `ByLabel`,
      `ByText`, `ByRole` and `ByPlaceholder` are the sources of
      case-insensitive regular expressions; matching them against the page
      is the browser's business and is not modelled. */
  datatype Locator =
    | ByLabel(pattern: string)
    | ByText(pattern: string)
    | ByRole(role: string, pattern: string)
    | ByPlaceholder(pattern: string)
    | Css(selector: string)

  const LabelPrefix: string := "label="
  const TextPrefix: string := "text="
  const NameOpen: string := "input[name='"
  const PlaceholderOpen: string := "input[placeholder='"
  const AriaLabelOpen: string := "input[aria-label='"
  const AttrClose: string := "']"

  predicate StartsWith(s: string, prefix: string) {
    |prefix| <= |s| && s[..|prefix|] == prefix
  }

  /** `s.replace(pat, rep)` with a string pattern: only the first
      occurrence is replaced. */
  function ReplaceFirst(s: string, pat: string, rep: string): (r: string)
    ensures StartsWith(s, pat) ==> r == rep + s[|pat|..]
    decreases |s|
  {
    if StartsWith(s, pat) then rep + s[|pat|..]
    else if s == [] then []
    else [s[0]] + ReplaceFirst(s[1..], pat, rep)
  }

  /** Only the first occurrence of `pat` is replaced: when it first occurs
      at `i`, the text before it and after it is kept unchanged. */
  lemma {:induction false} ReplaceFirstAt(s: string, pat: string, rep: string, i: nat)
    requires i <= |s| && StartsWith(s[i..], pat)
    requires forall j {:trigger StartsWith(s[j..], pat)} :: 0 <= j < i ==> !StartsWith(s[j..], pat)
    ensures ReplaceFirst(s, pat, rep) == s[..i] + rep + s[i + |pat|..]
    decreases i
  {
    if i == 0 {
      assert s[0..] == s;
    } else {
      ShiftNoMatch(s, pat, i);
      ReplaceFirstAt(s[1..], pat, rep, i - 1);
      ReplaceFirstCons(s, pat, rep);
      SpliceTail(s, rep, i, |pat|);
    }
  }

  /** With no occurrence before `i > 0`, the string does not start with
      `pat`, and in its tail the first occurrence is one position earlier. */
  lemma {:induction false} ShiftNoMatch(s: string, pat: string, i: nat)
    requires 1 <= i <= |s| && StartsWith(s[i..], pat)
    requires forall j {:trigger StartsWith(s[j..], pat)} :: 0 <= j < i ==> !StartsWith(s[j..], pat)
    ensures s != [] && !StartsWith(s, pat)
    ensures StartsWith(s[1..][i - 1..], pat)
    ensures forall j {:trigger StartsWith(s[1..][j..], pat)} :: 0 <= j < i - 1 ==> !StartsWith(s[1..][j..], pat)
  {
    assert !StartsWith(s[0..], pat);
    assert s[0..] == s;
    assert s[1..][i - 1..] == s[i..];
    forall j | 0 <= j < i - 1 ensures !StartsWith(s[1..][j..], pat) {
      assert s[1..][j..] == s[j + 1..];
      assert !StartsWith(s[j + 1..], pat);
    }
  }

  /** Where `pat` does not start the string, `replace` keeps the first
      character and goes on with the rest. */
  lemma {:induction false} ReplaceFirstCons(s: string, pat: string, rep: string)
    requires s != [] && !StartsWith(s, pat)
    ensures ReplaceFirst(s, pat, rep) == [s[0]] + ReplaceFirst(s[1..], pat, rep)
  {
  }

  /** Splicing into the tail of a string is splicing into the string one
      position further on. */
  lemma {:induction false} SpliceTail(s: string, rep: string, i: nat, n: nat)
    requires 1 <= i && i + n <= |s|
    ensures [s[0]] + (s[1..][..i - 1] + rep + s[1..][i - 1 + n..]) == s[..i] + rep + s[i + n..]
  {
    assert [s[0]] + s[1..][..i - 1] == s[..i];
    assert s[1..][i - 1 + n..] == s[i + n..];
  }

  /** Where `pat` does not occur, `replace` leaves the string unchanged. */
  lemma {:induction false} ReplaceFirstAbsent(s: string, pat: string, rep: string)
    requires forall j :: 0 <= j <= |s| ==> !StartsWith(s[j..], pat)
    ensures ReplaceFirst(s, pat, rep) == s
    decreases |s|
  {
    assert s[0..] == s;
    if s != [] {
      var t := s[1..];
      forall j | 0 <= j <= |t| ensures !StartsWith(t[j..], pat) {
        assert t[j..] == s[j + 1..];
      }
      ReplaceFirstAbsent(t, pat, rep);
    }
  }

  /** `getLocator(sel)`: a `label=` selector looks up by label, otherwise a
      `text=` selector looks up by text, with the prefix removed; anything
      else is a CSS selector. */
  function GetLocator(sel: string): Locator
  {
    if StartsWith(sel, LabelPrefix) then ByLabel(ReplaceFirst(sel, LabelPrefix, ""))
    else if StartsWith(sel, TextPrefix) then ByText(ReplaceFirst(sel, TextPrefix, ""))
    else Css(sel)
  }

  /** Which lookup `getLocator` chooses, and with which pattern: the
      `label=` prefix wins over `text=`, and only the prefix is removed. */
  lemma {:induction false} GetLocatorDispatch(sel: string)
    ensures GetLocator(sel).ByLabel? <==> StartsWith(sel, LabelPrefix)
    ensures GetLocator(sel).ByText? <==> !StartsWith(sel, LabelPrefix) && StartsWith(sel, TextPrefix)
    ensures GetLocator(sel).Css? <==> !StartsWith(sel, LabelPrefix) && !StartsWith(sel, TextPrefix)
    ensures GetLocator(sel).ByLabel? ==> GetLocator(sel).pattern == sel[|LabelPrefix|..]
    ensures GetLocator(sel).ByText? ==> GetLocator(sel).pattern == sel[|TextPrefix|..]
    ensures GetLocator(sel).Css? ==> GetLocator(sel).selector == sel
  {
  }

  /** Rendering the locator of a selector back as a selector gives the
      selector again: `getLocator` loses nothing. */
  lemma {:induction false} GetLocatorRoundTrip(sel: string)
    ensures IsSelectorForm(GetLocator(sel)) && Selector(GetLocator(sel)) == sel
  {
    if StartsWith(sel, LabelPrefix) {
      assert LabelPrefix + sel[|LabelPrefix|..] == sel;
    } else if StartsWith(sel, TextPrefix) {
      assert TextPrefix + sel[|TextPrefix|..] == sel;
    }
  }

  /** The locators a selector string can express. */
  predicate IsSelectorForm(l: Locator) {
    l.ByLabel? || l.ByText? || l.Css?
  }

  /** The selector string of a locator: the inverse of `GetLocator`. */
  function Selector(l: Locator): string
    requires IsSelectorForm(l)
  {
    match l
    case ByLabel(p) => LabelPrefix + p
    case ByText(p) => TextPrefix + p
    case Css(s) => s
  }

  /** Every label or text locator, and every CSS locator whose selector
      carries neither prefix, survives rendering and dispatching unchanged. */
  lemma {:induction false} GetLocatorOfSelector(l: Locator)
    requires IsSelectorForm(l)
    requires l.Css? ==> !StartsWith(l.selector, LabelPrefix) && !StartsWith(l.selector, TextPrefix)
    ensures GetLocator(Selector(l)) == l
  {
    GetLocatorDispatch(Selector(l));
    match l
    case ByLabel(p) =>
      assert (LabelPrefix + p)[..|LabelPrefix|] == LabelPrefix;
    case ByText(p) =>
      var s := TextPrefix + p;
      assert s[..|TextPrefix|] == TextPrefix;
      assert s[0] == 't';
    case Css(s) =>
  }

  /** The four selectors `fillField` tries for a field label, in order. */
  function FillSelectors(fieldName: string): (r: seq<string>)
    ensures |r| == 4
  {
    [
      LabelPrefix + fieldName,
      NameOpen + ToCamel(fieldName) + AttrClose,
      PlaceholderOpen + fieldName + AttrClose,
      AriaLabelOpen + fieldName + AttrClose
    ]
  }

  /** A selector that opens with `input[` is a CSS selector. */
  lemma {:induction false} InputSelectorIsCss(sel: string)
    requires |sel| > 0 && sel[0] == 'i'
    ensures GetLocator(sel) == Css(sel)
  {
    GetLocatorDispatch(sel);
    assert !StartsWith(sel, LabelPrefix) by {
      if |LabelPrefix| <= |sel| { assert sel[..|LabelPrefix|][0] != LabelPrefix[0]; }
    }
    assert !StartsWith(sel, TextPrefix) by {
      if |TextPrefix| <= |sel| { assert sel[..|TextPrefix|][0] != TextPrefix[0]; }
    }
  }

  /** A `label=` selector looks up by the rest of the selector. */
  lemma {:induction false} LabelSelectorIsLabel(labelText: string)
    ensures GetLocator(LabelPrefix + labelText) == ByLabel(labelText)
  {
    var sel := LabelPrefix + labelText;
    assert sel[..|LabelPrefix|] == LabelPrefix;
    assert sel[|LabelPrefix|..] == labelText;
    GetLocatorDispatch(sel);
  }

  /** The first of the four selectors is a label lookup on the field label
      itself; the other three are CSS selectors, passed on unchanged. */
  lemma {:induction false} FillSelectorsDispatch(fieldName: string)
    ensures GetLocator(FillSelectors(fieldName)[0]) == ByLabel(fieldName)
    ensures forall i :: 1 <= i < 4 ==> GetLocator(FillSelectors(fieldName)[i]) == Css(FillSelectors(fieldName)[i])
  {
    LabelSelectorIsLabel(fieldName);
    AttributeSelectorIsCss(NameOpen, ToCamel(fieldName));
    AttributeSelectorIsCss(PlaceholderOpen, fieldName);
    AttributeSelectorIsCss(AriaLabelOpen, fieldName);
  }

  /** An `input[...='value']` selector is a CSS selector, whatever the
      value. */
  lemma {:induction false} AttributeSelectorIsCss(open: string, value: string)
    requires |open| > 0 && open[0] == 'i'
    ensures GetLocator(open + value + AttrClose) == Css(open + value + AttrClose)
  {
    var sel := open + value + AttrClose;
    assert sel[0] == open[0];
    InputSelectorIsCss(sel);
  }

  const ButtonRole: string := "button"
  const HasTextOpen: string := "button:has-text(\""
  const HasTextClose: string := "\")"
  const SubmitButton: string := "button[type='submit']"
  const SubmitInput: string := "input[type='submit']"

  /** The five locators `performClick` tries for a caption, in order. */
  function ClickLocators(buttonText: string): (r: seq<Locator>)
    ensures |r| == 5
  {
    [
      ByRole(ButtonRole, buttonText),
      ByText(buttonText),
      Css(HasTextOpen + buttonText + HasTextClose),
      Css(SubmitButton),
      Css(SubmitInput)
    ]
  }

  /** The first three locators look for the caption, so they determine it;
      the two submit fallbacks are the same whatever the caption. */
  lemma {:induction false} ClickLocatorsCaption(b1: string, b2: string)
    ensures ClickLocators(b1)[..3] == ClickLocators(b2)[..3] <==> b1 == b2
    ensures ClickLocators(b1)[3..] == ClickLocators(b2)[3..]
  {
    if ClickLocators(b1)[..3] == ClickLocators(b2)[..3] {
      assert ClickLocators(b1)[1] == ClickLocators(b2)[1];
    }
  }
}
