/**
 * `toCamel` (webAgent.js): the camel-cased form of a field label, used to
 * guess an input's `name` attribute ("First Name" to "firstName").
 *
 * The source works in three passes, modelled one function each:
 * `replace(/\s+([a-zA-Z])/g, upper)`, then `replace(/\s/g, "")`, then the
 * first character lower-cased. `CamelScan` is an independent one-pass
 * reading of the same transformation, proved equal to the first two passes.
 */
module Camel {
  import opened Text

  /** Length of the run of whitespace at the start of `s`. */
  function WhitespaceRun(s: string): (k: nat)
    ensures k <= |s|
    ensures s != [] && IsWhitespace(s[0]) ==> k >= 1
  {
    if s == [] || !IsWhitespace(s[0]) then 0 else 1 + WhitespaceRun(s[1..])
  }

  /** The run is all whitespace and stops at the first other character. */
  lemma {:induction false} WhitespaceRunIsMaximal(s: string)
    ensures forall i :: 0 <= i < WhitespaceRun(s) ==> IsWhitespace(s[i])
    ensures WhitespaceRun(s) < |s| ==> !IsWhitespace(s[WhitespaceRun(s)])
  {
    if s != [] && IsWhitespace(s[0]) {
      WhitespaceRunIsMaximal(s[1..]);
    }
  }

  /** First pass, `replace(/\s+([a-zA-Z])/g, (_, c) => c.toUpperCase())`:
      the global search reaches every maximal whitespace run at its first
      character; a run followed by an ASCII letter is replaced by that
      letter upper-cased, any other run matches nowhere and stays. */
  function CapitalizeAfterWhitespace(s: string): (r: string)
    ensures |r| <= |s|
    decreases |s|
  {
    if s == [] then []
    else if IsWhitespace(s[0]) then
      var k := WhitespaceRun(s);
      if k < |s| && IsAsciiLetter(s[k]) then
        [ToUpperAscii(s[k])] + CapitalizeAfterWhitespace(s[k + 1..])
      else
        s[..k] + CapitalizeAfterWhitespace(s[k..])
    else
      [s[0]] + CapitalizeAfterWhitespace(s[1..])
  }

  /** Second pass, `replace(/\s/g, "")`. */
  function RemoveWhitespace(s: string): (r: string)
    ensures |r| <= |s|
  {
    if s == [] then []
    else if IsWhitespace(s[0]) then RemoveWhitespace(s[1..])
    else [s[0]] + RemoveWhitespace(s[1..])
  }

  /** The second pass leaves no whitespace. */
  lemma {:induction false} RemoveWhitespaceClean(s: string)
    ensures forall i :: 0 <= i < |RemoveWhitespace(s)| ==> !IsWhitespace(RemoveWhitespace(s)[i])
  {
    if s != [] {
      RemoveWhitespaceClean(s[1..]);
    }
  }

  /** Third pass, `t.charAt(0).toLowerCase() + t.slice(1)`: only the case
      of the first character may change. */
  function LowerFirst(t: string): (r: string)
    ensures |r| == |t|
  {
    if t == [] then [] else [ToLowerAscii(t[0])] + t[1..]
  }

  /** `toCamel(s)`: never longer than the label. */
  function ToCamel(s: string): (r: string)
    ensures |r| <= |s|
  {
    LowerFirst(RemoveWhitespace(CapitalizeAfterWhitespace(s)))
  }

  /** No whitespace is left in the camel form, and it is never longer than
      the label. */
  lemma {:induction false} ToCamelNoWhitespace(s: string)
    ensures forall i :: 0 <= i < |ToCamel(s)| ==> !IsWhitespace(ToCamel(s)[i])
    ensures |ToCamel(s)| <= |s|
  {
    var c := CapitalizeAfterWhitespace(s);
    var t := RemoveWhitespace(c);
    RemoveWhitespaceClean(c);
    if t != [] {
      assert !IsWhitespace(t[0]);
      assert forall i :: 1 <= i < |t| ==> ToCamel(s)[i] == t[i];
    }
  }

  /** Reference reading of the first two passes, one character at a time:
      whitespace is dropped, and an ASCII letter that follows whitespace
      (`pending`) is upper-cased. */
  function CamelScan(s: string, pending: bool): string {
    if s == [] then []
    else if IsWhitespace(s[0]) then CamelScan(s[1..], true)
    else if pending && IsAsciiLetter(s[0]) then [ToUpperAscii(s[0])] + CamelScan(s[1..], false)
    else [s[0]] + CamelScan(s[1..], false)
  }

  lemma {:induction false} RemoveWhitespaceAppend(a: string, b: string)
    ensures RemoveWhitespace(a + b) == RemoveWhitespace(a) + RemoveWhitespace(b)
  {
    if a != [] {
      assert (a + b)[1..] == a[1..] + b;
      RemoveWhitespaceAppend(a[1..], b);
    } else {
      assert a + b == b;
    }
  }

  lemma {:induction false} RemoveWhitespaceOfRun(s: string)
    requires forall i :: 0 <= i < |s| ==> IsWhitespace(s[i])
    ensures RemoveWhitespace(s) == []
  {
    if s != [] {
      RemoveWhitespaceOfRun(s[1..]);
    }
  }

  /** The scan passes over a non-empty whitespace run and resumes with a
      pending capital. */
  lemma {:induction false} CamelScanSkipsRun(s: string, k: nat, pending: bool)
    requires 1 <= k <= |s|
    requires forall i :: 0 <= i < k ==> IsWhitespace(s[i])
    ensures CamelScan(s, pending) == CamelScan(s[k..], true)
  {
    if k > 1 {
      CamelScanSkipsRun(s[1..], k - 1, true);
      assert s[1..][k - 1..] == s[k..];
    }
  }

  /** The source's first two passes compute exactly the one-pass scan. */
  lemma {:induction false} TwoPassesAreScan(s: string)
    ensures RemoveWhitespace(CapitalizeAfterWhitespace(s)) == CamelScan(s, false)
    decreases |s|
  {
    if s == [] {
    } else if IsWhitespace(s[0]) {
      var k := WhitespaceRun(s);
      WhitespaceRunIsMaximal(s);
      CamelScanSkipsRun(s, k, false);
      if k < |s| && IsAsciiLetter(s[k]) {
        TwoPassesAreScan(s[k + 1..]);
        assert s[k..][1..] == s[k + 1..];
        assert CamelScan(s[k..], true) == [ToUpperAscii(s[k])] + CamelScan(s[k + 1..], false);
        assert RemoveWhitespace([ToUpperAscii(s[k])] + CapitalizeAfterWhitespace(s[k + 1..]))
            == [ToUpperAscii(s[k])] + RemoveWhitespace(CapitalizeAfterWhitespace(s[k + 1..]));
      } else {
        RemoveWhitespaceAppend(s[..k], CapitalizeAfterWhitespace(s[k..]));
        RemoveWhitespaceOfRun(s[..k]);
        TwoPassesAreScan(s[k..]);
        if k < |s| {
          assert s[k..][1..] == s[k + 1..];
          assert CamelScan(s[k..], true) == CamelScan(s[k..], false);
        }
      }
    } else {
      TwoPassesAreScan(s[1..]);
    }
  }

  /** Case-blind, the scan is the label with its whitespace removed. */
  lemma {:induction false} CamelScanFoldsCase(s: string, pending: bool)
    ensures LowerAscii(CamelScan(s, pending)) == LowerAscii(RemoveWhitespace(s))
  {
    if s != [] {
      if IsWhitespace(s[0]) {
        CamelScanFoldsCase(s[1..], true);
      } else {
        CamelScanFoldsCase(s[1..], false);
        var head := if pending && IsAsciiLetter(s[0]) then ToUpperAscii(s[0]) else s[0];
        assert CamelScan(s, pending) == [head] + CamelScan(s[1..], false);
        assert ToLowerAscii(head) == ToLowerAscii(s[0]);
        LowerAsciiCons(head, CamelScan(s[1..], false));
        LowerAsciiCons(s[0], RemoveWhitespace(s[1..]));
      }
    }
  }

  /** `toCamel` changes nothing but letter case and whitespace: ignoring
      ASCII case, it is the label with all whitespace removed. */
  lemma {:induction false} ToCamelFoldsCase(s: string)
    ensures LowerAscii(ToCamel(s)) == LowerAscii(RemoveWhitespace(s))
  {
    var t := RemoveWhitespace(CapitalizeAfterWhitespace(s));
    TwoPassesAreScan(s);
    CamelScanFoldsCase(s, false);
    assert LowerAscii(LowerFirst(t)) == LowerAscii(t);
  }

  lemma {:induction false} NoWhitespaceFixed(t: string)
    requires forall i :: 0 <= i < |t| ==> !IsWhitespace(t[i])
    ensures CapitalizeAfterWhitespace(t) == t && RemoveWhitespace(t) == t
  {
    if t != [] {
      NoWhitespaceFixed(t[1..]);
    }
  }

  /** Camel-casing a camel-cased label changes nothing. */
  lemma {:induction false} ToCamelIdempotent(s: string)
    ensures ToCamel(ToCamel(s)) == ToCamel(s)
  {
    var c := ToCamel(s);
    ToCamelNoWhitespace(s);
    NoWhitespaceFixed(c);
  }

  /** The camel form of a two-word label is the first word, lower-cased at
      its start, followed by the second word capitalised. */
  lemma {:induction false} TwoWordCamel(w1: string, w2: string)
    requires |w1| > 0 && |w2| > 0 && IsAsciiLetter(w2[0])
    requires forall i :: 0 <= i < |w1| ==> !IsWhitespace(w1[i])
    requires forall i :: 0 <= i < |w2| ==> !IsWhitespace(w2[i])
    ensures ToCamel(w1 + " " + w2) == LowerFirst(w1 + [ToUpperAscii(w2[0])] + w2[1..])
  {
    var tail := " " + w2;
    assert w1 + " " + w2 == w1 + tail;
    NoWhitespaceFixed(w2[1..]);
    WordThenRun(w1, tail);
    assert tail[1..] == w2 && tail[2..] == w2[1..];
    assert WhitespaceRun(tail[1..]) == 0;
    assert WhitespaceRun(tail) == 1;
    assert CapitalizeAfterWhitespace(tail) == [ToUpperAscii(w2[0])] + w2[1..];
    var t := w1 + [ToUpperAscii(w2[0])] + w2[1..];
    assert CapitalizeAfterWhitespace(w1 + tail) == t;
    NoWhitespaceFixed(t);
  }

  /** The first pass copies a word that contains no whitespace. */
  lemma {:induction false} WordThenRun(w: string, rest: string)
    requires forall i :: 0 <= i < |w| ==> !IsWhitespace(w[i])
    ensures CapitalizeAfterWhitespace(w + rest) == w + CapitalizeAfterWhitespace(rest)
  {
    if w != [] {
      assert (w + rest)[1..] == w[1..] + rest;
      WordThenRun(w[1..], rest);
    } else {
      assert w + rest == rest;
    }
  }

  /** Lower-casing of the example's first letter, kept apart so that the
      example's proof does not evaluate `LowerFirst` on a literal. */
  lemma {:induction false} FirstNameLowered(t: string)
    requires t == "FirstName"
    ensures LowerFirst(t) == "firstName"
  {
    assert ToLowerAscii('F') == 'f';
  }

  /** As `FirstNameLowered`, for the second example. */
  lemma {:induction false} ConfirmPasswordLowered(t: string)
    requires t == "ConfirmPassword"
    ensures LowerFirst(t) == "confirmPassword"
  {
    assert ToLowerAscii('C') == 'c';
  }

  /** `toCamel("First Name")` is `"firstName"`. */
  lemma {:induction false} FirstNameExample()
    ensures ToCamel("First Name") == "firstName"
  {
    var w1, w2 := "First", "Name";
    assert forall i :: 0 <= i < |w1| ==> !IsWhitespace(w1[i]);
    assert forall i :: 0 <= i < |w2| ==> !IsWhitespace(w2[i]);
    TwoWordCamel(w1, w2);
    assert w1 + " " + w2 == "First Name";
    assert ToUpperAscii('N') == 'N';
    var t := w1 + ['N'] + w2[1..];
    assert t == "FirstName";
    FirstNameLowered(t);
  }

  /** `toCamel("Confirm Password")` is `"confirmPassword"`. */
  lemma {:induction false} ConfirmPasswordExample()
    ensures ToCamel("Confirm Password") == "confirmPassword"
  {
    var w1, w2 := "Confirm", "Password";
    assert forall i :: 0 <= i < |w1| ==> !IsWhitespace(w1[i]);
    assert forall i :: 0 <= i < |w2| ==> !IsWhitespace(w2[i]);
    TwoWordCamel(w1, w2);
    assert w1 + " " + w2 == "Confirm Password";
    assert ToUpperAscii('P') == 'P';
    var t := w1 + ['P'] + w2[1..];
    assert t == "ConfirmPassword";
    ConfirmPasswordLowered(t);
  }

  /** `toCamel("Email")` is `"email"`. */
  lemma {:induction false} EmailExample()
    ensures ToCamel("Email") == "email"
  {
    var w := "Email";
    assert forall i :: 0 <= i < |w| ==> !IsWhitespace(w[i]);
    NoWhitespaceFixed(w);
  }
}
