/**
 * The form-filling engine of webAgent.js with every browser call replaced
 * by an oracle: the step recorder and its counter, the ordered
 * first-success searches of `performType`/`fillField` and `performClick`,
 * the agent's `click` and `type` tools, and the driver that fills the five
 * fields and submits.
 */
module Engine {
  import opened StepNames
  import opened Locators

  /** How one attempt ends. An attempt is a try block of the source: a run
      of browser calls (wait, scroll, fill, type, click) and then a step
      screenshot. `Thrown`: a browser call threw before the screenshot.
      `CaptureThrown`: the calls completed and the screenshot threw.
      `Completed`: everything completed. */
  datatype Outcome = Thrown | CaptureThrown | Completed

  /** What an attempt asks of the browser. */
  datatype Action =
      /** `performType`: wait until visible, scroll, clear, type the value. */
    | Type(target: Locator, value: string)
      /** The fuzzy fallback of `fillField`: wait until visible, type. */
    | FuzzyType(target: Locator, value: string)
      /** One try of `performClick` for the button caption `caption`: wait
          until visible, scroll, click. */
    | Click(target: Locator, caption: string)
      /** The `type` tool: fill the first element labelled `labelText`. */
    | LabelFill(labelText: string, value: string)
      /** A step screenshot taken outside any try block. */
    | Snapshot(stepName: string)

  /** The browser and the page, as an oracle: `page(t, a)` is the outcome of
      action `a` when it is the `t`-th attempt of the run (counting from 0),
      so an outcome may depend on everything done before it. */
  type Page = (nat, Action) -> Outcome

  /** The ordered first-success search: the index of the first attempt that
      completes when `attempts` are tried from time `t` on, or
      `|attempts|` when none does. */
  function FirstCompleted(page: Page, t: nat, attempts: seq<Action>): (k: nat)
    ensures k <= |attempts|
    decreases |attempts|
  {
    if attempts == [] then 0
    else if page(t, attempts[0]) == Completed then 0
    else 1 + FirstCompleted(page, t + 1, attempts[1..])
  }

  /** Every attempt before the one the search stops at fails, and the one it
      stops at, if any, completes. */
  lemma {:induction false} FirstCompletedSound(page: Page, t: nat, attempts: seq<Action>)
    ensures var k := FirstCompleted(page, t, attempts);
            && (forall j :: 0 <= j < k ==> page(t + j, attempts[j]) != Completed)
            && (k < |attempts| ==> page(t + k, attempts[k]) == Completed)
    decreases |attempts|
  {
    if attempts != [] && page(t, attempts[0]) != Completed {
      var rest := attempts[1..];
      FirstCompletedSound(page, t + 1, rest);
      var k := FirstCompleted(page, t, attempts);
      forall j | 1 <= j < k ensures page(t + j, attempts[j]) != Completed {
        assert attempts[j] == rest[j - 1] && t + j == t + 1 + (j - 1);
      }
      if k < |attempts| {
        assert attempts[k] == rest[k - 1] && t + k == t + 1 + (k - 1);
      }
    }
  }

  /** `FirstCompleted` is exactly the first index that completes. */
  lemma {:induction false} FirstCompletedIsFirst(page: Page, t: nat, attempts: seq<Action>, k: nat)
    ensures FirstCompleted(page, t, attempts) == k <==>
              && k <= |attempts|
              && (forall j :: 0 <= j < k ==> page(t + j, attempts[j]) != Completed)
              && (k < |attempts| ==> page(t + k, attempts[k]) == Completed)
  {
    FirstCompletedSound(page, t, attempts);
  }

  /** A search succeeds exactly when some attempt would complete. */
  lemma {:induction false} SearchSucceedsIffSomeCompletes(page: Page, t: nat, attempts: seq<Action>)
    ensures FirstCompleted(page, t, attempts) < |attempts| <==>
              exists j :: 0 <= j < |attempts| && page(t + j, attempts[j]) == Completed
  {
    FirstCompletedSound(page, t, attempts);
  }

  /** The last attempt of a search (the fuzzy fallback of `fillField`) is
      made exactly when every earlier attempt fails. */
  lemma {:induction false} LastAttemptOnlyAfterOthersFail(page: Page, t: nat, attempts: seq<Action>)
    requires |attempts| > 0
    ensures var k := FirstCompleted(page, t, attempts);
            Tried(k, |attempts|) == |attempts| <==>
              forall j :: 0 <= j < |attempts| - 1 ==> page(t + j, attempts[j]) != Completed
  {
    FirstCompletedSound(page, t, attempts);
  }

  /** Searching `a + b` is searching `a`, then, if nothing in `a`
      completed, searching `b` from where `a` left off. */
  lemma {:induction false} FirstCompletedAppend(page: Page, t: nat, a: seq<Action>, b: seq<Action>)
    ensures var k := FirstCompleted(page, t, a);
            FirstCompleted(page, t, a + b)
              == if k < |a| then k else |a| + FirstCompleted(page, t + |a|, b)
  {
    var k := FirstCompleted(page, t, a);
    var ab := a + b;
    FirstCompletedSound(page, t, a);
    if k < |a| {
      assert forall j :: 0 <= j <= k ==> ab[j] == a[j];
      FirstCompletedIsFirst(page, t, ab, k);
    } else {
      var k2 := FirstCompleted(page, t + |a|, b);
      FirstCompletedSound(page, t + |a|, b);
      forall j | 0 <= j < |a| + k2 ensures page(t + j, ab[j]) != Completed {
        if j >= |a| {
          assert ab[j] == b[j - |a|];
          assert t + j == t + |a| + (j - |a|);
        }
      }
      if |a| + k2 < |ab| {
        assert ab[|a| + k2] == b[k2];
      }
      FirstCompletedIsFirst(page, t, ab, |a| + k2);
    }
  }

  /** How many attempts a search makes when the first success is at `k`. */
  function Tried(k: nat, n: nat): nat {
    if k < n then k + 1 else n
  }

  /** The attempts a first-success search over `attempts` makes from time
      `t` on: up to and including the first that completes, or all of them. */
  function SearchTrace(page: Page, t: nat, attempts: seq<Action>): seq<Action> {
    attempts[..Tried(FirstCompleted(page, t, attempts), |attempts|)]
  }

  /** One `performType` attempt per selector, in order. */
  function TypeAttempts(selectors: seq<string>, value: string): (r: seq<Action>)
    ensures |r| == |selectors|
    ensures forall i :: 0 <= i < |selectors| ==> r[i] == Type(GetLocator(selectors[i]), value)
  {
    seq(|selectors|, i requires 0 <= i < |selectors| => Type(GetLocator(selectors[i]), value))
  }

  /** The five attempts of `fillField`: the four selectors through
      `performType`, then the fuzzy placeholder match. */
  function FillAttempts(fieldName: string, value: string): (r: seq<Action>)
    ensures |r| == 5
  {
    TypeAttempts(FillSelectors(fieldName), value) + [FuzzyType(ByPlaceholder(fieldName), value)]
  }

  const TypedPrefix: string := "typed_"
  const FuzzyPrefix: string := "fuzzy_"
  const ClickedPrefix: string := "clicked_"
  const AgentFilledPrefix: string := "agent_filled_"

  /** The step name of the screenshot `fillField` takes when attempt `k`
      succeeds. */
  function FillStepName(fieldName: string, k: nat): string
    requires k < 5
  {
    if k < 4 then TypedPrefix + FillSelectors(fieldName)[k] else FuzzyPrefix + fieldName
  }

  /** The five attempts of `performClick`. */
  function ClickAttempts(buttonText: string): (r: seq<Action>)
    ensures |r| == 5
    ensures forall i :: 0 <= i < 5 ==> r[i] == Click(ClickLocators(buttonText)[i], buttonText)
  {
    var locs := ClickLocators(buttonText);
    seq(5, i requires 0 <= i < 5 => Click(locs[i], buttonText))
  }

  const SuccessMark: char := '\U{2705}'
  const FailureMark: char := '\U{274C}'

  /** The result string of the agent's `click` tool. */
  function ClickStatus(selector: string, ok: bool): (r: string)
    ensures ReportsSuccess(r) == ok
    ensures |r| >= |selector| && r[|r| - |selector|..] == selector
  {
    if ok then [SuccessMark] + " Clicked " + selector else [FailureMark] + " Failed click " + selector
  }

  /** The result string of the agent's `type` tool. */
  function TypeStatus(selector: string, ok: bool): (r: string)
    ensures ReportsSuccess(r) == ok
    ensures |r| >= |selector| && r[|r| - |selector|..] == selector
  {
    if ok then [SuccessMark] + " Filled " + selector else "Could not fill " + selector
  }

  /** A tool's result string reports success when it opens with the check
      mark. */
  predicate ReportsSuccess(msg: string) {
    |msg| > 0 && msg[0] == SuccessMark
  }

  /** The values the user typed at the prompts. */
  datatype UserDetails = UserDetails(
    firstName: string, lastName: string, email: string, password: string, confirmPassword: string)

  /** A field label and the value to fill it with. */
  datatype Entry = Entry(fieldName: string, value: string)

  const FirstNameLabel: string := "First Name"
  const LastNameLabel: string := "Last Name"
  const EmailLabel: string := "Email"
  const PasswordLabel: string := "Password"
  const ConfirmPasswordLabel: string := "Confirm Password"

  /** The fixed mapping from field labels to the user's values. */
  function Mapping(d: UserDetails): (r: seq<Entry>)
    ensures |r| == 5
  {
    [
      Entry(FirstNameLabel, d.firstName),
      Entry(LastNameLabel, d.lastName),
      Entry(EmailLabel, d.email),
      Entry(PasswordLabel, d.password),
      Entry(ConfirmPasswordLabel, d.confirmPassword)
    ]
  }

  /** The mapping names five different fields, so no field is filled
      twice, and carries each of the user's values once, in prompt order:
      the values determine the details and the details the values. */
  lemma {:induction false} MappingFields(d1: UserDetails, d2: UserDetails)
    ensures forall i, j :: 0 <= i < j < 5 ==> Mapping(d1)[i].fieldName != Mapping(d1)[j].fieldName
    ensures forall i :: 0 <= i < 5 ==> Mapping(d1)[i].fieldName == Mapping(d2)[i].fieldName
    ensures Mapping(d1) == Mapping(d2) <==> d1 == d2
  {
    var m := Mapping(d1);
    forall i, j | 0 <= i < j < 5 ensures m[i].fieldName != m[j].fieldName {
      assert |m[i].fieldName| != |m[j].fieldName|;
    }
    if Mapping(d1) == Mapping(d2) {
      assert Mapping(d1)[4].value == Mapping(d2)[4].value;
    }
  }

  const SubmitCaption: string := "Create Account"

  /** The names of the screenshots `main` takes before and after filling. */
  const PageLoaded: string := "page_loaded"
  const FormSubmitted: string := "form_submitted"

  /** The attempts a run of first-success searches makes, one search per
      list, each starting where the previous one stopped. */
  function Searches(page: Page, t: nat, lists: seq<seq<Action>>): seq<Action>
    decreases |lists|
  {
    if lists == [] then []
    else
      var prev := Searches(page, t, lists[..|lists| - 1]);
      prev + SearchTrace(page, t + |prev|, lists[|lists| - 1])
  }

  /** One more list adds the attempts of one more search. */
  lemma {:induction false} SearchesStep(page: Page, t: nat, lists: seq<seq<Action>>, i: nat)
    requires i < |lists|
    ensures var prev := Searches(page, t, lists[..i]);
            Searches(page, t, lists[..i + 1]) == prev + SearchTrace(page, t + |prev|, lists[i])
  {
    assert lists[..i + 1][..i] == lists[..i];
  }

  /** Re-association, stated once so that the solver need not find it by
      extensionality inside larger proofs. */
  lemma {:induction false} AppendAssoc<T>(a: seq<T>, b: seq<T>, c: seq<T>)
    ensures a + (b + c) == a + b + c
  {
  }

  /** A history that holds the searches over the first `i` lists, extended
      by the search over list `i`, holds the searches over the first
      `i + 1` lists; so do the step names recorded along the way. */
  lemma {:induction false} SearchesExtend(page: Page, t: nat, lists: seq<seq<Action>>, i: nat,
                       start: seq<Action>, before: seq<Action>, after: seq<Action>,
                       names0: seq<string>, namesBefore: seq<string>, namesAfter: seq<string>)
    requires i < |lists| && |start| == t
    requires before == start + Searches(page, t, lists[..i])
    requires namesBefore == names0 + Shots(page, t, Searches(page, t, lists[..i]))
    requires after == before + SearchTrace(page, |before|, lists[i])
    requires namesAfter == namesBefore + Shots(page, |before|, SearchTrace(page, |before|, lists[i]))
    ensures after == start + Searches(page, t, lists[..i + 1])
    ensures namesAfter == names0 + Shots(page, t, Searches(page, t, lists[..i + 1]))
  {
    var prev := Searches(page, t, lists[..i]);
    var tr := SearchTrace(page, |before|, lists[i]);
    assert Searches(page, t, lists[..i + 1]) == prev + tr by {
      SearchesStep(page, t, lists, i);
      SameSearchStart(page, |before|, t + |prev|, lists[i], tr);
    }
    AppendAssoc(start, prev, tr);
    NamesThen(page, t, |before|, names0, namesBefore, namesAfter, prev, tr);
  }

  /** A search over a non-empty list makes at least one attempt and at most
      one per list element. */
  lemma {:induction false} SearchTraceBounds(page: Page, t: nat, attempts: seq<Action>)
    ensures 0 < |attempts| ==> 1 <= |SearchTrace(page, t, attempts)|
    ensures |SearchTrace(page, t, attempts)| <= |attempts|
  {
  }

  /** The nonlinear step of `SearchesBounds`, which the solver does not find
      by itself. */
  lemma {:induction false} MulSucc(n: nat, m: nat)
    ensures n * (m + 1) == n * m + n
  {
  }

  /** When every list has `n > 0` attempts, a run of searches makes at least
      one attempt per list and at most `n` per list. */
  lemma {:induction false} SearchesBounds(page: Page, t: nat, lists: seq<seq<Action>>, n: nat)
    requires n > 0
    requires forall i :: 0 <= i < |lists| ==> |lists[i]| == n
    ensures |lists| <= |Searches(page, t, lists)| <= n * |lists|
    decreases |lists|
  {
    if lists != [] {
      var init := lists[..|lists| - 1];
      assert forall i :: 0 <= i < |init| ==> init[i] == lists[i];
      SearchesBounds(page, t, init, n);
      SearchTraceBounds(page, t + |Searches(page, t, init)|, lists[|lists| - 1]);
      MulSucc(n, |init|);
    }
  }

  /** The attempt lists of `fillField`, one per entry. */
  function FillLists(entries: seq<Entry>): (r: seq<seq<Action>>)
    ensures |r| == |entries|
    ensures forall i :: 0 <= i < |entries| ==> r[i] == FillAttempts(entries[i].fieldName, entries[i].value)
  {
    seq(|entries|, i requires 0 <= i < |entries| => FillAttempts(entries[i].fieldName, entries[i].value))
  }

  /** The step name `takeStepScreenshot` records when attempt `a`
      completes: `typed_<selector>`, `fuzzy_<field label>`,
      `clicked_<caption>`, `agent_filled_<label>`, or the name of a bare
      screenshot. */
  function StepNameOf(a: Action): string {
    match a
    case Type(target, _) => TypedPrefix + (if IsSelectorForm(target) then Selector(target) else [])
    case FuzzyType(target, _) => FuzzyPrefix + (if target.ByPlaceholder? then target.pattern else [])
    case Click(_, caption) => ClickedPrefix + caption
    case LabelFill(labelText, _) => AgentFilledPrefix + labelText
    case Snapshot(stepName) => stepName
  }

  /** A `performType` attempt is recorded under the selector it was given. */
  lemma {:induction false} TypeStepName(selector: string, value: string)
    ensures StepNameOf(Type(GetLocator(selector), value)) == TypedPrefix + selector
  {
    GetLocatorRoundTrip(selector);
  }

  /** Attempt `k` of `fillField` is recorded under the name its screenshot
      carries. */
  lemma {:induction false} FillStepNames(fieldName: string, value: string, k: nat)
    requires k < 5
    ensures StepNameOf(FillAttempts(fieldName, value)[k]) == FillStepName(fieldName, k)
  {
    if k < 4 {
      TypeStepName(FillSelectors(fieldName)[k], value);
    }
  }

  /** The step names of the screenshots the attempts `trace`, made from time
      `t` on, leave behind: one for each attempt that completes, in order. */
  function Shots(page: Page, t: nat, trace: seq<Action>): seq<string>
    decreases |trace|
  {
    if trace == [] then []
    else
      var n := |trace| - 1;
      Shots(page, t, trace[..n]) + (if page(t + n, trace[n]) == Completed then [StepNameOf(trace[n])] else [])
  }

  /** A single attempt leaves a screenshot exactly when it completes. */
  lemma {:induction false} ShotsOfOne(page: Page, t: nat, a: Action)
    ensures Shots(page, t, [a]) == if page(t, a) == Completed then [StepNameOf(a)] else []
  {
    assert [a][..0] == [];
  }

  /** Attempts made one after the other leave the screenshots of the first,
      then those of the second. */
  lemma {:induction false} ShotsAppend(page: Page, t: nat, a: seq<Action>, b: seq<Action>)
    ensures Shots(page, t, a + b) == Shots(page, t, a) + Shots(page, t + |a|, b)
    decreases |b|
  {
    if b == [] {
      assert a + b == a;
    } else {
      var n := |b| - 1;
      var ab := a + b;
      assert ab[..|a| + n] == a + b[..n];
      assert ab[|a| + n] == b[n];
      ShotsAppend(page, t, a, b[..n]);
      assert t + (|ab| - 1) == t + |a| + n;
    }
  }

  /** Attempts that all fail leave no screenshot. */
  lemma {:induction false} ShotsOfFailures(page: Page, t: nat, trace: seq<Action>)
    requires forall j :: 0 <= j < |trace| ==> page(t + j, trace[j]) != Completed
    ensures Shots(page, t, trace) == []
    decreases |trace|
  {
    if trace != [] {
      var n := |trace| - 1;
      assert forall j :: 0 <= j < n ==> trace[..n][j] == trace[j];
      ShotsOfFailures(page, t, trace[..n]);
    }
  }

  /** A first-success search leaves one screenshot, the winner's, or none. */
  lemma {:induction false} ShotsOfSearch(page: Page, t: nat, attempts: seq<Action>)
    ensures var k := FirstCompleted(page, t, attempts);
            Shots(page, t, SearchTrace(page, t, attempts))
              == if k < |attempts| then [StepNameOf(attempts[k])] else []
  {
    var k := FirstCompleted(page, t, attempts);
    FirstCompletedSound(page, t, attempts);
    if k < |attempts| {
      var tr := SearchTrace(page, t, attempts);
      assert tr[..k] == attempts[..k];
      assert forall j :: 0 <= j < k ==> attempts[..k][j] == attempts[j];
      ShotsOfFailures(page, t, attempts[..k]);
    } else {
      assert SearchTrace(page, t, attempts) == attempts;
      ShotsOfFailures(page, t, attempts);
    }
  }

  /** What a loop over `attempts` that stops at the first success leaves
      behind, when it stopped at `i` (`ok`) or ran out (`!ok`): exactly the
      search's attempts and the winner's step name. */
  lemma {:induction false} SearchLoopResult(page: Page, t: nat, attempts: seq<Action>, i: nat, ok: bool,
                         h0: seq<Action>, h: seq<Action>, n0: seq<string>, n: seq<string>)
    requires i <= |attempts| && |h0| == t
    requires forall j :: 0 <= j < i ==> page(t + j, attempts[j]) != Completed
    requires ok ==> i < |attempts| && page(t + i, attempts[i]) == Completed
    requires !ok ==> i == |attempts|
    requires h == h0 + attempts[..i] + (if ok then [attempts[i]] else [])
    requires n == n0 + (if ok then [StepNameOf(attempts[i])] else [])
    ensures var k := FirstCompleted(page, t, attempts);
            && ok == (k < |attempts|)
            && (ok ==> k == i)
            && h == h0 + SearchTrace(page, t, attempts)
            && n == n0 + Shots(page, t, SearchTrace(page, t, attempts))
  {
    var won := if ok then [attempts[i]] else [];
    assert FirstCompleted(page, t, attempts) == i by {
      FirstCompletedIsFirst(page, t, attempts, i);
    }
    var trace := SearchTrace(page, t, attempts);
    assert trace == attempts[..i] + won by {
      if ok {
        assert attempts[..i] + [attempts[i]] == attempts[..i + 1];
      } else {
        assert attempts[..i] == attempts;
      }
    }
    assert h == h0 + trace by {
      AppendAssoc(h0, attempts[..i], won);
    }
    assert Shots(page, t, trace) == if ok then [StepNameOf(attempts[i])] else [] by {
      ShotsOfSearch(page, t, attempts);
    }
  }

  /** Step names that grew by those `a` leaves, then by those `b` leaves
      when started where `a` stopped, grew by those `a + b` leaves. */
  lemma {:induction false} NamesThen(page: Page, t: nat, t1: nat, n0: seq<string>, n1: seq<string>, n2: seq<string>,
                  a: seq<Action>, b: seq<Action>)
    requires t1 == t + |a|
    requires n1 == n0 + Shots(page, t, a) && n2 == n1 + Shots(page, t1, b)
    ensures n2 == n0 + Shots(page, t, a + b)
  {
    ShotsSplit(page, t, t1, a, b);
    AppendAssoc(n0, Shots(page, t, a), Shots(page, t1, b));
  }

  /** Step names that grew by those `trace` leaves, then by `name` if a
      bare screenshot `name` completes where `trace` stopped, grew by those
      `trace` and the screenshot together leave. */
  lemma {:induction false} NamesThenSnapshot(page: Page, t: nat, t1: nat, n0: seq<string>, n1: seq<string>, n2: seq<string>,
                          trace: seq<Action>, name: string)
    requires t1 == t + |trace|
    requires n1 == n0 + Shots(page, t, trace)
    requires n2 == n1 + (if page(t1, Snapshot(name)) == Completed then [name] else [])
    ensures n2 == n0 + Shots(page, t, trace + [Snapshot(name)])
  {
    ShotsOfOne(page, t1, Snapshot(name));
    NamesThen(page, t, t1, n0, n1, n2, trace, [Snapshot(name)]);
  }

  /** `ShotsAppend` with the second start time given. */
  lemma {:induction false} ShotsSplit(page: Page, t: nat, t1: nat, a: seq<Action>, b: seq<Action>)
    requires t1 == t + |a|
    ensures Shots(page, t, a + b) == Shots(page, t, a) + Shots(page, t1, b)
  {
    ShotsAppend(page, t, a, b);
  }

  /** The attempts of the form filling and the click, from time `t` on:
      one first-success search per list of `fillLists` (one `fillField` per
      entry of the mapping), then the search of `performClick` over
      `clickAttempts`. */
  function FillClickTrace(page: Page, t: nat, fillLists: seq<seq<Action>>, clickAttempts: seq<Action>): seq<Action> {
    var fills := Searches(page, t, fillLists);
    fills + SearchTrace(page, t + |fills|, clickAttempts)
  }

  /** The attempts of `main` after the first screenshot, from time `t` on:
      the form filling and the click, then the last screenshot. */
  function SubmitTrace(page: Page, t: nat, fillLists: seq<seq<Action>>, clickAttempts: seq<Action>): seq<Action> {
    FillClickTrace(page, t, fillLists, clickAttempts) + [Snapshot(FormSubmitted)]
  }

  /** The attempts of `main` from time `t` on: the first screenshot and, if
      it completed, the rest of the run. */
  function RunTrace(page: Page, t: nat, fillLists: seq<seq<Action>>, clickAttempts: seq<Action>): seq<Action> {
    if page(t, Snapshot(PageLoaded)) != Completed then [Snapshot(PageLoaded)]
    else [Snapshot(PageLoaded)] + SubmitTrace(page, t + 1, fillLists, clickAttempts)
  }

  /** Whether the last screenshot of `main`, taken from time `t` on after
      the form filling and the click, completes. */
  predicate SubmitSucceeds(page: Page, t: nat, fillLists: seq<seq<Action>>, clickAttempts: seq<Action>) {
    page(t + |FillClickTrace(page, t, fillLists, clickAttempts)|, Snapshot(FormSubmitted)) == Completed
  }

  /** Whether `main` ends normally: both screenshots outside a try block,
      the first and the last of the run, complete. */
  predicate RunSucceeds(page: Page, t: nat, fillLists: seq<seq<Action>>, clickAttempts: seq<Action>) {
    page(t, Snapshot(PageLoaded)) == Completed && SubmitSucceeds(page, t + 1, fillLists, clickAttempts)
  }

  /** Once the first screenshot is taken, the run fills each field with one
      to five attempts, clicks with one to five attempts and ends with the
      last screenshot; for the five fields of the mapping that is 8 to 32
      attempts in all. */
  lemma {:induction false} RunTraceShape(page: Page, t: nat, entries: seq<Entry>, caption: string)
    ensures var r := RunTrace(page, t, FillLists(entries), ClickAttempts(caption));
            && |r| >= 1 && r[0] == Snapshot(PageLoaded)
            && (page(t, Snapshot(PageLoaded)) != Completed ==> |r| == 1)
            && (page(t, Snapshot(PageLoaded)) == Completed ==>
                  && 1 + |entries| + 1 + 1 <= |r| <= 1 + 5 * |entries| + 5 + 1
                  && r[|r| - 1] == Snapshot(FormSubmitted))
  {
    if page(t, Snapshot(PageLoaded)) == Completed {
      var lists := FillLists(entries);
      SearchesBounds(page, t + 1, lists, 5);
      var fills := Searches(page, t + 1, lists);
      SearchTraceBounds(page, t + 1 + |fills|, ClickAttempts(caption));
    }
  }

  /** `main` ends normally exactly when its first screenshot completes and
      so does the last attempt of its run, the last screenshot. */
  lemma {:induction false} RunSucceedsAtLast(page: Page, t: nat, fillLists: seq<seq<Action>>, clickAttempts: seq<Action>)
    ensures var r := RunTrace(page, t, fillLists, clickAttempts);
            RunSucceeds(page, t, fillLists, clickAttempts) <==>
              page(t, Snapshot(PageLoaded)) == Completed
              && r[|r| - 1] == Snapshot(FormSubmitted)
              && page(t + |r| - 1, Snapshot(FormSubmitted)) == Completed
  {
    if page(t, Snapshot(PageLoaded)) == Completed {
      var fillClick := FillClickTrace(page, t + 1, fillLists, clickAttempts);
      var r := RunTrace(page, t, fillLists, clickAttempts);
      assert r == [Snapshot(PageLoaded)] + (fillClick + [Snapshot(FormSubmitted)]);
      assert t + |r| - 1 == t + 1 + |fillClick|;
    }
  }

  /** Congruence helper: a search started at two equal times is the same
      search (the solver is slow to see this when the times are computed). */
  lemma {:induction false} SameSearchStart(page: Page, t1: nat, t2: nat, attempts: seq<Action>, r: seq<Action>)
    requires t1 == t2 && r == SearchTrace(page, t1, attempts)
    ensures r == SearchTrace(page, t2, attempts)
  {
  }

  /** As `SameSearchStart`, for the rest of the run. */
  lemma {:induction false} SameSubmitStart(page: Page, t1: nat, t2: nat, fillLists: seq<seq<Action>>, clickAttempts: seq<Action>, r: seq<Action>)
    requires t1 == t2 && r == SubmitTrace(page, t1, fillLists, clickAttempts)
    ensures r == SubmitTrace(page, t2, fillLists, clickAttempts)
  {
  }

  /** The fills and then the click, each started where the one before
      stopped, leave the attempts and step names of `FillClickTrace`. */
  lemma {:induction false} FillClickNames(page: Page, fillLists: seq<seq<Action>>, clickAttempts: seq<Action>,
                       start: seq<Action>, afterFill: seq<Action>, afterClick: seq<Action>,
                       names0: seq<string>, namesFill: seq<string>, namesClick: seq<string>)
    requires afterFill == start + Searches(page, |start|, fillLists)
    requires namesFill == names0 + Shots(page, |start|, Searches(page, |start|, fillLists))
    requires afterClick == afterFill + SearchTrace(page, |afterFill|, clickAttempts)
    requires namesClick == namesFill + Shots(page, |afterFill|, SearchTrace(page, |afterFill|, clickAttempts))
    ensures afterClick == start + FillClickTrace(page, |start|, fillLists, clickAttempts)
    ensures namesClick == names0 + Shots(page, |start|, FillClickTrace(page, |start|, fillLists, clickAttempts))
  {
    var fills := Searches(page, |start|, fillLists);
    var clicks := SearchTrace(page, |afterFill|, clickAttempts);
    var both := FillClickTrace(page, |start|, fillLists, clickAttempts);
    assert both == fills + clicks by {
      SameSearchStart(page, |afterFill|, |start| + |fills|, clickAttempts, clicks);
      FillClickTraceIs(page, |start|, fillLists, clickAttempts, fills, clicks);
    }
    assert afterClick == start + both by {
      AppendAssoc(start, fills, clicks);
    }
    NamesThen(page, |start|, |afterFill|, names0, namesFill, namesClick, fills, clicks);
  }

  /** `FillClickTrace` from its two parts. */
  lemma {:induction false} FillClickTraceIs(page: Page, t: nat, fillLists: seq<seq<Action>>, clickAttempts: seq<Action>,
                         fills: seq<Action>, clicks: seq<Action>)
    requires fills == Searches(page, t, fillLists) && clicks == SearchTrace(page, t + |fills|, clickAttempts)
    ensures FillClickTrace(page, t, fillLists, clickAttempts) == fills + clicks
  {
  }

  /** As `FillClickNames`, with the screenshots numbered on from the
      counter. */
  lemma {:induction false} FillClickAssemble(page: Page, fillLists: seq<seq<Action>>, clickAttempts: seq<Action>,
                          start: seq<Action>, afterFill: seq<Action>, afterClick: seq<Action>,
                          names0: seq<string>, namesFill: seq<string>, namesClick: seq<string>,
                          shots0: seq<string>, shotsClick: seq<string>, counter: nat)
    requires afterFill == start + Searches(page, |start|, fillLists)
    requires namesFill == names0 + Shots(page, |start|, Searches(page, |start|, fillLists))
    requires afterClick == afterFill + SearchTrace(page, |afterFill|, clickAttempts)
    requires namesClick == namesFill + Shots(page, |afterFill|, SearchTrace(page, |afterFill|, clickAttempts))
    requires shots0 == StepPaths(names0) && shotsClick == StepPaths(namesClick) && counter == |names0| + 1
    ensures afterClick == start + FillClickTrace(page, |start|, fillLists, clickAttempts)
    ensures namesClick == names0 + Shots(page, |start|, FillClickTrace(page, |start|, fillLists, clickAttempts))
    ensures shotsClick == shots0 + PathsFrom(counter, Shots(page, |start|, FillClickTrace(page, |start|, fillLists, clickAttempts)))
  {
    FillClickNames(page, fillLists, clickAttempts, start, afterFill, afterClick, names0, namesFill, namesClick);
    StepPathsConcat(names0, Shots(page, |start|, FillClickTrace(page, |start|, fillLists, clickAttempts)));
  }

  /** The fills and the click, then the last screenshot, leave the
      attempts, step names and screenshots of `SubmitTrace`, numbered on
      from the counter. */
  lemma {:induction false} SubmitAssemble(page: Page, fillLists: seq<seq<Action>>, clickAttempts: seq<Action>,
                       start: seq<Action>, afterClick: seq<Action>, done: seq<Action>,
                       names0: seq<string>, namesClick: seq<string>, namesDone: seq<string>,
                       shots0: seq<string>, shotsDone: seq<string>, counter: nat, saved: bool)
    requires afterClick == start + FillClickTrace(page, |start|, fillLists, clickAttempts)
    requires namesClick == names0 + Shots(page, |start|, FillClickTrace(page, |start|, fillLists, clickAttempts))
    requires done == afterClick + [Snapshot(FormSubmitted)]
    requires namesDone == namesClick + (if page(|afterClick|, Snapshot(FormSubmitted)) == Completed then [FormSubmitted] else [])
    requires shots0 == StepPaths(names0) && shotsDone == StepPaths(namesDone) && counter == |names0| + 1
    requires saved == (page(|afterClick|, Snapshot(FormSubmitted)) == Completed)
    ensures done == start + SubmitTrace(page, |start|, fillLists, clickAttempts)
    ensures saved == SubmitSucceeds(page, |start|, fillLists, clickAttempts)
    ensures namesDone == names0 + Shots(page, |start|, SubmitTrace(page, |start|, fillLists, clickAttempts))
    ensures shotsDone == shots0 + PathsFrom(counter, Shots(page, |start|, SubmitTrace(page, |start|, fillLists, clickAttempts)))
  {
    var fillClick := FillClickTrace(page, |start|, fillLists, clickAttempts);
    var last := [Snapshot(FormSubmitted)];
    var rest := SubmitTrace(page, |start|, fillLists, clickAttempts);
    assert rest == fillClick + last;
    assert done == start + rest by {
      AppendAssoc(start, fillClick, last);
    }
    assert namesDone == names0 + Shots(page, |start|, rest) by {
      NamesThenSnapshot(page, |start|, |afterClick|, names0, namesClick, namesDone, fillClick, FormSubmitted);
    }
    StepPathsConcat(names0, Shots(page, |start|, rest));
    assert |afterClick| == |start| + |fillClick|;
  }

  /** The first screenshot, completed, followed by the rest of the run is
      the run's trace. */
  lemma {:induction false} RunTraceAssemble(page: Page, fillLists: seq<seq<Action>>, clickAttempts: seq<Action>,
                         start: seq<Action>, afterLoad: seq<Action>, done: seq<Action>)
    requires page(|start|, Snapshot(PageLoaded)) == Completed
    requires afterLoad == start + [Snapshot(PageLoaded)]
    requires done == afterLoad + SubmitTrace(page, |afterLoad|, fillLists, clickAttempts)
    ensures done == start + RunTrace(page, |start|, fillLists, clickAttempts)
  {
    var rest := SubmitTrace(page, |afterLoad|, fillLists, clickAttempts);
    SameSubmitStart(page, |afterLoad|, |start| + 1, fillLists, clickAttempts, rest);
    AppendAssoc(start, [Snapshot(PageLoaded)], rest);
  }

  /** A run whose first screenshot completes leaves `page_loaded`, then
      the step names the rest of the run leaves. */
  lemma {:induction false} RunShotsOf(page: Page, t: nat, t1: nat, fillLists: seq<seq<Action>>, clickAttempts: seq<Action>)
    requires page(t, Snapshot(PageLoaded)) == Completed && t1 == t + 1
    ensures Shots(page, t, RunTrace(page, t, fillLists, clickAttempts))
              == [PageLoaded] + Shots(page, t1, SubmitTrace(page, t1, fillLists, clickAttempts))
  {
    var rest := SubmitTrace(page, t1, fillLists, clickAttempts);
    SameSubmitStart(page, t1, t + 1, fillLists, clickAttempts, rest);
    ShotsOfOne(page, t, Snapshot(PageLoaded));
    ShotsSplit(page, t, t1, [Snapshot(PageLoaded)], rest);
  }

  /** The history, step names and screenshots of `main` when the first
      screenshot completes: those of the first screenshot, then those of
      the rest of the run. */
  lemma {:induction false} RunAssemble(page: Page, fillLists: seq<seq<Action>>, clickAttempts: seq<Action>,
                    h0: seq<Action>, n0: seq<string>, s0: seq<string>, c0: nat,
                    h1: seq<Action>, n1: seq<string>, s1: seq<string>, c1: nat,
                    h: seq<Action>, n: seq<string>, s: seq<string>)
    requires page(|h0|, Snapshot(PageLoaded)) == Completed
    requires h1 == h0 + [Snapshot(PageLoaded)] && n1 == n0 + [PageLoaded]
    requires s1 == s0 + [ScreenshotPath(c0, PageLoaded)] && c1 == c0 + 1
    requires h == h1 + SubmitTrace(page, |h1|, fillLists, clickAttempts)
    requires n == n1 + Shots(page, |h1|, SubmitTrace(page, |h1|, fillLists, clickAttempts))
    requires s == s1 + PathsFrom(c1, Shots(page, |h1|, SubmitTrace(page, |h1|, fillLists, clickAttempts)))
    ensures h == h0 + RunTrace(page, |h0|, fillLists, clickAttempts)
    ensures n == n0 + Shots(page, |h0|, RunTrace(page, |h0|, fillLists, clickAttempts))
    ensures s == s0 + PathsFrom(c0, Shots(page, |h0|, RunTrace(page, |h0|, fillLists, clickAttempts)))
    ensures s0 <= s && |s| > |s0| && s[|s0|] == ScreenshotPath(c0, PageLoaded)
  {
    var more := Shots(page, |h1|, SubmitTrace(page, |h1|, fillLists, clickAttempts));
    var first := ScreenshotPath(c0, PageLoaded);
    assert h == h0 + RunTrace(page, |h0|, fillLists, clickAttempts) by {
      RunTraceAssemble(page, fillLists, clickAttempts, h0, h1, h);
    }
    RunShotsOf(page, |h0|, |h1|, fillLists, clickAttempts);
    AppendAssoc(n0, [PageLoaded], more);
    PathsFromCons(c0, PageLoaded, more);
    AppendAssoc(s0, [first], PathsFrom(c1, more));
    assert s[|s0|] == first;
  }

  /** What `main` leaves behind, whether or not its first screenshot
      completes: the attempts, step names and screenshots of `RunTrace`, and
      an exit without error exactly when both screenshots outside a try
      block complete. */
  lemma {:induction false} RunOutcome(page: Page, fillLists: seq<seq<Action>>, clickAttempts: seq<Action>,
                                      h0: seq<Action>, n0: seq<string>, s0: seq<string>, c0: nat, loaded: bool,
                                      h1: seq<Action>, n1: seq<string>, s1: seq<string>, c1: nat,
                                      h: seq<Action>, n: seq<string>, s: seq<string>, saved: bool, result: RunResult)
    requires loaded == (page(|h0|, Snapshot(PageLoaded)) == Completed)
    requires h1 == h0 + [Snapshot(PageLoaded)]
    requires n1 == n0 + (if loaded then [PageLoaded] else [])
    requires s1 == s0 + (if loaded then [ScreenshotPath(c0, PageLoaded)] else [])
    requires c0 == |s0| + 1 && c1 == |s1| + 1
    requires loaded ==>
               && h == h1 + SubmitTrace(page, |h1|, fillLists, clickAttempts)
               && n == n1 + Shots(page, |h1|, SubmitTrace(page, |h1|, fillLists, clickAttempts))
               && s == s1 + PathsFrom(c1, Shots(page, |h1|, SubmitTrace(page, |h1|, fillLists, clickAttempts)))
               && saved == SubmitSucceeds(page, |h1|, fillLists, clickAttempts)
    requires !loaded ==> h == h1 && n == n1 && s == s1 && !saved
    requires result == if loaded && saved then Done else Fatal
    ensures h == h0 + RunTrace(page, |h0|, fillLists, clickAttempts)
    ensures result == Done <==>
              RunSucceeds(page, |h0|, fillLists, clickAttempts)
    ensures n == n0 + Shots(page, |h0|, RunTrace(page, |h0|, fillLists, clickAttempts))
    ensures s == s0 + PathsFrom(c0, Shots(page, |h0|, RunTrace(page, |h0|, fillLists, clickAttempts)))
    ensures s0 <= s
    ensures page(|h0|, Snapshot(PageLoaded)) == Completed <==> |s| > |s0| && s[|s0|] == ScreenshotPath(c0, PageLoaded)
  {
    if loaded {
      RunAssemble(page, fillLists, clickAttempts, h0, n0, s0, c0, h1, n1, s1, c1, h, n, s);
      assert |h1| == |h0| + 1;
    } else {
      ShotsOfOne(page, |h0|, Snapshot(PageLoaded));
    }
  }

  /** When one of the four selectors works, `fillField`'s search is the
      selector loop's search. */
  lemma {:induction false} FillFoundByTyping(page: Page, t: nat, fieldName: string, value: string)
    requires var typed := TypeAttempts(FillSelectors(fieldName), value);
             FirstCompleted(page, t, typed) < |typed|
    ensures var typed := TypeAttempts(FillSelectors(fieldName), value);
            var attempts := FillAttempts(fieldName, value);
            && FirstCompleted(page, t, attempts) == FirstCompleted(page, t, typed)
            && SearchTrace(page, t, attempts) == SearchTrace(page, t, typed)
  {
    var typed := TypeAttempts(FillSelectors(fieldName), value);
    var fuzzy := FuzzyType(ByPlaceholder(fieldName), value);
    FirstCompletedAppend(page, t, typed, [fuzzy]);
    var k := FirstCompleted(page, t, typed);
    assert FillAttempts(fieldName, value)[..k + 1] == typed[..k + 1];
  }

  /** When all four selectors fail, `fillField`'s search goes on to the
      fuzzy match, which alone decides the result and the screenshot:
      histories and step names grown by the failed loop and then by the
      fuzzy attempt hold exactly the search's attempts and screenshots. */
  lemma {:induction false} FillFoundByFuzzy(page: Page, t: nat, fieldName: string, value: string,
                         h0: seq<Action>, h1: seq<Action>, h2: seq<Action>,
                         n0: seq<string>, n1: seq<string>, n2: seq<string>)
    requires var typed := TypeAttempts(FillSelectors(fieldName), value);
             FirstCompleted(page, t, typed) == |typed| && |h0| == t
    requires var typed := TypeAttempts(FillSelectors(fieldName), value);
             h1 == h0 + SearchTrace(page, t, typed) && n1 == n0 + Shots(page, t, SearchTrace(page, t, typed))
    requires var fuzzy := FuzzyType(ByPlaceholder(fieldName), value);
             h2 == h1 + [fuzzy]
             && n2 == n1 + (if page(|h1|, fuzzy) == Completed then [FuzzyPrefix + fieldName] else [])
    ensures var attempts := FillAttempts(fieldName, value);
            var k := FirstCompleted(page, t, attempts);
            var done := page(|h1|, FuzzyType(ByPlaceholder(fieldName), value)) == Completed;
            && (k < |attempts| <==> done)
            && (done ==> k == 4)
            && h2 == h0 + SearchTrace(page, t, attempts)
            && n2 == n0 + Shots(page, t, SearchTrace(page, t, attempts))
  {
    var typed := TypeAttempts(FillSelectors(fieldName), value);
    var fuzzy := FuzzyType(ByPlaceholder(fieldName), value);
    FirstCompletedAppend(page, t, typed, [fuzzy]);
    assert SearchTrace(page, t, typed) == typed;
    assert FillAttempts(fieldName, value)[..5] == typed + [fuzzy];
    ShotsOfOne(page, t + 4, fuzzy);
    AppendAssoc(h0, typed, [fuzzy]);
    NamesThen(page, t, |h1|, n0, n1, n2, typed, [fuzzy]);
  }

  /** How the run ends: normally, or through the top-level handler (exit
      code 1) when an exception escapes the driver. */
  datatype RunResult = Done | Fatal

  /** The exit status: the top-level handler exits with 1. */
  function ExitCode(r: RunResult): (code: int)
    ensures code == 0 <==> r == Done
  {
    if r.Done? then 0 else 1
  }

  /** The engine's state: the step counter, the screenshots written and
      the attempts made so far. */
  class WebAgent {
    var stepCounter: nat
    var screenshots: seq<string>
    ghost var stepNames: seq<string>
    var history: seq<Action>

    /** The counter is one more than the number of screenshots written, and
        the i-th screenshot (from 0) carries step number i + 1. */
    ghost predicate Valid()
      reads this
    {
      && stepCounter == |screenshots| + 1
      && screenshots == StepPaths(stepNames)
    }

    /** The module is loaded: the counter starts at 1. */
    constructor ()
      ensures Valid()
      ensures stepCounter == 1 && screenshots == [] && history == []
    {
      stepCounter := 1;
      screenshots := [];
      stepNames := [];
      history := [];
    }

    /** No screenshot ever overwrites an earlier one. */
    lemma {:induction false} NoScreenshotOverwritten()
      requires Valid()
      ensures forall i, j :: 0 <= i < j < |screenshots| ==> screenshots[i] != screenshots[j]
    {
      StepPathsDistinct(stepNames);
    }

    /** `takeStepScreenshot`: the screenshot is saved under the current step
        number and the slug of the step name; the counter advances only once
        the screenshot call has returned. `captured` is the outcome of that
        call; `false` stands for the exception it throws. */
    method TakeStepScreenshot(stepName: string, captured: bool) returns (ok: bool)
      requires Valid()
      modifies this`stepCounter, this`screenshots, this`stepNames
      ensures Valid()
      ensures ok == captured
      ensures stepCounter == old(stepCounter) + (if captured then 1 else 0)
      ensures screenshots == old(screenshots) + (if captured then [ScreenshotPath(old(stepCounter), stepName)] else [])
      ensures stepNames == old(stepNames) + (if captured then [stepName] else [])
    {
      var number := StepNumber(stepCounter);
      var safeName := Slug(stepName);
      var filePath := ScreenshotDir + number + "_" + safeName + ScreenshotExt;
      if captured {
        StepPathsAppend(stepNames, stepName);
        screenshots := screenshots + [filePath];
        stepNames := stepNames + [stepName];
        stepCounter := stepCounter + 1;
      }
      ok := captured;
    }

    /** One try block: perform `action`, then take the step screenshot
        `stepName`. The attempt succeeds only if the screenshot completes
        too. */
    method Attempt(page: Page, action: Action, stepName: string) returns (ok: bool)
      requires Valid()
      modifies this`stepCounter, this`screenshots, this`stepNames, this`history
      ensures Valid()
      ensures ok == (page(old(|history|), action) == Completed)
      ensures history == old(history) + [action]
      ensures screenshots == old(screenshots) + (if ok then [ScreenshotPath(old(stepCounter), stepName)] else [])
      ensures stepNames == old(stepNames) + (if ok then [stepName] else [])
    {
      var outcome := page(|history|, action);
      history := history + [action];
      if outcome == Thrown {
        ok := false;
      } else {
        ok := TakeStepScreenshot(stepName, outcome == Completed);
      }
    }

    /** `performType(selector, value)`: one attempt on the located element,
        recorded as `typed_<selector>`. */
    method PerformType(page: Page, selector: string, value: string) returns (ok: bool)
      requires Valid()
      modifies this`stepCounter, this`screenshots, this`stepNames, this`history
      ensures Valid()
      ensures ok == (page(old(|history|), Type(GetLocator(selector), value)) == Completed)
      ensures history == old(history) + [Type(GetLocator(selector), value)]
      ensures screenshots == old(screenshots) + (if ok then [ScreenshotPath(old(stepCounter), TypedPrefix + selector)] else [])
      ensures stepNames == old(stepNames) + (if ok then [TypedPrefix + selector] else [])
    {
      ok := Attempt(page, Type(GetLocator(selector), value), TypedPrefix + selector);
    }

    /** The selector loop of `fillField`: `performType` on each selector in
        order, stopping at the first that succeeds. */
    method TypeFirst(page: Page, selectors: seq<string>, value: string) returns (ok: bool)
      requires Valid()
      modifies this`stepCounter, this`screenshots, this`stepNames, this`history
      ensures Valid()
      ensures var attempts := TypeAttempts(selectors, value);
              var k := FirstCompleted(page, old(|history|), attempts);
              && ok == (k < |attempts|)
              && history == old(history) + SearchTrace(page, old(|history|), attempts)
              && screenshots == old(screenshots)
                   + (if ok then [ScreenshotPath(old(stepCounter), TypedPrefix + selectors[k])] else [])
              && stepNames == old(stepNames) + Shots(page, old(|history|), SearchTrace(page, old(|history|), attempts))
    {
      ghost var t0 := |history|;
      ghost var attempts := TypeAttempts(selectors, value);
      var i := 0;
      while i < |selectors|
        invariant 0 <= i <= |selectors|
        invariant Valid()
        invariant history == old(history) + attempts[..i]
        invariant forall j :: 0 <= j < i ==> page(t0 + j, attempts[j]) != Completed
        invariant screenshots == old(screenshots) && stepNames == old(stepNames)
      {
        assert |history| == t0 + i;
        assert attempts[i] == Type(GetLocator(selectors[i]), value);
        ok := PerformType(page, selectors[i], value);
        assert ok == (page(t0 + i, attempts[i]) == Completed);
        if ok {
          TypeStepName(selectors[i], value);
          SearchLoopResult(page, t0, attempts, i, true, old(history), history, old(stepNames), stepNames);
          return;
        }
        assert attempts[..i + 1] == attempts[..i] + [attempts[i]];
        i := i + 1;
      }
      ok := false;
      SearchLoopResult(page, t0, attempts, i, false, old(history), history, old(stepNames), stepNames);
    }

    /** `fillField(fieldName, value)`: the four selectors in order, stopping
        at the first success, then the fuzzy placeholder match only if all
        four failed. */
    method FillField(page: Page, fieldName: string, value: string) returns (ok: bool)
      requires Valid()
      modifies this`stepCounter, this`screenshots, this`stepNames, this`history
      ensures Valid()
      ensures var attempts := FillAttempts(fieldName, value);
              var k := FirstCompleted(page, old(|history|), attempts);
              && ok == (k < |attempts|)
              && history == old(history) + SearchTrace(page, old(|history|), attempts)
              && screenshots == old(screenshots)
                   + (if ok then [ScreenshotPath(old(stepCounter), FillStepName(fieldName, k))] else [])
              && stepNames == old(stepNames) + Shots(page, old(|history|), SearchTrace(page, old(|history|), attempts))
    {
      ghost var t0 := |history|;
      var selectors := FillSelectors(fieldName);
      ok := TypeFirst(page, selectors, value);
      if ok {
        FillFoundByTyping(page, t0, fieldName, value);
        return;
      }
      ghost var h1, n1 := history, stepNames;
      ok := Attempt(page, FuzzyType(ByPlaceholder(fieldName), value), FuzzyPrefix + fieldName);
      FillFoundByFuzzy(page, t0, fieldName, value, old(history), h1, history, old(stepNames), n1, stepNames);
    }

    /** `performClick(buttonText)`: the five locators in order; the first
        whose wait, scroll, click and screenshot all complete wins, and the
        result is false only when all five fail. */
    method PerformClick(page: Page, buttonText: string) returns (ok: bool)
      requires Valid()
      modifies this`stepCounter, this`screenshots, this`stepNames, this`history
      ensures Valid()
      ensures var attempts := ClickAttempts(buttonText);
              && ok == (FirstCompleted(page, old(|history|), attempts) < |attempts|)
              && history == old(history) + SearchTrace(page, old(|history|), attempts)
              && screenshots == old(screenshots)
                   + (if ok then [ScreenshotPath(old(stepCounter), ClickedPrefix + buttonText)] else [])
              && stepNames == old(stepNames) + Shots(page, old(|history|), SearchTrace(page, old(|history|), attempts))
    {
      ghost var t0 := |history|;
      ghost var attempts := ClickAttempts(buttonText);
      var tries := ClickLocators(buttonText);
      var i := 0;
      while i < |tries|
        invariant 0 <= i <= |tries|
        invariant Valid()
        invariant history == old(history) + attempts[..i]
        invariant forall j :: 0 <= j < i ==> page(t0 + j, attempts[j]) != Completed
        invariant screenshots == old(screenshots) && stepNames == old(stepNames)
      {
        assert |history| == t0 + i;
        assert attempts[i] == Click(tries[i], buttonText);
        ok := Attempt(page, Click(tries[i], buttonText), ClickedPrefix + buttonText);
        assert ok == (page(t0 + i, attempts[i]) == Completed);
        if ok {
          SearchLoopResult(page, t0, attempts, i, true, old(history), history, old(stepNames), stepNames);
          return;
        }
        assert attempts[..i + 1] == attempts[..i] + [attempts[i]];
        i := i + 1;
      }
      ok := false;
      SearchLoopResult(page, t0, attempts, i, false, old(history), history, old(stepNames), stepNames);
    }

    /** The agent's `click` tool: `performClick`, reported as a string. */
    method ClickTool(page: Page, selector: string) returns (msg: string)
      requires Valid()
      modifies this`stepCounter, this`screenshots, this`stepNames, this`history
      ensures Valid()
      ensures var attempts := ClickAttempts(selector);
              var ok := FirstCompleted(page, old(|history|), attempts) < |attempts|;
              && msg == ClickStatus(selector, ok)
              && history == old(history) + SearchTrace(page, old(|history|), attempts)
              && screenshots == old(screenshots)
                   + (if ok then [ScreenshotPath(old(stepCounter), ClickedPrefix + selector)] else [])
              && stepNames == old(stepNames) + Shots(page, old(|history|), SearchTrace(page, old(|history|), attempts))
    {
      var ok := PerformClick(page, selector);
      msg := ClickStatus(selector, ok);
    }

    /** The agent's `type` tool: fill the first element whose label matches
        `selector`, take the step screenshot, report as a string. */
    method TypeTool(page: Page, selector: string, value: string) returns (msg: string)
      requires Valid()
      modifies this`stepCounter, this`screenshots, this`stepNames, this`history
      ensures Valid()
      ensures var ok := page(old(|history|), LabelFill(selector, value)) == Completed;
              && msg == TypeStatus(selector, ok)
              && history == old(history) + [LabelFill(selector, value)]
              && screenshots == old(screenshots)
                   + (if ok then [ScreenshotPath(old(stepCounter), AgentFilledPrefix + selector)] else [])
              && stepNames == old(stepNames) + (if ok then [AgentFilledPrefix + selector] else [])
    {
      var ok := Attempt(page, LabelFill(selector, value), AgentFilledPrefix + selector);
      msg := TypeStatus(selector, ok);
    }

    /** A step screenshot outside any try block; `false` stands for the
        exception that then escapes to the caller. */
    method RecordStep(page: Page, stepName: string) returns (ok: bool)
      requires Valid()
      modifies this`stepCounter, this`screenshots, this`stepNames, this`history
      ensures Valid()
      ensures ok == (page(old(|history|), Snapshot(stepName)) == Completed)
      ensures history == old(history) + [Snapshot(stepName)]
      ensures screenshots == old(screenshots) + (if ok then [ScreenshotPath(old(stepCounter), stepName)] else [])
      ensures stepNames == old(stepNames) + (if ok then [stepName] else [])
      ensures ok == (page(|history| - 1, Snapshot(stepName)) == Completed)
      ensures ok ==> |screenshots| > 0 && screenshots[|screenshots| - 1] == ScreenshotPath(stepCounter - 1, stepName)
    {
      ok := Attempt(page, Snapshot(stepName), stepName);
    }

    /** The loop of `main`: `fillField` once per entry, in order, whatever
        each returns. The screenshots written are those the searches leave
        behind, numbered on from the counter. */
    method FillEach(page: Page, entries: seq<Entry>)
      requires Valid()
      modifies this`stepCounter, this`screenshots, this`stepNames, this`history
      ensures Valid()
      ensures history == old(history) + Searches(page, old(|history|), FillLists(entries))
      ensures stepNames == old(stepNames) + Shots(page, old(|history|), Searches(page, old(|history|), FillLists(entries)))
      ensures screenshots == old(screenshots)
                + PathsFrom(old(stepCounter), Shots(page, old(|history|), Searches(page, old(|history|), FillLists(entries))))
      ensures old(screenshots) <= screenshots
    {
      ghost var t0 := |history|;
      ghost var lists := FillLists(entries);
      var i := 0;
      while i < |entries|
        invariant 0 <= i <= |entries|
        invariant Valid()
        invariant history == old(history) + Searches(page, t0, lists[..i])
        invariant stepNames == old(stepNames) + Shots(page, t0, Searches(page, t0, lists[..i]))
      {
        ghost var before, namesBefore := history, stepNames;
        var filled := FillField(page, entries[i].fieldName, entries[i].value);
        SearchesExtend(page, t0, lists, i, old(history), before, history, old(stepNames), namesBefore, stepNames);
        i := i + 1;
      }
      assert lists[..i] == lists;
      StepPathsConcat(old(stepNames), Shots(page, t0, Searches(page, t0, lists)));
    }

    /** The form filling and the click of `main`: `fillField` once per
        entry in order, whatever each returns, then `performClick` on the
        caption once, whatever it returns. */
    method FillAndClick(page: Page, entries: seq<Entry>, caption: string)
      requires Valid()
      modifies this`stepCounter, this`screenshots, this`stepNames, this`history
      ensures Valid()
      ensures history == old(history) + FillClickTrace(page, old(|history|), FillLists(entries), ClickAttempts(caption))
      ensures stepNames == old(stepNames)
                + Shots(page, old(|history|), FillClickTrace(page, old(|history|), FillLists(entries), ClickAttempts(caption)))
      ensures screenshots == old(screenshots)
                + PathsFrom(old(stepCounter),
                    Shots(page, old(|history|), FillClickTrace(page, old(|history|), FillLists(entries), ClickAttempts(caption))))
    {
      ghost var start, names0 := history, stepNames;
      FillEach(page, entries);
      ghost var afterFill, namesFill := history, stepNames;
      var clicked := PerformClick(page, caption);
      FillClickAssemble(page, FillLists(entries), ClickAttempts(caption), start, afterFill, history,
                        names0, namesFill, stepNames, old(screenshots), screenshots, old(stepCounter));
    }

    /** The body of `main` after the first screenshot: the form filling and
        the click, then the last screenshot, whose failure escapes to the
        caller. */
    method FillAndSubmit(page: Page, entries: seq<Entry>, caption: string) returns (saved: bool)
      requires Valid()
      modifies this`stepCounter, this`screenshots, this`stepNames, this`history
      ensures Valid()
      ensures history == old(history) + SubmitTrace(page, old(|history|), FillLists(entries), ClickAttempts(caption))
      ensures saved == SubmitSucceeds(page, old(|history|), FillLists(entries), ClickAttempts(caption))
      ensures stepNames == old(stepNames)
                + Shots(page, old(|history|), SubmitTrace(page, old(|history|), FillLists(entries), ClickAttempts(caption)))
      ensures screenshots == old(screenshots)
                + PathsFrom(old(stepCounter),
                    Shots(page, old(|history|), SubmitTrace(page, old(|history|), FillLists(entries), ClickAttempts(caption))))
      ensures old(screenshots) <= screenshots
      ensures saved ==> |screenshots| > old(|screenshots|)
                        && screenshots[|screenshots| - 1] == ScreenshotPath(stepCounter - 1, FormSubmitted)
    {
      ghost var start, names0 := history, stepNames;
      FillAndClick(page, entries, caption);
      ghost var afterClick, namesClick := history, stepNames;
      saved := RecordStep(page, FormSubmitted);
      SubmitAssemble(page, FillLists(entries), ClickAttempts(caption), start, afterClick, history,
                     names0, namesClick, stepNames, old(screenshots), screenshots, old(stepCounter), saved);
    }

    /** `main` from the moment the page has loaded, for a mapping of field
        labels to values and a submit caption: the first screenshot, then
        the form is filled and submitted. A failing first or last
        screenshot escapes to the top-level handler, which ends the run
        with exit code 1. */
    method Run(page: Page, entries: seq<Entry>, caption: string) returns (result: RunResult)
      requires Valid()
      modifies this`stepCounter, this`screenshots, this`stepNames, this`history
      ensures Valid()
      ensures history == old(history) + RunTrace(page, old(|history|), FillLists(entries), ClickAttempts(caption))
      ensures result == Done <==> RunSucceeds(page, old(|history|), FillLists(entries), ClickAttempts(caption))
      ensures stepNames == old(stepNames)
                + Shots(page, old(|history|), RunTrace(page, old(|history|), FillLists(entries), ClickAttempts(caption)))
      ensures screenshots == old(screenshots)
                + PathsFrom(old(stepCounter),
                    Shots(page, old(|history|), RunTrace(page, old(|history|), FillLists(entries), ClickAttempts(caption))))
      ensures old(screenshots) <= screenshots
      ensures page(old(|history|), Snapshot(PageLoaded)) == Completed <==>
                |screenshots| > old(|screenshots|)
                && screenshots[old(|screenshots|)] == ScreenshotPath(old(stepCounter), PageLoaded)
    {
      var loaded := RecordStep(page, PageLoaded);
      ghost var afterLoad, namesLoad, shotsLoad, counterLoad := history, stepNames, screenshots, stepCounter;
      var saved := false;
      if loaded {
        saved := FillAndSubmit(page, entries, caption);
      }
      result := if loaded && saved then Done else Fatal;
      RunOutcome(page, FillLists(entries), ClickAttempts(caption),
                 old(history), old(stepNames), old(screenshots), old(stepCounter), loaded,
                 afterLoad, namesLoad, shotsLoad, counterLoad, history, stepNames, screenshots, saved, result);
    }

    /** `main` with its own mapping of the five sign-up fields to the
        user's details and the caption "Create Account". */
    method SignUp(page: Page, details: UserDetails) returns (result: RunResult)
      requires Valid()
      modifies this`stepCounter, this`screenshots, this`stepNames, this`history
      ensures Valid()
      ensures history == old(history) + RunTrace(page, old(|history|), FillLists(Mapping(details)), ClickAttempts(SubmitCaption))
      ensures result == Done <==> RunSucceeds(page, old(|history|), FillLists(Mapping(details)), ClickAttempts(SubmitCaption))
      ensures stepNames == old(stepNames)
                + Shots(page, old(|history|), RunTrace(page, old(|history|), FillLists(Mapping(details)), ClickAttempts(SubmitCaption)))
      ensures screenshots == old(screenshots)
                + PathsFrom(old(stepCounter),
                    Shots(page, old(|history|), RunTrace(page, old(|history|), FillLists(Mapping(details)), ClickAttempts(SubmitCaption))))
    {
      result := Run(page, Mapping(details), SubmitCaption);
    }
  }
}
