# Web form-filling agent, modelled in Dafny

The agent opens a sign-up page in a browser. It fills the five fields
(first name, last name, email, password, confirm password) with the
values the user typed at its prompts, clicks "Create Account", and
records every step it completes as a numbered full-page screenshot.
It also defines the `click` and `type` tools of its LLM agent, built on
the same primitives. This project models that engine:

- `text.dfy`: character classes as the JavaScript regular expressions
  use them. This includes the exact `\s` set of ECMAScript
  (section 22.2.2.9 of ECMA-262). It also holds ASCII case mapping and
  decimal numerals (`String(n)`).
- `step_names.dfy`: how a step screenshot is named. It covers the slug of
  the step label, the two-digit step number (`padStart`) and the path
  `screenshots/NN_slug.png`.
- `camel.dfy`: `toCamel`, written as the source's three passes. A
  one-pass reference scan is proved equal to the first two.
- `locators.dfy`: `getLocator`, with its inverse, and the fixed candidate
  lists that `fillField` and `performClick` try.
- `engine.dfy`: the step recorder and the first-success searches of
  `performType`/`fillField` and `performClick`. It also holds the two
  tools and the driver `main`. The driver is a class `WebAgent` whose
  state is the step counter, the screenshots written and the history of
  attempts.

The browser is an oracle `Page = (nat, Action) -> Outcome`. The outcome
of an attempt may depend on its position in the run, and so on
everything done before it. An attempt can throw in a browser call,
throw in its screenshot, or complete. The searches are specified by
`FirstCompleted` (the first attempt that completes) and `SearchTrace`
(the attempts made up to it). `Searches`, `FillClickTrace`, `SubmitTrace`
and `RunTrace` compose these into the whole run. `Shots` gives the step
names of the screenshots a run of attempts leaves behind: one for each
attempt that completes, in order. `PathsFrom` numbers their paths on
from the step counter. Each method states its new history, step names
and screenshots in terms of these functions. `SubmitSucceeds` and
`RunSucceeds` say when the screenshots outside a try block complete.

## Model

| member | source | states |
|---|---|---|
| Text.IsWhitespace | webAgent.js:22 | the `\s` class of ECMA-262 (section 22.2.2.9); `Camel.WhitespaceRunIsMaximal` and `Camel.RemoveWhitespaceClean` state how the two replaces use it |
| Text.Decimal | webAgent.js:13 | `String(n)`: at least one digit, one digit exactly below 10, no leading zero except for 0; `Text.DecimalRoundTrip` proves that reading it back gives `n` |
| Text.DecimalRoundTrip | webAgent.js:13 | reading back the numeral `String(n)` gives `n` |
| Text.LowerAsciiCons | webAgent.js:22 | lower-casing a string starts with its first character lower-cased; `Camel.CamelScanFoldsCase` rests on it |
| StepNames.Slug | webAgent.js:14 | `replace(/[^a-z0-9]/gi, "_").toLowerCase()`; `StepNames.SlugChars`, `SlugIdempotent` and `SlugFixedPoints` state its properties |
| StepNames.SlugChars | webAgent.js:14 | the slug keeps the label's length; each ASCII letter or digit is kept, lower-cased, and every other character becomes `_`; only `[a-z0-9_]` remain |
| StepNames.SlugIdempotent | webAgent.js:14 | slugging a slug changes nothing |
| StepNames.SlugFixedPoints | webAgent.js:14 | a string is its own slug exactly when all its characters are in `[a-z0-9_]` |
| StepNames.SlugExample | webAgent.js:14 | the slug of "Create Account!" is "create_account_" |
| StepNames.SlugSelectorExample | webAgent.js:14 | the slug of the step name "typed_label=First Name" is "typed_label_first_name" |
| StepNames.PadStart | webAgent.js:13 | `padStart` with a one-character pad; `StepNames.StepNumberDigits` states what it gives for the step number |
| StepNames.StepNumber | webAgent.js:13 | `String(stepCounter).padStart(2, "0")`; `StepNames.StepNumberDigits` states its properties |
| StepNames.StepNumberDigits | webAgent.js:13 | the padded step number is all digits, at least two long, and reads back as the counter; a counter of one digit gets one leading zero, larger ones are unchanged |
| StepNames.StepNumberExamples | webAgent.js:13 | the counters 1, 3 and 12 give "01", "03" and "12" |
| StepNames.ScreenshotPath | webAgent.js:15 | `screenshots/${number}_${safeName}.png`; `StepNames.ScreenshotPathInjective` states that it loses neither part |
| StepNames.ScreenshotPathInjective | webAgent.js:13-15 | two screenshot paths are equal only if the step numbers are equal and the slugs are equal |
| StepNames.DistinctStepsDistinctPaths | webAgent.js:13-15 | different step numbers give different paths, whatever the step names |
| StepNames.StepPathsAppend | webAgent.js:15-18 | one more step appends the path with the next step number |
| StepNames.StepPathsConcat | webAgent.js:15-18 | steps taken after earlier ones are numbered on from where those stopped |
| StepNames.PathsFromCons | webAgent.js:15-18 | of consecutive steps, the first gets the counter and the rest are numbered on from the next value |
| StepNames.StepPathsDistinct | webAgent.js:13-18 | the screenshots of steps 1, 2, 3, ... have pairwise distinct paths |
| StepNames.ScreenshotPathExample | webAgent.js:15 | step 12 named "Email" is saved as "screenshots/12_email.png" |
| StepNames.FirstScreenshotPath | webAgent.js:9-15 | the first screenshot of a run is "screenshots/01_page_loaded.png" |
| Camel.CapitalizeAfterWhitespace | webAgent.js:22 | `replace(/\s+([a-zA-Z])/g, upper)`; never lengthens; `Camel.TwoPassesAreScan` states what it does together with the second pass |
| Camel.RemoveWhitespace | webAgent.js:22 | `replace(/\s/g, "")`; never lengthens; `Camel.RemoveWhitespaceClean` states it leaves no whitespace |
| Camel.LowerFirst | webAgent.js:23 | `t.charAt(0).toLowerCase() + t.slice(1)`: keeps the length; `Camel.ToCamelFoldsCase` states it changes only case |
| Camel.ToCamel | webAgent.js:21-24 | the three passes in order; `Camel.ToCamelNoWhitespace`, `ToCamelFoldsCase` and `ToCamelIdempotent` state its properties |
| Camel.WhitespaceRunIsMaximal | webAgent.js:22 | the run that `\s+` matches is all whitespace and stops at the first other character |
| Camel.RemoveWhitespaceClean | webAgent.js:22 | `replace(/\s/g, "")` leaves no whitespace |
| Camel.ToCamelNoWhitespace | webAgent.js:21-24 | the camel form holds no whitespace and is no longer than the label |
| Camel.TwoPassesAreScan | webAgent.js:22 | the two replaces compute exactly the one-pass scan that drops whitespace and upper-cases a letter after it |
| Camel.CamelScanFoldsCase | webAgent.js:22 | ignoring ASCII case, the scan is the label with its whitespace removed |
| Camel.ToCamelFoldsCase | webAgent.js:21-24 | ignoring ASCII case, `toCamel` is the label with its whitespace removed: it changes only case and whitespace |
| Camel.NoWhitespaceFixed | webAgent.js:22 | a string without whitespace passes both replaces unchanged |
| Camel.ToCamelIdempotent | webAgent.js:21-24 | camel-casing a camel form changes nothing |
| Camel.TwoWordCamel | webAgent.js:21-24 | two whitespace-free words joined by one space, the second starting with a letter, become the first word with its initial lowered, then the second capitalised |
| Camel.WordThenRun | webAgent.js:22 | the capitalising replace copies a prefix that holds no whitespace |
| Camel.FirstNameExample | webAgent.js:80 | the `name` guess for "First Name" is "firstName" |
| Camel.ConfirmPasswordExample | webAgent.js:80 | the `name` guess for "Confirm Password" is "confirmPassword" |
| Camel.EmailExample | webAgent.js:80 | the `name` guess for "Email" is "email" |
| Locators.ReplaceFirst | webAgent.js:57-58 | `s.replace(pat, rep)` with a string pattern: on a string that starts with `pat`, only that prefix is replaced; `Locators.ReplaceFirstAt` and `ReplaceFirstAbsent` state the general case |
| Locators.ReplaceFirstAt | webAgent.js:57-58 | when `pat` first occurs at position `i`, `replace` gives the text before `i`, then `rep`, then the text after that occurrence, unchanged; later occurrences stay |
| Locators.ReplaceFirstAbsent | webAgent.js:57-58 | when `pat` occurs nowhere in the string, `replace` returns it unchanged |
| Locators.GetLocator | webAgent.js:56-60 | `getLocator`; `Locators.GetLocatorDispatch` and `GetLocatorRoundTrip` state its properties |
| Locators.GetLocatorDispatch | webAgent.js:56-60 | `label=` gives a label lookup and wins over `text=`; `text=` gives a text lookup; anything else is a CSS selector; only the prefix is removed |
| Locators.GetLocatorRoundTrip | webAgent.js:56-60 | rendering the locator of any selector back as a selector gives the selector: nothing is lost |
| Locators.GetLocatorOfSelector | webAgent.js:56-60 | a label or text locator, or a CSS selector without either prefix, rendered and dispatched again is the same locator |
| Locators.InputSelectorIsCss | webAgent.js:59 | a selector that opens with `i`, as `input[` does, is passed on as CSS |
| Locators.LabelSelectorIsLabel | webAgent.js:57 | `label=<text>` looks up the label `<text>` |
| Locators.FillSelectors | webAgent.js:78-83 | the four selectors `fillField` tries; `Locators.FillSelectorsDispatch` states how each is looked up |
| Locators.FillSelectorsDispatch | webAgent.js:78-83 | of the four selectors `fillField` tries, the first looks up the field label and the other three are CSS selectors |
| Locators.ClickLocators | webAgent.js:101-107 | the five locators `performClick` tries; `Locators.ClickLocatorsCaption` states which depend on the caption |
| Locators.ClickLocatorsCaption | webAgent.js:101-107 | the first three locators determine the caption; the two submit fallbacks are the same for every caption |
| Engine.Mapping | webAgent.js:176-182 | the five field labels with the user's values; `Engine.MappingFields` states its properties |
| Engine.MappingFields | webAgent.js:176-182 | the five labels are pairwise different and fixed; two mappings are equal exactly when the user's details are |
| Engine.FirstCompletedSound | webAgent.js:84-87 | every attempt before the one the search stops at fails, and the one it stops at completes |
| Engine.FirstCompletedIsFirst | webAgent.js:84-87 | the search stops exactly at the first attempt that completes, or after all of them |
| Engine.SearchSucceedsIffSomeCompletes | webAgent.js:108-118 | a search succeeds exactly when some candidate would complete |
| Engine.LastAttemptOnlyAfterOthersFail | webAgent.js:84-97 | the last attempt (the fuzzy fallback) is made exactly when every earlier one failed |
| Engine.FirstCompletedAppend | webAgent.js:84-97 | searching the four selectors and then the fuzzy match is one search over the five |
| Engine.SearchTraceBounds | webAgent.js:84-87 | a search makes at least one attempt and at most one per candidate |
| Engine.SearchesBounds | webAgent.js:184-186 | filling N fields, each with five selectors to try, makes between N and 5N attempts in all |
| Engine.TypeStepName | webAgent.js:70 | a `performType` attempt is recorded under `typed_` and the selector it was given |
| Engine.FillStepNames | webAgent.js:77-98 | attempt `k` of `fillField` is recorded as `typed_<selector k>`, or `fuzzy_<label>` for the fallback |
| Engine.ShotsAppend | webAgent.js:12-19 | attempts made one after the other leave the screenshots of the first, then those of the second |
| Engine.ShotsOfFailures | webAgent.js:72-73 | attempts that all fail leave no screenshot |
| Engine.ShotsOfSearch | webAgent.js:84-87 | a first-success search leaves one screenshot, the winner's, or none |
| Engine.SearchLoopResult | webAgent.js:84-87 | a loop that stops at the first success leaves exactly the search's attempts and the winner's step name |
| Engine.RunTraceShape | webAgent.js:54-191 | a run starts with the page-loaded screenshot; if that fails it stops there; otherwise it ends with the form-submitted screenshot and makes between N + 3 and 5N + 7 attempts in all for N fields |
| Engine.RunSucceedsAtLast | webAgent.js:54-199 | `main` ends normally exactly when its first screenshot completes and so does the last attempt of its run, the `form_submitted` screenshot |
| Engine.FillClickAssemble | webAgent.js:184-188 | the fills and then the click leave the attempts, step names and screenshots of `FillClickTrace`, numbered on from the counter |
| Engine.SubmitAssemble | webAgent.js:184-191 | adding the last screenshot leaves those of `SubmitTrace`, and the result is whether that screenshot completed |
| Engine.RunOutcome | webAgent.js:54-199 | whether or not the first screenshot completes, `main` leaves the attempts, step names and screenshots of `RunTrace`, and ends normally exactly when `RunSucceeds` holds |
| Engine.ClickStatus | webAgent.js:127 | the `click` tool's result reports success exactly when the click succeeded and ends with the selector |
| Engine.TypeStatus | webAgent.js:143-145 | the `type` tool's result reports success exactly when the fill succeeded and ends with the selector |
| Engine.ExitCode | webAgent.js:196-199 | the exit status is 0 exactly when `main` ended normally |
| Engine.WebAgent.constructor | webAgent.js:9 | the counter starts at 1, with no screenshots and no attempts |
| Engine.WebAgent.NoScreenshotOverwritten | webAgent.js:12-19 | in a valid state no screenshot path repeats, so no screenshot overwrites another |
| Engine.WebAgent.TakeStepScreenshot | webAgent.js:12-19 | the screenshot is saved under the current step number and the slug of the step name; the counter advances only when the screenshot returns |
| Engine.WebAgent.Attempt | webAgent.js:63-74 | a try block is one attempt; it succeeds only if its browser calls and its screenshot complete, and only then is a screenshot recorded |
| Engine.WebAgent.PerformType | webAgent.js:62-75 | `performType` makes one attempt on the located element and returns whether it completed; only then is `typed_<selector>` saved under the current step number |
| Engine.WebAgent.TypeFirst | webAgent.js:84-87 | the selectors are tried in order up to the first success; the result is whether one succeeded, and only that one's screenshot is taken |
| Engine.WebAgent.FillField | webAgent.js:77-98 | `fillField` tries the four selectors, then the fuzzy placeholder match only if all four failed; the history is exactly that search and the only screenshot names the winner |
| Engine.WebAgent.PerformClick | webAgent.js:100-119 | `performClick` tries the five locators in order up to the first success and returns false only when all five fail; only the winner's `clicked_<caption>` screenshot is saved |
| Engine.WebAgent.ClickTool | webAgent.js:122-129 | the `click` tool runs `performClick`, reports its result as a string, and writes the same screenshot |
| Engine.WebAgent.TypeTool | webAgent.js:131-148 | the `type` tool makes one label fill; it saves `agent_filled_<selector>` and reports success only if the fill and screenshot complete |
| Engine.WebAgent.RecordStep | webAgent.js:54 | a screenshot outside any try block; its failure escapes to the caller, and on success it is the last screenshot written |
| Engine.WebAgent.FillEach | webAgent.js:184-186 | `fillField` runs once per entry, in order, whatever each returns; the screenshots written are those the searches leave, numbered on from the counter |
| Engine.WebAgent.FillAndClick | webAgent.js:184-188 | the fields are filled in order and the caption is clicked once; history, step names and screenshots are those of `FillClickTrace` |
| Engine.WebAgent.FillAndSubmit | webAgent.js:184-191 | then the last screenshot follows; every screenshot written is stated; the result is `SubmitSucceeds`, and if so `form_submitted` is the last screenshot written |
| Engine.WebAgent.Run | webAgent.js:54-199 | the history is exactly the run's trace and the screenshots are those it leaves, numbered on from the counter; the run ends normally exactly when `RunSucceeds`; the first screenshot written is `page_loaded` exactly when it completes |
| Engine.WebAgent.SignUp | webAgent.js:176-191 | `main` with the five fixed field labels and the caption "Create Account", with the same history, screenshots and result as `Run` |

## Left out

- Browser and Playwright calls (`waitFor`, `scrollIntoViewIfNeeded`, `fill`, `type`, `click`, `screenshot`) are an oracle. The model does not say which element a locator finds or whether a case-insensitive regular expression matches it.
- The timeouts and the typing delay (webAgent.js:65, 68, 90, 110) are left out. Waiting is part of an attempt's outcome.
- The prompts, `dotenv`, the Chrome launch and `page.goto` (webAgent.js:27-52) are left out. This includes the early return when no URL is given. The run is modelled from the moment the page has loaded.
- `fs.mkdirSync`, the screenshot file contents and all console output are left out. Screenshots are kept as their paths.
- The `stop` tool, the LLM agent and its instructions (webAgent.js:150-174) are left out, and so is `browser.close()` (webAgent.js:193). The agent is constructed but never run by `main`.
- agent.js and tools.js are not part of this model.
- Camel.LowerFirst: `charAt(0).toLowerCase()` is modelled for ASCII only. Other cased characters at the start of a label keep their case.
- StepNames.Slug: strings are sequences of code points, not of UTF-16 code units. A character outside the Basic Multilingual Plane becomes one `_` here, where JavaScript writes `__` for its surrogate pair. Such a character can reach a step name through a selector the agent supplies to the `click` or `type` tool (step names `clicked_<selector>` and `agent_filled_<selector>`).
- Engine.WebAgent.PerformClick: the model does not capture the `new RegExp(buttonText, "i")` built outside the try (webAgent.js:101-107). A caption that is not a valid regular expression would throw out of `performClick`; the model assumes it does not.
- Engine.WebAgent.ClickTool: the selector the agent supplies becomes `new RegExp(selector, "i")` outside the try (webAgent.js:102-103). A selector that is not a valid regular expression (such as `*` or `button[type=submit`) throws out of the tool before any attempt, while the model returns a status string for every selector. The run itself passes only "Create Account", which is valid (webAgent.js:188).
- Engine.WebAgent.stepNames is ghost. It names the steps behind the screenshots so that `Valid` can state their paths.
- The prompts may return `undefined` values (a cancelled prompt). The model takes every value to be a string.
