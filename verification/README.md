# Housing-subscription score calculator — Dafny model

A model of the logic of a small Korean housing-subscription (청약) point
calculator and its blog listing:

- **Calculator** (`calculator.dfy`): the three sub-scores — homeless period
  (2 points a year, capped at 32), dependents (5 plus 5 per dependent, capped
  at 35), subscription-account tenure (a sixteen-step table over the years
  since the account was opened) — their total and the low / medium / high
  tier of the total.
- **CalculatorForm** (`calculator_form.dfy`): the form's change handler and
  its submit handler, which refuses a birth date that is not before the
  subscription date, then refuses an empty field, and otherwise passes the
  form data, unchanged, to the calculator. A reachable-state invariant over
  any sequence of edits and submissions shows that the error line is always
  empty or the refusal message of the fields as they stand.
- **Blog** (`blog.dfy`): pagination of the post list — six posts a page cut
  out with `Array.prototype.slice`, `Math.ceil(n / 6)` pages, and the page
  buttons 1..pages shown when there is more than one page. The pages
  reassemble the whole list, and every post lies on exactly one page.
- **Wrappers** (`wrappers.dfy`): the `Option` type; **Ints** (`ints.dfy`):
  `Min`.

Time is integer milliseconds. The evaluation instant ("now") is a parameter
of `Calculator.CalculateScore`. A year is 365.25 days = 31 557 600 000 ms,
a whole number, so every `years < k` test of the program is modelled exactly
as `elapsedMs < k * MsPerYear`, with no floating point.

The tenure table is the chain of tests in `src/utils/calculator.ts`: k + 2
points on [k, k + 1) years for 1 ≤ k ≤ 14, so 16 points on [14, 15) years and
17 points from 15 years on. An invalid subscription date makes the elapsed
years NaN, every test of the chain false, and the score the full 17 points;
the calculator's input carries the subscription date as an `Option` so that
this path is modelled.

Turning a date field's text into an instant (`new Date(text)`) is the
parameter `parseDate: string -> Option<int>` of the form model, with `None`
for an invalid date. JavaScript compares an invalid date as false against
anything, so the date-order refusal needs both dates valid. For that reason
an empty date leads to the missing-field message, not the date-order one.

## Model

| member | source | states |
|---|---|---|
| Calculator.HomelessScore | src/utils/calculator.ts:46-48 | the score is the minimum of 2h and 32: at most both, equal to one; 2h for 0 ≤ h ≤ 16, 32 from 16 years, never negative for h ≥ 0 |
| Calculator.DependentsScore | src/utils/calculator.ts:50-52 | the score is the minimum of 5 + 5d and 35; in [5, 35] for d ≥ 0, 5 + 5d below six dependents, 35 from six on |
| Calculator.SubscriptionScore | src/utils/calculator.ts:16-33 | the sixteen-step chain lies in [0, 17], never yields 1 or 2, is 0 below one year and 17 from fifteen years, and agrees with the closed-form rule (0, then k + 2, then 17) on the whole years elapsed |
| Calculator.SubscriptionScoreOnYear | src/utils/calculator.ts:18-31 | every elapsed time in [k, k + 1) years, 1 ≤ k ≤ 14, scores exactly k + 2, so [14, 15) scores 16 |
| Calculator.SubscriptionScoreMonotone | src/utils/calculator.ts:16-33 | a longer elapsed time never scores less |
| Calculator.ElapsedMs | src/utils/calculator.ts:35-43 | the elapsed time is the absolute difference of the two instants: non-negative, end − start when start ≤ end |
| Calculator.ElapsedSymmetric | src/utils/calculator.ts:39 | swapping the two dates gives the same elapsed time |
| Calculator.FutureSubscriptionHasPositiveTenure | src/utils/calculator.ts:39-40 | a subscription date after "now" still yields a positive elapsed time |
| Calculator.LevelOf | src/utils/calculator.ts:62-69 | high iff total ≥ 60, medium iff 40 ≤ total < 60, low iff total < 40 |
| Calculator.LevelMonotone | src/utils/calculator.ts:62-69 | a higher total never gets a lower tier |
| Calculator.LevelBoundaries | src/utils/calculator.ts:63-69 | 39 is low, 40 medium, 59 medium, 60 high |
| Calculator.CalculateScore | src/utils/calculator.ts:45-78 | the record carries the three sub-scores of the inputs (tenure measured to the given "now", and 17 for an invalid subscription date, whose NaN fails every test of the chain), a total equal to their sum, the tier of that total, and a total in [5, 84] for non-negative inputs |
| Calculator.MaxTotalAttained | src/utils/calculator.ts:61 | the maximum of 84 is reached by 16 homeless years, 6 dependents and 15 years of tenure |
| Calculator.MediumScenario | src/utils/calculator.ts:45-78 | 5 homeless years, 3 dependents and 10 years of tenure give 10, 20, 12, total 42, medium |
| Calculator.MinimumScenario | src/utils/calculator.ts:45-78 | 0 homeless years, 0 dependents and half a year of tenure give 0, 5, 0, total 5, low |
| CalculatorForm.Set | src/components/CalculatorForm.tsx:32 | the named field takes the new text; the other three keep theirs |
| CalculatorForm.HandleChange | src/components/CalculatorForm.tsx:29-34 | editing one field replaces only that field's text and clears the error line |
| CalculatorForm.Validate | src/components/CalculatorForm.tsx:39-50 | date-order refusal iff both dates are valid and birth ≥ subscription; missing-field refusal iff the date order is fine and some field is empty; acceptance iff neither |
| CalculatorForm.ValidateAndSubmit | src/components/CalculatorForm.tsx:36-53 | the fields never change; the calculator is called iff the data is accepted, and then with the unchanged data and the state left as it was; a refusal shows its own message |
| CalculatorForm.EqualDatesRejected | src/components/CalculatorForm.tsx:39-45 | equal valid dates are refused with the date-order message and the calculator is not called |
| CalculatorForm.EmptyDateReportsMissingField | src/components/CalculatorForm.tsx:39-50 | an empty date cannot trip the date-order test, so the missing-field message is shown and the calculator is not called |
| CalculatorForm.ZeroEntriesAccepted | src/components/CalculatorForm.tsx:47-52 | "0" homeless years and "0" dependents pass the presence test and are forwarded unchanged |
| CalculatorForm.ForwardedDatesOrdered | src/components/CalculatorForm.tsx:39-52 | when every non-empty date text parses, forwarded data has two valid dates with birth strictly before subscription |
| CalculatorForm.UnparsableDateForwarded | src/components/CalculatorForm.tsx:39-52 | non-empty text that is not a valid subscription date passes both tests and is forwarded unchanged |
| CalculatorForm.RunKeepsErrorExplained | src/components/CalculatorForm.tsx:27-53 | after any sequence of edits and submissions the error line is empty or the refusal message of the current fields |
| CalculatorForm.AcceptedSubmissionShowsNoError | src/components/CalculatorForm.tsx:36-53 | from any reachable state, a submission that calls the calculator has no error line showing |
| Blog.Slice | src/pages/Blog.tsx:49 | for 0 ≤ start ≤ end the slice is the clamped subrange, and it is never longer than end − start |
| Ints.Min | src/utils/calculator.ts:48-52 | the minimum is at most both arguments and equal to one of them |
| Blog.CurrentPosts | src/pages/Blog.tsx:47-49 | page p shows exactly posts[(p − 1)·6 .. min(p·6, n)), at most six posts, each at its own position |
| Blog.TotalPages | src/pages/Blog.tsx:50 | the page count is ⌈n / 6⌉: n ≤ 6t < n + 6, and 0 exactly when there are no posts |
| Blog.PageSizes | src/pages/Blog.tsx:47-50 | every page from 1 to the last is non-empty, and every page before the last holds six posts |
| Blog.PagesPastTheEndEmpty | src/pages/Blog.tsx:47-50 | a page number beyond the page count shows nothing |
| Blog.ConcatIsPrefix | src/pages/Blog.tsx:47-49 | pages 1..k together are the first min(6k, n) posts, in order |
| Blog.PagesReassemble | src/pages/Blog.tsx:47-50 | pages 1..totalPages together are the whole list, in order |
| Blog.EachPostOnExactlyOnePage | src/pages/Blog.tsx:47-50 | post i is covered by page i / 6 + 1 and by no other page; that page exists and shows post i |
| Blog.Render | src/pages/Blog.tsx:91-144 | the "no posts" card shows iff the current page is empty, which on page 1 or any existing page means there are no posts; otherwise the grid shows the page, with buttons 1..totalPages in ascending order when there is more than one page and none otherwise |

## Left out

- Fetching posts from the hosted database, its error logging, and the loading state (`src/pages/Blog.tsx:28-45, 52-58`): network I/O against a store outside this model. The posts are a parameter.
- The single-post page (`src/pages/BlogPost.tsx`), including the redirect on an unknown slug: network I/O and layout.
- The result screen (`src/components/ResultScreen.tsx`): the count-up animation is driven by animation frames and floating-point progress, the Kakao share goes to a third-party SDK, and the tier-to-colour, emoji and text switches are display constants.
- The page shell (`src/pages/Index.tsx`) that switches between form and result: UI glue. Only the hand-off to `onCalculate` is modelled, as the `forwarded` field of `CalculatorForm.Submission`; no member turns the forwarded text into a `Calculator.ScoreInput`, because that step is `parseInt` and `new Date`, which are left out below.
- Page metadata, JSX layout and `date-fns` date formatting: presentation only.
- The clock: "now" is the parameter `nowMs` of `Calculator.CalculateScore`.
- Date parsing and time zones: `new Date(text)` is the `parseDate` parameter of the form model, and the calculator takes the subscription date as an instant, or `None` for text that is not a valid date.
- `parseInt` on the two numeric fields: the calculator takes integers that are already parsed. The NaN that `parseInt` returns for non-numeric text is not modelled.
- The IEEE-754 division in `calculateYearsBetween`: elapsed time stays in exact integer milliseconds and is compared against whole-year thresholds. The model does not reproduce rounding at the last bit of a double.
- The browser's own form validation driven by the `required`, `min` and `max` input attributes: only the submit handler is modelled.
- Clicking a page button (`setCurrentPage(page)`): it only sets the page number, which is the `currentPage` parameter of `Blog.Render`.
