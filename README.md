# Course dashboard statistics — a verified model

This project models the statistics behind the overview page of a course
management app (`src/pages/DashboardOverview.tsx`). Once the instructors
(`Dozenten`), rooms (`Räume`), participants (`Teilnehmer`), courses (`Kurse`)
and enrollments (`Anmeldungen`) have been fetched, the page builds one `Stats`
record from them. The record holds:

- the five counts;
- the paid/unpaid split of the enrollments;
- four course-status buckets;
- the revenue `umsatz`;
- previews of the first five courses and enrollments.

From that record it derives the bar-chart data. Each course in the preview
gets a status badge.

The model is made of pure functions over sequences, as the source is:

- `filter(...).length` is `Seqs.Filter` and its length;
- `reduce` is the left fold `Seqs.FoldSum`;
- `slice(0, 5)` is `Seqs.Take`;
- each `??` fallback is an `Option` with a default.

Modules:

- `Wrappers`: `Option`.
- `Seqs`: filter, fold and slice, with their lemmas.
- `Records`: the course and enrollment fields the page reads, and the
  predicates it filters by.
- `Revenue`: the revenue join, proved equal to a sum by course and to a sum by
  enrollment.
- `Aggregator`: `Stats`, `Aggregate` (the body of `load()`) and `AfterLoad`
  (what a load leaves in the page state).
- `Chart`: `statusChartData`.
- `StatusBadge`: the status class and label lookups.
- `Scenarios`: worked examples.

Three properties follow from the model being made of functions. Computing the
statistics twice on the same collections gives the same record. The
aggregation never fails on a missing optional field. It has no effects.

Modelling choices:

- Prices (`preis`) are JavaScript numbers. They are modelled as exact reals.
- The `kurs` field of an enrollment is modelled as an optional list of course
  ids, and `includes` as a membership test. `src/types/app.ts` is not part of
  this model.
- Instructors, rooms and participants are left as type parameters, because
  only their number is used.
- A status is modelled as an optional string. `bezahlt` is an optional boolean.
  So "strictly `true`" means `Some(true)`.

## Model

| member | source | states |
|---|---|---|
| `Seqs.Filter` | src/pages/DashboardOverview.tsx:91-98 | `filter` keeps only elements that pass, never grows the input, and keeps everything exactly when every element passes |
| `Seqs.FilterMultiset` | src/pages/DashboardOverview.tsx:91-98 | a passing value occurs in the filtered list as often as in the input; a failing one does not occur at all |
| `Seqs.FilterCountIsPositions` | src/pages/DashboardOverview.tsx:91-96 | `filter(p).length` is the number of positions whose element satisfies `p` |
| `Seqs.FilterComplement` | src/pages/DashboardOverview.tsx:91-92 | a predicate and its complement split the input: the two counts add up to its length |
| `Seqs.FilterCountPointwise` | src/pages/DashboardOverview.tsx:98 | a count depends only on which positions pass the predicate |
| `Seqs.FilterAppend` | src/pages/DashboardOverview.tsx:91-98 | filtering distributes over concatenation |
| `Seqs.FoldSum` | src/pages/DashboardOverview.tsx:97-100 | the `reduce` left fold from `acc` ends at `acc` plus the plain sum of the terms |
| `Seqs.Take` | src/pages/DashboardOverview.tsx:114-115 | `slice(0, n)` has length `min(n, |s|)`, is a prefix of `s`, and is all of `s` when `s` is no longer than `n` |
| `Wrappers.Option.GetOr` | src/pages/DashboardOverview.tsx:99 | `??` yields the value when present and the default when absent |
| `Records.PriceOrZero` | src/pages/DashboardOverview.tsx:99 | an absent price counts as 0; a present price counts as itself |
| `Records.IsPaid` | src/pages/DashboardOverview.tsx:91 | `bezahlt === true` is strict: an absent or `false` flag is not paid |
| `Records.IsUnpaid` | src/pages/DashboardOverview.tsx:92 | `bezahlt !== true` holds exactly when the enrollment is not paid |
| `Records.HasStatus` | src/pages/DashboardOverview.tsx:93-96 | `status === st` matches only courses whose status is present and equal to `st`; for a known `st` every match has a known status |
| `Records.References` | src/pages/DashboardOverview.tsx:98 | `kurs?.includes(id)` is false for an absent list and otherwise true iff some position of the list holds `id` |
| `Records.ReferencedIds` | src/pages/DashboardOverview.tsx:98 | an id is in an enrollment's referenced set iff `kurs?.includes(id)` holds; an absent list refers to nothing |
| `Revenue.EnrollmentCount` | src/pages/DashboardOverview.tsx:98 | `anmCount` is the number of positions holding an enrollment that refers to the course, at most the number of enrollments |
| `Revenue.CourseRevenue` | src/pages/DashboardOverview.tsx:99 | a course without a price or without enrollments adds 0; a course with a non-negative price adds a non-negative amount |
| `Revenue.CourseRevenueIsShares` | src/pages/DashboardOverview.tsx:98-99 | a course's price times its enrollment count equals the sum, over enrollments, of the price when the enrollment refers to the course and 0 otherwise |
| `Revenue.CourseRevenueStep` | src/pages/DashboardOverview.tsx:98-99 | each referring enrollment adds the course price to that course's revenue |
| `Revenue.PerEnrollmentSplit` | src/pages/DashboardOverview.tsx:97-100 | the value of all enrollments splits into the first course's shares and the value for the remaining courses |
| `Revenue.PerEnrollmentNoCourses` | src/pages/DashboardOverview.tsx:97-100 | with no courses, no enrollment is worth anything |
| `Revenue.RevenueExchange` | src/pages/DashboardOverview.tsx:97-100 | the sum by course of price times count equals the sum by enrollment of the prices of the courses each one refers to |
| `Revenue.Umsatz` | src/pages/DashboardOverview.tsx:97-100 | `umsatz` (the `reduce` from 0) equals both the sum by course and the sum by enrollment |
| `Revenue.RevenueOfEmpty` | src/pages/DashboardOverview.tsx:97-100 | no courses or no enrollments gives revenue 0 |
| `Revenue.RevenueNonNegative` | src/pages/DashboardOverview.tsx:97-100 | revenue is non-negative when every present price is |
| `Revenue.SumNonNegative` | src/pages/DashboardOverview.tsx:97-100 | the sum by course is non-negative when every present price is |
| `Revenue.RevenueDependsOnlyOnReferences` | src/pages/DashboardOverview.tsx:98 | revenue depends on each enrollment only through the set of course ids it refers to. So repeating an id counts once, order does not matter, and an absent list is the same as an empty one |
| `Revenue.SumDependsOnlyOnReferences` | src/pages/DashboardOverview.tsx:98 | the sum by course depends only on the referenced id sets |
| `Revenue.CourseRevenueDependsOnlyOnReferences` | src/pages/DashboardOverview.tsx:98-99 | a course's price times count depends only on the referenced id sets |
| `Revenue.CountDependsOnlyOnReferences` | src/pages/DashboardOverview.tsx:98 | a course's enrollment count depends only on the referenced id sets |
| `Revenue.RevenueIgnoresPayment` | src/pages/DashboardOverview.tsx:98-99 | changing payment flags, or any field but `kurs`, leaves the revenue unchanged |
| `Revenue.RevenueAddEnrollment` | src/pages/DashboardOverview.tsx:97-100 | one more enrollment raises revenue by exactly the prices of all the courses it refers to, so an enrollment naming two courses counts for both |
| `Revenue.UnreferencingEnrollmentWorthNothing` | src/pages/DashboardOverview.tsx:98 | an enrollment that refers to no course, including one with no `kurs` list, adds nothing |
| `Aggregator.CountStatus` | src/pages/DashboardOverview.tsx:93-96 | each bucket is the number of positions holding a course with exactly that status, at most the number of courses |
| `Aggregator.Aggregate` | src/pages/DashboardOverview.tsx:91-116 | the five counts are the input lengths. `bezahlt` counts positions whose flag is `true` and `unbezahlt` the others; together they make `anmeldungen`. Each bucket counts positions with exactly that status. The buckets sum to the courses with a known status, at most `kurse`, with equality iff every course has a known status. `umsatz` is the revenue sum. The previews are prefixes of length `min(5, n)` |
| `Aggregator.PaymentPartition` | src/pages/DashboardOverview.tsx:91-92 | paid and unpaid enrollments add up to all enrollments, and each count is a count of positions |
| `Aggregator.BucketPartition` | src/pages/DashboardOverview.tsx:93-96 | the four status buckets are disjoint and together hold exactly the courses with a known status |
| `Aggregator.AfterLoad` | src/pages/DashboardOverview.tsx:83-118 | when all five fetches succeed, the state becomes the freshly aggregated statistics; when any fetch fails, the previous statistics stay |
| `Chart.StatusChartData` | src/pages/DashboardOverview.tsx:126-133 | no statistics give no bars. Otherwise there are four bars, named Geplant, Aktiv, Abgeschl., Abgesagt in that order, carrying the four bucket counts |
| `Chart.ChartTotal` | src/pages/DashboardOverview.tsx:126-133 | the bars add up to the sum of the four buckets |
| `Chart.ChartBars` | src/pages/DashboardOverview.tsx:126-133 | when the buckets are position counts, bar `i` is the count of courses with the `i`-th status |
| `Chart.ChartOfAggregate` | src/pages/DashboardOverview.tsx:126-133 | for statistics computed from the courses, bar `i` counts the courses whose status is the `i`-th known status. The bars add up to at most the course count, with equality iff every status is known |
| `StatusBadge.StatusClass` | src/pages/DashboardOverview.tsx:57-62 | a known status gets the class `status-<status>`; any other string gets the empty class |
| `StatusBadge.LabelsAreCapitalized` | src/pages/DashboardOverview.tsx:63-68 | each label is its status with the first letter in upper case, so it differs from the status |
| `StatusBadge.StatusLabel` | src/pages/DashboardOverview.tsx:63-71 | a known status is shown capitalized; a string is shown unchanged iff it is not a known status |
| `StatusBadge.CourseBadge` | src/pages/DashboardOverview.tsx:364 | a badge appears iff the status is present and non-empty, with the status class and label |
| `Scenarios.EmptyInputs` | src/pages/DashboardOverview.tsx:91-116 | no courses and no enrollments give zero counts, zero revenue and empty previews |
| `Scenarios.OneCourseTwoEnrollments` | src/pages/DashboardOverview.tsx:91-116 | an active course at 100 with two enrollments, one paid, gives one active course, 1 paid, 1 unpaid and revenue 200 |
| `Scenarios.UnknownStatus` | src/pages/DashboardOverview.tsx:93-100 | a course with an unknown status is counted but falls in no bucket |
| `Scenarios.PreviewOfSeven` | src/pages/DashboardOverview.tsx:114 | seven courses give a preview of the first five |
| `Scenarios.DuplicateReference` | src/pages/DashboardOverview.tsx:98 | an enrollment naming a course twice adds its price once |
| `Scenarios.TwoCourseReference` | src/pages/DashboardOverview.tsx:98 | an enrollment naming two courses adds both prices |
| `Scenarios.FailedFetch` | src/pages/DashboardOverview.tsx:117-118 | one failed fetch leaves the previous statistics in place |

## Left out

- Fetching: the five service calls joined with `Promise.all` are network I/O
  through a service whose code is not part of this model. They are parameters
  of `AfterLoad`, each of which may be absent (a failed fetch).
- Logging a failed load with `console.error`: I/O.
- The React `loading` flag and its spinner, and the component lifecycle: UI
  state, not logic.
- Concurrent loads: `load()` runs once per mount, so two loads never overlap.
  `AfterLoad` describes a single load.
- All layout: the KPI cards, the legend, the quick links and navigation, and
  the course rows. The rows show the title with a dash fallback, the start
  date and the capacity.
- The paid-percentage bar (`bezahlt / anmeldungen * 100` and `Math.round`):
  floating-point display arithmetic.
- Date and currency formatting (`parseISO`, `format`, `toLocaleString('de-DE')`):
  locale-dependent library calls.
- Colors and CSS class strings are kept as opaque constants.
- `Revenue.Umsatz`: prices are exact reals, so the floating-point rounding of
  JavaScript's `+` and `*` is not modelled.
- `Aggregator.Aggregate`: the model types `bezahlt` as a boolean and `status`
  as a string. So the case of a truthy non-boolean flag, which the strict
  comparison counts as unpaid, is not represented.
- `StatusBadge.StatusLabel`: the lookups index a plain object. In JavaScript a
  status equal to an inherited property name such as `constructor` would find
  that property rather than fall back. The model treats every string outside
  the four statuses as absent from the tables.
- `StatusBadge.StatusClass`: the class table is a plain object too. A status
  equal to an inherited property name such as `constructor` would find that
  property and use its text as the class. The model gives such a status the
  empty class, as for any other unknown string.
- `Revenue.RevenueDependsOnlyOnReferences`, `Scenarios.DuplicateReference` and
  `Scenarios.TwoCourseReference`: these hold for `kurs` as a list of ids,
  where `includes` tests membership. If the field is a single string, such as
  a record URL, `includes` is a substring test. Then "an id named twice counts
  once" and "an enrollment naming two courses counts for both" are not what
  the dashboard computes.
