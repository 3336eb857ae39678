# Checklist, low-priority panel and statistics views, modelled in Dafny

This project models the view-state logic of three React components of the
Noblest-being frontend. None of the rendering is modelled.

- **`Home`** is the main checklist view. It loads the priority tasks of the five
  checklist types (Morning, LateMorning, Afternoon, Evening, Night) with one
  request per type and collects them behind a single `Promise.all`. It keeps a
  checked-state dictionary `checkedItems` built from the groups it shows. At
  most one task is expanded, with a reflection draft. Saving logs an activity,
  marks that task completed and reloads.
- **`LowPriorityTasks`** is the low-priority panel. It runs the same load,
  expansion and save sequence against the low-priority endpoint. It also has a
  `loading` flag and a form that adds a custom low-priority task.
- **`Stats`** is the statistics page. It has two filters: a category ("All" or
  one checklist type) and a date that defaults to today's UTC date. Every
  filter change re-runs `fetchData`. That run refuses a future date, fetches
  the combined report, or generates the category's report and reads it back.
  A report that arrives is drawn as two charts, and each earlier chart
  instance is destroyed before its successor is created.

Modules:

- `Http` (`http.dfy`) models the outcome of one `fetch`: it either threw, or
  replied with `ok`, `success`, `data` and `message`. It also holds the
  error-text rule: a reply that fails is turned into
  `new Error(result.message || fallback)`, while a call that threw keeps its
  own message.
- `Checklist` (`checklist.dfy`) holds the parts both checklist views share:
  - how the groups are assembled from the per-label responses (`Combine`);
  - the checked-state projection and the loop that builds it
    (`Project(Flatten(...))`, `BuildCheckedItems`);
  - the expansion machine (`Click`, `Edit`, `Run`);
  - the requests issued.
- `Home` (`home.dfy`) and `LowPriorityTasks` (`low_priority_tasks.dfy`) are
  classes whose fields are the components' state. Each handler is a method
  that states the complete new state.
- `DateOrder` (`date_order.dfy`) models JavaScript's string `<`. It proves that
  on `yyyy-mm-dd` strings this order is calendar order.
- `Stats` (`stats.dfy`) holds the date check, the three resolution paths of
  `fetchData` as a function (`Resolve`), and the y-axis ceiling. Its `StatsView`
  class proves the chart-disposal discipline for every filter change: at most
  two live chart instances, and every replaced one destroyed.

Every network outcome, the stored user id (`localStorage`) and the current
date are parameters. The ghost field `requests` records the calls issued, in
order.

The model follows the code in these places:

- `fetchCombinedReport` sends only `{ userId }`, without the selected date.
- `generateReport` runs for every category other than "All", whatever the date.
- `handleSave` does not clear the draft.
- `Home`'s load neither clears `error` nor has a `loading` flag.
- The empty string (a cleared date input) passes `validateDate`.
- Charts are not destroyed when the report becomes `null`.

## Model

| member | source | states |
|---|---|---|
| Http.ErrorText | src/pages/Stats.jsx:31-37 | a call that threw shows its own message; a failed reply shows its `message`, or the fallback only when that message is empty, so with a non-empty fallback a failed reply never shows an empty error |
| Checklist.Combine | src/pages/Home.jsx:36-43 | assembling the groups keeps at most one group per response |
| Checklist.CombineSound | src/pages/Home.jsx:36-43 | every group comes from a response with `ok && success`, under that response's label, with its `data` unchanged |
| Checklist.CombineOrdered | src/pages/Home.jsx:20-43 | groups appear in the fixed label order |
| Checklist.CombineKeeps | src/pages/Home.jsx:37-41 | the label of a response that passed is present with its data |
| Checklist.CombineDrops | src/components/LowPriorityTasks.jsx:33-40 | the label of a response that failed has no group |
| Checklist.CombineComplete | src/pages/Home.jsx:36-43 | a label has a group if and only if its response passed: failed labels are absent, not empty |
| Checklist.CombineAllAccepted | src/pages/Home.jsx:36-45 | when every response passes there are exactly five groups, the i-th being label i with its data |
| Checklist.CombineOneRejected | src/components/LowPriorityTasks.jsx:33-42 | when exactly one response fails, only its label is missing: four groups remain |
| Checklist.AfterLoad | src/pages/Home.jsx:34-56 | after a settled load a label is shown exactly when its response passed; after a rejected one (the `catch`) the old groups stay |
| Checklist.FlattenMembers | src/pages/Home.jsx:47-53 | the outer and inner loops visit exactly the items of the groups |
| Checklist.Project | src/pages/Home.jsx:46-53 | the dictionary has no more keys than items were written |
| Checklist.ProjectKeys | src/pages/Home.jsx:46-53 | the keys are exactly the ids of the current items; nothing from an earlier load survives |
| Checklist.ProjectLastWins | src/components/LowPriorityTasks.jsx:43-50 | for a repeated id, the value is the `completed` of the item written last |
| Checklist.ProjectOneEntryPerItem | src/components/LowPriorityTasks.jsx:43-50 | with distinct ids there is exactly one entry per item, equal to its `completed` |
| Checklist.BuildCheckedItems | src/pages/Home.jsx:46-54 | the nested loops that fill a fresh dictionary produce `Project(Flatten(groups))` |
| Checklist.Load | src/pages/Home.jsx:34-56 | a settled load yields the assembled groups and their projection; a rejected one keeps both |
| Checklist.Click | src/pages/Home.jsx:60-65 | clicking the active task collapses it; clicking any other task makes it the only active one |
| Checklist.Edit | src/pages/Home.jsx:67-69 | an input change sets one draft field, leaves the other two and the active task as they were |
| Checklist.LastClick | src/pages/Home.jsx:60-69 | finds the last click in an event trace; only typing follows it |
| Checklist.ExpandedDraftIsTypedSinceOpening | src/pages/Home.jsx:60-69 | starting collapsed, an expanded task is the one last clicked, and its draft holds exactly what was typed since that click |
| Checklist.SwitchingTasksResetsDraft | src/components/LowPriorityTasks.jsx:59-74 | expanding A, typing, then expanding B gives B with an empty draft; re-clicking A collapses it and keeps the typed draft |
| Home.HomeView.constructor | src/pages/Home.jsx:11-15 | the initial state: no groups, no error, empty dictionary, nothing expanded, empty draft |
| Home.HomeView.FetchChecklist | src/pages/Home.jsx:19-58 | five priority requests in label order; groups become `AfterLoad`; the dictionary keeps mirroring them; a rejection sets the fetch error only |
| Home.HomeView.HandleCheckboxChange | src/pages/Home.jsx:60-65 | the expansion follows `Click`; groups, dictionary, error and requests unchanged |
| Home.HomeView.HandleInputChange | src/pages/Home.jsx:67-69 | the expansion follows `Edit`; nothing else changes |
| Home.HomeView.ToggleCompletion | src/pages/Home.jsx:104-123 | one PUT; an ok response reloads, otherwise the toggle error is set and the groups are kept |
| Home.HomeView.HandleSave | src/pages/Home.jsx:71-102 | the activity is logged from the draft; only a declared success marks that task completed and collapses it; otherwise the save error is set |
| LowPriorityTasks.CustomItemOf | src/components/LowPriorityTasks.jsx:133-138 | the submitted item carries the form's name and note, not completed, priority "low" |
| LowPriorityTasks.LowPriorityTasksView.constructor | src/components/LowPriorityTasks.jsx:6-13 | the initial state, with the form hidden and empty |
| LowPriorityTasks.LowPriorityTasksView.FetchLowPriorityTasks | src/components/LowPriorityTasks.jsx:17-57 | five low-priority requests; groups become `AfterLoad`; the error is cleared or set; `loading` is down on exit |
| LowPriorityTasks.LowPriorityTasksView.HandleCheckboxChange | src/components/LowPriorityTasks.jsx:59-70 | the expansion follows `Click`; nothing else changes |
| LowPriorityTasks.LowPriorityTasksView.HandleInputChange | src/components/LowPriorityTasks.jsx:72-74 | the expansion follows `Edit`; nothing else changes |
| LowPriorityTasks.LowPriorityTasksView.ToggleCompletion | src/components/LowPriorityTasks.jsx:109-126 | one PUT under the stored identity; an ok response reloads, otherwise the toggle error is set |
| LowPriorityTasks.LowPriorityTasksView.HandleSave | src/components/LowPriorityTasks.jsx:76-107 | the activity is logged under the stored identity; only a declared success toggles and collapses; otherwise the save error is set |
| LowPriorityTasks.LowPriorityTasksView.HandleAddTask | src/components/LowPriorityTasks.jsx:128-153 | one create request with the form's single item; on an ok response the form is cleared and hidden and the panel reloads; otherwise the add error is set and the form is kept |
| LowPriorityTasks.LowPriorityTasksView.ToggleForm | src/components/LowPriorityTasks.jsx:164 | the "+" button flips the form's visibility and keeps its values |
| LowPriorityTasks.LowPriorityTasksView.EditNewTask | src/components/LowPriorityTasks.jsx:179-198 | one form field changes; the others keep their values |
| DateOrder.LexLess | src/pages/Stats.jsx:93 | JavaScript's string `<`: irreflexive, and a proper prefix is below the longer string |
| DateOrder.LexLessEq | src/pages/Stats.jsx:93 | `a <= b`, computed as `!(b < a)`, holds exactly when `a == b` or `a < b` |
| DateOrder.LexTrichotomy | src/pages/Stats.jsx:91-94 | string `<` is a strict total order: exactly one of `a < b`, `a == b` and `b < a` holds |
| DateOrder.LexLessConcat | src/pages/Stats.jsx:93 | comparing concatenations whose first parts have equal length compares the first parts, then the rest |
| DateOrder.NumBound | src/pages/Stats.jsx:92-93 | an n-digit string denotes less than 10^n |
| DateOrder.DigitsOrder | src/pages/Stats.jsx:92-93 | on digit strings of one length, string order is numeric order |
| DateOrder.IsoStringOrderIsCalendarOrder | src/pages/Stats.jsx:91-94 | on `yyyy-mm-dd` strings, string `<` is the order by year, then month, then day |
| Stats.ValidateDate | src/pages/Stats.jsx:91-94 | a date passes exactly when it equals today or is below it as a string; the empty date passes |
| Stats.ValidDateIsNotAfterToday | src/pages/Stats.jsx:91-94 | on ISO dates, a date passes exactly when it does not fall after today in the calendar |
| Stats.Resolve | src/pages/Stats.jsx:95-119 | a future date makes no call, sets the future-date error and clears the report; "All" makes only the combined call; a category makes a generate call and, only after it is accepted, a by-date call with the same date; a delivered report clears the error; otherwise the previous report stays or is cleared |
| Stats.YAxisCeiling | src/pages/Stats.jsx:135-189 | the y maximum is at least 2, above every completed-tier count, and one more than the largest of them (or 2) |
| Stats.Chart.constructor | src/pages/Stats.jsx:145-168 | a new instance is live, with its kind and y maximum |
| Stats.Chart.Destroy | src/pages/Stats.jsx:137-142 | the instance is destroyed |
| Stats.StatsView.AtMostTwoLive | src/pages/Stats.jsx:137-145 | under the disposal discipline at most two chart instances are live, none before the first render |
| Stats.StatsView.constructor | src/pages/Stats.jsx:11-19 | no report, no error, "All", today's date, no chart instance |
| Stats.StatsView.FetchCombinedReport | src/pages/Stats.jsx:20-40 | one combined-report call; an accepted reply sets the report; otherwise the error text is set and the report kept |
| Stats.StatsView.GenerateReport | src/pages/Stats.jsx:41-64 | one generate call with the selected category and date; a failure sets the error text and is reported to the caller |
| Stats.StatsView.FetchReportByDate | src/pages/Stats.jsx:65-90 | one by-date call; an accepted reply sets the report; otherwise the error text is set and the report cleared |
| Stats.StatsView.FetchData | src/pages/Stats.jsx:95-119 | the report, error and calls are those of `Resolve` for the filters before the run; `loading` is down on exit; the charts are untouched |
| Stats.StatsView.RenderCharts | src/pages/Stats.jsx:125-203 | both old instances are destroyed, together with every earlier one; two fresh ones are created, a doughnut and a bar chart whose y maximum is `YAxisCeiling` of the report's tier counts; `charts` grows by exactly those two |
| Stats.StatsView.Refresh | src/pages/Stats.jsx:95-124 | the report, error and calls are those of `Resolve`; when a report was delivered, every earlier chart instance is destroyed and two fresh ones show it; otherwise the handles and the set of instances are unchanged |
| Stats.StatsView.SelectChecklist | src/pages/Stats.jsx:214 | the category is set; a different one re-runs the fetch for it, with the report, error, calls and charts that `Refresh` promises; the same one changes nothing, charts included |
| Stats.StatsView.SelectDate | src/pages/Stats.jsx:229 | the date is set; a different one re-runs the fetch for it, with the report, error, calls and charts that `Refresh` promises; the same one changes nothing, charts included |

## Left out

- The JSX markup, CSS classes, the navigation bar and the `console` logging are not modelled: they do not affect state.
- `src/pages/Profile.jsx` and the `PriorityTasks` component that `Home` renders are not part of this model.
- The clock is a parameter: `today` stands for `new Date().toISOString().split("T")[0]`, the UTC date, so its time-zone behaviour is not modelled.
- `localStorage` is a parameter: the stored user id is passed to each handler that reads it.
- Concurrency is not modelled. Each `await`ed chain and each unawaited reload runs to completion before the next event. So out-of-order replies, a reload racing a later action, and state updates after unmount are not represented.
- The `userId` prop of the low-priority panel is fixed for the panel's lifetime. The effect that reloads when it changes is modelled only as the load itself.
- The mount effects (`Home.jsx:125-127`, `LowPriorityTasks.jsx:155-157`, the first `fetchData` on the statistics page) are not separate members. They are the constructor followed by the fetch method.
- Chart.js is reduced to an instance that is live until destroyed and that keeps its kind and y maximum. The canvas, colours, labels, titles and the other options are not modelled.
- Strings are sequences of Dafny characters, which stand for JavaScript's UTF-16 code units in string comparison.
- Payloads are well formed: `null` or missing fields (`data`, `priorityStats.high`, and so on) are not modelled. A reply whose JSON body cannot be parsed is a thrown call.
- JavaScript numbers are unbounded integers; `completionPercentage` is kept as the text the page prints.
- Checklist.Combine: the function's own contract states only the size bound; what the groups are is stated by `CombineSound`, `CombineOrdered` and `CombineComplete`.
