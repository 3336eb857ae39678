/**
 * The statistics page (`Stats`): two filters (a category, "All" or one label,
 * and a date defaulting to today) whose every change re-runs `fetchData`, which
 * either refuses a future date, asks for the combined report, or generates the
 * category's report and then reads it back; and the two chart instances drawn
 * from whatever report arrives, each old instance destroyed before a new one
 * is created. The clock, the stored user id and every network outcome are
 * parameters; `requests` records the calls issued, in order.
 */
module Stats {
  import opened Http
  import Checklist
  import opened DateOrder

  const FutureDateError := "Selected date is in the future. Please choose a valid date."
  const CombinedFallback := "Failed to fetch combined report"
  const GenerateFallback := "Failed to generate report"
  const ByDateFallback := "No reports available for the selected date."

  type Label = Checklist.Label

  /** The category dropdown: every report at once, or the report of one label. */
  datatype Category = All | Only(checklistType: Label)

  /**
   * The fields of a report payload the page reads: the totals of tasks, the
   * percentage as JavaScript prints it, and the completed count of each
   * priority tier (`priorityStats.<tier>.completed`).
   */
  datatype Report = Report(completedTasks: int, pendingTasks: int, completionPercentage: string,
                           highCompleted: int, mediumCompleted: int, lowCompleted: int)

  /** The three report endpoints, each a POST with a JSON body. */
  datatype Request =
    | PostCombinedReport(userId: string)
    | PostGenerateReport(userId: string, checklistType: Category, date: string)
    | PostReportByDate(userId: string, checklistType: Category, date: string)

  /**
   * `validateDate`: `date <= today` on strings. For two ISO dates this is the
   * calendar order (`ValidDateIsNotAfterToday`); a cleared date input (the
   * empty string) always passes.
   */
  function ValidateDate(date: string, today: string): (r: bool)
    ensures r <==> date == today || LexLess(date, today)
    ensures date == [] ==> r
  {
    LexLessEq(date, today)
  }

  /** On ISO dates, a date passes exactly when it does not fall after today. */
  lemma ValidDateIsNotAfterToday(date: string, today: string)
    requires IsoDate(date) && IsoDate(today)
    ensures ValidateDate(date, today) <==> !Before(today, date)
  {
    IsoStringOrderIsCalendarOrder(today, date);
  }

  /**
   * What one run of `fetchData` leaves behind: the report on display, the
   * error text, the calls made, and whether a report was set (the change that
   * makes the page draw its charts again).
   */
  datatype Outcome = Outcome(statsData: Option<Report>, error: string, calls: seq<Request>, delivered: bool)

  /**
   * The three resolution paths of `fetchData` for the filters `category` and
   * `date`, with `shown` the report on display before the run.
   */
  function Resolve(userId: string, category: Category, date: string, today: string, shown: Option<Report>,
                   combined: Reply<Report>, generate: Reply<()>, byDate: Reply<Report>): (o: Outcome)
    ensures o.calls == [] <==> !ValidateDate(date, today)
    ensures !ValidateDate(date, today) ==> o.statsData == None && o.error == FutureDateError && !o.delivered
    ensures category == All ==> forall c :: c in o.calls ==> c == PostCombinedReport(userId)
    ensures category != All ==> forall c :: c in o.calls ==> !c.PostCombinedReport? && c.date == date
    ensures |o.calls| == 2 <==> ValidateDate(date, today) && category != All && Accepted(generate)
    ensures forall i :: 0 <= i < |o.calls| && o.calls[i].PostReportByDate? ==>
              i == 1 && Accepted(generate) && o.calls[0] == PostGenerateReport(userId, category, date)
    ensures o.delivered ==> o.error == "" && o.statsData.Some?
    ensures !o.delivered ==> o.statsData == shown || o.statsData == None
  {
    if !ValidateDate(date, today) then
      Outcome(None, FutureDateError, [], false)
    else if category == All then
      if Accepted(combined) then Outcome(Some(combined.data), "", [PostCombinedReport(userId)], true)
      else Outcome(shown, ErrorText(combined, CombinedFallback), [PostCombinedReport(userId)], false)
    else
      var generateCall := PostGenerateReport(userId, category, date);
      if !Accepted(generate) then
        Outcome(shown, ErrorText(generate, GenerateFallback), [generateCall], false)
      else
        var byDateCall := PostReportByDate(userId, category, date);
        if Accepted(byDate) then Outcome(Some(byDate.data), "", [generateCall, byDateCall], true)
        else Outcome(None, ErrorText(byDate, ByDateFallback), [generateCall, byDateCall], false)
  }

  /** `Math.max(high, medium, low, 1) + 1`: the bar chart's y-axis maximum. */
  function YAxisCeiling(high: int, medium: int, low: int): (c: int)
    ensures c >= 2 && c > high && c > medium && c > low
    ensures c - 1 == high || c - 1 == medium || c - 1 == low || c == 2
  {
    var m := if high >= medium then high else medium;
    var m' := if m >= low then m else low;
    (if m' >= 1 then m' else 1) + 1
  }

  /** The completion doughnut and the priority bar chart. */
  datatype ChartKind = Doughnut | Bar

  /**
   * A chart-library instance, live until destroyed. Of its configuration only
   * the kind and the y-axis maximum are kept.
   */
  class Chart {
    const kind: ChartKind
    const yMax: Option<int>
    var destroyed: bool

    constructor(kind: ChartKind, yMax: Option<int>)
      ensures this.kind == kind && this.yMax == yMax && !destroyed
    {
      this.kind := kind;
      this.yMax := yMax;
      destroyed := false;
    }

    method Destroy()
      modifies this
      ensures destroyed
    {
      destroyed := true;
    }
  }

  class StatsView {
    var statsData: Option<Report>
    var error: string
    var loading: bool
    var selectedChecklist: Category
    var selectedDate: string
    var completionChart: Chart?
    var priorityChart: Chart?
    ghost var requests: seq<Request>
    /** Every chart instance the page has created. */
    ghost var charts: set<Chart>

    /**
     * The disposal discipline: the two current instances (present together or
     * not at all) are live, and every other instance ever created is destroyed.
     */
    ghost predicate ChartsValid()
      reads this, charts
    {
      (completionChart == null <==> priorityChart == null) &&
      (completionChart != null ==>
         completionChart in charts && priorityChart in charts && completionChart != priorityChart &&
         !completionChart.destroyed && !priorityChart.destroyed) &&
      (forall c :: c in charts && c != completionChart && c != priorityChart ==> c.destroyed)
    }

    /** Between two events no fetch is in flight. */
    ghost predicate Valid()
      reads this, charts
    {
      ChartsValid() && !loading
    }

    /** The instances that have not been destroyed. */
    ghost function Live(): set<Chart>
      reads this, charts
    {
      set c | c in charts && !c.destroyed
    }

    /** The page never holds more than the two charts it shows. */
    lemma AtMostTwoLive()
      requires ChartsValid()
      ensures |Live()| <= 2
      ensures completionChart == null ==> Live() == {}
    {
      if completionChart == null {
        assert Live() == {};
      } else {
        assert Live() <= {completionChart, priorityChart};
        SubsetCard(Live(), {completionChart, priorityChart});
      }
    }

    /**
     * The page shows the charts of `report`: a doughnut and a bar chart whose y
     * maximum is the ceiling of the report's tier counts, both new beside
     * `before` (the instances created earlier), every one of which is destroyed.
     */
    ghost predicate ShowsChartsOf(report: Report, before: set<Chart>)
      reads this, before
    {
      completionChart != null && priorityChart != null &&
      completionChart !in before && priorityChart !in before &&
      completionChart.kind == Doughnut && completionChart.yMax == None &&
      priorityChart.kind == Bar &&
      priorityChart.yMax == Some(YAxisCeiling(report.highCompleted, report.mediumCompleted, report.lowCompleted)) &&
      charts == before + {completionChart, priorityChart} &&
      (forall c :: c in before ==> c.destroyed)
    }

    /** The chart handles and the set of instances are as given. */
    ghost predicate KeepsCharts(completion: Chart?, priority: Chart?, before: set<Chart>)
      reads this
    {
      completionChart == completion && priorityChart == priority && charts == before
    }

    /** Mounting: no report, no error, "All" and today's date, no charts yet. */
    constructor(today: string)
      ensures Valid()
      ensures statsData == None && error == "" && selectedChecklist == All && selectedDate == today
      ensures completionChart == null && priorityChart == null && charts == {} && requests == []
    {
      statsData := None;
      error := "";
      loading := false;
      selectedChecklist := All;
      selectedDate := today;
      completionChart := null;
      priorityChart := null;
      requests := [];
      charts := {};
    }

    /** `fetchCombinedReport`: shows the combined report, or sets the error and keeps what is shown. */
    method FetchCombinedReport(userId: string, reply: Reply<Report>) returns (delivered: bool)
      requires ChartsValid()
      modifies this
      ensures ChartsValid()
      ensures requests == old(requests) + [PostCombinedReport(userId)]
      ensures delivered == Accepted(reply)
      ensures statsData == if delivered then Some(reply.data) else old(statsData)
      ensures error == if delivered then old(error) else ErrorText(reply, CombinedFallback)
      ensures loading == old(loading) && selectedChecklist == old(selectedChecklist) && selectedDate == old(selectedDate)
      ensures completionChart == old(completionChart) && priorityChart == old(priorityChart) && charts == old(charts)
    {
      requests := requests + [PostCombinedReport(userId)];
      delivered := Accepted(reply);
      if delivered {
        statsData := Some(reply.data);
      } else {
        error := ErrorText(reply, CombinedFallback);
      }
    }

    /**
     * `generateReport`: asks the backend to build the selected category's report
     * for the selected date; a failure sets the error and is rethrown, which is
     * `ok == false` here.
     */
    method GenerateReport(userId: string, reply: Reply<()>) returns (ok: bool)
      requires ChartsValid()
      modifies this
      ensures ChartsValid()
      ensures requests == old(requests) + [PostGenerateReport(userId, selectedChecklist, selectedDate)]
      ensures ok == Accepted(reply)
      ensures error == if ok then old(error) else ErrorText(reply, GenerateFallback)
      ensures statsData == old(statsData) && loading == old(loading)
      ensures selectedChecklist == old(selectedChecklist) && selectedDate == old(selectedDate)
      ensures completionChart == old(completionChart) && priorityChart == old(priorityChart) && charts == old(charts)
    {
      requests := requests + [PostGenerateReport(userId, selectedChecklist, selectedDate)];
      ok := Accepted(reply);
      if !ok {
        error := ErrorText(reply, GenerateFallback);
      }
    }

    /** `fetchReportByDate`: shows the generated report, or sets the error and clears the report. */
    method FetchReportByDate(userId: string, reply: Reply<Report>) returns (delivered: bool)
      requires ChartsValid()
      modifies this
      ensures ChartsValid()
      ensures requests == old(requests) + [PostReportByDate(userId, selectedChecklist, selectedDate)]
      ensures delivered == Accepted(reply)
      ensures statsData == if delivered then Some(reply.data) else None
      ensures error == if delivered then old(error) else ErrorText(reply, ByDateFallback)
      ensures loading == old(loading) && selectedChecklist == old(selectedChecklist) && selectedDate == old(selectedDate)
      ensures completionChart == old(completionChart) && priorityChart == old(priorityChart) && charts == old(charts)
    {
      requests := requests + [PostReportByDate(userId, selectedChecklist, selectedDate)];
      delivered := Accepted(reply);
      if delivered {
        statsData := Some(reply.data);
      } else {
        error, statsData := ErrorText(reply, ByDateFallback), None;
      }
    }

    /**
     * `fetchData`, the effect run whenever a filter changes: clears the error,
     * raises `loading`, takes one of the three paths, and lowers `loading`.
     */
    method FetchData(userId: string, today: string, combined: Reply<Report>, generate: Reply<()>,
                     byDate: Reply<Report>) returns (delivered: bool)
      requires Valid()
      modifies this
      ensures Valid()
      ensures var o := Resolve(userId, old(selectedChecklist), old(selectedDate), today, old(statsData),
                               combined, generate, byDate);
              statsData == o.statsData && error == o.error && requests == old(requests) + o.calls &&
              delivered == o.delivered
      ensures selectedChecklist == old(selectedChecklist) && selectedDate == old(selectedDate)
      ensures completionChart == old(completionChart) && priorityChart == old(priorityChart) && charts == old(charts)
    {
      loading, error := true, "";
      if !ValidateDate(selectedDate, today) {
        error, statsData, loading := FutureDateError, None, false;
        return false;
      }
      if selectedChecklist == All {
        delivered := FetchCombinedReport(userId, combined);
      } else {
        var generated := GenerateReport(userId, generate);
        if generated {
          delivered := FetchReportByDate(userId, byDate);
        } else {
          delivered := false;
        }
      }
      loading := false;
    }

    /**
     * `renderCharts`, the effect run when a report is set: destroys the
     * instances on display, then draws the completion and priority charts of
     * the report.
     */
    method RenderCharts()
      requires Valid() && statsData.Some?
      modifies this, completionChart, priorityChart
      ensures Valid()
      ensures statsData == old(statsData) && error == old(error) && requests == old(requests)
      ensures fresh(completionChart) && fresh(priorityChart) && ShowsChartsOf(statsData.value, old(charts))
      ensures selectedChecklist == old(selectedChecklist) && selectedDate == old(selectedDate)
    {
      if completionChart != null {
        completionChart.Destroy();
      }
      if priorityChart != null {
        priorityChart.Destroy();
      }
      var report := statsData.value;
      var ceiling := YAxisCeiling(report.highCompleted, report.mediumCompleted, report.lowCompleted);
      var completion := new Chart(Doughnut, None);
      var priority := new Chart(Bar, Some(ceiling));
      completionChart, priorityChart := completion, priority;
      charts := charts + {completion, priority};
    }

    /**
     * A filter change: `fetchData`, then the charts again when it set a report.
     * Either every earlier instance is destroyed and two new ones show the
     * report, or the charts are left as they were.
     */
    method Refresh(userId: string, today: string, combined: Reply<Report>, generate: Reply<()>,
                   byDate: Reply<Report>)
      requires Valid()
      modifies this, completionChart, priorityChart
      ensures Valid()
      ensures var o := Resolve(userId, old(selectedChecklist), old(selectedDate), today, old(statsData),
                               combined, generate, byDate);
              statsData == o.statsData && error == o.error && requests == old(requests) + o.calls &&
              if o.delivered then fresh(completionChart) && fresh(priorityChart) &&
                                  ShowsChartsOf(o.statsData.value, old(charts))
              else KeepsCharts(old(completionChart), old(priorityChart), old(charts))
      ensures selectedChecklist == old(selectedChecklist) && selectedDate == old(selectedDate)
    {
      var delivered := FetchData(userId, today, combined, generate, byDate);
      if delivered {
        RenderCharts();
      }
    }

    /** Choosing a category: a different choice re-runs the fetch for it, the same one changes nothing. */
    method SelectChecklist(category: Category, userId: string, today: string, combined: Reply<Report>,
                           generate: Reply<()>, byDate: Reply<Report>)
      requires Valid()
      modifies this, completionChart, priorityChart
      ensures Valid()
      ensures selectedChecklist == category && selectedDate == old(selectedDate)
      ensures category == old(selectedChecklist) ==>
                statsData == old(statsData) && error == old(error) && requests == old(requests) &&
                KeepsCharts(old(completionChart), old(priorityChart), old(charts))
      ensures category != old(selectedChecklist) ==>
                var o := Resolve(userId, category, selectedDate, today, old(statsData), combined, generate, byDate);
                statsData == o.statsData && error == o.error && requests == old(requests) + o.calls &&
                if o.delivered then fresh(completionChart) && fresh(priorityChart) &&
                                    ShowsChartsOf(o.statsData.value, old(charts))
                else KeepsCharts(old(completionChart), old(priorityChart), old(charts))
    {
      if category != selectedChecklist {
        selectedChecklist := category;
        Refresh(userId, today, combined, generate, byDate);
      }
    }

    /** Choosing a date: a different date re-runs the fetch for it, the same one changes nothing. */
    method SelectDate(date: string, userId: string, today: string, combined: Reply<Report>,
                      generate: Reply<()>, byDate: Reply<Report>)
      requires Valid()
      modifies this, completionChart, priorityChart
      ensures Valid()
      ensures selectedDate == date && selectedChecklist == old(selectedChecklist)
      ensures date == old(selectedDate) ==>
                statsData == old(statsData) && error == old(error) && requests == old(requests) &&
                KeepsCharts(old(completionChart), old(priorityChart), old(charts))
      ensures date != old(selectedDate) ==>
                var o := Resolve(userId, selectedChecklist, date, today, old(statsData), combined, generate, byDate);
                statsData == o.statsData && error == o.error && requests == old(requests) + o.calls &&
                if o.delivered then fresh(completionChart) && fresh(priorityChart) &&
                                    ShowsChartsOf(o.statsData.value, old(charts))
                else KeepsCharts(old(completionChart), old(priorityChart), old(charts))
    {
      if date != selectedDate {
        selectedDate := date;
        Refresh(userId, today, combined, generate, byDate);
      }
    }
  }

  /** A subset of a finite set is no larger than it. */
  lemma SubsetCard<T>(a: set<T>, b: set<T>)
    requires a <= b
    ensures |a| <= |b|
  {
    if a != {} {
      var x :| x in a;
      SubsetCard(a - {x}, b - {x});
    }
  }
}
