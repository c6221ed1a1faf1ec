/** The dashboard counters (components/Dashboard.tsx) and which roles see the
    charts. The chart data itself is fixed presentation data and is not kept. */
module Dashboard {
  import opened Wrappers
  import opened Types

  /** `stats`. */
  datatype Stats = Stats(total: nat, resolved: nat, critical: nat, counseling: nat)

  const InitialStats: Stats := Stats(0, 0, 0, 0)

  /** The figures shown when the store cannot be read. */
  const FallbackStats: Stats := Stats(42, 24, 6, 8)

  /** A row of `select('status, severity')`. The severity column holds the
      string the report form inserted, which need not be one of the three
      labels (a suggested "urgent" is inserted as "Urgent"). Every status the
      application writes is a declared one, so the status column is typed. */
  datatype StatRow = StatRow(status: Status, severity: string)

  /** `rows.filter(i => i.status === s).length`. */
  function CountStatus(rows: seq<StatRow>, s: Status): (n: nat)
    ensures n <= |rows|
    ensures n == 0 <==> forall k :: 0 <= k < |rows| ==> rows[k].status != s
  {
    if rows == [] then 0
    else (if rows[0].status == s then 1 else 0) + CountStatus(rows[1..], s)
  }

  /** `rows.filter(i => i.severity === label).length` for the label of `v`. */
  function CountSeverity(rows: seq<StatRow>, v: Severity): (n: nat)
    ensures n <= |rows|
    ensures n == 0 <==> forall k :: 0 <= k < |rows| ==> rows[k].severity != SeverityLabel(v)
  {
    if rows == [] then 0
    else (if rows[0].severity == SeverityLabel(v) then 1 else 0) + CountSeverity(rows[1..], v)
  }

  /** Two different statuses never count the same row, so their counts
      together are at most the number of rows. */
  lemma {:induction false} DistinctStatusesBounded(rows: seq<StatRow>, a: Status, b: Status)
    requires a != b
    ensures CountStatus(rows, a) + CountStatus(rows, b) <= |rows|
  {
    if rows != [] {
      DistinctStatusesBounded(rows[1..], a, b);
    }
  }

  /** Every row has exactly one status: the seven status counts add up to the total. */
  lemma {:induction false} StatusCountsPartition(rows: seq<StatRow>)
    ensures CountStatus(rows, New) + CountStatus(rows, UnderReview) + CountStatus(rows, UnderCounseling)
      + CountStatus(rows, ActionTaken) + CountStatus(rows, Resolved) + CountStatus(rows, Seen)
      + CountStatus(rows, Forwarded) == |rows|
  {
    if rows != [] {
      StatusCountsPartition(rows[1..]);
      HeadStatusCounted(rows);
    }
  }

  /** The first row adds exactly one to the seven status counts together. */
  lemma HeadStatusCounted(rows: seq<StatRow>)
    requires rows != []
    ensures CountStatus(rows, New) + CountStatus(rows, UnderReview) + CountStatus(rows, UnderCounseling)
      + CountStatus(rows, ActionTaken) + CountStatus(rows, Resolved) + CountStatus(rows, Seen)
      + CountStatus(rows, Forwarded)
      == CountStatus(rows[1..], New) + CountStatus(rows[1..], UnderReview) + CountStatus(rows[1..], UnderCounseling)
      + CountStatus(rows[1..], ActionTaken) + CountStatus(rows[1..], Resolved) + CountStatus(rows[1..], Seen)
      + CountStatus(rows[1..], Forwarded) + 1
  {
    match rows[0].status
    case New =>
    case UnderReview =>
    case UnderCounseling =>
    case ActionTaken =>
    case Resolved =>
    case Seen =>
    case Forwarded =>
  }

  /** A row is counted under at most one severity, so the three severity
      counts add up to at most the total, and to the total exactly when every
      row's severity is one of the three labels. */
  lemma {:induction false} SeverityCountsPartition(rows: seq<StatRow>)
    ensures CountSeverity(rows, Low) + CountSeverity(rows, Medium) + CountSeverity(rows, High) <= |rows|
    ensures CountSeverity(rows, Low) + CountSeverity(rows, Medium) + CountSeverity(rows, High) == |rows|
      <==> forall k :: 0 <= k < |rows| ==> IsSeverityLabel(rows[k].severity)
  {
    if rows != [] {
      SeverityCountsPartition(rows[1..]);
      HeadSeverityCounted(rows);
      AllLabelledSplit(rows);
    }
  }

  /** The first row adds one to the three severity counts together exactly
      when its severity is a label. */
  lemma HeadSeverityCounted(rows: seq<StatRow>)
    requires rows != []
    ensures CountSeverity(rows, Low) + CountSeverity(rows, Medium) + CountSeverity(rows, High)
      == CountSeverity(rows[1..], Low) + CountSeverity(rows[1..], Medium) + CountSeverity(rows[1..], High)
         + (if IsSeverityLabel(rows[0].severity) then 1 else 0)
  {
  }

  lemma AllLabelledSplit(rows: seq<StatRow>)
    requires rows != []
    ensures (forall k :: 0 <= k < |rows| ==> IsSeverityLabel(rows[k].severity))
      <==> IsSeverityLabel(rows[0].severity) && forall k :: 0 <= k < |rows[1..]| ==> IsSeverityLabel(rows[1..][k].severity)
  {
    assert forall k :: 1 <= k < |rows| ==> rows[k] == rows[1..][k - 1];
  }

  /** Appending a row whose severity is not a label, such as "Urgent",
      leaves every severity count as it was. */
  lemma {:induction false} UnlabelledRowUncounted(rows: seq<StatRow>, row: StatRow)
    requires !IsSeverityLabel(row.severity)
    ensures forall v :: CountSeverity(rows + [row], v) == CountSeverity(rows, v)
  {
    forall v ensures CountSeverity(rows + [row], v) == CountSeverity(rows, v) {
      CountSeverityAppend(rows, row, v);
    }
  }

  lemma {:induction false} CountSeverityAppend(rows: seq<StatRow>, row: StatRow, v: Severity)
    ensures CountSeverity(rows + [row], v) == CountSeverity(rows, v) + (if row.severity == SeverityLabel(v) then 1 else 0)
  {
    if rows != [] {
      assert (rows + [row])[1..] == rows[1..] + [row];
      CountSeverityAppend(rows[1..], row, v);
    }
  }

  /** The four counters computed from the rows. */
  function Tally(rows: seq<StatRow>): (st: Stats)
    ensures st.total == |rows|
    ensures st.resolved == CountStatus(rows, Resolved)
    ensures st.critical == CountSeverity(rows, High)
    ensures st.counseling == CountStatus(rows, UnderCounseling)
    ensures st.resolved <= st.total && st.critical <= st.total && st.counseling <= st.total
    ensures st.resolved + st.counseling <= st.total
  {
    DistinctStatusesBounded(rows, Resolved, UnderCounseling);
    Stats(|rows|, CountStatus(rows, Resolved), CountSeverity(rows, High), CountStatus(rows, UnderCounseling))
  }

  /** The stats after `fetchStats`: the fallback on an error, unchanged on a
      null result, the tally otherwise. */
  function StatsAfter(oldStats: Stats, fetch: Result<Option<seq<StatRow>>>): (st: Stats)
    ensures fetch.Err? ==> st == FallbackStats
    ensures fetch == Ok(None) ==> st == oldStats
    ensures fetch.Ok? && fetch.value.Some? ==> st == Tally(fetch.value.value)
  {
    match fetch
    case Err => FallbackStats
    case Ok(None) => oldStats
    case Ok(Some(rows)) => Tally(rows)
  }

  /** The fallback figures are themselves consistent: no counter exceeds the
      total, and resolved and counseling cases together fit in it. */
  lemma FallbackConsistent()
    ensures FallbackStats.resolved + FallbackStats.counseling <= FallbackStats.total
    ensures FallbackStats.critical <= FallbackStats.total
  {
  }

  /** The category and grade charts are shown to Admin and Guidance only. */
  predicate ShowsCharts(role: Role) {
    role == Admin || role == Guidance
  }

  lemma ChartsByRole()
    ensures ShowsCharts(Admin) && ShowsCharts(Guidance)
    ensures !ShowsCharts(Teacher) && !ShowsCharts(Anonymous)
  {
  }

  /** The component's state. */
  class Dashboard {
    const role: Role
    var stats: Stats
    var loading: bool

    constructor (role: Role)
      ensures this.role == role && stats == InitialStats && loading
    {
      this.role := role;
      stats := InitialStats;
      loading := true;
    }

    /** `fetchStats`, given the outcome of the store read. */
    method FetchStats(fetch: Result<Option<seq<StatRow>>>)
      modifies this
      ensures stats == StatsAfter(old(stats), fetch)
      ensures !loading
    {
      match fetch {
        case Err =>
          stats := FallbackStats;
        case Ok(data) =>
          if data.Some? {
            stats := Tally(data.value);
          }
      }
      loading := false;
    }
  }
}
