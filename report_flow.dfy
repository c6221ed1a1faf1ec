/** How a report travels from the severity classifier through the report form
    (components/IncidentForm.tsx) to the dashboard counters
    (components/Dashboard.tsx). No single component holds this path, so it
    lives in its own module. */
module ReportFlow {
  import opened Wrappers
  import opened Types
  import opened GeminiService
  import IncidentForm
  import opened Dashboard

  /** A report filed after the classifier suggested "urgent" is stored with
      severity "Urgent": it raises the total and none of the severity counts,
      so the three counts no longer add up to the total. */
  lemma {:induction false} UrgentReportEscapesSeverityCounts(rows: seq<StatRow>, form: IncidentForm.FormData, role: Role)
    ensures var call := Replied(Suggestion(Some("x"), Some("urgent"), None));
      var inserted := IncidentForm.NewRecord(form, role, AnalyzeIncident(Some("key"), call));
      var after := rows + [StatRow(inserted.status, inserted.severity)];
      && Tally(after).total == |rows| + 1
      && (forall v :: CountSeverity(after, v) == CountSeverity(rows, v))
      && CountSeverity(after, Low) + CountSeverity(after, Medium) + CountSeverity(after, High) < Tally(after).total
  {
    var call := Replied(Suggestion(Some("x"), Some("urgent"), None));
    var inserted := IncidentForm.NewRecord(form, role, AnalyzeIncident(Some("key"), call));
    IncidentForm.UrgentIsInsertedAsIs(form, role);
    UnlabelledRowUncounted(rows, StatRow(inserted.status, inserted.severity));
    SeverityCountsPartition(rows);
  }
}
