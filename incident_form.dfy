/** The report form (components/IncidentForm.tsx): the AI analysis guard,
    applying a suggestion to the category, and the record that a submission
    inserts. */
module IncidentForm {
  import opened Wrappers
  import opened Text
  import opened Types
  import opened GeminiService

  /** `formData`. */
  datatype FormData = FormData(
    studentName: string,
    gradeSection: string,
    incidentType: IncidentType,
    description: string,
    date: string)

  /** The initial `formData`: empty fields, category Other, and today's date
      (`new Date()` is not modelled, so the date is a parameter). */
  function InitialForm(today: string): (f: FormData)
    ensures f.incidentType == Other
    ensures f.studentName == f.gradeSection == f.description == ""
    ensures f.date == today
  {
    FormData("", "", Other, "", today)
  }

  /** The shortest description the analysis button accepts. */
  const MinAnalysisLength: nat := 10

  /** The record passed to the store's insert, with the store's column names. */
  datatype IncidentInsert = IncidentInsert(
    student_name: string,
    grade_section: string,
    incident_type: IncidentType,
    description: string,
    date: string,
    status: Status,
    reported_by: Role,
    severity: string)

  /** The pending suggestion carries a usable severity: present and non-empty. */
  predicate HasSeverity(suggestion: Option<Suggestion>) {
    suggestion.Some? && suggestion.value.severity.Some? && suggestion.value.severity.value != ""
  }

  /** The record `handleSubmit` inserts. */
  function NewRecord(form: FormData, role: Role, suggestion: Option<Suggestion>): (row: IncidentInsert)
    ensures row.status == New && row.reported_by == role
    ensures row.student_name == form.studentName && row.grade_section == form.gradeSection
    ensures row.incident_type == form.incidentType && row.description == form.description
    ensures row.date == form.date
    ensures HasSeverity(suggestion) ==> row.severity == suggestion.value.severity.value
    ensures !HasSeverity(suggestion) ==> row.severity == "Medium"
    ensures row.severity != ""
  {
    var severity := if HasSeverity(suggestion) then suggestion.value.severity.value else "Medium";
    IncidentInsert(form.studentName, form.gradeSection, form.incidentType, form.description,
                   form.date, New, role, severity)
  }

  /** Together with the analysis: the inserted severity is one of Low, Medium,
      High exactly when there is no usable suggested severity or the suggested
      one spells a label in some case. Any other suggested value, such as
      "urgent", is inserted as it is, re-cased. */
  lemma {:induction false} InsertedSeverityIsLabelIff(form: FormData, role: Role, apiKey: Option<string>, call: ModelCall)
    ensures var suggestion := AnalyzeIncident(apiKey, call);
      IsSeverityLabel(NewRecord(form, role, suggestion).severity) <==>
        (!HasSeverity(suggestion) || IsLoweredLabel(Lower(call.parsed.severity.value)))
  {
    var suggestion := AnalyzeIncident(apiKey, call);
    if HasSeverity(suggestion) {
      NormalizedIsLabelIff(call.parsed.severity.value);
    }
  }

  /** A suggested "urgent" ends up as an inserted severity "Urgent", outside
      the three values an Incident's severity is declared to take. */
  lemma UrgentIsInsertedAsIs(form: FormData, role: Role)
    ensures var call := Replied(Suggestion(Some("x"), Some("urgent"), None));
      var row := NewRecord(form, role, AnalyzeIncident(Some("key"), call));
      row.severity == "Urgent" && !IsSeverityLabel(row.severity)
  {
    UnrecognisedSeverityKept();
  }

  /** The suggested type names category `t`: its lower-cased label occurs in
      the lower-cased suggestion. */
  predicate Names(lowered: string, t: IncidentType) {
    Includes(lowered, Lower(TypeLabel(t)))
  }

  /** `find` over `ts`: the index of the first category named, or `|ts|`. */
  function FirstNamed(ts: seq<IncidentType>, lowered: string): (k: nat)
    ensures k <= |ts|
    ensures forall j :: 0 <= j < k ==> !Names(lowered, ts[j])
    ensures k < |ts| ==> Names(lowered, ts[k])
  {
    if ts == [] then 0
    else if Names(lowered, ts[0]) then 0
    else 1 + FirstNamed(ts[1..], lowered)
  }

  /** The category `applyAiSuggestion` picks: the first category, in
      declaration order, whose name occurs in the suggested type regardless
      of case, and Other when none does. */
  function MatchType(suggestedType: string): (t: IncidentType)
    ensures t == Other || Names(Lower(suggestedType), t)
    ensures forall j :: 0 <= j < TypeIndex(t) ==> !Names(Lower(suggestedType), IncidentTypes[j])
    ensures (forall u :: !Names(Lower(suggestedType), u)) ==> t == Other
  {
    IncidentTypesOrdered();
    var k := FirstNamed(IncidentTypes, Lower(suggestedType));
    if k < |IncidentTypes| then IncidentTypes[k] else Other
  }

  /** Matching ignores the case of the suggestion. */
  lemma MatchTypeIgnoresCase(a: string, b: string)
    requires Lower(a) == Lower(b)
    ensures MatchType(a) == MatchType(b)
  {
  }

  /** The first match wins: a suggestion naming both Bullying and Digital
      Misuse gives Bullying, which is declared first. */
  lemma FirstMatchWins()
    ensures Names(Lower("Digital Misuse / Cyberbullying"), DigitalMisuse)
    ensures MatchType("Digital Misuse / Cyberbullying") == Bullying
  {
    BothNamed("Digital Misuse / Cyberbullying");
  }

  /** A 30-character suggestion that opens with "Digital Misuse" and ends with
      "bullying" names both and picks Bullying. The suggestion is given by its
      pieces rather than as a literal, which keeps the proof cheap. */
  lemma BothNamed(s: string)
    requires |s| == 30 && s[0..14] == "Digital Misuse" && s[22..30] == "bullying"
    ensures Names(Lower(s), DigitalMisuse)
    ensures MatchType(s) == Bullying
  {
    NamesBullying(s);
    NamesDigital(s);
    assert IncidentTypes[0] == Bullying;
  }

  /** A suggestion with "bullying" at positions 22 to 30 names Bullying. */
  lemma NamesBullying(s: string)
    requires |s| == 30 && s[22..30] == "bullying"
    ensures Names(Lower(s), Bullying)
  {
    var bullying := Lower(TypeLabel(Bullying));
    assert bullying == "bullying";
    LowerSlice(s, 22, 30);
    IncludesAt(Lower(s), bullying, 22);
  }

  /** A suggestion that opens with "Digital Misuse" names Digital Misuse. */
  lemma NamesDigital(s: string)
    requires |s| >= 14 && s[0..14] == "Digital Misuse"
    ensures Names(Lower(s), DigitalMisuse)
  {
    LowerSlice(s, 0, 14);
    IncludesAt(Lower(s), Lower(TypeLabel(DigitalMisuse)), 0);
  }

  /** The form's state. `role` is its prop. */
  class IncidentForm {
    const role: Role
    var formData: FormData
    var aiSuggestion: Option<Suggestion>

    constructor (role: Role, today: string)
      ensures this.role == role && formData == InitialForm(today) && aiSuggestion == None
    {
      this.role := role;
      formData := InitialForm(today);
      aiSuggestion := None;
    }

    method SetStudentName(v: string)
      modifies this
      ensures formData == old(formData).(studentName := v) && aiSuggestion == old(aiSuggestion)
    {
      formData := formData.(studentName := v);
    }

    method SetGradeSection(v: string)
      modifies this
      ensures formData == old(formData).(gradeSection := v) && aiSuggestion == old(aiSuggestion)
    {
      formData := formData.(gradeSection := v);
    }

    method SetDescription(v: string)
      modifies this
      ensures formData == old(formData).(description := v) && aiSuggestion == old(aiSuggestion)
    {
      formData := formData.(description := v);
    }

    /** A click on one of the category buttons. */
    method SelectType(t: IncidentType)
      modifies this
      ensures formData == old(formData).(incidentType := t) && aiSuggestion == old(aiSuggestion)
    {
      formData := formData.(incidentType := t);
    }

    /** `handleAiAnalyze`, given the API key and the outcome of the model call.
        `attempted` tells whether `analyzeIncident` was called at all. */
    method HandleAiAnalyze(apiKey: Option<string>, call: ModelCall) returns (attempted: bool)
      modifies this
      ensures attempted <==> |old(formData).description| >= MinAnalysisLength
      ensures formData == old(formData)
      ensures var result := AnalyzeIncident(apiKey, call);
        aiSuggestion == if attempted && result.Some? then result else old(aiSuggestion)
    {
      if |formData.description| < MinAnalysisLength {
        return false;
      }
      attempted := true;
      var result := AnalyzeIncident(apiKey, call);
      if result.Some? {
        aiSuggestion := result;
      }
    }

    /** `handleSubmit`, given the outcome of the store insert: the record it
        inserts, and whether `onSuccess` is called. The form is not changed. */
    method HandleSubmit(insert: Outcome) returns (row: IncidentInsert, onSuccess: bool)
      ensures row == NewRecord(formData, role, aiSuggestion)
      ensures row.status == New && row.reported_by == role
      ensures onSuccess <==> insert.Pass?
    {
      row := NewRecord(formData, role, aiSuggestion);
      onSuccess := insert.Pass?;
    }

    /** `applyAiSuggestion`. With no pending suggestion nothing happens. A
        suggestion without a `suggestedType` makes `.toLowerCase()` throw, so
        nothing changes either. Otherwise only the category changes and the
        suggestion is cleared. */
    method ApplyAiSuggestion()
      modifies this
      ensures old(aiSuggestion).None? ==> formData == old(formData) && aiSuggestion == old(aiSuggestion)
      ensures old(aiSuggestion).Some? && old(aiSuggestion).value.suggestedType.None? ==>
        formData == old(formData) && aiSuggestion == old(aiSuggestion)
      ensures old(aiSuggestion).Some? && old(aiSuggestion).value.suggestedType.Some? ==>
        && formData == old(formData).(incidentType := MatchType(old(aiSuggestion).value.suggestedType.value))
        && aiSuggestion == None
    {
      if aiSuggestion.Some? && aiSuggestion.value.suggestedType.Some? {
        var t := MatchType(aiSuggestion.value.suggestedType.value);
        formData := formData.(incidentType := t);
        aiSuggestion := None;
      }
    }
  }

  /** Accepting the suggestion drops its severity: the next submission
      inserts "Medium" whatever severity had been suggested. */
  method AcceptThenSubmit(form: IncidentForm, insert: Outcome) returns (row: IncidentInsert)
    requires form.aiSuggestion.Some? && form.aiSuggestion.value.suggestedType.Some?
    modifies form
    ensures row.severity == "Medium"
    ensures row.incident_type == MatchType(old(form.aiSuggestion).value.suggestedType.value)
  {
    form.ApplyAiSuggestion();
    var ok;
    row, ok := form.HandleSubmit(insert);
  }
}
