/** The safety log (components/IncidentList.tsx): loading the incidents from
    the store with a sample fallback, the search/type/role filter, status
    updates, and the per-role status actions of the detail view. */
module IncidentList {
  import opened Wrappers
  import opened Text
  import opened Types
  import opened Sequences
  import Constants

  /** A row of the `incidents` collection as the store returns it, with the
      store's snake_case column names. The severity column holds whatever
      string was inserted, which need not be a severity label. */
  datatype IncidentRow = IncidentRow(
    id: string,
    student_name: string,
    grade_section: string,
    incident_type: IncidentType,
    description: string,
    date: string,
    status: Status,
    reported_by: Role,
    severity: string,
    admin_notes: Option<string>,
    teacher_remarks: Option<string>,
    guidance_notes: Option<string>)

  /** The object literal built for each row: nine columns are renamed to
      camelCase, the three note columns are not read. */
  function FromRow(row: IncidentRow): Incident {
    Incident(row.id, row.student_name, row.grade_section, row.incident_type, row.description,
             row.date, row.status, row.reported_by, row.severity, None, None, None)
  }

  /** `data.map(...)`: one incident per row, in store order. */
  function FromRows(rows: seq<IncidentRow>): (incs: seq<Incident>)
    ensures |incs| == |rows|
    ensures forall k :: 0 <= k < |rows| ==> incs[k] == FromRow(rows[k])
  {
    if rows == [] then [] else [FromRow(rows[0])] + FromRows(rows[1..])
  }

  /** What `fetchIncidents` stores in `incidents`. A failed read and a read
      that returns no rows both fall back to the sample incidents; a null
      `data` is read as no rows (`data || []`), so it is `Ok([])` here. */
  function Loaded(fetch: Result<seq<IncidentRow>>): (incs: seq<Incident>)
    ensures |incs| > 0
    ensures fetch.Err? ==> incs == Constants.MockIncidents
    ensures fetch.Ok? && fetch.value == [] ==> incs == Constants.MockIncidents
    ensures fetch.Ok? && fetch.value != [] ==>
      |incs| == |fetch.value| && forall k :: 0 <= k < |incs| ==> incs[k] == FromRow(fetch.value[k])
    ensures forall k :: 0 <= k < |incs| ==>
      incs[k].adminNotes.None? && incs[k].teacherRemarks.None? && incs[k].guidanceNotes.None?
  {
    match fetch
    case Err => Constants.MockIncidents
    case Ok(rows) =>
      var formatted := FromRows(rows);
      if |formatted| > 0 then formatted else Constants.MockIncidents
  }

  /** Translating a fetched row keeps every column the list reads, under its
      camelCase name, and drops the notes. */
  lemma {:induction false} LoadedTranslatesRows(rows: seq<IncidentRow>, k: nat)
    requires k < |rows|
    ensures var i := Loaded(Ok(rows))[k];
      && i.id == rows[k].id && i.studentName == rows[k].student_name
      && i.gradeSection == rows[k].grade_section && i.incidentType == rows[k].incident_type
      && i.description == rows[k].description && i.date == rows[k].date
      && i.status == rows[k].status && i.reportedBy == rows[k].reported_by
      && i.severity == rows[k].severity
      && i.adminNotes == i.teacherRemarks == i.guidanceNotes == None
  {
    assert rows != [];
  }

  /** The type drop-down: 'All' or one category (its options are exactly these). */
  datatype TypeFilter = AllTypes | OnlyType(incidentType: IncidentType)

  /** The only section a Teacher is shown. */
  const TeacherSection: string := "10 - A"

  /** Case-insensitive substring match against the student's name or the description. */
  predicate MatchesSearch(i: Incident, search: string) {
    Includes(Lower(i.studentName), Lower(search)) || Includes(Lower(i.description), Lower(search))
  }

  /** The category test: every incident under "All", otherwise only the chosen category. */
  predicate MatchesType(i: Incident, filter: TypeFilter) {
    filter.AllTypes? || i.incidentType == filter.incidentType
  }

  /** The body of the `filteredIncidents` callback. */
  predicate Shown(i: Incident, search: string, filter: TypeFilter, role: Role) {
    if role == Teacher then MatchesSearch(i, search) && MatchesType(i, filter) && Includes(i.gradeSection, TeacherSection)
    else MatchesSearch(i, search) && MatchesType(i, filter)
  }

  /** `incidents.filter(...)`. */
  function Filtered(incs: seq<Incident>, search: string, filter: TypeFilter, role: Role): (r: seq<Incident>)
    ensures |r| <= |incs|
    ensures forall k :: 0 <= k < |r| ==> Shown(r[k], search, filter, role)
  {
    if incs == [] then []
    else if Shown(incs[0], search, filter, role) then [incs[0]] + Filtered(incs[1..], search, filter, role)
    else Filtered(incs[1..], search, filter, role)
  }

  /** The list shows exactly the incidents the predicate accepts, as an
      order-preserving subsequence of `incidents`. */
  lemma {:induction false} FilteredSpec(incs: seq<Incident>, search: string, filter: TypeFilter, role: Role)
    ensures forall x :: x in Filtered(incs, search, filter, role) <==> x in incs && Shown(x, search, filter, role)
    ensures IsSubsequence(Filtered(incs, search, filter, role), incs)
  {
    if incs != [] {
      FilteredSpec(incs[1..], search, filter, role);
      assert incs == [incs[0]] + incs[1..];
      var rest := Filtered(incs[1..], search, filter, role);
      if Shown(incs[0], search, filter, role) {
        assert ([incs[0]] + rest)[1..] == rest;
      }
    }
  }

  /** For everyone but a Teacher, an empty search with 'All' types shows every incident. */
  lemma {:induction false} UnfilteredShowsAll(incs: seq<Incident>, role: Role)
    requires role != Teacher
    ensures Filtered(incs, "", AllTypes, role) == incs
  {
    if incs != [] {
      IncludesEmpty(Lower(incs[0].studentName));
      UnfilteredShowsAll(incs[1..], role);
      assert incs == [incs[0]] + incs[1..];
    }
  }

  /** Every incident a Teacher is shown belongs to section "10 - A". */
  lemma TeacherSeesOwnSection(incs: seq<Incident>, search: string, filter: TypeFilter)
    ensures forall k :: 0 <= k < |Filtered(incs, search, filter, Teacher)| ==>
      Includes(Filtered(incs, search, filter, Teacher)[k].gradeSection, TeacherSection)
  {
  }

  /** The search ignores case: two searches that lower-case alike show the same list. */
  lemma {:induction false} SearchIgnoresCase(incs: seq<Incident>, s1: string, s2: string, filter: TypeFilter, role: Role)
    requires Lower(s1) == Lower(s2)
    ensures Filtered(incs, s1, filter, role) == Filtered(incs, s2, filter, role)
  {
    if incs != [] {
      SearchIgnoresCase(incs[1..], s1, s2, filter, role);
    }
  }

  /** `prev.map(inc => inc.id === id ? { ...inc, status: newStatus } : inc)`. */
  function WithStatus(incs: seq<Incident>, id: string, newStatus: Status): (r: seq<Incident>)
    ensures |r| == |incs|
    ensures forall k :: 0 <= k < |incs| && incs[k].id == id ==> r[k] == incs[k].(status := newStatus)
    ensures forall k :: 0 <= k < |incs| && incs[k].id != id ==> r[k] == incs[k]
  {
    if incs == [] then []
    else
      var head := if incs[0].id == id then incs[0].(status := newStatus) else incs[0];
      [head] + WithStatus(incs[1..], id, newStatus)
  }

  /** Setting the same status twice is setting it once. */
  lemma WithStatusIdempotent(incs: seq<Incident>, id: string, s: Status)
    ensures WithStatus(WithStatus(incs, id, s), id, s) == WithStatus(incs, id, s)
  {
  }

  /** A later status update of the same record overrides an earlier one. */
  lemma WithStatusLastWins(incs: seq<Incident>, id: string, s1: Status, s2: Status)
    ensures WithStatus(WithStatus(incs, id, s1), id, s2) == WithStatus(incs, id, s2)
  {
  }

  /** Updating an id that no record has changes nothing. */
  lemma WithStatusAbsent(incs: seq<Incident>, id: string, s: Status)
    requires forall k :: 0 <= k < |incs| ==> incs[k].id != id
    ensures WithStatus(incs, id, s) == incs
  {
  }

  /** Only the status field ever changes: the ids, order and every other field
      of every record are kept. */
  lemma WithStatusOnlyStatus(incs: seq<Incident>, id: string, s: Status)
    ensures forall k :: 0 <= k < |incs| ==>
      WithStatus(incs, id, s)[k].(status := incs[k].status) == incs[k]
  {
  }

  /** `setSelectedIncident(...)` after a successful update: the open record is
      updated only when its id is the one updated. */
  function SelectedAfter(selected: Option<Incident>, id: string, newStatus: Status): (r: Option<Incident>)
    ensures r.Some? <==> selected.Some?
    ensures r.Some? ==> r.value.(status := selected.value.status) == selected.value
    ensures r.Some? && selected.value.id == id ==> r.value.status == newStatus
    ensures r.Some? && selected.value.id != id ==> r == selected
  {
    if selected.Some? && selected.value.id == id then Some(selected.value.(status := newStatus)) else selected
  }
  /** An open record that is a row of the list stays that row after the update:
      the detail view and the list agree. */
  lemma SelectedAfterMatchesList(incs: seq<Incident>, selected: Option<Incident>, k: nat, id: string, newStatus: Status)
    requires k < |incs| && selected == Some(incs[k])
    ensures SelectedAfter(selected, id, newStatus) == Some(WithStatus(incs, id, newStatus)[k])
  {
  }


  /** The status buttons of the detail view: "Mark Resolved" for Admin,
      "Intervene" for Guidance, none for anyone else. */
  function StatusActions(role: Role): (actions: seq<Status>)
    ensures |actions| <= 1
    ensures forall k :: 0 <= k < |actions| ==>
      (actions[k] == Resolved && role == Admin) || (actions[k] == UnderCounseling && role == Guidance)
  {
    match role
    case Admin => [Resolved]
    case Guidance => [UnderCounseling]
    case Teacher => []
    case Anonymous => []
  }

  /** Only Admin may resolve, only Guidance may move a case to counseling, and
      no role is offered any other status. */
  lemma StatusActionsByRole(role: Role, s: Status)
    ensures s in StatusActions(role) <==>
      (role == Admin && s == Resolved) || (role == Guidance && s == UnderCounseling)
    ensures role in {Teacher, Anonymous} ==> StatusActions(role) == []
  {
  }

  /** The badge colour of a status. */
  function StatusColor(s: Status): (c: string)
    ensures c == "bg-slate-500" <==> s == Seen || s == Forwarded
  {
    match s
    case Resolved => "bg-emerald-500"
    case UnderCounseling => "bg-indigo-500"
    case ActionTaken => "bg-cyan-500"
    case UnderReview => "bg-amber-500"
    case New => "bg-rose-500"
    case _ => "bg-slate-500"
  }

  /** Seen and Forwarded have no case of their own and share the default
      colour; every other status has its own colour. */
  lemma StatusColorDefault(s: Status, t: Status)
    ensures StatusColor(s) == "bg-slate-500" <==> s == Seen || s == Forwarded
    ensures StatusColor(s) == StatusColor(t) && s != t ==> s in {Seen, Forwarded} && t in {Seen, Forwarded}
  {
  }

  /** The component's state. `role` is its prop. */
  class IncidentList {
    const role: Role
    var search: string
    var filterType: TypeFilter
    var incidents: seq<Incident>
    var loading: bool
    var selected: Option<Incident>

    constructor (role: Role)
      ensures this.role == role
      ensures search == "" && filterType == AllTypes
      ensures incidents == [] && loading && selected == None
    {
      this.role := role;
      search := "";
      filterType := AllTypes;
      incidents := [];
      loading := true;
      selected := None;
    }

    /** `filteredIncidents`: the rows the table shows. */
    function Visible(): seq<Incident>
      reads this
    {
      Filtered(incidents, search, filterType, role)
    }

    /** `fetchIncidents`, given the outcome of the store read. */
    method FetchIncidents(fetch: Result<seq<IncidentRow>>)
      modifies this
      ensures incidents == Loaded(fetch) && !loading
      ensures search == old(search) && filterType == old(filterType) && selected == old(selected)
    {
      loading := true;
      match fetch {
        case Err =>
          incidents := Constants.MockIncidents;
        case Ok(rows) =>
          var formatted := FromRows(rows);
          incidents := if |formatted| > 0 then formatted else Constants.MockIncidents;
      }
      loading := false;
    }

    /** `updateStatus(id, newStatus)`, given the outcome of the store write.
        Nothing is committed locally unless the write succeeded. */
    method UpdateStatus(id: string, newStatus: Status, write: Outcome)
      modifies this
      ensures write.Fail? ==> incidents == old(incidents) && selected == old(selected)
      ensures write.Pass? ==> incidents == WithStatus(old(incidents), id, newStatus)
      ensures write.Pass? ==> selected == SelectedAfter(old(selected), id, newStatus)
      ensures search == old(search) && filterType == old(filterType) && loading == old(loading)
    {
      if write.Pass? {
        incidents := WithStatus(incidents, id, newStatus);
        if selected.Some? && selected.value.id == id {
          selected := Some(selected.value.(status := newStatus));
        }
      }
    }

    method SetSearch(q: string)
      modifies this
      ensures search == q
      ensures filterType == old(filterType) && incidents == old(incidents)
      ensures loading == old(loading) && selected == old(selected)
    {
      search := q;
    }

    method SetFilterType(f: TypeFilter)
      modifies this
      ensures filterType == f
      ensures search == old(search) && incidents == old(incidents)
      ensures loading == old(loading) && selected == old(selected)
    {
      filterType := f;
    }

    /** A click on a table row opens that incident. */
    method OpenDetail(k: nat)
      requires k < |Visible()|
      modifies this
      ensures selected == Some(old(Visible())[k])
      ensures search == old(search) && filterType == old(filterType)
      ensures incidents == old(incidents) && loading == old(loading)
    {
      selected := Some(Visible()[k]);
    }

    /** The close button of the detail view. */
    method CloseDetail()
      modifies this
      ensures selected == None
      ensures search == old(search) && filterType == old(filterType)
      ensures incidents == old(incidents) && loading == old(loading)
    {
      selected := None;
    }

    /** A status button of the open detail view: only the role's own actions
        exist, and they update the open incident. */
    method ChooseStatusAction(k: nat, write: Outcome)
      requires selected.Some? && k < |StatusActions(role)|
      modifies this
      ensures var s := StatusActions(role)[k];
        && (write.Pass? ==> incidents == WithStatus(old(incidents), old(selected).value.id, s))
        && (write.Pass? ==> selected == Some(old(selected).value.(status := s)))
        && (write.Fail? ==> incidents == old(incidents) && selected == old(selected))
      ensures search == old(search) && filterType == old(filterType) && loading == old(loading)
    {
      UpdateStatus(selected.value.id, StatusActions(role)[k], write);
    }
  }
}
