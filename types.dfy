/** The closed enumerations and record shapes of the application (types.ts). */
module Types {
  import opened Wrappers

  /** Who is using the session. Chosen on the login screen. */
  datatype Role = Anonymous | Admin | Teacher | Guidance

  const Roles: seq<Role> := [Anonymous, Admin, Teacher, Guidance]

  /** The incident categories. Their declaration order is significant:
      `Object.values(IncidentType)` lists them in this order. */
  datatype IncidentType =
    | Bullying
    | LanguageMisuse
    | DigitalMisuse
    | AcademicDishonesty
    | Vandalism
    | MedicalEmergency
    | BehavioralIssue
    | Other

  /** `Object.values(IncidentType)`: every category, in declaration order. */
  const IncidentTypes: seq<IncidentType> :=
    [Bullying, LanguageMisuse, DigitalMisuse, AcademicDishonesty,
     Vandalism, MedicalEmergency, BehavioralIssue, Other]

  /** The string value of each category, as stored and as shown. */
  function TypeLabel(t: IncidentType): string {
    match t
    case Bullying => "Bullying"
    case LanguageMisuse => "Language Misuse"
    case DigitalMisuse => "Digital Misuse"
    case AcademicDishonesty => "Academic Dishonesty"
    case Vandalism => "Vandalism"
    case MedicalEmergency => "Medical/Emergency"
    case BehavioralIssue => "Behavioral Issue"
    case Other => "Other"
  }

  /** The position of a category in declaration order. */
  function TypeIndex(t: IncidentType): (k: nat)
    ensures k < |IncidentTypes| && IncidentTypes[k] == t
    ensures t == Other <==> k == |IncidentTypes| - 1
  {
    match t
    case Bullying => 0
    case LanguageMisuse => 1
    case DigitalMisuse => 2
    case AcademicDishonesty => 3
    case Vandalism => 4
    case MedicalEmergency => 5
    case BehavioralIssue => 6
    case Other => 7
  }

  /** The category list has eight distinct entries, holds every category,
      and ends with Other. */
  lemma IncidentTypesOrdered()
    ensures |IncidentTypes| == 8 && IncidentTypes[7] == Other
    ensures forall t :: t in IncidentTypes
    ensures forall i, j :: 0 <= i < j < |IncidentTypes| ==> IncidentTypes[i] != IncidentTypes[j]
    ensures forall k :: 0 <= k < |IncidentTypes| ==> TypeIndex(IncidentTypes[k]) == k
  {
    forall t ensures t in IncidentTypes {
      assert IncidentTypes[TypeIndex(t)] == t;
    }
  }

  /** Distinct categories have distinct string values, so comparing the
      strings (as the list filter does) is comparing the categories. */
  lemma TypeLabelInjective(a: IncidentType, b: IncidentType)
    ensures TypeLabel(a) == TypeLabel(b) <==> a == b
  {
    if a != b {
      assert TypeLabel(a)[..1] != TypeLabel(b)[..1] || TypeLabel(a)[1..2] != TypeLabel(b)[1..2]
        || |TypeLabel(a)| != |TypeLabel(b)|;
    }
  }

  /** The case statuses: a closed set of seven string literals. */
  datatype Status = New | UnderReview | UnderCounseling | ActionTaken | Resolved | Seen | Forwarded

  const Statuses: seq<Status> := [New, UnderReview, UnderCounseling, ActionTaken, Resolved, Seen, Forwarded]

  /** An incident's severity: exactly one of three literals. */
  datatype Severity = Low | Medium | High

  /** The string value of each severity. */
  function SeverityLabel(v: Severity): string {
    match v
    case Low => "Low"
    case Medium => "Medium"
    case High => "High"
  }

  /** The string values a `severity` of an Incident may take. */
  predicate IsSeverityLabel(s: string) {
    s == "Low" || s == "Medium" || s == "High"
  }

  /** The four enumerations are closed: every value is listed, and the
      listings have the declared sizes. */
  lemma EnumerationsClosed()
    ensures |Roles| == 4 && forall r :: r in Roles
    ensures |Statuses| == 7 && forall s :: s in Statuses
    ensures Seen in Statuses && Forwarded in Statuses
    ensures forall v :: IsSeverityLabel(SeverityLabel(v))
    ensures forall s :: IsSeverityLabel(s) ==> exists v :: SeverityLabel(v) == s
  {
    forall r ensures r in Roles {
      match r
      case Anonymous => assert Roles[0] == r;
      case Admin => assert Roles[1] == r;
      case Teacher => assert Roles[2] == r;
      case Guidance => assert Roles[3] == r;
    }
    forall s: Status ensures s in Statuses {
      match s
      case New => assert Statuses[0] == s;
      case UnderReview => assert Statuses[1] == s;
      case UnderCounseling => assert Statuses[2] == s;
      case ActionTaken => assert Statuses[3] == s;
      case Resolved => assert Statuses[4] == s;
      case Seen => assert Statuses[5] == s;
      case Forwarded => assert Statuses[6] == s;
    }
    forall s | IsSeverityLabel(s) ensures exists v :: SeverityLabel(v) == s {
      if s == "Low" { assert SeverityLabel(Low) == s; }
      else if s == "Medium" { assert SeverityLabel(Medium) == s; }
      else { assert SeverityLabel(High) == s; }
    }
  }

  /** An incident as the list shows it. The three note fields are optional and
      independent of each other. `severity` is declared as one of the three
      severity labels, but the list copies whatever string the store holds
      (see `IsSeverityLabel`), so it is a string here. */
  datatype Incident = Incident(
    id: string,
    studentName: string,
    gradeSection: string,
    incidentType: IncidentType,
    description: string,
    date: string,
    status: Status,
    reportedBy: Role,
    severity: string,
    adminNotes: Option<string>,
    teacherRemarks: Option<string>,
    guidanceNotes: Option<string>)

  /** A staff profile in the user directory. */
  datatype User = User(id: string, name: string, role: Role, active: bool)
}
