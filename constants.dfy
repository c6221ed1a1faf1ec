/** The sample data (constants.tsx): the incident list shown when the store
    cannot be read, and the initial user directory. */
module Constants {
  import opened Wrappers
  import opened Types

  function SampleIncident(id: string, name: string, grade: string, t: IncidentType,
                          description: string, date: string, status: Status,
                          reportedBy: Role, severity: Severity): Incident
  {
    Incident(id, name, grade, t, description, date, status, reportedBy, SeverityLabel(severity), None, None, None)
  }

  /** MOCK_INCIDENTS, in the order written. */
  const MockIncidents: seq<Incident> := [
    SampleIncident("1", "Juan dela Cruz", "Grade 10 - A", Bullying,
      "Physical confrontation in the hallway after lunch.", "2025-02-10", New, Anonymous, High),
    SampleIncident("2", "Mary Anne Valdez", "Grade 8 - C", AcademicDishonesty,
      "Caught using unauthorized materials during Mathematics test.", "2025-02-11", UnderReview, Teacher, Medium),
    SampleIncident("3", "Pedro Penduko", "Grade 10 - A", LanguageMisuse,
      "Repeated use of inappropriate language in the cafeteria.", "2025-02-12", UnderCounseling, Teacher, Low),
    SampleIncident("4", "Maria Clara Santos", "Grade 12 - B", DigitalMisuse,
      "Cyberbullying incident reported via school forum.", "2025-02-13", Forwarded, Anonymous, High)
  ]

  /** MOCK_USERS, in the order written. */
  const MockUsers: seq<User> := [
    User("u1", "Admin User", Admin, true),
    User("u2", "Mrs. Gatmaitan", Teacher, true),
    User("u3", "Dr. Dimagiba", Guidance, true)
  ]
}
