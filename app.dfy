/** The application shell (App.tsx): who is signed in, which view is current,
    and which screen that pair renders. */
module App {
  import opened Wrappers
  import opened Types
  import opened Layout

  /** The screens the shell can render. */
  datatype Screen = LoginScreen | DashboardScreen | ReportsScreen | UsersScreen | NewReportScreen

  /** `renderContent`: the view id picks the screen; an unknown id falls back to
      the dashboard. The user directory is dispatched without a role check. */
  function Dispatch(view: string): (s: Screen)
    ensures s != LoginScreen
    ensures s == ReportsScreen <==> view == "reports"
    ensures s == UsersScreen <==> view == "users"
    ensures s == NewReportScreen <==> view == "new-report"
    ensures s == DashboardScreen <==> view !in ["reports", "users", "new-report"]
  {
    if view == "dashboard" then DashboardScreen
    else if view == "reports" then ReportsScreen
    else if view == "users" then UsersScreen
    else if view == "new-report" then NewReportScreen
    else DashboardScreen
  }

  /** What the shell shows: the login screen while nobody is signed in. */
  function Rendered(userRole: Option<Role>, view: string): (s: Screen)
    ensures s == LoginScreen <==> userRole.None?
    ensures userRole.Some? ==> s == Dispatch(view)
  {
    if userRole.None? then LoginScreen else Dispatch(view)
  }

  /** The view opened on login: the report form for Anonymous, the dashboard otherwise. */
  function StartView(role: Role): (v: string)
    ensures v in NavIds(role)
    ensures role == Anonymous ==> Dispatch(v) == NewReportScreen
    ensures role != Anonymous ==> Dispatch(v) == DashboardScreen
  {
    if role == Anonymous then
      EveryRoleSeesNewReport(role);
      "new-report"
    else
      StaffSeeDashboardAndReports(role);
      "dashboard"
  }

  /** The view after a successful submission: staff go to the reports list,
      an anonymous reporter stays on the form. */
  function ViewAfterSubmit(role: Role, view: string): (v: string)
    ensures role == Anonymous ==> v == view
    ensures role != Anonymous ==> v in NavIds(role) && Dispatch(v) == ReportsScreen
  {
    if role == Anonymous then view
    else
      StaffSeeDashboardAndReports(role);
      "reports"
  }

  /** A signed-in user whose current view is one the navigation offers them
      reaches the user directory only as Admin. */
  lemma {:induction false} UsersScreenOnlyForAdmin(role: Role, view: string)
    requires view in NavIds(role)
    ensures Rendered(Some(role), view) == UsersScreen ==> role == Admin
  {
    UsersAdminOnly(role);
  }

  /** An anonymous reporter kept to the views offered to them only ever sees the report form. */
  lemma {:induction false} AnonymousOnlyReports(view: string)
    requires view in NavIds(Anonymous)
    ensures Rendered(Some(Anonymous), view) == NewReportScreen
  {
    NavByRole();
  }

  /** The shell's state. */
  class App {
    var userRole: Option<Role>
    var currentView: string

    /** While someone is signed in, the current view is one the navigation offers them. */
    ghost predicate Valid()
      reads this
    {
      userRole.Some? ==> currentView in NavIds(userRole.value)
    }

    constructor ()
      ensures userRole == None && currentView == "dashboard"
      ensures Valid()
    {
      userRole := None;
      currentView := "dashboard";
    }

    /** The screen shown: the login screen exactly when nobody is signed in,
        and the user directory only ever for Admin. */
    function Render(): (s: Screen)
      reads this
      ensures s == LoginScreen <==> userRole.None?
      ensures userRole.Some? ==> s == Dispatch(currentView)
      ensures Valid() && s == UsersScreen ==> userRole == Some(Admin)
    {
      assert Valid() && Rendered(userRole, currentView) == UsersScreen ==> userRole == Some(Admin) by {
        if Valid() && userRole.Some? {
          UsersScreenOnlyForAdmin(userRole.value, currentView);
        }
      }
      Rendered(userRole, currentView)
    }

    /** `handleLogin`. */
    method HandleLogin(role: Role)
      modifies this
      ensures userRole == Some(role) && currentView == StartView(role)
      ensures Valid()
    {
      userRole := Some(role);
      if role == Anonymous {
        currentView := "new-report";
      } else {
        currentView := "dashboard";
      }
    }

    /** `handleLogout`: clears the role and nothing else. */
    method HandleLogout()
      modifies this
      ensures userRole == None && currentView == old(currentView)
      ensures Valid()
      ensures Render() == LoginScreen
    {
      userRole := None;
    }

    /** Clicking the k-th entry the sidebar shows. */
    method Navigate(k: nat)
      requires userRole.Some? && k < |VisibleNav(userRole.value)|
      modifies this
      ensures userRole == old(userRole) && currentView == VisibleNav(userRole.value)[k].id
      ensures Valid()
    {
      currentView := VisibleNav(userRole.value)[k].id;
      assert currentView == NavIds(userRole.value)[k];
    }

    /** The form's `onSuccess` callback. */
    method OnSubmitSuccess()
      requires userRole.Some?
      requires Valid()
      modifies this
      ensures userRole == old(userRole) && currentView == ViewAfterSubmit(userRole.value, old(currentView))
      ensures Valid()
    {
      if userRole.value != Anonymous {
        currentView := ViewAfterSubmit(userRole.value, currentView);
      }
    }
  }
}
