/** The shell around every signed-in screen (components/Layout.tsx): the
    navigation table filtered by role, and the header title. */
module Layout {
  import opened Types
  import opened Sequences

  /** One entry of `navItems`; its `label` is the caption; the icon is presentation and is not kept. */
  datatype NavItem = NavItem(id: string, caption: string, roles: seq<Role>)

  /** `navItems`, in table order. */
  const NavItems: seq<NavItem> := [
    NavItem("dashboard", "Dashboard", [Admin, Teacher, Guidance]),
    NavItem("reports", "Safety Log", [Admin, Teacher, Guidance]),
    NavItem("new-report", "New Report", [Admin, Teacher, Anonymous, Guidance]),
    NavItem("users", "Users", [Admin])
  ]

  /** One step of the filter: the entry itself when its role list holds the role. */
  function Keep(item: NavItem, role: Role): seq<NavItem> {
    if role in item.roles then [item] else []
  }

  /** `items.filter(item => item.roles.includes(role))`. */
  function VisibleAmong(items: seq<NavItem>, role: Role): seq<NavItem> {
    if items == [] then [] else Keep(items[0], role) + VisibleAmong(items[1..], role)
  }

  /** The filter keeps exactly the entries that list the role, in table order. */
  lemma {:induction false} VisibleAmongSpec(items: seq<NavItem>, role: Role)
    ensures forall it :: it in VisibleAmong(items, role) <==> it in items && role in it.roles
    ensures IsSubsequence(VisibleAmong(items, role), items)
  {
    if items != [] {
      VisibleAmongSpec(items[1..], role);
      assert items == [items[0]] + items[1..];
      var rest := VisibleAmong(items[1..], role);
      if role in items[0].roles {
        assert ([items[0]] + rest)[1..] == rest;
      } else {
        assert VisibleAmong(items, role) == rest;
      }
    }
  }

  /** The navigation buttons a role sees: exactly the table entries whose role
      list holds the role, in table order. */
  function VisibleNav(role: Role): seq<NavItem> {
    VisibleAmong(NavItems, role)
  }

  function Ids(items: seq<NavItem>): (ids: seq<string>)
    ensures |ids| == |items|
    ensures forall k :: 0 <= k < |items| ==> ids[k] == items[k].id
  {
    if items == [] then [] else [items[0].id] + Ids(items[1..])
  }

  /** The ids of the navigation buttons a role sees, in order. */
  function NavIds(role: Role): seq<string> {
    Ids(VisibleNav(role))
  }

  /** A four-entry table, one entry at a time. */
  lemma {:induction false} VisibleAmongFour(items: seq<NavItem>, role: Role)
    requires |items| == 4
    ensures VisibleAmong(items, role) ==
      Keep(items[0], role) + (Keep(items[1], role) + (Keep(items[2], role) + Keep(items[3], role)))
  {
    var t1, t2, t3 := items[1..], items[2..], items[3..];
    assert t1[1..] == t2 && t2[1..] == t3 && t3[1..] == [];
    assert t1[0] == items[1] && t2[0] == items[2] && t3[0] == items[3];
    assert VisibleAmong(t3[1..], role) == [];
    assert VisibleAmong(t3, role) == Keep(items[3], role) + [];
    assert Keep(items[3], role) + [] == Keep(items[3], role);
    assert VisibleAmong(t2, role) == Keep(items[2], role) + VisibleAmong(t3, role);
    assert VisibleAmong(t1, role) == Keep(items[1], role) + VisibleAmong(t2, role);
  }

  /** The full role table. */
  lemma {:induction false} NavByRole()
    ensures NavIds(Anonymous) == ["new-report"]
    ensures NavIds(Teacher) == ["dashboard", "reports", "new-report"]
    ensures NavIds(Guidance) == ["dashboard", "reports", "new-report"]
    ensures NavIds(Admin) == ["dashboard", "reports", "new-report", "users"]
  {
    AnonymousNav();
    StaffNav(Teacher);
    StaffNav(Guidance);
    AdminNav();
  }

  lemma {:induction false} AnonymousNav()
    ensures NavIds(Anonymous) == ["new-report"]
  {
    var items := NavItems;
    NavTable(items, Anonymous);
    assert Ids([items[2]]) == [Ids(items)[2]];
  }

  lemma {:induction false} StaffNav(role: Role)
    requires role == Teacher || role == Guidance
    ensures NavIds(role) == ["dashboard", "reports", "new-report"]
  {
    var items := NavItems;
    NavTable(items, role);
    IdsTake(items, 3);
  }

  lemma {:induction false} AdminNav()
    ensures NavIds(Admin) == ["dashboard", "reports", "new-report", "users"]
  {
    NavTable(NavItems, Admin);
  }

  /** The ids of a prefix are the prefix of the ids. */
  lemma IdsTake(items: seq<NavItem>, n: nat)
    requires n <= |items|
    ensures Ids(items[..n]) == Ids(items)[..n]
  {
  }

  /** The filtered navigation table for each role, and its ids. `items` is
      pinned to the table by the requires, because a literal argument is
      costlier for the verifier. */
  lemma {:induction false} NavTable(items: seq<NavItem>, role: Role)
    requires items == NavItems
    ensures role == Anonymous ==> VisibleAmong(items, role) == [items[2]]
    ensures role in {Teacher, Guidance} ==> VisibleAmong(items, role) == items[..3]
    ensures role == Admin ==> VisibleAmong(items, role) == items
    ensures Ids(items) == ["dashboard", "reports", "new-report", "users"]
  {
    KeepTable(items, role);
    FilterFour(items, role);
    TableIds(items);
  }

  /** The filter over a four-entry table whose first two entries are for
      staff, whose third is for everyone and whose last is for Admin. */
  lemma {:induction false} FilterFour(items: seq<NavItem>, role: Role)
    requires |items| == 4
    requires Keep(items[0], role) == (if role != Anonymous then [items[0]] else [])
    requires Keep(items[1], role) == (if role != Anonymous then [items[1]] else [])
    requires Keep(items[2], role) == [items[2]]
    requires Keep(items[3], role) == (if role == Admin then [items[3]] else [])
    ensures role == Anonymous ==> VisibleAmong(items, role) == [items[2]]
    ensures role in {Teacher, Guidance} ==> VisibleAmong(items, role) == items[..3]
    ensures role == Admin ==> VisibleAmong(items, role) == items
  {
    VisibleAmongFour(items, role);
    assert items[..3] == [items[0], items[1], items[2]];
  }

  /** Which entries of the navigation table each role keeps. `items` is
      pinned to the table by the requires, as in `NavTable`. */
  lemma KeepTable(items: seq<NavItem>, role: Role)
    requires items == NavItems
    ensures Keep(items[0], role) == (if role != Anonymous then [items[0]] else [])
    ensures Keep(items[1], role) == (if role != Anonymous then [items[1]] else [])
    ensures Keep(items[2], role) == [items[2]]
    ensures Keep(items[3], role) == (if role == Admin then [items[3]] else [])
  {
  }

  /** The ids of the navigation table, in order. `items` is pinned to the
      table by the requires, as in `NavTable`. */
  lemma TableIds(items: seq<NavItem>)
    requires items == NavItems
    ensures Ids(items) == ["dashboard", "reports", "new-report", "users"]
  {
    var ids := Ids(items);
    assert ids[0] == "dashboard" && ids[1] == "reports" && ids[2] == "new-report" && ids[3] == "users";
  }

  /** Every role, the anonymous one included, can open the report form. */
  lemma {:induction false} EveryRoleSeesNewReport(role: Role)
    ensures "new-report" in NavIds(role)
  {
    NavByRole();
    match role
    case Anonymous => assert NavIds(role)[0] == "new-report";
    case _ => assert NavIds(role)[2] == "new-report";
  }

  /** Every staff role is offered the dashboard and the reports list. */
  lemma {:induction false} StaffSeeDashboardAndReports(role: Role)
    requires role != Anonymous
    ensures "dashboard" in NavIds(role) && "reports" in NavIds(role)
  {
    NavByRole();
    assert NavIds(role)[0] == "dashboard";
    assert NavIds(role)[1] == "reports";
  }

  /** The user directory entry is offered to Admin and to nobody else. */
  lemma {:induction false} UsersAdminOnly(role: Role)
    ensures "users" in NavIds(role) <==> role == Admin
  {
    UsersNeedAdmin(role);
    if role == Admin {
      AdminSeesUsers(role);
    }
  }

  lemma {:induction false} UsersNeedAdmin(role: Role)
    ensures "users" in NavIds(role) ==> role == Admin
  {
    forall it | it in NavItems && it.id == "users"
      ensures it.roles == [Admin]
    {
      UsersEntry(it);
    }
    OnlyListedRolesSee(NavItems, role, "users", [Admin]);
  }

  /** In any table where every entry with a given id is offered to the same
      roles, that id is shown to no other role. */
  lemma {:induction false} OnlyListedRolesSee(items: seq<NavItem>, role: Role, id: string, roles: seq<Role>)
    requires forall it :: it in items && it.id == id ==> it.roles == roles
    ensures id in Ids(VisibleAmong(items, role)) ==> role in roles
  {
    var shown := VisibleAmong(items, role);
    var ids := Ids(shown);
    VisibleAmongSpec(items, role);
    if id in ids {
      var k :| 0 <= k < |ids| && ids[k] == id;
      assert shown[k] in shown;
    }
  }

  lemma {:induction false} AdminSeesUsers(role: Role)
    requires role == Admin
    ensures NavIds(role)[3] == "users"
  {
    NavTable(NavItems, role);
  }

  /** The only table entry with id "users" is the last one. */
  lemma UsersEntry(item: NavItem)
    requires item in NavItems && item.id == "users"
    ensures item == NavItems[3]
  {
  }

  /** The index of the first '-' in `s`, or `|s|` when there is none. */
  function FirstDash(s: string): (k: nat)
    ensures k <= |s|
    ensures '-' !in s[..k]
    ensures k < |s| ==> s[k] == '-'
  {
    if s == [] then 0
    else if s[0] == '-' then 0
    else
      var k := 1 + FirstDash(s[1..]);
      assert s[..k] == [s[0]] + s[1..][..k - 1];
      k
  }

  /** `currentView.replace('-', ' ')`: a string pattern replaces only its first
      occurrence, so exactly the first '-' becomes a space. */
  function HeaderTitle(view: string): (title: string)
    ensures |title| == |view|
    ensures '-' !in view ==> title == view
    ensures var k := FirstDash(view);
      k < |view| ==> title == view[..k] + " " + view[k + 1..]
  {
    if view == [] then []
    else if view[0] == '-' then " " + view[1..]
    else
      var rest := HeaderTitle(view[1..]);
      var k := FirstDash(view[1..]);
      assert k < |view[1..]| ==>
        [view[0]] + (view[1..][..k] + " " + view[1..][k + 1..]) == view[..k + 1] + " " + view[k + 2..];
      [view[0]] + rest
  }

  lemma HeaderTitleExamples()
    ensures HeaderTitle("new-report") == "new report"
    ensures HeaderTitle("dashboard") == "dashboard"
  {
    NewReportTitle("new-report");
    NoDashTitle("dashboard");
  }

  /** "dashboard" keeps its title. The view is a parameter pinned by the
      requires because a literal argument is costlier for the verifier. */
  lemma NoDashTitle(v: string)
    requires v == "dashboard"
    ensures HeaderTitle(v) == v
  {
    assert forall k :: 0 <= k < |v| ==> v[k] != '-';
  }

  /** When the first '-' is at `k`, the title is the view with that one
      character replaced by a space. */
  lemma {:induction false} TitleAt(v: string, k: nat)
    requires k < |v| && v[k] == '-' && '-' !in v[..k]
    ensures HeaderTitle(v) == v[..k] + " " + v[k + 1..]
  {
    assert FirstDash(v) == k;
  }

  /** "new-report" is titled "new report". The view is described by its
      pieces rather than passed as a literal, which keeps the proof cheap. */
  lemma NewReportTitle(v: string)
    requires |v| == 10 && v[..3] == "new" && v[3] == '-' && v[4..] == "report"
    ensures HeaderTitle(v) == "new report"
  {
    TitleAt(v, 3);
  }
}
