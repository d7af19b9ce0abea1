/** The sidebar menus of the two dashboards: a constant table of links, each
    listing the roles that may see it, filtered by the role held in the
    store, and the test that highlights the link of the current page. */
module Navigation {
  import opened Common

  datatype NavItem = NavItem(name: string, href: string, roles: seq<string>)

  /** A role is truthy unless absent or empty. */
  predicate Truthy(role: Option<string>) {
    role.Some? && role.value != ""
  }

  /** The items of `table` whose roles include `role`, in table order. */
  function ByRole(table: seq<NavItem>, role: string): (r: seq<NavItem>)
    ensures |r| <= |table|
  {
    if table == [] then []
    else ByRole(table[..|table| - 1], role)
         + (if role in table[|table| - 1].roles then [table[|table| - 1]] else [])
  }

  /** An item is shown exactly when it is in the table and lists the role. */
  lemma {:induction false} ByRoleMembers(table: seq<NavItem>, role: string)
    ensures forall it :: it in ByRole(table, role) <==> it in table && role in it.roles
  {
    if table != [] {
      ByRoleMembers(table[..|table| - 1], role);
      assert table == table[..|table| - 1] + [table[|table| - 1]];
    }
  }

  /** The filter keeps the table's order: filtering a concatenation is the
      concatenation of the filtered parts. */
  lemma {:induction false} ByRoleAppend(a: seq<NavItem>, b: seq<NavItem>, role: string)
    ensures ByRole(a + b, role) == ByRole(a, role) + ByRole(b, role)
  {
    if b != [] {
      var b' := b[..|b| - 1];
      assert (a + b)[..|a + b| - 1] == a + b';
      assert (a + b)[|a + b| - 1] == b[|b| - 1];
      ByRoleAppend(a, b', role);
    } else {
      assert a + b == a;
    }
  }

  /** An item every one of whose roles is admitted by a table is kept whole. */
  lemma {:induction false} ByRoleAll(table: seq<NavItem>, role: string)
    requires forall i :: 0 <= i < |table| ==> role in table[i].roles
    ensures ByRole(table, role) == table
  {
    if table != [] {
      var init := table[..|table| - 1];
      assert forall i :: 0 <= i < |init| ==> init[i] == table[i];
      ByRoleAll(init, role);
      assert table == init + [table[|table| - 1]];
    }
  }

  /** A role no item lists sees nothing. */
  lemma {:induction false} ByRoleNone(table: seq<NavItem>, role: string)
    requires forall i :: 0 <= i < |table| ==> role !in table[i].roles
    ensures ByRole(table, role) == []
  {
    if table != [] {
      ByRoleNone(table[..|table| - 1], role);
    }
  }

  /** `role ? navigation.filter(item => item.roles.includes(role)) : []`. */
  function Menu(table: seq<NavItem>, role: Option<string>): (r: seq<NavItem>)
    ensures !Truthy(role) ==> r == []
    ensures Truthy(role) ==> r == ByRole(table, role.value)
  {
    if Truthy(role) then ByRole(table, role.value) else []
  }

  /** `location.pathname === path`. */
  predicate IsCurrentPath(pathname: string, href: string) {
    pathname == href
  }

  /** The highlighted items of a menu. */
  function Active(menu: seq<NavItem>, pathname: string): (r: seq<NavItem>)
    ensures forall it :: it in r <==> it in menu && IsCurrentPath(pathname, it.href)
  {
    if menu == [] then []
    else Active(menu[..|menu| - 1], pathname)
         + (if IsCurrentPath(pathname, menu[|menu| - 1].href) then [menu[|menu| - 1]] else [])
  }

  ghost predicate DistinctHrefs(table: seq<NavItem>) {
    forall i, j :: 0 <= i < j < |table| ==> table[i].href != table[j].href
  }

  /** A menu none of whose links is the current page highlights nothing. */
  lemma {:induction false} NoneActive(menu: seq<NavItem>, pathname: string)
    requires forall i :: 0 <= i < |menu| ==> menu[i].href != pathname
    ensures Active(menu, pathname) == []
  {
    if menu != [] {
      NoneActive(menu[..|menu| - 1], pathname);
    }
  }

  /** With distinct links, at most one item is highlighted. */
  lemma {:induction false} AtMostOneActive(menu: seq<NavItem>, pathname: string)
    requires DistinctHrefs(menu)
    ensures |Active(menu, pathname)| <= 1
  {
    if menu != [] {
      var init := menu[..|menu| - 1];
      AtMostOneActive(init, pathname);
      if IsCurrentPath(pathname, menu[|menu| - 1].href) {
        forall i | 0 <= i < |init|
          ensures init[i].href != pathname
        {
          assert menu[i].href != menu[|menu| - 1].href;
        }
        NoneActive(init, pathname);
      }
    }
  }

  // ----- the two tables -----

  const Teacher := "teacher"
  const Admin := "admin"
  const Student := "student"
  const Guest := "guest"

  const UserDashboardTable: seq<NavItem> := [
    NavItem("Dashboard", "/dashboard", [Teacher, Admin, Student]),
    NavItem("Create New Post", "/dashboard/create-post", [Teacher, Admin]),
    NavItem("My Posts", "/dashboard/posts", [Teacher, Admin]),
    NavItem("My Followers", "/dashboard/my-followers", [Teacher, Admin]),
    NavItem("My Followings", "/dashboard/my-followings", [Teacher, Admin, Student]),
    NavItem("Add Category", "/dashboard/add-category", [Admin]),
    NavItem("Users", "/dashboard/users", [Admin])
  ]

  const StudentDashboardTable: seq<NavItem> := [
    NavItem("Dashboard", "/student-dashboard", [Student]),
    NavItem("Profile Settings", "/student-dashboard/profile-settings", [Student]),
    NavItem("Smart Daily Planner", "/student-dashboard/daily-planner", [Student]),
    NavItem("Smart Quiz", "/student-dashboard/quiz", [Student]),
    NavItem("AI Assistant", "/student-dashboard/ai-assistant", [Student]),
    NavItem("Smart FlashCards", "/student-dashboard/flashcards", [Student]),
    NavItem("Learning Resources", "/posts", [Student]),
    NavItem("My Followings", "/student-dashboard/my-followings", [Student])
  ]

  /** The staff dashboard for an admin: all seven links. */
  lemma AdminMenu()
    ensures Menu(UserDashboardTable, Some(Admin)) == UserDashboardTable
  {
    ByRoleAll(UserDashboardTable, Admin);
  }

  /** The staff dashboard for a teacher: all but "Add Category" and
      "Users". */
  lemma TeacherMenu()
    ensures Menu(UserDashboardTable, Some(Teacher)) == UserDashboardTable[..5]
  {
    var t := UserDashboardTable;
    assert t[..5] + t[5..] == t;
    ByRoleAppend(t[..5], t[5..], Teacher);
    ByRoleAll(t[..5], Teacher);
    ByRoleNone(t[5..], Teacher);
  }

  /** The staff dashboard for a student: "Dashboard" and "My Followings". */
  lemma StudentStaffMenu()
    ensures Menu(UserDashboardTable, Some(Student)) == [UserDashboardTable[0], UserDashboardTable[4]]
  {
    var t := UserDashboardTable;
    StudentStaffFirstFive();
    ByRoleStep(t, 5, Student);
    ByRoleStep(t, 6, Student);
    assert t[..7] == t;
  }

  /** The student's links among the first four rows of the staff table. */
  lemma StudentStaffFirstFour()
    ensures ByRole(UserDashboardTable[..4], Student) == [UserDashboardTable[0]]
  {
    var t := UserDashboardTable;
    assert t[..0] == [];
    ByRoleStep(t, 0, Student);
    ByRoleStep(t, 1, Student);
    ByRoleStep(t, 2, Student);
    ByRoleStep(t, 3, Student);
  }

  /** The student's links among the first five rows of the staff table. */
  lemma StudentStaffFirstFive()
    ensures ByRole(UserDashboardTable[..5], Student) == [UserDashboardTable[0], UserDashboardTable[4]]
  {
    StudentStaffFirstFour();
    ByRoleStep(UserDashboardTable, 4, Student);
  }

  /** Filtering one more row of a table. */
  lemma ByRoleStep(table: seq<NavItem>, k: nat, role: string)
    requires k < |table|
    ensures ByRole(table[..k + 1], role)
            == ByRole(table[..k], role) + (if role in table[k].roles then [table[k]] else [])
  {
    assert table[..k + 1][..k] == table[..k];
  }

  /** The initial "guest" role appears in no item of either table. */
  lemma GuestMenus()
    ensures Menu(UserDashboardTable, Some(Guest)) == []
    ensures Menu(StudentDashboardTable, Some(Guest)) == []
  {
    ByRoleNone(UserDashboardTable, Guest);
    ByRoleNone(StudentDashboardTable, Guest);
  }

  /** The student dashboard: a student sees all eight links in table order;
      every other role, and no role, sees none. */
  lemma StudentDashboardMenus(role: Option<string>)
    ensures Menu(StudentDashboardTable, Some(Student)) == StudentDashboardTable
    ensures role != Some(Student) ==> Menu(StudentDashboardTable, role) == []
  {
    ByRoleAll(StudentDashboardTable, Student);
    if Truthy(role) && role.value != Student {
      ByRoleNone(StudentDashboardTable, role.value);
    }
  }

  /** Each table's links are distinct, so at most one link is highlighted in
      any menu drawn from it. */
  lemma OneActiveLink(role: Option<string>, pathname: string)
    ensures |Active(Menu(UserDashboardTable, role), pathname)| <= 1
    ensures |Active(Menu(StudentDashboardTable, role), pathname)| <= 1
  {
    assert DistinctHrefs(UserDashboardTable);
    assert DistinctHrefs(StudentDashboardTable);
    SubMenuDistinct(UserDashboardTable, role);
    SubMenuDistinct(StudentDashboardTable, role);
    AtMostOneActive(Menu(UserDashboardTable, role), pathname);
    AtMostOneActive(Menu(StudentDashboardTable, role), pathname);
  }

  lemma SubMenuDistinct(table: seq<NavItem>, role: Option<string>)
    requires DistinctHrefs(table)
    ensures DistinctHrefs(Menu(table, role))
  {
    if Truthy(role) {
      ByRoleDistinct(table, role.value);
    }
  }

  lemma {:induction false} ByRoleDistinct(table: seq<NavItem>, role: string)
    requires DistinctHrefs(table)
    ensures DistinctHrefs(ByRole(table, role))
  {
    if table != [] {
      var init := table[..|table| - 1];
      var last := table[|table| - 1];
      ByRoleDistinct(init, role);
      var r := ByRole(table, role);
      var ri := ByRole(init, role);
      ByRoleMembers(init, role);
      if role in last.roles {
        forall i | 0 <= i < |ri|
          ensures ri[i].href != last.href
        {
          assert ri[i] in ri;
          var k :| 0 <= k < |init| && init[k] == ri[i];
          assert table[k] == init[k];
        }
        assert r == ri + [last];
      }
    }
  }
}
