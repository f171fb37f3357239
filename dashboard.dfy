/** The rules of the static web dashboard, website/script.js: password strength
    scoring, the add-user and change-password checks, the test-account logins
    with the `localStorage` keys they write and the page they go to, and the
    section titles. The browser is a class holding `localStorage` and the
    current page. */
module Dashboard {
  import opened Wrappers
  import opened Text

  // ---------------------------------------------------------------------------
  // Password strength
  // ---------------------------------------------------------------------------

  predicate HasAsciiLower(s: string) {
    exists i :: 0 <= i < |s| && 'a' <= s[i] <= 'z'
  }

  predicate HasAsciiUpper(s: string) {
    exists i :: 0 <= i < |s| && 'A' <= s[i] <= 'Z'
  }

  predicate HasAsciiDigit(s: string) {
    exists i :: 0 <= i < |s| && IsDigit(s[i])
  }

  predicate IsAsciiAlphanumeric(c: char) {
    ('a' <= c <= 'z') || ('A' <= c <= 'Z') || IsDigit(c)
  }

  /** `/[^a-zA-Z0-9]/`: some character that is not an ASCII letter or digit. */
  predicate HasNonAlphanumeric(s: string) {
    exists i :: 0 <= i < |s| && !IsAsciiAlphanumeric(s[i])
  }

  /** The number of strength criteria `password` meets. */
  function StrengthScore(password: string): (n: nat)
    ensures n <= 4
  {
    (if Utf16Length(password) >= 8 then 1 else 0)
    + (if HasAsciiLower(password) && HasAsciiUpper(password) then 1 else 0)
    + (if HasAsciiDigit(password) then 1 else 0)
    + (if HasNonAlphanumeric(password) then 1 else 0)
  }

  /** The strength bar's extra class: strong for all four criteria, medium for
      two or three, weak for one, none for zero. */
  function StrengthClass(strength: nat): (c: Option<string>)
    ensures c.None? <==> strength == 0
    ensures c == Some("strong") <==> strength >= 4
    ensures c == Some("medium") <==> 2 <= strength < 4
    ensures c == Some("weak") <==> strength == 1
  {
    if strength >= 4 then Some("strong")
    else if strength >= 2 then Some("medium")
    else if strength >= 1 then Some("weak")
    else None
  }

  /** `checkPasswordStrength`: counts the criteria one by one and picks the
      class for the count. */
  method CheckPasswordStrength(password: string) returns (strength: nat, barClass: Option<string>)
    ensures strength == StrengthScore(password) && strength <= 4
    ensures barClass == StrengthClass(strength)
  {
    strength := 0;
    if Utf16Length(password) >= 8 {
      strength := strength + 1;
    }
    if HasAsciiLower(password) && HasAsciiUpper(password) {
      strength := strength + 1;
    }
    if HasAsciiDigit(password) {
      strength := strength + 1;
    }
    if HasNonAlphanumeric(password) {
      strength := strength + 1;
    }
    if strength >= 4 {
      barClass := Some("strong");
    } else if strength >= 2 {
      barClass := Some("medium");
    } else if strength >= 1 {
      barClass := Some("weak");
    } else {
      barClass := None;
    }
  }

  /** The empty password meets no criterion; a long mixed password with a digit
      and a symbol meets all four. */
  lemma StrengthExamples()
    ensures StrengthScore("") == 0
    ensures StrengthScore("Admin123!") == 4
  {
    var p := "Admin123!";
    assert 'a' <= p[3] <= 'z' && 'A' <= p[0] <= 'Z' && IsDigit(p[5]) && !IsAsciiAlphanumeric(p[8]);
  }

  // ---------------------------------------------------------------------------
  // Add user and change password
  // ---------------------------------------------------------------------------

  /** The add-user form's fields. */
  datatype NewUserForm = NewUserForm(
    role: string, firstName: string, lastName: string, email: string, badgeId: string,
    department: string, username: string, accessLevel: string)

  /** The record `handleAddUser` collects; `dateCreated` is the current time as
      an ISO string, given by the caller. */
  datatype NewUser = NewUser(form: NewUserForm, password: string, dateCreated: string)

  /** `handleAddUser`'s checks: matching entries first, then at least eight
      UTF-16 code units; nothing else about the password is required. */
  function AddUserVerdict(password: string, confirmPassword: string): (v: Verdict)
    ensures v.Accepted? <==> password == confirmPassword && Utf16Length(password) >= 8
    ensures password != confirmPassword ==> v == Rejected("Passwords do not match! Please re-enter your passwords.")
    ensures password == confirmPassword && Utf16Length(password) < 8 ==>
      v == Rejected("Password must be at least 8 characters long.")
  {
    if password != confirmPassword then Rejected("Passwords do not match! Please re-enter your passwords.")
    else if Utf16Length(password) < 8 then Rejected("Password must be at least 8 characters long.")
    else Accepted
  }

  /** `handleAddUser`: on acceptance, the collected record and the confirmation
      text of the alert. */
  method HandleAddUser(form: NewUserForm, password: string, confirmPassword: string, nowIso: string)
    returns (v: Verdict, created: Option<NewUser>, confirmation: string)
    ensures v == AddUserVerdict(password, confirmPassword)
    ensures created.Some? <==> v.Accepted?
    ensures created.Some? ==> created.value == NewUser(form, password, nowIso)
    ensures v.Accepted? ==>
      confirmation == "✓ User created successfully!\n\nName: " + form.firstName + " " + form.lastName
                      + "\nRole: " + (if form.role == "admin" then "System Admin" else "Law Enforcement Personnel")
                      + "\nEmail: " + form.email + "\nUsername: " + form.username
    ensures v.Rejected? ==> confirmation == v.message
  {
    if password != confirmPassword {
      v := Rejected("Passwords do not match! Please re-enter your passwords.");
      return v, None, v.message;
    }
    if Utf16Length(password) < 8 {
      v := Rejected("Password must be at least 8 characters long.");
      return v, None, v.message;
    }
    var roleText := if form.role == "admin" then "System Admin" else "Law Enforcement Personnel";
    v := Accepted;
    created := Some(NewUser(form, password, nowIso));
    confirmation := "✓ User created successfully!\n\nName: " + form.firstName + " " + form.lastName
                    + "\nRole: " + roleText + "\nEmail: " + form.email + "\nUsername: " + form.username;
  }

  /** The characters the change-password rule counts as special. */
  predicate IsSpecial(c: char) {
    c in "!@#$%^&*(),.?\":{}|<>"
  }

  predicate HasSpecial(s: string) {
    exists i :: 0 <= i < |s| && IsSpecial(s[i])
  }

  /** `handleChangePassword`'s checks, in order: matching entries, at least
      eight code units, then at least one digit and one special character. */
  function ChangePasswordVerdict(newPassword: string, confirmPassword: string): (v: Verdict)
    ensures v.Accepted? <==>
      && newPassword == confirmPassword && Utf16Length(newPassword) >= 8
      && HasAsciiDigit(newPassword) && HasSpecial(newPassword)
    ensures newPassword != confirmPassword ==> v == Rejected("Passwords do not match!")
    ensures newPassword == confirmPassword && Utf16Length(newPassword) < 8 ==>
      v == Rejected("Password must be at least 8 characters long!")
    ensures newPassword == confirmPassword && Utf16Length(newPassword) >= 8
            && !(HasAsciiDigit(newPassword) && HasSpecial(newPassword)) ==>
      v == Rejected("Password must contain at least one number and one special character!")
  {
    if newPassword != confirmPassword then Rejected("Passwords do not match!")
    else if Utf16Length(newPassword) < 8 then Rejected("Password must be at least 8 characters long!")
    else if !HasAsciiDigit(newPassword) || !HasSpecial(newPassword) then
      Rejected("Password must contain at least one number and one special character!")
    else Accepted
  }

  /** Every password the change form accepts also passes the add-user check and
      scores at least three strength criteria: length, a digit and a special
      character. */
  lemma ChangeAcceptedIsStrongEnough(newPassword: string)
    requires ChangePasswordVerdict(newPassword, newPassword).Accepted?
    ensures AddUserVerdict(newPassword, newPassword).Accepted?
    ensures StrengthScore(newPassword) >= 3
  {
    var i :| 0 <= i < |newPassword| && IsSpecial(newPassword[i]);
    assert !IsAsciiAlphanumeric(newPassword[i]);
  }

  // ---------------------------------------------------------------------------
  // Test accounts and logins
  // ---------------------------------------------------------------------------

  datatype TestAccount = TestAccount(email: string, password: string, role: string, department: Option<string>, firstLogin: bool)

  /** `testAccounts`. */
  const TestAccounts: seq<TestAccount> := [
    TestAccount("admin@safecity.com", "Admin123!", "admin", None, false),
    TestAccount("jdf@safecity.com", "DefaultJDF123", "law-enforcement", Some("JDF"), true),
    TestAccount("jcf@safecity.com", "DefaultJCF123", "law-enforcement", Some("JCF"), true),
    TestAccount("security@safecity.com", "DefaultNS123", "law-enforcement", Some("National Security"), true)
  ]

  /** `accounts.find(acc => acc.email === email && acc.password === password)`. */
  function FindAccount(accounts: seq<TestAccount>, email: string, password: string): (r: Option<TestAccount>)
    ensures r.None? <==> forall i :: 0 <= i < |accounts| ==> !(accounts[i].email == email && accounts[i].password == password)
    ensures r.Some? ==> exists i :: (0 <= i < |accounts| && accounts[i] == r.value
                                    && r.value.email == email && r.value.password == password)
    ensures r.Some? ==> exists i :: 0 <= i < |accounts| && accounts[i] == r.value &&
                          forall j :: 0 <= j < i ==> !(accounts[j].email == email && accounts[j].password == password)
  {
    if accounts == [] then None
    else if accounts[0].email == email && accounts[0].password == password then Some(accounts[0])
    else
      var r := FindAccount(accounts[1..], email, password);
      assert r.Some? ==> accounts[1..][IndexOf(accounts[1..], r.value)] == r.value;
      r
  }

  /** Some index at which `a` occurs in `s`. */
  function IndexOf(s: seq<TestAccount>, a: TestAccount): (i: nat)
    requires a in s
    ensures i < |s| && s[i] == a
  {
    if s[0] == a then 0 else 1 + IndexOf(s[1..], a)
  }

  /** The dashboard pages. */
  const ChangePasswordPage := "change-password.html"
  const AdminDashboardPage := "admin-dashboard.html"
  const LawEnforcementDashboardPage := "law-enforcement-dashboard.html"
  const AdminLoginPage := "admin-login.html"

  /** Where a successful login goes: first logins to the password change, then
      admins to their dashboard and everyone else to the law-enforcement one. */
  function AdminLoginTarget(account: TestAccount): (page: string)
    ensures account.firstLogin ==> page == ChangePasswordPage
    ensures !account.firstLogin && account.role == "admin" ==> page == AdminDashboardPage
    ensures !account.firstLogin && account.role != "admin" ==> page == LawEnforcementDashboardPage
  {
    if account.firstLogin then ChangePasswordPage
    else if account.role == "admin" then AdminDashboardPage
    else LawEnforcementDashboardPage
  }

  /** `String(x)` of an optional department: `undefined` when absent. */
  function DepartmentText(department: Option<string>): string {
    department.GetOr("undefined")
  }

  /** The browser: `localStorage` and the current page. */
  class Browser {
    /** The script's `testAccounts`. */
    const accounts: seq<TestAccount>
    var storage: map<string, string>
    var page: string

    constructor (page: string)
      ensures accounts == TestAccounts && storage == map[] && this.page == page
    {
      accounts := TestAccounts;
      storage := map[];
      this.page := page;
    }

    /** `handleAdminLogin`: on a matching account, stores its role, the email
        and its department (or "admin"), flags a first login for a password
        change, and moves to the page `AdminLoginTarget` names; otherwise
        nothing changes and an alert is shown. */
    method HandleAdminLogin(email: string, password: string) returns (alert: Option<string>)
      modifies this
      ensures FindAccount(accounts, email, password).None? ==>
        alert == Some("Invalid email or password") && storage == old(storage) && page == old(page)
      ensures FindAccount(accounts, email, password).Some? ==>
        var account := FindAccount(accounts, email, password).value;
        var signedIn := old(storage)["userType" := account.role]["userEmail" := email]
                          ["userDepartment" := OrElse(account.department, "admin")];
        && alert.None?
        && storage == (if account.firstLogin then signedIn["requiresPasswordChange" := "true"] else signedIn)
        && page == AdminLoginTarget(account)
    {
      var account := FindAccount(accounts, email, password);
      if account.None? {
        return Some("Invalid email or password");
      }
      alert := None;
      var acc := account.value;
      storage := storage["userType" := acc.role]["userEmail" := email]["userDepartment" := OrElse(acc.department, "admin")];
      if acc.firstLogin {
        storage := storage["requiresPasswordChange" := "true"];
        page := ChangePasswordPage;
      } else {
        if acc.role == "admin" {
          page := AdminDashboardPage;
        } else {
          page := LawEnforcementDashboardPage;
        }
      }
    }

    /** `handleLawEnforcementLogin`: the same account lookup, whatever the
        account's role. It stores the department as text (`undefined` for the
        admin account), a badge number made of it, and goes to the password
        change on a first login, else to the law-enforcement dashboard. */
    method HandleLawEnforcementLogin(email: string, password: string) returns (alert: Option<string>)
      modifies this
      ensures FindAccount(accounts, email, password).None? ==>
        alert == Some("Invalid email or password") && storage == old(storage) && page == old(page)
      ensures FindAccount(accounts, email, password).Some? ==>
        var account := FindAccount(accounts, email, password).value;
        var department := DepartmentText(account.department);
        var signedIn := old(storage)["userType" := account.role]["userEmail" := email]
                          ["userDepartment" := department]["badgeNumber" := department + "-12345"]
                          ["department" := department];
        && alert.None?
        && storage == (if account.firstLogin then signedIn["requiresPasswordChange" := "true"] else signedIn)
        && page == (if account.firstLogin then ChangePasswordPage else LawEnforcementDashboardPage)
    {
      var account := FindAccount(accounts, email, password);
      if account.None? {
        return Some("Invalid email or password");
      }
      alert := None;
      var acc := account.value;
      var department := DepartmentText(acc.department);
      storage := storage["userType" := acc.role]["userEmail" := email]["userDepartment" := department]
                        ["badgeNumber" := department + "-12345"]["department" := department];
      if acc.firstLogin {
        storage := storage["requiresPasswordChange" := "true"];
        page := ChangePasswordPage;
      } else {
        page := LawEnforcementDashboardPage;
      }
    }

    /** `handleChangePassword`: a rejection shows its message and changes
        nothing; an acceptance records the change, drops the pending-change
        flag and goes to the dashboard of the stored user type, or to the admin
        login for any other type. */
    method HandleChangePassword(newPassword: string, confirmPassword: string) returns (v: Verdict)
      modifies this
      ensures v == ChangePasswordVerdict(newPassword, confirmPassword)
      ensures v.Rejected? ==> storage == old(storage) && page == old(page)
      ensures v.Accepted? ==>
        && storage == old(storage)["passwordChanged" := "true"] - {"requiresPasswordChange"}
        && page == (if "userType" in old(storage) && old(storage)["userType"] == "admin" then AdminDashboardPage
                    else if "userType" in old(storage) && old(storage)["userType"] == "law-enforcement"
                    then LawEnforcementDashboardPage
                    else AdminLoginPage)
    {
      if newPassword != confirmPassword {
        return Rejected("Passwords do not match!");
      }
      if Utf16Length(newPassword) < 8 {
        return Rejected("Password must be at least 8 characters long!");
      }
      if !HasAsciiDigit(newPassword) || !HasSpecial(newPassword) {
        return Rejected("Password must contain at least one number and one special character!");
      }
      v := Accepted;
      var userType: Option<string> := if "userType" in storage then Some(storage["userType"]) else None;
      storage := storage["passwordChanged" := "true"];
      storage := storage - {"requiresPasswordChange"};
      if userType == Some("admin") {
        page := AdminDashboardPage;
      } else if userType == Some("law-enforcement") {
        page := LawEnforcementDashboardPage;
      } else {
        page := AdminLoginPage;
      }
    }
  }

  /** A first login on the law-enforcement page followed by an accepted password
      change lands on the law-enforcement dashboard with the change recorded
      and no pending-change flag. */
  method FirstLoginThenChange(b: Browser, email: string, password: string, newPassword: string)
    requires FindAccount(b.accounts, email, password).Some?
    requires FindAccount(b.accounts, email, password).value.role == "law-enforcement"
    requires ChangePasswordVerdict(newPassword, newPassword).Accepted?
    modifies b
    ensures b.page == LawEnforcementDashboardPage
    ensures "passwordChanged" in b.storage && "requiresPasswordChange" !in b.storage
  {
    var _ := b.HandleLawEnforcementLogin(email, password);
    var v := b.HandleChangePassword(newPassword, newPassword);
  }

  // ---------------------------------------------------------------------------
  // Section titles
  // ---------------------------------------------------------------------------

  /** `titles` in `showSection`. */
  const SectionTitles: map<string, string> := map[
    "overview" := "Dashboard Overview",
    "reports" := "Crime Reports",
    "chatrooms" := "Chat Monitoring",
    "users" := "User Management",
    "alerts" := "Emergency Alerts",
    "settings" := "Settings",
    "emergencies" := "Active Emergencies",
    "map" := "Crime Map",
    "analytics" := "Analytics"
  ]

  /** The page title `showSection` sets: the section's own title, or
      "Dashboard" for an id without one. */
  function SectionTitle(sectionId: string): (title: string)
    ensures sectionId in SectionTitles ==> title == SectionTitles[sectionId]
    ensures sectionId !in SectionTitles ==> title == "Dashboard"
  {
    if sectionId in SectionTitles then SectionTitles[sectionId] else "Dashboard"
  }

  /** Every section id, known or not, gets a non-empty title. */
  lemma SectionTitleNeverEmpty(sectionId: string)
    ensures SectionTitle(sectionId) != ""
  {
    if sectionId in SectionTitles {
      assert sectionId in {"overview", "reports", "chatrooms", "users", "alerts", "settings",
                           "emergencies", "map", "analytics"};
    }
  }
}
