/** The root navigation of mobile/app/index.tsx: two state variables, the current
    screen and the kind of user, set by the `handle*` callbacks, and
    `renderScreen`, which picks the screen component and the callbacks it wires. */
module AppNavigation {
  import opened Wrappers

  datatype Screen = Welcome | Login | SignUp | Home | Report | Admin

  datatype UserKind = Anonymous | RegisteredUser | Administrator

  /** The callbacks the screens can fire. */
  datatype Event =
    | SignIn | SignUpPressed | ContinueAsGuest | LoginDone | AdminLoginDone | RegisterDone
    | BackToWelcome | BackToHome | ReportPressed | Logout

  /** What `renderScreen` shows. The home screen receives the user kind. */
  datatype View = WelcomeView | LoginView | SignUpView | HomeView(userType: Option<UserKind>) | ReportView | AdminView

  /** The name each screen has in the source's `Screen` union. */
  function ScreenName(s: Screen): string {
    match s
    case Welcome => "welcome"
    case Login => "login"
    case SignUp => "signup"
    case Home => "home"
    case Report => "report"
    case Admin => "admin"
  }

  /** `renderScreen` over a screen name: the six known names get their own
      component, any other name the welcome screen. */
  function RenderScreen(name: string, userType: Option<UserKind>): (v: View)
    ensures name == "home" ==> v == HomeView(userType)
    ensures name == "login" ==> v == LoginView
    ensures name == "signup" ==> v == SignUpView
    ensures name == "report" ==> v == ReportView
    ensures name == "admin" ==> v == AdminView
    ensures name !in {"login", "signup", "home", "report", "admin"} ==> v == WelcomeView
  {
    if name == "welcome" then WelcomeView
    else if name == "login" then LoginView
    else if name == "signup" then SignUpView
    else if name == "home" then HomeView(userType)
    else if name == "report" then ReportView
    else if name == "admin" then AdminView
    else WelcomeView
  }

  /** The callbacks each view wires to its buttons. */
  function Wired(v: View): (events: set<Event>)
    ensures v.WelcomeView? ==> events == {SignIn, SignUpPressed, ContinueAsGuest}
    ensures v.LoginView? ==> events == {BackToWelcome, LoginDone, AdminLoginDone}
    ensures v.SignUpView? ==> events == {BackToWelcome, RegisterDone}
    ensures v.HomeView? ==> events == {ReportPressed, Logout}
    ensures v.ReportView? ==> events == {BackToHome}
    ensures v.AdminView? ==> events == {Logout}
  {
    match v
    case WelcomeView => {SignIn, SignUpPressed, ContinueAsGuest}
    case LoginView => {BackToWelcome, LoginDone, AdminLoginDone}
    case SignUpView => {BackToWelcome, RegisterDone}
    case HomeView(_) => {ReportPressed, Logout}
    case ReportView => {BackToHome}
    case AdminView => {Logout}
  }

  /** Each screen name renders as that screen. */
  lemma RenderKnownScreens(s: Screen, userType: Option<UserKind>)
    ensures s == Welcome <==> RenderScreen(ScreenName(s), userType) == WelcomeView
    ensures s == Home <==> RenderScreen(ScreenName(s), userType) == HomeView(userType)
  {
  }

  class App {
    var currentScreen: Screen
    var userType: Option<UserKind>

    /** The app opens on the welcome screen with nobody signed in. */
    constructor ()
      ensures currentScreen == Welcome && userType.None?
    {
      currentScreen := Welcome;
      userType := None;
    }

    /** The pairing the screens rely on: the start screens have no user, the home
        and report screens a guest or a signed-in user (which makes the cast of
        `userType` for the home screen sound), the admin screen an admin. */
    predicate Valid()
      reads this
    {
      && (currentScreen in {Welcome, Login, SignUp} ==> userType.None?)
      && (currentScreen in {Home, Report} ==> userType in {Some(Anonymous), Some(RegisteredUser)})
      && (currentScreen == Admin ==> userType == Some(Administrator))
    }

    /** What is on screen now. */
    function Shown(): View
      reads this
    {
      RenderScreen(ScreenName(currentScreen), userType)
    }

    /** `handleSignIn`: to the login screen, the user kind unchanged. */
    method HandleSignIn()
      modifies this
      ensures currentScreen == Login && userType == old(userType)
    {
      currentScreen := Login;
    }

    /** `handleSignUp`: to the sign-up screen, the user kind unchanged. */
    method HandleSignUp()
      modifies this
      ensures currentScreen == SignUp && userType == old(userType)
    {
      currentScreen := SignUp;
    }

    /** `handleContinueAsGuest`. */
    method HandleContinueAsGuest()
      modifies this
      ensures currentScreen == Home && userType == Some(Anonymous)
    {
      userType := Some(Anonymous);
      currentScreen := Home;
    }

    /** `handleLogin`. */
    method HandleLogin()
      modifies this
      ensures currentScreen == Home && userType == Some(RegisteredUser)
    {
      userType := Some(RegisteredUser);
      currentScreen := Home;
    }

    /** `handleAdminLogin`. */
    method HandleAdminLogin()
      modifies this
      ensures currentScreen == Admin && userType == Some(Administrator)
    {
      userType := Some(Administrator);
      currentScreen := Admin;
    }

    /** `handleRegister`: the same outcome as a login. */
    method HandleRegister()
      modifies this
      ensures currentScreen == Home && userType == Some(RegisteredUser)
    {
      userType := Some(RegisteredUser);
      currentScreen := Home;
    }

    /** `handleBackToWelcome`. */
    method HandleBackToWelcome()
      modifies this
      ensures currentScreen == Welcome && userType.None?
    {
      currentScreen := Welcome;
      userType := None;
    }

    /** `handleBackToHome`: only the screen changes. */
    method HandleBackToHome()
      modifies this
      ensures currentScreen == Home && userType == old(userType)
    {
      currentScreen := Home;
    }

    /** `handleReport`: only the screen changes. */
    method HandleReport()
      modifies this
      ensures currentScreen == Report && userType == old(userType)
    {
      currentScreen := Report;
    }

    /** `handleLogout`: the same outcome as going back to the welcome screen. */
    method HandleLogout()
      modifies this
      ensures currentScreen == Welcome && userType.None?
    {
      userType := None;
      currentScreen := Welcome;
    }

    /** A callback fired from the screen that wires it keeps the pairing. */
    method Fire(e: Event)
      requires Valid() && e in Wired(Shown())
      modifies this
      ensures Valid()
      ensures e in {Logout, BackToWelcome} ==> currentScreen == Welcome && userType.None?
      ensures e in {SignIn, SignUpPressed, ReportPressed, BackToHome} ==> userType == old(userType)
    {
      match e {
        case SignIn => HandleSignIn();
        case SignUpPressed => HandleSignUp();
        case ContinueAsGuest => HandleContinueAsGuest();
        case LoginDone => HandleLogin();
        case AdminLoginDone => HandleAdminLogin();
        case RegisterDone => HandleRegister();
        case BackToWelcome => HandleBackToWelcome();
        case BackToHome => HandleBackToHome();
        case ReportPressed => HandleReport();
        case Logout => HandleLogout();
      }
    }
  }
}
