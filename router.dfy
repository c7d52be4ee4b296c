/** The `App` component's page state and `renderPage` (src/App.tsx:826-846). */
module Router {

  datatype View = LandingView | LoginView | SignupView | DashboardView | MeditateView | AdminView

  /** The `switch` of `renderPage`; an unknown name renders the landing page. */
  function RenderPage(page: string): (v: View)
    ensures v == LoginView <==> page == "login"
    ensures v == SignupView <==> page == "signup"
    ensures v == DashboardView <==> page == "dashboard"
    ensures v == MeditateView <==> page == "meditate"
    ensures v == AdminView <==> page == "admin"
    ensures v == LandingView <==> page !in {"login", "signup", "dashboard", "meditate", "admin"}
  {
    match page
    case "landing" => LandingView
    case "login" => LoginView
    case "signup" => SignupView
    case "dashboard" => DashboardView
    case "meditate" => MeditateView
    case "admin" => AdminView
    case _ => LandingView
  }

  /** The effect on `[user, page]`: a signed-in user on an auth page goes to the dashboard. */
  function Redirected(signedIn: bool, page: string): (p: string)
    ensures !signedIn ==> p == page
    ensures signedIn && (page == "login" || page == "signup") ==> p == "dashboard"
    ensures signedIn && page != "login" && page != "signup" ==> p == page
  {
    if signedIn && (page == "login" || page == "signup") then "dashboard" else page
  }

  /** A signed-in user never sees the login or signup form once the effect ran, and it runs at most once. */
  lemma SignedInNeverSeesAuthForms(page: string)
    ensures RenderPage(Redirected(true, page)) != LoginView
    ensures RenderPage(Redirected(true, page)) != SignupView
    ensures Redirected(true, Redirected(true, page)) == Redirected(true, page)
  {
  }

  class App {
    var page: string

    constructor ()
      ensures page == "landing"
    {
      page := "landing";
    }

    /** `setPage`, as the navigation callbacks call it. */
    method Navigate(target: string)
      modifies this
      ensures page == target
    {
      page := target;
    }

    /** The effect after a render with or without a signed-in user. */
    method SyncWithUser(signedIn: bool)
      modifies this
      ensures page == Redirected(signedIn, old(page))
    {
      if signedIn && (page == "login" || page == "signup") {
        page := "dashboard";
      }
    }
  }
}
