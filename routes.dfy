/** The router destinations used by the launch screen and the onboarding screen. */
module Routes {

  datatype Href =
    | OnboardingRoute   // "/onboarding"
    | MainTabs          // "/(drawer)/(tabs)"
    | AuthLogin         // "/(auth)/login"
    | BareLogin         // "/login", used by the onboarding back button

  /** The path string the router is given for each destination. */
  function Path(h: Href): (path: string)
    ensures |path| > 1 && path[0] == '/'
  {
    match h
    case OnboardingRoute => "/onboarding"
    case MainTabs => "/(drawer)/(tabs)"
    case AuthLogin => "/(auth)/login"
    case BareLogin => "/login"
  }

  /** Different destinations are different paths, so a recorded route names one destination. */
  lemma PathInjective(h1: Href, h2: Href)
    ensures Path(h1) == Path(h2) <==> h1 == h2
  {
  }
}
