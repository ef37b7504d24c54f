/** The launch screen: while authentication or the onboarding flag is still
    loading it shows a spinner, otherwise it redirects to exactly one route. */
module Launch {
  import opened Wrappers
  import opened Routes
  import opened OnboardingStatus

  /** What the launch screen renders. */
  datatype LaunchView = Spinner | Redirect(to: Href)

  /** The redirect chain of the launch screen. `onboardingCompleted` is the hook's
      nullable flag and `isSignedIn` the identity provider's possibly-undefined flag. */
  function Decide(isLoaded: bool, onboardingLoading: bool,
                  onboardingCompleted: Option<bool>, isSignedIn: Option<bool>): (v: LaunchView)
    ensures v == Spinner <==> !isLoaded || onboardingLoading
    ensures v == Redirect(OnboardingRoute) <==>
              isLoaded && !onboardingLoading && !Truthy(onboardingCompleted)
    ensures v == Redirect(MainTabs) <==>
              isLoaded && !onboardingLoading && Truthy(onboardingCompleted) && Truthy(isSignedIn)
    ensures v == Redirect(AuthLogin) <==>
              isLoaded && !onboardingLoading && Truthy(onboardingCompleted) && !Truthy(isSignedIn)
    ensures v != Redirect(BareLogin)
  {
    if !isLoaded || onboardingLoading then Spinner
    else if !Truthy(onboardingCompleted) then Redirect(OnboardingRoute)
    else if Truthy(isSignedIn) then Redirect(MainTabs)
    else Redirect(AuthLogin)
  }

  /** The launch screen as first rendered after its onboarding hook has mounted and
      read storage: once authentication has loaded it sends the user to onboarding
      exactly when storage does not hold the completed flag (or the read failed). */
  method LaunchAfterMount(storage: AsyncStore, readFails: bool, isLoaded: bool, isSignedIn: Option<bool>)
    returns (v: LaunchView)
    ensures !isLoaded <==> v == Spinner
    ensures isLoaded ==> (v == Redirect(OnboardingRoute) <==> !CheckedFlag(storage.items, readFails))
    ensures isLoaded && CheckedFlag(storage.items, readFails) ==>
              v == Redirect(if Truthy(isSignedIn) then MainTabs else AuthLogin)
  {
    var hook := new OnboardingStatusHook(storage);
    hook.CheckOnboardingStatus(readFails);
    v := Decide(isLoaded, hook.isLoading, hook.isOnboardingCompleted, isSignedIn);
  }
}
