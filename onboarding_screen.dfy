/** The onboarding screen: three slides in a paged horizontal list, a
    pagination row whose active dot follows the current slide, a primary button
    that advances or finishes, a Skip button and a back button. Scroll requests
    and router replacements are recorded, in order, as the screen's outputs. */
module OnboardingScreen {
  import opened Wrappers
  import opened Routes
  import opened JsMath
  import opened OnboardingStatus

  datatype SlideKind = ImageSlide | ListSlide | StatsSlide

  datatype Slide = Slide(id: string, subtitle: string, title: string, kind: SlideKind)

  /** The fixed slide list. */
  const Slides: seq<Slide> := [
    Slide("1", "Stay Updated", "Monitor Your Vehicle in Real Time", ImageSlide),
    Slide("2", "Detailed Overview", "Comprehensive Service Details Provided", ListSlide),
    Slide("3", "Detailed Check", "Detailed Inspection and Condition Analysis", StatsSlide)
  ]

  /** Index of the last slide. */
  const LastIndex: int := |Slides| - 1

  const NextLabel: string := "Next"
  const GetStartedLabel: string := "Let's Get Started"

  /** The primary button's label: "Let's Get Started" on the last slide, "Next" elsewhere. */
  function PrimaryLabel(currentIndex: int): (caption: string)
    ensures caption == GetStartedLabel <==> currentIndex == LastIndex
    ensures caption == NextLabel <==> currentIndex != LastIndex
  {
    if currentIndex == LastIndex then GetStartedLabel else NextLabel
  }

  /** Whether the arrow is drawn inside the primary button. */
  function ShowsArrow(currentIndex: int): (shown: bool)
    ensures shown <==> PrimaryLabel(currentIndex) == GetStartedLabel
  {
    currentIndex == LastIndex
  }

  /** The pagination row, one dot per slide; a dot is active when its index is the current one. */
  function ActiveDots(currentIndex: int): (dots: seq<bool>)
    ensures |dots| == |Slides|
    ensures forall i :: 0 <= i < |dots| ==> (dots[i] <==> i == currentIndex)
  {
    seq(|Slides|, i => i == currentIndex)
  }

  /** Number of active dots in a row. */
  function CountActive(dots: seq<bool>): (n: nat)
    ensures n <= |dots|
  {
    if dots == [] then 0 else (if dots[0] then 1 else 0) + CountActive(dots[1..])
  }

  /** A row in which only the dot at position `k` is active has
      one active dot when `k` is in range and none otherwise. */
  lemma {:induction false} CountSingle(dots: seq<bool>, k: int)
    requires forall i :: 0 <= i < |dots| ==> (dots[i] <==> i == k)
    ensures CountActive(dots) == if 0 <= k < |dots| then 1 else 0
  {
    if dots != [] {
      var rest := dots[1..];
      assert forall i :: 0 <= i < |rest| ==> (rest[i] <==> i == k - 1) by {
        forall i | 0 <= i < |rest| ensures rest[i] <==> i == k - 1 {
          assert rest[i] == dots[i + 1];
        }
      }
      CountSingle(rest, k - 1);
    }
  }

  /** For an in-range slide index exactly one dot is active, the one at the index;
      for an index outside the list no dot is active. */
  lemma ExactlyOneActiveDot(currentIndex: int)
    ensures CountActive(ActiveDots(currentIndex)) == (if 0 <= currentIndex <= LastIndex then 1 else 0)
    ensures 0 <= currentIndex <= LastIndex ==> ActiveDots(currentIndex)[currentIndex]
  {
    CountSingle(ActiveDots(currentIndex), currentIndex);
  }

  /** The slide index a finished swipe settles on: the horizontal offset in screen widths, rounded. */
  function SettledIndex(offsetX: real, width: real): (i: int)
    requires width > 0.0
    ensures offsetX / width - 0.5 < i as real <= offsetX / width + 0.5
  {
    Round(offsetX / width)
  }

  /** One mounted onboarding screen. */
  class Screen {
    var currentIndex: int
    /** Indices passed to the list's scrollToIndex, oldest first. */
    var scrollRequests: seq<int>
    /** Routes passed to router.replace, oldest first. */
    var navigations: seq<Href>
    /** This screen's own instance of the onboarding-status hook. */
    const onboarding: OnboardingStatusHook

    constructor (storage: AsyncStore)
      ensures currentIndex == 0 && scrollRequests == [] && navigations == []
      ensures fresh(onboarding) && onboarding.storage == storage
      ensures onboarding.isOnboardingCompleted == None && onboarding.isLoading
    {
      currentIndex := 0;
      scrollRequests := [];
      navigations := [];
      onboarding := new OnboardingStatusHook(storage);
    }

    /** The primary button. Before the last slide it asks the list to scroll one
        slide on and does nothing else; on the last slide it completes onboarding
        and then replaces the route with the login screen. The index itself only
        changes when the scroll settles. */
    method HandleNext(writeFails: bool)
      modifies this, onboarding, onboarding.storage
      ensures currentIndex == old(currentIndex)
      ensures old(currentIndex) < LastIndex ==>
                scrollRequests == old(scrollRequests) + [old(currentIndex) + 1] &&
                navigations == old(navigations) &&
                onboarding.storage.items == old(onboarding.storage.items) &&
                onboarding.isOnboardingCompleted == old(onboarding.isOnboardingCompleted)
      ensures old(currentIndex) >= LastIndex ==>
                scrollRequests == old(scrollRequests) &&
                navigations == old(navigations) + [AuthLogin] &&
                onboarding.storage.items ==
                  (if writeFails then old(onboarding.storage.items)
                   else old(onboarding.storage.items)[OnboardingKey := CompletedValue]) &&
                onboarding.isOnboardingCompleted ==
                  (if writeFails then old(onboarding.isOnboardingCompleted) else Some(true))
      ensures onboarding.isLoading == old(onboarding.isLoading)
    {
      if currentIndex < LastIndex {
        scrollRequests := scrollRequests + [currentIndex + 1];
      } else {
        onboarding.CompleteOnboarding(writeFails);
        navigations := navigations + [AuthLogin];
      }
    }

    /** Skip: completes onboarding and goes to the login screen from any slide. */
    method HandleSkip(writeFails: bool)
      modifies this, onboarding, onboarding.storage
      ensures currentIndex == old(currentIndex) && scrollRequests == old(scrollRequests)
      ensures navigations == old(navigations) + [AuthLogin]
      ensures onboarding.storage.items ==
                (if writeFails then old(onboarding.storage.items)
                 else old(onboarding.storage.items)[OnboardingKey := CompletedValue])
      ensures onboarding.isOnboardingCompleted ==
                (if writeFails then old(onboarding.isOnboardingCompleted) else Some(true))
      ensures onboarding.isLoading == old(onboarding.isLoading)
    {
      onboarding.CompleteOnboarding(writeFails);
      navigations := navigations + [AuthLogin];
    }

    /** The back button: goes to "/login" and leaves the onboarding flag alone. */
    method HandleBack()
      modifies this
      ensures currentIndex == old(currentIndex) && scrollRequests == old(scrollRequests)
      ensures navigations == old(navigations) + [BareLogin]
    {
      navigations := navigations + [BareLogin];
    }

    /** The end of a swipe or of a requested scroll: the only place the index changes. */
    method OnMomentumScrollEnd(offsetX: real, width: real)
      requires width > 0.0
      modifies this
      ensures currentIndex == SettledIndex(offsetX, width)
      ensures scrollRequests == old(scrollRequests) && navigations == old(navigations)
    {
      currentIndex := Round(offsetX / width);
    }
  }

  /** Pressing the primary button on every slide in turn, each press followed by
      the scroll it requests settling on its page, finishes onboarding after
      the third press and sends the user to login once. */
  method WalkThrough(s: Screen, width: real)
    requires width > 0.0
    requires s.currentIndex == 0 && s.navigations == [] && s.scrollRequests == []
    modifies s, s.onboarding, s.onboarding.storage
    ensures s.scrollRequests == [1, 2]
    ensures s.navigations == [AuthLogin]
    ensures CheckedFlag(s.onboarding.storage.items, false)
  {
    s.HandleNext(false);
    assert s.scrollRequests == [1];
    s.OnMomentumScrollEnd(1.0 * width, width);
    assert 1.0 * width / width == 1.0;
    assert s.currentIndex == 1;
    s.HandleNext(false);
    assert s.scrollRequests == [1, 2];
    s.OnMomentumScrollEnd(2.0 * width, width);
    assert 2.0 * width / width == 2.0;
    assert s.currentIndex == 2;
    s.HandleNext(false);
    SetThenCheck(old(s.onboarding.storage.items));
  }
}
