/**
 * The onboarding pager: three slides, Next/Back buttons, the slide dots,
 * and Skip / Get Started, which record that onboarding was seen.
 */
module Onboarding {
  import AppContext

  /** The number of slides. */
  const SlideCount: nat := 3

  /** The Back button is shown on every slide but the first. */
  predicate ShowsBack(currentSlide: nat) {
    currentSlide > 0
  }

  /** The main button's label. */
  function NextLabel(currentSlide: nat): string {
    if currentSlide == SlideCount - 1 then "Get Started" else "Next"
  }

  /** The Back button and the label, in terms of the slide's position. */
  lemma ButtonsSpec(currentSlide: nat)
    requires currentSlide < SlideCount
    ensures ShowsBack(currentSlide) <==> currentSlide != 0
    ensures NextLabel(currentSlide) == "Get Started" <==> currentSlide == 2
    ensures NextLabel(currentSlide) == "Next" <==> currentSlide < 2
  {
  }

  class Pager {
    var currentSlide: nat

    /** The slide index names a slide. */
    predicate Valid()
      reads this
    {
      currentSlide < SlideCount
    }

    constructor ()
      ensures Valid() && currentSlide == 0
    {
      currentSlide := 0;
    }

    /** `handleNext`: the next slide, or on the last slide Get Started (onboarding seen). */
    method Next(app: AppContext.AppState)
      requires Valid()
      modifies this, app`hasSeenOnboarding
      ensures Valid()
      ensures old(currentSlide) < SlideCount - 1 ==>
        currentSlide == old(currentSlide) + 1 && app.hasSeenOnboarding == old(app.hasSeenOnboarding)
      ensures old(currentSlide) == SlideCount - 1 ==>
        currentSlide == old(currentSlide) && app.hasSeenOnboarding
    {
      if currentSlide < SlideCount - 1 {
        currentSlide := currentSlide + 1;
      } else {
        GetStarted(app);
      }
    }

    /** `handlePrev`: the previous slide; nothing on the first. */
    method Prev()
      requires Valid()
      modifies this
      ensures Valid()
      ensures old(currentSlide) == 0 ==> currentSlide == 0
      ensures old(currentSlide) > 0 ==> currentSlide == old(currentSlide) - 1
    {
      if currentSlide > 0 {
        currentSlide := currentSlide - 1;
      }
    }

    /** A click on dot `index`, one of the slides' dots. */
    method GoTo(index: nat)
      requires index < SlideCount
      modifies this
      ensures Valid() && currentSlide == index
    {
      currentSlide := index;
    }

    /** `handleGetStarted`: onboarding has been seen (navigation is left out). */
    method GetStarted(app: AppContext.AppState)
      modifies app`hasSeenOnboarding
      ensures app.hasSeenOnboarding
    {
      app.SetHasSeenOnboarding(true);
    }

    /** `handleSkip`: from any slide, onboarding has been seen; the slide stays. */
    method Skip(app: AppContext.AppState)
      modifies app`hasSeenOnboarding
      ensures app.hasSeenOnboarding
    {
      app.SetHasSeenOnboarding(true);
    }
  }
}
