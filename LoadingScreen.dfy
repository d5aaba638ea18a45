/**
  * The loading overlay (src/components/LoadingScreen.tsx). An interval
  * advances a progress counter by a random amount below 15 per tick; the
  * first tick that finds the counter at 100 or more pins it to 100, stops
  * the interval and schedules the overlay's removal half a second later.
  * The random amount of each tick is a parameter, and the timers are steps
  * called explicitly.
  */
module LoadingScreen {

  /** The largest random step, exclusive: `Math.random() * 15`. */
  const MaxStep: real := 15.0

  /** The `setProgress` updater, given the tick's random amount. */
  function NextProgress(prev: real, step: real): (next: real)
    requires 0.0 <= step < MaxStep
    ensures prev >= 100.0 ==> next == 100.0
    ensures prev < 100.0 ==> prev <= next < prev + MaxStep
  {
    if prev >= 100.0 then 100.0 else prev + step
  }

  /** Below 100 the counter never goes down, and a counter that started in
      range stays below 115: the overshoot is less than one step. */
  lemma NextProgressBounds(prev: real, step: real)
    requires 0.0 <= step < MaxStep && 0.0 <= prev < 100.0 + MaxStep
    ensures 0.0 <= NextProgress(prev, step) < 100.0 + MaxStep
    ensures prev < 100.0 ==> prev <= NextProgress(prev, step)
  {
  }

  /** The counter can pass 100 for one tick (99 + 14 = 113) and is pinned
      back to 100 on the next. */
  lemma OvershootThenClamp()
    ensures NextProgress(99.0, 14.0) == 113.0
    ensures forall step :: 0.0 <= step < MaxStep ==> NextProgress(113.0, step) == 100.0
  {
  }

  class Loader {
    var isLoading: bool
    var progress: real
    /** the interval is still registered */
    var ticking: bool
    /** the removal timeout is scheduled and has not fired */
    var hidePending: bool

    ghost predicate Valid()
      reads this
    {
      && 0.0 <= progress < 100.0 + MaxStep
      && (ticking ==> isLoading && !hidePending)
      && (!ticking ==> progress == 100.0 && (hidePending <==> isLoading))
    }

    /** `useState(true)`, `useState(0)`, and the mount effect's interval. */
    constructor ()
      ensures Valid()
      ensures isLoading && progress == 0.0 && ticking && !hidePending
    {
      isLoading := true;
      progress := 0.0;
      ticking := true;
      hidePending := false;
    }

    /** The overlay is rendered exactly while `isLoading`. */
    predicate OverlayShown()
      reads this
    {
      isLoading
    }

    /** One interval callback: the counter takes the updater's value; the
        tick that finds it at 100 or more also clears the interval and
        schedules the removal. A cleared interval calls back no more. */
    method Tick(step: real)
      requires Valid() && 0.0 <= step < MaxStep
      modifies this
      ensures Valid()
      ensures isLoading == old(isLoading)
      ensures !old(ticking) ==> progress == old(progress) && !ticking && hidePending == old(hidePending)
      ensures old(ticking) ==> progress == NextProgress(old(progress), step)
      ensures old(ticking) && old(progress) >= 100.0 ==> !ticking && hidePending
      ensures old(ticking) && old(progress) < 100.0 ==> ticking && !hidePending
    {
      if !ticking {
        return;
      }
      NextProgressBounds(progress, step);
      if progress >= 100.0 {
        ticking := false;
        hidePending := true;
        progress := 100.0;
      } else {
        progress := progress + step;
      }
    }

    /** The removal timeout fires: the overlay goes away, at 100%. */
    method HideFires()
      requires Valid()
      modifies this
      ensures Valid()
      ensures progress == old(progress) && ticking == old(ticking) && !hidePending
      ensures old(hidePending) ==> !OverlayShown() && progress == 100.0
      ensures !old(hidePending) ==> isLoading == old(isLoading)
    {
      if hidePending {
        hidePending := false;
        isLoading := false;
      }
    }
  }
}
