/** The carousel object itself: the slide count fixed at construction, the current
    index, the user-pause flag, the handle of the repeating timer, the translation
    offset of the slide list, the pause button's label, and the "active" marks on the
    indicator buttons. Each handler is a method proved against `Step`.

    The browser's timers are modelled by `live`, the set of interval handles of this
    carousel that the browser still runs, and `nextHandle`, the handle the next
    `setInterval` returns (handles are positive, so an armed handle is truthy). */
module Carousel {
  import opened CarouselSpec

  class Slider {
    const n: nat
    const config: Config
    const active: array<bool>
    var currentIndex: nat
    var paused: bool
    var autoSlide: Option<nat>
    var live: set<nat>
    var nextHandle: nat
    var offset: nat
    var pauseLabel: string

    /** The object invariant: the fields agree with each other and at most the current
        slide's indicator is marked. */
    ghost predicate Valid()
      reads this, active
    {
      Sound() && (NoneActive() || OnlyCurrentActive())
    }

    /** The invariant on the fields alone. With zero slides the index stays 0, and a
        timer the browser runs is exactly the one `autoSlide` holds. */
    ghost predicate Sound()
      reads this, active
    {
      (n == 0 ==> currentIndex == 0) && (n > 0 ==> currentIndex < n) &&
      active.Length == (if config.showIndicators then n else 0) &&
      1 <= nextHandle &&
      (match autoSlide
       case None => live == {}
       case Some(h) => live == {h} && 1 <= h < nextHandle) &&
      (config.showControls ==> pauseLabel == if paused then "Play" else "Pause")
    }

    /** No indicator carries the "active" class (the state before the first move). */
    ghost predicate NoneActive()
      reads this, active
    {
      forall j :: 0 <= j < active.Length ==> !active[j]
    }

    /** Only the indicator of the current slide carries the "active" class. */
    ghost predicate OnlyCurrentActive()
      reads this, active
    {
      active[..] == Marks(active.Length, currentIndex)
    }

    /** The invariant the handlers keep on top of `Valid`: a user pause leaves no timer
        armed. `StartSlide` alone may break it, as the pause toggle does midway. */
    ghost predicate Steady()
      reads this, active
    {
      Valid() && PauseStopsTimer(State())
    }

    function TimerArmed(): bool
      reads this
    {
      autoSlide.Some?
    }

    /** The abstract state the handlers are specified on. */
    function State(): View
      reads this
    {
      View(currentIndex, paused, TimerArmed())
    }

    /** Builds the carousel over `slideCount` slides, creates the indicator buttons if
        configured (none is marked active yet) and starts auto-advance. */
    constructor (slideCount: nat, options: Overlay)
      ensures Steady() && fresh(active)
      ensures n == slideCount && config == Merge(options)
      ensures State() == View(0, false, true) && live == {autoSlide.value}
      ensures NoneActive() && offset == 0
    {
      var c := Merge(options);
      n := slideCount;
      config := c;
      active := new bool[if c.showIndicators then slideCount else 0](_ => false);
      currentIndex := 0;
      paused := false;
      autoSlide := None;
      live := {};
      nextHandle := 1;
      offset := 0;
      pauseLabel := if c.showControls then "Pause" else "";
      new;
      StartSlide();
    }

    /** Marks the indicator of the current slide "active" and clears every other mark. */
    method UpdateIndicators()
      requires Sound() && currentIndex < n
      modifies active
      ensures Valid() && OnlyCurrentActive()
    {
      if !config.showIndicators {
        return;
      }
      for j := 0 to active.Length
        invariant forall m :: 0 <= m < j ==> !active[m]
      {
        active[j] := false;
      }
      active[currentIndex] := true;
      assert active[..] == Marks(active.Length, currentIndex);
    }

    /** Shows slide `index`: translates the list by `index` slide widths, makes it
        current and refreshes the indicators. `width` is the measured width of the
        first slide. */
    method MoveSlider(index: nat, width: nat)
      requires Sound() && index < n
      modifies this`currentIndex, this`offset, active
      ensures Valid() && OnlyCurrentActive()
      ensures currentIndex == index && offset == index * width
    {
      offset := index * width;
      currentIndex := index;
      UpdateIndicators();
    }

    /** Cancels the armed timer, if any, and arms a fresh one. */
    method StartSlide()
      requires Valid()
      modifies this`autoSlide, this`live, this`nextHandle
      ensures Valid()
      ensures autoSlide == Some(old(nextHandle)) && live == {old(nextHandle)}
      ensures old(autoSlide).Some? ==> old(autoSlide).value !in live
      ensures nextHandle == old(nextHandle) + 1
    {
      if autoSlide.Some? {
        live := live - {autoSlide.value};
      }
      var h := nextHandle;
      nextHandle := nextHandle + 1;
      live := live + {h};
      autoSlide := Some(h);
    }

    /** Cancels the armed timer, if any; with none armed it changes nothing. */
    method StopSlide()
      requires Valid()
      modifies this`autoSlide, this`live
      ensures Valid() && autoSlide == None && live == {}
      ensures old(autoSlide) == None ==> unchanged(this)
    {
      if autoSlide.Some? {
        live := live - {autoSlide.value};
      }
      autoSlide := None;
    }

    /** One firing of the armed timer: advance, wrapping past the last slide, and show
        the new slide. With zero slides reading the first slide's width fails: `ok` is
        false and nothing changes. */
    method AutoAdvance(width: nat) returns (ok: bool)
      requires Valid() && TimerArmed()
      modifies this`currentIndex, this`offset, active
      ensures Valid() && State() == Step(old(State()), n, Tick)
      ensures old(Steady()) ==> Steady()
      ensures ok == (n > 0)
      ensures ok ==> offset == currentIndex * width && OnlyCurrentActive()
      ensures !ok ==> offset == old(offset) && active[..] == old(active[..])
    {
      currentIndex := if currentIndex < n - 1 then currentIndex + 1 else 0;
      if n == 0 {
        return false;
      }
      MoveSlider(currentIndex, width);
      ok := true;
    }

    /** Manual "previous" (control button or left arrow). */
    method PrevSlide(width: nat)
      requires Valid()
      modifies this`currentIndex, this`offset, active, this`autoSlide, this`live, this`nextHandle
      ensures Valid() && State() == Step(old(State()), n, Prev)
      ensures old(Steady()) ==> Steady()
      ensures old(currentIndex) > 0 ==> offset == currentIndex * width && OnlyCurrentActive()
      ensures old(currentIndex) == 0 ==> offset == old(offset) && active[..] == old(active[..])
      ensures TimerArmed() ==> autoSlide == Some(old(nextHandle))
    {
      if currentIndex > 0 {
        currentIndex := currentIndex - 1;
        MoveSlider(currentIndex, width);
      }
      StopSlide();
      if !paused {
        StartSlide();
      }
    }

    /** Manual "next" (control button or right arrow). */
    method NextSlide(width: nat)
      requires Valid()
      modifies this`currentIndex, this`offset, active, this`autoSlide, this`live, this`nextHandle
      ensures Valid() && State() == Step(old(State()), n, Next)
      ensures old(Steady()) ==> Steady()
      ensures old(currentIndex) < n - 1 ==> offset == currentIndex * width && OnlyCurrentActive()
      ensures old(currentIndex) >= n - 1 ==> offset == old(offset) && active[..] == old(active[..])
      ensures TimerArmed() ==> autoSlide == Some(old(nextHandle))
    {
      if currentIndex < n - 1 {
        currentIndex := currentIndex + 1;
        MoveSlider(currentIndex, width);
      }
      StopSlide();
      if !paused {
        StartSlide();
      }
    }

    /** The document's keydown listener: the arrow keys navigate, every other key is
        ignored. */
    method HandleKeyboard(key: string, width: nat)
      requires Valid()
      modifies this`currentIndex, this`offset, active, this`autoSlide, this`live, this`nextHandle
      ensures Valid() && State() == Step(old(State()), n, Key(key))
      ensures old(Steady()) ==> Steady()
      ensures key == "ArrowLeft" && old(currentIndex) > 0 ==> offset == currentIndex * width && OnlyCurrentActive()
      ensures key == "ArrowLeft" && old(currentIndex) == 0 ==> offset == old(offset) && active[..] == old(active[..])
      ensures key == "ArrowRight" && old(currentIndex) < n - 1 ==> offset == currentIndex * width && OnlyCurrentActive()
      ensures key == "ArrowRight" && old(currentIndex) >= n - 1 ==> offset == old(offset) && active[..] == old(active[..])
      ensures (key == "ArrowLeft" || key == "ArrowRight") && TimerArmed() ==> autoSlide == Some(old(nextHandle))
      ensures key != "ArrowLeft" && key != "ArrowRight" ==> unchanged(this) && active[..] == old(active[..])
    {
      match key {
        case "ArrowLeft" => PrevSlide(width);
        case "ArrowRight" => NextSlide(width);
        case _ =>
      }
    }

    /** The pause/play button (present only with controls shown). */
    method TogglePause()
      requires Valid() && config.showControls
      modifies this`paused, this`pauseLabel, this`autoSlide, this`live, this`nextHandle
      ensures Valid() && State() == Step(old(State()), n, Toggle)
      ensures old(Steady()) ==> Steady()
      ensures pauseLabel == if paused then "Play" else "Pause"
      ensures TimerArmed() ==> autoSlide == Some(old(nextHandle))
    {
      if paused {
        StartSlide();
        pauseLabel := "Pause";
      } else {
        StopSlide();
        pauseLabel := "Play";
      }
      paused := !paused;
    }

    /** A click on indicator button `target` (present only with indicators shown). */
    method ClickIndicator(target: nat, width: nat)
      requires Valid() && target < active.Length
      modifies this`currentIndex, this`offset, active, this`autoSlide, this`live, this`nextHandle
      ensures Valid() && State() == Step(old(State()), n, Indicator(target))
      ensures old(Steady()) ==> Steady()
      ensures offset == target * width && OnlyCurrentActive()
      ensures TimerArmed() ==> autoSlide == Some(old(nextHandle))
    {
      StopSlide();
      MoveSlider(target, width);
      if !paused {
        StartSlide();
      }
    }

    /** The pointer enters the slide list: auto-advance stops, the pause flag stays. */
    method MouseEnter()
      requires Valid()
      modifies this`autoSlide, this`live
      ensures Valid() && State() == Step(old(State()), n, Enter)
      ensures old(Steady()) ==> Steady()
    {
      StopSlide();
    }

    /** The pointer leaves the slide list: auto-advance restarts unless the user paused. */
    method MouseLeave()
      requires Valid()
      modifies this`autoSlide, this`live, this`nextHandle
      ensures Valid() && State() == Step(old(State()), n, Leave)
      ensures old(Steady()) ==> Steady()
      ensures paused ==> unchanged(this)
      ensures TimerArmed() && !paused ==> autoSlide == Some(old(nextHandle))
    {
      if !paused {
        StartSlide();
      }
    }
  }

  /** The three-slide walk-through: start, one "next", pause, one more "next". */
  method ThreeSlideWalkthrough()
  {
    var s := new Slider(3, Overlay(Some(1000), None, None));
    assert s.State() == View(0, false, true) && s.NoneActive();
    s.NextSlide(400);
    assert s.State() == View(1, false, true) && s.active[..] == Marks(3, 1);
    s.TogglePause();
    assert s.State() == View(1, true, false) && s.pauseLabel == "Play";
    s.NextSlide(400);
    assert s.State() == View(2, true, false) && s.active[..] == Marks(3, 2) && s.offset == 800;
    s.NextSlide(400);
    assert s.currentIndex == 2;
  }
}
