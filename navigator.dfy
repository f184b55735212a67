/**
 * The full-page section navigator of js/main.js: the module globals
 * `currentSection`, `isScrolling` and `scrollTimeout`, driven by key
 * presses, wheel events, scroll-position syncing and two kinds of timer.
 *
 * Timers are explicit events. `scrollToSection` schedules a 1000 ms timer
 * that clears the lock; several of them can be pending at once (a wheel
 * timer does not look at the lock), so the state counts them. A wheel
 * event replaces the pending 50 ms wheel timer; the state keeps the
 * deltaY captured by the one that is pending.
 *
 * The pure functions below are the specification; the class FullPage
 * holds the same state in fields and is proved against them.
 */
module Navigator {
  import opened Common

  /** One `.hour-section` element: offsetTop, offsetHeight and its data-hour. */
  datatype Section = Section(top: real, height: real, hour: int)

  /** The half-open vertical span [top, top + height) holds `pos`. */
  predicate Contains(s: Section, pos: real)
  {
    s.top <= pos < s.top + s.height
  }

  /** The viewport midpoint that both scroll handlers test against the sections. */
  function Midpoint(scrollY: real, innerHeight: real): real
  {
    scrollY + innerHeight / 2.0
  }

  /** The last section containing `pos`: the one a forward sweep that overwrites keeps. */
  function LastContaining(secs: seq<Section>, pos: real): (r: Option<nat>)
    ensures r.Some? ==> r.value < |secs| && Contains(secs[r.value], pos)
    ensures r.Some? ==> forall j :: r.value < j < |secs| ==> !Contains(secs[j], pos)
    ensures r.None? <==> forall j :: 0 <= j < |secs| ==> !Contains(secs[j], pos)
  {
    if secs == [] then None
    else if Contains(secs[|secs| - 1], pos) then Some(|secs| - 1)
    else LastContaining(secs[..|secs| - 1], pos)
  }

  /** The first section containing `pos`: the one a sweep that stops at the first hit finds. */
  function FirstContaining(secs: seq<Section>, pos: real): (r: Option<nat>)
    ensures r.Some? ==> r.value < |secs| && Contains(secs[r.value], pos)
    ensures r.Some? ==> forall j :: 0 <= j < r.value ==> !Contains(secs[j], pos)
    ensures r.None? <==> forall j :: 0 <= j < |secs| ==> !Contains(secs[j], pos)
  {
    if secs == [] then None
    else if Contains(secs[0], pos) then Some(0)
    else match FirstContaining(secs[1..], pos)
      case None => None
      case Some(k) => Some(k + 1)
  }

  /** No point lies in two sections. */
  ghost predicate Disjoint(secs: seq<Section>)
  {
    forall i, j, pos :: 0 <= i < j < |secs| && Contains(secs[i], pos) ==> !Contains(secs[j], pos)
  }

  /** When the sections do not overlap, the first-hit and the last-hit sweeps agree. */
  lemma FirstIsLastWhenDisjoint(secs: seq<Section>, pos: real)
    requires Disjoint(secs)
    ensures FirstContaining(secs, pos) == LastContaining(secs, pos)
  {
    var f, l := FirstContaining(secs, pos), LastContaining(secs, pos);
    if f.Some? {
      assert l.Some? && f.value <= l.value;
      assert Contains(secs[f.value], pos) && Contains(secs[l.value], pos);
    }
  }

  // ----- the navigator's state and events -----

  /**
   * `current` is currentSection, `scrolling` is isScrolling, `unlocks` the
   * number of pending 1000 ms lock-release timers, and `wheel` the deltaY
   * of the pending 50 ms wheel timer, if any.
   */
  datatype NavState = NavState(current: int, scrolling: bool, unlocks: nat, wheel: Option<real>)

  /** The state at page load, before the initial scroll-position sync. */
  const Initial: NavState := NavState(0, false, 0, None)

  datatype Event =
    | KeyDown(key: string)
    | Wheel(deltaY: real)
    | WheelTimer
    | UnlockTimer
    | Scroll(scrollY: real, innerHeight: real)

  /** What every reachable state satisfies, for `n` sections. */
  predicate Inv(s: NavState, n: nat)
  {
    (s.scrolling ==> s.unlocks > 0) && 0 <= s.current && (s.current < n || s.current == 0)
  }

  /** scrollToSection(index): a range guard, then lock, move and schedule the release. */
  function ScrollTo(s: NavState, n: nat, index: int): (t: NavState)
    ensures index < 0 || index >= n ==> t == s
    ensures 0 <= index < n ==> t.current == index && t.scrolling && t.unlocks == s.unlocks + 1
    ensures t.wheel == s.wheel
  {
    if index < 0 || index >= n then s
    else s.(scrolling := true, current := index, unlocks := s.unlocks + 1)
  }

  /** The index handleKeydown passes to scrollToSection, or None for a key it ignores. */
  function KeyTarget(key: string, current: int, n: nat): Option<int>
  {
    if key == "ArrowDown" || key == "PageDown" || key == " " then Some(current + 1)
    else if key == "ArrowUp" || key == "PageUp" then Some(current - 1)
    else if key == "Home" then Some(0)
    else if key == "End" then Some(n - 1)
    else None
  }

  /** handleKeydown: either nothing changes, or the page locks on a valid section. */
  function OnKey(s: NavState, n: nat, key: string): (t: NavState)
    ensures s.scrolling ==> t == s
    ensures t.wheel == s.wheel
    ensures t == s || (t.scrolling && t.unlocks == s.unlocks + 1 && 0 <= t.current < n)
  {
    if s.scrolling then s
    else match KeyTarget(key, s.current, n)
      case None => s
      case Some(i) => ScrollTo(s, n, i)
  }

  /** Each accepted wheel event replaces the pending wheel timer. */
  function OnWheel(s: NavState, deltaY: real): (t: NavState)
    ensures t.current == s.current && t.scrolling == s.scrolling && t.unlocks == s.unlocks
    ensures t.wheel == if s.scrolling then s.wheel else Some(deltaY)
  {
    if s.scrolling then s else s.(wheel := Some(deltaY))
  }

  /** The step a fired wheel timer takes: down for a positive deltaY, up otherwise. */
  function WheelDirection(deltaY: real): (d: int)
    ensures d == 1 <==> deltaY > 0.0
    ensures d == -1 <==> deltaY <= 0.0
  {
    if deltaY > 0.0 then 1 else -1
  }

  /** The 50 ms wheel timer fires: step from the section current at that moment. */
  function OnWheelTimer(s: NavState, n: nat): (t: NavState)
    ensures t.wheel.None?
    ensures s.wheel.None? ==> t == s
    ensures t.current == s.current ==> t.scrolling == s.scrolling && t.unlocks == s.unlocks
    ensures t.current != s.current ==>
      (t.current == s.current + 1 || t.current == s.current - 1)
      && 0 <= t.current < n && t.scrolling && t.unlocks == s.unlocks + 1
    ensures s.wheel.Some? && 0 <= s.current + WheelDirection(s.wheel.value) < n ==>
      t.current == s.current + WheelDirection(s.wheel.value) && t.scrolling && t.unlocks == s.unlocks + 1
    ensures s.wheel.Some? && !(0 <= s.current + WheelDirection(s.wheel.value) < n) ==> t == s.(wheel := None)
  {
    match s.wheel
    case None => s
    case Some(d) =>
      var next := s.current + WheelDirection(d);
      var t := s.(wheel := None);
      if 0 <= next < n then ScrollTo(t, n, next) else t
  }

  /** One 1000 ms timer fires and clears the lock. */
  function OnUnlockTimer(s: NavState): (t: NavState)
    ensures t.current == s.current && t.wheel == s.wheel
    ensures s.unlocks > 0 ==> !t.scrolling && t.unlocks == s.unlocks - 1
    ensures s.unlocks == 0 ==> t == s
  {
    if s.unlocks == 0 then s else s.(scrolling := false, unlocks := s.unlocks - 1)
  }

  /** updateCurrentSection: adopt the last section under the viewport midpoint. */
  function OnScroll(s: NavState, secs: seq<Section>, pos: real): (t: NavState)
    ensures t.scrolling == s.scrolling && t.unlocks == s.unlocks && t.wheel == s.wheel
    ensures t.current == s.current || (0 <= t.current < |secs| && Contains(secs[t.current], pos))
  {
    if s.scrolling then s
    else match LastContaining(secs, pos)
      case None => s
      case Some(i) => s.(current := i)
  }

  /** One event: it schedules at most one release, and only a release timer consumes one. */
  function Step(secs: seq<Section>, s: NavState, e: Event): (t: NavState)
    ensures t.unlocks <= s.unlocks + 1
    ensures t.unlocks < s.unlocks ==> e.UnlockTimer? && t.unlocks == s.unlocks - 1
  {
    match e
    case KeyDown(key) => OnKey(s, |secs|, key)
    case Wheel(d) => OnWheel(s, d)
    case WheelTimer => OnWheelTimer(s, |secs|)
    case UnlockTimer => OnUnlockTimer(s)
    case Scroll(y, h) => OnScroll(s, secs, Midpoint(y, h))
  }

  function Run(secs: seq<Section>, s: NavState, events: seq<Event>): NavState
    decreases |events|
  {
    if events == [] then s else Run(secs, Step(secs, s, events[0]), events[1..])
  }

  // ----- properties of the specification -----

  lemma StepKeepsInv(secs: seq<Section>, s: NavState, e: Event)
    requires Inv(s, |secs|)
    ensures Inv(Step(secs, s, e), |secs|)
  {
  }

  lemma {:induction false} RunKeepsInv(secs: seq<Section>, s: NavState, events: seq<Event>)
    requires Inv(s, |secs|)
    ensures Inv(Run(secs, s, events), |secs|)
    decreases |events|
  {
    if events != [] {
      StepKeepsInv(secs, s, events[0]);
      RunKeepsInv(secs, Step(secs, s, events[0]), events[1..]);
    }
  }

  /** The lock is released only by a lock-release timer. */
  lemma OnlyTimerUnlocks(secs: seq<Section>, s: NavState, e: Event)
    requires s.scrolling && !Step(secs, s, e).scrolling
    ensures e.UnlockTimer?
  {
  }

  /** While locked, key presses, wheel events and scroll syncing change nothing. */
  lemma LockedIgnoresInput(secs: seq<Section>, s: NavState, e: Event)
    requires s.scrolling && (e.KeyDown? || e.Wheel? || e.Scroll?)
    ensures Step(secs, s, e) == s
  {
  }

  /** A target in range is adopted even when it is the current section. */
  lemma ScrollToSameIndexStillLocks(s: NavState, n: nat)
    requires 0 <= s.current < n
    ensures ScrollTo(s, n, s.current).scrolling
    ensures ScrollTo(s, n, s.current).unlocks == s.unlocks + 1
  {
  }

  /** The keyboard map: steps, jumps, no wrap-around, other keys ignored. */
  lemma KeyMap(s: NavState, n: nat, key: string)
    requires !s.scrolling && Inv(s, n)
    ensures var t := OnKey(s, n, key);
      && ((key == "ArrowDown" || key == "PageDown" || key == " ") ==>
            (if s.current + 1 < n then t.current == s.current + 1 && t.scrolling else t == s))
      && ((key == "ArrowUp" || key == "PageUp") ==>
            (if s.current >= 1 then t.current == s.current - 1 && t.scrolling else t == s))
      && (key == "Home" ==> (if n > 0 then t.current == 0 && t.scrolling else t == s))
      && (key == "End" ==> (if n > 0 then t.current == n - 1 && t.scrolling else t == s))
      && (KeyTarget(key, s.current, n).None? ==> t == s)
      && 0 <= t.current && (t.current < n || t.current == 0)
  {
  }

  function WheelEvents(deltas: seq<real>): (es: seq<Event>)
    ensures |es| == |deltas|
    ensures forall i :: 0 <= i < |deltas| ==> es[i] == Wheel(deltas[i])
  {
    if deltas == [] then [] else [Wheel(deltas[0])] + WheelEvents(deltas[1..])
  }

  /** A burst of wheel events on an unlocked navigator leaves one pending timer, the last one's. */
  lemma {:induction false} WheelBurst(secs: seq<Section>, s: NavState, deltas: seq<real>)
    requires !s.scrolling && deltas != []
    ensures Run(secs, s, WheelEvents(deltas)) == s.(wheel := Some(deltas[|deltas| - 1]))
    decreases |deltas|
  {
    var es := WheelEvents(deltas);
    assert es[1..] == WheelEvents(deltas[1..]);
    var t := Step(secs, s, es[0]);
    if |deltas| == 1 {
      assert es[1..] == [];
    } else {
      WheelBurst(secs, t, deltas[1..]);
    }
  }

  /** A wheel burst followed by its timer moves at most one section, in the last event's direction. */
  lemma WheelBurstThenTimer(secs: seq<Section>, s: NavState, deltas: seq<real>)
    requires !s.scrolling && deltas != [] && Inv(s, |secs|)
    ensures var last := deltas[|deltas| - 1];
      var t := Run(secs, s, WheelEvents(deltas) + [WheelTimer]);
      var next := s.current + WheelDirection(last);
      && t.wheel.None?
      && (0 <= next < |secs| ==> t.current == next && t.scrolling)
      && (!(0 <= next < |secs|) ==> t.current == s.current && !t.scrolling)
  {
    var es := WheelEvents(deltas);
    RunAppend(secs, s, es, [WheelTimer]);
    WheelBurst(secs, s, deltas);
  }

  lemma {:induction false} RunAppend(secs: seq<Section>, s: NavState, a: seq<Event>, b: seq<Event>)
    ensures Run(secs, s, a + b) == Run(secs, Run(secs, s, a), b)
    decreases |a|
  {
    if a != [] {
      assert (a + b)[0] == a[0] && (a + b)[1..] == a[1..] + b;
      RunAppend(secs, Step(secs, s, a[0]), a[1..], b);
    } else {
      assert a + b == b;
    }
  }

  /**
   * The wheel timer does not look at the lock: a key press inside its 50 ms window locks the page,
   * the timer then moves a second section and schedules a second release, and the first release
   * unlocks the page while the second is still pending.
   */
  lemma WheelTimerIgnoresLock(secs: seq<Section>, s: NavState, d: real)
    requires Inv(s, |secs|) && !s.scrolling && d > 0.0 && s.current + 2 < |secs|
    ensures var t := Run(secs, s, [Wheel(d), KeyDown("ArrowDown"), WheelTimer, UnlockTimer]);
      !t.scrolling && t.unlocks == s.unlocks + 1 && t.current == s.current + 2
  {
    var es := [Wheel(d), KeyDown("ArrowDown"), WheelTimer, UnlockTimer];
    var s1 := Step(secs, s, es[0]);
    assert s1 == s.(wheel := Some(d));
    var s2 := Step(secs, s1, es[1]);
    assert s2 == s1.(current := s.current + 1, scrolling := true, unlocks := s.unlocks + 1);
    var s3 := Step(secs, s2, es[2]);
    assert s3 == s2.(current := s.current + 2, wheel := None, unlocks := s.unlocks + 2);
    var s4 := Step(secs, s3, es[3]);
    assert s4 == s3.(scrolling := false, unlocks := s.unlocks + 1);
    assert Run(secs, s4, []) == s4;
    assert Run(secs, s3, [UnlockTimer]) == s4;
    assert Run(secs, s2, [WheelTimer, UnlockTimer]) == s4;
    assert Run(secs, s1, [KeyDown("ArrowDown"), WheelTimer, UnlockTimer]) == s4;
  }

  /**
   * A native scroll synced between a wheel event and its timer: the timer steps from the section the
   * scroll adopted, not from the one current at the wheel event.
   */
  lemma ScrollBeforeWheelTimer(secs: seq<Section>, s: NavState, d: real, y: real, h: real)
    requires !s.scrolling
    ensures var m, next := OnScroll(s, secs, Midpoint(y, h)).current, OnScroll(s, secs, Midpoint(y, h)).current + WheelDirection(d);
      var t := Run(secs, s, [Wheel(d), Scroll(y, h), WheelTimer]);
      && (0 <= next < |secs| ==> t.current == next && t.scrolling && t.unlocks == s.unlocks + 1)
      && (!(0 <= next < |secs|) ==> t.current == m && !t.scrolling && t.unlocks == s.unlocks)
      && t.wheel.None?
  {
    var s1 := Step(secs, s, Wheel(d));
    assert s1 == s.(wheel := Some(d));
    var s2 := Step(secs, s1, Scroll(y, h));
    assert s2 == OnScroll(s, secs, Midpoint(y, h)).(wheel := Some(d));
    var s3 := Step(secs, s2, WheelTimer);
    assert Run(secs, s3, []) == s3;
    assert Run(secs, s2, [WheelTimer]) == s3;
    assert Run(secs, s1, [Scroll(y, h), WheelTimer]) == s3;
  }

  /** Scroll syncing adopts the last section under the midpoint, or keeps the old one. */
  lemma ScrollSync(secs: seq<Section>, s: NavState, scrollY: real, innerHeight: real)
    requires !s.scrolling
    ensures var t := Step(secs, s, Scroll(scrollY, innerHeight));
      var pos := Midpoint(scrollY, innerHeight);
      && t.scrolling == s.scrolling && t.unlocks == s.unlocks && t.wheel == s.wheel
      && ((exists j :: 0 <= j < |secs| && Contains(secs[j], pos)) ==>
            0 <= t.current < |secs| && Contains(secs[t.current], pos)
            && forall j :: t.current < j < |secs| ==> !Contains(secs[j], pos))
      && ((forall j :: 0 <= j < |secs| ==> !Contains(secs[j], pos)) ==> t.current == s.current)
  {
  }

  // ----- the state held in place -----

  class FullPage {
    /** The `.hour-section` elements, fixed when the script loads. */
    const sections: array<Section>
    var currentSection: int
    var isScrolling: bool
    var pendingUnlocks: nat
    var pendingWheel: Option<real>

    function State(): NavState
      reads this
    {
      NavState(currentSection, isScrolling, pendingUnlocks, pendingWheel)
    }

    ghost predicate Valid()
      reads this
    {
      Inv(State(), sections.Length)
    }

    /** Script load: the globals start at 0 / false, then updateCurrentSection runs once. */
    constructor (sections: array<Section>, scrollY: real, innerHeight: real)
      ensures this.sections == sections && Valid()
      ensures State() == OnScroll(Initial, sections[..], Midpoint(scrollY, innerHeight))
    {
      this.sections := sections;
      currentSection := 0;
      isScrolling := false;
      pendingUnlocks := 0;
      pendingWheel := None;
      new;
      UpdateCurrentSection(scrollY, innerHeight);
    }

    method ScrollToSection(index: int)
      requires Valid()
      modifies this
      ensures Valid()
      ensures State() == ScrollTo(old(State()), sections.Length, index)
    {
      if index < 0 || index >= sections.Length {
        return;
      }
      isScrolling := true;
      currentSection := index;
      pendingUnlocks := pendingUnlocks + 1;
    }

    method HandleWheel(deltaY: real)
      requires Valid()
      modifies this
      ensures Valid()
      ensures State() == OnWheel(old(State()), deltaY)
    {
      if isScrolling {
        return;
      }
      pendingWheel := Some(deltaY);
    }

    /** The pending 50 ms wheel timer fires. */
    method FireWheelTimer()
      requires Valid() && pendingWheel.Some?
      modifies this
      ensures Valid()
      ensures State() == OnWheelTimer(old(State()), sections.Length)
    {
      var direction := if pendingWheel.value > 0.0 then 1 else -1;
      pendingWheel := None;
      var nextSection := currentSection + direction;
      if nextSection >= 0 && nextSection < sections.Length {
        ScrollToSection(nextSection);
      }
    }

    /** One pending 1000 ms lock-release timer fires. */
    method FireUnlockTimer()
      requires Valid() && pendingUnlocks > 0
      modifies this
      ensures Valid()
      ensures State() == OnUnlockTimer(old(State()))
    {
      isScrolling := false;
      pendingUnlocks := pendingUnlocks - 1;
    }

    method HandleKeydown(key: string)
      requires Valid()
      modifies this
      ensures Valid()
      ensures State() == OnKey(old(State()), sections.Length, key)
    {
      if isScrolling {
        return;
      }
      if key == "ArrowDown" || key == "PageDown" || key == " " {
        ScrollToSection(currentSection + 1);
      } else if key == "ArrowUp" || key == "PageUp" {
        ScrollToSection(currentSection - 1);
      } else if key == "Home" {
        ScrollToSection(0);
      } else if key == "End" {
        ScrollToSection(sections.Length - 1);
      }
    }

    method UpdateCurrentSection(scrollY: real, innerHeight: real)
      requires Inv(State(), sections.Length)
      modifies this
      ensures Valid()
      ensures State() == OnScroll(old(State()), sections[..], Midpoint(scrollY, innerHeight))
    {
      if isScrolling {
        return;
      }
      var scrollPosition := scrollY + innerHeight / 2.0;
      var index := 0;
      while index < sections.Length
        invariant 0 <= index <= sections.Length
        invariant isScrolling == old(isScrolling) && pendingUnlocks == old(pendingUnlocks)
        invariant pendingWheel == old(pendingWheel)
        invariant currentSection == match LastContaining(sections[..index], scrollPosition)
                                    case None => old(currentSection)
                                    case Some(k) => k
      {
        assert sections[..index + 1][..index] == sections[..index];
        if Contains(sections[index], scrollPosition) {
          currentSection := index;
        }
        index := index + 1;
      }
      assert sections[..index] == sections[..];
    }

    /** The event dispatcher: one input or timer event, as Step describes it. */
    method Handle(e: Event)
      requires Valid()
      requires e.WheelTimer? ==> pendingWheel.Some?
      requires e.UnlockTimer? ==> pendingUnlocks > 0
      modifies this
      ensures Valid()
      ensures State() == Step(sections[..], old(State()), e)
    {
      match e
      case KeyDown(key) => HandleKeydown(key);
      case Wheel(d) => HandleWheel(d);
      case WheelTimer => FireWheelTimer();
      case UnlockTimer => FireUnlockTimer();
      case Scroll(y, h) => UpdateCurrentSection(y, h);
    }
  }
}
