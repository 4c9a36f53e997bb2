/**
 * The auto-advance timers of both carousels. Each carousel keeps the handle of its
 * interval in one page-wide slot (`window.carouselInterval`, `window.testimonialInterval`);
 * pointer and lifecycle events clear the slot or fill it when it is empty. Time is left
 * out: every callback is one event.
 */
module Scheduler {
  import opened Js
  import opened ScrollLoop

  /** A page-wide handle slot: empty (`undefined` or `null`, both falsy) or an interval id. */
  datatype Handle = NoHandle | Handle(id: nat)

  /**
   * The two slots, the intervals the browser is still running for each strip, the number
   * of testimonial start-up timeouts that have not fired yet, and the next id the browser hands out.
   */
  datatype Timers = Timers(
    carouselInterval: Handle,
    testimonialInterval: Handle,
    logoLive: set<nat>,
    testimonialLive: set<nat>,
    pendingTestimonialStarts: nat,
    nextId: nat)

  /** The events that touch the slots. `...Mount` is a ref callback receiving the element. */
  datatype Event =
    | LogoMouseEnter | LogoMouseLeave | LogoMount
    | TestimonialMouseEnter | TestimonialMouseLeave | TestimonialMount
    | TestimonialStartFires
    | Unmount

  /** The page before any event: both slots empty, nothing scheduled. */
  const Initial := Timers(NoHandle, NoHandle, {}, {}, 0, 1)

  /** The ids a slot accounts for. */
  function Held(h: Handle): (s: set<nat>)
    ensures h == NoHandle <==> s == {}
    ensures h.Handle? ==> s == {h.id}
  {
    match h
    case NoHandle => {}
    case Handle(id) => {id}
  }

  /** Every id the browser has handed out is below `nextId`. */
  predicate IdsIssued(t: Timers)
  {
    && 0 < t.nextId
    && (forall id :: id in t.logoLive ==> id < t.nextId)
    && (forall id :: id in t.testimonialLive ==> id < t.nextId)
    && (t.carouselInterval.Handle? ==> t.carouselInterval.id < t.nextId)
    && (t.testimonialInterval.Handle? ==> t.testimonialInterval.id < t.nextId)
  }

  /** The logo strip's discipline: the browser runs exactly the interval the slot holds, if any. */
  predicate LogoSingle(t: Timers)
  {
    t.logoLive == Held(t.carouselInterval)
  }

  /** The same discipline for the testimonial strip. */
  predicate TestimonialSingle(t: Timers)
  {
    t.testimonialLive == Held(t.testimonialInterval)
  }

  /** Mouse-enter on the logo strip (App.jsx:369-374): clear the interval in the slot and empty it. */
  function LogoEnter(t: Timers): (r: Timers)
    ensures r.carouselInterval == NoHandle
    ensures r.logoLive == t.logoLive - Held(t.carouselInterval)
    ensures r.(carouselInterval := t.carouselInterval, logoLive := t.logoLive) == t
  {
    match t.carouselInterval
    case NoHandle => t
    case Handle(id) => t.(carouselInterval := NoHandle, logoLive := t.logoLive - {id})
  }

  /**
   * Mouse-leave on the logo strip, or its ref callback (App.jsx:376-379, 406-412): create an
   * interval and fill the slot in the same step, only when the slot is empty.
   */
  function LogoStart(t: Timers): (r: Timers)
    ensures t.carouselInterval.Handle? ==> r == t
    ensures t.carouselInterval == NoHandle ==>
      && r.carouselInterval == Handle(t.nextId)
      && r.logoLive == t.logoLive + {t.nextId}
      && r.nextId == t.nextId + 1
      && r.testimonialInterval == t.testimonialInterval && r.testimonialLive == t.testimonialLive
      && r.pendingTestimonialStarts == t.pendingTestimonialStarts
  {
    if t.carouselInterval.Handle? then t
    else t.(carouselInterval := Handle(t.nextId), logoLive := t.logoLive + {t.nextId}, nextId := t.nextId + 1)
  }

  /** Mouse-enter on the testimonial strip (App.jsx:604-610). */
  function TestimonialEnter(t: Timers): (r: Timers)
    ensures r.testimonialInterval == NoHandle
    ensures r.testimonialLive == t.testimonialLive - Held(t.testimonialInterval)
    ensures r.(testimonialInterval := t.testimonialInterval, testimonialLive := t.testimonialLive) == t
  {
    match t.testimonialInterval
    case NoHandle => t
    case Handle(id) => t.(testimonialInterval := NoHandle, testimonialLive := t.testimonialLive - {id})
  }

  /** Mouse-leave on the testimonial strip (App.jsx:611-613): create and fill at once, only when empty. */
  function TestimonialLeave(t: Timers): (r: Timers)
    ensures t.testimonialInterval.Handle? ==> r == t
    ensures t.testimonialInterval == NoHandle ==>
      && r.testimonialInterval == Handle(t.nextId)
      && r.testimonialLive == t.testimonialLive + {t.nextId}
      && r.nextId == t.nextId + 1
      && r.carouselInterval == t.carouselInterval && r.logoLive == t.logoLive
      && r.pendingTestimonialStarts == t.pendingTestimonialStarts
  {
    if t.testimonialInterval.Handle? then t
    else t.(testimonialInterval := Handle(t.nextId), testimonialLive := t.testimonialLive + {t.nextId}, nextId := t.nextId + 1)
  }

  /**
   * The testimonial ref callback (App.jsx:641-647): when the slot is empty, schedule a
   * start-up timeout; the slot itself stays empty until that timeout fires.
   */
  function TestimonialMountStep(t: Timers): (r: Timers)
    ensures r.testimonialInterval == t.testimonialInterval && r.testimonialLive == t.testimonialLive
    ensures r.pendingTestimonialStarts == t.pendingTestimonialStarts + (if t.testimonialInterval == NoHandle then 1 else 0)
    ensures r.(pendingTestimonialStarts := t.pendingTestimonialStarts) == t
  {
    if t.testimonialInterval.Handle? then t
    else t.(pendingTestimonialStarts := t.pendingTestimonialStarts + 1)
  }

  /**
   * A start-up timeout fires (App.jsx:648-649, 669): it creates an interval and stores it in the
   * slot without looking at what the slot already holds.
   */
  function TestimonialStart(t: Timers): (r: Timers)
    ensures t.pendingTestimonialStarts == 0 ==> r == t
    ensures t.pendingTestimonialStarts > 0 ==>
      && r.testimonialInterval == Handle(t.nextId)
      && r.testimonialLive == t.testimonialLive + {t.nextId}
      && r.pendingTestimonialStarts == t.pendingTestimonialStarts - 1
      && r.nextId == t.nextId + 1
      && r.carouselInterval == t.carouselInterval && r.logoLive == t.logoLive
  {
    if t.pendingTestimonialStarts == 0 then t
    else t.(testimonialInterval := Handle(t.nextId), testimonialLive := t.testimonialLive + {t.nextId},
            pendingTestimonialStarts := t.pendingTestimonialStarts - 1, nextId := t.nextId + 1)
  }

  /** Unmount cleanup (App.jsx:66-77): clear both slots' intervals and empty both slots. */
  function UnmountStep(t: Timers): (r: Timers)
    ensures r.carouselInterval == NoHandle && r.testimonialInterval == NoHandle
    ensures r.logoLive == t.logoLive - Held(t.carouselInterval)
    ensures r.testimonialLive == t.testimonialLive - Held(t.testimonialInterval)
    ensures r.pendingTestimonialStarts == t.pendingTestimonialStarts && r.nextId == t.nextId
  {
    TestimonialEnter(LogoEnter(t))
  }

  /** The effect of one event. */
  function Step(t: Timers, e: Event): Timers
  {
    match e
    case LogoMouseEnter => LogoEnter(t)
    case LogoMouseLeave => LogoStart(t)
    case LogoMount => LogoStart(t)
    case TestimonialMouseEnter => TestimonialEnter(t)
    case TestimonialMouseLeave => TestimonialLeave(t)
    case TestimonialMount => TestimonialMountStep(t)
    case TestimonialStartFires => TestimonialStart(t)
    case Unmount => UnmountStep(t)
  }

  /** The effect of a sequence of events, in order. */
  function Run(t: Timers, events: seq<Event>): Timers
    decreases |events|
  {
    if events == [] then t else Run(Step(t, events[0]), events[1..])
  }

  /** Every event keeps the issued-id bookkeeping and the logo strip's single-interval discipline. */
  lemma StepKeepsLogoSingle(t: Timers, e: Event)
    requires IdsIssued(t) && LogoSingle(t)
    ensures IdsIssued(Step(t, e)) && LogoSingle(Step(t, e))
  {}

  /** No sequence of events leaves the logo strip with an interval its slot does not hold, so never with two. */
  lemma {:induction false} LogoNeverTwoIntervals(t: Timers, events: seq<Event>)
    requires IdsIssued(t) && LogoSingle(t)
    ensures LogoSingle(Run(t, events)) && |Run(t, events).logoLive| <= 1
    decreases |events|
  {
    if events == [] {
      assert |Held(t.carouselInterval)| <= 1;
    } else {
      StepKeepsLogoSingle(t, events[0]);
      LogoNeverTwoIntervals(Step(t, events[0]), events[1..]);
    }
  }

  /** From the initial page, every sequence of events keeps at most one logo interval running. */
  lemma LogoSingleFromInitial(events: seq<Event>)
    ensures |Run(Initial, events).logoLive| <= 1
  {
    LogoNeverTwoIntervals(Initial, events);
  }

  /**
   * The gap between the testimonial ref callback and its start-up timeout: a mouse-leave in
   * between fills the slot, the timeout then overwrites it, and the first interval remains
   * running with no slot holding it; mouse-enter then stops only the second.
   */
  lemma TestimonialLeaveDuringStartupLeaks()
    ensures |Run(Initial, [TestimonialMount, TestimonialMouseLeave, TestimonialStartFires]).testimonialLive| == 2
    ensures var t := Run(Initial, [TestimonialMount, TestimonialMouseLeave, TestimonialStartFires, TestimonialMouseEnter, Unmount]);
      t.testimonialInterval == NoHandle && t.testimonialLive == {1}
  {
    var t1 := Step(Initial, TestimonialMount);
    var t2 := Step(t1, TestimonialMouseLeave);
    var t3 := Step(t2, TestimonialStartFires);
    assert t3.testimonialLive == {1, 2};
    assert Run(Initial, [TestimonialMount, TestimonialMouseLeave, TestimonialStartFires]) == t3 by {
      assert [TestimonialMount, TestimonialMouseLeave, TestimonialStartFires][1..] == [TestimonialMouseLeave, TestimonialStartFires];
      assert [TestimonialMouseLeave, TestimonialStartFires][1..] == [TestimonialStartFires];
    }
    var t4 := Step(t3, TestimonialMouseEnter);
    var t5 := Step(t4, Unmount);
    assert t5.testimonialLive == {1};
    var evs := [TestimonialMount, TestimonialMouseLeave, TestimonialStartFires, TestimonialMouseEnter, Unmount];
    assert evs[1..][1..][1..][1..][1..] == [];
  }

  /** The start-up timeout re-checking the slot when it fires, as mouse-leave does. */
  function CorrectedTestimonialStart(t: Timers): (r: Timers)
    ensures t.pendingTestimonialStarts > 0 && t.testimonialInterval == NoHandle ==>
      r == TestimonialLeave(t).(pendingTestimonialStarts := t.pendingTestimonialStarts - 1)
    ensures t.testimonialInterval.Handle? ==> r.testimonialInterval == t.testimonialInterval && r.testimonialLive == t.testimonialLive
  {
    if t.pendingTestimonialStarts == 0 then t
    else TestimonialLeave(t).(pendingTestimonialStarts := t.pendingTestimonialStarts - 1)
  }

  /** The events with the corrected start-up timeout. */
  function CorrectedStep(t: Timers, e: Event): Timers
  {
    if e == TestimonialStartFires then CorrectedTestimonialStart(t) else Step(t, e)
  }

  function CorrectedRun(t: Timers, events: seq<Event>): Timers
    decreases |events|
  {
    if events == [] then t else CorrectedRun(CorrectedStep(t, events[0]), events[1..])
  }

  /** With the re-check, every event keeps both strips' single-interval discipline. */
  lemma CorrectedStepKeepsSingle(t: Timers, e: Event)
    requires IdsIssued(t) && LogoSingle(t) && TestimonialSingle(t)
    ensures var r := CorrectedStep(t, e); IdsIssued(r) && LogoSingle(r) && TestimonialSingle(r)
  {
    match e
    case TestimonialStartFires =>
      if t.pendingTestimonialStarts > 0 && t.testimonialInterval == NoHandle {
        assert t.nextId !in t.testimonialLive;
      }
    case _ =>
      StepKeepsLogoSingle(t, e);
  }

  /** With the re-check, every sequence of events keeps both strips to one interval each. */
  lemma {:induction false} CorrectedNeverTwoIntervals(t: Timers, events: seq<Event>)
    requires IdsIssued(t) && LogoSingle(t) && TestimonialSingle(t)
    ensures var r := CorrectedRun(t, events);
      LogoSingle(r) && TestimonialSingle(r) && |r.logoLive| <= 1 && |r.testimonialLive| <= 1
    decreases |events|
  {
    if events == [] {
      assert |Held(t.carouselInterval)| <= 1 && |Held(t.testimonialInterval)| <= 1;
    } else {
      CorrectedStepKeepsSingle(t, events[0]);
      CorrectedNeverTwoIntervals(CorrectedStep(t, events[0]), events[1..]);
    }
  }

  /** The page's `window` and the browser's interval table, as the handlers change them. */
  class Window {
    var carouselInterval: Handle
    var testimonialInterval: Handle
    var logoLive: set<nat>
    var testimonialLive: set<nat>
    var pendingTestimonialStarts: nat
    var nextId: nat

    function State(): Timers
      reads this
    {
      Timers(carouselInterval, testimonialInterval, logoLive, testimonialLive, pendingTestimonialStarts, nextId)
    }

    constructor ()
      ensures State() == Initial
    {
      carouselInterval, testimonialInterval := NoHandle, NoHandle;
      logoLive, testimonialLive := {}, {};
      pendingTestimonialStarts, nextId := 0, 1;
    }

    /** `setInterval` for one strip: the browser's next id, now running. */
    method NewId() returns (id: nat)
      modifies this`nextId
      ensures id == old(nextId) && nextId == id + 1
    {
      id := nextId;
      nextId := nextId + 1;
    }

    method OnLogoMouseEnter()
      modifies this
      ensures State() == LogoEnter(old(State()))
    {
      if carouselInterval.Handle? {
        logoLive := logoLive - {carouselInterval.id};
        carouselInterval := NoHandle;
      }
    }

    method OnLogoMouseLeave()
      modifies this
      ensures State() == LogoStart(old(State()))
    {
      if carouselInterval == NoHandle {
        var id := NewId();
        logoLive := logoLive + {id};
        carouselInterval := Handle(id);
      }
    }

    /** The logo ref callback: with an element and an empty slot, reset the element's sample and start. */
    method LogoRef(el: Strip?)
      modifies this, el
      ensures el == null ==> State() == old(State())
      ensures el != null ==> State() == LogoStart(old(State()))
      ensures el != null && old(carouselInterval) == NoHandle ==> el.previousScrollLeft == Defined(0.0)
      ensures el != null && old(carouselInterval).Handle? ==> el.previousScrollLeft == old(el.previousScrollLeft)
      ensures el != null ==> el.scrollLeft == old(el.scrollLeft) && el.scrollWidth == old(el.scrollWidth) && el.clientWidth == old(el.clientWidth)
    {
      if el != null && carouselInterval == NoHandle {
        el.previousScrollLeft := Defined(0.0);
        var id := NewId();
        logoLive := logoLive + {id};
        carouselInterval := Handle(id);
      }
    }

    method OnTestimonialMouseEnter()
      modifies this
      ensures State() == TestimonialEnter(old(State()))
    {
      if testimonialInterval.Handle? {
        testimonialLive := testimonialLive - {testimonialInterval.id};
        testimonialInterval := NoHandle;
      }
    }

    method OnTestimonialMouseLeave()
      modifies this
      ensures State() == TestimonialLeave(old(State()))
    {
      if testimonialInterval == NoHandle {
        var id := NewId();
        testimonialLive := testimonialLive + {id};
        testimonialInterval := Handle(id);
      }
    }

    /** The testimonial ref callback: with an element and an empty slot, reset the sample and schedule the start. */
    method TestimonialRef(el: Strip?)
      modifies this, el
      ensures el == null ==> State() == old(State())
      ensures el != null ==> State() == TestimonialMountStep(old(State()))
      ensures el != null && old(testimonialInterval) == NoHandle ==> el.previousScrollLeft == Defined(0.0)
      ensures el != null && old(testimonialInterval).Handle? ==> el.previousScrollLeft == old(el.previousScrollLeft)
      ensures el != null ==> el.scrollLeft == old(el.scrollLeft) && el.scrollWidth == old(el.scrollWidth) && el.clientWidth == old(el.clientWidth)
    {
      if el != null && testimonialInterval == NoHandle {
        el.previousScrollLeft := Defined(0.0);
        pendingTestimonialStarts := pendingTestimonialStarts + 1;
      }
    }

    /** A pending start-up timeout fires. */
    method OnTestimonialStartFires()
      modifies this
      ensures State() == TestimonialStart(old(State()))
    {
      if pendingTestimonialStarts > 0 {
        pendingTestimonialStarts := pendingTestimonialStarts - 1;
        var id := NewId();
        testimonialLive := testimonialLive + {id};
        testimonialInterval := Handle(id);
      }
    }

    method OnUnmount()
      modifies this
      ensures State() == UnmountStep(old(State()))
    {
      OnLogoMouseEnter();
      OnTestimonialMouseEnter();
    }
  }
}
