/**
 * The stats count-up: when the section becomes visible, stat i starts i * 300 ms later
 * and then ticks at 60 frames per second for 2000 ms, showing an ease-out value.
 */
module Counter {

  const DurationMs := 2000
  const FrameRateHz := 60
  const StaggerMs := 300

  /** `Math.round(n / d)` for a positive `d`: the nearest integer, halves rounding up. */
  function RoundDiv(n: nat, d: nat): (r: nat)
    requires 0 < d
    ensures 2 * d * r <= 2 * n + d < 2 * d * r + 2 * d
  {
    (2 * n + d) / (2 * d)
  }

  /** `Math.round(duration / (1000 / 60))`, exactly: 120 frames. */
  const TotalFrames: nat := RoundDiv(DurationMs * FrameRateHz, 1000)

  /** One figure of the stats section: it counts from `start` to `end`. */
  datatype Stat = Stat(start: int, end: int)

  /** The four figures the page shows. */
  const StatsData := [Stat(0, 15), Stat(0, 75), Stat(0, 10), Stat(0, 98)]

  /** Ease-out progress `p * (2 - p)` with `p = frame / T`, scaled by T * T to stay an integer. */
  function EasedProgress(frame: nat): (a: int)
    requires frame <= TotalFrames
    ensures 0 <= a <= TotalFrames * TotalFrames
  {
    assert TotalFrames == 120;
    var a := frame * (2 * TotalFrames - frame);
    assert TotalFrames * TotalFrames - a == (TotalFrames - frame) * (TotalFrames - frame);
    a
  }

  /** Progress never drops from one frame to a later one. */
  lemma EasedProgressMonotone(f: nat, g: nat)
    requires f <= g <= TotalFrames
    ensures EasedProgress(f) <= EasedProgress(g)
  {
    assert TotalFrames == 120;
    assert EasedProgress(g) - EasedProgress(f) == (g - f) * (2 * TotalFrames - f - g);
  }

  /**
   * The value stat shows at `frame`: `start + Math.floor(eased * (end - start))`, in exact
   * arithmetic (integer division by the positive T * T is the floor).
   */
  function FrameValue(stat: Stat, frame: nat): (v: int)
    requires frame <= TotalFrames
    ensures stat.start <= stat.end ==> stat.start <= v <= stat.end
    ensures frame == 0 ==> v == stat.start
    ensures frame == TotalFrames ==> v == stat.end
  {
    assert TotalFrames == 120;
    var a := EasedProgress(frame);
    var d := stat.end - stat.start;
    var n := a * d;
    if 0 <= d then
      MulBetween(a, TotalFrames * TotalFrames, d);
      DivBetween(n, TotalFrames * TotalFrames, d);
      stat.start + n / (TotalFrames * TotalFrames)
    else
      stat.start + n / (TotalFrames * TotalFrames)
  }

  lemma MulBetween(a: int, m: int, d: int)
    requires 0 <= a <= m && 0 <= d
    ensures 0 <= a * d <= m * d
  {}

  lemma DivBetween(n: int, m: int, d: int)
    requires 0 < m && 0 <= n <= m * d
    ensures 0 <= n / m <= d
  {
    assert m * d / m == d;
    DivMonotone(n, m * d, m);
  }

  lemma DivMonotone(x: int, y: int, k: int)
    requires x <= y && 0 < k
    ensures x / k <= y / k
  {
    var qx, qy := x / k, y / k;
    assert x == k * qx + x % k && y == k * qy + y % k;
    if qx > qy {
      assert k * qx >= k * qy + k by { MulStep(k, qy, qx); }
    }
  }

  lemma MulStep(k: int, a: int, b: int)
    requires 0 < k && a < b
    ensures k * b >= k * a + k
  {
    var c := b - a;
    assert k * b == k * a + k * c;
    MulAtLeast(k, c);
  }

  lemma MulAtLeast(k: int, c: int)
    requires 0 < k && 1 <= c
    ensures k * c >= k
  {}

  /** A stat's value never drops as its frames advance. */
  lemma FrameValueMonotone(stat: Stat, f: nat, g: nat)
    requires stat.start <= stat.end && f <= g <= TotalFrames
    ensures FrameValue(stat, f) <= FrameValue(stat, g)
  {
    var d := stat.end - stat.start;
    EasedProgressMonotone(f, g);
    assert EasedProgress(f) * d <= EasedProgress(g) * d by { MulLe(EasedProgress(f), EasedProgress(g), d); }
    DivMonotone(EasedProgress(f) * d, EasedProgress(g) * d, TotalFrames * TotalFrames);
  }

  lemma MulLe(a: int, b: int, d: int)
    requires a <= b && 0 <= d
    ensures a * d <= b * d
  {}

  /** When stat i's start-up timeout fires: i * 300 ms after the section became visible. */
  function StartDelayMs(index: nat): (ms: nat)
    ensures ms / StaggerMs == index && ms % StaggerMs == 0
  {
    index * StaggerMs
  }

  /** By `elapsed` ms after the section became visible, exactly the stats with index at most elapsed / 300 have started. */
  lemma StartedByElapsed(index: nat, elapsed: nat)
    ensures StartDelayMs(index) <= elapsed <==> index <= elapsed / StaggerMs
  {
    var q := elapsed / StaggerMs;
    assert elapsed == StaggerMs * q + elapsed % StaggerMs;
    if index <= q {
      assert StartDelayMs(index) <= StaggerMs * q by { MulLe(index, q, StaggerMs); }
    } else {
      assert StartDelayMs(index) >= StaggerMs * q + StaggerMs by { MulLe(q + 1, index, StaggerMs); }
    }
  }

  /** At 1000 ms all four delays (0, 300, 600, 900 ms) have passed. */
  lemma AllFourStartedAt1000()
    ensures forall i :: 0 <= i < |StatsData| ==> StartDelayMs(i) <= 1000
  {}

  /** A running count-up interval: the stat it drives and its `statFrame` counter. */
  datatype Ticker = Ticker(index: nat, frame: nat)

  /**
   * The section's state: the displayed values, the visibility flag, the stats whose
   * start-up timeout is still pending, and the intervals still ticking.
   */
  datatype Section = Section(countValues: seq<int>, statsVisible: bool, pending: set<nat>, tickers: seq<Ticker>)

  /** Each stat's `start`, in order. */
  function Starts(stats: seq<Stat>): (r: seq<int>)
    ensures |r| == |stats| && forall i :: 0 <= i < |stats| ==> r[i] == stats[i].start
  {
    seq(|stats|, i requires 0 <= i < |stats| => stats[i].start)
  }

  /** Every stat index. */
  function Indices(n: nat): (r: set<nat>)
    ensures forall i: nat :: i in r <==> i < n
  {
    if n == 0 then {} else Indices(n - 1) + {n - 1}
  }

  /** The section as first rendered: every value at its start, invisible, nothing scheduled. */
  function InitialSection(stats: seq<Stat>): (r: Section)
    ensures r.countValues == Starts(stats) && !r.statsVisible && r.pending == {} && r.tickers == []
    ensures WellFormed(stats, r) && OneAnimationPerStat(r)
    ensures Ascending(stats) ==> ValuesInRange(stats, r)
  {
    Section(Starts(stats), false, {}, [])
  }

  /** What every reachable section satisfies: one value per stat, tickers on real stats and short of the last frame. */
  predicate WellFormed(stats: seq<Stat>, s: Section)
  {
    && |s.countValues| == |stats|
    && (forall i :: i in s.pending ==> i < |stats|)
    && (forall k :: 0 <= k < |s.tickers| ==> s.tickers[k].index < |stats| && s.tickers[k].frame < TotalFrames)
  }

  /** Every displayed value lies between its stat's start and end. */
  predicate ValuesInRange(stats: seq<Stat>, s: Section)
    requires |s.countValues| == |stats|
  {
    forall i :: 0 <= i < |stats| ==> stats[i].start <= s.countValues[i] <= stats[i].end
  }

  /**
   * The observer callback (App.jsx:44-49) and the effect it triggers (App.jsx:79-118).
   * Intersecting: visible, every value reset to its start, and, when the section was not
   * visible before, one start-up timeout per stat. Not intersecting: invisible, and, when it
   * was visible, the effect's cleanup cancels the start-up timeouts, but running tickers keep going.
   */
  function Observe(stats: seq<Stat>, s: Section, intersecting: bool): (r: Section)
    requires WellFormed(stats, s)
    ensures WellFormed(stats, r)
    ensures r.statsVisible == intersecting && r.tickers == s.tickers
    ensures intersecting ==> r.countValues == Starts(stats)
    ensures intersecting && !s.statsVisible ==> r.pending == Indices(|stats|)
    ensures !intersecting ==> r.countValues == s.countValues
    ensures !intersecting && s.statsVisible ==> r.pending == {}
    ensures intersecting == s.statsVisible ==> r.pending == s.pending
  {
    if intersecting then
      s.(statsVisible := true, countValues := Starts(stats),
         pending := if s.statsVisible then s.pending else Indices(|stats|))
    else
      s.(statsVisible := false, pending := if s.statsVisible then {} else s.pending)
  }

  /** Stat i's start-up timeout fires (App.jsx:90-92): a ticker at frame 0 begins. */
  function StartFires(stats: seq<Stat>, s: Section, index: nat): (r: Section)
    requires WellFormed(stats, s)
    ensures WellFormed(stats, r)
    ensures r.countValues == s.countValues && r.statsVisible == s.statsVisible
    ensures index in s.pending ==> r.pending == s.pending - {index} && r.tickers == s.tickers + [Ticker(index, 0)]
    ensures index !in s.pending ==> r == s
  {
    if index in s.pending then s.(pending := s.pending - {index}, tickers := s.tickers + [Ticker(index, 0)])
    else s
  }

  /**
   * Ticker k fires (App.jsx:93-108): its frame advances, its stat's slot alone takes the
   * eased value of the new frame, and the ticker stops when that frame is the last.
   */
  function Tick(stats: seq<Stat>, s: Section, k: nat): (r: Section)
    requires WellFormed(stats, s)
    ensures WellFormed(stats, r)
    ensures r.statsVisible == s.statsVisible && r.pending == s.pending
    ensures k >= |s.tickers| ==> r == s
    ensures k < |s.tickers| ==>
      var t := s.tickers[k];
      && r.countValues[t.index] == FrameValue(stats[t.index], t.frame + 1)
      && (forall j :: 0 <= j < |stats| && j != t.index ==> r.countValues[j] == s.countValues[j])
      && (t.frame + 1 == TotalFrames ==> r.tickers == s.tickers[..k] + s.tickers[k + 1..])
      && (t.frame + 1 < TotalFrames ==> r.tickers == s.tickers[k := Ticker(t.index, t.frame + 1)])
  {
    if k >= |s.tickers| then s
    else
      var t := s.tickers[k];
      var frame := t.frame + 1;
      var values := s.countValues[t.index := FrameValue(stats[t.index], frame)];
      if frame == TotalFrames then s.(countValues := values, tickers := s.tickers[..k] + s.tickers[k + 1..])
      else s.(countValues := values, tickers := s.tickers[k := Ticker(t.index, frame)])
  }

  /** The events that reach the section. */
  datatype Event = Intersect(intersecting: bool) | StartTimeout(index: nat) | Interval(ticker: nat)

  function Step(stats: seq<Stat>, s: Section, e: Event): (r: Section)
    requires WellFormed(stats, s)
    ensures WellFormed(stats, r)
  {
    match e
    case Intersect(b) => Observe(stats, s, b)
    case StartTimeout(i) => StartFires(stats, s, i)
    case Interval(k) => Tick(stats, s, k)
  }

  function Run(stats: seq<Stat>, s: Section, events: seq<Event>): (r: Section)
    requires WellFormed(stats, s)
    ensures WellFormed(stats, r)
    decreases |events|
  {
    if events == [] then s else Run(stats, Step(stats, s, events[0]), events[1..])
  }

  /** Every stat counts upwards. */
  predicate Ascending(stats: seq<Stat>)
  {
    forall i :: 0 <= i < |stats| ==> stats[i].start <= stats[i].end
  }

  /** Every event keeps each displayed value between its stat's start and end. */
  lemma StepKeepsValuesInRange(stats: seq<Stat>, s: Section, e: Event)
    requires Ascending(stats) && WellFormed(stats, s) && ValuesInRange(stats, s)
    ensures ValuesInRange(stats, Step(stats, s, e))
  {
    match e
    case Intersect(b) =>
    case StartTimeout(i) =>
    case Interval(k) =>
      if k < |s.tickers| {
        var t := s.tickers[k];
        assert stats[t.index].start <= FrameValue(stats[t.index], t.frame + 1) <= stats[t.index].end;
      }
  }

  /** From any well-formed, in-range section, every sequence of events keeps each value within its stat's range. */
  lemma {:induction false} RunKeepsValuesInRange(stats: seq<Stat>, s: Section, events: seq<Event>)
    requires Ascending(stats) && WellFormed(stats, s) && ValuesInRange(stats, s)
    ensures ValuesInRange(stats, Run(stats, s, events))
    decreases |events|
  {
    if events != [] {
      StepKeepsValuesInRange(stats, s, events[0]);
      RunKeepsValuesInRange(stats, Step(stats, s, events[0]), events[1..]);
    }
  }

  /** The page's own figures never show a value outside their range. */
  lemma PageValuesInRange(events: seq<Event>)
    ensures WellFormed(StatsData, InitialSection(StatsData))
    ensures var r := Run(StatsData, InitialSection(StatsData), events);
      forall i :: 0 <= i < |StatsData| ==> StatsData[i].start <= r.countValues[i] <= StatsData[i].end
  {
    RunKeepsValuesInRange(StatsData, InitialSection(StatsData), events);
  }

  /**
   * Leaving and re-entering the viewport after stat 0 started: the cleanup cancelled only
   * the start-up timeouts, so the old ticker and a new one both drive stat 0.
   */
  lemma RetriggerRunsTwoTickers()
    ensures WellFormed(StatsData, InitialSection(StatsData))
    ensures Run(StatsData, InitialSection(StatsData),
      [Intersect(true), StartTimeout(0), Intersect(false), Intersect(true), StartTimeout(0)]).tickers
      == [Ticker(0, 0), Ticker(0, 0)]
  {
    var stats := StatsData;
    var s0 := InitialSection(stats);
    var s1 := Step(stats, s0, Intersect(true));
    var s2 := Step(stats, s1, StartTimeout(0));
    var s3 := Step(stats, s2, Intersect(false));
    var s4 := Step(stats, s3, Intersect(true));
    var s5 := Step(stats, s4, StartTimeout(0));
    assert s5.tickers == [Ticker(0, 0), Ticker(0, 0)];
    var evs := [Intersect(true), StartTimeout(0), Intersect(false), Intersect(true), StartTimeout(0)];
    assert evs[1..][1..][1..][1..][1..] == [];
  }

  /** The cleanup stopping the running tickers too, as the restart of the sequence needs. */
  function CorrectedObserve(stats: seq<Stat>, s: Section, intersecting: bool): (r: Section)
    requires WellFormed(stats, s)
    ensures WellFormed(stats, r)
    ensures !intersecting && s.statsVisible ==> r.pending == {} && r.tickers == []
    ensures r.(tickers := s.tickers) == Observe(stats, s, intersecting)
  {
    var r := Observe(stats, s, intersecting);
    if !intersecting && s.statsVisible then r.(tickers := []) else r
  }

  function CorrectedStep(stats: seq<Stat>, s: Section, e: Event): (r: Section)
    requires WellFormed(stats, s)
    ensures WellFormed(stats, r)
  {
    match e
    case Intersect(b) => CorrectedObserve(stats, s, b)
    case StartTimeout(i) => StartFires(stats, s, i)
    case Interval(k) => Tick(stats, s, k)
  }

  function CorrectedRun(stats: seq<Stat>, s: Section, events: seq<Event>): (r: Section)
    requires WellFormed(stats, s)
    ensures WellFormed(stats, r)
    decreases |events|
  {
    if events == [] then s else CorrectedRun(stats, CorrectedStep(stats, s, events[0]), events[1..])
  }

  /** At most one animation per stat: tickers drive distinct stats, none of them still pending, and an invisible section runs nothing. */
  predicate OneAnimationPerStat(s: Section)
  {
    && (forall a, b :: 0 <= a < b < |s.tickers| ==> s.tickers[a].index != s.tickers[b].index)
    && (forall a :: 0 <= a < |s.tickers| ==> s.tickers[a].index !in s.pending)
    && (!s.statsVisible ==> s.tickers == [] && s.pending == {})
  }

  lemma CorrectedStepKeepsOneAnimation(stats: seq<Stat>, s: Section, e: Event)
    requires WellFormed(stats, s) && OneAnimationPerStat(s)
    ensures OneAnimationPerStat(CorrectedStep(stats, s, e))
  {
    match e
    case Intersect(b) =>
    case StartTimeout(i) =>
    case Interval(k) =>
      if k < |s.tickers| {
        var r := CorrectedStep(stats, s, e);
        var t := s.tickers[k];
        if t.frame + 1 == TotalFrames {
          assert forall a :: 0 <= a < |r.tickers| ==> r.tickers[a] == (if a < k then s.tickers[a] else s.tickers[a + 1]);
        }
      }
  }

  /** With the corrected cleanup, no sequence of events from the first render lets two animations drive one stat. */
  lemma {:induction false} CorrectedRunKeepsOneAnimation(stats: seq<Stat>, s: Section, events: seq<Event>)
    requires WellFormed(stats, s) && OneAnimationPerStat(s)
    ensures OneAnimationPerStat(CorrectedRun(stats, s, events))
    decreases |events|
  {
    if events != [] {
      CorrectedStepKeepsOneAnimation(stats, s, events[0]);
      CorrectedRunKeepsOneAnimation(stats, CorrectedStep(stats, s, events[0]), events[1..]);
    }
  }

  /** The section component's state as React holds it, with the browser's timers. */
  class StatsSection {
    const stats: seq<Stat>
    var countValues: seq<int>
    var statsVisible: bool
    var pending: set<nat>
    var tickers: seq<Ticker>

    function State(): Section
      reads this
    {
      Section(countValues, statsVisible, pending, tickers)
    }

    constructor (stats: seq<Stat>)
      ensures this.stats == stats && State() == InitialSection(stats)
    {
      this.stats := stats;
      countValues := Starts(stats);
      statsVisible := false;
      pending := {};
      tickers := [];
    }

    /** The observer callback and the effect it triggers. */
    method OnIntersect(intersecting: bool)
      requires WellFormed(stats, State())
      modifies this
      ensures State() == Observe(stats, old(State()), intersecting)
    {
      var wasVisible := statsVisible;
      if intersecting {
        statsVisible := true;
        countValues := Starts(stats);
      } else {
        statsVisible := false;
      }
      if wasVisible && !statsVisible {
        pending := {};
      } else if !wasVisible && statsVisible {
        pending := Indices(|stats|);
      }
    }

    /** Stat `index`'s start-up timeout fires. */
    method OnStartTimeout(index: nat)
      requires WellFormed(stats, State())
      modifies this
      ensures State() == StartFires(stats, old(State()), index)
    {
      if index in pending {
        pending := pending - {index};
        tickers := tickers + [Ticker(index, 0)];
      }
    }

    /** Interval `k` fires: `statFrame++`, a copy of the values with one slot rewritten, and the stop at the last frame. */
    method OnInterval(k: nat)
      requires WellFormed(stats, State())
      modifies this
      ensures State() == Tick(stats, old(State()), k)
    {
      if k < |tickers| {
        var index := tickers[k].index;
        var statFrame := tickers[k].frame;
        statFrame := statFrame + 1;
        var value := FrameValue(stats[index], statFrame);
        var newValues := countValues;
        newValues := newValues[index := value];
        countValues := newValues;
        if statFrame == TotalFrames {
          tickers := tickers[..k] + tickers[k + 1..];
        } else {
          tickers := tickers[k := Ticker(index, statFrame)];
        }
      }
    }
  }
}
