/**
 * The auto-open countdown of src/hooks/useAutoOpen.ts.
 *
 * The hook keeps three pieces of state: `timeLeft` (React state, milliseconds),
 * `hasOpenedRef.current` and `intervalRef.current` (whether a 100 ms interval is
 * running). Three effects react to prop changes, in declaration order: a reset when
 * `resetKey` changes, a reset when `isScrolling` becomes true, and a (re)start or stop
 * of the interval when `isPaused` or `onOpen` change. `reset` is a new callback whenever
 * `duration` changes, which reruns the first two effects.
 *
 * `Countdown` is the state as a value and the functions below are the transitions; the
 * class `AutoOpenTimer` is the hook itself, with fields, proved to follow them.
 */
module AutoOpen {

  const TICK_MS: int := 100

  /** The hook's options; `onOpen` stands for the identity of the callback the caller passes. */
  datatype Props = Props(duration: int, isPaused: bool, isScrolling: bool, resetKey: int, onOpen: nat)

  /** `timeLeft`, `hasOpenedRef.current`, whether `intervalRef.current` holds an interval, and how often `onOpen` was scheduled. */
  datatype Countdown = Countdown(timeLeft: int, hasOpened: bool, running: bool, opens: nat)

  /** `reset()`: the full duration again, and `onOpen` may fire again. The interval is left as it is. */
  function Reset(c: Countdown, duration: int): (r: Countdown)
    ensures r.timeLeft == duration && !r.hasOpened
    ensures r.running == c.running && r.opens == c.opens
  {
    c.(timeLeft := duration, hasOpened := false)
  }

  /**
   * The countdown effect (and the cleanup of its previous run): no interval while paused
   * or once opened, otherwise a fresh one.
   */
  function CountdownEffect(c: Countdown, isPaused: bool): (r: Countdown)
    ensures r.running <==> !isPaused && !c.hasOpened
    ensures r.timeLeft == c.timeLeft && r.hasOpened == c.hasOpened && r.opens == c.opens
  {
    if isPaused || c.hasOpened then c.(running := false) else c.(running := true)
  }

  /**
   * One firing of the interval: 100 ms less; at or below zero the time is clamped to 0,
   * the interval is stopped and `onOpen` is scheduled unless it already was. Without a
   * running interval nothing fires.
   */
  function Tick(c: Countdown): Countdown {
    if !c.running then c
    else
      var next := c.timeLeft - TICK_MS;
      if next <= 0 then
        Countdown(0, true, false, if c.hasOpened then c.opens else c.opens + 1)
      else
        c.(timeLeft := next)
  }

  /** The state after the first render: the three effects run once each, in order. */
  function Mount(p: Props): Countdown {
    var c0 := Countdown(p.duration, false, false, 0);
    var c1 := Reset(c0, p.duration);
    var c2 := if p.isScrolling then Reset(c1, p.duration) else c1;
    CountdownEffect(c2, p.isPaused)
  }

  /** The first two effects of a render with new props, each run when one of its dependencies changed. */
  function ResetEffects(c: Countdown, p: Props, q: Props): Countdown {
    var resetChanged := p.duration != q.duration;
    var c1 := if resetChanged || p.resetKey != q.resetKey then Reset(c, q.duration) else c;
    if (resetChanged || p.isScrolling != q.isScrolling) && q.isScrolling then Reset(c1, q.duration) else c1
  }

  /** A render with new props: the reset effects, then the countdown effect if its dependencies changed. */
  function Rerender(c: Countdown, p: Props, q: Props): Countdown {
    var c2 := ResetEffects(c, p, q);
    if p.isPaused != q.isPaused || p.onOpen != q.onOpen then CountdownEffect(c2, q.isPaused) else c2
  }

  /** `Math.ceil(timeLeft / 1000)`: the whole seconds shown, rounded up. */
  function SecondsLeft(timeLeft: int): (s: int)
    ensures (s - 1) * 1000 < timeLeft <= s * 1000
  {
    if timeLeft % 1000 == 0 then timeLeft / 1000 else timeLeft / 1000 + 1
  }

  /** Right after a reset to 5000 ms the overlay shows 5. */
  lemma ResetShowsFive(c: Countdown)
    ensures SecondsLeft(Reset(c, 5000).timeLeft) == 5
  {
  }

  /**
   * What every reachable state satisfies: the time stays within [0, duration] (for a
   * non-negative duration), an opened countdown sits at 0, and an interval only runs
   * while unpaused and not yet opened.
   */
  predicate Inv(c: Countdown, p: Props) {
    (p.duration >= 0 ==> 0 <= c.timeLeft <= p.duration)
    && (c.hasOpened ==> c.timeLeft == 0)
    && (c.running ==> !p.isPaused && !c.hasOpened)
  }

  lemma MountInv(p: Props)
    ensures Inv(Mount(p), p)
    ensures Mount(p).timeLeft == p.duration && !Mount(p).hasOpened && Mount(p).opens == 0
    ensures Mount(p).running <==> !p.isPaused
  {
  }

  lemma TickInv(c: Countdown, p: Props)
    requires Inv(c, p)
    ensures Inv(Tick(c), p)
  {
  }

  lemma RerenderInv(c: Countdown, p: Props, q: Props)
    requires Inv(c, p)
    ensures Inv(Rerender(c, p, q), q)
  {
  }

  lemma ResetInv(c: Countdown, p: Props)
    requires Inv(c, p)
    ensures Inv(Reset(c, p.duration), p)
  {
  }

  /** A tick schedules `onOpen` exactly when a running countdown that has not opened reaches zero. */
  lemma TickOpens(c: Countdown)
    ensures Tick(c).opens == c.opens || Tick(c).opens == c.opens + 1
    ensures Tick(c).opens == c.opens + 1 <==> c.running && !c.hasOpened && c.timeLeft <= TICK_MS
  {
  }

  /** A new card (a changed `resetKey`) or the start of a scroll resets the countdown. */
  lemma RerenderResets(c: Countdown, p: Props, q: Props)
    requires p.resetKey != q.resetKey || (!p.isScrolling && q.isScrolling)
    ensures Rerender(c, p, q).timeLeft == q.duration && !Rerender(c, p, q).hasOpened
  {
  }

  /** Pausing or unpausing alone never resets: the time and the opened flag are kept. */
  lemma PauseKeepsTime(c: Countdown, p: Props, paused: bool)
    ensures Rerender(c, p, p.(isPaused := paused)).timeLeft == c.timeLeft
    ensures Rerender(c, p, p.(isPaused := paused)).hasOpened == c.hasOpened
    ensures Rerender(c, p, p.(isPaused := paused)).opens == c.opens
  {
  }

  /** While paused no interval runs, so ticks change nothing (and `PauseKeepsTime` resumes from the same time). */
  lemma PausedTicksIdle(c: Countdown, p: Props)
    requires Inv(c, p) && p.isPaused
    ensures Tick(c) == c
  {
  }

  /** What the hook sees between renders: an interval tick, or a render with new props. */
  datatype Event = TickEvent | RenderEvent(q: Props)

  /**
   * A render from props `p` to `q` that resets nothing: the same duration (so the same
   * `reset` callback) and card, and scrolling does not start. Pausing, resuming, a new
   * `onOpen` or scrolling ending are all allowed.
   */
  predicate KeepsCountdown(p: Props, q: Props) {
    q.duration == p.duration && q.resetKey == p.resetKey && (q.isScrolling ==> p.isScrolling)
  }

  /** Every render in `evs`, applied from props `p` on, resets nothing. */
  predicate NoResets(p: Props, evs: seq<Event>)
    decreases |evs|
  {
    evs == [] ||
    match evs[0]
    case TickEvent => NoResets(p, evs[1..])
    case RenderEvent(q) => KeepsCountdown(p, q) && NoResets(q, evs[1..])
  }

  /** The state after the events, starting from `c` with props `p`. */
  function Run(c: Countdown, p: Props, evs: seq<Event>): Countdown
    decreases |evs|
  {
    if evs == [] then c
    else
      match evs[0]
      case TickEvent => Run(Tick(c), p, evs[1..])
      case RenderEvent(q) => Run(Rerender(c, p, q), q, evs[1..])
  }

  /**
   * `onOpen` is scheduled at most once between two resets, and not at all if it already
   * was, whatever ticks and non-resetting renders (pause, resume, a new `onOpen`,
   * scrolling ending) happen in between.
   */
  lemma {:induction false} RunOpensAtMostOnce(c: Countdown, p: Props, evs: seq<Event>)
    requires NoResets(p, evs)
    ensures c.opens <= Run(c, p, evs).opens <= c.opens + (if c.hasOpened then 0 else 1)
    ensures c.hasOpened ==> Run(c, p, evs).hasOpened
    ensures Run(c, p, evs).hasOpened && Run(c, p, evs).opens == c.opens ==> c.hasOpened
    decreases |evs|
  {
    if evs != [] {
      match evs[0]
      case TickEvent =>
        RunOpensAtMostOnce(Tick(c), p, evs[1..]);
      case RenderEvent(q) =>
        RunOpensAtMostOnce(Rerender(c, p, q), q, evs[1..]);
    }
  }

  /** A render that resets nothing keeps the time, the opened flag and the open count. */
  lemma KeepsCountdownRerender(c: Countdown, p: Props, q: Props)
    requires KeepsCountdown(p, q)
    ensures Rerender(c, p, q).timeLeft == c.timeLeft
    ensures Rerender(c, p, q).hasOpened == c.hasOpened && Rerender(c, p, q).opens == c.opens
  {
  }

  /** `k` ticks in a row. */
  function Ticks(c: Countdown, k: nat): Countdown {
    if k == 0 then c else Tick(Ticks(c, k - 1))
  }

  lemma {:induction false} TicksBefore(c: Countdown, k: nat)
    requires c.running && !c.hasOpened && c.timeLeft > k * TICK_MS
    ensures Ticks(c, k) == c.(timeLeft := c.timeLeft - k * TICK_MS)
  {
    if k > 0 {
      TicksBefore(c, k - 1);
    }
  }

  /**
   * From a running countdown reset to `m * 100` ms, `onOpen` is scheduled on exactly the
   * m-th tick: no earlier tick schedules it, and that one does.
   */
  lemma OpensOnTick(c: Countdown, m: nat)
    requires m >= 1 && c.running && !c.hasOpened && c.timeLeft == m * TICK_MS
    ensures forall k :: 0 <= k < m ==> Ticks(c, k).opens == c.opens && !Ticks(c, k).hasOpened
    ensures Ticks(c, m) == Countdown(0, true, false, c.opens + 1)
  {
    forall k | 0 <= k < m
      ensures Ticks(c, k).opens == c.opens && !Ticks(c, k).hasOpened
    {
      TicksBefore(c, k);
    }
    TicksBefore(c, m - 1);
  }

  /** The hook, with its state in fields and its props as last rendered. */
  class AutoOpenTimer {
    var props: Props
    var timeLeft: int
    var hasOpened: bool
    var running: bool
    var opens: nat

    function State(): Countdown
      reads this
    {
      Countdown(timeLeft, hasOpened, running, opens)
    }

    ghost predicate Valid()
      reads this
    {
      Inv(State(), props)
    }

    /** The first render. */
    constructor (p: Props)
      ensures Valid()
      ensures props == p && State() == Mount(p)
    {
      props := p;
      timeLeft := p.duration;
      hasOpened := false;
      opens := 0;
      if p.isPaused {
        running := false;
      } else {
        running := true;
      }
    }

    /** `reset()` called by the user of the hook. */
    method CallReset()
      requires Valid()
      modifies this
      ensures Valid()
      ensures State() == Reset(old(State()), props.duration) && props == old(props)
    {
      timeLeft := props.duration;
      hasOpened := false;
    }

    /** The interval callback, when it fires. */
    method OnInterval()
      requires Valid()
      modifies this
      ensures Valid()
      ensures State() == Tick(old(State())) && props == old(props)
    {
      if running {
        var next := timeLeft - TICK_MS;
        if next <= 0 {
          running := false;
          if !hasOpened {
            hasOpened := true;
            opens := opens + 1;
          }
          timeLeft := 0;
        } else {
          timeLeft := next;
        }
      }
    }

    /** A render with new props, followed by the effects whose dependencies changed. */
    method Render(q: Props)
      requires Valid()
      modifies this
      ensures Valid()
      ensures props == q && State() == Rerender(old(State()), old(props), q)
    {
      ghost var c0, p0 := State(), props;
      RunResetEffects(q);
      if props.isPaused != q.isPaused || props.onOpen != q.onOpen {
        if q.isPaused || hasOpened {
          running := false;
        } else {
          running := true;
        }
      }
      props := q;
      RerenderInv(c0, p0, q);
    }

    /** The effects on `resetKey` and on `isScrolling` (and on `reset`, which changes with `duration`). */
    method RunResetEffects(q: Props)
      modifies this
      ensures props == old(props) && State() == ResetEffects(old(State()), props, q)
    {
      var resetChanged := props.duration != q.duration;
      if resetChanged || props.resetKey != q.resetKey {
        timeLeft, hasOpened := q.duration, false;
      }
      if (resetChanged || props.isScrolling != q.isScrolling) && q.isScrolling {
        timeLeft, hasOpened := q.duration, false;
      }
    }

    /** The `secondsLeft` the hook returns. */
    function Seconds(): (s: int)
      reads this
      ensures (s - 1) * 1000 < timeLeft <= s * 1000
    {
      SecondsLeft(timeLeft)
    }
  }
}
