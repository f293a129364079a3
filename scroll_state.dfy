/**
 * The scroll debounce of src/hooks/useScrollState.ts. The browser's clock and timer
 * queue are explicit: `now` is the current time in milliseconds, and the single
 * `timeoutId` the listener keeps is `pending`, the time its callback is due.
 */
module ScrollState {
  import opened Wrappers

  const DEFAULT_DEBOUNCE_MS: int := 150

  /**
   * The flag, the pending timeout, whether the scroll listener is attached, the clock,
   * and (for the statements below) the time of the last scroll event.
   */
  datatype Watch = Watch(isScrolling: bool, pending: Option<int>, listening: bool, now: int, lastScroll: int)

  /** The delay a timer actually waits: browsers treat a negative delay as 0. */
  function Delay(debounceMs: int): (d: nat)
    ensures debounceMs >= 0 ==> d == debounceMs
  {
    if debounceMs > 0 then debounceMs else 0
  }

  /** The effect: the flag starts false, and the listener is attached only if the container exists. */
  function Mount(hasContainer: bool, now: int): Watch {
    Watch(false, None, hasContainer, now, now)
  }

  /** `handleScroll`: the flag goes up, any pending timeout is cleared and a new one is set. */
  function OnScroll(w: Watch, debounceMs: int): Watch {
    if !w.listening then w
    else w.(isScrolling := true, pending := Some(w.now + Delay(debounceMs)), lastScroll := w.now)
  }

  /** `dt` milliseconds pass; a timeout that comes due clears the flag and itself. */
  function Elapse(w: Watch, dt: nat): Watch {
    var now := w.now + dt;
    if w.pending.Some? && w.pending.value <= now then w.(isScrolling := false, pending := None, now := now)
    else w.(now := now)
  }

  /** The effect's cleanup: the listener is removed and the pending timeout cleared. */
  function Teardown(w: Watch): Watch {
    w.(listening := false, pending := None)
  }

  /**
   * While listening, the flag is up exactly when a timeout is pending, and that timeout
   * is due one debounce after the last scroll event, not yet passed.
   */
  predicate Inv(w: Watch, debounceMs: int) {
    (w.listening ==> (w.isScrolling <==> w.pending.Some?))
    && (w.pending.Some? ==> w.listening && w.pending.value == w.lastScroll + Delay(debounceMs) && w.now <= w.pending.value)
  }

  lemma MountInv(hasContainer: bool, now: int, debounceMs: int)
    ensures Inv(Mount(hasContainer, now), debounceMs) && !Mount(hasContainer, now).isScrolling
  {
  }

  /** Every scroll event raises the flag and leaves exactly one timeout pending. */
  lemma OnScrollInv(w: Watch, debounceMs: int)
    requires Inv(w, debounceMs) && w.listening
    ensures Inv(OnScroll(w, debounceMs), debounceMs)
    ensures OnScroll(w, debounceMs).isScrolling
    ensures OnScroll(w, debounceMs).pending == Some(w.now + Delay(debounceMs))
  {
  }

  lemma ElapseInv(w: Watch, dt: nat, debounceMs: int)
    requires Inv(w, debounceMs)
    ensures Inv(Elapse(w, dt), debounceMs)
  {
  }

  /**
   * The flag drops exactly when a full debounce has passed since the last scroll event:
   * a raised flag is still up before then and down once that time is reached.
   */
  lemma ElapseDropsFlag(w: Watch, dt: nat, debounceMs: int)
    requires Inv(w, debounceMs) && w.listening && w.isScrolling
    ensures !Elapse(w, dt).isScrolling <==> w.now + dt >= w.lastScroll + Delay(debounceMs)
  {
  }

  /** After teardown no timeout is pending and no listener is attached; later scroll events are ignored. */
  lemma TeardownQuiet(w: Watch, debounceMs: int, dt: nat)
    ensures Teardown(w).pending.None? && !Teardown(w).listening
    ensures OnScroll(Teardown(w), debounceMs) == Teardown(w)
    ensures Elapse(Teardown(w), dt).isScrolling == w.isScrolling
  {
  }

  /** The hook's flag together with the listener's closure variables. */
  class ScrollWatcher {
    const debounceMs: int
    var isScrolling: bool
    var timeout: Option<int>
    var listening: bool
    var now: int
    ghost var lastScroll: int

    ghost function State(): Watch
      reads this
    {
      Watch(isScrolling, timeout, listening, now, lastScroll)
    }

    ghost predicate Valid()
      reads this
    {
      Inv(State(), debounceMs)
    }

    /** `useScrollState(containerRef, debounceMs)` at time `start`; pass 150 for the default. */
    constructor (hasContainer: bool, debounce: int, start: int)
      ensures Valid() && debounceMs == debounce
      ensures State() == Mount(hasContainer, start)
    {
      debounceMs := debounce;
      isScrolling := false;
      timeout := None;
      listening := hasContainer;
      now := start;
      lastScroll := start;
    }

    method HandleScroll()
      requires Valid()
      modifies this
      ensures Valid()
      ensures State() == OnScroll(old(State()), debounceMs)
    {
      if listening {
        isScrolling := true;
        if timeout.Some? {
          timeout := None;
        }
        timeout := Some(now + Delay(debounceMs));
        lastScroll := now;
      }
    }

    method Wait(dt: nat)
      requires Valid()
      modifies this
      ensures Valid()
      ensures State() == Elapse(old(State()), dt)
    {
      ElapseInv(State(), dt, debounceMs);
      now := now + dt;
      if timeout.Some? && timeout.value <= now {
        isScrolling := false;
        timeout := None;
      }
    }

    method Cleanup()
      modifies this
      ensures State() == Teardown(old(State()))
    {
      listening := false;
      if timeout.Some? {
        timeout := None;
      }
    }
  }
}
