/**
 * The stand-alone timer: a rest countdown, starting from an editable number
 * of seconds, or a stopwatch. One tick is one second of the running clock;
 * the interval that delivers the ticks is the caller's business.
 */
module TimerView {
  import opened Wrappers
  import Storage
  import Clock

  /** The two modes: the rest countdown ("descanso") and the stopwatch ("cronometro"). */
  datatype Mode = Rest | Stopwatch

  /** The rest-input rule: `parseInt` of the text, 0 when it is not a number, negative values raised to 0.
      `None` stands for text that does not parse. */
  function RestInput(n: Option<int>): (r: nat)
    ensures n.Some? && n.value >= 0 ==> r == n.value
    ensures n.None? || n.value < 0 ==> r == 0
  {
    if n.Some? && n.value > 0 then n.value else 0
  }

  /** One second of the countdown: down by one, never below 0. */
  function CountdownTick(r: nat): (r': nat)
    ensures r > 0 ==> r' == r - 1
    ensures r == 0 ==> r' == 0
  {
    if r > 0 then r - 1 else 0
  }

  /** `n` seconds of countdown from `r`. */
  function Countdown(r: nat, n: nat): nat
    decreases n
  {
    if n == 0 then r else Countdown(CountdownTick(r), n - 1)
  }

  /** After `n` seconds a countdown from `r` shows `r - n`, and 0 from then on. */
  lemma {:induction false} CountdownValue(r: nat, n: nat)
    ensures Countdown(r, n) == if n >= r then 0 else r - n
    decreases n
  {
    if n > 0 {
      CountdownValue(CountdownTick(r), n - 1);
    }
  }

  class Timer {
    const store: Storage.Store
    var mode: Mode
    var running: bool
    var restSeconds: nat
    var elapsed: nat
    var remaining: nat

    /** The countdown never shows more than the rest it counts down from. */
    predicate Valid()
      reads this
    {
      remaining <= restSeconds
    }

    /** A stopped countdown set to the stored default rest. */
    constructor (store: Storage.Store)
      ensures this.store == store && Valid()
      ensures mode == Rest && !running && elapsed == 0
      ensures restSeconds == store.DefaultRestSeconds() && remaining == restSeconds
    {
      this.store := store;
      mode := Rest;
      running := false;
      var def := store.DefaultRestSeconds();
      restSeconds := def;
      elapsed := 0;
      remaining := def;
    }

    /** The text the clock shows: the elapsed time of the stopwatch, or the rest left. */
    function Display(): (text: string)
      reads this
      ensures Clock.ParseClock(text) == Some(if mode == Stopwatch then elapsed else remaining)
    {
      var sec := if mode == Stopwatch then elapsed else remaining;
      Clock.FormatRoundTrip(sec);
      Clock.Format(sec)
    }

    method Start()
      modifies this`running
      ensures running
    {
      running := true;
    }

    method Pause()
      modifies this`running
      ensures !running
    {
      running := false;
    }

    /** Stops the clock, clears the stopwatch and refills the countdown. */
    method Reset()
      modifies this`running, this`elapsed, this`remaining
      ensures !running && elapsed == 0 && remaining == restSeconds && Valid()
    {
      running := false;
      elapsed := 0;
      remaining := restSeconds;
    }

    /** One second while the clock runs: the stopwatch counts up by one, the countdown down by one to no
        lower than 0. A stopped clock does not tick. */
    method Tick()
      requires Valid()
      modifies this`elapsed, this`remaining
      ensures Valid()
      ensures !running ==> elapsed == old(elapsed) && remaining == old(remaining)
      ensures running && mode == Stopwatch ==> elapsed == old(elapsed) + 1 && remaining == old(remaining)
      ensures running && mode == Rest ==> remaining == CountdownTick(old(remaining)) && elapsed == old(elapsed)
    {
      if !running {
        return;
      }
      if mode == Stopwatch {
        elapsed := elapsed + 1;
      } else {
        remaining := CountdownTick(remaining);
      }
    }

    /** Typing a rest length (the input is shown in rest mode only): the parsed, clamped value becomes the
        rest and the countdown. */
    method SetRestInput(n: Option<int>)
      requires mode == Rest
      modifies this`restSeconds, this`remaining
      ensures restSeconds == RestInput(n) && remaining == restSeconds && Valid()
    {
      restSeconds := RestInput(n);
      remaining := restSeconds;
    }

    /** Leaving the rest input saves it as the default rest; a rest of 0 is stored as 60. */
    method CommitRest()
      modifies store
      ensures store.restSetting == Some(Storage.SafeRestSeconds(Some(restSeconds as real)))
      ensures store.DefaultRestSeconds() == if restSeconds > 0 then restSeconds else 60
      ensures unchanged(store`workouts, store`schedule, store`sessions, store`weightHistory, store`unit, store`themeName)
    {
      var saved := store.SetDefaultRestSeconds(Some(restSeconds as real));
    }

    /** Choosing a mode (even the current one) also resets the clock. */
    method SwitchMode(m: Mode)
      modifies this`mode, this`running, this`elapsed, this`remaining
      ensures mode == m && !running && elapsed == 0 && remaining == restSeconds && Valid()
    {
      mode := m;
      Reset();
    }
  }
}
