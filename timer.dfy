/**
 * The countdown window's state machine.  A tick of the 10 ms timer lowers
 * the remaining time by one hundredth while it is positive and shows it;
 * the tick after it reaches zero stops the timer, shows "Time's up!" and
 * plays the sound.  All times are whole hundredths of a second.
 */
module Timer {
  import opened TimeFormat

  const TimesUpText: string := "Time's up!"
  /** 10.0 seconds. */
  const DefaultDuration: nat := 1000
  /** The duration spin box accepts 0 up to 1e10 seconds. */
  const MaxDuration: nat := 1_000_000_000_000

  /**
   * What the label shows: a literal text (the initial "10.0"), a formatted
   * time, or the expiry message.
   */
  datatype Display = Literal(text: string) | Remaining(centis: nat) | TimesUp

  /** The label text of a display. */
  function DisplayText(d: Display): (r: string)
    ensures d.Remaining? ==> 5 <= |r| && r[|r| - 3] == '.'
    ensures d.TimesUp? ==> r == TimesUpText
  {
    match d
    case Literal(t) => t
    case Remaining(c) => Format(c)
    case TimesUp => TimesUpText
  }

  /**
   * What the window holds: the configured duration, the time left, whether
   * the timer is ticking, what the label shows, and how many times the
   * sound was requested.
   */
  datatype Snapshot = Snapshot(duration: nat, timeLeft: nat, running: bool, display: Display, sounds: nat)

  /** Start: restart the countdown from the duration and arm the timer. */
  function Start(s: Snapshot): Snapshot {
    s.(timeLeft := s.duration, running := true)
  }

  /** One timer tick. */
  function Tick(s: Snapshot): Snapshot {
    if s.timeLeft > 0 then
      s.(timeLeft := s.timeLeft - 1, display := Remaining(s.timeLeft - 1))
    else
      s.(running := false, display := TimesUp, sounds := s.sounds + 1)
  }

  /** Reset: stop the timer and show the duration; the time left stays. */
  function Reset(s: Snapshot): Snapshot {
    s.(running := false, display := Remaining(s.duration))
  }

  /** A new duration from the settings dialog, shown at once. */
  function Save(s: Snapshot, value: nat): Snapshot {
    s.(duration := value, display := Remaining(value))
  }

  /**
   * Up to `n` ticks; a stopped timer delivers none.  Ticking keeps the
   * duration, never raises the time left, and requests the sound at most
   * once, because the tick that requests it also stops the timer.
   */
  function Run(s: Snapshot, n: nat): (r: Snapshot)
    ensures r.duration == s.duration
    ensures r.timeLeft <= s.timeLeft
    ensures r.sounds <= s.sounds + 1
    ensures r.sounds == s.sounds + 1 ==> !r.running
    decreases n
  {
    if n == 0 || !s.running then s else Run(Tick(s), n - 1)
  }

  class TimerApp {
    var duration: nat
    var timeLeft: nat
    var running: bool
    /** The label's text. */
    var text: string
    var sounds: nat
    /** What the label shows; the text is its rendering. */
    ghost var display: Display

    ghost predicate Valid()
      reads this
    {
      text == DisplayText(display)
    }

    ghost function State(): Snapshot
      reads this
    {
      Snapshot(duration, timeLeft, running, display, sounds)
    }

    /** The window opens idle with 10 seconds configured, labelled "10.0". */
    constructor ()
      ensures Valid()
      ensures State() == Snapshot(DefaultDuration, 0, false, Literal("10.0"), 0)
      ensures text == "10.0"
    {
      duration := DefaultDuration;
      timeLeft := 0;
      running := false;
      text := "10.0";
      sounds := 0;
      display := Literal("10.0");
    }

    method SaveSettings(value: nat)
      requires Valid() && value <= MaxDuration
      modifies this
      ensures Valid()
      ensures State() == Save(old(State()), value)
      ensures text == Format(value)
    {
      duration := value;
      text := Format(duration);
      display := Remaining(duration);
    }

    method ResetTimer()
      requires Valid()
      modifies this
      ensures Valid()
      ensures State() == Reset(old(State()))
      ensures text == Format(duration)
    {
      running := false;
      text := Format(duration);
      display := Remaining(duration);
    }

    method StartTimer()
      requires Valid()
      modifies this
      ensures Valid()
      ensures State() == Start(old(State()))
      ensures text == old(text)
    {
      timeLeft := duration;
      running := true;
    }

    method UpdateTimer()
      requires Valid()
      modifies this
      ensures Valid()
      ensures State() == Tick(old(State()))
      ensures text == if old(timeLeft) > 0 then Format(timeLeft) else TimesUpText
    {
      if timeLeft > 0 {
        timeLeft := timeLeft - 1;
        text := Format(timeLeft);
        display := Remaining(timeLeft);
      } else {
        running := false;
        text := TimesUpText;
        sounds := sounds + 1;
        display := TimesUp;
      }
    }
  }

  /**
   * A running countdown with `T` hundredths left: the first `T` ticks count
   * down by one hundredth each and show the time left; tick `T + 1` stops
   * the timer, shows "Time's up!" and requests the sound exactly once; no
   * tick arrives after that.  The duration never changes.
   */
  lemma {:induction false} RunWhileRunning(s: Snapshot, n: nat)
    requires s.running
    ensures var t := Run(s, n);
      && t.duration == s.duration
      && t.timeLeft == (if n <= s.timeLeft then s.timeLeft - n else 0)
      && t.running == (n <= s.timeLeft)
      && t.sounds == s.sounds + (if n <= s.timeLeft then 0 else 1)
      && t.display == (if n == 0 then s.display
                       else if n <= s.timeLeft then Remaining(s.timeLeft - n)
                       else TimesUp)
    decreases n
  {
    if n > 0 && s.timeLeft > 0 {
      RunWhileRunning(Tick(s), n - 1);
    }
  }

  /**
   * After Start with duration D: D ticks reach zero while still running,
   * and tick D + 1 expires.  This holds from any prior state.
   */
  lemma StartThenRun(s: Snapshot, n: nat)
    ensures var t := Run(Start(s), n);
      && t.duration == s.duration
      && t.timeLeft == (if n <= s.duration then s.duration - n else 0)
      && t.running == (n <= s.duration)
      && t.sounds == s.sounds + (if n <= s.duration then 0 else 1)
      && (0 < n ==> t.display == if n <= s.duration then Remaining(s.duration - n) else TimesUp)
  {
    RunWhileRunning(Start(s), n);
  }

  /** Starting with a zero duration expires on the first tick, not before. */
  lemma StartZeroExpiresOnFirstTick(s: Snapshot)
    requires s.duration == 0
    ensures Start(s).running
    ensures var t := Run(Start(s), 1);
      !t.running && t.timeLeft == 0 && t.display == TimesUp && t.sounds == s.sounds + 1
  {
    RunWhileRunning(Start(s), 1);
  }

  /** Ticks compose: m ticks and then n more are m + n ticks. */
  lemma {:induction false} RunAdditive(s: Snapshot, m: nat, n: nat)
    ensures Run(Run(s, m), n) == Run(s, m + n)
    decreases m
  {
    if m > 0 && s.running {
      RunAdditive(Tick(s), m - 1, n);
    }
  }

  /** The time left is non-increasing along any run of ticks. */
  lemma Monotone(s: Snapshot, m: nat, n: nat)
    requires m <= n
    ensures Run(s, n).timeLeft <= Run(s, m).timeLeft
  {
    RunAdditive(s, m, n - m);
  }

  /**
   * Saving a shorter duration while the countdown runs does not touch the
   * time left, so the time left can exceed the duration.
   */
  lemma SaveWhileRunning(s: Snapshot, value: nat)
    requires s.running && value < s.timeLeft
    ensures var t := Save(s, value);
      t.running && t.timeLeft == s.timeLeft && t.duration < t.timeLeft && t.display == Remaining(value)
      && Tick(t).display == Remaining(s.timeLeft - 1)
  {
  }

  /** Reset then Start restarts from the full duration. */
  lemma ResetThenStart(s: Snapshot)
    ensures var t := Start(Reset(s));
      t.running && t.timeLeft == s.duration && t.duration == s.duration && t.display == Remaining(s.duration)
  {
  }
}
