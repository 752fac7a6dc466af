/**
 * The focus/break countdown. A running timer ticks once a second, borrowing
 * a minute when the seconds run out; at 0:00 a focus phase reports the
 * completed session, counts it and starts a short or long break on its own,
 * while a break reports its end and returns to a paused 25:00 focus phase.
 *
 * Each tick and each button handler is one atomic step. The step functions
 * on `TimerState` values are the specification; the class `PomodoroTimer`
 * changes its fields step by step and is proved to agree with them.
 */
module Pomodoro {

  /** Phase lengths in seconds. */
  const WorkTime := 25 * 60
  const ShortBreak := 5 * 60
  const LongBreak := 15 * 60

  /** The callbacks the timer hands to its page, in the order it calls them. */
  datatype Callback = OnSessionComplete | OnBreakStart | OnBreakEnd

  /**
   * The timer's state variables. The session count starts at 0 and only
   * ever grows, so the remainder by 4 is the same in JavaScript and here.
   */
  datatype TimerState = TimerState(minutes: int, seconds: int, isActive: bool, isBreak: bool, sessionCount: nat)

  /** A fresh timer: a paused 25:00 focus phase, no sessions yet. */
  const Initial := TimerState(25, 0, false, false, 0)

  /** The break length chosen for a session count: long after every fourth session. */
  function BreakTime(sessionCount: nat): int
  {
    if sessionCount % 4 == 3 then LongBreak else ShortBreak
  }

  /** Seconds left on the clock. */
  function Remaining(s: TimerState): int
  {
    s.minutes * 60 + s.seconds
  }

  /** The longest the clock can show in the current phase. */
  function PhaseLimit(s: TimerState): int
  {
    if s.isBreak then LongBreak else WorkTime
  }

  /** The clock reads a proper mm:ss that fits its phase. */
  predicate Valid(s: TimerState)
  {
    0 <= s.minutes && 0 <= s.seconds < 60 && Remaining(s) <= PhaseLimit(s)
  }

  // ---------------------------------------------------------------------
  // One step each
  // ---------------------------------------------------------------------

  /** `startWorkSession`: a paused 25:00 focus phase. */
  function WorkSession(s: TimerState): TimerState
  {
    s.(minutes := 25, seconds := 0, isBreak := false, isActive := false)
  }

  /**
   * `startBreakSession`: a running break whose length comes from the count
   * the handler reads, `countRead`.
   */
  function BreakSession(s: TimerState, countRead: nat): TimerState
  {
    s.(minutes := BreakTime(countRead) / 60, seconds := 0, isBreak := true, isActive := true)
  }

  /**
   * One second of the interval. A paused timer has no interval, so nothing
   * happens. At 0:00 the break length is picked from the count as it was
   * before this session was added.
   */
  function AfterTick(s: TimerState): (TimerState, seq<Callback>)
  {
    if !s.isActive then (s, [])
    else if s.seconds > 0 then (s.(seconds := s.seconds - 1), [])
    else if s.minutes > 0 then (s.(minutes := s.minutes - 1, seconds := 59), [])
    else if s.isBreak then (WorkSession(s), [OnBreakEnd])
    else (BreakSession(s.(sessionCount := s.sessionCount + 1), s.sessionCount), [OnSessionComplete, OnBreakStart])
  }

  /** `toggleTimer`. */
  function AfterToggle(s: TimerState): TimerState
  {
    s.(isActive := !s.isActive)
  }

  /** `resetTimer`: the break length is picked from the count as it is now. */
  function AfterReset(s: TimerState): TimerState
  {
    if s.isBreak then s.(isActive := false, minutes := BreakTime(s.sessionCount) / 60, seconds := 0)
    else s.(isActive := false, minutes := 25, seconds := 0)
  }

  /** `n` seconds of the interval, with every callback made on the way. */
  function Ticks(s: TimerState, n: nat): (TimerState, seq<Callback>)
  {
    if n == 0 then (s, [])
    else
      var (t, calls) := Ticks(s, n - 1);
      var (u, more) := AfterTick(t);
      (u, calls + more)
  }

  // ---------------------------------------------------------------------
  // Properties
  // ---------------------------------------------------------------------

  /** Break lengths follow a period-4 pattern: long exactly when the count leaves 3 modulo 4. */
  lemma BreakPattern(sessionCount: nat)
    ensures BreakTime(sessionCount) == LongBreak <==> sessionCount % 4 == 3
    ensures BreakTime(sessionCount) == ShortBreak <==> sessionCount % 4 != 3
    ensures BreakTime(sessionCount + 4) == BreakTime(sessionCount)
  {
  }

  /**
   * A tick that is not at 0:00 takes exactly one second off, keeps the
   * seconds within 0..59, and changes nothing else.
   */
  lemma TickCountsDown(s: TimerState)
    requires Valid(s) && s.isActive && Remaining(s) > 0
    ensures var (t, calls) := AfterTick(s);
      && Valid(t)
      && Remaining(t) == Remaining(s) - 1
      && t.isActive && t.isBreak == s.isBreak && t.sessionCount == s.sessionCount
      && calls == []
  {
  }

  /**
   * The end of a focus phase reports the session once, counts it, and
   * starts a running break whose length comes from the count before it.
   */
  lemma FocusEnds(s: TimerState)
    requires Valid(s) && s.isActive && !s.isBreak && Remaining(s) == 0
    ensures var (t, calls) := AfterTick(s);
      && Valid(t)
      && calls == [OnSessionComplete, OnBreakStart]
      && t.isBreak && t.isActive
      && t.sessionCount == s.sessionCount + 1
      && Remaining(t) == BreakTime(s.sessionCount)
      && t.seconds == 0
  {
  }

  /** The end of a break reports it and returns to 25:00 in focus, paused. */
  lemma BreakEnds(s: TimerState)
    requires Valid(s) && s.isActive && s.isBreak && Remaining(s) == 0
    ensures var (t, calls) := AfterTick(s);
      && Valid(t)
      && calls == [OnBreakEnd]
      && t == Initial.(sessionCount := s.sessionCount)
  {
  }

  /** A tick keeps the clock valid, never shows negative time and never lowers the count. */
  lemma TickKeepsValid(s: TimerState)
    requires Valid(s)
    ensures var t := AfterTick(s).0;
      Valid(t) && Remaining(t) >= 0 && t.sessionCount >= s.sessionCount
  {
  }

  /** Start/pause flips only whether the timer runs. */
  lemma ToggleFlipsOnlyActive(s: TimerState)
    ensures var t := AfterToggle(s);
      t.isActive == !s.isActive && t.(isActive := s.isActive) == s
  {
  }

  /**
   * Reset pauses, keeps the phase and the count, and puts back the full
   * length of the phase: 25:00 in focus, the break length for the current
   * count in a break.
   */
  lemma ResetKeepsPhase(s: TimerState)
    ensures var t := AfterReset(s);
      && Valid(t)
      && !t.isActive && t.isBreak == s.isBreak && t.sessionCount == s.sessionCount
      && t.seconds == 0
      && Remaining(t) == (if s.isBreak then BreakTime(s.sessionCount) else WorkTime)
  {
  }

  /**
   * A long break, once reset, comes back as a short one: the fourth focus
   * session starts a 15-minute break, but by then the count reads 4.
   */
  lemma ResetShortensLongBreak()
    ensures var t := AfterTick(TimerState(0, 0, true, false, 3)).0;
      && t.isBreak && Remaining(t) == LongBreak && t.sessionCount == 4
      && Remaining(AfterReset(t)) == ShortBreak
  {
  }

  /**
   * While the clock has time left, `n` ticks take exactly `n` seconds off
   * and change nothing else.
   */
  lemma {:induction false} Countdown(s: TimerState, n: nat)
    requires Valid(s) && s.isActive && n <= Remaining(s)
    ensures var (t, calls) := Ticks(s, n);
      && Valid(t)
      && Remaining(t) == Remaining(s) - n
      && t.isActive && t.isBreak == s.isBreak && t.sessionCount == s.sessionCount
      && calls == []
  {
    if n > 0 {
      Countdown(s, n - 1);
      TickCountsDown(Ticks(s, n - 1).0);
    }
  }

  /** Any number of ticks keeps the clock valid and never lowers the count. */
  lemma {:induction false} TicksKeepValid(s: TimerState, n: nat)
    requires Valid(s)
    ensures Valid(Ticks(s, n).0) && Ticks(s, n).0.sessionCount >= s.sessionCount
  {
    if n > 0 {
      TicksKeepValid(s, n - 1);
      TickKeepsValid(Ticks(s, n - 1).0);
    }
  }

  /**
   * Any running focus phase at 25:00 shows time for 1500 ticks, reaches 0:00
   * after exactly 1500, and the 1501st tick counts the session and starts a
   * break whose length comes from the count before it.
   */
  lemma FocusLastsWorkTime(s: TimerState)
    requires Valid(s) && s.isActive && !s.isBreak && Remaining(s) == WorkTime
    ensures forall k :: 0 <= k < WorkTime ==> Remaining(Ticks(s, k).0) > 0
    ensures Remaining(Ticks(s, WorkTime).0) == 0 && Ticks(s, WorkTime).1 == []
    ensures var (t, calls) := Ticks(s, WorkTime + 1);
      && t.isBreak && t.isActive && t.sessionCount == s.sessionCount + 1
      && Remaining(t) == BreakTime(s.sessionCount)
      && calls == [OnSessionComplete, OnBreakStart]
  {
    forall k | 0 <= k < WorkTime
      ensures Remaining(Ticks(s, k).0) > 0
    {
      Countdown(s, k);
    }
    Countdown(s, WorkTime);
    var z := Ticks(s, WorkTime).0;
    FocusEnds(z);
    assert Ticks(s, WorkTime + 1) == (AfterTick(z).0, [] + AfterTick(z).1);
  }

  /**
   * The first session of a fresh timer, once started: time for 1500 ticks,
   * 0:00 after exactly 1500, and the 1501st tick is the switch to a
   * 5-minute break, not a negative second.
   */
  lemma FocusLastsExactlyWorkTime(s: TimerState)
    requires s == Initial.(isActive := true)
    ensures forall k :: 0 <= k < WorkTime ==> Remaining(Ticks(s, k).0) > 0
    ensures Remaining(Ticks(s, WorkTime).0) == 0 && Ticks(s, WorkTime).1 == []
    ensures var (t, calls) := Ticks(s, WorkTime + 1);
      && t.isBreak && t.isActive && t.sessionCount == 1
      && Remaining(t) == ShortBreak
      && calls == [OnSessionComplete, OnBreakStart]
  {
    FocusLastsWorkTime(s);
  }

  // ---------------------------------------------------------------------
  // The component's state
  // ---------------------------------------------------------------------

  /** The timer component, whose handlers change its state variables in place. */
  class PomodoroTimer {
    var minutes: int
    var seconds: int
    var isActive: bool
    var isBreak: bool
    var sessionCount: nat

    function State(): TimerState
      reads this
    {
      TimerState(minutes, seconds, isActive, isBreak, sessionCount)
    }

    constructor ()
      ensures State() == Initial && Valid(State())
    {
      minutes, seconds := 25, 0;
      isActive, isBreak := false, false;
      sessionCount := 0;
    }

    method StartWorkSession()
      modifies this
      ensures State() == WorkSession(old(State()))
      ensures Valid(State())
    {
      minutes := 25;
      seconds := 0;
      isBreak := false;
      isActive := false;
    }

    /** `countRead` is the count as the handler sees it. */
    method StartBreakSession(countRead: nat) returns (calls: seq<Callback>)
      modifies this
      ensures State() == BreakSession(old(State()), countRead)
      ensures Valid(State()) && Remaining(State()) == BreakTime(countRead)
      ensures calls == [OnBreakStart]
    {
      calls := [OnBreakStart];
      var breakTime := BreakTime(countRead);
      minutes := breakTime / 60;
      seconds := 0;
      isBreak := true;
      isActive := true;
    }

    /** The interval callback; a paused timer has none, so it does nothing then. */
    method Tick() returns (calls: seq<Callback>)
      modifies this
      ensures (State(), calls) == AfterTick(old(State()))
      ensures old(Valid(State())) ==> Valid(State())
      ensures sessionCount >= old(sessionCount)
    {
      ghost var before := State();
      calls := [];
      if isActive {
        if seconds > 0 {
          seconds := seconds - 1;
        } else if minutes > 0 {
          minutes := minutes - 1;
          seconds := 59;
        } else if isBreak {
          calls := [OnBreakEnd];
          StartWorkSession();
        } else {
          calls := [OnSessionComplete];
          var countRead := sessionCount;
          sessionCount := sessionCount + 1;
          var more := StartBreakSession(countRead);
          calls := calls + more;
          assert calls == [OnSessionComplete, OnBreakStart];
          assert State() == BreakSession(before.(sessionCount := before.sessionCount + 1), before.sessionCount);
        }
      }
      if Valid(before) {
        TickKeepsValid(before);
      }
    }

    method ToggleTimer()
      modifies this
      ensures State() == AfterToggle(old(State()))
      ensures isActive == !old(isActive)
      ensures old(Valid(State())) ==> Valid(State())
    {
      isActive := !isActive;
    }

    method ResetTimer()
      modifies this
      ensures State() == AfterReset(old(State()))
      ensures Valid(State()) && !isActive
    {
      isActive := false;
      if isBreak {
        var breakTime := BreakTime(sessionCount);
        minutes := breakTime / 60;
        seconds := 0;
      } else {
        minutes := 25;
        seconds := 0;
      }
    }
  }
}
