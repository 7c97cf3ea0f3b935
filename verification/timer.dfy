/**
 * The pomodoro timer of components/views/tools/StudyTimerView.tsx: five
 * state cells (focus and break length in minutes, the mode, the seconds left
 * and whether the timer runs), the `MM:SS` display, and the effects that
 * tick the timer down, switch sessions and reset it.
 *
 * The view's effects run after every render whose dependencies changed.
 * `Commit` and `Settle` model that cycle exactly as written; the class
 * `Timer` models the evidently intended behaviour (see `SwitchSession`).
 */
module StudyTimer {
  import opened Wrappers
  import Text

  datatype Mode = Focus | Break

  function Flip(m: Mode): (n: Mode)
    ensures n != m
  {
    if m == Focus then Break else Focus
  }

  /** The state cells `focusMinutes`, `breakMinutes`, `mode`, `timeLeft` and `isActive`. */
  datatype Cells = Cells(focusMinutes: int, breakMinutes: int, mode: Mode, timeLeft: int, isActive: bool)

  /** The initial cells (lines 14-19). */
  const Initial := Cells(25, 5, Focus, 25 * 60, false)

  /** The full length in seconds of a session in mode `m`. */
  function FullDuration(c: Cells, m: Mode): int {
    (if m == Focus then c.focusMinutes else c.breakMinutes) * 60
  }

  /** The invariant of the cells whenever no effect is pending. */
  predicate Settled(c: Cells) {
    && c.focusMinutes >= 1
    && c.breakMinutes >= 1
    && 0 < c.timeLeft <= FullDuration(c, c.mode)
  }

  // ---------------------------------------------------------------------
  // MM:SS

  /** `n.toString().padStart(2, '0')`. */
  function TwoDigits(n: nat): (r: string)
    ensures Text.AllDigits(r) && 2 <= |r|
    ensures n < 100 ==> |r| == 2
    ensures n >= 10 ==> r == Text.Digits(n)
  {
    var d := Text.Digits(n);
    assert n < 100 ==> |d| <= 2 by {
      if 10 <= n < 100 {
        assert d == Text.Digits(n / 10) + [Text.DigitChar(n % 10)];
      }
    }
    Text.PadStart(d, 2, '0')
  }

  /**
   * `formatTime` (lines 28-32): the whole minutes before the colon and the
   * remaining seconds after it, each padded to two digits.
   */
  function FormatTime(seconds: nat): (s: string)
    ensures |s| >= 5 && s[|s| - 3] == ':'
    ensures Text.AllDigits(s[..|s| - 3]) && Text.AllDigits(s[|s| - 2..])
    ensures Text.Value(s[..|s| - 3]) == seconds / 60 && Text.Value(s[|s| - 2..]) == seconds % 60
    ensures seconds < 6000 ==> |s| == 5
    ensures seconds / 60 >= 10 ==> s[0] != '0'
  {
    var q, r := seconds / 60, seconds % 60;
    var mm, ss := TwoDigits(q), TwoDigits(r);
    PaddedValue(q);
    PaddedValue(r);
    ColonValues(mm, ss, q, r);
    mm + ":" + ss
  }

  /** The parts on either side of the colon of `mm:ss`, for two-character `ss`. */
  lemma ColonParts(mm: string, ss: string)
    requires |ss| == 2
    ensures var s := mm + ":" + ss; s[|s| - 3] == ':' && s[..|s| - 3] == mm && s[|s| - 2..] == ss
  {
    var s := mm + ":" + ss;
    assert s[..|s| - 3] == mm;
    assert s[|s| - 2..] == ss;
  }

  /** Either side of the colon of `mm:ss` denotes what `mm` and `ss` denote. */
  lemma ColonValues(mm: string, ss: string, minutes: nat, secs: nat)
    requires Text.AllDigits(mm) && Text.AllDigits(ss) && |ss| == 2
    requires Text.Value(mm) == minutes && Text.Value(ss) == secs
    ensures var s := mm + ":" + ss;
            && s[|s| - 3] == ':' && Text.AllDigits(s[..|s| - 3]) && Text.AllDigits(s[|s| - 2..])
            && Text.Value(s[..|s| - 3]) == minutes && Text.Value(s[|s| - 2..]) == secs
  {
    ColonParts(mm, ss);
  }

  /** Reads `MM:SS` back as seconds: the two digits after the colon are seconds. */
  function ParseTime(s: string): Option<nat> {
    if |s| >= 3 && s[|s| - 3] == ':' && Text.AllDigits(s[..|s| - 3]) && Text.AllDigits(s[|s| - 2..])
    then Some(Text.Value(s[..|s| - 3]) * 60 + Text.Value(s[|s| - 2..]))
    else None
  }

  lemma PaddedValue(n: nat)
    ensures Text.Value(TwoDigits(n)) == n
  {
    var d := Text.Digits(n);
    Text.ValueOfDigits(n);
    if |d| < 2 {
      Text.ValueIgnoresLeadingZeros(2 - |d|, d);
    }
  }

  lemma ParseParts(mm: string, ss: string, seconds: nat)
    requires Text.AllDigits(mm) && Text.AllDigits(ss) && |ss| == 2
    requires Text.Value(mm) * 60 + Text.Value(ss) == seconds
    ensures ParseTime(mm + ":" + ss) == Some(seconds)
  {
    ColonParts(mm, ss);
  }

  /** The display is exact: reading `MM*60+SS` back gives the seconds shown. */
  lemma FormatTimeRoundTrip(seconds: nat)
    ensures ParseTime(FormatTime(seconds)) == Some(seconds)
  {
    var q, r := seconds / 60, seconds % 60;
    var mm, ss := TwoDigits(q), TwoDigits(r);
    assert FormatTime(seconds) == mm + ":" + ss;
    PaddedValue(q);
    PaddedValue(r);
    ParseParts(mm, ss, seconds);
  }

  // ---------------------------------------------------------------------
  // The render/effect cycle as written

  /** What a commit leaves: the cells, whether the one-second interval runs, notifications shown. */
  datatype Frame = Frame(cells: Cells, interval: bool, notices: nat)

  /** `resetTimer` re-runs when a duration or the mode changed (lines 34-37, 53-55). */
  predicate ResetDue(prev: Cells, cur: Cells) {
    prev.focusMinutes != cur.focusMinutes || prev.breakMinutes != cur.breakMinutes || prev.mode != cur.mode
  }

  /** The tick effect re-runs when `isActive`, `timeLeft` or `switchMode` (the mode) changed (lines 57-65). */
  predicate TickDue(prev: Cells, cur: Cells) {
    prev.isActive != cur.isActive || prev.timeLeft != cur.timeLeft || prev.mode != cur.mode
  }

  /** `switchMode` fires in this commit: the tick effect re-runs on an active timer at zero. */
  predicate SwitchDue(prev: Cells, cur: Cells) {
    TickDue(prev, cur) && cur.isActive && cur.timeLeft == 0
  }

  /**
   * The effects of one render whose previous dependencies were `prev`, in
   * declaration order: the reset effect's updates, then the tick effect's
   * (`switchMode` sets the mode and `isActive`).
   */
  function Commit(prev: Cells, f: Frame): (g: Frame)
    ensures g.notices == f.notices + (if SwitchDue(prev, f.cells) && f.cells.mode == Focus then 1 else 0)
    ensures !ResetDue(prev, f.cells) && !SwitchDue(prev, f.cells) ==> g.cells == f.cells
  {
    var cur := f.cells;
    var reset := if ResetDue(prev, cur) then cur.(isActive := false, timeLeft := FullDuration(cur, cur.mode)) else cur;
    var switched := if SwitchDue(prev, cur) then reset.(mode := Flip(cur.mode), isActive := true) else reset;
    var interval := if TickDue(prev, cur) then cur.isActive && cur.timeLeft > 0 else f.interval;
    var notices := f.notices + if SwitchDue(prev, cur) && cur.mode == Focus then 1 else 0;
    Frame(switched, interval, notices)
  }

  /** Renders repeat while a commit changed a cell; `fuel` bounds the number of commits. */
  function Settle(prev: Cells, f: Frame, fuel: nat): Frame
    decreases fuel
  {
    if fuel == 0 || f.cells == prev then f
    else Settle(f.cells, Commit(prev, f), fuel - 1)
  }

  const Fuel: nat := 5

  /** The outcome, as written, of an event handler that set the cells to `cur`. */
  function AsWritten(f: Frame, cur: Cells): Frame {
    Settle(f.cells, f.(cells := cur), Fuel)
  }

  /** A frame at rest: settled cells, the interval running exactly while active. */
  predicate AtRest(f: Frame) {
    Settled(f.cells) && f.interval == f.cells.isActive
  }

  /** As written, a tick that does not end the session just counts down. */
  lemma TickAsWritten(f: Frame)
    requires AtRest(f) && f.cells.isActive && f.cells.timeLeft > 1
    ensures AsWritten(f, f.cells.(timeLeft := f.cells.timeLeft - 1)) ==
            f.(cells := f.cells.(timeLeft := f.cells.timeLeft - 1))
  {
    var c0 := f.cells.(timeLeft := f.cells.timeLeft - 1);
    var f1 := Commit(f.cells, f.(cells := c0));
    assert f1 == f.(cells := c0);
  }

  /** As written, play/pause only flips `isActive` and starts or stops the interval. */
  lemma ToggleAsWritten(f: Frame)
    requires AtRest(f)
    ensures AsWritten(f, f.cells.(isActive := !f.cells.isActive)) ==
            Frame(f.cells.(isActive := !f.cells.isActive), !f.cells.isActive, f.notices)
  {
    var c0 := f.cells.(isActive := !f.cells.isActive);
    var f1 := Commit(f.cells, f.(cells := c0));
    assert f1 == Frame(c0, !f.cells.isActive, f.notices);
  }

  /**
   * As written, the end of a session switches the mode twice: the reset
   * effect and the re-created tick effect run in the same commit while
   * `timeLeft` is still 0, so `switchMode` fires again. The timer ends in
   * the mode it started in, stopped, with that mode's full duration.
   */
  lemma ExpiryAsWritten(f: Frame)
    requires AtRest(f) && f.cells.isActive && f.cells.timeLeft == 1
    ensures AsWritten(f, f.cells.(timeLeft := 0)) ==
            Frame(f.cells.(timeLeft := FullDuration(f.cells, f.cells.mode), isActive := false), false, f.notices + 1)
  {
    var s := f.cells;
    var c0 := s.(timeLeft := 0);
    var f1 := Commit(s, f.(cells := c0));
    assert f1 == Frame(c0.(mode := Flip(s.mode)), false, f.notices + (if s.mode == Focus then 1 else 0));
    var c1 := f1.cells;
    var f2 := Commit(c0, f1);
    var c2 := s.(timeLeft := FullDuration(s, Flip(s.mode)), isActive := true);
    assert f2 == Frame(c2, false, f.notices + 1);
    var f3 := Commit(c1, f2);
    var c3 := s.(timeLeft := FullDuration(s, s.mode), isActive := false);
    assert f3 == Frame(c3, true, f.notices + 1);
    var f4 := Commit(c2, f3);
    assert f4 == Frame(c3, false, f.notices + 1);
    assert Settle(c3, f4, 1) == f4;
  }

  /** A concrete run: a focus session of 25 minutes reaches zero and no break follows. */
  lemma NoBreakAfterFocus()
    ensures var f := Frame(Initial.(timeLeft := 1, isActive := true), true, 0);
            AsWritten(f, f.cells.(timeLeft := 0)).cells == Initial
  {
    ExpiryAsWritten(Frame(Initial.(timeLeft := 1, isActive := true), true, 0));
  }

  // ---------------------------------------------------------------------
  // The intended behaviour

  /**
   * `switchMode` as its comment describes it (line 50): the other mode's
   * session starts at once with its full duration.
   */
  function SwitchSession(c: Cells): (d: Cells)
    requires Settled(c)
    ensures Settled(d)
    ensures d.mode == Flip(c.mode) && d.isActive
    ensures d.timeLeft == FullDuration(c, d.mode)
    ensures d.focusMinutes == c.focusMinutes && d.breakMinutes == c.breakMinutes
  {
    var m := Flip(c.mode);
    c.(mode := m, timeLeft := FullDuration(c, m), isActive := true)
  }

  /** Two session ends in a row come back to the starting mode, running, with its full duration. */
  lemma SwitchSessionTwice(c: Cells)
    requires Settled(c)
    ensures SwitchSession(SwitchSession(c)) == c.(timeLeft := FullDuration(c, c.mode), isActive := true)
  {
  }

  class Timer {
    var focusMinutes: int
    var breakMinutes: int
    var mode: Mode
    var timeLeft: int
    var isActive: bool
    /** How many "focus session complete" notifications were shown. */
    var notices: nat

    function State(): Cells
      reads this
    {
      Cells(focusMinutes, breakMinutes, mode, timeLeft, isActive)
    }

    ghost predicate Valid()
      reads this
    {
      Settled(State())
    }

    constructor ()
      ensures Valid() && State() == Initial && notices == 0
    {
      focusMinutes, breakMinutes := 25, 5;
      mode, timeLeft, isActive := Focus, 25 * 60, false;
      notices := 0;
    }

    /** The text in the dial. */
    function Display(): string
      reads this
      requires Valid()
    {
      FormatTime(timeLeft)
    }

    /**
     * One second of the running interval (line 60); a tick that reaches
     * zero ends the session (lines 61-62). Without an active timer there is
     * no interval and nothing happens.
     */
    method Tick()
      requires Valid()
      modifies this
      ensures Valid()
      ensures !old(isActive) ==> State() == old(State()) && notices == old(notices)
      ensures old(isActive) && old(timeLeft) > 1 ==>
                State() == old(State()).(timeLeft := old(timeLeft) - 1) && notices == old(notices)
      ensures old(isActive) && old(timeLeft) == 1 ==>
                State() == SwitchSession(old(State())) &&
                notices == old(notices) + (if old(mode) == Focus then 1 else 0)
    {
      if isActive {
        timeLeft := timeLeft - 1;
        if timeLeft == 0 {
          if mode == Focus {
            notices := notices + 1;
          }
          mode := Flip(mode);
          timeLeft := FullDuration(State(), mode);
        }
      }
    }

    /** The play/pause button (line 105): flips `isActive`, nothing else. */
    method Toggle()
      requires Valid()
      modifies this
      ensures Valid() && notices == old(notices)
      ensures State() == old(State()).(isActive := !old(isActive))
    {
      isActive := !isActive;
    }

    /** `resetTimer` for the current mode (lines 34-37, 108): stopped, full duration. */
    method ResetTimer()
      requires Valid()
      modifies this
      ensures Valid() && notices == old(notices)
      ensures State() == old(State()).(isActive := false, timeLeft := FullDuration(old(State()), old(mode)))
    {
      isActive := false;
      timeLeft := FullDuration(State(), mode);
    }

    /**
     * The focus-length input (line 76): disabled while the timer runs; the
     * value is clamped to at least 1, and a changed value resets the timer.
     */
    method SetFocusMinutes(value: int)
      requires Valid()
      modifies this
      ensures Valid() && notices == old(notices)
      ensures old(isActive) ==> State() == old(State())
      ensures !old(isActive) && (if value < 1 then 1 else value) == old(focusMinutes) ==> State() == old(State())
      ensures !old(isActive) && (if value < 1 then 1 else value) != old(focusMinutes) ==>
                var c := old(State()).(focusMinutes := if value < 1 then 1 else value);
                State() == c.(timeLeft := FullDuration(c, c.mode))
    {
      if !isActive {
        var clamped := if value < 1 then 1 else value;
        if clamped != focusMinutes {
          focusMinutes := clamped;
          isActive := false;
          timeLeft := FullDuration(State(), mode);
        }
      }
    }

    /** The break-length input (line 80), as `SetFocusMinutes`. */
    method SetBreakMinutes(value: int)
      requires Valid()
      modifies this
      ensures Valid() && notices == old(notices)
      ensures old(isActive) ==> State() == old(State())
      ensures !old(isActive) && (if value < 1 then 1 else value) == old(breakMinutes) ==> State() == old(State())
      ensures !old(isActive) && (if value < 1 then 1 else value) != old(breakMinutes) ==>
                var c := old(State()).(breakMinutes := if value < 1 then 1 else value);
                State() == c.(timeLeft := FullDuration(c, c.mode))
    {
      if !isActive {
        var clamped := if value < 1 then 1 else value;
        if clamped != breakMinutes {
          breakMinutes := clamped;
          isActive := false;
          timeLeft := FullDuration(State(), mode);
        }
      }
    }
  }

  /** As written, a changed duration resets the timer exactly as `SetFocusMinutes` does. */
  lemma FocusInputAsWritten(f: Frame, value: int)
    requires AtRest(f) && !f.cells.isActive
    requires (if value < 1 then 1 else value) != f.cells.focusMinutes
    ensures var c := f.cells.(focusMinutes := if value < 1 then 1 else value);
            AsWritten(f, c) == Frame(c.(timeLeft := FullDuration(c, c.mode)), false, f.notices)
  {
    var c := f.cells.(focusMinutes := if value < 1 then 1 else value);
    var f1 := Commit(f.cells, f.(cells := c));
    var c1 := c.(timeLeft := FullDuration(c, c.mode));
    assert f1 == Frame(c1, false, f.notices);
    if c1 != c {
      var f2 := Commit(c, f1);
      assert f2 == f1;
    }
  }
}
