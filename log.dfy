/** The combat-log buffer (log.go): messages typed out letter by letter on a
    three-line display that scrolls up one line per message. */
module CombatLog {

  /** The buffer's fields. The three display lines are their text; the dot
      flags record which line markers have ever been shown since the last
      clear. Fonts, audio clips and sprite visibility are not modelled. */
  datatype LogState = LogState(
    log: seq<string>,
    idx: int,
    charAt: int,
    done: bool,
    moved: bool,
    elapsed: real,
    line1: string,
    line2: string,
    line3: string,
    dot1Shown: bool,
    dot2Shown: bool,
    dot3Shown: bool,
    paused: bool,
    skipNextFrame: bool)

  /** The configured LineDelay and LetterDelay. */
  datatype Delays = Delays(line: real, letter: real)

  /** One frame's inputs: the frame time and whether the skip key (Y or a
      right click) was just pressed. */
  datatype LogInput = LogInput(dt: real, skipKey: bool)

  /** The result of a frame: the new state, or a run-time panic (an index or
      slice out of range). */
  datatype Outcome = Running(s: LogState) | Panicked

  /** Every field at its zero value, as the system starts. */
  const Initial: LogState :=
    LogState([], 0, 0, false, false, 0.0, "", "", "", false, false, false, false, false)

  /** `idx` names an existing message. */
  predicate At(s: LogState)
  {
    0 <= s.idx < |s.log|
  }

  /** The message listener (log.go:141-149). */
  function Append(s: LogState, m: string): LogState
  {
    s.(log := s.log + [m])
  }

  /** The answer to a done query (log.go:158). */
  predicate IsDone(s: LogState)
  {
    s.done && s.idx >= |s.log| - 1
  }

  /** clear (log.go:252-271); `done` and `moved` are left as they are. */
  function Cleared(s: LogState): LogState
  {
    s.(line1 := "", line2 := "", line3 := "",
       dot1Shown := false, dot2Shown := false, dot3Shown := false,
       idx := -1, charAt := 0, log := [])
  }

  function Paused(s: LogState): LogState
  {
    s.(paused := true)
  }

  function Unpaused(s: LogState): LogState
  {
    s.(paused := false, skipNextFrame := true)
  }

  // ---------------------------------------------------------------------------
  // One frame of Update (log.go:184-250)

  /** Starting a new line: the display scrolls up by one line and the top
      line is emptied (log.go:204-223). */
  function StartLine(s: LogState): LogState
  {
    s.(elapsed := 0.0, dot1Shown := true,
       line3 := s.line2, line2 := s.line1, line1 := "", moved := true,
       dot2Shown := s.dot2Shown || s.line1 != "",
       dot3Shown := s.dot3Shown || s.line2 != "")
  }

  /** One more letter once the letter delay has passed (log.go:225-235). */
  function Letter(s: LogState, d: Delays): Outcome
  {
    if |s.log| > 0 && s.elapsed > d.letter then
      if !At(s) || !(0 <= s.charAt + 1 <= |s.log[s.idx]|) then Panicked
      else Running(s.(charAt := s.charAt + 1, line1 := s.log[s.idx][..s.charAt + 1], elapsed := 0.0))
    else Running(s)
  }

  /** The skip key shows the whole message at once (log.go:236-243). */
  function Skip(s: LogState, skipKey: bool): Outcome
  {
    if !skipKey then Running(s)
    else if !At(s) then Panicked
    else Running(s.(line1 := s.log[s.idx], charAt := 0, elapsed := 0.0, done := true))
  }

  /** The end-of-message check (log.go:244-248). */
  function Finish(s: LogState): Outcome
  {
    if |s.log| == 0 then Running(s)
    else if !At(s) then Panicked
    else if s.charAt >= |s.log[s.idx]| then Running(s.(charAt := 0, elapsed := 0.0, done := true))
    else Running(s)
  }

  /** Typing, after a possible line start. */
  function Type(s: LogState, d: Delays, skipKey: bool): Outcome
  {
    match Letter(s, d)
    case Panicked => Panicked
    case Running(s1) =>
      match Skip(s1, skipKey)
      case Panicked => Panicked
      case Running(s2) => Finish(s2)
  }

  /** The frame once the elapsed time has been advanced. */
  function Advance(s: LogState, d: Delays, skipKey: bool): Outcome
  {
    if s.done then
      Running(if s.idx < |s.log| - 1 then s.(idx := s.idx + 1, moved := false, done := false) else s)
    else if !s.moved && |s.log| > 0 then
      if s.elapsed < d.line then Running(s)
      else if !At(s) then Panicked  // the new line takes the font of log[idx]
      else Type(StartLine(s), d, skipKey)
    else Type(s, d, skipKey)
  }

  function Frame(s: LogState, d: Delays, input: LogInput): Outcome
  {
    if s.skipNextFrame then Running(s.(skipNextFrame := false))
    else if s.paused then Running(s)
    else Advance(s.(elapsed := s.elapsed + input.dt), d, input.skipKey)
  }

  // ---------------------------------------------------------------------------
  // Invariants

  /** What every reachable state satisfies: `idx` is -1 (after a clear), a
      message index, or 0 on the untouched start state; `charAt` is 0 outside typing and stays
      below the length of the message being typed; the top line shows the
      part typed so far, or the whole message once done. */
  predicate Valid(s: LogState)
  {
    && -1 <= s.idx
    && (s.idx < |s.log| || (s.idx == 0 && !s.done && !s.moved))
    && 0 <= s.charAt
    && (s.done ==> s.charAt == 0)
    && (!s.moved ==> s.charAt == 0)
    && (s.charAt > 0 ==> At(s) && s.charAt < |s.log[s.idx]|)
    && (At(s) && s.done ==> s.line1 == s.log[s.idx])
    && (At(s) && !s.done && s.moved ==> s.line1 == s.log[s.idx][..s.charAt])
  }

  /** A state from which no frame panics except on a skip key over an empty
      log: every message is non-empty and, while a message is pending, `idx`
      names one. */
  predicate Safe(s: LogState)
  {
    && Valid(s)
    && (forall i :: 0 <= i < |s.log| ==> s.log[i] != "")
    && (!s.done && |s.log| > 0 ==> At(s))
  }

  lemma InitialIsSafe()
    ensures Safe(Initial)
  {
  }

  lemma ClearIsSafe(s: LogState)
    ensures Safe(Cleared(s))
    ensures Cleared(s).log == [] && Cleared(s).idx == -1 && Cleared(s).charAt == 0
    ensures Cleared(s).done == s.done && Cleared(s).moved == s.moved
  {
  }

  /** Appending keeps every earlier message, `idx` and what is shown
      (log.go:146-148). */
  lemma AppendKeepsState(s: LogState, m: string)
    requires Valid(s)
    ensures Valid(Append(s, m))
    ensures Append(s, m).log[..|s.log|] == s.log && Append(s, m).log[|s.log|] == m
    ensures Append(s, m).idx == s.idx && IsDone(Append(s, m)) == (s.done && s.idx >= |s.log|)
  {
    var t := Append(s, m);
    assert t.log[..|s.log|] == s.log;
    if At(s) {
      assert t.log[s.idx] == s.log[s.idx];
    }
  }

  /** A non-empty message keeps the buffer safe, unless it arrives after a
      clear made while a message was still being typed. */
  lemma AppendKeepsSafe(s: LogState, m: string)
    requires Safe(s) && m != ""
    requires s.done || |s.log| > 0 || s.idx == 0
    ensures Safe(Append(s, m))
  {
    AppendKeepsState(s, m);
    var t := Append(s, m);
    forall i | 0 <= i < |t.log|
      ensures t.log[i] != ""
    {
      if i < |s.log| {
        assert t.log[i] == s.log[i];
      }
    }
  }

  /** Clearing in the middle of a message and then appending leaves `idx` at
      -1 with the message pending, and the next frame panics. */
  lemma ClearWhileTypingThenPanics()
    ensures var s := Append(Cleared(Initial.(moved := true)), "x");
            Frame(s, Delays(0.0, 0.0), LogInput(1.0, false)) == Panicked
  {
  }

  /** The done query holds, on a non-empty log, exactly when the last message
      is fully shown on the top line (log.go:158). */
  lemma DoneMeansLastLineShown(s: LogState)
    requires Valid(s) && |s.log| > 0
    ensures IsDone(s) ==> s.idx == |s.log| - 1 && s.line1 == s.log[|s.log| - 1]
  {
  }

  // ---------------------------------------------------------------------------
  // Frame properties

  /** A skip frame only clears its flag; a paused frame changes nothing
      (log.go:185-191). */
  lemma GuardedFrames(s: LogState, d: Delays, input: LogInput)
    ensures s.skipNextFrame ==> Frame(s, d, input) == Running(s.(skipNextFrame := false))
    ensures !s.skipNextFrame && s.paused ==> Frame(s, d, input) == Running(s)
    ensures Frame(Unpaused(s), d, input) == Running(s.(paused := false, skipNextFrame := false))
  {
  }

  /** When done and a later message exists, `idx` moves on by exactly one and
      typing restarts; otherwise `idx` and the flags stay (log.go:193-198). */
  lemma DoneAdvancesByOne(s: LogState, d: Delays, input: LogInput)
    requires !s.skipNextFrame && !s.paused && s.done
    ensures Frame(s, d, input).Running?
    ensures var t := Frame(s, d, input).s;
            if s.idx < |s.log| - 1
            then t.idx == s.idx + 1 && !t.moved && !t.done
            else t.idx == s.idx && t.done && t.moved == s.moved
    ensures Frame(s, d, input).s.log == s.log && Frame(s, d, input).s.line1 == s.line1
  {
  }

  /** A new line scrolls the display: line3 takes line2, line2 takes line1,
      and the top line starts over (log.go:204-223). */
  lemma NewLineScrolls(s: LogState, d: Delays, input: LogInput)
    requires Safe(s)
    requires !s.skipNextFrame && !s.paused && !s.done && !s.moved && |s.log| > 0
    requires s.elapsed + input.dt >= d.line
    ensures Frame(s, d, input).Running?
    ensures var t := Frame(s, d, input).s;
            t.line2 == s.line1 && t.line3 == s.line2 && t.moved && t.dot1Shown
            && (s.line1 != "" ==> t.dot2Shown) && (s.line2 != "" ==> t.dot3Shown)
            && t.idx == s.idx && t.log == s.log
  {
    var e := s.(elapsed := s.elapsed + input.dt);
    var u := StartLine(e);
    assert Frame(s, d, input) == Type(u, d, input.skipKey);
    assert u.charAt == 0 && At(u);
  }

  /** The skip key, once the line has started, shows the whole message and
      ends it (log.go:236-243). */
  lemma SkipShowsWholeLine(s: LogState, d: Delays, input: LogInput)
    requires Safe(s) && input.skipKey
    requires !s.skipNextFrame && !s.paused && !s.done && |s.log| > 0
    requires s.moved || s.elapsed + input.dt >= d.line
    ensures Frame(s, d, input).Running?
    ensures var t := Frame(s, d, input).s;
            t.line1 == s.log[s.idx] && t.charAt == 0 && t.done && t.idx == s.idx
  {
    var e := s.(elapsed := s.elapsed + input.dt);
    var u := if !e.moved then StartLine(e) else e;
    assert Advance(e, d, true) == Type(u, d, true);
    assert At(u) && u.charAt < |u.log[u.idx]|;
  }

  /** No panic from a safe state except a skip key over an empty log. */
  lemma SafeFrames(s: LogState, d: Delays, input: LogInput)
    requires Safe(s)
    ensures Frame(s, d, input).Panicked? <==>
            !s.skipNextFrame && !s.paused && !s.done && |s.log| == 0 && input.skipKey
  {
    if !s.skipNextFrame && !s.paused && !s.done && |s.log| > 0 {
      var e := s.(elapsed := s.elapsed + input.dt);
      if !e.moved && e.elapsed >= d.line {
        var u := StartLine(e);
        assert u.charAt == 0 && s.log[s.idx] != "";
        assert Letter(u, d).Running?;
      } else if e.moved {
        assert Letter(e, d).Running?;
      }
    }
  }

  /** Typing advances by at most one letter per frame and `charAt` never
      reaches the message length (log.go:225-228, log.go:244-248). */
  lemma FrameKeepsValid(s: LogState, d: Delays, input: LogInput)
    requires Valid(s)
    requires Frame(s, d, input).Running?
    ensures var t := Frame(s, d, input).s;
            Valid(t) && t.log == s.log
            && (t.charAt == 0 || t.charAt == s.charAt || t.charAt == s.charAt + 1)
  {
    if !s.skipNextFrame && !s.paused {
      AdvanceKeepsValid(s.(elapsed := s.elapsed + input.dt), d, input.skipKey);
    }
  }

  lemma AdvanceKeepsValid(e: LogState, d: Delays, skipKey: bool)
    requires Valid(e)
    requires Advance(e, d, skipKey).Running?
    ensures var t := Advance(e, d, skipKey).s;
            Valid(t) && t.log == e.log
            && (t.charAt == 0 || t.charAt == e.charAt || t.charAt == e.charAt + 1)
  {
    if !e.done {
      var u := if !e.moved && |e.log| > 0 && e.elapsed >= d.line then StartLine(e) else e;
      if !(!e.moved && |e.log| > 0 && e.elapsed < d.line) {
        assert Advance(e, d, skipKey) == Type(u, d, skipKey);
        TypeKeepsValid(u, d, skipKey);
      }
    }
  }

  /** `Valid`, except that the typed part may have reached the whole
      message: the state between a letter and the end-of-message check. */
  predicate Typed(s: LogState)
  {
    && -1 <= s.idx
    && (s.idx < |s.log| || (s.idx == 0 && !s.done && !s.moved))
    && 0 <= s.charAt
    && (s.done ==> s.charAt == 0)
    && (!s.moved ==> s.charAt == 0)
    && (s.charAt > 0 ==> At(s) && s.charAt <= |s.log[s.idx]|)
    && (At(s) && s.done ==> s.line1 == s.log[s.idx])
    && (At(s) && !s.done && s.moved ==> s.line1 == s.log[s.idx][..s.charAt])
  }

  lemma TypeKeepsValid(u: LogState, d: Delays, skipKey: bool)
    requires Valid(u) && !u.done && (u.moved || |u.log| == 0)
    requires Type(u, d, skipKey).Running?
    ensures var t := Type(u, d, skipKey).s;
            Valid(t) && t.log == u.log && t.idx == u.idx
            && (t.charAt == 0 || t.charAt == u.charAt || t.charAt == u.charAt + 1)
  {
    LetterKeepsTyped(u, d);
    var s1 := Letter(u, d).s;
    var s2 := Skip(s1, skipKey).s;
    assert Typed(s2);
    FinishMakesValid(s2);
  }

  lemma LetterKeepsTyped(u: LogState, d: Delays)
    requires Valid(u) && !u.done && (u.moved || |u.log| == 0)
    requires Letter(u, d).Running?
    ensures var s1 := Letter(u, d).s;
            Typed(s1) && s1.log == u.log && s1.idx == u.idx && !s1.done && s1.moved == u.moved
            && (s1.charAt == u.charAt || s1.charAt == u.charAt + 1)
  {
    if |u.log| > 0 && u.elapsed > d.letter {
      var s1 := Letter(u, d).s;
      assert s1.line1 == u.log[u.idx][..s1.charAt];
    }
  }

  lemma FinishMakesValid(s2: LogState)
    requires Typed(s2) && (s2.done || s2.moved || |s2.log| == 0)
    requires Finish(s2).Running?
    ensures var t := Finish(s2).s;
            Valid(t) && t.log == s2.log && t.idx == s2.idx && (t.charAt == 0 || t.charAt == s2.charAt)
  {
    var t := Finish(s2).s;
    if At(t) && t.done && !s2.done {
      assert s2.charAt >= |s2.log[s2.idx]|;
      assert s2.line1 == s2.log[s2.idx][..s2.charAt];
      assert s2.log[s2.idx][..s2.charAt] == s2.log[s2.idx];
    }
  }

  /** A safe state stays safe across every frame that does not panic. */
  lemma FrameKeepsSafe(s: LogState, d: Delays, input: LogInput)
    requires Safe(s)
    requires Frame(s, d, input).Running?
    ensures Safe(Frame(s, d, input).s)
  {
    FrameKeepsValid(s, d, input);
  }

  // ---------------------------------------------------------------------------
  // The object

  class CombatLogSystem {
    const delays: Delays
    var log: seq<string>
    var idx: int
    var charAt: int
    var done: bool
    var moved: bool
    var elapsed: real
    var line1: string
    var line2: string
    var line3: string
    var dot1Shown: bool
    var dot2Shown: bool
    var dot3Shown: bool
    var paused: bool
    var skipNextFrame: bool

    function Snapshot(): LogState
      reads this
    {
      LogState(log, idx, charAt, done, moved, elapsed, line1, line2, line3,
               dot1Shown, dot2Shown, dot3Shown, paused, skipNextFrame)
    }

    constructor (delays: Delays)
      ensures this.delays == delays && Snapshot() == Initial
    {
      this.delays := delays;
      log, idx, charAt, done, moved, elapsed := [], 0, 0, false, false, 0.0;
      line1, line2, line3 := "", "", "";
      dot1Shown, dot2Shown, dot3Shown := false, false, false;
      paused, skipNextFrame := false, false;
    }

    method OnMessage(m: string)
      modifies this
      ensures Snapshot() == Append(old(Snapshot()), m)
    {
      log := log + [m];
    }

    method OnDoneQuery() returns (answer: bool)
      ensures answer == IsDone(Snapshot())
      ensures answer && |log| > 0 && Valid(Snapshot()) ==> line1 == log[|log| - 1]
    {
      answer := done && idx >= |log| - 1;
      if answer && |log| > 0 && Valid(Snapshot()) {
        DoneMeansLastLineShown(Snapshot());
      }
    }

    method Clear()
      modifies this
      ensures Snapshot() == Cleared(old(Snapshot()))
    {
      BlankLines();
      Forget();
    }

    /** The three lines emptied and their markers reset (log.go:253-264). */
    method BlankLines()
      modifies this`line1, this`line2, this`line3, this`dot1Shown, this`dot2Shown, this`dot3Shown
      ensures line1 == "" && line2 == "" && line3 == ""
      ensures !dot1Shown && !dot2Shown && !dot3Shown
    {
      line1, dot1Shown := "", false;
      line2, dot2Shown := "", false;
      line3, dot3Shown := "", false;
    }

    /** The messages dropped and the position reset (log.go:265-270). */
    method Forget()
      modifies this`idx, this`charAt, this`log
      ensures idx == -1 && charAt == 0 && log == []
    {
      idx, charAt, log := -1, 0, [];
    }

    method Pause()
      modifies this
      ensures Snapshot() == Paused(old(Snapshot()))
    {
      paused := true;
    }

    method Unpause()
      modifies this
      ensures Snapshot() == Unpaused(old(Snapshot()))
    {
      paused, skipNextFrame := false, true;
    }

    /** One frame. On a panic the fields hold whatever was written before it. */
    method Update(input: LogInput) returns (panicked: bool)
      modifies this
      ensures panicked == Frame(old(Snapshot()), delays, input).Panicked?
      ensures !panicked ==> Snapshot() == Frame(old(Snapshot()), delays, input).s
    {
      ghost var s := Snapshot();
      panicked := false;
      if skipNextFrame {
        skipNextFrame := false;
        assert Frame(s, delays, input) == Running(s.(skipNextFrame := false));
        return;
      }
      if paused {
        return;
      }
      Tick(input.dt);
      assert Frame(s, delays, input) == Advance(Snapshot(), delays, input.skipKey);
      panicked := AdvanceFrame(input.skipKey);
    }

    /** The frame time is added to the elapsed time (log.go:192). */
    method Tick(dt: real)
      modifies this`elapsed
      ensures Snapshot() == old(Snapshot()).(elapsed := old(elapsed) + dt)
    {
      elapsed := elapsed + dt;
    }

    method AdvanceFrame(skipKey: bool) returns (panicked: bool)
      modifies this
      ensures panicked == Advance(old(Snapshot()), delays, skipKey).Panicked?
      ensures !panicked ==> Snapshot() == Advance(old(Snapshot()), delays, skipKey).s
    {
      panicked := false;
      if done {
        if idx < |log| - 1 {
          idx, moved, done := idx + 1, false, false;
        }
        return;
      }
      if !moved && |log| > 0 {
        if elapsed < delays.line {
          return;
        }
        if !(0 <= idx < |log|) {
          return true;
        }
        ScrollUp();
      }
      panicked := TypeFrame(skipKey);
    }

    method ScrollUp()
      modifies this
      ensures Snapshot() == StartLine(old(Snapshot()))
    {
      StartTimer();
      ShiftLines();
    }

    /** The line timer restarts and the first marker shows (log.go:204-206, 213). */
    method StartTimer()
      modifies this`elapsed, this`dot1Shown, this`moved
      ensures elapsed == 0.0 && dot1Shown && moved
    {
      elapsed := 0.0;
      dot1Shown := true;
      moved := true;
    }

    /** The lines move up one place and a marker shows beside each line
        that has text (log.go:207-222). */
    method ShiftLines()
      modifies this`line1, this`line2, this`line3, this`dot2Shown, this`dot3Shown
      ensures line3 == old(line2) && line2 == old(line1) && line1 == ""
      ensures dot2Shown == (old(dot2Shown) || old(line1) != "")
      ensures dot3Shown == (old(dot3Shown) || old(line2) != "")
    {
      line3, line2, line1 := line2, line1, "";
      if line2 != "" {
        dot2Shown := true;
      }
      if line3 != "" {
        dot3Shown := true;
      }
    }

    method TypeFrame(skipKey: bool) returns (panicked: bool)
      modifies this
      ensures panicked == Type(old(Snapshot()), delays, skipKey).Panicked?
      ensures !panicked ==> Snapshot() == Type(old(Snapshot()), delays, skipKey).s
    {
      panicked := LetterStep();
      if panicked {
        return;
      }
      panicked := SkipStep(skipKey);
      if panicked {
        return;
      }
      panicked := FinishStep();
    }

    method LetterStep() returns (panicked: bool)
      modifies this
      ensures panicked == Letter(old(Snapshot()), delays).Panicked?
      ensures !panicked ==> Snapshot() == Letter(old(Snapshot()), delays).s
    {
      panicked := false;
      if |log| > 0 && elapsed > delays.letter {
        if !(0 <= idx < |log|) || !(0 <= charAt + 1 <= |log[idx]|) {
          return true;
        }
        charAt := charAt + 1;
        line1 := log[idx][..charAt];
        elapsed := 0.0;
      }
    }

    method SkipStep(skipKey: bool) returns (panicked: bool)
      modifies this
      ensures panicked == Skip(old(Snapshot()), skipKey).Panicked?
      ensures !panicked ==> Snapshot() == Skip(old(Snapshot()), skipKey).s
    {
      panicked := false;
      if skipKey {
        if !(0 <= idx < |log|) {
          return true;
        }
        line1, charAt, elapsed, done := log[idx], 0, 0.0, true;
      }
    }

    method FinishStep() returns (panicked: bool)
      modifies this
      ensures panicked == Finish(old(Snapshot())).Panicked?
      ensures !panicked ==> Snapshot() == Finish(old(Snapshot())).s
    {
      panicked := false;
      if |log| > 0 {
        if !(0 <= idx < |log|) {
          return true;
        }
        if charAt >= |log[idx]| {
          charAt, elapsed, done := 0, 0.0, true;
        }
      }
    }
  }
}
