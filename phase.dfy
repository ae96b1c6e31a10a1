/**
  The scene-phase controller (phase.go): a current/pending phase pair, a FIFO
  queue of requested phases, and a per-frame Update that performs at most one
  transition and then runs the current phase's own exit rule.

  The pure functions below are the specification: `Request`, `Dequeue` and
  `Step` say what one message or one frame does to the controller's state.
  `PhaseSystem` is the object the game updates in place; each of its methods is
  proved to do exactly what the corresponding function says.
*/
module Phases {
  import opened Common

  /** The scene phases. The enum of the source stops at Accept; the fight-scene
      menus also request CardSelect, AbilitySelect, ItemSelect and Target, so
      the model's enum carries those four as well. */
  datatype Phase =
    | Beginning | Listen | Walk | LogClear | Accept
    | CardSelect | AbilitySelect | ItemSelect | Target

  /** The two messages any subsystem may send the controller. */
  datatype PhaseCommand = SetPhase(phase: Phase) | DequeuePhase

  /** The subsystems a transition pauses. */
  datatype Collaborator = CombatLog | Doors | Interests | AcceptPrompt

  /** What the controller tells the rest of the game, recorded in order. */
  datatype Event =
    | DetachControls        // movers and cursor entities leave the move and cursor systems
    | Pause(who: Collaborator)
    | Unpause(who: Collaborator)
    | AttachMovers          // movers rejoin the move system (entering Walk)
    | ClearLog
    | AcceptCalled(action: nat)

  /** A registered accept callback: `action` names what it does to the save
      state (the scene interprets it) and `script` lists the phase messages it
      sends, in order. */
  datatype Callback = Callback(action: nat, script: seq<PhaseCommand>)

  datatype PhaseState = PhaseState(current: Phase, pending: Phase, queue: seq<Phase>)

  /** Nothing is running and nothing is on its way. */
  predicate Idle(st: PhaseState)
  {
    st.current == Beginning && st.pending == Beginning
  }

  /** A set request: applied at once when idle, queued otherwise (phase.go:73-77). */
  function Request(st: PhaseState, p: Phase): PhaseState
  {
    if Idle(st) then st.(pending := p) else st.(queue := st.queue + [p])
  }

  /** An explicit dequeue: pop the head into `pending`, or fall back to Beginning (phase.go:193-202). */
  function Dequeue(st: PhaseState): PhaseState
  {
    if |st.queue| > 0 then st.(pending := st.queue[0], queue := st.queue[1..])
    else st.(pending := Beginning)
  }

  function Apply(st: PhaseState, cmd: PhaseCommand): PhaseState
  {
    match cmd
    case SetPhase(p) => Request(st, p)
    case DequeuePhase => Dequeue(st)
  }

  /** The commands `cmds` delivered one after another. */
  function ApplyAll(st: PhaseState, cmds: seq<PhaseCommand>): (r: PhaseState)
    decreases |cmds|
    ensures r.current == st.current  // messages never switch phases; only Update does
    ensures |r.queue| <= |st.queue| + |cmds|
  {
    if cmds == [] then st else Apply(ApplyAll(st, cmds[..|cmds| - 1]), cmds[|cmds| - 1])
  }

  // ---------------------------------------------------------------------------
  // Queue order

  /** One thing that can happen to the phase pair and queue: a message, or the
      switch `current := pending` with which Update starts a transition. */
  datatype Move = Command(cmd: PhaseCommand) | Switch

  function Perform(st: PhaseState, s: Move): PhaseState
  {
    match s
    case Command(c) => Apply(st, c)
    case Switch => st.(current := st.pending)
  }

  /** The phase (if any) that a step moves into `pending`: an applied request
      or the popped head of the queue. */
  function Promoted(st: PhaseState, s: Move): seq<Phase>
  {
    match s
    case Command(SetPhase(p)) => if Idle(st) then [p] else []
    case Command(DequeuePhase) => if |st.queue| > 0 then [st.queue[0]] else []
    case Switch => []
  }

  /** The phase a move requests, if it is a set request. */
  function Requested(s: Move): seq<Phase>
  {
    match s
    case Command(SetPhase(p)) => [p]
    case _ => []
  }

  /** The phases requested by `steps`, in order. */
  function Submitted(steps: seq<Move>): seq<Phase>
    decreases |steps|
  {
    if steps == [] then [] else Submitted(steps[..|steps| - 1]) + Requested(steps[|steps| - 1])
  }

  function RunSteps(st: PhaseState, steps: seq<Move>): PhaseState
    decreases |steps|
  {
    if steps == [] then st else Perform(RunSteps(st, steps[..|steps| - 1]), steps[|steps| - 1])
  }

  /** Every phase that reached `pending` during `steps`, in order. */
  function PromotedAll(st: PhaseState, steps: seq<Move>): seq<Phase>
    decreases |steps|
  {
    if steps == [] then []
    else PromotedAll(st, steps[..|steps| - 1])
         + Promoted(RunSteps(st, steps[..|steps| - 1]), steps[|steps| - 1])
  }

  /** The queue holds no Beginning, and is empty whenever the controller is
      heading for Beginning. */
  predicate Orderly(st: PhaseState)
  {
    Beginning !in st.queue && (st.pending == Beginning ==> st.queue == [])
  }

  /** A step that does not deliver a request while the controller is still
      winding down to Beginning from another phase: such a request would be
      queued behind nothing, and the next request after the switch would then
      overtake it. */
  predicate Timely(st: PhaseState, s: Move)
  {
    s.Command? && s.cmd.SetPhase? ==> !(st.pending == Beginning && st.current != Beginning)
  }

  predicate AllTimely(st: PhaseState, steps: seq<Move>)
    decreases |steps|
  {
    steps != [] ==>
      AllTimely(st, steps[..|steps| - 1]) && Timely(RunSteps(st, steps[..|steps| - 1]), steps[|steps| - 1])
  }

  lemma {:induction false} PerformKeepsOrder(st: PhaseState, s: Move)
    requires Orderly(st) && Timely(st, s)
    requires s.Command? && s.cmd.SetPhase? ==> s.cmd.phase != Beginning
    ensures Orderly(Perform(st, s))
    ensures Promoted(st, s) + Perform(st, s).queue == st.queue + Requested(s)
  {
    match s
    case Switch =>
    case Command(DequeuePhase) =>
      if |st.queue| > 0 {
        assert st.queue == [st.queue[0]] + st.queue[1..];
      }
    case Command(SetPhase(p)) =>
  }

  /** FIFO: as long as no request arrives while the controller winds down to
      Beginning, every phase reaches `pending` in exactly the order it was
      queued or requested (phase.go:76, phase.go:197-198). */
  lemma {:induction false} QueueIsFifo(st: PhaseState, steps: seq<Move>)
    requires Orderly(st)
    requires Beginning !in Submitted(steps)
    requires AllTimely(st, steps)
    ensures Orderly(RunSteps(st, steps))
    ensures PromotedAll(st, steps) + RunSteps(st, steps).queue == st.queue + Submitted(steps)
    decreases |steps|
  {
    if steps != [] {
      var init, last := steps[..|steps| - 1], steps[|steps| - 1];
      var mid := RunSteps(st, init);
      assert Submitted(steps) == Submitted(init) + Requested(last);
      assert AllTimely(st, init) && Timely(mid, last);
      QueueIsFifo(st, init);
      PerformKeepsOrder(mid, last);
      FifoStep(PromotedAll(st, init), mid.queue, st.queue + Submitted(init),
               Promoted(mid, last), Perform(mid, last).queue, Requested(last));
    }
  }

  lemma FifoStep<T>(a: seq<T>, q: seq<T>, lhs: seq<T>, p: seq<T>, q': seq<T>, r: seq<T>)
    requires a + q == lhs && p + q' == q + r
    ensures (a + p) + q' == lhs + r
  {
    calc {
      (a + p) + q';
      a + (p + q');
      a + (q + r);
      (a + q) + r;
    }
  }

  /** Without the timeliness condition the order can break: after the queue ran
      dry from Walk, a queued Listen is overtaken by a Walk requested once the
      controller has settled on Beginning. */
  lemma LateRequestOvertakesQueue()
    ensures var st := PhaseState(Walk, Walk, []);
            var steps := [Command(DequeuePhase), Command(SetPhase(Listen)), Switch,
                          Command(SetPhase(Walk)), Command(DequeuePhase)];
            Submitted(steps) == [Listen, Walk] && PromotedAll(st, steps) == [Walk, Listen]
  {
    var st := PhaseState(Walk, Walk, []);
    var steps := [Command(DequeuePhase), Command(SetPhase(Listen)), Switch,
                  Command(SetPhase(Walk)), Command(DequeuePhase)];
    assert steps[..5] == steps;
    assert steps[..4][..3] == steps[..3];
    assert steps[..3][..2] == steps[..2];
    assert steps[..2][..1] == steps[..1];
    assert steps[..1][..0] == [];
    assert RunSteps(st, steps[..1]) == PhaseState(Walk, Beginning, []);
    assert RunSteps(st, steps[..2]) == PhaseState(Walk, Beginning, [Listen]);
    assert RunSteps(st, steps[..3]) == PhaseState(Beginning, Beginning, [Listen]);
    assert RunSteps(st, steps[..4]) == PhaseState(Beginning, Walk, [Listen]);
    assert PromotedAll(st, steps[..1]) == [];
    assert PromotedAll(st, steps[..2]) == [];
    assert PromotedAll(st, steps[..3]) == [];
    assert PromotedAll(st, steps[..4]) == [Walk];
    assert Submitted(steps[..1]) == [];
    assert Submitted(steps[..2]) == [Listen];
    assert Submitted(steps[..3]) == [Listen];
    assert Submitted(steps[..4]) == [Listen, Walk];
  }

  // ---------------------------------------------------------------------------
  // One frame

  /** The per-frame inputs the controller polls: buttons A, B, X, a left click,
      the combat log's "done" answer and the accept prompt's "yes selected" answer. */
  datatype FrameInput = FrameInput(
    a: bool, b: bool, x: bool, leftClick: bool,
    logDone: bool, yesSelected: bool)

  /** Everything the controller owns, as one value. */
  datatype Controller = Controller(
    st: PhaseState,
    acceptFunc: Option<Callback>,
    acceptLogWait: bool,
    trace: seq<Event>)

  /** Sent at the start of every transition, whatever the new phase (phase.go:104-125). */
  const PauseAll: seq<Event> :=
    [DetachControls, Pause(CombatLog), Pause(Doors), Pause(Interests), Pause(AcceptPrompt)]

  /** What entering `p` switches back on (phase.go:126-149). */
  function Activation(p: Phase): (r: seq<Event>)
    ensures forall e :: e in r ==> !e.Pause? && !e.DetachControls? && e != Unpause(AcceptPrompt)
    ensures r == [] <==> p !in {Listen, Walk, LogClear, Accept}
  {
    match p
    case Listen => [Unpause(CombatLog)]
    case Walk => [AttachMovers, Unpause(Doors), Unpause(Interests)]
    case LogClear => [ClearLog]
    case Accept => [Unpause(CombatLog)]
    case _ => []
  }

  /** The transition half of Update (phase.go:103-151). */
  function Enter(c: Controller): Controller
  {
    if c.st.current == c.st.pending then c
    else Controller(
      c.st.(current := c.st.pending),
      c.acceptFunc,
      c.acceptLogWait || c.st.pending == Accept,
      c.trace + PauseAll + Activation(c.st.pending))
  }

  /** Confirm in Accept: the callback runs iff "yes" is selected and one is
      registered, and the controller dequeues either way (phase.go:177-186). */
  function Confirm(c: Controller, yes: bool): Controller
  {
    if yes && c.acceptFunc.Some? then
      c.(st := Dequeue(ApplyAll(c.st, c.acceptFunc.value.script)),
         trace := c.trace + [AcceptCalled(c.acceptFunc.value.action)])
    else c.(st := Dequeue(c.st))
  }

  /** The per-phase half of Update (phase.go:153-190). */
  function PhaseLogic(c: Controller, input: FrameInput): Controller
  {
    match c.st.current
    case Listen =>
      if input.logDone && (input.a || input.b || input.x || input.leftClick)
      then c.(st := Dequeue(c.st)) else c
    case LogClear => c.(st := Dequeue(c.st))
    case Accept =>
      if !input.logDone then c
      else
        var c1 := if c.acceptLogWait
                  then c.(acceptLogWait := false, trace := c.trace + [Unpause(AcceptPrompt)])
                  else c;
        var c2 := if input.a || input.leftClick then Confirm(c1, input.yesSelected) else c1;
        if input.b then c2.(st := Dequeue(c2.st)) else c2
    case _ => c
  }

  /** One call of Update. */
  function Step(c: Controller, input: FrameInput): Controller
  {
    PhaseLogic(Enter(c), input)
  }

  /** A transition first pauses every collaborator, then switches on only what
      the new phase needs; the frame ends with the old pending phase current. */
  lemma TransitionPausesBeforeActivating(c: Controller, input: FrameInput)
    requires c.st.current != c.st.pending
    ensures var n := |c.trace| + |PauseAll| + |Activation(c.st.pending)|;
            |Step(c, input).trace| >= n &&
            Step(c, input).trace[..n] == c.trace + PauseAll + Activation(c.st.pending)
    ensures Step(c, input).st.current == c.st.pending
  {
    var n := |c.trace| + |PauseAll| + |Activation(c.st.pending)|;
    PhaseLogicExtendsTrace(Enter(c), input);
    assert Enter(c).trace == c.trace + PauseAll + Activation(c.st.pending);
    assert |Enter(c).trace| == n;
  }

  /** Without a pending change no pause is sent and `current` stays put. */
  lemma NoTransitionNoPause(c: Controller, input: FrameInput)
    requires c.st.current == c.st.pending
    ensures Step(c, input).st.current == c.st.current
    ensures |Step(c, input).trace| >= |c.trace| && Step(c, input).trace[..|c.trace|] == c.trace
    ensures forall e :: e in Step(c, input).trace[|c.trace|..] ==> !e.Pause? && !e.DetachControls?
  {
    PhaseLogicExtendsTrace(c, input);
  }

  /** Entering Beginning pauses everything and switches nothing back on: the
      transition has no case for it (phase.go:113-125). */
  lemma EnteringBeginningOnlyPauses(c: Controller, input: FrameInput)
    requires c.st.current != Beginning && c.st.pending == Beginning
    ensures Step(c, input).trace == c.trace + PauseAll
    ensures Step(c, input).st == c.st.(current := Beginning)
  {
    assert Activation(Beginning) == [];
  }

  /** In Listen nothing is dequeued until the log is done; after that A, B, X
      or a left click dequeues (phase.go:154-161). */
  lemma ListenWaitsForLog(c: Controller, input: FrameInput)
    requires c.st.current == Listen && c.st.pending == Listen
    ensures !input.logDone ==> Step(c, input) == c
    ensures input.logDone && (input.a || input.b || input.x || input.leftClick)
            ==> Step(c, input).st == Dequeue(c.st)
  {
  }

  /** LogClear dequeues on the very frame it is entered (phase.go:164-165). */
  lemma LogClearIsOneShot(c: Controller, input: FrameInput)
    requires c.st.pending == LogClear && c.st.current != LogClear
    ensures Step(c, input).st == Dequeue(c.st.(current := LogClear))
    ensures Step(c, input).trace == c.trace + PauseAll + [ClearLog]
  {
  }

  /** In Accept, a confirm calls the stored callback iff "yes" is selected and
      a callback is registered; the callback is kept afterwards
      (phase.go:85, phase.go:177-189). */
  lemma AcceptCallsCallbackOnlyOnYes(c: Controller, input: FrameInput)
    requires c.st.current == Accept && c.st.pending == Accept
    requires input.logDone && (input.a || input.leftClick)
    ensures Step(c, input).acceptFunc == c.acceptFunc
    ensures |Step(c, input).trace| >= |c.trace|
    ensures input.yesSelected && c.acceptFunc.Some?
            ==> AcceptCalled(c.acceptFunc.value.action) in Step(c, input).trace[|c.trace|..]
    ensures !(input.yesSelected && c.acceptFunc.Some?)
            ==> forall e :: e in Step(c, input).trace[|c.trace|..] ==> !e.AcceptCalled?
  {
    var c1 := if c.acceptLogWait
              then c.(acceptLogWait := false, trace := c.trace + [Unpause(AcceptPrompt)])
              else c;
    var w := if c.acceptLogWait then [Unpause(AcceptPrompt)] else [];
    assert c1.trace == c.trace + w;
    var c2 := Confirm(c1, input.yesSelected);
    assert Step(c, input).trace == c2.trace;
    if input.yesSelected && c.acceptFunc.Some? {
      var k := c.acceptFunc.value.action;
      assert c2.trace == c.trace + (w + [AcceptCalled(k)]);
      assert Step(c, input).trace[|c.trace|..] == w + [AcceptCalled(k)];
    } else {
      assert Step(c, input).trace[|c.trace|..] == w;
    }
  }

  /** Number of accept-prompt unpauses in a trace. */
  function PromptUnpauses(t: seq<Event>): nat
  {
    Count(t, Unpause(AcceptPrompt))
  }

  /** The per-phase logic only ever appends to the trace. */
  lemma PhaseLogicExtendsTrace(c: Controller, input: FrameInput)
    ensures |PhaseLogic(c, input).trace| >= |c.trace|
    ensures PhaseLogic(c, input).trace[..|c.trace|] == c.trace
    ensures forall e :: e in PhaseLogic(c, input).trace[|c.trace|..]
              ==> e == Unpause(AcceptPrompt) || e.AcceptCalled?
  {
    if c.st.current == Accept && input.logDone {
      var c1 := if c.acceptLogWait
                then c.(acceptLogWait := false, trace := c.trace + [Unpause(AcceptPrompt)])
                else c;
      var w := if c.acceptLogWait then [Unpause(AcceptPrompt)] else [];
      assert c1.trace == c.trace + w;
      var c2 := if input.a || input.leftClick then Confirm(c1, input.yesSelected) else c1;
      var k := if c1.acceptFunc.Some? then c1.acceptFunc.value.action else 0;
      var v := if (input.a || input.leftClick) && input.yesSelected && c1.acceptFunc.Some?
               then [AcceptCalled(k)] else [];
      assert c2.trace == c.trace + (w + v);
      assert PhaseLogic(c, input).trace == c2.trace;
    }
  }

  /** A transition sends no prompt unpause; it raises the wait flag only on entering Accept. */
  lemma EnterPromptUnpause(c: Controller)
    ensures var e := Enter(c);
            |e.trace| >= |c.trace| && e.trace[..|c.trace|] == c.trace &&
            PromptUnpauses(e.trace) == PromptUnpauses(c.trace) &&
            e.acceptLogWait == (c.acceptLogWait || (c.st.current != c.st.pending && c.st.pending == Accept))
  {
    if c.st.current != c.st.pending {
      var added := PauseAll + Activation(c.st.pending);
      assert Unpause(AcceptPrompt) !in added;
      CountAbsent(added, Unpause(AcceptPrompt));
      CountAppend(c.trace, added, Unpause(AcceptPrompt));
      assert Enter(c).trace == c.trace + added;
    }
  }

  /** The per-phase logic sends a prompt unpause only by lowering the wait flag. */
  lemma PhaseLogicPromptUnpause(e: Controller, input: FrameInput)
    ensures var d := PhaseLogic(e, input);
            PromptUnpauses(d.trace) + (if d.acceptLogWait then 1 else 0)
            <= PromptUnpauses(e.trace) + (if e.acceptLogWait then 1 else 0)
  {
    if e.st.current == Accept && input.logDone {
      var c1 := if e.acceptLogWait
                then e.(acceptLogWait := false, trace := e.trace + [Unpause(AcceptPrompt)])
                else e;
      if e.acceptLogWait {
        CountAppend(e.trace, [Unpause(AcceptPrompt)], Unpause(AcceptPrompt));
        assert [Unpause(AcceptPrompt)][..0] == [];
      }
      var c2 := if input.a || input.leftClick then Confirm(c1, input.yesSelected) else c1;
      if (input.a || input.leftClick) && input.yesSelected && c1.acceptFunc.Some? {
        var k := c1.acceptFunc.value.action;
        CountAbsent([AcceptCalled(k)], Unpause(AcceptPrompt));
        CountAppend(c1.trace, [AcceptCalled(k)], Unpause(AcceptPrompt));
      }
      assert PromptUnpauses(c2.trace) == PromptUnpauses(c1.trace);
      assert PhaseLogic(e, input).trace == c2.trace;
      assert PhaseLogic(e, input).acceptLogWait == c2.acceptLogWait;
    }
  }

  /** One frame emits at most one prompt unpause, only when the wait flag was
      up (or raised by entering Accept), and lowers the flag when it does. */
  lemma StepPromptUnpause(c: Controller, input: FrameInput)
    ensures var d := Step(c, input);
            var entered := c.st.current != c.st.pending && c.st.pending == Accept;
            |d.trace| >= |c.trace| && d.trace[..|c.trace|] == c.trace &&
            PromptUnpauses(d.trace) + (if d.acceptLogWait then 1 else 0)
            <= PromptUnpauses(c.trace) + (if c.acceptLogWait || entered then 1 else 0)
  {
    var e := Enter(c);
    EnterPromptUnpause(c);
    PhaseLogicExtendsTrace(e, input);
    PhaseLogicPromptUnpause(e, input);
  }

  /** Frames run one after another. */
  function Frames(c: Controller, inputs: seq<FrameInput>): Controller
    decreases |inputs|
  {
    if inputs == [] then c else Step(Frames(c, inputs[..|inputs| - 1]), inputs[|inputs| - 1])
  }

  /** Number of frames in `inputs` whose transition enters Accept. */
  function AcceptEntries(c: Controller, inputs: seq<FrameInput>): nat
    decreases |inputs|
  {
    if inputs == [] then 0
    else
      var before := Frames(c, inputs[..|inputs| - 1]);
      AcceptEntries(c, inputs[..|inputs| - 1])
      + (if before.st.current != before.st.pending && before.st.pending == Accept then 1 else 0)
  }

  /** The accept prompt is switched on at most once per entry into Accept
      (phase.go:144-148, phase.go:166-176): over any run of frames, the prompt
      unpauses plus a wait flag still up never exceed the entries into Accept
      plus a wait flag already up when the run began. */
  lemma {:induction false} PromptUnpausedOncePerEntry(c: Controller, inputs: seq<FrameInput>)
    ensures var d := Frames(c, inputs);
            |d.trace| >= |c.trace| && d.trace[..|c.trace|] == c.trace &&
            PromptUnpauses(d.trace) + (if d.acceptLogWait then 1 else 0)
            <= PromptUnpauses(c.trace) + AcceptEntries(c, inputs) + (if c.acceptLogWait then 1 else 0)
    decreases |inputs|
  {
    if inputs != [] {
      var init := inputs[..|inputs| - 1];
      PromptUnpausedOncePerEntry(c, init);
      var mid := Frames(c, init);
      StepPromptUnpause(mid, inputs[|inputs| - 1]);
    }
  }

  // ---------------------------------------------------------------------------
  // The object

  class PhaseSystem {
    var current: Phase
    var pending: Phase
    var queue: seq<Phase>
    var acceptFunc: Option<Callback>
    var acceptLogWait: bool
    /** Every message sent to a collaborator so far. */
    var trace: seq<Event>

    function State(): PhaseState
      reads this
    {
      PhaseState(current, pending, queue)
    }

    function Snapshot(): Controller
      reads this
    {
      Controller(State(), acceptFunc, acceptLogWait, trace)
    }

    constructor ()
      ensures Snapshot() == Controller(PhaseState(Beginning, Beginning, []), None, false, [])
    {
      current, pending, queue := Beginning, Beginning, [];
      acceptFunc, acceptLogWait, trace := None, false, [];
    }

    /** The set-phase listener. */
    method OnSetPhase(p: Phase)
      modifies this
      ensures Snapshot() == old(Snapshot()).(st := Request(old(State()), p))
    {
      if current == Beginning && pending == Beginning {
        pending := p;
      } else {
        queue := queue + [p];
      }
    }

    /** The accept-set listener: the registered callback is replaced, never cleared by use. */
    method OnAcceptSet(f: Option<Callback>)
      modifies this
      ensures Snapshot() == old(Snapshot()).(acceptFunc := f)
    {
      acceptFunc := f;
    }

    /** The dequeue listener. */
    method OnDequeue()
      modifies this
      ensures Snapshot() == old(Snapshot()).(st := Dequeue(old(State())))
    {
      if |queue| > 0 {
        pending := queue[0];
        queue := queue[1..];
      } else {
        pending := Beginning;
      }
    }

    /** The messages a callback sends, delivered in order. */
    method Deliver(cmds: seq<PhaseCommand>)
      modifies this
      ensures Snapshot() == old(Snapshot()).(st := ApplyAll(old(State()), cmds))
    {
      for i := 0 to |cmds|
        invariant Snapshot() == old(Snapshot()).(st := ApplyAll(old(State()), cmds[..i]))
      {
        assert cmds[..i + 1][..i] == cmds[..i];
        match cmds[i]
        case SetPhase(p) => OnSetPhase(p);
        case DequeuePhase => OnDequeue();
      }
      assert cmds[..|cmds|] == cmds;
    }

    /** The transition at the start of a frame. */
    method Transition()
      modifies this
      ensures Snapshot() == Enter(old(Snapshot()))
    {
      if current != pending {
        trace := trace + PauseAll;
        match pending {
          case Listen =>
            trace := trace + [Unpause(CombatLog)];
          case Walk =>
            trace := trace + [AttachMovers, Unpause(Doors), Unpause(Interests)];
          case LogClear =>
            trace := trace + [ClearLog];
          case Accept =>
            trace := trace + [Unpause(CombatLog)];
            acceptLogWait := true;
          case _ =>
        }
        current := pending;
      }
    }

    /** Accept's per-frame rule. */
    method AcceptFrame(input: FrameInput)
      requires current == Accept
      modifies this
      ensures Snapshot() == PhaseLogic(old(Snapshot()), input)
    {
      if !input.logDone {
        return;
      }
      if acceptLogWait {
        trace := trace + [Unpause(AcceptPrompt)];
        acceptLogWait := false;
      }
      if input.a || input.leftClick {
        if input.yesSelected && acceptFunc.Some? {
          trace := trace + [AcceptCalled(acceptFunc.value.action)];
          Deliver(acceptFunc.value.script);
          OnDequeue();
        } else {
          OnDequeue();
        }
      }
      if input.b {
        OnDequeue();
      }
    }

    method Update(input: FrameInput)
      modifies this
      ensures Snapshot() == Step(old(Snapshot()), input)
    {
      Transition();
      match current
      case Listen =>
        if input.logDone && (input.a || input.b || input.x || input.leftClick) {
          OnDequeue();
        }
      case LogClear =>
        OnDequeue();
      case Accept =>
        AcceptFrame(input);
      case _ =>
    }
  }
}
