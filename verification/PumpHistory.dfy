/**
 What the variables of the pump remember.

 Each flag of the pump is tied to the history of the run: it holds exactly when some
 step switched it on and no later step switched it off. The frames of a closing step
 are then stated in terms of that history alone.
 */
module PumpHistory {
  import opened Wrappers
  import opened WorkflowProgress
  import opened SessionEvents
  import opened PumpModel
  import opened PumpControl
  import opened TurnEndings

  // ---------------------------------------------------------------- on and off

  /** Which steps of a run satisfy a predicate on the state before the step and its input. */
  function Marks(style: Style, s: Pump, run: seq<Input>, p: (Control, Input) -> bool): (marks: seq<bool>)
    ensures |marks| == |run|
  {
    if run == [] then [] else
    Marks(style, s, run[..|run|-1], p) + [p(After(style, s, run[..|run|-1]).ctl, run[|run|-1])]
  }

  lemma {:induction false} MarksMean(style: Style, s: Pump, run: seq<Input>, p: (Control, Input) -> bool, k: nat)
    requires k < |run|
    ensures Marks(style, s, run, p)[k] == p(After(style, s, run[..k]).ctl, run[k])
  {
    var init := run[..|run|-1];
    if k < |init| {
      MarksMean(style, s, init, p, k);
      assert init[..k] == run[..k];
    }
  }

  /** Something was switched on and not switched off afterwards. */
  predicate Since(on: seq<bool>, off: seq<bool>)
    requires |on| == |off|
  {
    exists k :: 0 <= k < |on| && on[k] && forall j :: k < j < |off| ==> !off[j]
  }

  lemma SinceAppend(on: seq<bool>, off: seq<bool>, a: bool, b: bool)
    requires |on| == |off|
    ensures Since(on + [a], off + [b]) <==> a || (Since(on, off) && !b)
  {
    var on', off' := on + [a], off + [b];
    if a {
      assert on'[|on|];
    }
    if Since(on, off) && !b {
      var k :| 0 <= k < |on| && on[k] && forall j :: k < j < |off| ==> !off[j];
      assert on'[k];
    }
    if Since(on', off') && !a {
      var k :| 0 <= k < |on'| && on'[k] && forall j :: k < j < |off'| ==> !off'[j];
      assert k < |on| && on[k] && !off'[|off|];
      forall j | k < j < |off|
        ensures !off[j]
      {
        assert off'[j] == off[j];
      }
    }
  }

  ghost predicate Holds(style: Style, s: Pump, run: seq<Input>, on: (Control, Input) -> bool, off: (Control, Input) -> bool) {
    Since(Marks(style, s, run, on), Marks(style, s, run, off))
  }

  /** A flag whose every step is "on, or still on and not off" is a flag about the history. */
  lemma {:induction false} FlagIsHistory(style: Style, s: Pump, run: seq<Input>, flag: Pump -> bool,
                                         on: (Control, Input) -> bool, off: (Control, Input) -> bool)
    requires !flag(s)
    requires forall t, i :: flag(Step(style, t, i).s) <==> on(t.ctl, i) || (flag(t) && !off(t.ctl, i))
    ensures flag(After(style, s, run)) <==> Holds(style, s, run, on, off)
  {
    hide Step;
    if run != [] {
      var init := run[..|run|-1];
      var before := After(style, s, init);
      FlagIsHistory(style, s, init, flag, on, off);
      SinceAppend(Marks(style, s, init, on), Marks(style, s, init, off),
                  on(before.ctl, run[|run|-1]), off(before.ctl, run[|run|-1]));
    }
  }

  // ---------------------------------------------------------------- control flags

  /** A new turn: an advancing generation or an explicit start. */
  predicate Resets(c: Control, i: Input) {
    i.Envelope? && (i.gen > c.gen || i.event.TurnStarted?)
  }

  /** A step that closes the turn: a result that is honoured, a process exit, or the cancel drain. */
  predicate Closes(c: Control, i: Input) {
    i.Envelope? &&
    var a := AdvanceGen(c, i.gen);
    || (i.event.TurnResult? && !a.terminalSeen && !Suppresses(a, i.event))
    || i.event.Detached?
    || Drains(a, i.event)
  }

  predicate Admits(ref: string, i: Input) {
    && i.Envelope? && i.event.SubagentUpdate? && i.event.ref == ref
    && IsActive(i.event.status) && i.event.kind == Some(WorkflowContainer)
  }

  predicate Retires(ref: string, c: Control, i: Input) {
    || Resets(c, i)
    || (i.Envelope? && i.event.SubagentUpdate? && i.event.ref == ref && !IsActive(i.event.status))
  }

  predicate SettlesDebt(c: Control, i: Input) {
    Resets(c, i) || Closes(c, i)
  }

  /** The cancel drain, which settles the turn on the workflow's behalf. */
  predicate IsDrain(c: Control, i: Input) {
    i.Envelope? && Drains(AdvanceGen(c, i.gen), i.event)
  }

  /** A step after which a further result counts as a duplicate: a result that is honoured, or the drain. */
  predicate Settles(c: Control, i: Input) {
    Closes(c, i) && !i.event.Detached?
  }

  /** A new turn, or content that begins one of the backend's own. */
  predicate Rearms(c: Control, i: Input) {
    Resets(c, i) || (i.Envelope? && IsContent(i.event))
  }

  lemma RosterFlag(c: Control, i: Input, ref: string)
    requires i.Envelope?
    ensures ref in ControlStep(c, Message(i.gen, i.event)).c.inflight <==>
            Admits(ref, i) || (ref in c.inflight && !Retires(ref, c, i))
  {
    if Drains(AdvanceGen(c, i.gen), i.event) {
      assert ref in c.inflight && ref != i.event.ref ==> ref in c.inflight - {i.event.ref};
    }
  }

  lemma DebtFlag(c: Control, i: Input)
    requires i.Envelope?
    ensures ControlStep(c, Message(i.gen, i.event)).c.owed <==>
            Meets(Segmented, c, i) || (c.owed && !SettlesDebt(c, i))
  {
  }

  lemma StatusFlag(c: Control, i: Input)
    requires i.Envelope?
    ensures ControlStep(c, Message(i.gen, i.event)).c.status == Some(Status.Finished) <==>
            Closes(c, i) || (c.status == Some(Status.Finished) && !Resets(c, i))
  {
  }

  lemma SyntheticFlag(c: Control, i: Input)
    requires i.Envelope?
    ensures ControlStep(c, Message(i.gen, i.event)).c.synthetic <==> IsDrain(c, i) || (c.synthetic && !Resets(c, i))
  {
  }

  lemma SeenFlag(c: Control, i: Input)
    requires i.Envelope?
    ensures ControlStep(c, Message(i.gen, i.event)).c.terminalSeen <==> Settles(c, i) || (c.terminalSeen && !Rearms(c, i))
  {
  }

  lemma ControlFlags(style: Style, s: Pump, i: Input)
    ensures var c, c' := s.ctl, Step(style, s, i).s.ctl;
            && (forall ref :: ref in c'.inflight <==> Admits(ref, i) || (ref in c.inflight && !Retires(ref, c, i)))
            && (c'.owed <==> Meets(Segmented, c, i) || (c.owed && !SettlesDebt(c, i)))
            && (c'.status == Some(Status.Finished) <==>
                Closes(c, i) || (c.status == Some(Status.Finished) && !Resets(c, i)))
  {
    hide Step, ControlStep;
    PumpRefinesControl(style, s, i);
    if i.Envelope? {
      forall ref
        ensures ref in Step(style, s, i).s.ctl.inflight <==> Admits(ref, i) || (ref in s.ctl.inflight && !Retires(ref, s.ctl, i))
      {
        RosterFlag(s.ctl, i, ref);
      }
      DebtFlag(s.ctl, i);
      StatusFlag(s.ctl, i);
    }
  }

  /** The roster is exactly the workflow containers admitted and not ended since the last new turn. */
  lemma RosterIsHistory(style: Style, run: seq<Input>, ref: string)
    ensures ref in After(style, INITIAL, run).ctl.inflight <==> IsRunning(style, run, ref)
  {
    hide Step;
    forall t: Pump, i: Input
      ensures ref in Step(style, t, i).s.ctl.inflight <==> Admits(ref, i) || (ref in t.ctl.inflight && !Retires(ref, t.ctl, i))
    {
      ControlFlags(style, t, i);
    }
    FlagIsHistory(style, INITIAL, run, (t: Pump) => ref in t.ctl.inflight,
                  (c, i) => Admits(ref, i), (c, i) => Retires(ref, c, i));
  }

  /** A Finish is owed exactly when a result was held back and nothing closed the turn since. */
  lemma DebtIsHistory(style: Style, run: seq<Input>)
    ensures After(style, INITIAL, run).ctl.owed <==>
            Holds(style, INITIAL, run, Meeting(Segmented), SettlesDebt)
  {
    hide Step;
    forall t: Pump, i: Input
      ensures Step(style, t, i).s.ctl.owed <==> Meets(Segmented, t.ctl, i) || (t.ctl.owed && !SettlesDebt(t.ctl, i))
    {
      ControlFlags(style, t, i);
    }
    FlagIsHistory(style, INITIAL, run, (t: Pump) => t.ctl.owed, Meeting(Segmented), SettlesDebt);
  }

  /** The status says Finished exactly when a step closed a turn since the last new turn. */
  lemma StatusIsHistory(style: Style, run: seq<Input>)
    ensures After(style, INITIAL, run).ctl.status == Some(Status.Finished) <==>
            Holds(style, INITIAL, run, Closes, Resets)
  {
    hide Step;
    forall t: Pump, i: Input
      ensures Step(style, t, i).s.ctl.status == Some(Status.Finished) <==>
              Closes(t.ctl, i) || (t.ctl.status == Some(Status.Finished) && !Resets(t.ctl, i))
    {
      ControlFlags(style, t, i);
    }
    FlagIsHistory(style, INITIAL, run, (t: Pump) => t.ctl.status == Some(Status.Finished), Closes, Resets);
  }

  /** The workflow was killed with a Finish owed, and no new turn was announced since. */
  ghost predicate WasDrained(style: Style, run: seq<Input>) {
    Holds(style, INITIAL, run, IsDrain, Resets)
  }

  /** The turn is settled: no new turn was announced, and no content came, since a result was honoured or drained. */
  ghost predicate IsSettled(style: Style, run: seq<Input>) {
    Holds(style, INITIAL, run, Settles, Rearms)
  }

  /** The guard against a second Finish is up exactly when a drain happened since the last new turn. */
  lemma SyntheticIsHistory(style: Style, run: seq<Input>)
    ensures After(style, INITIAL, run).ctl.synthetic <==> WasDrained(style, run)
  {
    hide Step, ControlStep, IsDrain, Resets;
    forall t: Pump, i: Input
      ensures Step(style, t, i).s.ctl.synthetic <==> IsDrain(t.ctl, i) || (t.ctl.synthetic && !Resets(t.ctl, i))
    {
      PumpRefinesControl(style, t, i);
      if i.Envelope? {
        SyntheticFlag(t.ctl, i);
      } else {
        TicksDoNothing(t.ctl, i);
      }
    }
    FlagIsHistory(style, INITIAL, run, (t: Pump) => t.ctl.synthetic, IsDrain, Resets);
  }

  /** A result is a duplicate exactly when its turn is settled. */
  lemma TerminalSeenIsHistory(style: Style, run: seq<Input>)
    ensures After(style, INITIAL, run).ctl.terminalSeen <==> IsSettled(style, run)
  {
    hide Step, ControlStep, Settles, Rearms;
    forall t: Pump, i: Input
      ensures Step(style, t, i).s.ctl.terminalSeen <==> Settles(t.ctl, i) || (t.ctl.terminalSeen && !Rearms(t.ctl, i))
    {
      PumpRefinesControl(style, t, i);
      if i.Envelope? {
        SeenFlag(t.ctl, i);
      } else {
        TicksDoNothing(t.ctl, i);
      }
    }
    FlagIsHistory(style, INITIAL, run, (t: Pump) => t.ctl.terminalSeen, Settles, Rearms);
  }

  /** What opens a settled turn again: a newer generation, an announced turn, or one of five kinds of content. */
  lemma ContentReopens(style: Style, s: Pump, i: Input)
    requires s.ctl.terminalSeen
    ensures !Step(style, s, i).s.ctl.terminalSeen <==>
            && i.Envelope?
            && (|| (i.gen > s.ctl.gen && !i.event.TurnResult?) || i.event.TurnStarted? || i.event.MessageDelta?
                || i.event.ThoughtDelta? || i.event.ToolCall? || i.event.ToolResult? || i.event.Permission?)
  {
    PumpRefinesControl(style, s, i);
    hide Step, ControlStep;
    if i.Envelope? {
      SeenFlag(s.ctl, i);
    } else {
      TicksDoNothing(s.ctl, i);
    }
  }

  lemma TicksDoNothing(c: Control, i: Input)
    requires i.Tick?
    ensures !IsDrain(c, i) && !Resets(c, i) && !Settles(c, i) && !Rearms(c, i)
  {
  }

  /** Some workflow container was admitted and has neither ended nor been left behind by a new turn. */
  ghost predicate WorkflowRuns(style: Style, run: seq<Input>) {
    exists ref :: IsRunning(style, run, ref)
  }

  ghost predicate IsRunning(style: Style, run: seq<Input>, ref: string) {
    Holds(style, INITIAL, run, (c, i) => Admits(ref, i), (c, i) => Retires(ref, c, i))
  }

  lemma WorkflowRunsIsRoster(style: Style, run: seq<Input>)
    ensures WorkflowRuns(style, run) <==> After(style, INITIAL, run).ctl.inflight != {}
  {
    hide Step, IsRunning;
    var roster := After(style, INITIAL, run).ctl.inflight;
    if roster != {} {
      var ref :| ref in roster;
      RosterIsHistory(style, run, ref);
    }
    if WorkflowRuns(style, run) {
      var ref :| IsRunning(style, run, ref);
      RosterIsHistory(style, run, ref);
    }
  }

  /**
   What a clean result turns into, by the history of its turn alone: nothing when the turn
   is settled already, or when its workflow was killed and drained earlier, even if content
   has begun another turn since; a break when a workflow is still running; else the Finish.
   */
  lemma SuppressionIsExact(style: Style, run: seq<Input>, i: Input)
    requires i.Envelope? && IsCleanResult(i.event)
    ensures var ongoing := i.gen <= After(style, INITIAL, run).ctl.gen;
            Kinds(Step(style, After(style, INITIAL, run), i).sent) ==
            if ongoing && (IsSettled(style, run) || WasDrained(style, run)) then []
            else if ongoing && WorkflowRuns(style, run) then [BreakKind] else [FinishKind]
  {
    hide Step, After, WorkflowRuns, IsSettled, WasDrained, Kinds;
    WorkflowRunsIsRoster(style, run);
    SyntheticIsHistory(style, run);
    TerminalSeenIsHistory(style, run);
    PumpRefinesControl(style, After(style, INITIAL, run), i);
  }

  lemma {:induction false} NoWorkflowNoRoster(style: Style, run: seq<Input>)
    requires forall i, ref :: i in run ==> !Admits(ref, i)
    ensures After(style, INITIAL, run).ctl.inflight == {}
    ensures CountKind(Kinds(Output(style, INITIAL, run)), BreakKind) == 0
  {
    hide Step;
    if run != [] {
      var init, last := run[..|run|-1], run[|run|-1];
      var before := After(style, INITIAL, init);
      NoWorkflowNoRoster(style, init);
      ControlFlags(style, before, last);
      StepAccounts(style, before, last);
      KindsConcat(Output(style, INITIAL, init), Step(style, before, last).sent);
      CountKindConcat(Kinds(Output(style, INITIAL, init)), Kinds(Step(style, before, last).sent), BreakKind);
      NoneInFlight(before.ctl, last);
    }
  }

  lemma NoneInFlight(c: Control, i: Input)
    requires c.inflight == {}
    ensures !Meets(Segmented, c, i)
  {
  }
}
