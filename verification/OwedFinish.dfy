/** The Finish a held-back launch result leaves owed, and the tip for a turn that said nothing. */
module OwedFinish {
  import opened Wrappers
  import opened WorkflowProgress
  import opened SessionEvents
  import opened PumpModel
  import opened PumpControl
  import opened TurnEndings
  import opened PumpHistory
  import opened TurnClosing

  // ---------------------------------------------------------------- paying the debt

  /** The run owes a Finish: a result was held back and nothing closed the turn since. */
  ghost predicate Owes(style: Style, run: seq<Input>) {
    Holds(style, INITIAL, run, Meeting(Segmented), SettlesDebt)
  }

  /** A terminal already closed a turn since the last generation advance or explicit start. */
  ghost predicate ClosedBefore(style: Style, run: seq<Input>) {
    Holds(style, INITIAL, run, Closes, Resets)
  }

  /**
   A workflow that ends other than by completing, and leaves no workflow running, settles
   the debt: cards, then tools, then the Finish. The Finish goes out iff no terminal
   closed a turn earlier in this generation; otherwise it is lost.
   */
  lemma OwedFinishIsPaid(style: Style, run: seq<Input>, i: Input)
    requires i.Envelope? && i.event.SubagentUpdate? && !IsActive(i.event.status) && i.event.status != Succeeded
    requires Owes(style, run) && i.gen <= After(style, INITIAL, run).ctl.gen
    requires forall ref :: ref != i.event.ref ==> !IsRunning(style, run, ref)
    ensures var s := After(style, INITIAL, run);
            var u := UpdateCards(style, s.work, i.event, i.now);
            Step(style, s, i).sent ==
            u.sent + SettleFrames(style, u.cards, false, i.now, i.cardOrder) + CancelFrames(s.work.openTools, i.toolOrder)
            + if ClosedBefore(style, run) then [] else [Finish(s.work.session)]
    ensures !Step(style, After(style, INITIAL, run), i).s.ctl.owed
  {
    hide Step, After, Holds, UpdateCards, SettleFrames, CancelFrames, IsRunning, ControlStep;
    var s := After(style, INITIAL, run);
    DebtIsHistory(style, run);
    StatusIsHistory(style, run);
    forall ref | ref in s.ctl.inflight
      ensures ref == i.event.ref
    {
      RosterIsHistory(style, run, ref);
    }
    assert Closes(s.ctl, i);
    ClosingStep(style, s, i);
    ControlFlags(style, s, i);
    var u := UpdateCards(style, s.work, i.event, i.now);
    var settled, cancels := SettleFrames(style, u.cards, false, i.now, i.cardOrder), CancelFrames(s.work.openTools, i.toolOrder);
    assert u.sent + (settled + cancels) == u.sent + settled + cancels;
  }

  /** Natural completion leaves the debt open: the result that follows it is the one to end the turn. */
  lemma CompletionLeavesTheDebt(style: Style, run: seq<Input>, i: Input)
    requires i.Envelope? && i.event.SubagentUpdate? && i.event.status == Succeeded
    requires Owes(style, run) && i.gen <= After(style, INITIAL, run).ctl.gen
    ensures Step(style, After(style, INITIAL, run), i).s.ctl.owed
    ensures Kinds(Step(style, After(style, INITIAL, run), i).sent) == []
  {
    hide Step, After, Holds, Kinds;
    DebtIsHistory(style, run);
    PumpRefinesControl(style, After(style, INITIAL, run), i);
  }

  // ---------------------------------------------------------------- two turns without a Finish

  const CALL := ToolCall("call", "Workflow", Null)
  const LAUNCH := SubagentUpdate("w", Active, Some(WorkflowContainer), Some("call"))
  const LAUNCHED := ToolResult("call", false, None)
  const RESULT := TurnResult(false, "", EndTurn)
  const INTERRUPTION := SubagentUpdate("w", Interrupted, None, None)

  function Say(event: Event, cards: seq<string>, calls: seq<string>): Input {
    Envelope(1, event, 0, cards, calls)
  }

  const LAUNCHING := [Say(CALL, [], []), Say(LAUNCH, [], ["call"]), Say(LAUNCHED, ["w"], ["call"])]

  /** A workflow launched by the call of a turn, the turn's result, and the end of the workflow. */
  const KILLED := LAUNCHING + [Say(RESULT, ["w"], [])] + [Say(INTERRUPTION, ["w"], [])]

  /** A turn that ends, and a killed workflow in the turn after it. */
  const LOSING_RUN := [Say(RESULT, [], [])] + KILLED

  /** A killed workflow, and a turn of the backend's own after it. */
  const SWALLOWING_RUN := KILLED + [Say(MessageDelta("more"), [], [])] + [Say(RESULT, [], [])]

  /** A legal run, what it leaves in the control variables and the two maps, and how it ended turns. */
  ghost predicate Reaches(style: Style, run: seq<Input>, c: Control, cards: set<string>, open: set<string>, kinds: seq<Kind>) {
    var s := After(style, INITIAL, run);
    && LegalRun(style, INITIAL, run) && Kinds(Output(style, INITIAL, run)) == kinds
    && s.ctl == c && s.work.cards.Keys == cards && s.work.openTools.Keys == open
  }

  /** The containers with a card after news that opens no background task. */
  function NextCards(cards: set<string>, ev: Event): set<string> {
    if !ev.SubagentUpdate? then cards
    else if !IsActive(ev.status) then cards - {ev.ref}
    else if ev.kind == Some(WorkflowContainer) && ev.parent.Some? then cards + {ev.ref}
    else cards
  }

  lemma NewsMovesCards(style: Style, w: Work, ev: Event, now: int)
    requires ev.SubagentUpdate? ==> ev.kind != Some(OtherTask)
    ensures UpdateCards(style, w, ev, now).cards.Keys == NextCards(w.cards.Keys, ev)
  {
  }

  lemma Continues(style: Style, run: seq<Input>, i: Input, c: Control, cards: set<string>, open: set<string>, kinds: seq<Kind>)
    requires i.Envelope? && Enumerates(i.cardOrder, cards) && Enumerates(i.toolOrder, open)
    ensures var s := After(style, INITIAL, run + [i]); var out := ControlStep(c, Message(i.gen, i.event));
            Reaches(style, run, c, cards, open, kinds) ==>
              Reaches(style, run + [i], out.c, s.work.cards.Keys, s.work.openTools.Keys, kinds + out.kinds)
  {
    hide Step, After, Output, Kinds, ControlStep, LegalRun, Enumerates;
    if Reaches(style, run, c, cards, open, kinds) {
      var s := After(style, INITIAL, run);
      RunSnoc(style, INITIAL, run, i);
      PumpRefinesControl(style, s, i);
      KindsConcat(Output(style, INITIAL, run), Step(style, s, i).sent);
    }
  }

  lemma ContinuesOpen(style: Style, run: seq<Input>, i: Input, c: Control, cards: set<string>, open: map<string, string>, kinds: seq<Kind>)
    requires i.Envelope? && Enumerates(i.cardOrder, cards) && Enumerates(i.toolOrder, open.Keys)
    requires !Closes(c, i) && (i.event.SubagentUpdate? ==> i.event.kind != Some(OtherTask))
    ensures var out := ControlStep(c, Message(i.gen, i.event));
            Reaches(style, run, c, cards, open.Keys, kinds) ==>
              Reaches(style, run + [i], out.c, NextCards(cards, i.event), NextOpen(open, i.event).Keys, kinds + out.kinds)
  {
    hide Step, After, Output, Kinds, ControlStep, LegalRun, Enumerates, UpdateCards, Closes;
    if Reaches(style, run, c, cards, open.Keys, kinds) {
      var s := After(style, INITIAL, run);
      Continues(style, run, i, c, cards, open.Keys, kinds);
      RunSnoc(style, INITIAL, run, i);
      OpenStep(style, s, i);
      NewsMovesCards(style, s.work, i.event, i.now);
    }
  }

  lemma ContinuesClosing(style: Style, run: seq<Input>, i: Input, c: Control, cards: set<string>, open: set<string>, kinds: seq<Kind>)
    requires i.Envelope? && Enumerates(i.cardOrder, cards) && Enumerates(i.toolOrder, open)
    requires Closes(c, i) && (i.event.SubagentUpdate? ==> i.event.kind != Some(OtherTask)) && NextCards(cards, i.event) == {}
    ensures var out := ControlStep(c, Message(i.gen, i.event));
            Reaches(style, run, c, cards, open, kinds) ==>
              Reaches(style, run + [i], out.c, {}, {}, kinds + out.kinds)
  {
    hide Step, After, Output, Kinds, ControlStep, LegalRun, Enumerates, UpdateCards, Closes;
    if Reaches(style, run, c, cards, open, kinds) {
      var s := After(style, INITIAL, run);
      Continues(style, run, i, c, cards, open, kinds);
      RunSnoc(style, INITIAL, run, i);
      ClosingStep(style, s, i);
      NewsMovesCards(style, s.work, i.event, i.now);
      assert KeptCards(UpdateCards(style, s.work, i.event, i.now).cards, IsCleanResult(i.event)) == map[];
    }
  }

  const NO_CALLS: map<string, string> := map[]
  const NAMED := map["call" := "Workflow"]

  function Flags(inflight: set<string>, owed: bool, synthetic: bool, seen: bool, status: Status): Control {
    Control(inflight, owed, synthetic, seen, 1, Some(status))
  }

  lemma EnumeratesNone<K>()
    ensures Enumerates<K>([], {})
  {
  }

  lemma EnumeratesOne<K>(k: K)
    ensures Enumerates([k], {k})
  {
  }

  /** A workflow is launched by a call whose own result follows at once. */
  lemma LaunchOf(style: Style, run: seq<Input>, c: Control, status: Status, kinds: seq<Kind>)
    requires Advanced(c, 1).(terminalSeen := false) == Flags({}, false, false, false, status)
    ensures Reaches(style, run, c, {}, {}, kinds) ==>
              Reaches(style, run + LAUNCHING, Flags({"w"}, false, false, false, status), {"w"}, {}, kinds)
  {
    hide Reaches, Enumerates;
    if Reaches(style, run, c, {}, {}, kinds) {
      EnumeratesNone<string>();
      EnumeratesOne("call");
      EnumeratesOne("w");
      var a, b, d := Say(CALL, [], []), Say(LAUNCH, [], ["call"]), Say(LAUNCHED, ["w"], ["call"]);
      assert NO_CALLS.Keys == {};
      ContinuesOpen(style, run, a, c, {}, NO_CALLS, kinds);
      assert NextOpen(NO_CALLS, CALL) == NAMED && NAMED.Keys == {"call"} && kinds + [] == kinds;
      ContinuesOpen(style, run + [a], b, Flags({}, false, false, false, status), {}, NAMED, kinds);
      assert {} + {"w"} == {"w"} && NextOpen(NAMED, LAUNCH) == NAMED;
      ContinuesOpen(style, run + [a] + [b], d, Flags({"w"}, false, false, false, status), {"w"}, NAMED, kinds);
      assert NextOpen(NAMED, LAUNCHED) == map[];
      assert run + [a] + [b] + [d] == run + LAUNCHING;
    }
  }

  lemma BeginsEmpty(style: Style)
    ensures Reaches(style, [], INITIAL.ctl, {}, {}, [])
  {
  }

  lemma HeldBack(style: Style, run: seq<Input>, status: Status, kinds: seq<Kind>)
    ensures Reaches(style, run, Flags({"w"}, false, false, false, status), {"w"}, {}, kinds) ==>
              Reaches(style, run + [Say(RESULT, ["w"], [])], Flags({"w"}, true, false, false, status), {"w"}, {}, kinds + [BreakKind])
  {
    hide Reaches, Enumerates;
    if Reaches(style, run, Flags({"w"}, false, false, false, status), {"w"}, {}, kinds) {
      EnumeratesNone<string>();
      EnumeratesOne("w");
      assert NO_CALLS.Keys == {};
      ContinuesOpen(style, run, Say(RESULT, ["w"], []), Flags({"w"}, false, false, false, status), {"w"}, NO_CALLS, kinds);
    }
  }

  lemma Interrupts(style: Style, run: seq<Input>, status: Status, kinds: seq<Kind>)
    ensures Reaches(style, run, Flags({"w"}, true, false, false, status), {"w"}, {}, kinds) ==>
              Reaches(style, run + [Say(INTERRUPTION, ["w"], [])], Flags({}, false, true, true, Status.Finished), {}, {},
                    if status == Status.Finished then kinds else kinds + [FinishKind])
  {
    hide Reaches, Enumerates;
    if Reaches(style, run, Flags({"w"}, true, false, false, status), {"w"}, {}, kinds) {
      EnumeratesNone<string>();
      EnumeratesOne("w");
      assert {"w"} - {"w"} == {} && kinds + [] == kinds;
      ContinuesClosing(style, run, Say(INTERRUPTION, ["w"], []), Flags({"w"}, true, false, false, status), {"w"}, {}, kinds);
    }
  }

  /** The killed workflow from launch to end: the break is sent, the Finish only if the status allows it. */
  lemma KillOf(style: Style, run: seq<Input>, c: Control, status: Status, kinds: seq<Kind>)
    requires Advanced(c, 1).(terminalSeen := false) == Flags({}, false, false, false, status)
    ensures Reaches(style, run, c, {}, {}, kinds) ==>
              Reaches(style, run + KILLED, Flags({}, false, true, true, Status.Finished), {}, {},
                    kinds + [BreakKind] + if status == Status.Finished then [] else [FinishKind])
  {
    hide Reaches;
    if Reaches(style, run, c, {}, {}, kinds) {
      LaunchOf(style, run, c, status, kinds);
      HeldBack(style, run + LAUNCHING, status, kinds);
      Interrupts(style, run + LAUNCHING + [Say(RESULT, ["w"], [])], status, kinds + [BreakKind]);
      assert run + LAUNCHING + [Say(RESULT, ["w"], [])] + [Say(INTERRUPTION, ["w"], [])] == run + KILLED;
      assert kinds + [BreakKind] + [] == kinds + [BreakKind];
    }
  }

  lemma FirstTurn(style: Style)
    ensures Reaches(style, [Say(RESULT, [], [])], Flags({}, false, false, true, Status.Finished), {}, {}, [FinishKind])
  {
    BeginsEmpty(style);
    hide Reaches, Enumerates;
    EnumeratesNone<string>();
    ContinuesClosing(style, [], Say(RESULT, [], []), INITIAL.ctl, {}, {}, []);
    assert [] + [Say(RESULT, [], [])] == [Say(RESULT, [], [])] && [] + [FinishKind] == [FinishKind];
  }

  /**
   The Finish can be lost. A turn ends; the backend starts one of its own in the same
   generation, launches a workflow and has its result held back; the workflow is then
   interrupted. The second turn is settled without any terminal.
   */
  lemma OwedFinishCanBeLost(style: Style)
    ensures LegalRun(style, INITIAL, LOSING_RUN)
    ensures Kinds(Output(style, INITIAL, LOSING_RUN)) == [FinishKind, BreakKind]
    ensures After(style, INITIAL, LOSING_RUN).ctl == Flags({}, false, true, true, Status.Finished)
  {
    hide Step, LegalRun, After, Output, Kinds;
    FirstTurn(style);
    KillOf(style, [Say(RESULT, [], [])], Flags({}, false, false, true, Status.Finished), Status.Finished, [FinishKind]);
    assert [FinishKind] + [BreakKind] + [] == [FinishKind, BreakKind];
  }

  /**
   The other way to end a turn without a terminal: the drain pays for the first turn, the
   backend then starts one of its own, and the guard swallows that turn's real Finish.
   */
  lemma RealFinishCanBeSwallowed(style: Style)
    ensures LegalRun(style, INITIAL, SWALLOWING_RUN)
    ensures Kinds(Output(style, INITIAL, SWALLOWING_RUN)) == [BreakKind, FinishKind]
    ensures After(style, INITIAL, SWALLOWING_RUN).ctl == Flags({}, false, true, true, Status.Finished)
  {
    hide Step, LegalRun, After, Output, Kinds;
    BeginsEmpty(style);
    KillOf(style, [], INITIAL.ctl, Status.Running, []);
    assert [] + KILLED == KILLED && [] + [BreakKind] + [FinishKind] == [BreakKind, FinishKind];
    SwallowsNext(style);
  }

  lemma SwallowsNext(style: Style)
    ensures Reaches(style, KILLED, Flags({}, false, true, true, Status.Finished), {}, {}, [BreakKind, FinishKind]) ==>
              Reaches(style, SWALLOWING_RUN, Flags({}, false, true, true, Status.Finished), {}, {}, [BreakKind, FinishKind])
  {
    hide Reaches, Enumerates;
    if Reaches(style, KILLED, Flags({}, false, true, true, Status.Finished), {}, {}, [BreakKind, FinishKind]) {
      EnumeratesNone<string>();
      var more, kinds := Say(MessageDelta("more"), [], []), [BreakKind, FinishKind];
      assert NO_CALLS.Keys == {} && kinds + [] == kinds;
      ContinuesOpen(style, KILLED, more, Flags({}, false, true, true, Status.Finished), {}, NO_CALLS, kinds);
      ContinuesClosing(style, KILLED + [more], Say(RESULT, [], []), Flags({}, false, true, false, Status.Finished), {}, {}, kinds);
    }
  }

  // ---------------------------------------------------------------- the empty-turn tip

  /** A tip is never the last word. */
  predicate TipThenFinish(sent: seq<Frame>) {
    forall k :: 0 <= k < |sent| && sent[k].EmptyTurnTip? ==> k + 1 < |sent| && sent[k+1].Finish?
  }

  lemma TipThenFinishConcat(a: seq<Frame>, b: seq<Frame>)
    requires TipThenFinish(a) && TipThenFinish(b)
    ensures TipThenFinish(a + b)
  {
    var sent := a + b;
    forall k | 0 <= k < |sent| && sent[k].EmptyTurnTip?
      ensures k + 1 < |sent| && sent[k+1].Finish?
    {
      if k < |a| {
        assert sent[k] == a[k] && sent[k+1] == a[k+1];
      } else {
        assert sent[k] == b[k-|a|] && sent[k+1] == b[k+1-|a|];
      }
    }
  }

  lemma NoTips(sent: seq<Frame>)
    requires forall f :: f in sent ==> !f.EmptyTurnTip?
    ensures TipThenFinish(sent)
  {
    forall k | 0 <= k < |sent|
      ensures !sent[k].EmptyTurnTip?
    {
      assert sent[k] in sent;
    }
  }

  /** The result that earns a tip: clean, honoured, outside the guard, and after no visible output. */
  predicate EarnsTip(s: Pump, i: Input) {
    i.Envelope? && Closes(s.ctl, i) && IsCleanResult(i.event)
    && !AdvanceGen(s.ctl, i.gen).synthetic && !s.work.sawVisible
  }

  lemma StepTips(style: Style, s: Pump, i: Input)
    ensures var sent := Step(style, s, i).sent;
            && TipThenFinish(sent)
            && (forall tip :: EmptyTurnTip(tip) in sent <==> EarnsTip(s, i) && EmptyTurnTipFor(i.event.outcome) == Some(tip))
  {
    hide Step, UpdateCards, SettleFrames, CancelFrames, TickFrames, ClosingTail;
    if i.Tick? {
      TickTouchesCardsOnly(style, s, i);
      TickFramesAreProgress(style, s.work.cards, i.now, i.cardOrder);
      NoTips(Step(style, s, i).sent);
    } else if Closes(s.ctl, i) {
      var u := UpdateCards(style, s.work, i.event, i.now);
      CardNewsIsProgress(style, s.work, i.event, i.now);
      SettleFramesAreProgress(style, u.cards, IsCleanResult(i.event), i.now, i.cardOrder);
      CancelsAreTools(s.work.openTools, i.toolOrder);
      ClosingStep(style, s, i);
      var news := u.sent + (SettleFrames(style, u.cards, IsCleanResult(i.event), i.now, i.cardOrder)
                            + CancelFrames(s.work.openTools, i.toolOrder));
      TailTips(s, i);
      assert Step(style, s, i).sent == news + ClosingTail(s, i);
      NoTips(news);
      TipThenFinishConcat(news, ClosingTail(s, i));
    } else {
      OpenTips(style, s, i);
    }
  }

  lemma TailTips(s: Pump, i: Input)
    requires i.Envelope? && Closes(s.ctl, i)
    ensures TipThenFinish(ClosingTail(s, i))
    ensures forall tip :: EmptyTurnTip(tip) in ClosingTail(s, i) <==>
                          EarnsTip(s, i) && EmptyTurnTipFor(i.event.outcome) == Some(tip)
  {
  }

  lemma OpenTips(style: Style, s: Pump, i: Input)
    requires i.Envelope? && !Closes(s.ctl, i)
    ensures forall f :: f in Step(style, s, i).sent ==> !f.EmptyTurnTip?
    ensures TipThenFinish(Step(style, s, i).sent)
  {
    hide Step, UpdateCards;
    var u, sent := UpdateCards(style, s.work, i.event, i.now).sent, Step(style, s, i).sent;
    CardNewsIsProgress(style, s.work, i.event, i.now);
    OpenStep(style, s, i);
    forall f | f in sent
      ensures !f.EmptyTurnTip?
    {
      var k :| 0 <= k < |sent| && sent[k] == f;
      if k < |u| {
        assert sent[k] == sent[..|u|][k] && u[k] in u;
      }
    }
    NoTips(sent);
  }

  /** The diagnostic for an empty turn: a note when it ended naturally, else a warning that names the cause. */
  predicate TipFits(outcome: TurnOutcome, tip: Tip) {
    && outcome != Aborted
    && (tip.warning <==> outcome != EndTurn && outcome != Stopped(NaturalEnd))
    && tip.code == (if outcome == Stopped(Truncated(MaxTokens)) then "ACP_EMPTY_TURN_MAX_TOKENS"
                    else if outcome == Stopped(Truncated(MaxTurns)) then "ACP_EMPTY_TURN_MAX_TURN_REQUESTS"
                    else if outcome == Stopped(Refused) then "ACP_EMPTY_TURN_REFUSAL" else "ACP_EMPTY_TURN")
  }

  lemma TipForMeans(outcome: TurnOutcome, tip: Tip)
    ensures EmptyTurnTipFor(outcome) == Some(tip) <==> TipFits(outcome, tip)
  {
  }

  /**
   The tip appears exactly for a clean result of a turn in which nothing was shown, unless
   the turn is settled already, was drained, or still has a workflow running.
   */
  lemma TipIsExact(style: Style, run: seq<Input>, i: Input, tip: Tip)
    ensures EmptyTurnTip(tip) in Step(style, After(style, INITIAL, run), i).sent <==>
            && i.Envelope? && i.event.TurnResult? && !i.event.isError && TipFits(i.event.outcome, tip)
            && (i.gen > After(style, INITIAL, run).ctl.gen
                || (!IsSettled(style, run) && !WasDrained(style, run) && !WorkflowRuns(style, run)))
            && !Holds(style, INITIAL, run, (c, j) => IsShown(j), Closes)
  {
    if i.Envelope? && i.event.TurnResult? {
      TipForMeans(i.event.outcome, tip);
    }
    hide Step, After, Holds, EmptyTurnTipFor, IsSettled, WasDrained, WorkflowRuns;
    VisibilityIsHistory(style, run);
    SyntheticIsHistory(style, run);
    TerminalSeenIsHistory(style, run);
    WorkflowRunsIsRoster(style, run);
    StepTips(style, After(style, INITIAL, run), i);
  }

  /** In everything the pump ever sends, a diagnostic tip is immediately followed by a Finish. */
  lemma {:induction false} TipPrecedesFinish(style: Style, s: Pump, run: seq<Input>)
    ensures TipThenFinish(Output(style, s, run))
  {
    hide Step;
    if run != [] {
      var init := run[..|run|-1];
      TipPrecedesFinish(style, s, init);
      StepTips(style, After(style, s, init), run[|run|-1]);
      TipThenFinishConcat(Output(style, s, init), Step(style, After(style, s, init), run[|run|-1]).sent);
    }
  }
}
