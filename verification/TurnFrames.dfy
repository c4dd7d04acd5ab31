/**
 The frames of a step themselves, not only their kinds: what ends a turn and what it says,
 what passes straight through, and under which session, names and arguments.
 */
module TurnFrames {
  import opened Wrappers
  import opened Texts
  import opened WorkflowProgress
  import opened SessionEvents
  import opened PumpModel
  import opened PumpControl
  import opened TurnEndings
  import opened PumpHistory
  import opened TurnClosing
  import opened OwedFinish
  import opened ResultFates

  // ---------------------------------------------------------------- what the pump remembers for good

  /** The session id the backend announced last. */
  function LastBound(run: seq<Input>): Option<string> {
    if run == [] then None else
    var last := run[|run|-1];
    if last.Envelope? && last.event.BackendBound? && last.event.sessionId.Some? then last.event.sessionId
    else LastBound(run[..|run|-1])
  }

  /** The input a call was made with last. */
  function LastInput(run: seq<Input>, id: string): Option<Args> {
    if run == [] then None else
    var last := run[|run|-1];
    if last.Envelope? && last.event.ToolCall? && last.event.id == id then Some(last.event.input)
    else LastInput(run[..|run|-1], id)
  }

  predicate KeepsMemory(w: Work, w': Work) {
    w'.session == w.session && w'.toolArgs == w.toolArgs
  }

  lemma RosterKeepsMemory(style: Style, s: Pump, i: Input)
    requires i.Envelope?
    ensures KeepsMemory(s.work, TrackRoster(style, s, i).s.work)
  {
    hide KeptCards, SettleFrames, CancelFrames;
  }

  lemma DeliveryKeepsMemory(s: Pump, ev: Event, suppress: bool, tip: Option<Tip>)
    ensures KeepsMemory(s.work, Deliver(s, ev, suppress, tip).s.work)
  {
    hide Translate, HasLiveCard;
  }

  lemma BoundaryMoves(style: Style, s: Pump, i: Input)
    requires i.Envelope?
    ensures var w, w' := s.work, Boundary(style, s, i).s.work;
            && w'.session == (if i.event.BackendBound? && i.event.sessionId.Some? then i.event.sessionId else w.session)
            && w'.toolArgs == (if i.event.ToolCall? then w.toolArgs[i.event.id := i.event.input] else w.toolArgs)
  {
    hide KeptCards, SettleFrames, CancelFrames, EmptyTurnTipFor;
  }

  lemma ProcessMoves(style: Style, s: Pump, i: Input)
    requires i.Envelope?
    ensures var w, w' := s.work, Process(style, s, i).s.work;
            && w'.session == (if i.event.BackendBound? && i.event.sessionId.Some? then i.event.sessionId else w.session)
            && w'.toolArgs == (if i.event.ToolCall? then w.toolArgs[i.event.id := i.event.input] else w.toolArgs)
  {
    hide UpdateCards, TrackRoster, Boundary, Deliver;
    var s1 := s.(work := s.work.(cards := UpdateCards(style, s.work, i.event, i.now).cards));
    RosterKeepsMemory(style, s1, i);
    var roster := TrackRoster(style, s1, i);
    BoundaryMoves(style, roster.s, i);
    var b := Boundary(style, roster.s, i);
    DeliveryKeepsMemory(b.s, i.event, Suppresses(roster.s.ctl, i.event), b.tip);
  }

  lemma StepMoves(style: Style, s: Pump, i: Input)
    ensures var w, w' := s.work, Step(style, s, i).s.work;
            && w'.session == (if i.Envelope? && i.event.BackendBound? && i.event.sessionId.Some? then i.event.sessionId else w.session)
            && w'.toolArgs == (if i.Envelope? && i.event.ToolCall? then w.toolArgs[i.event.id := i.event.input] else w.toolArgs)
  {
    if i.Tick? {
    } else if IsProcessed(s.ctl, i) {
      StepOfProcessed(style, s, i);
      hide Step, Process;
      ProcessMoves(style, s.(ctl := Armed(s.ctl, i)), i);
    } else if i.event.ToolOutputDelta? {
      StepOfDelta(style, s, i);
    } else if i.event.CatalogUpdated? {
      StepOfCatalog(style, s, i);
    } else {
      StepOfDuplicate(style, s, i);
    }
  }

  /** The session and the arguments of every call are those of the latest announcement, over every run. */
  lemma {:induction false} MemoryIsHistory(style: Style, run: seq<Input>)
    ensures After(style, INITIAL, run).work.session == LastBound(run)
    ensures forall id :: Get(After(style, INITIAL, run).work.toolArgs, id) == LastInput(run, id)
  {
    hide Step;
    if run != [] {
      MemoryIsHistory(style, run[..|run|-1]);
      StepMoves(style, After(style, INITIAL, run[..|run|-1]), run[|run|-1]);
    }
  }

  // ---------------------------------------------------------------- how a step ends the turn

  predicate EndsTurn(f: Frame) {
    f.Finish? || f.Error? || f.SegmentBreak?
  }

  /** The Finish, Error and SegmentBreak frames, in order. */
  function TurnEnds(sent: seq<Frame>): seq<Frame> {
    if sent == [] then [] else
    TurnEnds(sent[..|sent|-1]) + if EndsTurn(sent[|sent|-1]) then [sent[|sent|-1]] else []
  }

  lemma {:induction false} TurnEndsConcat(a: seq<Frame>, b: seq<Frame>)
    ensures TurnEnds(a + b) == TurnEnds(a) + TurnEnds(b)
  {
    if b == [] {
      assert a + b == a;
    } else {
      var init := b[..|b|-1];
      assert (a + b)[..|a + b|-1] == a + init;
      TurnEndsConcat(a, init);
    }
  }

  lemma {:induction false} KindsTell(sent: seq<Frame>)
    ensures |Kinds(sent)| == |TurnEnds(sent)|
    ensures forall k :: 0 <= k < |TurnEnds(sent)| ==> EndsTurn(TurnEnds(sent)[k]) && KindOf(TurnEnds(sent)[k]) == [Kinds(sent)[k]]
  {
    if sent != [] {
      KindsTell(sent[..|sent|-1]);
    }
  }

  lemma NoKindNoEnd(sent: seq<Frame>)
    ensures Kinds(sent) == [] ==> TurnEnds(sent) == []
    ensures Kinds(sent) == [BreakKind] ==> TurnEnds(sent) == [SegmentBreak]
  {
    hide Kinds, TurnEnds;
    KindsTell(sent);
    if Kinds(sent) == [BreakKind] {
      assert TurnEnds(sent)[0] == SegmentBreak;
    }
  }

  /** The highest generation an envelope carried. */
  function MaxGen(run: seq<Input>): nat {
    if run == [] then 0 else
    var last, earlier := run[|run|-1], MaxGen(run[..|run|-1]);
    if last.Envelope? && last.gen > earlier then last.gen else earlier
  }

  lemma {:induction false} GenIsMax(style: Style, run: seq<Input>)
    ensures After(style, INITIAL, run).ctl.gen == MaxGen(run)
  {
    hide Step, ControlStep, Kinds;
    if run != [] {
      var before, last := After(style, INITIAL, run[..|run|-1]), run[|run|-1];
      GenIsMax(style, run[..|run|-1]);
      PumpRefinesControl(style, before, last);
      if last.Envelope? {
        GenOfStep(before.ctl, Message(last.gen, last.event));
      }
    }
  }

  lemma GenOfStep(c: Control, m: Message)
    ensures ControlStep(c, m).c.gen == if m.gen > c.gen then m.gen else c.gen
  {
  }

  /** The text of a failed turn: flagged an error, not a cancellation, and with something to say. */
  predicate SaysFailure(isError: bool, text: string, outcome: TurnOutcome) {
    isError && outcome != Aborted && exists k :: 0 <= k < |text| && !IsSpace(text[k])
  }

  predicate LeavesQuietly(exit: Option<ExitStatus>) {
    exit == Some(ExitStatus(Some(0), None))
  }

  /** How an input ends a turn after a run, by the history of the run alone. */
  ghost function EndsAfter(style: Style, run: seq<Input>, i: Input): seq<Frame> {
    if i.Tick? then [] else
    var ongoing, finish := i.gen <= MaxGen(run), Finish(LastBound(run));
    match i.event
    case TurnResult(isError, text, outcome) =>
      if ongoing && IsSettled(style, run) then []
      else if SaysFailure(isError, text, outcome) then [Error(UpstreamFailure(text))]
      else if ongoing && WasDrained(style, run) then []
      else if ongoing && WorkflowRuns(style, run) && !isError && outcome != Aborted then [SegmentBreak]
      else [finish]
    case Detached(exit, summary) =>
      if !LeavesQuietly(exit) && !(ongoing && IsSettled(style, run)) then [Error(Disconnected(exit, summary))]
      else if ongoing && WasDrained(style, run) then [] else [finish]
    case SubagentUpdate(ref, status, _, _) =>
      if ongoing && (status == Interrupted || status == Broken || status == Shutdown)
         && Owes(style, run) && (forall other :: IsRunning(style, run, other) ==> other == ref) && !ClosedBefore(style, run)
      then [finish] else []
    case _ => []
  }

  lemma ErrorResultMeans(ev: Event)
    requires ev.TurnResult?
    ensures IsErrorResult(ev) <==> SaysFailure(ev.isError, ev.resultText, ev.outcome)
  {
    if !IsBlankText(ev.resultText) {
      var c :| c in ev.resultText && !IsSpace(c);
      var k :| 0 <= k < |ev.resultText| && ev.resultText[k] == c;
    }
  }

  lemma ClosingEnds(style: Style, s: Pump, i: Input)
    requires i.Envelope? && Closes(s.ctl, i)
    ensures TurnEnds(Step(style, s, i).sent) == TurnEnds(ClosingTail(s, i))
  {
    hide Step, UpdateCards, SettleFrames, CancelFrames, ClosingTail, Closes, Kinds, TurnEnds;
    ClosingStep(style, s, i);
    var u := UpdateCards(style, s.work, i.event, i.now);
    var closed := CloseOpenWork(style, s.work.(cards := u.cards), IsCleanResult(i.event), i);
    CardsAreSilent(style, s.work, i.event, i.now);
    ClosingIsSilent(style, s.work.(cards := u.cards), IsCleanResult(i.event), i);
    NoKindNoEnd(u.sent);
    NoKindNoEnd(closed.sent);
    TurnEndsConcat(u.sent, closed.sent);
    TurnEndsConcat(u.sent + closed.sent, ClosingTail(s, i));
    assert [] + [] + TurnEnds(ClosingTail(s, i)) == TurnEnds(ClosingTail(s, i));
  }

  lemma TipThenFinishEnds(tips: seq<Frame>, session: Option<string>)
    requires |tips| <= 1 && forall f :: f in tips ==> f.EmptyTurnTip?
    ensures TurnEnds(tips + [Finish(session)]) == [Finish(session)]
  {
    OneEnd(Finish(session));
    TurnEndsConcat(tips, [Finish(session)]);
    hide TurnEnds;
    if tips == [] {
      NoKindNoEnd([]);
      assert [] + [Finish(session)] == [Finish(session)];
    } else {
      OneEnd(tips[0]);
      assert tips == [tips[0]] && tips[0] in tips;
    }
  }

  lemma TailOfResult(s: Pump, i: Input)
    requires i.Envelope? && Closes(s.ctl, i) && i.event.TurnResult?
    ensures TurnEnds(ClosingTail(s, i)) ==
            if SaysFailure(i.event.isError, i.event.resultText, i.event.outcome) then [Error(UpstreamFailure(i.event.resultText))]
            else if AdvanceGen(s.ctl, i.gen).synthetic then [] else [Finish(s.work.session)]
  {
    ErrorResultMeans(i.event);
    OneEnd(Error(UpstreamFailure(i.event.resultText)));
    var tip := if IsCleanResult(i.event) && !s.work.sawVisible then EmptyTurnTipFor(i.event.outcome) else None;
    TipThenFinishEnds(if tip.Some? then [EmptyTurnTip(tip.value)] else [], s.work.session);
    hide SaysFailure, IsErrorResult, EmptyTurnTipFor;
  }

  lemma TailOfExit(s: Pump, i: Input)
    requires i.Envelope? && i.event.Detached?
    ensures TurnEnds(ClosingTail(s, i)) ==
            if !LeavesQuietly(i.event.exit) && !AdvanceGen(s.ctl, i.gen).terminalSeen
            then [Error(Disconnected(i.event.exit, i.event.summary))]
            else if AdvanceGen(s.ctl, i.gen).synthetic then [] else [Finish(s.work.session)]
  {
    OneEnd(Error(Disconnected(i.event.exit, i.event.summary)));
    OneEnd(Finish(s.work.session));
    assert [] + [Finish(s.work.session)] == [Finish(s.work.session)];
  }

  lemma TailOf(s: Pump, i: Input)
    requires i.Envelope? && Closes(s.ctl, i)
    ensures var a, finish := AdvanceGen(s.ctl, i.gen), Finish(s.work.session);
            TurnEnds(ClosingTail(s, i)) ==
            match i.event
            case TurnResult(isError, text, outcome) =>
              if SaysFailure(isError, text, outcome) then [Error(UpstreamFailure(text))]
              else if a.synthetic then [] else [finish]
            case Detached(exit, summary) =>
              if !LeavesQuietly(exit) && !a.terminalSeen then [Error(Disconnected(exit, summary))]
              else if a.synthetic then [] else [finish]
            case _ => if a.status == Some(Status.Finished) then [] else [finish]
  {
    hide SaysFailure, TurnEnds, IsErrorResult;
    if i.event.TurnResult? {
      TailOfResult(s, i);
    } else if i.event.Detached? {
      TailOfExit(s, i);
    } else {
      OneEnd(Finish(s.work.session));
      NoKindNoEnd([]);
    }
  }

  lemma OneEnd(f: Frame)
    ensures TurnEnds([f]) == if EndsTurn(f) then [f] else []
  {
    assert [f][..0] == [];
  }

  /** What one step does to the turn, by the control variables. */
  lemma OpenEnds(style: Style, s: Pump, i: Input)
    requires i.Envelope? && !Closes(s.ctl, i)
    ensures var a := AdvanceGen(s.ctl, i.gen);
            TurnEnds(Step(style, s, i).sent) ==
            if i.event.TurnResult? && !a.terminalSeen && !a.synthetic then [SegmentBreak] else []
  {
    hide Step, Kinds, TurnEnds;
    PumpRefinesControl(style, s, i);
    OpenKinds(s.ctl, i);
    NoKindNoEnd(Step(style, s, i).sent);
  }

  lemma OpenKinds(c: Control, i: Input)
    requires i.Envelope? && !Closes(c, i)
    ensures var a := AdvanceGen(c, i.gen);
            ControlStep(c, Message(i.gen, i.event)).kinds ==
            if i.event.TurnResult? && !a.terminalSeen && !a.synthetic then [BreakKind] else []
  {
  }

  /** Every Finish, Error and SegmentBreak of every run, with what it carries, by history alone. */
  lemma TurnEndIsExact(style: Style, run: seq<Input>, i: Input)
    ensures TurnEnds(Step(style, After(style, INITIAL, run), i).sent) == EndsAfter(style, run, i)
  {
    var s := After(style, INITIAL, run);
    hide Step, Kinds, TurnEnds, After, IsSettled, WasDrained, WorkflowRuns, Owes, ClosedBefore, IsRunning, SaysFailure, MaxGen, LastBound, ClosingTail;
    GenIsMax(style, run);
    MemoryIsHistory(style, run);
    SyntheticIsHistory(style, run);
    TerminalSeenIsHistory(style, run);
    StatusIsHistory(style, run);
    DebtIsHistory(style, run);
    WorkflowRunsIsRoster(style, run);
    OwesAndCloses(style, run);
    if i.Tick? {
      PumpRefinesControl(style, s, i);
      NoKindNoEnd(Step(style, s, i).sent);
    } else {
      if i.event.SubagentUpdate? {
        RosterBut(style, run, i.event.ref);
      }
      if Closes(s.ctl, i) {
        ClosingEnds(style, s, i);
        TailOf(s, i);
      } else {
        OpenEnds(style, s, i);
        if i.event.TurnResult? && !AdvanceGen(s.ctl, i.gen).terminalSeen {
          CleanIsNoFailure(s.ctl, i);
        }
      }
    }
  }

  lemma CleanIsNoFailure(c: Control, i: Input)
    requires i.Envelope? && !Closes(c, i) && i.event.TurnResult? && !AdvanceGen(c, i.gen).terminalSeen
    ensures !SaysFailure(i.event.isError, i.event.resultText, i.event.outcome)
    ensures !i.event.isError && i.event.outcome != Aborted && AdvanceGen(c, i.gen).inflight != {}
  {
  }

  lemma OwesAndCloses(style: Style, run: seq<Input>)
    ensures After(style, INITIAL, run).ctl.owed <==> Owes(style, run)
    ensures After(style, INITIAL, run).ctl.status == Some(Status.Finished) <==> ClosedBefore(style, run)
  {
    hide Step, After, Holds;
    DebtIsHistory(style, run);
    StatusIsHistory(style, run);
  }

  lemma RosterBut(style: Style, run: seq<Input>, ref: string)
    ensures After(style, INITIAL, run).ctl.inflight - {ref} == {} <==> forall other :: IsRunning(style, run, other) ==> other == ref
  {
    hide Step, After, IsRunning;
    var roster := After(style, INITIAL, run).ctl.inflight;
    forall other ensures other in roster <==> IsRunning(style, run, other) {
      RosterIsHistory(style, run, other);
    }
    assert forall other :: other in roster && other != ref ==> other in roster - {ref};
    if roster - {ref} != {} {
      var other :| other in roster - {ref};
      assert IsRunning(style, run, other) && other != ref;
    }
  }

  // ---------------------------------------------------------------- what passes through

  predicate HasCard(w: Work, call: string) {
    exists r :: r in w.cards && w.cards[r].ledger.callId == call
  }

  /** The frames of an event that concerns neither a card nor the end of a turn. */
  function ShownFor(w: Work, ev: Event): seq<Frame> {
    match ev
    case MessageDelta(text) => [Text(text)]
    case ThoughtDelta(text) => [Thinking(text)]
    case ToolCall(id, name, input) => [ToolFrame(ToolData(id, name, input, ToolRunning, Some(input), None, None))]
    case ToolResult(id, isError, output) =>
      [ToolFrame(ToolData(id, Or(Get(w.toolName, id), Some("")).value, Null,
                          if HasCard(w, id) then ToolRunning else if isError then ToolError else ToolCompleted,
                          None, output, None))]
    case ToolOutputDelta(id, text) =>
      [ToolFrame(ToolData(id, Or(Get(w.toolName, id), Some("")).value, Null, ToolRunning, None,
                          Some(Or(Get(w.toolOutput, id), Some("")).value + text), None))]
    case Permission(id) => [PermissionFrame(id)]
    case Plan => [PlanFrame]
    case Passing(aside) => [AsideFrame(aside)]
    case CatalogUpdated(hasOptions, hasCommands) =>
      if hasOptions && hasCommands then [ConfigOptions, AvailableCommands]
      else if hasOptions then [ConfigOptions] else if hasCommands then [AvailableCommands] else []
    case _ => []
  }

  predicate PassesThrough(ev: Event) {
    !ev.TurnResult? && !ev.Detached? && !ev.SubagentUpdate? && !ev.SubagentDetail? && !ev.WorkflowPhase?
  }

  /** Content is shown as it came, at once, in every state; a call's result keeps its name, and looks live while its card is. */
  lemma ContentIsShown(style: Style, s: Pump, i: Input)
    requires i.Envelope? && PassesThrough(i.event)
    ensures Step(style, s, i).sent == ShownFor(s.work, i.event)
  {
    hide Step;
    if i.event.ToolOutputDelta? {
      StepOfDelta(style, s, i);
    } else if i.event.CatalogUpdated? {
      StepOfCatalog(style, s, i);
    } else {
      StepOfProcessed(style, s, i);
      ProcessedIsShown(style, s.(ctl := Armed(s.ctl, i)), i);
    }
  }

  lemma ProcessedIsShown(style: Style, s: Pump, i: Input)
    requires i.Envelope? && PassesThrough(i.event) && !i.event.ToolOutputDelta? && !i.event.CatalogUpdated?
    ensures Process(style, s, i).sent == ShownFor(s.work, i.event)
  {
    NoCardsTouched(style, s.work, i.event, i.now);
    hide UpdateCards;
    var b := Boundary(style, s, i);
    assert b.sent == [] && b.tip == None;
    DeliveredAsShown(s, b.s, i.event);
    assert s.(work := s.work.(cards := s.work.cards)) == s;
    assert [] + [] + [] + ShownFor(s.work, i.event) == ShownFor(s.work, i.event);
  }

  lemma DeliveredAsShown(s: Pump, b: Pump, ev: Event)
    requires PassesThrough(ev) && !ev.ToolOutputDelta? && !ev.CatalogUpdated?
    requires b.work.cards == s.work.cards
    requires b.work.toolName == if ev.ToolCall? then s.work.toolName[ev.id := ev.name] else s.work.toolName
    ensures Deliver(b, ev, false, None).sent == ShownFor(s.work, ev)
  {
    assert forall call :: HasLiveCard(b.work.cards, call) == HasCard(s.work, call);
    hide HasLiveCard, HasCard;
  }

  // ---------------------------------------------------------------- rows without a card

  predicate IsRowOnly(f: Frame) {
    f.Progress? && f.settleOnly
  }

  /** The end of a container this pump has no card for, under a known call. */
  predicate EndsElsewhere(w: Work, i: Input) {
    && i.Envelope? && i.event.SubagentUpdate? && i.event.status != PendingInit && i.event.status != Active
    && i.event.ref !in w.cards && i.event.parent.Some?
  }

  /** Such an end, and nothing else, repaints the stored row of its call with the outcome, and no more than that. */
  lemma RowOnlyIsExact(style: Style, s: Pump, i: Input, f: Frame)
    requires IsRowOnly(f)
    ensures f in Step(style, s, i).sent <==>
            EndsElsewhere(s.work, i)
            && f == Progress(ToolData(i.event.parent.value, "", Null,
                                      if i.event.status == Succeeded then ToolCompleted
                                      else if i.event.status == Broken then ToolError else ToolCanceled,
                                      None, None, None), [], true)
  {
    hide Step, UpdateCards, Closes, SettleFrames, CancelFrames, ClosingTail, TickFrames, IsPlain;
    if i.Tick? {
      NoRowsOnTick(style, s, i);
    } else {
      NewsRows(style, s.work, i, f);
      if Closes(s.ctl, i) {
        ClosingStep(style, s, i);
        NoRowsInClosing(style, s, i);
      } else {
        OpenStep(style, s, i);
        RowsAreNews(style, s, i, f);
      }
    }
  }

  lemma {:induction false} NoRowsInTickFrames(style: Style, cards: map<string, Card>, now: int, order: seq<string>)
    ensures forall f :: f in TickFrames(style, cards, now, order) ==> !IsRowOnly(f)
  {
    hide TakeEmission;
    if order != [] {
      NoRowsInTickFrames(style, cards, now, order[..|order|-1]);
    }
  }

  lemma NoRowsOnTick(style: Style, s: Pump, i: Input)
    requires i.Tick?
    ensures forall f :: f in Step(style, s, i).sent ==> !IsRowOnly(f)
  {
    hide TickFrames, Process, TickedCards;
    NoRowsInTickFrames(style, s.work.cards, i.now, i.cardOrder);
  }

  lemma {:induction false} NoRowsInSettleFrames(style: Style, cards: map<string, Card>, keep: bool, now: int, order: seq<string>)
    ensures forall f :: f in SettleFrames(style, cards, keep, now, order) ==> !IsRowOnly(f)
  {
    hide TakeEmission;
    if order != [] {
      NoRowsInSettleFrames(style, cards, keep, now, order[..|order|-1]);
    }
  }

  lemma NoRowsInClosing(style: Style, s: Pump, i: Input)
    requires i.Envelope? && Closes(s.ctl, i)
    ensures var u := UpdateCards(style, s.work, i.event, i.now);
            && (forall f :: f in SettleFrames(style, u.cards, IsCleanResult(i.event), i.now, i.cardOrder) ==> !IsRowOnly(f))
            && (forall f :: f in CancelFrames(s.work.openTools, i.toolOrder) ==> !IsRowOnly(f))
            && (forall f :: f in ClosingTail(s, i) ==> !IsRowOnly(f))
  {
    hide UpdateCards, SettleFrames, CancelFrames;
    NoRowsInSettleFrames(style, UpdateCards(style, s.work, i.event, i.now).cards, IsCleanResult(i.event), i.now, i.cardOrder);
    CancelsAreTools(s.work.openTools, i.toolOrder);
  }

  lemma NewsRows(style: Style, w: Work, i: Input, f: Frame)
    requires i.Envelope? && IsRowOnly(f)
    ensures f in UpdateCards(style, w, i.event, i.now).sent <==>
            EndsElsewhere(w, i)
            && f == Progress(ToolData(i.event.parent.value, "", Null,
                                      if i.event.status == Succeeded then ToolCompleted
                                      else if i.event.status == Broken then ToolError else ToolCanceled,
                                      None, None, None), [], true)
  {
    hide TakeEmission, Upsert, UpsertForces, DeclarePhase, NewCard;
  }

  lemma RowsAreNews(style: Style, s: Pump, i: Input, f: Frame)
    requires i.Envelope? && !Closes(s.ctl, i) && IsRowOnly(f)
    ensures f in Step(style, s, i).sent <==> f in UpdateCards(style, s.work, i.event, i.now).sent
  {
    hide Step, UpdateCards, Closes;
    OpenStep(style, s, i);
    var u, sent := UpdateCards(style, s.work, i.event, i.now).sent, Step(style, s, i).sent;
    if f in u {
      var k :| 0 <= k < |u| && u[k] == f;
      assert sent[..|u|][k] == f;
    }
    if f in sent {
      var k :| 0 <= k < |sent| && sent[k] == f;
      assert k < |u| ==> sent[..|u|][k] == u[k];
    }
  }
}
