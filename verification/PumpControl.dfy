/**
 How turns end: a small automaton that the event pump refines.

 Whether a step sends Finish, Error or SegmentBreak depends on the control variables
 and on nothing else. `ControlStep` says so as a table over fates; `RunRefinesControl`
 ties it to the pump, and the theorems on turn endings follow.
 */
module PumpControl {
  import opened Wrappers
  import opened WorkflowProgress
  import opened SessionEvents
  import opened PumpModel

  datatype Kind = FinishKind | ErrorKind | BreakKind

  datatype ControlOut = ControlOut(c: Control, kinds: seq<Kind>)

  function KindOf(f: Frame): seq<Kind> {
    match f
    case Finish(_) => [FinishKind]
    case Error(_) => [ErrorKind]
    case SegmentBreak => [BreakKind]
    case _ => []
  }

  function Kinds(sent: seq<Frame>): seq<Kind> {
    if sent == [] then [] else Kinds(sent[..|sent|-1]) + KindOf(sent[|sent|-1])
  }

  /** What becomes of a turn result. */
  datatype Fate = Duplicate | Raised | Swallowed | Segmented | Closed

  function FateOf(c: Control, ev: Event): Fate
    requires ev.TurnResult?
  {
    if c.terminalSeen then Duplicate
    else if IsErrorResult(ev) then Raised
    else if c.synthetic then Swallowed
    else if c.inflight != {} && IsCleanResult(ev) then Segmented
    else Closed
  }

  function FateKinds(fate: Fate): seq<Kind> {
    match fate
    case Raised => [ErrorKind]
    case Segmented => [BreakKind]
    case Closed => [FinishKind]
    case _ => []
  }

  /** What the backend said, without clocks, heartbeats and walking orders. */
  datatype Message = Message(gen: nat, event: Event)

  function Advanced(c: Control, gen: nat): Control {
    if gen > c.gen then Control({}, false, false, false, gen, Some(Status.Running)) else c
  }

  function ControlReact(c: Control, ev: Event): ControlOut {
    match ev
    case TurnStarted => ControlOut(Control({}, false, false, false, c.gen, Some(Status.Running)), [])
    case TurnResult(_, _, _) =>
      var fate := FateOf(c, ev);
      ControlOut(
        if fate == Duplicate then c
        else if c.inflight != {} && IsCleanResult(ev) then c.(owed := c.owed || fate == Segmented)
        else c.(owed := false, status := Some(Status.Finished), terminalSeen := true),
        FateKinds(fate))
    case Detached(exit, _) =>
      ControlOut(
        c.(owed := false, status := Some(Status.Finished)),
        if Classify(c.terminalSeen, exit) == Crashed then [ErrorKind]
        else if c.synthetic then [] else [FinishKind])
    case SubagentUpdate(ref, status, kind, _) =>
      if IsActive(status) then
        ControlOut(if kind == Some(WorkflowContainer) then c.(inflight := c.inflight + {ref}) else c, [])
      else if Drains(c, ev) then
        ControlOut(Control({}, false, true, true, c.gen, Some(Status.Finished)),
                   if c.status == Some(Status.Finished) then [] else [FinishKind])
      else ControlOut(c.(inflight := c.inflight - {ref}), [])
    case _ => ControlOut(if IsContent(ev) then c.(terminalSeen := false) else c, [])
  }

  function ControlStep(c: Control, m: Message): ControlOut {
    ControlReact(Advanced(c, m.gen), m.event)
  }

  // ---------------------------------------------------------------- refinement, step by step

  lemma {:induction false} KindsConcat(a: seq<Frame>, b: seq<Frame>)
    ensures Kinds(a + b) == Kinds(a) + Kinds(b)
  {
    if b == [] {
      assert a + b == a;
    } else {
      var init, last := b[..|b|-1], b[|b|-1];
      assert (a + b)[..|a + b|-1] == a + init && (a + b)[|a + b|-1] == last;
      KindsConcat(a, init);
      assert Kinds(a) + Kinds(init) + KindOf(last) == Kinds(a) + (Kinds(init) + KindOf(last));
    }
  }

  lemma ProgressIsSilent(sent: Option<Emission>)
    ensures Kinds(ProgressOf(sent)) == []
  {
  }

  lemma {:induction false} SettleIsSilent(style: Style, cards: map<string, Card>, keep: bool, now: int, order: seq<string>)
    ensures Kinds(SettleFrames(style, cards, keep, now, order)) == []
  {
    if order != [] {
      hide TakeEmission, Settle, IsKept, ProgressOf, KindOf;
      var init, last := order[..|order|-1], order[|order|-1];
      SettleIsSilent(style, cards, keep, now, init);
      if last in cards && !IsKept(cards[last], keep) {
        var farewell := TakeEmission(style, cards[last].(ledger := Settle(cards[last].ledger, CardStatus.Cancelled)), now, true).sent;
        ProgressIsSilent(farewell);
        KindsConcat(SettleFrames(style, cards, keep, now, init), ProgressOf(farewell));
      } else {
        KindsConcat(SettleFrames(style, cards, keep, now, init), []);
      }
    }
  }

  lemma {:induction false} CancelIsSilent(open: map<string, string>, order: seq<string>)
    ensures Kinds(CancelFrames(open, order)) == []
  {
    if order != [] {
      var init, last := order[..|order|-1], order[|order|-1];
      CancelIsSilent(open, init);
      KindsConcat(CancelFrames(open, init), if last in open then [Canceled(last, open[last])] else []);
    }
  }

  lemma {:induction false} TickIsSilent(style: Style, cards: map<string, Card>, now: int, order: seq<string>)
    ensures Kinds(TickFrames(style, cards, now, order)) == []
  {
    if order != [] {
      hide TakeEmission, ProgressOf, KindOf;
      var init, last := order[..|order|-1], order[|order|-1];
      TickIsSilent(style, cards, now, init);
      if last in cards {
        var sent := TakeEmission(style, cards[last], now, false).sent;
        ProgressIsSilent(sent);
        KindsConcat(TickFrames(style, cards, now, init), ProgressOf(sent));
      } else {
        KindsConcat(TickFrames(style, cards, now, init), []);
      }
    }
  }

  lemma ClosingIsSilent(style: Style, w: Work, keep: bool, i: Input)
    requires i.Envelope?
    ensures Kinds(CloseOpenWork(style, w, keep, i).sent) == []
  {
    SettleIsSilent(style, w.cards, keep, i.now, i.cardOrder);
    CancelIsSilent(w.openTools, i.toolOrder);
    KindsConcat(SettleFrames(style, w.cards, keep, i.now, i.cardOrder), CancelFrames(w.openTools, i.toolOrder));
  }

  lemma CardsAreSilent(style: Style, w: Work, ev: Event, now: int)
    ensures Kinds(UpdateCards(style, w, ev, now).sent) == []
  {
  }

  lemma DrainRefines(style: Style, s: Pump, i: Input)
    requires i.Envelope?
    ensures var out := Drain(style, s, i);
            && out.s.ctl == s.ctl.(owed := false, synthetic := true, terminalSeen := true, status := Some(Status.Finished))
            && Kinds(out.sent) == if s.ctl.status == Some(Status.Finished) then [] else [FinishKind]
  {
    var closed := CloseOpenWork(style, s.work, false, i);
    ClosingIsSilent(style, s.work, false, i);
    KindsConcat(closed.sent, if s.ctl.status == Some(Status.Finished) then [] else [Finish(closed.w.session)]);
  }

  lemma RosterRefines(style: Style, s: Pump, i: Input)
    requires i.Envelope?
    ensures var out := TrackRoster(style, s, i);
            if i.event.SubagentUpdate? then ControlOut(out.s.ctl, Kinds(out.sent)) == ControlReact(s.ctl, i.event)
            else out == Out(s, [])
  {
    hide Drain, Classify, FateOf, FateKinds, IsErrorResult, IsContent, KindOf;
    if Drains(s.ctl, i.event) {
      DrainRefines(style, s.(ctl := s.ctl.(inflight := s.ctl.inflight - {i.event.ref})), i);
    }
  }

  lemma BoundaryRefines(style: Style, s: Pump, i: Input)
    requires i.Envelope?
    ensures var out := Boundary(style, s, i);
            Kinds(out.sent) == [] && out.s.ctl == BoundaryControl(s.ctl, i.event)
  {
    if i.event.TurnResult? || i.event.Detached? {
      ClosingIsSilent(style, s.work, IsCleanResult(i.event), i);
    }
  }

  lemma FinishRefines(s: Pump, suppress: bool, tip: Option<Tip>)
    ensures var out := DeliverFinish(s, suppress, tip);
            && out.s.ctl == s.ctl.(owed := s.ctl.owed || (suppress && !s.ctl.synthetic))
            && Kinds(out.sent) == if s.ctl.synthetic then [] else if suppress then [BreakKind] else [FinishKind]
  {
    var tips := if tip.Some? then [EmptyTurnTip(tip.value)] else [];
    KindsConcat(tips, [SegmentBreak]);
    KindsConcat(tips, [Finish(s.work.session)]);
  }

  /** Whether an event that may end a turn is translated to a Finish. */
  predicate Finishes(ev: Event, terminalSeen: bool) {
    if ev.TurnResult? then !IsErrorResult(ev) else ev.Detached? && !Classify(terminalSeen, ev.exit).Crashed?
  }

  lemma DeliveryRefines(s: Pump, ev: Event, suppress: bool, tip: Option<Tip>)
    ensures var out := Deliver(s, ev, suppress, tip);
            if Finishes(ev, s.ctl.terminalSeen) then out == DeliverFinish(s, suppress, tip)
            else out.s.ctl == s.ctl && Kinds(out.sent) == if ev.TurnResult? || ev.Detached? then [ErrorKind] else []
  {
    var translated := Translate(ev, s.ctl.terminalSeen);
    if translated.Some? {
      ShownKeepsKind(s, translated.value);
      hide StampName, Shield, LearnName, IsVisible, IsErrorResult, Classify;
    }
  }

  lemma ShownKeepsKind(s: Pump, f: Frame)
    ensures Kinds([Shield(s.work.cards, StampName(s.work.toolName, f))]) == Kinds([f])
  {
  }

  lemma FourKinds(a: seq<Frame>, b: seq<Frame>, c: seq<Frame>, d: seq<Frame>)
    ensures Kinds(a + b + c + d) == Kinds(a) + Kinds(b) + Kinds(c) + Kinds(d)
  {
    KindsConcat(a, b);
    KindsConcat(a + b, c);
    KindsConcat(a + b + c, d);
  }

  /** The control variables after the boundary match. */
  function BoundaryControl(c: Control, ev: Event): Control {
    if ev.TurnStarted? then NewTurn(c)
    else if ev.Detached? then c.(owed := false, status := Some(Status.Finished))
    else if ev.TurnResult? && !Suppresses(c, ev)
    then c.(owed := false, status := Some(Status.Finished), terminalSeen := true)
    else c
  }

  /** Delivery on the control variables alone. */
  function DeliveryControl(c: Control, ev: Event, suppress: bool): ControlOut {
    if Finishes(ev, c.terminalSeen) then
      ControlOut(c.(owed := c.owed || (suppress && !c.synthetic)),
                 if c.synthetic then [] else if suppress then [BreakKind] else [FinishKind])
    else ControlOut(c, if ev.TurnResult? || ev.Detached? then [ErrorKind] else [])
  }

  lemma StagesCompose(c: Control, ev: Event)
    requires ev.TurnResult? || IsContent(ev) ==> !c.terminalSeen
    requires !ev.SubagentUpdate?
    ensures DeliveryControl(BoundaryControl(c, ev), ev, Suppresses(c, ev)) == ControlReact(c, ev)
  {
  }

  lemma ProcessStages(style: Style, s: Pump, i: Input)
    requires i.Envelope?
    ensures var out := Process(style, s, i);
            var roster := TrackRoster(style, s.(work := s.work.(cards := UpdateCards(style, s.work, i.event, i.now).cards)), i);
            var c := DeliveryControl(BoundaryControl(roster.s.ctl, i.event), i.event, Suppresses(roster.s.ctl, i.event));
            out.s.ctl == c.c && Kinds(out.sent) == Kinds(roster.sent) + c.kinds
  {
    hide UpdateCards, TrackRoster, Boundary, Deliver, DeliverFinish, BoundaryControl, Kinds, Suppresses, Finishes, IsErrorResult;
    var c := UpdateCards(style, s.work, i.event, i.now);
    var roster := TrackRoster(style, s.(work := s.work.(cards := c.cards)), i);
    var b := Boundary(style, roster.s, i);
    var suppress := Suppresses(roster.s.ctl, i.event);
    var d := Deliver(b.s, i.event, suppress, b.tip);
    CardsAreSilent(style, s.work, i.event, i.now);
    BoundaryRefines(style, roster.s, i);
    DeliveryRefines(b.s, i.event, suppress, b.tip);
    FinishRefines(b.s, suppress, b.tip);
    FourKinds(c.sent, roster.sent, b.sent, d.sent);
    assert Process(style, s, i) == Out(d.s, c.sent + roster.sent + b.sent + d.sent);
  }

  lemma ProcessRefines(style: Style, s: Pump, i: Input)
    requires i.Envelope?
    requires i.event.TurnResult? || IsContent(i.event) ==> !s.ctl.terminalSeen
    ensures var out := Process(style, s, i);
            ControlOut(out.s.ctl, Kinds(out.sent)) == ControlReact(s.ctl, i.event)
  {
    ProcessStages(style, s, i);
    RosterRefines(style, s.(work := s.work.(cards := UpdateCards(style, s.work, i.event, i.now).cards)), i);
    if !i.event.SubagentUpdate? {
      StagesCompose(s.ctl, i.event);
    }
  }

  lemma ProcessedRefines(style: Style, s: Pump, i: Input)
    requires IsProcessed(s.ctl, i)
    ensures var out := Step(style, s, i);
            ControlOut(out.s.ctl, Kinds(out.sent)) == ControlStep(s.ctl, Message(i.gen, i.event))
  {
    hide Step, Process, ControlReact, ControlStep, Kinds;
    StepOfProcessed(style, s, i);
    ProcessRefines(style, s.(ctl := Armed(s.ctl, i)), i);
    ArmedReacts(s.ctl, i);
  }

  lemma ArmedReacts(c: Control, i: Input)
    requires IsProcessed(c, i)
    ensures ControlReact(Armed(c, i), i.event) == ControlStep(c, Message(i.gen, i.event))
  {
    hide Classify, FateKinds;
  }

  lemma DuplicateRefines(style: Style, s: Pump, i: Input)
    requires i.Envelope? && IsDuplicate(s.ctl, i)
    ensures var out := Step(style, s, i);
            ControlOut(out.s.ctl, Kinds(out.sent)) == ControlStep(s.ctl, Message(i.gen, i.event))
  {
    hide Step;
    StepOfDuplicate(style, s, i);
  }

  lemma AsideRefines(style: Style, s: Pump, i: Input)
    requires i.Envelope? && (i.event.ToolOutputDelta? || i.event.CatalogUpdated?)
    ensures var out := Step(style, s, i);
            ControlOut(out.s.ctl, Kinds(out.sent)) == ControlStep(s.ctl, Message(i.gen, i.event))
  {
    hide Step;
    if i.event.ToolOutputDelta? {
      StepOfDelta(style, s, i);
    } else {
      StepOfCatalog(style, s, i);
      KindsConcat(if i.event.hasOptions then [ConfigOptions] else [],
                  if i.event.hasCommands then [AvailableCommands] else []);
    }
  }

  lemma TickRefines(style: Style, s: Pump, i: Input)
    requires i.Tick?
    ensures Step(style, s, i).s.ctl == s.ctl && Kinds(Step(style, s, i).sent) == []
  {
    hide TickFrames, Process;
    TickIsSilent(style, s.work.cards, i.now, i.cardOrder);
  }

  /** The pump moves like the automaton on every envelope, and a heartbeat never touches it. */
  lemma PumpRefinesControl(style: Style, s: Pump, i: Input)
    ensures var out := Step(style, s, i);
            ControlOut(out.s.ctl, Kinds(out.sent)) ==
            if i.Tick? then ControlOut(s.ctl, []) else ControlStep(s.ctl, Message(i.gen, i.event))
  {
    hide Step, ControlStep, Kinds, IsDuplicate;
    if i.Tick? {
      TickRefines(style, s, i);
    } else if IsDuplicate(s.ctl, i) {
      DuplicateRefines(style, s, i);
    } else if i.event.ToolOutputDelta? || i.event.CatalogUpdated? {
      AsideRefines(style, s, i);
    } else {
      ProcessedRefines(style, s, i);
    }
  }
}
