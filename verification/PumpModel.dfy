/**
 The event pump as a function from one state to the next.

 The stages follow the loop of the pump in its own order. The only freedom the pump
 leaves open is the order in which a hash map is walked; each input carries the two
 orders that are walked when it closes a turn.
 */
module PumpModel {
  import opened Wrappers
  import opened WorkflowProgress
  import opened SessionEvents

  datatype Status = Pending | Running | Finished

  /** The variables that decide how turns end. */
  datatype Control = Control(
    inflight: set<string>,
    owed: bool,
    synthetic: bool,
    terminalSeen: bool,
    gen: nat,
    status: Option<Status>)

  /** What the pump accumulates for the turn, and the cards that may outlive it. */
  datatype Work = Work(
    toolOutput: map<string, string>,
    toolName: map<string, string>,
    openTools: map<string, string>,
    cards: map<string, Card>,
    toolArgs: map<string, Args>,
    sawVisible: bool,
    session: Option<string>)

  datatype Pump = Pump(ctl: Control, work: Work)

  const INITIAL := Pump(Control({}, false, false, false, 0, None),
                        Work(map[], map[], map[], map[], map[], false, None))

  datatype Input =
    | Envelope(gen: nat, event: Event, now: int, cardOrder: seq<string>, toolOrder: seq<string>)
    | Tick(now: int, cardOrder: seq<string>)

  datatype Out = Out(s: Pump, sent: seq<Frame>)

  // ---------------------------------------------------------------- turn boundaries

  function NewTurn(c: Control): Control {
    c.(status := Some(Status.Running), terminalSeen := false, inflight := {}, owed := false, synthetic := false)
  }

  function AdvanceGen(c: Control, gen: nat): Control {
    if gen > c.gen then NewTurn(c.(gen := gen)) else c
  }

  function Rearm(c: Control, ev: Event): Control {
    if c.terminalSeen && IsContent(ev) then c.(terminalSeen := false) else c
  }

  // ---------------------------------------------------------------- progress cards

  datatype CardsOut = CardsOut(cards: map<string, Card>, sent: seq<Frame>)

  function ProgressOf(sent: Option<Emission>): seq<Frame> {
    if sent.Some? then [Progress(sent.value.data, sent.value.entries, false)] else []
  }

  function SettledStatus(status: SubagentStatus): CardStatus {
    match status
    case Succeeded => CardStatus.Completed
    case Broken => CardStatus.Errored
    case _ => CardStatus.Cancelled
  }

  function OpenCard(style: Style, w: Work, ref: string, kind: TaskKind, call: string, now: int): CardsOut {
    var args := if call in w.toolArgs then w.toolArgs[call] else Null;
    if kind == WorkflowContainer then
      var name := if call in w.toolName then w.toolName[call] else "Workflow";
      CardsOut(w.cards[ref := NewCard(Workflow, "", None, call, name, args, now)], [])
    else if call !in w.toolName then CardsOut(w.cards, [])
    else
      var desc := if args.Json? then Or(args.description, args.command) else None;
      var t := TakeEmission(style, NewCard(BackgroundTask, ref, desc, call, w.toolName[call], args, now), now, true);
      CardsOut(w.cards[ref := t.card], ProgressOf(t.sent))
  }

  /** A terminal for a card this pump never opened only repaints the stored row. */
  function SettleOnly(call: string, status: SubagentStatus): Frame {
    Progress(ToolData(call, "", Null, AsToolStatus(SettledStatus(status)), None, None, None), [], true)
  }

  function CloseCard(style: Style, c: Card, status: CardStatus, now: int): seq<Frame> {
    ProgressOf(TakeEmission(style, c.(ledger := Settle(c.ledger, status)), now, true).sent)
  }

  function OfferCard(style: Style, w: Work, ref: string, ledger: Ledger, now: int, forced: bool): CardsOut
    requires ref in w.cards
  {
    var t := TakeEmission(style, w.cards[ref].(ledger := ledger), now, forced);
    CardsOut(w.cards[ref := t.card], ProgressOf(t.sent))
  }

  function UpdateCards(style: Style, w: Work, ev: Event, now: int): CardsOut {
    match ev
    case SubagentUpdate(ref, status, kind, parent) =>
      if IsActive(status) then
        if kind.None? || ref in w.cards || parent.None? then CardsOut(w.cards, [])
        else OpenCard(style, w, ref, kind.value, parent.value, now)
      else if ref !in w.cards then
        CardsOut(w.cards, if parent.Some? then [SettleOnly(parent.value, status)] else [])
      else
        CardsOut(w.cards - {ref}, CloseCard(style, w.cards[ref], SettledStatus(status), now))
    case SubagentDetail(ref, parent, detail) =>
      if parent.None? || parent.value !in w.cards then CardsOut(w.cards, []) else
      var l := w.cards[parent.value].ledger;
      OfferCard(style, w, parent.value, Upsert(l, ref, detail), now, UpsertForces(l, ref, detail))
    case WorkflowPhase(taskId, index, title) =>
      if taskId !in w.cards then CardsOut(w.cards, []) else
      var l := w.cards[taskId].ledger;
      OfferCard(style, w, taskId, DeclarePhase(l, index, title), now, index !in l.phases)
    case _ => CardsOut(w.cards, [])
  }

  predicate IsKept(c: Card, keepBackground: bool) {
    keepBackground && c.ledger.kind == BackgroundTask
  }

  function SettleFrames(style: Style, cards: map<string, Card>, keepBackground: bool, now: int,
                        order: seq<string>): seq<Frame>
  {
    if order == [] then [] else
    var last := order[|order|-1];
    SettleFrames(style, cards, keepBackground, now, order[..|order|-1])
    + if last in cards && !IsKept(cards[last], keepBackground)
      then CloseCard(style, cards[last], CardStatus.Cancelled, now) else []
  }

  function KeptCards(cards: map<string, Card>, keepBackground: bool): map<string, Card> {
    map r | r in cards && IsKept(cards[r], keepBackground) :: cards[r]
  }

  function Canceled(id: string, name: string): Frame {
    ToolFrame(ToolData(id, name, Null, ToolCanceled, None, None, None))
  }

  function CancelFrames(open: map<string, string>, order: seq<string>): seq<Frame> {
    if order == [] then [] else
    var last := order[|order|-1];
    CancelFrames(open, order[..|order|-1]) + if last in open then [Canceled(last, open[last])] else []
  }

  datatype WorkOut = WorkOut(w: Work, sent: seq<Frame>)

  /** Everything a turn may leave spinning: its cards first, then its tool calls. */
  function CloseOpenWork(style: Style, w: Work, keepBackground: bool, i: Input): WorkOut
    requires i.Envelope?
  {
    WorkOut(w.(cards := KeptCards(w.cards, keepBackground), openTools := map[],
               toolOutput := map[], toolName := map[], sawVisible := false),
            SettleFrames(style, w.cards, keepBackground, i.now, i.cardOrder)
            + CancelFrames(w.openTools, i.toolOrder))
  }

  // ---------------------------------------------------------------- the workflow roster

  function EmitFinishOnce(s: Pump): Out {
    if s.ctl.status == Some(Status.Finished) then Out(s, [])
    else Out(s.(ctl := s.ctl.(status := Some(Status.Finished))), [Finish(s.work.session)])
  }

  predicate Drains(c: Control, ev: Event) {
    && ev.SubagentUpdate? && !IsActive(ev.status) && ev.status != Succeeded
    && c.owed && c.inflight - {ev.ref} == {}
  }

  function Drain(style: Style, s: Pump, i: Input): Out
    requires i.Envelope?
  {
    var closed := CloseOpenWork(style, s.work, false, i);
    var paid := EmitFinishOnce(Pump(s.ctl.(owed := false, synthetic := true, terminalSeen := true), closed.w));
    Out(paid.s, closed.sent + paid.sent)
  }

  function TrackRoster(style: Style, s: Pump, i: Input): Out
    requires i.Envelope?
  {
    var ev := i.event;
    if !ev.SubagentUpdate? then Out(s, [])
    else if IsActive(ev.status) then
      Out(if ev.kind == Some(WorkflowContainer) then s.(ctl := s.ctl.(inflight := s.ctl.inflight + {ev.ref})) else s, [])
    else
      var s' := s.(ctl := s.ctl.(inflight := s.ctl.inflight - {ev.ref}));
      if Drains(s.ctl, ev) then Drain(style, s', i) else Out(s', [])
  }

  predicate Suppresses(c: Control, ev: Event) {
    c.inflight != {} && IsCleanResult(ev)
  }

  // ---------------------------------------------------------------- the boundary match

  datatype BoundaryOut = BoundaryOut(s: Pump, sent: seq<Frame>, tip: Option<Tip>)

  function Boundary(style: Style, s: Pump, i: Input): BoundaryOut
    requires i.Envelope?
  {
    match i.event
    case TurnStarted => BoundaryOut(s.(ctl := NewTurn(s.ctl)), [], None)
    case ToolCall(id, name, input) =>
      BoundaryOut(s.(work := s.work.(toolName := s.work.toolName[id := name],
                                     openTools := s.work.openTools[id := name],
                                     toolArgs := s.work.toolArgs[id := input])), [], None)
    case ToolResult(id, _, _) => BoundaryOut(s.(work := s.work.(openTools := s.work.openTools - {id})), [], None)
    case TurnResult(isError, _, outcome) =>
      if Suppresses(s.ctl, i.event) then BoundaryOut(s, [], None) else
      var closed := CloseOpenWork(style, s.work, IsCleanResult(i.event), i);
      BoundaryOut(Pump(s.ctl.(owed := false, status := Some(Status.Finished), terminalSeen := true), closed.w),
                  closed.sent,
                  if !isError && !s.work.sawVisible then EmptyTurnTipFor(outcome) else None)
    case Detached(_, _) =>
      var closed := CloseOpenWork(style, s.work, false, i);
      BoundaryOut(Pump(s.ctl.(owed := false, status := Some(Status.Finished)), closed.w), closed.sent, None)
    case BackendBound(id) =>
      BoundaryOut(if id.Some? then s.(work := s.work.(session := id)) else s, [], None)
    case _ => BoundaryOut(s, [], None)
  }

  // ---------------------------------------------------------------- delivery

  /** Fill in a missing tool name, or learn a present one. */
  function StampName(names: map<string, string>, f: Frame): Frame {
    if f.ToolFrame? && f.data.name == "" && f.data.callId in names
    then ToolFrame(f.data.(name := names[f.data.callId])) else f
  }

  function LearnName(names: map<string, string>, f: Frame): map<string, string> {
    if f.ToolFrame? && f.data.name != "" then names[f.data.callId := f.data.name] else names
  }

  predicate HasLiveCard(cards: map<string, Card>, call: string) {
    exists r :: r in cards && cards[r].ledger.callId == call
  }

  function Shield(cards: map<string, Card>, f: Frame): Frame {
    if f.ToolFrame? && HasLiveCard(cards, f.data.callId)
    then ToolFrame(f.data.(status := ToolRunning)) else f
  }

  /** The end of a turn: swallowed by the guard, held back, or sent behind its tip. */
  function DeliverFinish(s: Pump, suppress: bool, tip: Option<Tip>): Out {
    if s.ctl.synthetic then Out(s, []) else
    var tips := if tip.Some? then [EmptyTurnTip(tip.value)] else [];
    if suppress then Out(s.(ctl := s.ctl.(owed := true)), tips + [SegmentBreak])
    else Out(s, tips + [Finish(s.work.session)])
  }

  function Deliver(s: Pump, ev: Event, suppress: bool, tip: Option<Tip>): Out {
    match Translate(ev, s.ctl.terminalSeen)
    case None => Out(s, [])
    case Some(Finish(_)) => DeliverFinish(s, suppress, tip)
    case Some(f) =>
      var shown := Shield(s.work.cards, StampName(s.work.toolName, f));
      Out(s.(work := s.work.(toolName := LearnName(s.work.toolName, f),
                             sawVisible := s.work.sawVisible || IsVisible(shown))), [shown])
  }

  // ---------------------------------------------------------------- one step

  function AppendOutput(w: Work, id: string, text: string): WorkOut {
    var soFar := (if id in w.toolOutput then w.toolOutput[id] else "") + text;
    var name := if id in w.toolName then w.toolName[id] else "";
    WorkOut(w.(sawVisible := true, toolOutput := w.toolOutput[id := soFar]),
            [ToolFrame(ToolData(id, name, Null, ToolRunning, None, Some(soFar), None))])
  }

  function CatalogFrames(hasOptions: bool, hasCommands: bool): seq<Frame> {
    (if hasOptions then [ConfigOptions] else []) + (if hasCommands then [AvailableCommands] else [])
  }

  /** The stages every event other than a duplicate, an output delta or a catalog goes through. */
  function Process(style: Style, s: Pump, i: Input): Out
    requires i.Envelope?
  {
    var c := UpdateCards(style, s.work, i.event, i.now);
    var roster := TrackRoster(style, s.(work := s.work.(cards := c.cards)), i);
    var b := Boundary(style, roster.s, i);
    var d := Deliver(b.s, i.event, Suppresses(roster.s.ctl, i.event), b.tip);
    Out(d.s, c.sent + roster.sent + b.sent + d.sent)
  }

  function TickFrames(style: Style, cards: map<string, Card>, now: int, order: seq<string>): seq<Frame> {
    if order == [] then [] else
    var last := order[|order|-1];
    TickFrames(style, cards, now, order[..|order|-1])
    + if last in cards then ProgressOf(TakeEmission(style, cards[last], now, false).sent) else []
  }

  function TickedCards(style: Style, cards: map<string, Card>, now: int): map<string, Card> {
    map r | r in cards :: TakeEmission(style, cards[r], now, false).card
  }

  /** The control variables once the envelope has been looked at. */
  function Armed(c: Control, i: Input): Control
    requires i.Envelope?
  {
    Rearm(AdvanceGen(c, i.gen), i.event)
  }

  /** A second terminal for a turn that is settled already. */
  predicate IsDuplicate(c: Control, i: Input)
    requires i.Envelope?
  {
    i.event.TurnResult? && AdvanceGen(c, i.gen).terminalSeen
  }

  function Step(style: Style, s: Pump, i: Input): Out {
    if i.Tick? then
      Out(s.(work := s.work.(cards := TickedCards(style, s.work.cards, i.now))),
          TickFrames(style, s.work.cards, i.now, i.cardOrder))
    else if IsDuplicate(s.ctl, i) then Out(s.(ctl := AdvanceGen(s.ctl, i.gen)), [])
    else if i.event.ToolOutputDelta? then
      var out := AppendOutput(s.work, i.event.id, i.event.text);
      Out(Pump(Armed(s.ctl, i), out.w), out.sent)
    else if i.event.CatalogUpdated? then
      Out(s.(ctl := Armed(s.ctl, i)), CatalogFrames(i.event.hasOptions, i.event.hasCommands))
    else Process(style, s.(ctl := Armed(s.ctl, i)), i)
  }

  /** An envelope that goes through every stage. */
  predicate IsProcessed(c: Control, i: Input) {
    i.Envelope? && !IsDuplicate(c, i) && !i.event.ToolOutputDelta? && !i.event.CatalogUpdated?
  }

  lemma StepOfProcessed(style: Style, s: Pump, i: Input)
    requires IsProcessed(s.ctl, i)
    ensures Step(style, s, i) == Process(style, s.(ctl := Armed(s.ctl, i)), i)
  {
    hide Process;
  }

  lemma StepOfDuplicate(style: Style, s: Pump, i: Input)
    requires i.Envelope? && IsDuplicate(s.ctl, i)
    ensures Step(style, s, i) == Out(s.(ctl := AdvanceGen(s.ctl, i.gen)), [])
  {
    hide Process;
  }

  lemma StepOfDelta(style: Style, s: Pump, i: Input)
    requires i.Envelope? && i.event.ToolOutputDelta?
    ensures var out := AppendOutput(s.work, i.event.id, i.event.text);
            Step(style, s, i) == Out(Pump(AdvanceGen(s.ctl, i.gen), out.w), out.sent)
  {
    hide Process;
  }

  lemma StepOfCatalog(style: Style, s: Pump, i: Input)
    requires i.Envelope? && i.event.CatalogUpdated?
    ensures Step(style, s, i) ==
            Out(s.(ctl := AdvanceGen(s.ctl, i.gen)), CatalogFrames(i.event.hasOptions, i.event.hasCommands))
  {
    hide Process;
  }

  /** The end of the stream settles whatever is left. */
  function StreamEnd(style: Style, w: Work, now: int, order: seq<string>): WorkOut {
    WorkOut(w.(cards := map[]), SettleFrames(style, w.cards, false, now, order))
  }

  /** The orders an input carries are orders of the maps the pump holds. */
  predicate Legal(w: Work, i: Input) {
    && Enumerates(i.cardOrder, w.cards.Keys)
    && (i.Envelope? ==> Enumerates(i.toolOrder, w.openTools.Keys))
  }

  // ---------------------------------------------------------------- runs

  function After(style: Style, s: Pump, run: seq<Input>): Pump {
    if run == [] then s else Step(style, After(style, s, run[..|run|-1]), run[|run|-1]).s
  }

  function Output(style: Style, s: Pump, run: seq<Input>): seq<Frame> {
    if run == [] then [] else
    var earlier := run[..|run|-1];
    Output(style, s, earlier) + Step(style, After(style, s, earlier), run[|run|-1]).sent
  }

  predicate LegalRun(style: Style, s: Pump, run: seq<Input>) {
    run == [] || (LegalRun(style, s, run[..|run|-1]) && Legal(After(style, s, run[..|run|-1]).work, run[|run|-1]))
  }

  lemma RunSnoc(style: Style, s: Pump, run: seq<Input>, i: Input)
    ensures After(style, s, run + [i]) == Step(style, After(style, s, run), i).s
    ensures Output(style, s, run + [i]) == Output(style, s, run) + Step(style, After(style, s, run), i).sent
    ensures LegalRun(style, s, run + [i]) <==> LegalRun(style, s, run) && Legal(After(style, s, run).work, i)
  {
    hide Step, Legal;
    assert (run + [i])[..|run + [i]|-1] == run;
  }
}
