/** The event pump itself: one object whose fields the stages of the loop rewrite in place. */
module SessionPump {
  import opened Wrappers
  import opened WorkflowProgress
  import opened SessionEvents
  import opened PumpModel

  class EventPump {
    const style: Style
    /** The variables that decide how turns end. */
    var ctl: Control
    var toolOutput: map<string, string>
    var toolName: map<string, string>
    var openTools: map<string, string>
    var cards: map<string, WorkflowCard>
    var toolArgs: map<string, Args>
    var sawVisible: bool
    var session: Option<string>
    /** Everything broadcast so far. */
    var out: seq<Frame>
    /** What the ledgers in `cards` hold. */
    ghost var view: map<string, Card>

    /** Each container has a ledger of its own. */
    ghost predicate Valid()
      reads this`cards, this`view, cards.Values
    {
      && cards.Keys == view.Keys
      && (forall r :: r in cards ==> cards[r].style == style && cards[r].State() == view[r])
      && (forall r, t :: r in cards && t in cards && r != t ==> cards[r] != cards[t])
    }

    ghost function Notes(): Work
      reads this
    {
      Work(toolOutput, toolName, openTools, view, toolArgs, sawVisible, session)
    }

    ghost function State(): Pump
      reads this
    {
      Pump(ctl, Notes())
    }

    constructor (style: Style)
      ensures Valid() && State() == INITIAL && out == [] && this.style == style && cards == map[]
    {
      this.style := style;
      ctl := Control({}, false, false, false, 0, None);
      toolOutput, toolName, openTools, cards, toolArgs := map[], map[], map[], map[], map[];
      sawVisible, session := false, None;
      out, view := [], map[];
    }

    // -------------------------------------------------------------- progress cards

    /** Send what a ledger has to say. */
    method Broadcast(sent: Option<Emission>)
      modifies this`out
      ensures out == old(out) + ProgressOf(sent)
    {
      if sent.Some? {
        out := out + [Progress(sent.value.data, sent.value.entries, false)];
      }
    }

    /** Let the ledger of a container speak if it is due. */
    method OfferCard(ref: string, now: int, forced: bool)
      requires Valid() && ref in view
      modifies this`out, this`view, cards.Values
      ensures Valid()
      ensures var t := TakeEmission(style, old(view[ref]), now, forced);
              view == old(view)[ref := t.card] && out == old(out) + ProgressOf(t.sent)
    {
      hide TakeEmission, WorkflowCard.State;
      var sent := cards[ref].Emit(now, forced);
      view := view[ref := cards[ref].State()];
      Broadcast(sent);
    }

    method OpenCard(ref: string, kind: TaskKind, call: string, now: int)
      requires Valid() && ref !in cards
      modifies this`cards, this`out, this`view
      ensures Valid() && fresh(cards.Values - old(cards.Values))
      ensures var u := PumpModel.OpenCard(style, old(Notes()), ref, kind, call, now);
              view == u.cards && out == old(out) + u.sent
    {
      hide TakeEmission, NewCard, Valid, WorkflowCard.State;
      var args := if call in toolArgs then toolArgs[call] else Null;
      if kind == WorkflowContainer {
        var name := if call in toolName then toolName[call] else "Workflow";
        var card := new WorkflowCard(style, Workflow, "", None, call, name, args, now);
        AddCard(ref, card);
      } else if call in toolName {
        var desc := if args.Json? then Or(args.description, args.command) else None;
        var card := new WorkflowCard(style, BackgroundTask, ref, desc, call, toolName[call], args, now);
        var sent := card.Emit(now, true);
        AddCard(ref, card);
        Broadcast(sent);
      }
    }

    method AddCard(ref: string, card: WorkflowCard)
      requires Valid() && ref !in cards && card !in cards.Values && card.style == style
      modifies this`cards, this`view
      ensures Valid() && cards == old(cards)[ref := card] && view == old(view)[ref := card.State()]
      ensures cards.Values <= old(cards.Values) + {card}
    {
      cards := cards[ref := card];
      view := view[ref := card.State()];
    }

    /** Take a container's ledger out of the map, settle it and send its last frame. */
    method CloseCard(ref: string, status: CardStatus, now: int)
      requires Valid() && ref in cards
      modifies this`cards, this`out, this`view, cards[ref]
      ensures Valid() && cards == old(cards) - {ref} && view == old(view) - {ref}
      ensures out == old(out) + PumpModel.CloseCard(style, old(view[ref]), status, now)
    {
      hide TakeEmission, Settle, WorkflowCard.State;
      var card := cards[ref];
      cards, view := cards - {ref}, view - {ref};
      card.SettleAs(status);
      var sent := card.Emit(now, true);
      Broadcast(sent);
    }

    method AgentNews(ref: string, container: string, detail: AgentDetail, now: int)
      requires Valid() && container in view
      modifies this`out, this`view, cards.Values
      ensures Valid()
      ensures var l := old(view[container].ledger);
              var u := PumpModel.OfferCard(style, old(Notes()), container, Upsert(l, ref, detail), now, UpsertForces(l, ref, detail));
              view == u.cards && out == old(out) + u.sent
    {
      hide TakeEmission, Upsert, UpsertForces, Valid;
      var forced := NoteAgent(ref, container, detail);
      OfferCard(container, now, forced);
    }

    method NoteAgent(ref: string, container: string, detail: AgentDetail) returns (forced: bool)
      requires Valid() && container in view
      modifies this`view, cards.Values
      ensures Valid()
      ensures var c := old(view[container]);
              && view == old(view)[container := c.(ledger := Upsert(c.ledger, ref, detail))]
              && forced == UpsertForces(c.ledger, ref, detail)
    {
      hide Upsert, UpsertForces, WorkflowCard.State;
      forced := cards[container].UpsertAgent(ref, detail);
      view := view[container := cards[container].State()];
    }

    method PhaseNews(container: string, index: nat, title: string, now: int)
      requires Valid() && container in view
      modifies this`out, this`view, cards.Values
      ensures Valid()
      ensures var l := old(view[container].ledger);
              var u := PumpModel.OfferCard(style, old(Notes()), container, DeclarePhase(l, index, title), now, index !in l.phases);
              view == u.cards && out == old(out) + u.sent
    {
      hide TakeEmission, DeclarePhase, Valid;
      var isNew := NotePhase(container, index, title);
      OfferCard(container, now, isNew);
    }

    method NotePhase(container: string, index: nat, title: string) returns (isNew: bool)
      requires Valid() && container in view
      modifies this`view, cards.Values
      ensures Valid()
      ensures var c := old(view[container]);
              && view == old(view)[container := c.(ledger := DeclarePhase(c.ledger, index, title))]
              && isNew == (index !in c.ledger.phases)
    {
      hide DeclarePhase, WorkflowCard.State;
      isNew := cards[container].AddPhase(index, title);
      view := view[container := cards[container].State()];
    }

    method ContainerNews(ev: Event, now: int)
      requires Valid() && ev.SubagentUpdate?
      modifies this`cards, this`out, this`view, cards.Values
      ensures Valid() && fresh(cards.Values - old(cards.Values))
      ensures var u := PumpModel.UpdateCards(style, old(Notes()), ev, now);
              view == u.cards && out == old(out) + u.sent
    {
      hide PumpModel.OpenCard, PumpModel.CloseCard, PumpModel.OfferCard, Upsert, UpsertForces, WorkflowCard.State;
      hide DeclarePhase, IsActive, SettledStatus;
      var ref := ev.ref;
      if IsActive(ev.status) {
        if ev.kind.Some? && ref !in cards && ev.parent.Some? {
          OpenCard(ref, ev.kind.value, ev.parent.value, now);
        }
      } else if ref in cards {
        CloseCard(ref, SettledStatus(ev.status), now);
      } else if ev.parent.Some? {
        out := out + [SettleOnly(ev.parent.value, ev.status)];
      }
    }

    /** News for the ledgers already there. */
    method LedgerNews(ev: Event, now: int)
      requires Valid() && !ev.SubagentUpdate?
      modifies this`out, this`view, cards.Values
      ensures Valid()
      ensures var u := PumpModel.UpdateCards(style, old(Notes()), ev, now);
              view == u.cards && out == old(out) + u.sent
    {
      hide PumpModel.OfferCard, Upsert, UpsertForces, DeclarePhase, WorkflowCard.State;
      assert cards.Keys == view.Keys;
      hide Valid;
      match ev
      case SubagentDetail(ref, parent, detail) =>
        if parent.Some? && parent.value in cards {
          AgentNews(ref, parent.value, detail, now);
        }
      case WorkflowPhase(taskId, index, title) =>
        if taskId in cards {
          PhaseNews(taskId, index, title, now);
        }
      case _ =>
    }

    method UpdateCards(ev: Event, now: int)
      requires Valid()
      modifies this`cards, this`out, this`view, cards.Values
      ensures Valid() && fresh(cards.Values - old(cards.Values))
      ensures var u := PumpModel.UpdateCards(style, old(Notes()), ev, now);
              view == u.cards && out == old(out) + u.sent
    {
      hide PumpModel.UpdateCards, Valid;
      if ev.SubagentUpdate? {
        ContainerNews(ev, now);
      } else {
        LedgerNews(ev, now);
      }
    }

    method SettleOne(ref: string, keepBackground: bool, now: int)
      requires Valid()
      modifies this`cards, this`out, this`view, cards.Values
      ensures Valid() && cards.Values <= old(cards.Values)
      ensures var goes := ref in old(view) && !IsKept(old(view)[ref], keepBackground);
              && view == (if goes then old(view) - {ref} else old(view))
              && out == old(out) + if goes then PumpModel.CloseCard(style, old(view)[ref], CardStatus.Cancelled, now) else []
    {
      hide PumpModel.CloseCard, WorkflowCard.State;
      if ref in cards && !(keepBackground && cards[ref].IsBackground()) {
        CloseCard(ref, CardStatus.Cancelled, now);
      }
    }

    method SettleCards(keepBackground: bool, now: int, order: seq<string>)
      requires Valid() && Distinct(order) && forall r :: r in view ==> r in order
      modifies this`cards, this`out, this`view, cards.Values
      ensures Valid() && cards.Values <= old(cards.Values)
      ensures view == KeptCards(old(view), keepBackground)
      ensures out == old(out) + SettleFrames(style, old(view), keepBackground, now, order)
    {
      hide PumpModel.CloseCard, WorkflowCard.State, SettleFrames, Valid, IsKept;
      ghost var before := view;
      NoFramesYet(style, before, keepBackground, now, map[]);
      var k := 0;
      while k < |order|
        invariant k <= |order| && Valid() && cards.Values <= old(cards.Values)
        invariant view.Keys <= before.Keys && forall r :: r in view ==> view[r] == before[r]
        invariant forall j :: 0 <= j < k && order[j] in view ==> IsKept(before[order[j]], keepBackground)
        invariant forall r :: r in before && r !in view ==> !IsKept(before[r], keepBackground)
        invariant forall j :: k <= j < |order| && order[j] in before ==> order[j] in view
        invariant out == old(out) + SettleFrames(style, before, keepBackground, now, order[..k])
      {
        SettleFramesStep(style, before, keepBackground, now, order, k);
        SettleOne(order[k], keepBackground, now);
        k := k + 1;
      }
      assert order[..k] == order;
      assert view == KeptCards(before, keepBackground);
    }

    // -------------------------------------------------------------- closing a turn

    /** The walking orders of an input reach every card and every open call. */
    ghost predicate Covers(i: Input)
      requires i.Envelope?
      reads this`view, this`openTools
    {
      && Distinct(i.cardOrder) && (forall r :: r in view ==> r in i.cardOrder)
      && Distinct(i.toolOrder) && (forall id :: id in openTools ==> id in i.toolOrder)
    }

    method CancelOpenTools(order: seq<string>)
      requires Distinct(order) && forall id :: id in openTools ==> id in order
      modifies this`openTools, this`out
      ensures openTools == map[]
      ensures out == old(out) + CancelFrames(old(openTools), order)
    {
      hide CancelFrames;
      var drained := openTools;
      openTools := map[];
      NoFramesYet(style, view, false, 0, drained);
      var k := 0;
      while k < |order|
        invariant k <= |order| && openTools == map[]
        invariant out == old(out) + CancelFrames(drained, order[..k])
      {
        CancelFramesStep(drained, order, k);
        if order[k] in drained {
          out := out + [Canceled(order[k], drained[order[k]])];
        }
        k := k + 1;
      }
      assert order[..k] == order;
    }

    method CloseOpenWork(keepBackground: bool, i: Input)
      requires Valid() && i.Envelope? && Covers(i)
      modifies this`cards, this`view, this`out, this`openTools, this`toolOutput, this`toolName, this`sawVisible, cards.Values
      ensures Valid() && cards.Values <= old(cards.Values)
      ensures var closed := PumpModel.CloseOpenWork(style, old(Notes()), keepBackground, i);
              Notes() == closed.w && out == old(out) + closed.sent
    {
      hide SettleFrames, CancelFrames, KeptCards, Valid;
      SettleCards(keepBackground, i.now, i.cardOrder);
      CancelOpenTools(i.toolOrder);
      toolOutput, toolName, sawVisible := map[], map[], false;
    }

    /** Announce the end of the turn unless the status says that was done. */
    method EmitFinishOnce()
      modifies this`ctl, this`out
      ensures var paid := PumpModel.EmitFinishOnce(old(State()));
              State() == paid.s && out == old(out) + paid.sent
    {
      if ctl.status != Some(Status.Finished) {
        ctl := ctl.(status := Some(Status.Finished));
        out := out + [Finish(session)];
      }
    }

    /** The workflow was killed while a Finish was owed: close the turn on its behalf. */
    method Drain(i: Input)
      requires Valid() && i.Envelope? && Covers(i)
      modifies this, cards.Values
      ensures Valid() && cards.Values <= old(cards.Values)
      ensures var drained := PumpModel.Drain(style, old(State()), i);
              State() == drained.s && out == old(out) + drained.sent
    {
      hide PumpModel.CloseOpenWork, PumpModel.EmitFinishOnce, Valid, Covers;
      ctl := ctl.(owed := false, synthetic := true, terminalSeen := true);
      CloseOpenWork(false, i);
      EmitFinishOnce();
    }

    method TrackRoster(i: Input)
      requires Valid() && i.Envelope?
      requires i.event.SubagentUpdate? && !IsActive(i.event.status) ==> Covers(i)
      modifies this, cards.Values
      ensures Valid() && cards.Values <= old(cards.Values)
      ensures i.event.TurnResult? || i.event.Detached? ==> view == old(view) && openTools == old(openTools)
      ensures var roster := PumpModel.TrackRoster(style, old(State()), i);
              State() == roster.s && out == old(out) + roster.sent
    {
      hide PumpModel.Drain, Valid, Covers;
      if !i.event.SubagentUpdate? {
        return;
      }
      var ref, status := i.event.ref, i.event.status;
      if IsActive(status) {
        if i.event.kind == Some(WorkflowContainer) {
          ctl := ctl.(inflight := ctl.inflight + {ref});
        }
        return;
      }
      ctl := ctl.(inflight := ctl.inflight - {ref});
      if ctl.inflight == {} && ctl.owed && status != Succeeded {
        Drain(i);
      }
    }

    // -------------------------------------------------------------- the loop body

    /** A terminal settles any debt and closes what the turn left open. */
    method EndTurn(keepBackground: bool, i: Input)
      requires Valid() && i.Envelope? && Covers(i)
      modifies this, cards.Values
      ensures Valid() && cards.Values <= old(cards.Values)
      ensures ctl == old(ctl).(owed := false, status := Some(Status.Finished))
      ensures var closed := PumpModel.CloseOpenWork(style, old(Notes()), keepBackground, i);
              Notes() == closed.w && out == old(out) + closed.sent
    {
      hide PumpModel.CloseOpenWork, Valid, Covers;
      ctl := ctl.(owed := false, status := Some(Status.Finished));
      CloseOpenWork(keepBackground, i);
    }

    method Boundary(i: Input, suppress: bool) returns (tip: Option<Tip>)
      requires Valid() && i.Envelope?
      requires i.event.TurnResult? || i.event.Detached? ==> Covers(i)
      requires suppress == Suppresses(ctl, i.event)
      modifies this, cards.Values
      ensures Valid() && cards.Values <= old(cards.Values)
      ensures var b := PumpModel.Boundary(style, old(State()), i);
              State() == b.s && out == old(out) + b.sent && tip == b.tip
    {
      hide PumpModel.CloseOpenWork, Valid, Covers, EmptyTurnTipFor, NewTurn, Suppresses, IsCleanResult;
      tip := None;
      if i.event.TurnResult? {
        if !suppress {
          if !i.event.isError && !sawVisible {
            tip := EmptyTurnTipFor(i.event.outcome);
          }
          EndTurn(IsCleanResult(i.event), i);
          ctl := ctl.(terminalSeen := true);
        }
      } else if i.event.Detached? {
        EndTurn(false, i);
      } else {
        hide PumpModel.Boundary;
        NoteEvent(i);
      }
    }

    /** The arms that leave the turn open. */
    method NoteEvent(i: Input)
      requires i.Envelope? && !i.event.TurnResult? && !i.event.Detached?
      modifies this`ctl, this`toolName, this`openTools, this`toolArgs, this`session
      ensures PumpModel.Boundary(style, old(State()), i) == BoundaryOut(State(), [], None)
    {
      hide NewTurn;
      match i.event
      case TurnStarted =>
        ctl := NewTurn(ctl);
      case ToolCall(id, name, input) =>
        toolName := toolName[id := name];
        openTools := openTools[id := name];
        toolArgs := toolArgs[id := input];
      case ToolResult(id, _, _) =>
        openTools := openTools - {id};
      case BackendBound(id) =>
        if id.Some? {
          session := id;
        }
      case _ =>
    }

    method DeliverFinish(suppress: bool, tip: Option<Tip>)
      modifies this`ctl, this`out
      ensures var d := PumpModel.DeliverFinish(old(State()), suppress, tip);
              State() == d.s && out == old(out) + d.sent
    {
      if ctl.synthetic {
        return;
      }
      if tip.Some? {
        out := out + [EmptyTurnTip(tip.value)];
      }
      if suppress {
        ctl := ctl.(owed := true);
        out := out + [SegmentBreak];
      } else {
        out := out + [Finish(session)];
      }
    }

    /** Keep a call looking live while its card is. */
    method ShieldLive(frame: Frame) returns (shown: Frame)
      requires Valid()
      ensures shown == Shield(view, frame)
    {
      shown := frame;
      assert forall r :: r in cards ==> view[r].ledger.callId == cards[r].callId;
      if frame.ToolFrame? && exists r :: r in cards && cards[r].callId == frame.data.callId {
        shown := ToolFrame(frame.data.(status := ToolRunning));
      }
    }

    method Deliver(ev: Event, suppress: bool, tip: Option<Tip>)
      requires Valid()
      modifies this`toolName, this`sawVisible, this`ctl, this`out
      ensures Valid()
      ensures var d := PumpModel.Deliver(old(State()), ev, suppress, tip);
              State() == d.s && out == old(out) + d.sent
    {
      hide Translate, Shield, StampName, LearnName, PumpModel.DeliverFinish, Valid, WorkflowCard.State, IsVisible;
      var translated := Translate(ev, ctl.terminalSeen);
      if translated.Some? {
        if translated.value.Finish? {
          DeliverFinish(suppress, tip);
        } else {
          Show(translated.value);
        }
      }
    }

    /** Name a frame, shield it, and send it. */
    method Show(frame: Frame)
      requires Valid()
      modifies this`toolName, this`sawVisible, this`out
      ensures Valid()
      ensures var shown := Shield(old(view), StampName(old(toolName), frame));
              && out == old(out) + [shown]
              && toolName == LearnName(old(toolName), frame)
              && sawVisible == (old(sawVisible) || IsVisible(shown))
    {
      hide Shield, StampName, LearnName, WorkflowCard.State;
      var shown := ShieldLive(StampName(toolName, frame));
      toolName := LearnName(toolName, frame);
      if IsVisible(shown) {
        sawVisible := true;
      }
      out := out + [shown];
    }

    /** One envelope of the backend. */
    method Handle(i: Input)
      requires Valid() && i.Envelope? && Legal(Notes(), i)
      modifies this, cards.Values
      ensures Valid() && fresh(cards.Values - old(cards.Values))
      ensures State() == Step(style, old(State()), i).s
      ensures out == old(out) + Step(style, old(State()), i).sent
    {
      hide Process, Valid, Legal, PumpModel.AppendOutput;
      var ev := i.event;
      if i.gen > ctl.gen {
        ctl := NewTurn(ctl.(gen := i.gen));
      }
      if ctl.terminalSeen {
        if ev.TurnResult? {
          return;
        }
        if IsContent(ev) {
          ctl := ctl.(terminalSeen := false);
        }
      }
      if ev.ToolOutputDelta? {
        AppendOutput(ev.id, ev.text);
      } else if ev.CatalogUpdated? {
        out := out + CatalogFrames(ev.hasOptions, ev.hasCommands);
      } else {
        Run(i);
      }
    }

    lemma EnumerationCovers(i: Input)
      requires Valid() && i.Envelope? && Legal(Notes(), i)
      ensures Covers(i)
    {
      EnumerationReaches(i.cardOrder, view.Keys);
      EnumerationReaches(i.toolOrder, openTools.Keys);
    }

    /** Card news never adds a card in a step that closes the turn. */
    method UpdateCardsAndKeepOrder(i: Input)
      requires Valid() && i.Envelope? && Covers(i)
      modifies this`cards, this`out, this`view, cards.Values
      ensures Valid() && fresh(cards.Values - old(cards.Values))
      ensures var u := PumpModel.UpdateCards(style, old(Notes()), i.event, i.now);
              view == u.cards && out == old(out) + u.sent
      ensures i.event.TurnResult? || i.event.Detached? || (i.event.SubagentUpdate? && !IsActive(i.event.status)) ==> Covers(i)
    {
      hide PumpModel.UpdateCards;
      if i.event.TurnResult? || i.event.Detached? || (i.event.SubagentUpdate? && !IsActive(i.event.status)) {
        OnlyOpeningAddsCards(style, Notes(), i.event, i.now);
      }
      UpdateCards(i.event, i.now);
    }

    method AppendOutput(id: string, text: string)
      modifies this`sawVisible, this`toolOutput, this`out
      ensures var w := PumpModel.AppendOutput(old(Notes()), id, text);
              Notes() == w.w && out == old(out) + w.sent
    {
      sawVisible := true;
      var soFar := (if id in toolOutput then toolOutput[id] else "") + text;
      toolOutput := toolOutput[id := soFar];
      var name := if id in toolName then toolName[id] else "";
      out := out + [ToolFrame(ToolData(id, name, Null, ToolRunning, None, Some(soFar), None))];
    }

    /** The stages of an envelope that is neither a duplicate, an output delta nor a catalog. */
    method Run(i: Input)
      requires Valid() && i.Envelope? && Legal(Notes(), i)
      modifies this, cards.Values
      ensures Valid() && fresh(cards.Values - old(cards.Values))
      ensures var p := Process(style, old(State()), i);
              State() == p.s && out == old(out) + p.sent
    {
      hide PumpModel.UpdateCards, PumpModel.TrackRoster, PumpModel.Boundary, PumpModel.Deliver, Covers, Valid, Legal;
      EnumerationCovers(i);
      UpdateCardsAndKeepOrder(i);
      TrackRoster(i);
      var suppress := ctl.inflight != {} && IsCleanResult(i.event);
      var tip := Boundary(i, suppress);
      Deliver(i.event, suppress, tip);
    }

    method OfferAll(now: int, order: seq<string>)
      requires Valid() && Enumerates(order, view.Keys)
      modifies this`out, this`view, cards.Values
      ensures Valid()
      ensures view == TickedCards(style, old(view), now)
      ensures out == old(out) + TickFrames(style, old(view), now, order)
    {
      hide TakeEmission, WorkflowCard.State, TickFrames, Valid;
      ghost var before := view;
      EnumerationReaches(order, view.Keys);
      NoFramesYet(style, before, false, now, map[]);
      var k := 0;
      while k < |order|
        invariant k <= |order| && Valid() && view.Keys == before.Keys
        invariant forall j :: 0 <= j < k ==> view[order[j]] == TakeEmission(style, before[order[j]], now, false).card
        invariant forall j :: k <= j < |order| ==> view[order[j]] == before[order[j]]
        invariant out == old(out) + TickFrames(style, before, now, order[..k])
      {
        TickFramesStep(style, before, now, order, k);
        OfferCard(order[k], now, false);
        k := k + 1;
      }
      assert order[..k] == order;
      assert view == TickedCards(style, before, now);
    }

    /** One heartbeat: every open card may speak. */
    method Heartbeat(i: Input)
      requires Valid() && i.Tick? && Legal(Notes(), i)
      modifies this`out, this`view, cards.Values
      ensures Valid()
      ensures State() == Step(style, old(State()), i).s
      ensures out == old(out) + Step(style, old(State()), i).sent
    {
      hide TickedCards, TickFrames, Valid, Process, Enumerates;
      OfferAll(i.now, i.cardOrder);
    }

    /** The stream is over: settle whatever is left. */
    method Shutdown(now: int, order: seq<string>)
      requires Valid() && Enumerates(order, cards.Keys)
      modifies this`cards, this`view, this`out, cards.Values
      ensures Valid() && cards == map[]
      ensures var end := StreamEnd(style, old(Notes()), now, order);
              Notes() == end.w && out == old(out) + end.sent
    {
      EnumerationReaches(order, cards.Keys);
      SettleCards(false, now, order);
    }

    /** The loop over the stream, envelopes and heartbeats alike. */
    method Consume(inputs: seq<Input>)
      requires Valid() && LegalRun(style, State(), inputs)
      modifies this, cards.Values
      ensures Valid() && fresh(cards.Values - old(cards.Values))
      ensures State() == After(style, old(State()), inputs)
      ensures out == old(out) + Output(style, old(State()), inputs)
    {
      hide Valid, Step, Legal, After, Output, LegalRun;
      NothingRun(style, State());
      var k := 0;
      while k < |inputs|
        invariant k <= |inputs| && Valid() && fresh(cards.Values - old(cards.Values))
        invariant State() == After(style, old(State()), inputs[..k])
        invariant out == old(out) + Output(style, old(State()), inputs[..k])
      {
        RunStep(style, old(State()), inputs, k);
        if inputs[k].Tick? {
          Heartbeat(inputs[k]);
        } else {
          Handle(inputs[k]);
        }
        k := k + 1;
      }
      assert inputs[..k] == inputs;
    }
  }

  lemma NothingRun(style: Style, s: Pump)
    ensures forall run :: |run| == 0 ==> After(style, s, run) == s && Output(style, s, run) == []
  {
  }

  lemma RunStep(style: Style, s: Pump, run: seq<Input>, k: nat)
    requires k < |run| && LegalRun(style, s, run)
    ensures Legal(After(style, s, run[..k]).work, run[k])
    ensures After(style, s, run[..k+1]) == Step(style, After(style, s, run[..k]), run[k]).s
    ensures Output(style, s, run[..k+1]) == Output(style, s, run[..k]) + Step(style, After(style, s, run[..k]), run[k]).sent
  {
    hide Step, Legal;
    LegalPrefix(style, s, run, k + 1);
    assert run[..k+1][..k] == run[..k];
  }

  lemma {:induction false} LegalPrefix(style: Style, s: Pump, run: seq<Input>, k: nat)
    requires k <= |run| && LegalRun(style, s, run)
    ensures LegalRun(style, s, run[..k])
  {
    hide Step, Legal, After;
    if k < |run| {
      LegalPrefix(style, s, run[..|run|-1], k);
      assert run[..|run|-1][..k] == run[..k];
    } else {
      assert run[..k] == run;
    }
  }

  lemma EnumerationReaches(order: seq<string>, keys: set<string>)
    requires Enumerates(order, keys)
    ensures forall k :: k in order <==> k in keys
  {
    assert forall k :: k in order <==> k in (set k | k in order);
  }

  lemma NoFramesYet(style: Style, cards: map<string, Card>, keep: bool, now: int, open: map<string, string>)
    ensures forall order :: |order| == 0 ==> SettleFrames(style, cards, keep, now, order) == []
    ensures forall order :: |order| == 0 ==> CancelFrames(open, order) == []
    ensures forall order :: |order| == 0 ==> TickFrames(style, cards, now, order) == []
  {
  }

  lemma SettleFramesStep(style: Style, cards: map<string, Card>, keep: bool, now: int, order: seq<string>, k: nat)
    requires k < |order|
    ensures SettleFrames(style, cards, keep, now, order[..k+1]) ==
            SettleFrames(style, cards, keep, now, order[..k])
            + if order[k] in cards && !IsKept(cards[order[k]], keep)
              then CloseCard(style, cards[order[k]], CardStatus.Cancelled, now) else []
  {
    hide CloseCard;
    assert order[..k+1][..k] == order[..k];
  }

  lemma CancelFramesStep(open: map<string, string>, order: seq<string>, k: nat)
    requires k < |order|
    ensures CancelFrames(open, order[..k+1]) ==
            CancelFrames(open, order[..k]) + if order[k] in open then [Canceled(order[k], open[order[k]])] else []
  {
    assert order[..k+1][..k] == order[..k];
  }

  lemma TickFramesStep(style: Style, cards: map<string, Card>, now: int, order: seq<string>, k: nat)
    requires k < |order|
    ensures TickFrames(style, cards, now, order[..k+1]) ==
            TickFrames(style, cards, now, order[..k])
            + if order[k] in cards then ProgressOf(TakeEmission(style, cards[order[k]], now, false).sent) else []
  {
    hide TakeEmission;
    assert order[..k+1][..k] == order[..k];
  }

  lemma OnlyOpeningAddsCards(style: Style, w: Work, ev: Event, now: int)
    requires ev.TurnResult? || ev.Detached? || (ev.SubagentUpdate? && !IsActive(ev.status))
    ensures UpdateCards(style, w, ev, now).cards.Keys <= w.cards.Keys
  {
  }
}
