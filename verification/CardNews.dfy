/**
 What the pump tells its cards: a card in the map is the opening card moved on by the news
 the inputs since then brought it, and the frames sent for it are what that history emits.
 */
module CardNews {
  import opened Wrappers
  import opened WorkflowProgress
  import opened SessionEvents
  import opened PumpModel
  import opened PumpControl
  import opened PumpHistory
  import opened TurnClosing
  import opened CardConservation
  import opened CardLedger

  // ---------------------------------------------------------------- the history of a card

  /** A container is announced under a call; a background task only under a call of this turn. */
  predicate Opens(w: Work, i: Input, ref: string) {
    && ref !in w.cards && i.Envelope? && i.event.SubagentUpdate? && i.event.ref == ref
    && (i.event.status == PendingInit || i.event.status == Active)
    && i.event.kind.Some? && i.event.parent.Some?
    && (i.event.kind == Some(WorkflowContainer) || i.event.parent.value in w.toolName)
  }

  /** The card as it is opened: of its call, under the name and with the arguments the call came with. */
  function FirstCard(w: Work, i: Input, ref: string): Card
    requires Opens(w, i, ref)
  {
    var call := i.event.parent.value;
    var args := Or(Get(w.toolArgs, call), Some(Null)).value;
    if i.event.kind == Some(WorkflowContainer) then
      Card(Ledger(Workflow, "", None, call, Or(Get(w.toolName, call), Some("Workflow")).value, args, i.now,
                  map[], [], CardStatus.Running, None), None, None)
    else
      Card(Ledger(BackgroundTask, ref, if args.Json? then Or(args.description, args.command) else None,
                  call, w.toolName[call], args, i.now, map[], [], CardStatus.Running, None), None, None)
  }

  /** A background task shows itself at once. */
  function FirstOps(i: Input): seq<CardOp> {
    if i.Envelope? && i.event.SubagentUpdate? && i.event.kind == Some(OtherTask) then [Offer(i.now, true)] else []
  }

  /** A report is urgent when the agent is new or enters another loop state. */
  ghost predicate IsUrgent(ops: seq<CardOp>, ref: string, d: AgentDetail) {
    !Reported(ops, ref) || (d.loopState.Some? && d.loopState != Latest(ops, ref).loopState)
  }

  /** What one input means for the card of container `ref`, after the history `ops`. */
  ghost function NewsFor(ops: seq<CardOp>, i: Input, ref: string): seq<CardOp> {
    if i.Tick? then [Offer(i.now, false)]
    else if i.event.SubagentDetail? && i.event.parent == Some(ref) then
      [Report(i.event.ref, i.event.detail), Offer(i.now, IsUrgent(ops, i.event.ref, i.event.detail))]
    else if i.event.WorkflowPhase? && i.event.taskId == ref then
      [Phase(i.event.index, i.event.title), Offer(i.now, LastTitle(ops, i.event.index).None?)]
    else []
  }

  ghost function OpsSince(first: seq<CardOp>, inputs: seq<Input>, ref: string): seq<CardOp> {
    if inputs == [] then first else
    var earlier := OpsSince(first, inputs[..|inputs|-1], ref);
    earlier + NewsFor(earlier, inputs[|inputs|-1], ref)
  }

  /** When the card now in the map was opened: the last step that put it there. */
  function BirthOf(style: Style, run: seq<Input>, ref: string): nat {
    if run == [] then 0
    else if ref in After(style, INITIAL, run[..|run|-1]).work.cards then BirthOf(style, run[..|run|-1], ref)
    else |run| - 1
  }

  // ---------------------------------------------------------------- one step

  lemma UrgentIsForced(style: Style, c: Card, ops: seq<CardOp>, ref: string, d: AgentDetail)
    requires IsNew(c)
    ensures UpsertForces(ApplyOps(style, c, ops).ledger, ref, d) <==> IsUrgent(ops, ref, d)
  {
    hide Latest, ApplyOps, Reported;
    RosterIsLatest(style, c, ops);
  }

  lemma NewPhaseIsForced(style: Style, c: Card, ops: seq<CardOp>, index: nat)
    requires IsNew(c)
    ensures index !in ApplyOps(style, c, ops).ledger.phases <==> LastTitle(ops, index).None?
  {
    hide ApplyOps, LastTitle;
    LedgerIsHistory(style, c, ops);
  }

  lemma TwoMore(style: Style, c: Card, ops: seq<CardOp>, a: CardOp, b: CardOp)
    ensures ApplyOps(style, c, ops + [a]) == ApplyOp(style, ApplyOps(style, c, ops), a)
    ensures ApplyOps(style, c, ops + [a, b]) == ApplyOp(style, ApplyOps(style, c, ops + [a]), b)
    ensures AllSent(style, c, ops + [a]) == AllSent(style, c, ops) + SentBy(style, ApplyOps(style, c, ops), a)
    ensures AllSent(style, c, ops + [a, b]) == AllSent(style, c, ops + [a]) + SentBy(style, ApplyOps(style, c, ops + [a]), b)
  {
    hide ApplyOp, SentBy;
    assert (ops + [a])[..|ops|] == ops;
    assert (ops + [a, b])[..|ops| + 1] == ops + [a];
  }

  lemma DetailMovesCard(style: Style, w: Work, i: Input, ref: string, c: Card, ops: seq<CardOp>)
    requires IsNew(c) && i.Envelope? && ref in w.cards && w.cards[ref] == ApplyOps(style, c, ops)
    requires i.event.SubagentDetail? && i.event.parent == Some(ref)
    ensures UpdateCards(style, w, i.event, i.now) ==
            OfferCard(style, w, ref, Upsert(w.cards[ref].ledger, i.event.ref, i.event.detail), i.now,
                      IsUrgent(ops, i.event.ref, i.event.detail))
    ensures UpdateCards(style, w, i.event, i.now).cards ==
            w.cards[ref := ApplyOps(style, c, ops + NewsFor(ops, i, ref))]
  {
    hide TakeEmission, Upsert, UpsertForces, IsUrgent, ApplyOps;
    UrgentIsForced(style, c, ops, i.event.ref, i.event.detail);
    TwoMore(style, c, ops, Report(i.event.ref, i.event.detail), Offer(i.now, IsUrgent(ops, i.event.ref, i.event.detail)));
  }

  lemma PhaseMovesCard(style: Style, w: Work, i: Input, ref: string, c: Card, ops: seq<CardOp>)
    requires IsNew(c) && i.Envelope? && ref in w.cards && w.cards[ref] == ApplyOps(style, c, ops)
    requires i.event.WorkflowPhase? && i.event.taskId == ref
    ensures UpdateCards(style, w, i.event, i.now) ==
            OfferCard(style, w, ref, DeclarePhase(w.cards[ref].ledger, i.event.index, i.event.title), i.now,
                      LastTitle(ops, i.event.index).None?)
    ensures UpdateCards(style, w, i.event, i.now).cards ==
            w.cards[ref := ApplyOps(style, c, ops + NewsFor(ops, i, ref))]
  {
    hide TakeEmission, DeclarePhase, ApplyOps;
    NewPhaseIsForced(style, c, ops, i.event.index);
    TwoMore(style, c, ops, Phase(i.event.index, i.event.title), Offer(i.now, LastTitle(ops, i.event.index).None?));
  }

  lemma OtherNewsLeavesCard(style: Style, w: Work, ev: Event, now: int, ref: string)
    requires ref in w.cards && !(ev.SubagentUpdate? && !IsActive(ev.status) && ev.ref == ref)
    requires !(ev.SubagentDetail? && ev.parent == Some(ref)) && !(ev.WorkflowPhase? && ev.taskId == ref)
    ensures ref in UpdateCards(style, w, ev, now).cards && UpdateCards(style, w, ev, now).cards[ref] == w.cards[ref]
  {
    hide TakeEmission, Upsert, UpsertForces, DeclarePhase, PumpModel.CloseCard, NewCard;
  }

  /** Card news moves a card as its history says. */
  lemma NewsMovesCard(style: Style, w: Work, i: Input, ref: string, c: Card, ops: seq<CardOp>)
    requires IsNew(c) && i.Envelope? && ref in w.cards && w.cards[ref] == ApplyOps(style, c, ops)
    requires !(i.event.SubagentUpdate? && !IsActive(i.event.status) && i.event.ref == ref)
    ensures var u := UpdateCards(style, w, i.event, i.now);
            ref in u.cards && u.cards[ref] == ApplyOps(style, c, ops + NewsFor(ops, i, ref))
  {
    hide UpdateCards, ApplyOps, IsNew;
    if i.event.SubagentDetail? && i.event.parent == Some(ref) {
      DetailMovesCard(style, w, i, ref, c, ops);
    } else if i.event.WorkflowPhase? && i.event.taskId == ref {
      PhaseMovesCard(style, w, i, ref, c, ops);
    } else {
      OtherNewsLeavesCard(style, w, i.event, i.now, ref);
      assert ops + [] == ops;
    }
  }

  lemma StepMovesCard(style: Style, s: Pump, i: Input, ref: string, c: Card, ops: seq<CardOp>)
    requires IsNew(c) && ref in s.work.cards && s.work.cards[ref] == ApplyOps(style, c, ops)
    requires ref in Step(style, s, i).s.work.cards
    ensures Step(style, s, i).s.work.cards[ref] == ApplyOps(style, c, ops + NewsFor(ops, i, ref))
  {
    hide Step, UpdateCards, Closes, SettleFrames, CancelFrames, ApplyOps, IsNew;
    if i.Tick? {
      TickMovesCards(style, s, i);
      TwoMore(style, c, ops, Offer(i.now, false), Offer(i.now, false));
    } else {
      StepKeepsNewsOf(style, s, i, ref);
      NewsMovesCard(style, s.work, i, ref, c, ops);
    }
  }

  lemma TickMovesCards(style: Style, s: Pump, i: Input)
    requires i.Tick?
    ensures Step(style, s, i).s.work.cards.Keys == s.work.cards.Keys
    ensures forall r :: r in s.work.cards ==>
              Step(style, s, i).s.work.cards[r] == ApplyOp(style, s.work.cards[r], Offer(i.now, false))
  {
    hide TakeEmission, Process, TickFrames;
  }

  /** A card that outlives an envelope is as the news left it, and was not ended by it. */
  lemma StepKeepsNewsOf(style: Style, s: Pump, i: Input, ref: string)
    requires i.Envelope? && ref in Step(style, s, i).s.work.cards
    ensures var u := UpdateCards(style, s.work, i.event, i.now);
            ref in u.cards && Step(style, s, i).s.work.cards[ref] == u.cards[ref]
    ensures !(i.event.SubagentUpdate? && !IsActive(i.event.status) && i.event.ref == ref)
  {
    hide Step, UpdateCards, Closes, SettleFrames, CancelFrames, ClosingTail;
    if Closes(s.ctl, i) {
      ClosingStep(style, s, i);
    } else {
      OpenStep(style, s, i);
    }
    if i.event.SubagentUpdate? && !IsActive(i.event.status) && i.event.ref == ref {
      EndedCardIsGone(style, s.work, i.event, i.now, ref);
    }
  }

  lemma EndedCardIsGone(style: Style, w: Work, ev: Event, now: int, ref: string)
    requires ev.SubagentUpdate? && !IsActive(ev.status) && ev.ref == ref
    ensures ref !in UpdateCards(style, w, ev, now).cards
  {
  }

  /** A card comes into the map exactly by being opened, and as its opening says. */
  lemma StepOpensCard(style: Style, s: Pump, i: Input, ref: string)
    requires ref !in s.work.cards
    ensures ref in Step(style, s, i).s.work.cards <==> Opens(s.work, i, ref)
    ensures Opens(s.work, i, ref) ==>
              Step(style, s, i).s.work.cards[ref] == ApplyOps(style, FirstCard(s.work, i, ref), FirstOps(i))
  {
    hide Step, UpdateCards, Closes, SettleFrames, CancelFrames, ClosingTail, ApplyOps;
    if i.Tick? {
      TickMovesCards(style, s, i);
    } else {
      NewsOpensCard(style, s.work, i, ref);
      if Closes(s.ctl, i) {
        ClosingStep(style, s, i);
        OnlyTerminalsClose(s.ctl, i);
      } else {
        OpenStep(style, s, i);
      }
    }
  }

  lemma NewsOpensCard(style: Style, w: Work, i: Input, ref: string)
    requires i.Envelope? && ref !in w.cards
    ensures var u := UpdateCards(style, w, i.event, i.now);
            && (ref in u.cards <==> Opens(w, i, ref))
            && (Opens(w, i, ref) ==> u.cards[ref] == ApplyOps(style, FirstCard(w, i, ref), FirstOps(i)))
  {
    if Opens(w, i, ref) {
      OpenedAs(style, w, i, ref);
    } else {
      NotOpened(style, w, i, ref);
    }
  }

  lemma NotOpened(style: Style, w: Work, i: Input, ref: string)
    requires i.Envelope? && ref !in w.cards && !Opens(w, i, ref)
    ensures ref !in UpdateCards(style, w, i.event, i.now).cards
  {
    hide TakeEmission, PumpModel.CloseCard, Upsert, UpsertForces, DeclarePhase, NewCard;
  }

  lemma OpenedAs(style: Style, w: Work, i: Input, ref: string)
    requires Opens(w, i, ref)
    ensures var u := UpdateCards(style, w, i.event, i.now);
            ref in u.cards && u.cards[ref] == ApplyOps(style, FirstCard(w, i, ref), FirstOps(i))
  {
    hide TakeEmission;
    var c, op := FirstCard(w, i, ref), Offer(i.now, true);
    NothingYet(style, c);
    TwoMore(style, c, [], op, op);
    assert [] + [op] == [op];
    hide ApplyOps, AllSent;
  }

  /** A card leaves the map when its container ends, or when the turn closes, unless a clean result spares it. */
  lemma StepRemovesCard(style: Style, s: Pump, i: Input, ref: string)
    requires ref in s.work.cards
    ensures ref !in Step(style, s, i).s.work.cards <==>
            || (i.Envelope? && i.event.SubagentUpdate? && i.event.ref == ref
                && i.event.status != PendingInit && i.event.status != Active)
            || (Closes(s.ctl, i)
                && !(i.event.TurnResult? && !i.event.isError && i.event.outcome != Aborted
                     && s.work.cards[ref].ledger.kind == BackgroundTask))
  {
    hide Step, UpdateCards, Closes;
    if i.Tick? {
      TickMovesCards(style, s, i);
      TicksCloseNothing(s.ctl, i);
    } else if i.event.SubagentUpdate? && !IsActive(i.event.status) && i.event.ref == ref {
      EndedCardIsGone(style, s.work, i.event, i.now, ref);
      if Closes(s.ctl, i) {
        ClosingSettlesTheRest(style, s, i);
      } else {
        OpenStep(style, s, i);
      }
    } else {
      NewsKeepsOthers(style, s.work, i.event, i.now, ref);
      if Closes(s.ctl, i) {
        OnlyTerminalsClose(s.ctl, i);
        ClosingSettlesTheRest(style, s, i);
      } else {
        OpenStep(style, s, i);
      }
    }
  }

  lemma TicksCloseNothing(c: Control, i: Input)
    requires i.Tick?
    ensures !Closes(c, i)
  {
  }

  // ---------------------------------------------------------------- every run

  lemma FirstCardIsNew(w: Work, i: Input, ref: string)
    requires Opens(w, i, ref)
    ensures IsNew(FirstCard(w, i, ref))
  {
  }

  /**
   Every card in the map was opened by one input of the run and has been there since, and
   it is the opening card moved on by the news of the inputs after it.
   */
  lemma {:induction false} CardIsHistory(style: Style, run: seq<Input>, ref: string)
    requires ref in After(style, INITIAL, run).work.cards
    ensures var b := BirthOf(style, run, ref);
            && b < |run| && Opens(After(style, INITIAL, run[..b]).work, run[b], ref)
            && After(style, INITIAL, run).work.cards[ref] ==
               ApplyOps(style, FirstCard(After(style, INITIAL, run[..b]).work, run[b], ref),
                        OpsSince(FirstOps(run[b]), run[b+1..], ref))
  {
    hide Step, ApplyOps, Opens, FirstCard, FirstOps, NewsFor;
    if run != [] {
      var init, last := run[..|run|-1], run[|run|-1];
      var before := After(style, INITIAL, init);
      if ref in before.work.cards {
        CardIsHistory(style, init, ref);
        var b := BirthOf(style, init, ref);
        assert init[..b] == run[..b] && init[b] == run[b];
        var w, since := After(style, INITIAL, run[..b]).work, run[b+1..];
        assert since[..|since|-1] == init[b+1..] && since[|since|-1] == last;
        FirstCardIsNew(w, run[b], ref);
        StepMovesCard(style, before, last, ref, FirstCard(w, run[b], ref), OpsSince(FirstOps(run[b]), init[b+1..], ref));
      } else {
        StepOpensCard(style, before, last, ref);
        assert run[|run|..] == [];
      }
    }
  }

  // ---------------------------------------------------------------- the frames of a card

  predicate IsCardFrame(f: Frame, call: string) {
    f.Progress? && !f.settleOnly && f.data.callId == call
  }

  /** The progress frames under one call, in order. */
  function CardFrames(sent: seq<Frame>, call: string): seq<Frame> {
    if sent == [] then [] else
    CardFrames(sent[..|sent|-1], call) + if IsCardFrame(sent[|sent|-1], call) then [sent[|sent|-1]] else []
  }

  /** The frame of an emission of a running card. */
  function FrameOf(c: Card, x: Sent): Frame {
    Progress(ToolData(c.ledger.callId, c.ledger.toolName, c.ledger.args, ToolRunning, None,
                      if c.ledger.kind == Workflow then Some(x.rendered.output) else None, Some(x.rendered.description)),
             x.rendered.entries, false)
  }

  function FramesOf(c: Card, sents: seq<Sent>): seq<Frame> {
    if sents == [] then [] else FramesOf(c, sents[..|sents|-1]) + [FrameOf(c, sents[|sents|-1])]
  }

  /** No other card of the pump repaints this call. */
  predicate IsOnlyCard(w: Work, ref: string, call: string) {
    forall r :: r in w.cards && r != ref ==> w.cards[r].ledger.callId != call
  }

  lemma {:induction false} CardFramesConcat(a: seq<Frame>, b: seq<Frame>, call: string)
    ensures CardFrames(a + b, call) == CardFrames(a, call) + CardFrames(b, call)
  {
    if b == [] {
      assert a + b == a;
    } else {
      var init := b[..|b|-1];
      assert (a + b)[..|a + b|-1] == a + init;
      CardFramesConcat(a, init, call);
    }
  }

  lemma {:induction false} NoCardFrames(sent: seq<Frame>, call: string)
    requires forall f :: f in sent ==> !IsCardFrame(f, call)
    ensures CardFrames(sent, call) == []
  {
    if sent != [] {
      NoCardFrames(sent[..|sent|-1], call);
    }
  }

  /** An offer to a running card sends the frame of the emission it makes, if any. */
  lemma OfferSendsFrame(style: Style, c: Card, ops: seq<CardOp>, now: int, forced: bool)
    requires IsNew(c) && EndStatus(ops) == CardStatus.Running
    ensures var sent := ProgressOf(TakeEmission(style, ApplyOps(style, c, ops), now, forced).sent);
            && sent == FramesOf(c, SentBy(style, ApplyOps(style, c, ops), Offer(now, forced)))
            && CardFrames(sent, c.ledger.callId) == sent
  {
    hide Render, ApplyOps;
    LedgerIsHistory(style, c, ops);
    var sents := SentBy(style, ApplyOps(style, c, ops), Offer(now, forced));
    if sents != [] {
      assert sents[..0] == [];
      var f := FrameOf(c, sents[0]);
      assert [f][..0] == [] && CardFrames([f], c.ledger.callId) == [f];
    }
  }

  lemma OtherCardsFrames(style: Style, c: Card, now: int, forced: bool, call: string)
    requires c.ledger.callId != call
    ensures CardFrames(ProgressOf(TakeEmission(style, c, now, forced).sent), call) == []
  {
    hide Render, CardFrames;
    NoCardFrames(ProgressOf(TakeEmission(style, c, now, forced).sent), call);
  }

  lemma {:induction false} FramesConcat(c: Card, a: seq<Sent>, b: seq<Sent>)
    ensures FramesOf(c, a + b) == FramesOf(c, a) + FramesOf(c, b)
  {
    if b == [] {
      assert a + b == a;
    } else {
      var init := b[..|b|-1];
      assert (a + b)[..|a + b|-1] == a + init;
      FramesConcat(c, a, init);
    }
  }

  lemma {:induction false} TickFramesOfCard(style: Style, w: Work, now: int, order: seq<string>, ref: string, call: string)
    requires ref in w.cards && IsOnlyCard(w, ref, call) && Distinct(order)
    ensures CardFrames(TickFrames(style, w.cards, now, order), call) ==
            if ref in order then CardFrames(ProgressOf(TakeEmission(style, w.cards[ref], now, false).sent), call) else []
  {
    hide TakeEmission, CardFrames;
    if order == [] {
      NoCardFrames([], call);
    } else {
      var init, last := order[..|order|-1], order[|order|-1];
      TickFramesOfCard(style, w, now, init, ref, call);
      assert last !in init && (ref in order <==> ref in init || ref == last);
      var more := if last in w.cards then ProgressOf(TakeEmission(style, w.cards[last], now, false).sent) else [];
      CardFramesConcat(TickFrames(style, w.cards, now, init), more, call);
      NoCardFrames([], call);
      if last in w.cards && last != ref {
        OtherCardsFrames(style, w.cards[last], now, false, call);
      }
    }
  }

  lemma {:induction false} SettleFramesOfOthers(style: Style, cards: map<string, Card>, keep: bool, now: int, order: seq<string>, call: string)
    requires forall r :: r in cards && !IsKept(cards[r], keep) ==> cards[r].ledger.callId != call
    ensures CardFrames(SettleFrames(style, cards, keep, now, order), call) == []
  {
    hide TakeEmission, CardFrames;
    NoCardFrames([], call);
    if order != [] {
      var init, last := order[..|order|-1], order[|order|-1];
      SettleFramesOfOthers(style, cards, keep, now, init, call);
      var more := if last in cards && !IsKept(cards[last], keep)
                  then CloseCard(style, cards[last], CardStatus.Cancelled, now) else [];
      CardFramesConcat(SettleFrames(style, cards, keep, now, init), more, call);
      if more != [] {
        OtherCardsFrames(style, cards[last].(ledger := Settle(cards[last].ledger, CardStatus.Cancelled)), now, true, call);
      }
    }
  }

  /** Card news about other containers shows nothing under this card's call. */
  lemma OtherNewsShowsNothing(style: Style, w: Work, ev: Event, now: int, ref: string, call: string)
    requires !(ev.SubagentUpdate? && ev.ref == ref)
    requires !(ev.SubagentDetail? && ev.parent == Some(ref)) && !(ev.WorkflowPhase? && ev.taskId == ref)
    requires IsOnlyCard(w, ref, call)
    requires forall r :: r in UpdateCards(style, w, ev, now).cards && r != ref ==>
               UpdateCards(style, w, ev, now).cards[r].ledger.callId != call
    ensures CardFrames(UpdateCards(style, w, ev, now).sent, call) == []
  {
    hide Render, Upsert, UpsertForces, CardFrames;
    var u := UpdateCards(style, w, ev, now);
    if u.sent != [] {
      assert |u.sent| == 1;
      if ev.SubagentUpdate? {
        assert IsActive(ev.status) ==> u.cards[ev.ref].ledger.callId == u.sent[0].data.callId;
      } else if ev.SubagentDetail? {
        assert u.cards[ev.parent.value].ledger.callId == u.sent[0].data.callId;
      } else {
        assert u.cards[ev.taskId].ledger.callId == u.sent[0].data.callId;
      }
    }
    NoCardFrames(u.sent, call);
  }

  lemma RepeatedStartShowsNothing(style: Style, w: Work, ev: Event, now: int, call: string)
    requires ev.SubagentUpdate? && IsActive(ev.status) && ev.ref in w.cards
    ensures UpdateCards(style, w, ev, now).sent == []
  {
  }

  /** Everything an open step says under a call is card news. */
  lemma OpenShowsNews(style: Style, s: Pump, i: Input, call: string)
    requires i.Envelope? && !Closes(s.ctl, i)
    ensures CardFrames(Step(style, s, i).sent, call) == CardFrames(UpdateCards(style, s.work, i.event, i.now).sent, call)
  {
    hide Step, UpdateCards, Closes, CardFrames;
    OpenStep(style, s, i);
    var u, sent := UpdateCards(style, s.work, i.event, i.now).sent, Step(style, s, i).sent;
    assert sent == u + sent[|u|..];
    NoCardFrames(sent[|u|..], call);
    CardFramesConcat(u, sent[|u|..], call);
  }

  /** What a closing step says under a call: card news, then settled cards. */
  lemma ClosingShowsSettled(style: Style, s: Pump, i: Input, call: string)
    requires i.Envelope? && Closes(s.ctl, i)
    ensures var u := UpdateCards(style, s.work, i.event, i.now);
            CardFrames(Step(style, s, i).sent, call) ==
            CardFrames(u.sent, call) + CardFrames(SettleFrames(style, u.cards, IsCleanResult(i.event), i.now, i.cardOrder), call)
  {
    hide Step, UpdateCards, Closes, CardFrames, SettleFrames, CancelFrames, ClosingTail;
    ClosingStep(style, s, i);
    var u := UpdateCards(style, s.work, i.event, i.now);
    var settled, cancels := SettleFrames(style, u.cards, IsCleanResult(i.event), i.now, i.cardOrder), CancelFrames(s.work.openTools, i.toolOrder);
    CancelsAreTools(s.work.openTools, i.toolOrder);
    TailIsNoCard(s, i);
    NoCardFrames(cancels + ClosingTail(s, i), call);
    CardFramesConcat(u.sent, settled, call);
    CardFramesConcat(u.sent + settled, cancels + ClosingTail(s, i), call);
    assert u.sent + (settled + cancels) + ClosingTail(s, i) == u.sent + settled + (cancels + ClosingTail(s, i));
    assert CardFrames(u.sent + settled, call) + [] == CardFrames(u.sent + settled, call);
  }

  lemma TailIsNoCard(s: Pump, i: Input)
    requires i.Envelope? && Closes(s.ctl, i)
    ensures forall f :: f in ClosingTail(s, i) ==> !f.Progress?
  {
  }

  // ---------------------------------------------------------------- a step of a card's life

  lemma TwoFrames(style: Style, c: Card, ops: seq<CardOp>, a: CardOp, now: int, forced: bool)
    requires IsNew(c) && !a.Offer? && EndStatus(ops + [a]) == CardStatus.Running
    ensures var b := Offer(now, forced);
            && EndStatus(ops + [a, b]) == CardStatus.Running
            && FramesOf(c, AllSent(style, c, ops + [a, b])) ==
               FramesOf(c, AllSent(style, c, ops))
               + CardFrames(ProgressOf(TakeEmission(style, ApplyOps(style, c, ops + [a]), now, forced).sent), c.ledger.callId)
  {
    hide TakeEmission, ApplyOps, CardFrames, FramesOf, AllSent;
    var b := Offer(now, forced);
    TwoMore(style, c, ops, a, b);
    OfferSendsFrame(style, c, ops + [a], now, forced);
    assert (ops + [a, b])[..|ops| + 1] == ops + [a];
    assert AllSent(style, c, ops) + [] == AllSent(style, c, ops);
    FramesConcat(c, AllSent(style, c, ops), SentBy(style, ApplyOps(style, c, ops + [a]), b));
  }

  lemma EndOf(ops: seq<CardOp>, a: CardOp)
    ensures EndStatus(ops + [a]) == if a.End? then a.status else EndStatus(ops)
  {
    assert (ops + [a])[..|ops|] == ops;
  }

  lemma NewsShowsCard(style: Style, w: Work, i: Input, ref: string, c: Card, ops: seq<CardOp>)
    requires IsNew(c) && EndStatus(ops) == CardStatus.Running
    requires i.Envelope? && ref in w.cards && w.cards[ref] == ApplyOps(style, c, ops)
    requires IsOnlyCard(w, ref, c.ledger.callId)
    requires forall r :: r in UpdateCards(style, w, i.event, i.now).cards && r != ref ==>
               UpdateCards(style, w, i.event, i.now).cards[r].ledger.callId != c.ledger.callId
    requires !(i.event.SubagentUpdate? && !IsActive(i.event.status) && i.event.ref == ref)
    ensures EndStatus(ops + NewsFor(ops, i, ref)) == CardStatus.Running
    ensures FramesOf(c, AllSent(style, c, ops + NewsFor(ops, i, ref))) ==
            FramesOf(c, AllSent(style, c, ops)) + CardFrames(UpdateCards(style, w, i.event, i.now).sent, c.ledger.callId)
  {
    var call := c.ledger.callId;
    hide UpdateCards, ApplyOps, IsNew, TakeEmission, CardFrames, FramesOf, AllSent, IsUrgent, EndStatus, IsOnlyCard;
    if i.event.SubagentDetail? && i.event.parent == Some(ref) {
      var a, forced := Report(i.event.ref, i.event.detail), IsUrgent(ops, i.event.ref, i.event.detail);
      EndOf(ops, a);
      DetailMovesCard(style, w, i, ref, c, ops);
      TwoMore(style, c, ops, a, Offer(i.now, forced));
      TwoFrames(style, c, ops, a, i.now, forced);
    } else if i.event.WorkflowPhase? && i.event.taskId == ref {
      var a, forced := Phase(i.event.index, i.event.title), LastTitle(ops, i.event.index).None?;
      EndOf(ops, a);
      PhaseMovesCard(style, w, i, ref, c, ops);
      TwoMore(style, c, ops, a, Offer(i.now, forced));
      TwoFrames(style, c, ops, a, i.now, forced);
    } else {
      assert ops + [] == ops;
      assert FramesOf(c, AllSent(style, c, ops)) + [] == FramesOf(c, AllSent(style, c, ops));
      if i.event.SubagentUpdate? && i.event.ref == ref {
        RepeatedStartShowsNothing(style, w, i.event, i.now, call);
        NoCardFrames([], call);
      } else {
        OtherNewsShowsNothing(style, w, i.event, i.now, ref, call);
      }
    }
  }

  /** In a step a card lives through, the frames under its call are what the step adds to its history. */
  lemma StepShowsCard(style: Style, s: Pump, i: Input, ref: string, c: Card, ops: seq<CardOp>)
    requires Legal(s.work, i) && IsNew(c) && EndStatus(ops) == CardStatus.Running
    requires ref in s.work.cards && s.work.cards[ref] == ApplyOps(style, c, ops)
    requires ref in Step(style, s, i).s.work.cards
    requires IsOnlyCard(s.work, ref, c.ledger.callId) && IsOnlyCard(Step(style, s, i).s.work, ref, c.ledger.callId)
    ensures EndStatus(ops + NewsFor(ops, i, ref)) == CardStatus.Running
    ensures FramesOf(c, AllSent(style, c, ops + NewsFor(ops, i, ref))) ==
            FramesOf(c, AllSent(style, c, ops)) + CardFrames(Step(style, s, i).sent, c.ledger.callId)
  {
    var call := c.ledger.callId;
    hide Step, UpdateCards, ApplyOps, IsNew, CardFrames, FramesOf, AllSent, EndStatus, Closes, NewsFor;
    if i.Tick? {
      TickShowsCard(style, s, i, ref, c, ops);
    } else {
      StepKeepsNewsOf(style, s, i, ref);
      if Closes(s.ctl, i) {
        ClosingSettlesTheRest(style, s, i);
        ClosingNewsOnlyRemoves(style, s, i);
        SettleFramesOfKept(style, s, i, ref, call);
        ClosingShowsSettled(style, s, i, call);
        NewsShowsCard(style, s.work, i, ref, c, ops);
        assert CardFrames(UpdateCards(style, s.work, i.event, i.now).sent, call) + [] == CardFrames(UpdateCards(style, s.work, i.event, i.now).sent, call);
      } else {
        OpenStep(style, s, i);
        OpenShowsNews(style, s, i, call);
        NewsShowsCard(style, s.work, i, ref, c, ops);
      }
    }
  }

  lemma TickShowsCard(style: Style, s: Pump, i: Input, ref: string, c: Card, ops: seq<CardOp>)
    requires i.Tick? && Legal(s.work, i) && IsNew(c) && EndStatus(ops) == CardStatus.Running
    requires ref in s.work.cards && s.work.cards[ref] == ApplyOps(style, c, ops) && IsOnlyCard(s.work, ref, c.ledger.callId)
    ensures EndStatus(ops + NewsFor(ops, i, ref)) == CardStatus.Running
    ensures FramesOf(c, AllSent(style, c, ops + NewsFor(ops, i, ref))) ==
            FramesOf(c, AllSent(style, c, ops)) + CardFrames(Step(style, s, i).sent, c.ledger.callId)
  {
    var op := Offer(i.now, false);
    EndOf(ops, op);
    TwoMore(style, c, ops, op, op);
    OfferSendsFrame(style, c, ops, i.now, false);
    FramesConcat(c, AllSent(style, c, ops), SentBy(style, ApplyOps(style, c, ops), op));
    assert ref in (set r | r in i.cardOrder);
    TickFramesOfCard(style, s.work, i.now, i.cardOrder, ref, c.ledger.callId);
    hide ApplyOps, CardFrames, FramesOf, AllSent, EndStatus, TakeEmission, TickFrames, Process;
  }

  lemma ClosingNewsOnlyRemoves(style: Style, s: Pump, i: Input)
    requires i.Envelope? && Closes(s.ctl, i)
    ensures forall r :: r in UpdateCards(style, s.work, i.event, i.now).cards ==>
              r in s.work.cards && UpdateCards(style, s.work, i.event, i.now).cards[r] == s.work.cards[r]
  {
    hide TakeEmission, PumpModel.CloseCard;
  }

  lemma SettleFramesOfKept(style: Style, s: Pump, i: Input, ref: string, call: string)
    requires i.Envelope? && Closes(s.ctl, i) && ref in Step(style, s, i).s.work.cards && IsOnlyCard(s.work, ref, call)
    ensures var u := UpdateCards(style, s.work, i.event, i.now);
            CardFrames(SettleFrames(style, u.cards, IsCleanResult(i.event), i.now, i.cardOrder), call) == []
  {
    hide Step, UpdateCards, Closes, CardFrames, SettleFrames;
    ClosingSettlesTheRest(style, s, i);
    ClosingNewsOnlyRemoves(style, s, i);
    SettleFramesOfOthers(style, UpdateCards(style, s.work, i.event, i.now).cards, IsCleanResult(i.event), i.now, i.cardOrder, call);
  }

  lemma OpeningNewsSends(style: Style, w: Work, i: Input, ref: string)
    requires Opens(w, i, ref)
    ensures UpdateCards(style, w, i.event, i.now).sent ==
            if i.event.kind == Some(WorkflowContainer) then []
            else ProgressOf(TakeEmission(style, FirstCard(w, i, ref), i.now, true).sent)
  {
    hide TakeEmission;
  }

  lemma FirstOfferSends(style: Style, c: Card, now: int)
    requires IsNew(c)
    ensures EndStatus([Offer(now, true)]) == CardStatus.Running
    ensures CardFrames(ProgressOf(TakeEmission(style, c, now, true).sent), c.ledger.callId) ==
            FramesOf(c, AllSent(style, c, [Offer(now, true)]))
  {
    hide CardFrames, FramesOf, TakeEmission, AllSent, ApplyOps, EndStatus, SentBy, IsNew;
    var op := Offer(now, true);
    NothingYet(style, c);
    EndOf([], op);
    OfferSendsFrame(style, c, [], now, true);
    TwoMore(style, c, [], op, op);
    assert [] + [op] == [op] && [] + SentBy(style, c, op) == SentBy(style, c, op);
  }

  /** The step that opens a card sends, under its call, what the opening emits. */
  lemma StepShowsOpening(style: Style, s: Pump, i: Input, ref: string)
    requires Opens(s.work, i, ref)
    ensures var c := FirstCard(s.work, i, ref);
            && EndStatus(FirstOps(i)) == CardStatus.Running
            && CardFrames(Step(style, s, i).sent, c.ledger.callId) == FramesOf(c, AllSent(style, c, FirstOps(i)))
  {
    var c := FirstCard(s.work, i, ref);
    FirstCardIsNew(s.work, i, ref);
    OpeningLeavesTheTurnOpen(s.ctl, i);
    OpeningNewsSends(style, s.work, i, ref);
    var kind := i.event.kind;
    assert kind == Some(WorkflowContainer) || kind == Some(OtherTask);
    assert FirstOps(i) == if kind == Some(WorkflowContainer) then [] else [Offer(i.now, true)];
    hide *;
    OpenShowsNews(style, s, i, c.ledger.callId);
    NothingYet(style, c);
    FirstOfferSends(style, c, i.now);
    NoCardFrames([], c.ledger.callId);
  }

  lemma NothingYet(style: Style, c: Card)
    ensures AllSent(style, c, []) == [] && ApplyOps(style, c, []) == c && FramesOf(c, []) == []
    ensures EndStatus([]) == CardStatus.Running
  {
  }

  lemma OpeningLeavesTheTurnOpen(c: Control, i: Input)
    requires i.Envelope? && i.event.SubagentUpdate? && IsActive(i.event.status)
    ensures !Closes(c, i)
  {
  }

  // ---------------------------------------------------------------- the last frame of a card

  /** How a card is settled that leaves the map in this step: by its container's own end, or cancelled. */
  function LastStatus(i: Input, ref: string): CardStatus {
    if i.Envelope? && i.event.SubagentUpdate? && i.event.ref == ref then
      if i.event.status == Succeeded then CardStatus.Completed
      else if i.event.status == Broken then CardStatus.Errored else CardStatus.Cancelled
    else CardStatus.Cancelled
  }

  function StatusOnTheWire(status: CardStatus): ToolStatus {
    if status == CardStatus.Completed then ToolCompleted
    else if status == CardStatus.Errored then ToolError
    else if status == CardStatus.Cancelled then ToolCanceled else ToolRunning
  }

  /** The last frame of a card: its call repainted with the outcome, and every agent's row done. */
  ghost predicate IsLastFrame(style: Style, c: Card, ops: seq<CardOp>, status: CardStatus, now: int, f: Frame) {
    var ended := ops + [End(status)];
    var l := ApplyOps(style, c, ended).ledger;
    && f.Progress? && !f.settleOnly
    && f.data == ToolData(c.ledger.callId, c.ledger.toolName, c.ledger.args, StatusOnTheWire(status), None,
                          if c.ledger.kind == Workflow then Some(style.tree(l)) else None,
                          Some(style.headline(l, if now > c.ledger.startedAt then now - c.ledger.startedAt else 0)))
    && (c.ledger.kind == Workflow ==> ShowsAgents(style, l, ended, f.agents))
    && (c.ledger.kind == BackgroundTask ==> f.agents == [])
    && (forall e :: e in f.agents ==> e.status == Success)
  }

  ghost predicate IsFarewell(style: Style, c: Card, ops: seq<CardOp>, status: CardStatus, now: int, frames: seq<Frame>) {
    if HasContent(c, ops) then |frames| == 1 && IsLastFrame(style, c, ops, status, now, frames[0]) else frames == []
  }

  lemma CloseCardSends(style: Style, card: Card, status: CardStatus, now: int)
    ensures var l := Settle(card.ledger, status); var r := Render(style, l, now);
            CloseCard(style, card, status, now) ==
            if IsBlank(card.ledger) then []
            else [Progress(ToolData(l.callId, l.toolName, l.args, StatusOnTheWire(status), None,
                                    if l.kind == Workflow then Some(r.output) else None, Some(r.description)), r.entries, false)]
  {
    hide Render;
  }

  lemma ClosingIsFarewell(style: Style, c: Card, ops: seq<CardOp>, status: CardStatus, now: int)
    requires IsNew(c) && status != CardStatus.Running
    ensures var sent := CloseCard(style, ApplyOps(style, c, ops), status, now);
            IsFarewell(style, c, ops, status, now, sent) && CardFrames(sent, c.ledger.callId) == sent
  {
    var before := ApplyOps(style, c, ops);
    BlankUntilReported(style, c, ops);
    assert IsBlank(before.ledger) <==> !HasContent(c, ops);
    hide ApplyOps, Render, Settle, CloseCard, HasContent, CardFrames, IsLastFrame, IsNew;
    var sent := CloseCard(style, before, status, now);
    if HasContent(c, ops) {
      LastFrameFits(style, c, ops, status, now);
      LoneCardFrame(sent[0], c.ledger.callId);
      assert sent == [sent[0]];
    } else {
      CloseCardSends(style, before, status, now);
      NoCardFrames(sent, c.ledger.callId);
    }
  }

  lemma LastFrameFits(style: Style, c: Card, ops: seq<CardOp>, status: CardStatus, now: int)
    requires IsNew(c) && !IsBlank(ApplyOps(style, c, ops).ledger)
    ensures var sent := CloseCard(style, ApplyOps(style, c, ops), status, now);
            |sent| == 1 && IsLastFrame(style, c, ops, status, now, sent[0]) && IsCardFrame(sent[0], c.ledger.callId)
  {
    hide ApplyOps, Render, Settle, CloseCard, ShowsAgents, IsNew, StatusOnTheWire;
    CloseCardSends(style, ApplyOps(style, c, ops), status, now);
    FarewellShows(style, c, ops, status, now);
  }

  lemma LoneCardFrame(f: Frame, call: string)
    requires IsCardFrame(f, call)
    ensures CardFrames([f], call) == [f]
  {
    assert [f][..0] == [];
  }

  /** What a settled ledger renders, by its history. */
  lemma FarewellShows(style: Style, c: Card, ops: seq<CardOp>, status: CardStatus, now: int)
    requires IsNew(c)
    ensures var ended := ops + [End(status)];
            var l := Settle(ApplyOps(style, c, ops).ledger, status); var r := Render(style, l, now);
            && l == ApplyOps(style, c, ended).ledger
            && l.callId == c.ledger.callId && l.toolName == c.ledger.toolName && l.args == c.ledger.args && l.kind == c.ledger.kind
            && r.description == style.headline(l, if now > c.ledger.startedAt then now - c.ledger.startedAt else 0)
            && (c.ledger.kind == BackgroundTask ==> r.entries == [])
            && (c.ledger.kind == Workflow ==> r.output == style.tree(l) && ShowsAgents(style, l, ended, r.entries))
            && (forall e :: e in r.entries ==> e.status == Success)
  {
    var ended := ops + [End(status)];
    EndedCard(style, c, ops, status);
    SettledRosterIsAllDone(style, ApplyOps(style, c, ops).ledger, status, now);
    hide Render, Settle, ShowsAgents, ApplyOps;
    LedgerIsHistory(style, c, ended);
    RenderShowsHistory(style, c, ended, now);
  }

  lemma EndedCard(style: Style, c: Card, ops: seq<CardOp>, status: CardStatus)
    requires IsNew(c)
    ensures ApplyOps(style, c, ops + [End(status)]).ledger == Settle(ApplyOps(style, c, ops).ledger, status)
    ensures EndStatus(ops + [End(status)]) == status
  {
    assert (ops + [End(status)])[..|ops|] == ops;
  }

  lemma {:induction false} SettleFramesOfCard(style: Style, cards: map<string, Card>, keep: bool, now: int, order: seq<string>,
                                              ref: string, call: string)
    requires ref in cards && !IsKept(cards[ref], keep) && Distinct(order)
    requires forall r :: r in cards && r != ref ==> cards[r].ledger.callId != call
    ensures CardFrames(SettleFrames(style, cards, keep, now, order), call) ==
            if ref in order then CardFrames(CloseCard(style, cards[ref], CardStatus.Cancelled, now), call) else []
  {
    hide TakeEmission, CardFrames, IsKept;
    NoCardFrames([], call);
    if order != [] {
      var init, last := order[..|order|-1], order[|order|-1];
      SettleFramesOfCard(style, cards, keep, now, init, ref, call);
      assert last !in init && (ref in order <==> ref in init || ref == last);
      var more := if last in cards && !IsKept(cards[last], keep)
                  then CloseCard(style, cards[last], CardStatus.Cancelled, now) else [];
      CardFramesConcat(SettleFrames(style, cards, keep, now, init), more, call);
      if more != [] && last != ref {
        OtherCardsFrames(style, cards[last].(ledger := Settle(cards[last].ledger, CardStatus.Cancelled)), now, true, call);
      }
    }
  }

  /** The step in which a card leaves the map sends exactly its farewell under its call. */
  lemma StepShowsFarewell(style: Style, s: Pump, i: Input, ref: string, c: Card, ops: seq<CardOp>)
    requires Legal(s.work, i) && IsNew(c)
    requires ref in s.work.cards && s.work.cards[ref] == ApplyOps(style, c, ops)
    requires IsOnlyCard(s.work, ref, c.ledger.callId)
    ensures ref !in Step(style, s, i).s.work.cards ==>
              IsFarewell(style, c, ops, LastStatus(i, ref), i.now, CardFrames(Step(style, s, i).sent, c.ledger.callId))
  {
    if i.Tick? {
      TickMovesCards(style, s, i);
    } else if i.event.SubagentUpdate? && !IsActive(i.event.status) && i.event.ref == ref {
      EndedShowsFarewell(style, s, i, ref, c, ops);
    } else if Closes(s.ctl, i) {
      if ref !in Step(style, s, i).s.work.cards {
        LeftoverShowsFarewell(style, s, i, ref, c, ops);
      }
    } else {
      hide Step, UpdateCards, Closes;
      OpenStep(style, s, i);
      NewsKeepsOthers(style, s.work, i.event, i.now, ref);
    }
  }

  lemma EndingNews(style: Style, w: Work, i: Input, ref: string)
    requires ref in w.cards && i.Envelope? && i.event.SubagentUpdate? && !IsActive(i.event.status) && i.event.ref == ref
    ensures UpdateCards(style, w, i.event, i.now) ==
            CardsOut(w.cards - {ref}, CloseCard(style, w.cards[ref], LastStatus(i, ref), i.now))
    ensures LastStatus(i, ref) != CardStatus.Running
  {
    hide CloseCard;
  }

  lemma EndedShowsFarewell(style: Style, s: Pump, i: Input, ref: string, c: Card, ops: seq<CardOp>)
    requires IsNew(c) && ref in s.work.cards && s.work.cards[ref] == ApplyOps(style, c, ops)
    requires i.Envelope? && i.event.SubagentUpdate? && !IsActive(i.event.status) && i.event.ref == ref
    requires IsOnlyCard(s.work, ref, c.ledger.callId)
    ensures IsFarewell(style, c, ops, LastStatus(i, ref), i.now, CardFrames(Step(style, s, i).sent, c.ledger.callId))
  {
    var call := c.ledger.callId;
    EndingNews(style, s.work, i, ref);
    var rest := s.work.cards - {ref};
    assert forall r :: r in rest && !IsKept(rest[r], IsCleanResult(i.event)) ==> rest[r].ledger.callId != call;
    hide *;
    ClosingIsFarewell(style, c, ops, LastStatus(i, ref), i.now);
    if Closes(s.ctl, i) {
      ClosingShowsSettled(style, s, i, call);
      SettleFramesOfOthers(style, rest, IsCleanResult(i.event), i.now, i.cardOrder, call);
      var shown := CardFrames(UpdateCards(style, s.work, i.event, i.now).sent, call);
      assert shown + [] == shown;
    } else {
      OpenShowsNews(style, s, i, call);
    }
  }

  lemma LeftoverShowsFarewell(style: Style, s: Pump, i: Input, ref: string, c: Card, ops: seq<CardOp>)
    requires Legal(s.work, i) && IsNew(c) && ref in s.work.cards && s.work.cards[ref] == ApplyOps(style, c, ops)
    requires Closes(s.ctl, i) && ref !in Step(style, s, i).s.work.cards && IsOnlyCard(s.work, ref, c.ledger.callId)
    requires !(i.event.SubagentUpdate? && !IsActive(i.event.status) && i.event.ref == ref)
    ensures IsFarewell(style, c, ops, LastStatus(i, ref), i.now, CardFrames(Step(style, s, i).sent, c.ledger.callId))
  {
    var call, u := c.ledger.callId, UpdateCards(style, s.work, i.event, i.now);
    OnlyTerminalsClose(s.ctl, i);
    ClosingIsFarewell(style, c, ops, CardStatus.Cancelled, i.now);
    ClosingNewsOnlyRemoves(style, s, i);
    assert ref in (set r | r in i.cardOrder);
    hide Step, UpdateCards, Closes, CardFrames, SettleFrames, CloseCard, IsFarewell, ApplyOps, IsNew;
    NewsKeepsOthers(style, s.work, i.event, i.now, ref);
    ClosingSettlesTheRest(style, s, i);
    ClosingShowsSettled(style, s, i, call);
    SettleFramesOfCard(style, u.cards, IsCleanResult(i.event), i.now, i.cardOrder, ref, call);
    ClosingNewsShowsNothing(style, s, i, ref, call);
    var settled := CardFrames(SettleFrames(style, u.cards, IsCleanResult(i.event), i.now, i.cardOrder), call);
    assert [] + settled == settled;
  }

  lemma ClosingNewsShowsNothing(style: Style, s: Pump, i: Input, ref: string, call: string)
    requires i.Envelope? && Closes(s.ctl, i) && IsOnlyCard(s.work, ref, call)
    requires !(i.event.SubagentUpdate? && i.event.ref == ref)
    ensures CardFrames(UpdateCards(style, s.work, i.event, i.now).sent, call) == []
  {
    hide UpdateCards, CardFrames;
    ClosingNewsOnlyRemoves(style, s, i);
    OtherNewsShowsNothing(style, s.work, i.event, i.now, ref, call);
  }

  // ---------------------------------------------------------------- the frames of a card over a run

  function SentSince(style: Style, run: seq<Input>, b: nat): seq<Frame> {
    if |run| <= b then [] else
    var init := run[..|run|-1];
    SentSince(style, init, b) + Step(style, After(style, INITIAL, init), run[|run|-1]).sent
  }

  lemma {:induction false} OutputSplits(style: Style, run: seq<Input>, b: nat)
    requires b <= |run|
    ensures Output(style, INITIAL, run) == Output(style, INITIAL, run[..b]) + SentSince(style, run, b)
  {
    hide Step, After;
    if b == |run| {
      assert run[..b] == run;
    } else {
      var init := run[..|run|-1];
      OutputSplits(style, init, b);
      assert init[..b] == run[..b];
    }
  }

  /** While this card is in the map, no other card of the pump is of its call. */
  ghost predicate IsAlone(style: Style, run: seq<Input>, b: nat, ref: string, call: string) {
    forall k :: b <= k <= |run| ==> IsOnlyCard(After(style, INITIAL, run[..k]).work, ref, call)
  }

  lemma AloneBefore(style: Style, run: seq<Input>, b: nat, ref: string, call: string)
    requires run != [] && IsAlone(style, run, b, ref, call) && b < |run|
    ensures IsAlone(style, run[..|run|-1], b, ref, call)
    ensures IsOnlyCard(After(style, INITIAL, run).work, ref, call)
    ensures IsOnlyCard(After(style, INITIAL, run[..|run|-1]).work, ref, call)
  {
    hide After, IsOnlyCard;
    var init := run[..|run|-1];
    assert run[..|run|] == run;
    forall k | b <= k <= |init| ensures IsOnlyCard(After(style, INITIAL, init[..k]).work, ref, call) {
      assert init[..k] == run[..k];
    }
  }

  /**
   The progress frames sent under a card's call since it was opened are exactly the
   emissions of its history, each with what the ledger rendered at that moment.
   */
  lemma {:induction false} FramesAreHistory(style: Style, run: seq<Input>, ref: string)
    requires LegalRun(style, INITIAL, run) && ref in After(style, INITIAL, run).work.cards
    requires IsAlone(style, run, BirthOf(style, run, ref), ref, After(style, INITIAL, run).work.cards[ref].ledger.callId)
    ensures var b := BirthOf(style, run, ref);
            && b < |run| && Opens(After(style, INITIAL, run[..b]).work, run[b], ref)
            && var c := FirstCard(After(style, INITIAL, run[..b]).work, run[b], ref);
               var ops := OpsSince(FirstOps(run[b]), run[b+1..], ref);
               && EndStatus(ops) == CardStatus.Running
               && CardFrames(SentSince(style, run, b), c.ledger.callId) == FramesOf(c, AllSent(style, c, ops))
  {
    hide Step, ApplyOps, Opens, FirstCard, FirstOps, NewsFor, CardFrames, FramesOf, AllSent, EndStatus, Legal, IsAlone, IsOnlyCard;
    CardIsHistory(style, run, ref);
    var init, last := run[..|run|-1], run[|run|-1];
    var before, b := After(style, INITIAL, init), BirthOf(style, run, ref);
    var w := After(style, INITIAL, run[..b]).work;
    var c := FirstCard(w, run[b], ref);
    FirstCardIsNew(w, run[b], ref);
    CallStays(style, c, OpsSince(FirstOps(run[b]), run[b+1..], ref));
    AloneBefore(style, run, b, ref, c.ledger.callId);
    if ref in before.work.cards {
      CardIsHistory(style, init, ref);
      assert init[..b] == run[..b] && init[b] == run[b];
      var earlier := OpsSince(FirstOps(run[b]), init[b+1..], ref);
      CallStays(style, c, earlier);
      FramesAreHistory(style, init, ref);
      assert run[b+1..][..|run[b+1..]|-1] == init[b+1..] && run[b+1..][|run[b+1..]|-1] == last;
      StepShowsCard(style, before, last, ref, c, earlier);
      CardFramesConcat(SentSince(style, init, b), Step(style, before, last).sent, c.ledger.callId);
    } else {
      assert run[|run|..] == [] && SentSince(style, init, b) == [];
      CallOfFirst(w, last, ref);
      StepShowsOpening(style, before, last, ref);
      assert [] + Step(style, before, last).sent == Step(style, before, last).sent;
    }
  }

  lemma CallOfFirst(w: Work, i: Input, ref: string)
    requires Opens(w, i, ref)
    ensures i.Envelope? && i.event.SubagentUpdate? && i.event.parent == Some(FirstCard(w, i, ref).ledger.callId)
  {
  }

  lemma CallStays(style: Style, c: Card, ops: seq<CardOp>)
    requires IsNew(c)
    ensures ApplyOps(style, c, ops).ledger.callId == c.ledger.callId
  {
    LedgerIsHistory(style, c, ops);
  }

  /** At stream end every card left gets its farewell under its call. */
  lemma TeardownIsFarewell(style: Style, w: Work, now: int, order: seq<string>, ref: string, c: Card, ops: seq<CardOp>)
    requires Enumerates(order, w.cards.Keys) && IsNew(c) && IsOnlyCard(w, ref, c.ledger.callId)
    requires ref in w.cards && w.cards[ref] == ApplyOps(style, c, ops)
    ensures IsFarewell(style, c, ops, CardStatus.Cancelled, now, CardFrames(StreamEnd(style, w, now, order).sent, c.ledger.callId))
  {
    assert ref in (set r | r in order);
    hide ApplyOps, CardFrames, SettleFrames, CloseCard, IsFarewell, IsNew;
    ClosingIsFarewell(style, c, ops, CardStatus.Cancelled, now);
    SettleFramesOfCard(style, w.cards, false, now, order, ref, c.ledger.callId);
  }
}
