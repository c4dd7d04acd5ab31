/** Progress cards are never left spinning: every card opened is settled, and told so, exactly once. */
module CardConservation {
  import opened Wrappers
  import opened WorkflowProgress
  import opened SessionEvents
  import opened PumpModel
  import opened PumpControl
  import opened TurnEndings
  import opened PumpHistory
  import opened TurnClosing

  // ---------------------------------------------------------------- counting settlements

  /** A frame that repaints a card's own row as over. */
  predicate IsSettlement(f: Frame) {
    f.Progress? && !f.settleOnly && f.data.status != ToolRunning
  }

  function Settlements(sent: seq<Frame>): nat {
    if sent == [] then 0 else Settlements(sent[..|sent|-1]) + Bit(IsSettlement(sent[|sent|-1]))
  }

  lemma {:induction false} SettlementsConcat(a: seq<Frame>, b: seq<Frame>)
    ensures Settlements(a + b) == Settlements(a) + Settlements(b)
  {
    if b == [] {
      assert a + b == a;
    } else {
      var init, last := b[..|b|-1], b[|b|-1];
      assert (a + b)[..|a + b|-1] == a + init && (a + b)[|a + b|-1] == last;
      SettlementsConcat(a, init);
    }
  }

  lemma {:induction false} NoSettlements(sent: seq<Frame>)
    requires forall f :: f in sent ==> !IsSettlement(f)
    ensures Settlements(sent) == 0
  {
    if sent != [] {
      NoSettlements(sent[..|sent|-1]);
    }
  }

  lemma OneFrame(f: Frame)
    ensures Settlements([f]) == Bit(IsSettlement(f))
  {
    assert [f][..0] == [];
  }

  // ---------------------------------------------------------------- the cards of one step

  predicate AllRunning(cards: map<string, Card>) {
    forall r :: r in cards ==> cards[r].ledger.status == CardStatus.Running
  }

  /** Cards a step removed that had something to show. */
  function Gone(before: map<string, Card>, after: map<string, Card>): set<string> {
    set r | r in before && r !in after && !IsBlank(before[r].ledger)
  }

  function BlankGone(before: map<string, Card>, after: map<string, Card>): set<string> {
    set r | r in before && r !in after && IsBlank(before[r].ledger)
  }

  function Opened(before: map<string, Card>, after: map<string, Card>): set<string> {
    after.Keys - before.Keys
  }

  lemma KeyBalance(before: map<string, Card>, after: map<string, Card>)
    ensures |before| + |Opened(before, after)| == |after| + |Gone(before, after)| + |BlankGone(before, after)|
  {
    hide IsBlank;
    assert Gone(before, after) + BlankGone(before, after) == before.Keys - after.Keys;
    SetBalance(before.Keys, after.Keys, Gone(before, after), BlankGone(before, after));
  }

  lemma SetBalance(before: set<string>, after: set<string>, gone: set<string>, blank: set<string>)
    requires gone !! blank && gone + blank == before - after
    ensures |before| + |after - before| == |after| + |gone| + |blank|
  {
    UnionSize(gone, blank);
    UnionSize(before * after, before - after);
    UnionSize(before * after, after - before);
    assert before * after + (before - after) == before;
    assert before * after + (after - before) == after;
  }

  lemma UnionSize(a: set<string>, b: set<string>)
    requires a !! b
    ensures |a + b| == |a| + |b|
  {
  }

  lemma ClosingOneCard(style: Style, c: Card, status: CardStatus, now: int)
    requires status != CardStatus.Running
    ensures Settlements(CloseCard(style, c, status, now)) == Bit(!IsBlank(c.ledger))
    ensures !IsBlank(c.ledger) ==>
              var sent, l := CloseCard(style, c, status, now), Settle(c.ledger, status);
              && |sent| == 1 && sent[0].Progress? && !sent[0].settleOnly
              && sent[0].data.callId == l.callId && sent[0].data.status == AsToolStatus(status)
              && sent[0].agents == Render(style, l, now).entries
  {
    var sent := CloseCard(style, c, status, now);
    assert IsBlank(Settle(c.ledger, status)) <==> IsBlank(c.ledger);
    if !IsBlank(c.ledger) {
      OneFrame(sent[0]);
    }
  }

  lemma OfferingARunningCard(style: Style, c: Card, now: int, forced: bool)
    requires c.ledger.status == CardStatus.Running
    ensures Settlements(ProgressOf(TakeEmission(style, c, now, forced).sent)) == 0
    ensures TakeEmission(style, c, now, forced).card.ledger == c.ledger
  {
    var sent := ProgressOf(TakeEmission(style, c, now, forced).sent);
    if sent != [] {
      OneFrame(sent[0]);
    }
  }

  lemma CardNews(style: Style, w: Work, ev: Event, now: int)
    requires AllRunning(w.cards)
    ensures var u := UpdateCards(style, w, ev, now);
            && AllRunning(u.cards)
            && Settlements(u.sent) == |Gone(w.cards, u.cards)|
            && (ev.SubagentUpdate? && !IsActive(ev.status) ==> u.cards == w.cards - {ev.ref})
            && (!(ev.SubagentUpdate? && !IsActive(ev.status)) ==> w.cards.Keys <= u.cards.Keys)
  {
    var u := UpdateCards(style, w, ev, now);
    if ev.SubagentUpdate? && !IsActive(ev.status) {
      if ev.ref in w.cards {
        ClosingOneCard(style, w.cards[ev.ref], SettledStatus(ev.status), now);
        assert Gone(w.cards, u.cards) == if IsBlank(w.cards[ev.ref].ledger) then {} else {ev.ref};
      } else {
        assert w.cards - {ev.ref} == w.cards;
        assert Gone(w.cards, u.cards) == {};
        NoSettlements(u.sent);
      }
    } else {
      OpenNews(style, w, ev, now);
      assert Gone(w.cards, u.cards) == {};
    }
  }

  lemma OpenNews(style: Style, w: Work, ev: Event, now: int)
    requires AllRunning(w.cards) && !(ev.SubagentUpdate? && !IsActive(ev.status))
    ensures var u := UpdateCards(style, w, ev, now);
            AllRunning(u.cards) && Settlements(u.sent) == 0 && w.cards.Keys <= u.cards.Keys
  {
    hide TakeEmission, ProgressOf, Settlements;
    NoSettlements([]);
    match ev
    case SubagentUpdate(ref, status, kind, parent) =>
      if kind.Some? && ref !in w.cards && parent.Some? {
        OpeningNews(style, w, ref, kind.value, parent.value, now);
      }
    case SubagentDetail(ref, parent, detail) =>
      if parent.Some? && parent.value in w.cards {
        var c := w.cards[parent.value];
        OfferingARunningCard(style, c.(ledger := Upsert(c.ledger, ref, detail)), now, UpsertForces(c.ledger, ref, detail));
      }
    case WorkflowPhase(taskId, index, title) =>
      if taskId in w.cards {
        var c := w.cards[taskId];
        OfferingARunningCard(style, c.(ledger := DeclarePhase(c.ledger, index, title)), now, index !in c.ledger.phases);
      }
    case _ =>
  }

  lemma OpeningNews(style: Style, w: Work, ref: string, kind: TaskKind, call: string, now: int)
    requires AllRunning(w.cards)
    ensures var u := OpenCard(style, w, ref, kind, call, now);
            AllRunning(u.cards) && Settlements(u.sent) == 0 && w.cards.Keys <= u.cards.Keys
  {
    hide TakeEmission, ProgressOf, Settlements;
    NoSettlements([]);
    if kind != WorkflowContainer && call in w.toolName {
      var args := if call in w.toolArgs then w.toolArgs[call] else Null;
      var desc := if args.Json? then Or(args.description, args.command) else None;
      OfferingARunningCard(style, NewCard(BackgroundTask, ref, desc, call, w.toolName[call], args, now), now, true);
    }
  }

  /** Cards of an order that a settlement takes away and that have something to show. */
  function Doomed(cards: map<string, Card>, keep: bool, order: seq<string>): set<string> {
    set r | r in order && r in cards && !IsKept(cards[r], keep) && !IsBlank(cards[r].ledger)
  }

  lemma DoomedStep(cards: map<string, Card>, keep: bool, order: seq<string>)
    requires order != [] && Distinct(order)
    ensures var last := order[|order|-1];
            |Doomed(cards, keep, order)| ==
            |Doomed(cards, keep, order[..|order|-1])|
            + Bit(last in cards && !IsKept(cards[last], keep) && !IsBlank(cards[last].ledger))
  {
    hide IsBlank, IsKept;
    var init, last := order[..|order|-1], order[|order|-1];
    var extra := if last in cards && !IsKept(cards[last], keep) && !IsBlank(cards[last].ledger) then {last} else {};
    assert last !in init;
    assert Doomed(cards, keep, order) == Doomed(cards, keep, init) + extra;
    UnionSize(Doomed(cards, keep, init), extra);
  }

  lemma NobodyDoomed(cards: map<string, Card>, keep: bool)
    ensures Doomed(cards, keep, []) == {}
  {
  }

  lemma {:induction false} SettleFramesCount(style: Style, cards: map<string, Card>, keep: bool, now: int, order: seq<string>)
    requires Distinct(order)
    ensures Settlements(SettleFrames(style, cards, keep, now, order)) == |Doomed(cards, keep, order)|
  {
    hide CloseCard, IsBlank, IsKept, Doomed;
    if order == [] {
      NobodyDoomed(cards, keep);
    } else {
      var init, last := order[..|order|-1], order[|order|-1];
      SettleFramesCount(style, cards, keep, now, init);
      DoomedStep(cards, keep, order);
      if last in cards && !IsKept(cards[last], keep) {
        ClosingOneCard(style, cards[last], CardStatus.Cancelled, now);
        SettlementsConcat(SettleFrames(style, cards, keep, now, init), CloseCard(style, cards[last], CardStatus.Cancelled, now));
      } else {
        assert SettleFrames(style, cards, keep, now, order) == SettleFrames(style, cards, keep, now, init);
      }
    }
  }

  lemma {:induction false} TickSettlesNothing(style: Style, cards: map<string, Card>, now: int, order: seq<string>)
    requires AllRunning(cards)
    ensures Settlements(TickFrames(style, cards, now, order)) == 0
  {
    hide TakeEmission, ProgressOf;
    if order != [] {
      var init, last := order[..|order|-1], order[|order|-1];
      TickSettlesNothing(style, cards, now, init);
      if last in cards {
        OfferingARunningCard(style, cards[last], now, false);
        SettlementsConcat(TickFrames(style, cards, now, init), ProgressOf(TakeEmission(style, cards[last], now, false).sent));
      } else {
        assert TickFrames(style, cards, now, order) == TickFrames(style, cards, now, init);
      }
    }
  }

  lemma StepSettles(style: Style, s: Pump, i: Input)
    requires Legal(s.work, i) && AllRunning(s.work.cards)
    ensures var out := Step(style, s, i);
            AllRunning(out.s.work.cards) && Settlements(out.sent) == |Gone(s.work.cards, out.s.work.cards)|
  {
    hide Step, UpdateCards, TakeEmission, SettleFrames, CancelFrames, TickFrames, Closes, Settlements;
    if i.Tick? {
      TickTouchesCardsOnly(style, s, i);
      forall r | r in s.work.cards
        ensures TickedCards(style, s.work.cards, i.now)[r].ledger == s.work.cards[r].ledger
      {
        OfferingARunningCard(style, s.work.cards[r], i.now, false);
      }
      TickSettlesNothing(style, s.work.cards, i.now, i.cardOrder);
      assert Gone(s.work.cards, Step(style, s, i).s.work.cards) == {};
    } else if Closes(s.ctl, i) {
      ClosingSettles(style, s, i);
    } else {
      OpenStepSettles(style, s, i);
    }
  }

  lemma OpenStepSettles(style: Style, s: Pump, i: Input)
    requires i.Envelope? && !Closes(s.ctl, i) && AllRunning(s.work.cards)
    ensures var out := Step(style, s, i);
            AllRunning(out.s.work.cards) && Settlements(out.sent) == |Gone(s.work.cards, out.s.work.cards)|
  {
    hide Step, UpdateCards, Closes, Settlements;
    var u, out := UpdateCards(style, s.work, i.event, i.now), Step(style, s, i);
    CardNews(style, s.work, i.event, i.now);
    OpenStep(style, s, i);
    var rest := out.sent[|u.sent|..];
    assert out.sent == u.sent + rest;
    forall f | f in rest
      ensures !IsSettlement(f)
    {
      var k :| 0 <= k < |rest| && rest[k] == f;
      assert f == out.sent[|u.sent| + k];
    }
    NoSettlements(rest);
    SettlementsConcat(u.sent, rest);
  }

  lemma ClosingSettles(style: Style, s: Pump, i: Input)
    requires i.Envelope? && Closes(s.ctl, i) && Legal(s.work, i) && AllRunning(s.work.cards)
    ensures var out := Step(style, s, i);
            AllRunning(out.s.work.cards) && Settlements(out.sent) == |Gone(s.work.cards, out.s.work.cards)|
  {
    hide Step, UpdateCards, SettleFrames, CancelFrames, Settlements, Closes;
    var u, out, keep := UpdateCards(style, s.work, i.event, i.now), Step(style, s, i), IsCleanResult(i.event);
    var settled, cancels := SettleFrames(style, u.cards, keep, i.now, i.cardOrder), CancelFrames(s.work.openTools, i.toolOrder);
    CardNews(style, s.work, i.event, i.now);
    ClosingStep(style, s, i);
    SettleFramesCount(style, u.cards, keep, i.now, i.cardOrder);
    CancelsAndTailSettleNothing(s, i);
    assert out.sent == u.sent + settled + (cancels + ClosingTail(s, i));
    SettlementsConcat(u.sent, settled);
    SettlementsConcat(u.sent + settled, cancels + ClosingTail(s, i));
    OnlyTerminalsClose(s.ctl, i);
    if !i.event.SubagentUpdate? {
      NoCardsTouched(style, s.work, i.event, i.now);
    }
    GoneInTwo(s.work.cards, u.cards, keep, i.cardOrder);
  }

  lemma CancelsAndTailSettleNothing(s: Pump, i: Input)
    requires i.Envelope?
    ensures Settlements(CancelFrames(s.work.openTools, i.toolOrder) + ClosingTail(s, i)) == 0
  {
    hide Settlements, CancelFrames;
    CancelsAreTools(s.work.openTools, i.toolOrder);
    NoSettlements(CancelFrames(s.work.openTools, i.toolOrder) + ClosingTail(s, i));
  }

  /** The cards a closing step removes: the one whose container ended, and those it settles. */
  lemma GoneInTwo(before: map<string, Card>, mid: map<string, Card>, keep: bool, order: seq<string>)
    requires Enumerates(order, before.Keys)
    requires forall r :: r in mid ==> r in before && before[r] == mid[r]
    ensures |Gone(before, KeptCards(mid, keep))| == |Gone(before, mid)| + |Doomed(mid, keep, order)|
  {
    hide IsBlank, IsKept;
    var first, second := Gone(before, mid), Doomed(mid, keep, order);
    assert forall r :: r in order <==> r in (set k | k in order);
    assert Gone(before, KeptCards(mid, keep)) == first + second;
    UnionSize(first, second);
  }

  // ---------------------------------------------------------------- theorems

  /** A frame that shows a card as over, under the card's own call, with no row left executing. */
  predicate ShowsOver(f: Frame, c: Card) {
    IsSettlement(f) && f.data.callId == c.ledger.callId && forall e :: e in f.agents ==> e.status == Success
  }

  /** Every card removed with something to show is repainted over, under its own call, with no row left executing. */
  lemma RemovedCardIsSettled(style: Style, s: Pump, i: Input, ref: string)
    requires Legal(s.work, i) && ref in s.work.cards && ref !in Step(style, s, i).s.work.cards
    requires !IsBlank(s.work.cards[ref].ledger)
    ensures exists f :: f in Step(style, s, i).sent && ShowsOver(f, s.work.cards[ref])
  {
    hide Step, UpdateCards, Closes, ShowsOver, Legal, IsBlank;
    if i.Tick? {
      TickTouchesCardsOnly(style, s, i);
    } else if i.event.SubagentUpdate? && !IsActive(i.event.status) && i.event.ref == ref {
      EndedCardIsSettled(style, s, i);
    } else if Closes(s.ctl, i) {
      LeftoverCardIsSettled(style, s, i, ref);
    } else {
      OpenStep(style, s, i);
      NewsKeepsOthers(style, s.work, i.event, i.now, ref);
    }
  }

  lemma NewsKeepsOthers(style: Style, w: Work, ev: Event, now: int, ref: string)
    requires ref in w.cards && !(ev.SubagentUpdate? && !IsActive(ev.status) && ev.ref == ref)
    ensures ref in UpdateCards(style, w, ev, now).cards
    ensures ev.TurnResult? || ev.Detached? || (ev.SubagentUpdate? && !IsActive(ev.status)) ==>
              UpdateCards(style, w, ev, now).cards[ref] == w.cards[ref]
  {
    hide TakeEmission, CloseCard, Upsert, DeclarePhase;
  }

  lemma NewsIsSentFirst(style: Style, s: Pump, i: Input)
    requires i.Envelope?
    ensures forall f :: f in UpdateCards(style, s.work, i.event, i.now).sent ==> f in Step(style, s, i).sent
  {
    hide Step, UpdateCards, Closes, SettleFrames, CancelFrames, ClosingTail;
    var u, sent := UpdateCards(style, s.work, i.event, i.now).sent, Step(style, s, i).sent;
    if Closes(s.ctl, i) {
      ClosingStep(style, s, i);
    } else {
      OpenStep(style, s, i);
      forall f | f in u ensures f in sent {
        var k :| 0 <= k < |u| && u[k] == f;
        assert sent[..|u|][k] == f;
      }
    }
  }

  lemma ClosingSettlesTheRest(style: Style, s: Pump, i: Input)
    requires i.Envelope? && Closes(s.ctl, i)
    ensures var u := UpdateCards(style, s.work, i.event, i.now); var out := Step(style, s, i);
            && out.s.work.cards == KeptCards(u.cards, IsCleanResult(i.event))
            && (forall f :: f in SettleFrames(style, u.cards, IsCleanResult(i.event), i.now, i.cardOrder) ==> f in out.sent)
  {
    hide Step, UpdateCards, Closes, SettleFrames, CancelFrames, ClosingTail, KeptCards;
    ClosingStep(style, s, i);
  }

  lemma EndedCardIsSettled(style: Style, s: Pump, i: Input)
    requires i.Envelope? && i.event.SubagentUpdate? && !IsActive(i.event.status) && i.event.ref in s.work.cards
    requires !IsBlank(s.work.cards[i.event.ref].ledger)
    ensures exists f :: f in Step(style, s, i).sent && ShowsOver(f, s.work.cards[i.event.ref])
  {
    hide Step, CloseCard, ShowsOver, IsBlank;
    var c, status := s.work.cards[i.event.ref], SettledStatus(i.event.status);
    ClosedCardFrame(style, c, status, i.now);
    NewsIsSentFirst(style, s, i);
    var f := CloseCard(style, c, status, i.now)[0];
    assert f in UpdateCards(style, s.work, i.event, i.now).sent;
  }

  lemma LeftoverCardIsSettled(style: Style, s: Pump, i: Input, ref: string)
    requires Legal(s.work, i) && Closes(s.ctl, i) && ref in s.work.cards && ref !in Step(style, s, i).s.work.cards
    requires !(i.event.SubagentUpdate? && !IsActive(i.event.status) && i.event.ref == ref)
    requires !IsBlank(s.work.cards[ref].ledger)
    ensures exists f :: f in Step(style, s, i).sent && ShowsOver(f, s.work.cards[ref])
  {
    OnlyTerminalsClose(s.ctl, i);
    assert ref in (set r | r in i.cardOrder);
    hide Step, UpdateCards, Closes, CloseCard, SettleFrames, ShowsOver, IsBlank, Legal;
    var c, u := s.work.cards[ref], UpdateCards(style, s.work, i.event, i.now);
    NewsKeepsOthers(style, s.work, i.event, i.now, ref);
    ClosingSettlesTheRest(style, s, i);
    SettleFramesContain(style, u.cards, IsCleanResult(i.event), i.now, i.cardOrder, ref);
    ClosedCardFrame(style, c, CardStatus.Cancelled, i.now);
    var f := CloseCard(style, c, CardStatus.Cancelled, i.now)[0];
    assert f in SettleFrames(style, u.cards, IsCleanResult(i.event), i.now, i.cardOrder);
  }

  lemma OnlyTerminalsClose(c: Control, i: Input)
    requires Closes(c, i)
    ensures i.event.TurnResult? || i.event.Detached? || (i.event.SubagentUpdate? && !IsActive(i.event.status))
  {
  }

  lemma ClosedCardFrame(style: Style, c: Card, status: CardStatus, now: int)
    requires status != CardStatus.Running && !IsBlank(c.ledger)
    ensures var sent := CloseCard(style, c, status, now);
            |sent| == 1 && ShowsOver(sent[0], c)
  {
    hide CloseCard;
    ClosingOneCard(style, c, status, now);
    SettledRosterIsAllDone(style, c.ledger, status, now);
  }

  lemma {:induction false} SettleFramesContain(style: Style, cards: map<string, Card>, keep: bool, now: int,
                                               order: seq<string>, ref: string)
    requires ref in order && ref in cards && !IsKept(cards[ref], keep)
    ensures forall f :: f in CloseCard(style, cards[ref], CardStatus.Cancelled, now) ==>
                          f in SettleFrames(style, cards, keep, now, order)
  {
    hide CloseCard;
    var init, last := order[..|order|-1], order[|order|-1];
    if ref != last {
      assert ref in init;
      SettleFramesContain(style, cards, keep, now, init, ref);
    }
  }

  /**
   Which cards outlive the end of a turn: none, except that a clean result leaves the
   cards of background tasks alone.
   */
  lemma Survivors(style: Style, s: Pump, i: Input)
    requires Closes(s.ctl, i)
    ensures Step(style, s, i).s.work.cards ==
            if IsCleanResult(i.event) then (map r | r in s.work.cards && s.work.cards[r].ledger.kind == BackgroundTask :: s.work.cards[r])
            else map[]
  {
    hide Step, UpdateCards, SettleFrames, CancelFrames;
    ClosingStep(style, s, i);
    if IsCleanResult(i.event) {
      NoCardsTouched(style, s.work, i.event, i.now);
    }
  }

  function OpenedIn(style: Style, s: Pump, run: seq<Input>): nat {
    if run == [] then 0 else
    var init := run[..|run|-1];
    OpenedIn(style, s, init) + |Opened(After(style, s, init).work.cards, After(style, s, run).work.cards)|
  }

  function BlankIn(style: Style, s: Pump, run: seq<Input>): nat {
    if run == [] then 0 else
    var init := run[..|run|-1];
    BlankIn(style, s, init) + |BlankGone(After(style, s, init).work.cards, After(style, s, run).work.cards)|
  }

  lemma {:induction false} CardsBalance(style: Style, s: Pump, run: seq<Input>)
    requires LegalRun(style, s, run) && AllRunning(s.work.cards)
    ensures var cards := After(style, s, run).work.cards;
            && AllRunning(cards)
            && |s.work.cards| + OpenedIn(style, s, run) ==
               |cards| + Settlements(Output(style, s, run)) + BlankIn(style, s, run)
  {
    hide Step, Gone, BlankGone, Opened;
    if run != [] {
      var init, last := run[..|run|-1], run[|run|-1];
      var before := After(style, s, init);
      CardsBalance(style, s, init);
      StepSettles(style, before, last);
      KeyBalance(before.work.cards, Step(style, before, last).s.work.cards);
      SettlementsConcat(Output(style, s, init), Step(style, before, last).sent);
    }
  }

  /**
   Conservation up to teardown: once the stream has ended, the cards ever opened are
   exactly the settlements sent plus the workflow cards that never had an agent.
   */
  lemma CardConservation(style: Style, run: seq<Input>, now: int, order: seq<string>)
    requires LegalRun(style, INITIAL, run)
    requires Enumerates(order, After(style, INITIAL, run).work.cards.Keys)
    ensures var last := After(style, INITIAL, run).work;
            var end := StreamEnd(style, last, now, order);
            && end.w.cards == map[]
            && OpenedIn(style, INITIAL, run) ==
               Settlements(Output(style, INITIAL, run) + end.sent)
               + BlankIn(style, INITIAL, run) + |BlankGone(last.cards, map[])|
  {
    hide Step, After, Settlements;
    var last := After(style, INITIAL, run).work;
    CardsBalance(style, INITIAL, run);
    SettleFramesCount(style, last.cards, false, now, order);
    SettlementsConcat(Output(style, INITIAL, run), StreamEnd(style, last, now, order).sent);
    assert forall r :: r in order <==> r in (set k | k in order);
    assert Doomed(last.cards, false, order) == Gone(last.cards, map[]);
    KeyBalance(last.cards, map[]);
  }

  /** Teardown card by card: every card still there with something to show is repainted over, under its own call. */
  lemma TornDownCardIsSettled(style: Style, w: Work, now: int, order: seq<string>, ref: string)
    requires Enumerates(order, w.cards.Keys) && ref in w.cards && !IsBlank(w.cards[ref].ledger)
    ensures exists f :: f in StreamEnd(style, w, now, order).sent && ShowsOver(f, w.cards[ref])
  {
    hide SettleFrames, CloseCard, TakeEmission;
    var c := w.cards[ref];
    assert ref in (set r | r in order);
    SettleFramesContain(style, w.cards, false, now, order, ref);
    ClosedCardFrame(style, c, CardStatus.Cancelled, now);
    var f := CloseCard(style, c, CardStatus.Cancelled, now)[0];
    assert f in StreamEnd(style, w, now, order).sent;
  }
}
