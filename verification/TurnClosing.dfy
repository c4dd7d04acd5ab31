/** What a step that closes a turn sends, and in which order. */
module TurnClosing {
  import opened Wrappers
  import opened WorkflowProgress
  import opened SessionEvents
  import opened PumpModel
  import opened PumpControl
  import opened TurnEndings
  import opened PumpHistory

  // ---------------------------------------------------------------- the shape of a step

  /** Events that put something in front of the user. */
  predicate Shows(ev: Event) {
    || ev.MessageDelta? || ev.ThoughtDelta? || ev.ToolCall? || ev.ToolResult?
    || ev.ToolOutputDelta? || ev.Permission? || ev.Plan?
  }

  /** The last frames of a closing step. */
  function ClosingTail(s: Pump, i: Input): seq<Frame>
    requires i.Envelope?
  {
    var c := AdvanceGen(s.ctl, i.gen);
    if i.event.SubagentUpdate? then
      if c.status == Some(Status.Finished) then [] else [Finish(s.work.session)]
    else if !Finishes(i.event, c.terminalSeen) then
      match Translate(i.event, c.terminalSeen) case Some(f) => [f] case None => []
    else if c.synthetic then []
    else
      var tip := if IsCleanResult(i.event) && !s.work.sawVisible then EmptyTurnTipFor(i.event.outcome) else None;
      (if tip.Some? then [EmptyTurnTip(tip.value)] else []) + [Finish(s.work.session)]
  }

  lemma RosterWork(style: Style, s: Pump, i: Input)
    requires i.Envelope?
    ensures var out := TrackRoster(style, s, i);
            if Drains(s.ctl, i.event) then
              && out.s.work == CloseOpenWork(style, s.work, false, i).w
              && out.sent == CloseOpenWork(style, s.work, false, i).sent
                 + if s.ctl.status == Some(Status.Finished) then [] else [Finish(s.work.session)]
            else out.s.work == s.work && out.sent == []
  {
    hide KeptCards, SettleFrames, CancelFrames;
  }

  lemma ClosingProcess(style: Style, s: Pump, i: Input)
    requires i.Envelope? && Closes(s.ctl, i) && i.gen <= s.ctl.gen
    ensures var u := UpdateCards(style, s.work, i.event, i.now);
            var closed := CloseOpenWork(style, s.work.(cards := u.cards), IsCleanResult(i.event), i);
            var out := Process(style, s, i);
            && out.sent == u.sent + closed.sent + ClosingTail(s, i)
            && out.s.work == closed.w
  {
    hide KeptCards, SettleFrames, CancelFrames, UpdateCards;
    var u := UpdateCards(style, s.work, i.event, i.now);
    var s1 := s.(work := s.work.(cards := u.cards));
    var roster := TrackRoster(style, s1, i);
    RosterWork(style, s1, i);
    var closed := CloseOpenWork(style, s1.work, IsCleanResult(i.event), i);
    if i.event.SubagentUpdate? {
      assert Process(style, s, i).sent == u.sent + roster.sent + [] + [];
      assert u.sent + (closed.sent + ClosingTail(s, i)) == u.sent + closed.sent + ClosingTail(s, i);
    } else {
      NoCardsTouched(style, s.work, i.event, i.now);
      var b := Boundary(style, roster.s, i);
      assert b.sent == closed.sent && b.s.work == closed.w;
      assert Deliver(b.s, i.event, false, b.tip).sent == ClosingTail(s, i);
      assert u.sent + [] + closed.sent + ClosingTail(s, i) == u.sent + closed.sent + ClosingTail(s, i);
    }
  }

  lemma NoCardsTouched(style: Style, w: Work, ev: Event, now: int)
    requires !ev.SubagentUpdate? && !ev.SubagentDetail? && !ev.WorkflowPhase?
    ensures UpdateCards(style, w, ev, now) == CardsOut(w.cards, [])
  {
  }

  /** A closing step: card news, then settled cards, then cancelled tools, then the end of the turn. */
  lemma ClosingStep(style: Style, s: Pump, i: Input)
    requires i.Envelope? && Closes(s.ctl, i)
    ensures var u := UpdateCards(style, s.work, i.event, i.now);
            var closed := CloseOpenWork(style, s.work.(cards := u.cards), IsCleanResult(i.event), i);
            var out := Step(style, s, i);
            && out.sent == u.sent + closed.sent + ClosingTail(s, i)
            && out.s.work == closed.w
  {
    hide Step, Process, UpdateCards, KeptCards, SettleFrames, CancelFrames;
    StepOfProcessed(style, s, i);
    ClosingProcess(style, s.(ctl := Armed(s.ctl, i)), i);
  }

  predicate IsPlain(f: Frame) {
    !f.EmptyTurnTip? && !f.Progress? && !(f.ToolFrame? && f.data.status == ToolCanceled)
  }

  /** What a step says besides card news when it leaves the turn open. */
  lemma OpenProcess(style: Style, s: Pump, i: Input)
    requires i.Envelope? && !Closes(s.ctl, i) && i.gen <= s.ctl.gen
    requires i.event.TurnResult? ==> !s.ctl.terminalSeen
    requires !i.event.ToolOutputDelta?
    ensures var u := UpdateCards(style, s.work, i.event, i.now);
            var out := Process(style, s, i);
            && |u.sent| <= |out.sent| && out.sent[..|u.sent|] == u.sent
            && (forall k :: |u.sent| <= k < |out.sent| ==> IsPlain(out.sent[k]))
            && out.s.work.cards == u.cards
            && out.s.work.openTools == NextOpen(s.work.openTools, i.event)
            && out.s.work.toolName == NextNames(s.work.toolName, i.event)
            && out.s.work.sawVisible == (s.work.sawVisible || Shows(i.event))
  {
    hide UpdateCards, HasLiveCard;
    var u := UpdateCards(style, s.work, i.event, i.now);
    var s1 := s.(work := s.work.(cards := u.cards));
    var roster := TrackRoster(style, s1, i);
    RosterWork(style, s1, i);
    var b := Boundary(style, roster.s, i);
    assert b.sent == [] && b.tip == None;
    OpenDelivery(b.s, i.event, Suppresses(roster.s.ctl, i.event));
    assert Process(style, s, i).sent == u.sent + Deliver(b.s, i.event, Suppresses(roster.s.ctl, i.event), None).sent;
  }

  lemma OpenDelivery(s: Pump, ev: Event, suppress: bool)
    requires ev.ToolCall? ==> ev.id in s.work.toolName && s.work.toolName[ev.id] == ev.name
    ensures var out := Deliver(s, ev, suppress, None);
            && (forall f :: f in out.sent ==> IsPlain(f))
            && out.s.work == s.work.(sawVisible := s.work.sawVisible || (Shows(ev) && !ev.ToolOutputDelta?))
  {
    hide HasLiveCard;
    if ev.ToolCall? {
      assert LearnName(s.work.toolName, Translate(ev, s.ctl.terminalSeen).value) == s.work.toolName;
    }
  }

  function NextOpen(open: map<string, string>, ev: Event): map<string, string> {
    match ev
    case ToolCall(id, name, _) => open[id := name]
    case ToolResult(id, _, _) => open - {id}
    case _ => open
  }

  function NextNames(names: map<string, string>, ev: Event): map<string, string> {
    if ev.ToolCall? then names[ev.id := ev.name] else names
  }

  /** A step that leaves the turn open: card news first, and nothing that looks like a closure. */
  lemma OpenStep(style: Style, s: Pump, i: Input)
    requires i.Envelope? && !Closes(s.ctl, i)
    ensures var u := UpdateCards(style, s.work, i.event, i.now);
            var out := Step(style, s, i);
            && |u.sent| <= |out.sent| && out.sent[..|u.sent|] == u.sent
            && (forall k :: |u.sent| <= k < |out.sent| ==> IsPlain(out.sent[k]))
            && out.s.work.cards == u.cards
            && out.s.work.openTools == NextOpen(s.work.openTools, i.event)
            && out.s.work.toolName == NextNames(s.work.toolName, i.event)
            && out.s.work.sawVisible == (s.work.sawVisible || Shows(i.event))
  {
    hide Step, Process, UpdateCards, Closes, IsPlain;
    if IsProcessed(s.ctl, i) {
      OpenProcessed(style, s, i);
    } else {
      NoCardsTouched(style, s.work, i.event, i.now);
      OpenAside(style, s, i);
    }
  }

  lemma OpenProcessed(style: Style, s: Pump, i: Input)
    requires IsProcessed(s.ctl, i) && !Closes(s.ctl, i)
    ensures var u := UpdateCards(style, s.work, i.event, i.now);
            var out := Step(style, s, i);
            && |u.sent| <= |out.sent| && out.sent[..|u.sent|] == u.sent
            && (forall k :: |u.sent| <= k < |out.sent| ==> IsPlain(out.sent[k]))
            && out.s.work.cards == u.cards
            && out.s.work.openTools == NextOpen(s.work.openTools, i.event)
            && out.s.work.toolName == NextNames(s.work.toolName, i.event)
            && out.s.work.sawVisible == (s.work.sawVisible || Shows(i.event))
  {
    hide Step, Process, UpdateCards, NextOpen, NextNames, Shows, IsPlain;
    StepOfProcessed(style, s, i);
    OpenProcess(style, s.(ctl := Armed(s.ctl, i)), i);
  }

  /** What goes no further than the head of the loop says nothing about cards and closes nothing. */
  lemma OpenAside(style: Style, s: Pump, i: Input)
    requires i.Envelope? && !IsProcessed(s.ctl, i)
    ensures var out := Step(style, s, i);
            && (forall f :: f in out.sent ==> IsPlain(f))
            && out.s.work.cards == s.work.cards
            && out.s.work.openTools == NextOpen(s.work.openTools, i.event)
            && out.s.work.toolName == NextNames(s.work.toolName, i.event)
            && out.s.work.sawVisible == (s.work.sawVisible || Shows(i.event))
  {
    hide Step;
    if i.event.ToolOutputDelta? {
      StepOfDelta(style, s, i);
    } else if i.event.CatalogUpdated? {
      StepOfCatalog(style, s, i);
    } else {
      StepOfDuplicate(style, s, i);
    }
  }

  // ---------------------------------------------------------------- memory of the turn

  predicate IsCall(id: string, i: Input) {
    i.Envelope? && i.event.ToolCall? && i.event.id == id
  }

  predicate EndsCall(id: string, c: Control, i: Input) {
    Closes(c, i) || (i.Envelope? && i.event.ToolResult? && i.event.id == id)
  }

  predicate IsCallNamed(id: string, name: string, i: Input) {
    IsCall(id, i) && i.event.name == name
  }

  predicate ForgetsName(id: string, c: Control, i: Input) {
    Closes(c, i) || IsCall(id, i)
  }

  predicate IsShown(i: Input) {
    i.Envelope? && Shows(i.event)
  }

  lemma TurnMemory(style: Style, s: Pump, i: Input)
    ensures var w, w', c := s.work, Step(style, s, i).s.work, s.ctl;
            && (forall id :: id in w'.openTools <==> IsCall(id, i) || (id in w.openTools && !EndsCall(id, c, i)))
            && (forall id, n :: Get(w'.toolName, id) == Some(n) <==>
                  IsCallNamed(id, n, i) || (Get(w.toolName, id) == Some(n) && !ForgetsName(id, c, i)))
            && (w'.sawVisible <==> IsShown(i) || (w.sawVisible && !Closes(c, i)))
  {
    hide UpdateCards, Process, SettleFrames, CancelFrames, KeptCards, TickFrames, TickedCards;
    if i.Envelope? && Closes(s.ctl, i) {
      ClosingStep(style, s, i);
    } else if i.Envelope? {
      OpenStep(style, s, i);
    }
  }

  /** A call is open exactly when its latest ToolCall since the last closing step has no later result. */
  lemma OpenCallsAreHistory(style: Style, run: seq<Input>, id: string)
    ensures id in After(style, INITIAL, run).work.openTools <==>
            Holds(style, INITIAL, run, (c, i) => IsCall(id, i), (c, i) => EndsCall(id, c, i))
  {
    hide Step;
    forall t: Pump, i: Input
      ensures id in Step(style, t, i).s.work.openTools <==>
              IsCall(id, i) || (id in t.work.openTools && !EndsCall(id, t.ctl, i))
    {
      TurnMemory(style, t, i);
    }
    FlagIsHistory(style, INITIAL, run, (t: Pump) => id in t.work.openTools,
                  (c, i) => IsCall(id, i), (c, i) => EndsCall(id, c, i));
  }

  /** The remembered name of a call is the one its latest ToolCall of the turn gave. */
  lemma NamesAreHistory(style: Style, run: seq<Input>, id: string, name: string)
    ensures Get(After(style, INITIAL, run).work.toolName, id) == Some(name) <==>
            Holds(style, INITIAL, run, (c, i) => IsCallNamed(id, name, i), (c, i) => ForgetsName(id, c, i))
  {
    hide Step;
    forall t: Pump, i: Input
      ensures Get(Step(style, t, i).s.work.toolName, id) == Some(name) <==>
              IsCallNamed(id, name, i) || (Get(t.work.toolName, id) == Some(name) && !ForgetsName(id, t.ctl, i))
    {
      TurnMemory(style, t, i);
    }
    FlagIsHistory(style, INITIAL, run, (t: Pump) => Get(t.work.toolName, id) == Some(name),
                  (c, i) => IsCallNamed(id, name, i), (c, i) => ForgetsName(id, c, i));
  }

  /** Something was shown in this turn exactly when a visible event came after the last closing step. */
  lemma VisibilityIsHistory(style: Style, run: seq<Input>)
    ensures After(style, INITIAL, run).work.sawVisible <==>
            Holds(style, INITIAL, run, (c, i) => IsShown(i), Closes)
  {
    hide Step;
    forall t: Pump, i: Input
      ensures Step(style, t, i).s.work.sawVisible <==> IsShown(i) || (t.work.sawVisible && !Closes(t.ctl, i))
    {
      TurnMemory(style, t, i);
    }
    FlagIsHistory(style, INITIAL, run, (t: Pump) => t.work.sawVisible, (c, i) => IsShown(i), Closes);
  }

  /** Every open call has its name on record. */
  predicate OpenIsNamed(w: Work) {
    forall id :: id in w.openTools ==> id in w.toolName && w.toolName[id] == w.openTools[id]
  }

  lemma {:induction false} OpenStaysNamed(style: Style, s: Pump, run: seq<Input>)
    requires OpenIsNamed(s.work)
    ensures OpenIsNamed(After(style, s, run).work)
  {
    hide Step, UpdateCards;
    if run != [] {
      var init, i := run[..|run|-1], run[|run|-1];
      var before := After(style, s, init);
      OpenStaysNamed(style, s, init);
      if i.Tick? {
        TickTouchesCardsOnly(style, before, i);
      } else if Closes(before.ctl, i) {
        ClosingStep(style, before, i);
      } else {
        OpenStep(style, before, i);
      }
    }
  }

  lemma TickTouchesCardsOnly(style: Style, s: Pump, i: Input)
    requires i.Tick?
    ensures Step(style, s, i).s == s.(work := s.work.(cards := TickedCards(style, s.work.cards, i.now)))
    ensures Step(style, s, i).sent == TickFrames(style, s.work.cards, i.now, i.cardOrder)
  {
  }

  // ---------------------------------------------------------------- tool closure

  predicate IsCanceled(f: Frame) {
    f.ToolFrame? && f.data.status == ToolCanceled
  }

  /** The calls a sequence of frames repaints as cancelled, in order. */
  function CanceledCalls(sent: seq<Frame>): seq<string> {
    if sent == [] then [] else
    var last := sent[|sent|-1];
    CanceledCalls(sent[..|sent|-1]) + if IsCanceled(last) then [last.data.callId] else []
  }

  lemma {:induction false} CanceledConcat(a: seq<Frame>, b: seq<Frame>)
    ensures CanceledCalls(a + b) == CanceledCalls(a) + CanceledCalls(b)
  {
    if b == [] {
      assert a + b == a;
    } else {
      var init, last := b[..|b|-1], b[|b|-1];
      assert (a + b)[..|a + b|-1] == a + init && (a + b)[|a + b|-1] == last;
      CanceledConcat(a, init);
    }
  }

  lemma {:induction false} NothingCanceled(sent: seq<Frame>)
    requires forall f :: f in sent ==> !IsCanceled(f)
    ensures CanceledCalls(sent) == []
  {
    if sent != [] {
      NothingCanceled(sent[..|sent|-1]);
    }
  }

  lemma {:induction false} CancelsAreTools(open: map<string, string>, order: seq<string>)
    ensures forall f :: f in CancelFrames(open, order) ==> f.ToolFrame?
  {
    if order != [] {
      CancelsAreTools(open, order[..|order|-1]);
    }
  }

  lemma CancelFramesOfLast(open: map<string, string>, order: seq<string>)
    requires order != [] && order[|order|-1] in open
    ensures var last := order[|order|-1];
            CancelFrames(open, order) == CancelFrames(open, order[..|order|-1]) + [Canceled(last, open[last])]
  {
  }

  lemma OneCanceled(id: string, name: string)
    ensures CanceledCalls([Canceled(id, name)]) == [id] && IsCanceled(Canceled(id, name)) && Canceled(id, name).data.callId == id
  {
    assert [Canceled(id, name)][..0] == [];
  }

  lemma NobodyCanceled(open: map<string, string>)
    ensures CancelFrames(open, []) == [] && CanceledCalls([]) == []
  {
  }

  lemma {:induction false} CancelFramesMean(open: map<string, string>, order: seq<string>)
    requires forall id :: id in order ==> id in open
    ensures CanceledCalls(CancelFrames(open, order)) == order
    ensures forall f :: f in CancelFrames(open, order) ==>
                          IsCanceled(f) && f.data.callId in open && f == Canceled(f.data.callId, open[f.data.callId])
  {
    hide CancelFrames, CanceledCalls, Canceled;
    if order == [] {
      NobodyCanceled(open);
    } else {
      var init, last := order[..|order|-1], order[|order|-1];
      CancelFramesMean(open, init);
      CancelFramesOfLast(open, order);
      CanceledConcat(CancelFrames(open, init), [Canceled(last, open[last])]);
      OneCanceled(last, open[last]);
      assert order == init + [last];
    }
  }

  lemma {:induction false} SettleFramesAreProgress(style: Style, cards: map<string, Card>, keep: bool, now: int, order: seq<string>)
    ensures forall f :: f in SettleFrames(style, cards, keep, now, order) ==> f.Progress?
  {
    if order != [] {
      SettleFramesAreProgress(style, cards, keep, now, order[..|order|-1]);
    }
  }

  lemma CardNewsIsProgress(style: Style, w: Work, ev: Event, now: int)
    ensures forall f :: f in UpdateCards(style, w, ev, now).sent ==> f.Progress?
  {
  }

  lemma {:induction false} TickFramesAreProgress(style: Style, cards: map<string, Card>, now: int, order: seq<string>)
    ensures forall f :: f in TickFrames(style, cards, now, order) ==> f.Progress?
  {
    if order != [] {
      TickFramesAreProgress(style, cards, now, order[..|order|-1]);
    }
  }

  /** No call is repainted once the turn has been ended. */
  predicate CancelsFirst(sent: seq<Frame>) {
    forall j, k :: 0 <= j < k < |sent| && IsTerminal(sent[j]) ==> !IsCanceled(sent[k])
  }

  lemma CancelsFirstInThree(a: seq<Frame>, b: seq<Frame>, c: seq<Frame>)
    requires forall f :: f in a || f in b ==> !IsTerminal(f)
    requires forall f :: f in c ==> !IsCanceled(f)
    ensures CancelsFirst(a + b + c)
  {
    var sent := a + b + c;
    forall k | |a| + |b| <= k < |sent|
      ensures sent[k] in c
    {
      assert sent[k] == c[k - |a| - |b|];
    }
    forall k | 0 <= k < |a| + |b|
      ensures sent[k] in a || sent[k] in b
    {
    }
  }

  /** A closing step cancels the open calls, each once and under its own name; no other step cancels any. */
  lemma StepCancels(style: Style, s: Pump, i: Input)
    requires Legal(s.work, i)
    ensures var sent := Step(style, s, i).sent;
            && CanceledCalls(sent) == (if Closes(s.ctl, i) then i.toolOrder else [])
            && (forall f :: f in sent && IsCanceled(f) ==>
                  f.data.callId in s.work.openTools && f == Canceled(f.data.callId, s.work.openTools[f.data.callId]))
            && CancelsFirst(sent)
  {
    hide Step, UpdateCards, SettleFrames, CancelFrames, TickFrames;
    if i.Tick? {
      TickTouchesCardsOnly(style, s, i);
      TickFramesAreProgress(style, s.work.cards, i.now, i.cardOrder);
      NothingCanceled(Step(style, s, i).sent);
    } else if Closes(s.ctl, i) {
      ClosingCancels(style, s, i);
    } else {
      OpenCancels(style, s, i);
    }
  }

  lemma OpenCancels(style: Style, s: Pump, i: Input)
    requires i.Envelope? && !Closes(s.ctl, i)
    ensures forall f :: f in Step(style, s, i).sent ==> !IsCanceled(f)
    ensures CanceledCalls(Step(style, s, i).sent) == []
  {
    hide Step, UpdateCards;
    var u, sent := UpdateCards(style, s.work, i.event, i.now).sent, Step(style, s, i).sent;
    CardNewsIsProgress(style, s.work, i.event, i.now);
    OpenStep(style, s, i);
    forall f | f in sent
      ensures !IsCanceled(f)
    {
      var k :| 0 <= k < |sent| && sent[k] == f;
      if k < |u| {
        assert sent[k] == sent[..|u|][k] && u[k] in u;
      }
    }
    NothingCanceled(sent);
  }

  lemma ClosingCancels(style: Style, s: Pump, i: Input)
    requires Legal(s.work, i) && i.Envelope? && Closes(s.ctl, i)
    ensures var sent := Step(style, s, i).sent;
            && CanceledCalls(sent) == i.toolOrder
            && (forall f :: f in sent && IsCanceled(f) ==>
                  f.data.callId in s.work.openTools && f == Canceled(f.data.callId, s.work.openTools[f.data.callId]))
            && CancelsFirst(sent)
  {
    hide Step, UpdateCards, SettleFrames, CancelFrames;
    var u := UpdateCards(style, s.work, i.event, i.now);
    var news := u.sent + SettleFrames(style, u.cards, IsCleanResult(i.event), i.now, i.cardOrder);
    var cancels, tail := CancelFrames(s.work.openTools, i.toolOrder), ClosingTail(s, i);
    CardNewsIsProgress(style, s.work, i.event, i.now);
    SettleFramesAreProgress(style, u.cards, IsCleanResult(i.event), i.now, i.cardOrder);
    ClosingStep(style, s, i);
    assert Step(style, s, i).sent == news + cancels + tail;
    OrderIsOpen(s.work.openTools, i.toolOrder);
    CancelFramesMean(s.work.openTools, i.toolOrder);
    CancelsInThree(news, cancels, tail);
  }

  lemma CancelsInThree(news: seq<Frame>, cancels: seq<Frame>, tail: seq<Frame>)
    requires forall f :: f in news ==> f.Progress?
    requires forall f :: f in cancels ==> IsCanceled(f)
    requires forall f :: f in tail ==> !IsCanceled(f)
    ensures var sent := news + cancels + tail;
            && CanceledCalls(sent) == CanceledCalls(cancels)
            && (forall f :: f in sent && IsCanceled(f) ==> f in cancels)
            && CancelsFirst(sent)
  {
    NothingCanceled(news);
    NothingCanceled(tail);
    CanceledConcat(news, cancels);
    CanceledConcat(news + cancels, tail);
    CancelsFirstInThree(news, cancels, tail);
  }

  lemma OrderIsOpen(open: map<string, string>, order: seq<string>)
    requires Enumerates(order, open.Keys)
    ensures forall id :: id in order <==> id in open
  {
    assert forall id :: id in order <==> id in (set k | k in order);
  }

  /**
   Tool closure: a step cancels a call iff it closes the turn and the call's latest
   ToolCall since the previous closing step has no later result; each such call once,
   all before the Finish or Error, and nothing of the turn is remembered afterwards.
   */
  lemma ToolClosure(style: Style, run: seq<Input>, i: Input, id: string)
    requires Legal(After(style, INITIAL, run).work, i)
    ensures var s := After(style, INITIAL, run);
            var out := Step(style, s, i);
            && (id in CanceledCalls(out.sent) <==>
                Closes(s.ctl, i) && Holds(style, INITIAL, run, (c, i) => IsCall(id, i), (c, i) => EndsCall(id, c, i)))
            && Distinct(CanceledCalls(out.sent))
            && CancelsFirst(out.sent)
            && (Closes(s.ctl, i) ==> out.s.work.openTools == map[] && out.s.work.toolName == map[])
  {
    hide Step, After, Holds, Closes;
    var s := After(style, INITIAL, run);
    StepCancels(style, s, i);
    OpenCallsAreHistory(style, run, id);
    if Closes(s.ctl, i) {
      OnlyEnvelopesClose(s.ctl, i);
      OrderIsOpen(s.work.openTools, i.toolOrder);
      ClosingStep(style, s, i);
    }
  }

  lemma OnlyEnvelopesClose(c: Control, i: Input)
    requires Closes(c, i)
    ensures i.Envelope?
  {
  }

  /** A follow-up frame carries the name its call was given in this turn, when there is one. */
  lemma FollowUpsKeepTheName(style: Style, run: seq<Input>, i: Input, name: string)
    requires i.Envelope? && (i.event.ToolResult? || i.event.ToolOutputDelta?)
    requires Holds(style, INITIAL, run, (c, j) => IsCallNamed(i.event.id, name, j), (c, j) => ForgetsName(i.event.id, c, j))
    ensures var sent := Step(style, After(style, INITIAL, run), i).sent;
            |sent| == 1 && sent[0].ToolFrame? && sent[0].data.callId == i.event.id && sent[0].data.name == name
  {
    hide After, Holds, HasLiveCard;
    NamesAreHistory(style, run, i.event.id, name);
    var s := After(style, INITIAL, run);
    assert s.work.toolName[i.event.id] == name;
    if i.event.ToolResult? {
      assert Step(style, s, i) == Process(style, s.(ctl := Armed(s.ctl, i)), i);
    }
  }

  // ---------------------------------------------------------------- streamed output

  /** The output a run of inputs streams for one call, piece after piece. */
  function Streamed(run: seq<Input>, id: string): string {
    if run == [] then "" else
    var last := run[|run|-1];
    Streamed(run[..|run|-1], id)
    + if last.Envelope? && last.event.ToolOutputDelta? && last.event.id == id then last.event.text else ""
  }

  function SoFar(w: Work, id: string): string {
    if id in w.toolOutput then w.toolOutput[id] else ""
  }

  lemma OpenKeepsOutput(style: Style, s: Pump, i: Input)
    requires i.Envelope? && !Closes(s.ctl, i) && !i.event.ToolOutputDelta?
    ensures Step(style, s, i).s.work.toolOutput == s.work.toolOutput
  {
    hide Step, UpdateCards, Process;
    if IsProcessed(s.ctl, i) {
      StepOfProcessed(style, s, i);
      OpenProcessKeepsOutput(style, s.(ctl := Armed(s.ctl, i)), i);
    } else if i.event.CatalogUpdated? {
      StepOfCatalog(style, s, i);
    } else {
      StepOfDuplicate(style, s, i);
    }
  }

  lemma OpenProcessKeepsOutput(style: Style, s: Pump, i: Input)
    requires i.Envelope? && !Closes(s.ctl, i) && i.gen <= s.ctl.gen && (i.event.TurnResult? ==> !s.ctl.terminalSeen)
    ensures Process(style, s, i).s.work.toolOutput == s.work.toolOutput
  {
    var s1 := s.(work := s.work.(cards := UpdateCards(style, s.work, i.event, i.now).cards));
    RosterWork(style, s1, i);
    var roster := TrackRoster(style, s1, i);
    assert i.event.TurnResult? ==> roster.s.ctl == s.ctl;
    hide UpdateCards, TrackRoster, Boundary, Deliver;
    BoundaryKeepsOutput(style, roster.s, i);
    var b := Boundary(style, roster.s, i);
    DeliverKeepsOutput(b.s, i.event, Suppresses(roster.s.ctl, i.event), b.tip);
  }

  lemma BoundaryKeepsOutput(style: Style, s: Pump, i: Input)
    requires i.Envelope? && !i.event.Detached? && (i.event.TurnResult? ==> Suppresses(s.ctl, i.event))
    ensures Boundary(style, s, i).s.work.toolOutput == s.work.toolOutput
  {
  }

  lemma DeliverKeepsOutput(s: Pump, ev: Event, suppress: bool, tip: Option<Tip>)
    ensures Deliver(s, ev, suppress, tip).s.work.toolOutput == s.work.toolOutput
  {
    hide Translate, HasLiveCard;
  }

  lemma OutputGrows(style: Style, s: Pump, i: Input, id: string)
    requires i.Envelope? ==> !Closes(s.ctl, i)
    ensures SoFar(Step(style, s, i).s.work, id) == SoFar(s.work, id) + Streamed([i], id)
  {
    hide Step;
    assert [i][..0] == [];
    if i.Tick? {
      TickTouchesCardsOnly(style, s, i);
    } else if i.event.ToolOutputDelta? {
      StepOfDelta(style, s, i);
    } else {
      OpenKeepsOutput(style, s, i);
    }
  }

  /** Steps of `after`, taken after `before`, that leave the turn open. */
  ghost predicate StaysOpen(style: Style, before: seq<Input>, after: seq<Input>) {
    forall k :: 0 <= k < |after| ==> !Closes(After(style, INITIAL, before + after[..k]).ctl, after[k])
  }

  /** The turn begins with `before` behind it: nothing has happened yet, or its last step closed the turn before. */
  ghost predicate TurnBegins(style: Style, before: seq<Input>) {
    before == [] || Closes(After(style, INITIAL, before[..|before|-1]).ctl, before[|before|-1])
  }

  lemma {:induction false} OutputIsStreamed(style: Style, before: seq<Input>, after: seq<Input>, id: string)
    requires TurnBegins(style, before) && StaysOpen(style, before, after)
    ensures SoFar(After(style, INITIAL, before + after).work, id) == Streamed(after, id)
  {
    hide *;
    if after == [] {
      NothingStreamedYet(style, before, id);
      assert before + after == before;
    } else {
      var init, last := after[..|after|-1], after[|after|-1];
      StaysOpenBefore(style, before, after);
      OutputIsStreamed(style, before, init, id);
      StreamedOfLast(after, id);
      OneMoreOutput(style, before + init, last, id);
      assert (before + init) + [last] == before + after;
    }
  }

  lemma OneMoreOutput(style: Style, run: seq<Input>, i: Input, id: string)
    requires !Closes(After(style, INITIAL, run).ctl, i)
    ensures SoFar(After(style, INITIAL, run + [i]).work, id) == SoFar(After(style, INITIAL, run).work, id) + Streamed([i], id)
  {
    hide *;
    RunSnoc(style, INITIAL, run, i);
    OutputGrows(style, After(style, INITIAL, run), i, id);
  }

  lemma StreamedOfLast(run: seq<Input>, id: string)
    requires run != []
    ensures Streamed(run, id) == Streamed(run[..|run|-1], id) + Streamed([run[|run|-1]], id)
  {
    assert [run[|run|-1]][..0] == [];
  }

  lemma NothingStreamedYet(style: Style, before: seq<Input>, id: string)
    requires TurnBegins(style, before)
    ensures SoFar(After(style, INITIAL, before).work, id) == Streamed([], id)
  {
    hide Step, Closes;
    if before != [] {
      ClosingForgetsOutput(style, After(style, INITIAL, before[..|before|-1]), before[|before|-1]);
    }
  }

  lemma StaysOpenBefore(style: Style, before: seq<Input>, after: seq<Input>)
    requires StaysOpen(style, before, after) && after != []
    ensures StaysOpen(style, before, after[..|after|-1])
    ensures !Closes(After(style, INITIAL, before + after[..|after|-1]).ctl, after[|after|-1])
  {
    hide Closes, After;
    var init := after[..|after|-1];
    forall k | 0 <= k < |init| ensures !Closes(After(style, INITIAL, before + init[..k]).ctl, init[k]) {
      assert init[..k] == after[..k];
    }
  }

  lemma ClosingForgetsOutput(style: Style, s: Pump, i: Input)
    requires Closes(s.ctl, i)
    ensures Step(style, s, i).s.work.toolOutput == map[]
  {
    hide Step, UpdateCards, SettleFrames, CancelFrames;
    ClosingStep(style, s, i);
  }

  /** An output frame carries everything streamed for its call since the turn began, in order. */
  lemma OutputFramesAreCumulative(style: Style, before: seq<Input>, after: seq<Input>, i: Input)
    requires TurnBegins(style, before) && StaysOpen(style, before, after)
    requires i.Envelope? && i.event.ToolOutputDelta?
    ensures var sent := Step(style, After(style, INITIAL, before + after), i).sent;
            |sent| == 1 && sent[0].ToolFrame? && sent[0].data.callId == i.event.id
            && sent[0].data.output == Some(Streamed(after, i.event.id) + i.event.text)
  {
    hide Step, After, Streamed;
    OutputIsStreamed(style, before, after, i.event.id);
    StepOfDelta(style, After(style, INITIAL, before + after), i);
  }
}
