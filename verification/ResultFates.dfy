/** What becomes of a turn result, told by what the pump does with it, and the count of each over a run. */
module ResultFates {
  import opened Wrappers
  import opened WorkflowProgress
  import opened SessionEvents
  import opened PumpModel
  import opened PumpControl
  import opened TurnEndings
  import opened PumpHistory
  import opened TurnClosing

  /** Nothing of the turn is left: no debt, no open or named call, no output, nothing shown. */
  predicate IsOver(s: Pump) {
    && s.ctl.terminalSeen && !s.ctl.owed && s.ctl.status == Some(Status.Finished)
    && s.work.openTools == map[] && s.work.toolName == map[] && s.work.toolOutput == map[] && !s.work.sawVisible
  }

  predicate EndsWith(sent: seq<Frame>, k: Kind) {
    Kinds(sent) == [k] && sent != [] && KindOf(sent[|sent|-1]) == [k]
  }

  /**
   The five fates by their effect. A duplicate does nothing at all. A swallowed result sends
   no terminal, and settles the turn unless a workflow still holds it open, when it does
   nothing either. A segmented one sends the break alone and leaves a Finish owed. The other
   two settle the turn and end with their terminal.
   */
  lemma FateShows(style: Style, s: Pump, i: Input)
    requires i.Envelope? && i.event.TurnResult?
    ensures var a := AdvanceGen(s.ctl, i.gen); var out := Step(style, s, i);
            match FateOf(Advanced(s.ctl, i.gen), i.event)
            case Duplicate => s.ctl.terminalSeen && out == Out(s, [])
            case Swallowed =>
              && !a.terminalSeen && a.synthetic && Kinds(out.sent) == []
              && (if Suppresses(a, i.event) then out == Out(s, []) else IsOver(out.s))
            case Segmented => out == Out(s.(ctl := s.ctl.(owed := true)), [SegmentBreak]) && !s.ctl.terminalSeen
            case Closed => EndsWith(out.sent, FinishKind) && IsOver(out.s)
            case Raised => EndsWith(out.sent, ErrorKind) && IsOver(out.s)
  {
    hide Step, Kinds;
    PumpRefinesControl(style, s, i);
    if IsDuplicate(s.ctl, i) {
      StepOfDuplicate(style, s, i);
    } else if Suppresses(AdvanceGen(s.ctl, i.gen), i.event) {
      StepOfSuppressed(style, s, i);
    } else {
      ClosingStep(style, s, i);
      TailEnds(s, i);
    }
  }

  lemma StepOfSuppressed(style: Style, s: Pump, i: Input)
    requires i.Envelope? && !IsDuplicate(s.ctl, i) && Suppresses(AdvanceGen(s.ctl, i.gen), i.event)
    ensures Step(style, s, i) ==
            if s.ctl.synthetic then Out(s, []) else Out(s.(ctl := s.ctl.(owed := true)), [SegmentBreak])
  {
    hide Step, UpdateCards;
    StepOfProcessed(style, s, i);
    NoCardsTouched(style, s.work, i.event, i.now);
  }

  lemma TailEnds(s: Pump, i: Input)
    requires i.Envelope? && i.event.TurnResult? && !AdvanceGen(s.ctl, i.gen).terminalSeen
    ensures var a, tail := AdvanceGen(s.ctl, i.gen), ClosingTail(s, i);
            if IsErrorResult(i.event) then tail != [] && KindOf(tail[|tail|-1]) == [ErrorKind]
            else if a.synthetic then tail == []
            else tail != [] && KindOf(tail[|tail|-1]) == [FinishKind]
  {
  }

  // ---------------------------------------------------------------- results told apart by what they do

  predicate IsIgnored(s: Pump, i: Input, out: Out) {
    IsResult(s.ctl, i) && s.ctl.terminalSeen && out == Out(s, [])
  }

  predicate IsMuffled(s: Pump, i: Input, out: Out) {
    IsResult(s.ctl, i) && !AdvanceGen(s.ctl, i.gen).terminalSeen && Kinds(out.sent) == []
  }

  predicate IsBreak(s: Pump, i: Input, out: Out) {
    IsResult(s.ctl, i) && out == Out(s.(ctl := s.ctl.(owed := true)), [SegmentBreak])
  }

  predicate IsFinish(s: Pump, i: Input, out: Out) {
    IsResult(s.ctl, i) && EndsWith(out.sent, FinishKind) && IsOver(out.s)
  }

  predicate IsFailure(s: Pump, i: Input, out: Out) {
    IsResult(s.ctl, i) && EndsWith(out.sent, ErrorKind) && IsOver(out.s)
  }

  /** The effect of a result gives its fate away, and the other way round. */
  lemma EffectTellsFate(style: Style, s: Pump, i: Input)
    ensures var out := Step(style, s, i);
            && (IsIgnored(s, i, out) <==> Meets(Duplicate, s.ctl, i))
            && (IsMuffled(s, i, out) <==> Meets(Swallowed, s.ctl, i))
            && (IsBreak(s, i, out) <==> Meets(Segmented, s.ctl, i))
            && (IsFinish(s, i, out) <==> Meets(Closed, s.ctl, i))
            && (IsFailure(s, i, out) <==> Meets(Raised, s.ctl, i))
  {
    if i.Envelope? && i.event.TurnResult? {
      FateShows(style, s, i);
      hide Step, FateOf, IsOver;
    }
  }

  /** In how many steps of a run the pump is seen to do something. */
  function CountSeen(style: Style, s: Pump, run: seq<Input>, p: (Pump, Input, Out) -> bool): nat {
    if run == [] then 0 else
    var init := run[..|run|-1];
    var before := After(style, s, init);
    CountSeen(style, s, init, p) + Bit(p(before, run[|run|-1], Step(style, before, run[|run|-1])))
  }

  lemma {:induction false} SeenIsMet(style: Style, s: Pump, run: seq<Input>, p: (Pump, Input, Out) -> bool, q: (Control, Input) -> bool)
    requires forall t, i :: p(t, i, Step(style, t, i)) <==> q(t.ctl, i)
    ensures CountSeen(style, s, run, p) == Count(style, s, run, q)
  {
    hide Step;
    if run != [] {
      SeenIsMet(style, s, run[..|run|-1], p, q);
    }
  }

  /** Every result meets exactly one of the five fates. */
  lemma {:induction false} FatesPartition(style: Style, s: Pump, run: seq<Input>)
    ensures Count(style, s, run, IsResult) ==
            Count(style, s, run, Meeting(Duplicate)) + Count(style, s, run, Meeting(Swallowed))
            + Count(style, s, run, Meeting(Segmented)) + Count(style, s, run, Meeting(Closed))
            + Count(style, s, run, Meeting(Raised))
  {
    hide Step;
    if run != [] {
      FatesPartition(style, s, run[..|run|-1]);
    }
  }

  /**
   Every result of a run is ignored, muffled, turned into a break, finished or failed, and
   is exactly one of these; the breaks are all the breaks there are.
   */
  lemma ResultAccounting(style: Style, s: Pump, run: seq<Input>)
    ensures Count(style, s, run, IsResult) ==
            CountSeen(style, s, run, IsIgnored) + CountSeen(style, s, run, IsMuffled) + CountSeen(style, s, run, IsBreak)
            + CountSeen(style, s, run, IsFinish) + CountSeen(style, s, run, IsFailure)
    ensures CountSeen(style, s, run, IsBreak) == CountKind(Kinds(Output(style, s, run)), BreakKind)
    ensures CountSeen(style, s, run, IsFinish) + Count(style, s, run, DrainPays) + Count(style, s, run, Exiting(false))
            == CountKind(Kinds(Output(style, s, run)), FinishKind)
    ensures CountSeen(style, s, run, IsFailure) + Count(style, s, run, Exiting(true))
            == CountKind(Kinds(Output(style, s, run)), ErrorKind)
  {
    hide Step, IsIgnored, IsMuffled, IsBreak, IsFinish, IsFailure, Count, CountSeen, Meets, Kinds, Output;
    forall t, i
      ensures IsIgnored(t, i, Step(style, t, i)) <==> Meets(Duplicate, t.ctl, i)
      ensures IsMuffled(t, i, Step(style, t, i)) <==> Meets(Swallowed, t.ctl, i)
      ensures IsBreak(t, i, Step(style, t, i)) <==> Meets(Segmented, t.ctl, i)
      ensures IsFinish(t, i, Step(style, t, i)) <==> Meets(Closed, t.ctl, i)
      ensures IsFailure(t, i, Step(style, t, i)) <==> Meets(Raised, t.ctl, i)
    {
      EffectTellsFate(style, t, i);
    }
    SeenIsMet(style, s, run, IsIgnored, Meeting(Duplicate));
    SeenIsMet(style, s, run, IsMuffled, Meeting(Swallowed));
    SeenIsMet(style, s, run, IsBreak, Meeting(Segmented));
    SeenIsMet(style, s, run, IsFinish, Meeting(Closed));
    SeenIsMet(style, s, run, IsFailure, Meeting(Raised));
    FatesPartition(style, s, run);
    FrameAccounting(style, s, run);
  }
}
