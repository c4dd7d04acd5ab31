/** Theorems about how turns end, over whole runs of the event pump. */
module TurnEndings {
  import opened Wrappers
  import opened WorkflowProgress
  import opened SessionEvents
  import opened PumpModel
  import opened PumpControl

  // ---------------------------------------------------------------- runs of the automaton

  function Messages(run: seq<Input>): seq<Message> {
    if run == [] then [] else
    var last := run[|run|-1];
    Messages(run[..|run|-1]) + if last.Envelope? then [Message(last.gen, last.event)] else []
  }

  function ControlAfter(c: Control, ms: seq<Message>): Control {
    if ms == [] then c else ControlStep(ControlAfter(c, ms[..|ms|-1]), ms[|ms|-1]).c
  }

  function ControlKinds(c: Control, ms: seq<Message>): seq<Kind> {
    if ms == [] then [] else
    ControlKinds(c, ms[..|ms|-1]) + ControlStep(ControlAfter(c, ms[..|ms|-1]), ms[|ms|-1]).kinds
  }

  lemma ControlAppend(c: Control, ms: seq<Message>, m: Message)
    ensures ControlAfter(c, ms + [m]) == ControlStep(ControlAfter(c, ms), m).c
    ensures ControlKinds(c, ms + [m]) == ControlKinds(c, ms) + ControlStep(ControlAfter(c, ms), m).kinds
  {
    assert (ms + [m])[..|ms + [m]|-1] == ms;
  }

  /** Over any run the pump ends turns exactly as the automaton does on the same messages. */
  lemma {:induction false} RunRefinesControl(style: Style, s: Pump, run: seq<Input>)
    ensures After(style, s, run).ctl == ControlAfter(s.ctl, Messages(run))
    ensures Kinds(Output(style, s, run)) == ControlKinds(s.ctl, Messages(run))
  {
    hide Step, ControlStep;
    if run != [] {
      var init, last := run[..|run|-1], run[|run|-1];
      var before := After(style, s, init);
      RunRefinesControl(style, s, init);
      PumpRefinesControl(style, before, last);
      KindsConcat(Output(style, s, init), Step(style, before, last).sent);
      if last.Envelope? {
        var m := Message(last.gen, last.event);
        assert Messages(run) == Messages(init) + [m];
        ControlAppend(s.ctl, Messages(init), m);
      } else {
        assert Messages(run) == Messages(init);
      }
    }
  }

  // ---------------------------------------------------------------- generation isolation

  /**
   Nothing about how turns end leaks from one generation into the next: after an
   envelope of a newer generation, any two pumps given the same messages end every
   turn alike, whatever their clocks, heartbeats and walking orders.
   */
  lemma GenerationIsolation(style: Style, s: Pump, t: Pump, first: Input, first': Input,
                            run: seq<Input>, other: seq<Input>)
    requires first.Envelope? && first'.Envelope?
    requires first.gen == first'.gen && first.event == first'.event
    requires first.gen > s.ctl.gen && first.gen > t.ctl.gen
    requires Messages(run) == Messages(other)
    ensures Kinds(Step(style, s, first).sent) == Kinds(Step(style, t, first').sent)
    ensures Kinds(Output(style, Step(style, s, first).s, run)) == Kinds(Output(style, Step(style, t, first').s, other))
  {
    hide Step, Kinds;
    PumpRefinesControl(style, s, first);
    PumpRefinesControl(style, t, first');
    RunRefinesControl(style, Step(style, s, first).s, run);
    RunRefinesControl(style, Step(style, t, first').s, other);
  }

  // ---------------------------------------------------------------- one terminal per turn

  /** A debt never survives a terminal, real or synthetic. */
  predicate DebtIsOpen(c: Control) {
    c.owed ==> !c.terminalSeen && !c.synthetic
  }

  lemma {:induction false} DebtStaysOpen(c: Control, ms: seq<Message>)
    requires DebtIsOpen(c)
    ensures DebtIsOpen(ControlAfter(c, ms))
  {
    if ms != [] {
      DebtStaysOpen(c, ms[..|ms|-1]);
    }
  }

  /** The points at which the pump gets ready for another terminal. */
  predicate Arms(c: Control, i: Input) {
    i.Envelope? && (i.gen > c.gen || i.event.TurnStarted? || (c.terminalSeen && IsContent(i.event)))
  }

  function CountKind(kinds: seq<Kind>, k: Kind): nat {
    if kinds == [] then 0 else CountKind(kinds[..|kinds|-1], k) + Bit(kinds[|kinds|-1] == k)
  }

  function Bit(b: bool): nat {
    if b then 1 else 0
  }

  function Terminals(kinds: seq<Kind>): nat {
    CountKind(kinds, FinishKind) + CountKind(kinds, ErrorKind)
  }

  predicate IsExit(i: Input) {
    i.Envelope? && i.event.Detached?
  }

  /** Terminals a run sends for results and drains, that is, not for a process exit. */
  function TurnTerminals(style: Style, s: Pump, run: seq<Input>): nat {
    if run == [] then 0 else
    var init, last := run[..|run|-1], run[|run|-1];
    TurnTerminals(style, s, init)
    + if IsExit(last) then 0 else Terminals(Kinds(Step(style, After(style, s, init), last).sent))
  }

  lemma ControlTerminals(c: Control, m: Message)
    requires DebtIsOpen(c)
    ensures var out := ControlStep(c, m);
            !m.event.Detached? ==>
              && Terminals(out.kinds) <= Bit(out.c.terminalSeen)
              && (m.gen <= c.gen && !m.event.TurnStarted? && !(c.terminalSeen && IsContent(m.event)) ==>
                    Terminals(out.kinds) + Bit(c.terminalSeen) <= Bit(out.c.terminalSeen))
    ensures m.event.Detached? && m.gen <= c.gen ==> ControlStep(c, m).c.terminalSeen == c.terminalSeen
  {
    OneKind();
  }

  lemma OneKind()
    ensures forall k, l :: CountKind([k], l) == Bit(k == l)
  {
    forall k, l
      ensures CountKind([k], l) == Bit(k == l)
    {
      assert [k][..0] == [];
    }
  }

  lemma StepTerminals(style: Style, s: Pump, i: Input)
    requires DebtIsOpen(s.ctl)
    ensures var out := Step(style, s, i);
            var sent := if IsExit(i) then 0 else Terminals(Kinds(out.sent));
            && sent <= Bit(out.s.ctl.terminalSeen)
            && (!Arms(s.ctl, i) ==> sent + Bit(s.ctl.terminalSeen) <= Bit(out.s.ctl.terminalSeen))
  {
    hide Step, ControlStep, Kinds;
    PumpRefinesControl(style, s, i);
    if i.Envelope? {
      ControlTerminals(s.ctl, Message(i.gen, i.event));
    }
  }

  /**
   From one arming point up to the next, all turn results and the cancel drain
   together broadcast at most one Finish or Error.
   */
  lemma {:induction false} AtMostOneTerminal(style: Style, s: Pump, run: seq<Input>)
    requires DebtIsOpen(s.ctl)
    requires forall k :: 1 <= k < |run| ==> !Arms(After(style, s, run[..k]).ctl, run[k])
    ensures TurnTerminals(style, s, run) <= 1
    ensures run != [] ==> TurnTerminals(style, s, run) <= Bit(After(style, s, run).ctl.terminalSeen)
  {
    hide Step, Arms, Kinds;
    if run != [] {
      var init, last := run[..|run|-1], run[|run|-1];
      forall k | 1 <= k < |init|
        ensures !Arms(After(style, s, init[..k]).ctl, init[k])
      {
        assert init[..k] == run[..k] && init[k] == run[k];
      }
      AtMostOneTerminal(style, s, init);
      RunRefinesControl(style, s, init);
      DebtStaysOpen(s.ctl, Messages(init));
      StepTerminals(style, After(style, s, init), last);
    }
  }

  // ---------------------------------------------------------------- accounting

  /** In how many steps of a run something happens. */
  function Count(style: Style, s: Pump, run: seq<Input>, p: (Control, Input) -> bool): nat {
    if run == [] then 0 else
    var init := run[..|run|-1];
    Count(style, s, init, p) + Bit(p(After(style, s, init).ctl, run[|run|-1]))
  }

  predicate Meets(fate: Fate, c: Control, i: Input) {
    i.Envelope? && i.event.TurnResult? && FateOf(Advanced(c, i.gen), i.event) == fate
  }

  function Meeting(fate: Fate): (Control, Input) -> bool {
    (c, i) => Meets(fate, c, i)
  }

  predicate IsResult(c: Control, i: Input) {
    i.Envelope? && i.event.TurnResult?
  }

  /** The cancel drain pays the Finish it owes unless the status says one went out already. */
  predicate DrainPays(c: Control, i: Input) {
    i.Envelope? && Drains(AdvanceGen(c, i.gen), i.event) && AdvanceGen(c, i.gen).status != Some(Status.Finished)
  }

  /** A process exit that is reported: as a crash, or quietly and not swallowed by the guard. */
  predicate Exits(crash: bool, c: Control, i: Input) {
    && IsExit(i)
    && Classify(AdvanceGen(c, i.gen).terminalSeen, i.event.exit).Crashed? == crash
    && (crash || !AdvanceGen(c, i.gen).synthetic)
  }

  function Exiting(crash: bool): (Control, Input) -> bool {
    (c, i) => Exits(crash, c, i)
  }

  lemma StepAccounts(style: Style, s: Pump, i: Input)
    ensures var kinds, c := Kinds(Step(style, s, i).sent), s.ctl;
            && CountKind(kinds, FinishKind) == Bit(Meets(Closed, c, i)) + Bit(DrainPays(c, i)) + Bit(Exits(false, c, i))
            && CountKind(kinds, ErrorKind) == Bit(Meets(Raised, c, i)) + Bit(Exits(true, c, i))
            && CountKind(kinds, BreakKind) == Bit(Meets(Segmented, c, i))
  {
    hide Step, ControlStep, Kinds;
    PumpRefinesControl(style, s, i);
    if i.Envelope? {
      ControlAccounts(s.ctl, i);
    }
  }

  lemma ControlAccounts(c: Control, i: Input)
    requires i.Envelope?
    ensures var kinds := ControlStep(c, Message(i.gen, i.event)).kinds;
            && CountKind(kinds, FinishKind) == Bit(Meets(Closed, c, i)) + Bit(DrainPays(c, i)) + Bit(Exits(false, c, i))
            && CountKind(kinds, ErrorKind) == Bit(Meets(Raised, c, i)) + Bit(Exits(true, c, i))
            && CountKind(kinds, BreakKind) == Bit(Meets(Segmented, c, i))
  {
  }

  lemma {:induction false} CountKindConcat(a: seq<Kind>, b: seq<Kind>, k: Kind)
    ensures CountKind(a + b, k) == CountKind(a, k) + CountKind(b, k)
  {
    if b == [] {
      assert a + b == a;
    } else {
      assert (a + b)[..|a + b|-1] == a + b[..|b|-1];
      CountKindConcat(a, b[..|b|-1], k);
    }
  }

  /** Every Finish, Error and SegmentBreak of a run has exactly one of the known causes. */
  lemma {:induction false} FrameAccounting(style: Style, s: Pump, run: seq<Input>)
    ensures var kinds := Kinds(Output(style, s, run));
            && CountKind(kinds, FinishKind) ==
               Count(style, s, run, Meeting(Closed)) + Count(style, s, run, DrainPays)
               + Count(style, s, run, Exiting(false))
            && CountKind(kinds, ErrorKind) ==
               Count(style, s, run, Meeting(Raised)) + Count(style, s, run, Exiting(true))
            && CountKind(kinds, BreakKind) == Count(style, s, run, Meeting(Segmented))
  {
    hide Step;
    if run != [] {
      var init, last := run[..|run|-1], run[|run|-1];
      var before := After(style, s, init);
      var sent := Step(style, before, last).sent;
      FrameAccounting(style, s, init);
      StepAccounts(style, before, last);
      KindsConcat(Output(style, s, init), sent);
      forall k
        ensures CountKind(Kinds(Output(style, s, run)), k) == CountKind(Kinds(Output(style, s, init)), k) + CountKind(Kinds(sent), k)
      {
        CountKindConcat(Kinds(Output(style, s, init)), Kinds(sent), k);
      }
    }
  }
}
