/**
 What callers of the task manager can rely on under every interleaving, with the exact
 conditions: when a kill leaves no agent of its slot running, and when a served caller is
 sure to get the capabilities it asked for.
 */
module TaskGuarantees {
  import opened Wrappers
  import opened TaskManager
  import opened TaskProtocol

  // ---------------------------------------------------------------- when a kill is final

  ghost predicate LeavesRunning(s: State, k: nat, slot: nat) {
    && k in s.killers && s.killers[k].phase.Resolved?
    && slot in s.cells && s.cells[slot].Ready? && s.cells[slot].agent !in s.killed
  }

  /** In no continuation has the kill resolved while an agent of the slot runs on. */
  ghost predicate IsFinal(s: State, k: nat, slot: nat) {
    forall after :: Possible(s, after) ==> !LeavesRunning(Run(s, after), k, slot)
  }

  predicate NobodyHolds(s: State, slot: nat) {
    forall c :: c in s.callers ==> s.callers[c].stage != Holding(slot)
  }

  predicate NobodyFills(s: State, slot: nat) {
    forall c :: c in s.callers ==> s.callers[c].stage != Filling(slot)
  }

  /** The agent is there already, or nobody is left who could start a build the kill would not see. */
  predicate NothingEscapes(s: State, slot: nat, wait: bool) {
    slot in s.cells && (s.cells[slot].Ready? || (NobodyHolds(s, slot) && (wait || NobodyFills(s, slot))))
  }

  /** A kill that nothing escapes lets go of its cell only when that stays empty. */
  ghost predicate Covered(s: State, k: nat, slot: nat) {
    && Took(s, k, slot) && NothingEscapes(s, slot, s.killers[k].wait)
    && (s.killers[k].phase.Resolved? && s.killers[k].phase.outcome == Left ==>
          s.cells[slot].Empty? && NobodyHolds(s, slot))
  }

  lemma NobodyComes(s: State, e: Event, k: nat, slot: nat)
    requires Consistent(s) && Enabled(s, e) && Took(s, k, slot)
    ensures NobodyHolds(s, slot) ==> NobodyHolds(Next(s, e), slot)
    ensures NobodyHolds(s, slot) && NobodyFills(s, slot) ==> NobodyFills(Next(s, e), slot)
  {
    hide CellsFit, AgentsDiffer, KilledFits, SawFits, PhaseFits;
    assert KillerFits(s, k);
  }

  lemma EmptyStaysEmpty(s: State, e: Event, k: nat, slot: nat)
    requires Consistent(s) && Enabled(s, e) && Took(s, k, slot) && slot in s.cells
    ensures slot in Next(s, e).cells
    ensures s.cells[slot].Empty? && NobodyHolds(s, slot) ==> Next(s, e).cells[slot].Empty?
    ensures NobodyHolds(s, slot) && NobodyFills(s, slot) && !s.cells[slot].Ready? ==> Next(s, e).cells[slot].Empty?
    ensures s.cells[slot].Ready? ==> Next(s, e).cells[slot] == s.cells[slot]
  {
    hide AgentsDiffer, KilledFits, SawFits, PhaseFits, RemovedOnce;
    assert CellFits(s, slot);
  }

  lemma StepKeepsCovered(s: State, e: Event, k: nat, slot: nat)
    requires Consistent(s) && Enabled(s, e) && Covered(s, k, slot)
    ensures Covered(Next(s, e), k, slot)
  {
    NobodyComes(s, e, k, slot);
    EmptyStaysEmpty(s, e, k, slot);
    LetsGoOfEmpty(s, e, k, slot);
    hide Next, Enabled, Consistent;
  }

  /** What a kill remembers, and the two ways of letting go. */
  lemma LetsGoOfEmpty(s: State, e: Event, k: nat, slot: nat)
    requires CellsFit(s) && Enabled(s, e) && Took(s, k, slot) && slot in s.cells
    ensures var s' := Next(s, e);
            && Took(s', k, slot) && s'.killers[k].wait == s.killers[k].wait
            && (s'.killers[k].phase.Resolved? && s'.killers[k].phase.outcome == Left && !s.killers[k].phase.Resolved? ==>
                  !s.cells[slot].Ready? && (s.cells[slot].Empty? || !s.killers[k].wait))
            && (s.killers[k].phase.Resolved? ==> s'.killers[k] == s.killers[k])
  {
    hide CellsFit;
  }

  lemma {:induction false} CoveredIsFinal(s: State, events: seq<Event>, k: nat, slot: nat)
    requires Consistent(s) && Covered(s, k, slot) && Possible(s, events)
    ensures !LeavesRunning(Run(s, events), k, slot)
    decreases |events|
  {
    hide Next, Enabled, Consistent, Covered;
    if events == [] {
      CoveredLeavesNothing(s, k, slot);
    } else {
      StepIsConsistent(s, events[0]);
      StepKeepsCovered(s, events[0], k, slot);
      CoveredIsFinal(Next(s, events[0]), events[1..], k, slot);
    }
  }

  lemma CoveredLeavesNothing(s: State, k: nat, slot: nat)
    requires Consistent(s) && Covered(s, k, slot)
    ensures !LeavesRunning(s, k, slot)
  {
    assert KillerFits(s, k);
  }

  // ---------------------------------------------------------------- how an agent escapes

  lemma LaterEscape(s: State, e: Event, k: nat, slot: nat)
    requires Enabled(s, e) && !IsFinal(Next(s, e), k, slot)
    ensures !IsFinal(s, k, slot)
  {
    hide Next, Enabled, LeavesRunning;
    var after :| Possible(Next(s, e), after) && LeavesRunning(Run(Next(s, e), after), k, slot);
    var events := [e] + after;
    assert events[0] == e && events[1..] == after;
    assert Possible(s, events) && LeavesRunning(Run(s, events), k, slot);
  }

  lemma {:induction false} SomethingNew(known: set<nat>) returns (n: nat)
    ensures forall m :: m in known ==> m < n
  {
    if known == {} {
      n := 0;
    } else {
      var m :| m in known;
      var rest := SomethingNew(known - {m});
      assert forall other :: other in known ==> other == m || other in known - {m};
      n := if rest > m then rest else m + 1;
    }
  }

  lemma BuildEscapes(s: State, k: nat, slot: nat, c: nat)
    requires k in s.killers && s.killers[k].phase.Resolved? && At(s, c, Filling(slot)) && slot in s.cells
    ensures !IsFinal(s, k, slot)
  {
    var agent := SomethingNew(s.agents + s.killed);
    var e := Built(c, Some(agent));
    var s' := Next(s, e);
    assert agent !in s.killed && agent !in s.agents;
    assert Possible(s', []) && LeavesRunning(Run(s', []), k, slot);
    LaterEscape(s, e, k, slot);
  }

  lemma HolderEscapes(s: State, k: nat, slot: nat, c: nat)
    requires k in s.killers && s.killers[k].phase.Resolved? && At(s, c, Holding(slot))
    requires slot in s.cells && s.cells[slot].Empty?
    ensures !IsFinal(s, k, slot)
  {
    hide IsFinal;
    BuildEscapes(Next(s, Acquire(c)), k, slot, c);
    LaterEscape(s, Acquire(c), k, slot);
  }

  lemma HolderEscapesWait(s: State, k: nat, slot: nat, c: nat)
    requires Took(s, k, slot) && s.killers[k].phase.Waiting? && At(s, c, Holding(slot))
    requires slot in s.cells && s.cells[slot].Empty?
    ensures !IsFinal(s, k, slot)
  {
    hide IsFinal;
    HolderEscapes(Next(s, GiveUp(k)), k, slot, c);
    LaterEscape(s, GiveUp(k), k, slot);
  }

  /** The build in flight fails, the kill gives up on the empty cell, and the next in line builds. */
  lemma NextInLineEscapesWait(s: State, k: nat, slot: nat, owner: nat, c: nat)
    requires Took(s, k, slot) && s.killers[k].phase.Waiting? && At(s, c, Holding(slot))
    requires slot in s.cells && At(s, owner, Filling(slot))
    ensures !IsFinal(s, k, slot)
  {
    hide IsFinal;
    HolderEscapesWait(Next(s, Built(owner, None)), k, slot, c);
    LaterEscape(s, Built(owner, None), k, slot);
  }

  lemma SomebodyEscapes(s: State, k: nat, slot: nat)
    requires Consistent(s) && Took(s, k, slot) && s.killers[k].phase.Looking? && slot in s.cells
    requires !NothingEscapes(s, slot, s.killers[k].wait)
    ensures Enabled(s, Look(k)) && !IsFinal(Next(s, Look(k)), k, slot)
  {
    hide IsFinal, MapFits, AgentsDiffer, KillersFit, RemovedOnce, KilledFits;
    assert CellFits(s, slot);
    var s' := Next(s, Look(k));
    if s.killers[k].wait {
      var c :| c in s.callers && s.callers[c].stage == Holding(slot);
      if s.cells[slot].Empty? {
        HolderEscapesWait(s', k, slot, c);
      } else {
        NextInLineEscapesWait(s', k, slot, s.cells[slot].owner, c);
      }
    } else if s.cells[slot].Building? {
      BuildEscapes(s', k, slot, s.cells[slot].owner);
    } else {
      HolderOfAnEmptyCell(s, slot);
      var c :| c in s.callers && s.callers[c].stage == Holding(slot);
      HolderEscapes(s', k, slot, c);
    }
  }

  lemma HolderOfAnEmptyCell(s: State, slot: nat)
    requires CellsFit(s) && slot in s.cells && s.cells[slot].Empty? && !NothingEscapes(s, slot, false)
    ensures !NobodyHolds(s, slot)
  {
    forall c | c in s.callers ensures s.callers[c].stage != Filling(slot) {
      assert CallerFits(s, c);
    }
  }

  /**
   A kill that has taken a slot away and is about to look into its cell is final iff
   nothing escapes it at that moment; looking changes nothing about that.
   */
  lemma KillIsFinal(before: seq<Event>, k: nat, slot: nat)
    requires Possible(START, before)
    requires var s := Run(START, before); Took(s, k, slot) && slot in s.cells && s.killers[k].phase.Looking?
    ensures var s := Run(START, before);
            && Enabled(s, Look(k))
            && (IsFinal(s, k, slot) <==> NothingEscapes(s, slot, s.killers[k].wait))
            && (IsFinal(Next(s, Look(k)), k, slot) <==> NothingEscapes(s, slot, s.killers[k].wait))
  {
    var s := Run(START, before);
    ReachedIsConsistent(before);
    if NothingEscapes(s, slot, s.killers[k].wait) {
      StepIsConsistent(s, Look(k));
      StepKeepsCovered(s, Look(k), k, slot);
      forall after | Possible(s, after) ensures !LeavesRunning(Run(s, after), k, slot) {
        CoveredIsFinal(s, after, k, slot);
      }
      forall after | Possible(Next(s, Look(k)), after) ensures !LeavesRunning(Run(Next(s, Look(k)), after), k, slot) {
        CoveredIsFinal(Next(s, Look(k)), after, k, slot);
      }
    } else {
      hide IsFinal, Consistent, Next;
      SomebodyEscapes(s, k, slot);
      LaterEscape(s, Look(k), k, slot);
    }
  }

  /**
   An awaited kill leaves no agent of its slot running, whatever happens next, iff the
   slot is built when it is taken away or no other caller holds it waiting for its turn.
   */
  lemma AwaitedKillIsFinal(before: seq<Event>, k: nat, conversation: string)
    requires Possible(START, before) && Enabled(Run(START, before), Kill(k, conversation, true))
    requires conversation in Run(START, before).tasks
    ensures var s := Run(START, before); var slot := s.tasks[conversation];
            && slot in s.cells
            && (IsFinal(Next(s, Kill(k, conversation, true)), k, slot) <==> s.cells[slot].Ready? || NobodyHolds(s, slot))
  {
    TakenSlot(before, k, conversation, true);
    hide Next, Enabled, IsFinal;
    var s := Run(START, before);
    OneMore(START, before, Kill(k, conversation, true));
    KillIsFinal(before + [Kill(k, conversation, true)], k, s.tasks[conversation]);
  }

  /** A plain kill is final iff the slot is built, or nobody holds it and nobody is building in it. */
  lemma PlainKillIsFinal(before: seq<Event>, k: nat, conversation: string)
    requires Possible(START, before) && Enabled(Run(START, before), Kill(k, conversation, false))
    requires conversation in Run(START, before).tasks
    ensures var s := Run(START, before); var slot := s.tasks[conversation];
            && slot in s.cells
            && (IsFinal(Next(s, Kill(k, conversation, false)), k, slot) <==>
                s.cells[slot].Ready? || (NobodyHolds(s, slot) && NobodyFills(s, slot)))
  {
    TakenSlot(before, k, conversation, false);
    hide Next, Enabled, IsFinal;
    var s := Run(START, before);
    OneMore(START, before, Kill(k, conversation, false));
    KillIsFinal(before + [Kill(k, conversation, false)], k, s.tasks[conversation]);
  }

  lemma TakenSlot(before: seq<Event>, k: nat, conversation: string, wait: bool)
    requires Possible(START, before) && Enabled(Run(START, before), Kill(k, conversation, wait))
    requires conversation in Run(START, before).tasks
    ensures var s := Run(START, before); var s' := Next(s, Kill(k, conversation, wait)); var slot := s.tasks[conversation];
            && slot in s.cells && s'.cells == s.cells && s'.callers == s.callers
            && Took(s', k, slot) && s'.killers[k].wait == wait && s'.killers[k].phase == Looking
  {
    ReachedIsConsistent(before);
  }

  // ---------------------------------------------------------------- reaching a given state

  lemma {:induction false} OneMore(s: State, events: seq<Event>, e: Event)
    requires Possible(s, events) && Enabled(Run(s, events), e)
    ensures Possible(s, events + [e]) && Run(s, events + [e]) == Next(Run(s, events), e)
    decreases |events|
  {
    if events != [] {
      OneMore(Next(s, events[0]), events[1..], e);
      assert (events + [e])[1..] == events[1..] + [e];
    }
  }

  lemma Advance(events: seq<Event>, n: nat)
    requires n < |events| && Possible(START, events[..n]) && Enabled(Run(START, events[..n]), events[n])
    ensures Possible(START, events[..n+1])
    ensures Run(START, events[..n+1]) == Next(Run(START, events[..n]), events[n])
  {
    OneMore(START, events[..n], events[n]);
    assert events[..n] + [events[n]] == events[..n+1];
  }

  lemma Begin(events: seq<Event>)
    ensures Possible(START, events[..0]) && Run(START, events[..0]) == START
  {
  }

  const ANY := Capabilities(None)

  /** An awaited kill between a caller's taking hold of the slot and its starting the build. */
  const OVERTAKEN := [
    Arrive(0, "a", ANY), Check(0), Enter(0, 0), Kill(0, "a", true), Look(0), GiveUp(0), Acquire(0), Built(0, Some(0))]

  function Held(conversation: string, want: Capabilities): State {
    State(map[conversation := 0], map[0 := Empty], map[0 := Caller(conversation, want, Holding(0))], map[], {}, {})
  }

  const LET_GO := Held("a", ANY).(tasks := map[], killers := map[0 := Killer(true, Some(0), Empty, Resolved(Left, false))])

  lemma ReachesHeld(events: seq<Event>, conversation: string, want: Capabilities)
    requires |events| >= 3 && events[..3] == [Arrive(0, conversation, want), Check(0), Enter(0, 0)]
    ensures Possible(START, events[..3]) && Run(START, events[..3]) == Held(conversation, want)
  {
    assert events[0] == events[..3][0] && events[1] == events[..3][1] && events[2] == events[..3][2];
    Begin(events);
    hide Run, Possible;
    Advance(events, 0);
    Advance(events, 1);
    Advance(events, 2);
  }

  lemma ReachesLetGo()
    ensures Possible(START, OVERTAKEN[..6]) && Run(START, OVERTAKEN[..6]) == LET_GO
  {
    hide Run, Possible;
    ReachesHeld(OVERTAKEN, "a", ANY);
    Advance(OVERTAKEN, 3);
    Advance(OVERTAKEN, 4);
    Advance(OVERTAKEN, 5);
  }

  /** The awaited kill resolves, and the agent built afterwards is served, unmapped and left running. */
  lemma AwaitedKillCanBeOvertaken()
    ensures Possible(START, OVERTAKEN)
    ensures Run(START, OVERTAKEN) == LET_GO.(
              cells := map[0 := Ready(0, ANY, 0)], callers := map[0 := Caller("a", ANY, Served(0, 0))], agents := {0})
  {
    hide Run, Possible;
    ReachesLetGo();
    Advance(OVERTAKEN, 6);
    Advance(OVERTAKEN, 7);
    assert OVERTAKEN[..8] == OVERTAKEN;
  }

  // ---------------------------------------------------------------- when a request is met

  datatype Request = Request(conversation: string, want: Capabilities)

  ghost predicate ArrivalsFrom(events: seq<Event>, allowed: iset<Request>) {
    forall i :: 0 <= i < |events| && events[i].Arrive? ==> Request(events[i].conversation, events[i].want) in allowed
  }

  predicate IsServed(s: State, c: nat) {
    && c in s.callers && s.callers[c].stage.Served?
    && s.callers[c].stage.slot in s.cells && s.cells[s.callers[c].stage.slot].Ready?
  }

  /** The capabilities stored with the agent a caller was served meet what it asked for. */
  predicate IsMet(s: State, c: nat)
    requires IsServed(s, c)
  {
    Satisfies(s.cells[s.callers[c].stage.slot].capabilities, s.callers[c].want)
  }

  /** Whatever interleaving these requests come in, every caller that is served is served what it asked for. */
  ghost predicate AlwaysMet(allowed: iset<Request>) {
    forall events, c :: Possible(START, events) && ArrivalsFrom(events, allowed) && IsServed(Run(START, events), c) ==>
      IsMet(Run(START, events), c)
  }

  /** Requests for one conversation all ask for the same. */
  ghost predicate Agree(allowed: iset<Request>) {
    forall p, q :: p in allowed && q in allowed && p.conversation == q.conversation ==> p.want == q.want
  }

  predicate SameSlot(s: State, c: nat, d: nat) {
    && c in s.callers && d in s.callers
    && SlotOf(s.callers[c].stage).Some? && SlotOf(s.callers[c].stage) == SlotOf(s.callers[d].stage)
  }

  predicate InMappedSlot(s: State, c: nat, id: string) {
    c in s.callers && id in s.tasks && SlotOf(s.callers[c].stage) == Some(s.tasks[id])
  }

  /** Callers of a slot share the conversation, which is the one the slot is mapped to, if any. */
  ghost predicate SlotsHaveOneConversation(s: State) {
    && (forall c, d :: SameSlot(s, c, d) ==> s.callers[c].conversation == s.callers[d].conversation)
    && (forall id, c :: InMappedSlot(s, c, id) ==> s.callers[c].conversation == id)
  }

  ghost predicate CallersFrom(s: State, allowed: iset<Request>) {
    forall c :: c in s.callers ==> Request(s.callers[c].conversation, s.callers[c].want) in allowed
  }

  /** Only entering gives a caller a slot, and it is the mapped one. */
  lemma SlotsComeFromEntering(s: State, e: Event, c: nat)
    requires CellsFit(s) && Enabled(s, e) && c in Next(s, e).callers && SlotOf(Next(s, e).callers[c].stage).Some?
    ensures var s' := Next(s, e);
            && (c in s.callers ==> s'.callers[c].conversation == s.callers[c].conversation)
            && ((e.Enter? && e.c == c && InMappedSlot(s', c, s'.callers[c].conversation))
                || (c in s.callers && SlotOf(s.callers[c].stage) == SlotOf(s'.callers[c].stage)
                    && SlotOf(s.callers[c].stage).value in s.cells))
  {
    assert c in s.callers ==> CallerFits(s, c);
  }

  lemma NewSlotsAreNew(s: State, e: Event, id: string)
    requires MapFits(s) && Enabled(s, e) && id in Next(s, e).tasks
    ensures (id in s.tasks && s.tasks[id] == Next(s, e).tasks[id])
            || (e.Enter? && Next(s, e).tasks[id] !in s.cells && e.c in s.callers && s.callers[e.c].conversation == id)
  {
  }

  lemma EnteringPair(s: State, e: Event, c: nat, d: nat)
    requires CellsFit(s) && MapFits(s) && SlotsHaveOneConversation(s) && Enabled(s, e) && SameSlot(Next(s, e), c, d)
    requires e.Enter? && e.c == c && c != d
    ensures Next(s, e).callers[c].conversation == Next(s, e).callers[d].conversation
  {
    SlotsComeFromEntering(s, e, c);
    SlotsComeFromEntering(s, e, d);
    assert SlotOf(s.callers[c].stage).None?;
    hide CellsFit, Next, Enabled;
    var id := Next(s, e).callers[c].conversation;
    NewSlotsAreNew(s, e, id);
    assert InMappedSlot(s, d, id);
  }

  lemma StepKeepsPair(s: State, e: Event, c: nat, d: nat)
    requires CellsFit(s) && MapFits(s) && SlotsHaveOneConversation(s) && Enabled(s, e) && SameSlot(Next(s, e), c, d)
    ensures Next(s, e).callers[c].conversation == Next(s, e).callers[d].conversation
  {
    hide CellsFit, Next, Enabled;
    if c != d {
      if e.Enter? && e.c == c {
        EnteringPair(s, e, c, d);
      } else if e.Enter? && e.c == d {
        EnteringPair(s, e, d, c);
      } else {
        SlotsComeFromEntering(s, e, c);
        SlotsComeFromEntering(s, e, d);
        assert SameSlot(s, c, d);
      }
    }
  }

  lemma StepKeepsMapped(s: State, e: Event, id: string, c: nat)
    requires CellsFit(s) && MapFits(s) && SlotsHaveOneConversation(s) && Enabled(s, e) && InMappedSlot(Next(s, e), c, id)
    requires MapFits(Next(s, e))
    ensures Next(s, e).callers[c].conversation == id
  {
    hide CellsFit, Next, Enabled;
    SlotsComeFromEntering(s, e, c);
    NewSlotsAreNew(s, e, id);
    if c in s.callers && id in s.tasks && s.tasks[id] == Next(s, e).tasks[id] && SlotOf(s.callers[c].stage) == Some(s.tasks[id]) {
      assert InMappedSlot(s, c, id);
    }
  }

  lemma StepKeepsConversations(s: State, e: Event)
    requires CellsFit(s) && MapFits(s) && SlotsHaveOneConversation(s) && Enabled(s, e)
    ensures SlotsHaveOneConversation(Next(s, e))
  {
    StepKeepsMap(s, e);
    hide CellsFit, MapFits, Next, Enabled, SameSlot, InMappedSlot;
    var s' := Next(s, e);
    forall c, d | SameSlot(s', c, d) ensures s'.callers[c].conversation == s'.callers[d].conversation {
      StepKeepsPair(s, e, c, d);
    }
    forall id, c | InMappedSlot(s', c, id) ensures s'.callers[c].conversation == id {
      StepKeepsMapped(s, e, id, c);
    }
  }

  lemma {:induction false} RunKeepsConversations(s: State, events: seq<Event>, allowed: iset<Request>)
    requires Consistent(s) && Possible(s, events) && ArrivalsFrom(events, allowed)
    requires SlotsHaveOneConversation(s) && CallersFrom(s, allowed)
    ensures SlotsHaveOneConversation(Run(s, events)) && CallersFrom(Run(s, events), allowed)
    decreases |events|
  {
    hide KillersFit, AgentsDiffer, RemovedOnce, KilledFits, SlotsHaveOneConversation;
    if events != [] {
      var rest := events[1..];
      assert forall i :: 0 <= i < |rest| ==> rest[i] == events[i + 1];
      StepIsConsistent(s, events[0]);
      StepKeepsConversations(s, events[0]);
      ArrivalIsAllowed(s, events[0], allowed);
      hide Next, Enabled, CellsFit, MapFits;
      RunKeepsConversations(Next(s, events[0]), rest, allowed);
    }
  }

  lemma ArrivalIsAllowed(s: State, e: Event, allowed: iset<Request>)
    requires Enabled(s, e) && CallersFrom(s, allowed)
    requires e.Arrive? ==> Request(e.conversation, e.want) in allowed
    ensures CallersFrom(Next(s, e), allowed)
  {
  }

  lemma AgreedRequestsAreMet(events: seq<Event>, c: nat, allowed: iset<Request>)
    requires Possible(START, events) && ArrivalsFrom(events, allowed) && Agree(allowed)
    requires IsServed(Run(START, events), c)
    ensures IsMet(Run(START, events), c)
  {
    ReachedIsConsistent(events);
    RunKeepsConversations(START, events, allowed);
    var s := Run(START, events);
    SlotServesOneAgent(events, c, c);
    var slot := s.callers[c].stage.slot;
    var owner := s.cells[slot].owner;
    assert CellFits(s, slot);
    assert SameSlot(s, owner, c);
    assert Request(s.callers[owner].conversation, s.callers[owner].want) in allowed;
    assert Request(s.callers[c].conversation, s.callers[c].want) in allowed;
  }

  /** A caller that arrives while another builds for the same conversation. */
  function Joined(conversation: string, first: Capabilities, second: Capabilities): seq<Event> {
    [Arrive(0, conversation, first), Check(0), Enter(0, 0), Acquire(0),
     Arrive(1, conversation, second), Check(1), Enter(1, 1), Built(0, Some(0)), Join(1)]
  }

  lemma ReachesJoin(conversation: string, first: Capabilities, second: Capabilities)
    ensures var events := Joined(conversation, first, second);
            && Possible(START, events[..7])
            && Run(START, events[..7]) == Held(conversation, first).(
                 cells := map[0 := Building(0)],
                 callers := map[0 := Caller(conversation, first, Filling(0)), 1 := Caller(conversation, second, Holding(0))])
  {
    hide Run, Possible;
    var events := Joined(conversation, first, second);
    ReachesHeld(events, conversation, first);
    Advance(events, 3);
    Advance(events, 4);
    Advance(events, 5);
    Advance(events, 6);
  }

  /** Whatever the second caller asks for, it joins the build and is served what the first one asked for. */
  lemma JoinersTakeWhatIsBuilt(conversation: string, first: Capabilities, second: Capabilities)
    ensures var events := Joined(conversation, first, second);
            && Possible(START, events)
            && Run(START, events) == Held(conversation, first).(
                 cells := map[0 := Ready(0, first, 0)],
                 callers := map[0 := Caller(conversation, first, Served(0, 0)), 1 := Caller(conversation, second, Served(0, 0))],
                 agents := {0})
  {
    hide Run, Possible;
    var events := Joined(conversation, first, second);
    ReachesJoin(conversation, first, second);
    Advance(events, 7);
    Advance(events, 8);
    assert events[..9] == events;
  }

  lemma AlwaysMetAgree(allowed: iset<Request>, p: Request, q: Request)
    requires AlwaysMet(allowed) && p in allowed && q in allowed && p.conversation == q.conversation
    ensures Satisfies(p.want, q.want)
  {
    hide Run, Possible;
    var events := Joined(p.conversation, p.want, q.want);
    JoinersTakeWhatIsBuilt(p.conversation, p.want, q.want);
    assert p == Request(p.conversation, p.want) && q == Request(q.conversation, q.want);
    assert IsMet(Run(START, events), 1);
  }

  /**
   Every served caller is sure to get what it asked for iff no two requests for one
   conversation differ: a caller that differs may join a build in flight.
   */
  lemma RequestsAreMetWhenTheyAgree(allowed: iset<Request>)
    ensures AlwaysMet(allowed) <==> Agree(allowed)
    ensures AlwaysMet(allowed) <==>
            forall p, q :: p in allowed && q in allowed && p.conversation == q.conversation ==> Satisfies(p.want, q.want)
  {
    hide Run, Possible;
    if Agree(allowed) {
      forall events, c | Possible(START, events) && ArrivalsFrom(events, allowed) && IsServed(Run(START, events), c)
        ensures IsMet(Run(START, events), c)
      {
        AgreedRequestsAreMet(events, c, allowed);
      }
    }
    if AlwaysMet(allowed) {
      forall p, q | p in allowed && q in allowed && p.conversation == q.conversation
        ensures p.want == q.want
      {
        AlwaysMetAgree(allowed, p, q);
        AlwaysMetAgree(allowed, q, p);
      }
    }
  }

  // ---------------------------------------------------------------- outdated agents

  /** The slot the map leads to holds a live agent, and whether its version will do. */
  predicate FindsAgent(s: State, c: nat, slot: nat, willDo: bool) {
    && At(s, c, Checking)
    && s.callers[c].conversation in s.tasks && s.tasks[s.callers[c].conversation] == slot
    && slot in s.cells && s.cells[slot].Ready?
    && WillDo(s.cells[slot].capabilities.version, s.callers[c].want.version) == willDo
  }

  /** A caller that will not come by a slot again: it is on its way to a rebuild, or the slot is out of the map. */
  predicate Avoids(s: State, c: nat, slot: nat) {
    && c in s.callers && SlotOf(s.callers[c].stage) != Some(slot) && s.callers[c].stage != Checking
    && (s.callers[c].stage == Stale || IsUnmapped(s, slot)
        || s.callers[c].stage.Failed? || s.callers[c].stage.Gone?)
  }

  predicate IsUnmapped(s: State, slot: nat) {
    forall id :: id in s.tasks ==> s.tasks[id] != slot
  }

  /** The slot is this caller's conversation's, while it is anybody's. */
  predicate IsOwnSlot(s: State, c: nat, slot: nat) {
    c in s.callers && slot in s.cells && forall id :: id in s.tasks && s.tasks[id] == slot ==> id == s.callers[c].conversation
  }

  lemma StepKeepsOwnSlot(s: State, e: Event, c: nat, slot: nat)
    requires MapFits(s) && Enabled(s, e) && IsOwnSlot(s, c, slot)
    ensures IsOwnSlot(Next(s, e), c, slot)
    ensures IsUnmapped(s, slot) ==> IsUnmapped(Next(s, e), slot)
  {
  }

  lemma StepKeepsAvoiding(s: State, e: Event, c: nat, slot: nat)
    requires MapFits(s) && Enabled(s, e) && IsOwnSlot(s, c, slot) && Avoids(s, c, slot)
    ensures Avoids(Next(s, e), c, slot)
  {
    StepKeepsOwnSlot(s, e, c, slot);
    if ActorOf(e) == Some(c) {
      ActorAvoids(s, e, c, slot);
    } else {
      OthersStay(s, e, c);
      hide Next, Enabled, MapFits, IsOwnSlot;
    }
  }

  lemma ActorAvoids(s: State, e: Event, c: nat, slot: nat)
    requires MapFits(s) && Enabled(s, e) && IsOwnSlot(s, c, slot) && Avoids(s, c, slot) && ActorOf(e) == Some(c)
    ensures Avoids(Next(s, e), c, slot)
  {
  }

  lemma {:induction false} RunKeepsAvoiding(s: State, events: seq<Event>, c: nat, slot: nat)
    requires Consistent(s) && Possible(s, events) && IsOwnSlot(s, c, slot) && Avoids(s, c, slot)
    ensures Avoids(Run(s, events), c, slot)
    decreases |events|
  {
    hide CellsFit, MapFits, AgentsDiffer, KillersFit, RemovedOnce, KilledFits, IsOwnSlot, Avoids, Next, Enabled;
    if events != [] {
      StepIsConsistent(s, events[0]);
      StepKeepsOwnSlot(s, events[0], c, slot);
      StepKeepsAvoiding(s, events[0], c, slot);
      RunKeepsAvoiding(Next(s, events[0]), events[1..], c, slot);
    }
  }

  /** A caller that finds an agent whose version will not do is never served that agent, in any interleaving. */
  lemma OutdatedAgentIsNotServed(before: seq<Event>, c: nat, slot: nat, after: seq<Event>)
    requires Possible(START, before) && FindsAgent(Run(START, before), c, slot, false)
    requires Possible(Next(Run(START, before), Check(c)), after)
    ensures var agent := Run(START, before).cells[slot].agent; var s := Run(Next(Run(START, before), Check(c)), after);
            c in s.callers && (s.callers[c].stage.Served? ==> s.callers[c].stage.agent != agent)
  {
    var s0 := Run(START, before);
    ReachedIsConsistent(before);
    var s1 := Next(s0, Check(c));
    StepIsConsistent(s0, Check(c));
    CheckAvoids(s0, c, slot);
    RunKeepsAvoiding(s1, after, c, slot);
    CellIsSetOnce(s1, after, slot);
    RunIsConsistent(s1, after);
    var s2 := Run(s1, after);
    hide Next, Enabled, MapFits, KillersFit, RemovedOnce, KilledFits;
    if s2.callers[c].stage.Served? {
      assert CallerFits(s2, c);
    }
  }

  lemma CheckAvoids(s: State, c: nat, slot: nat)
    requires MapFits(s) && FindsAgent(s, c, slot, false)
    ensures Enabled(s, Check(c)) && IsOwnSlot(Next(s, Check(c)), c, slot) && Avoids(Next(s, Check(c)), c, slot)
    ensures slot in Next(s, Check(c)).cells && Next(s, Check(c)).cells[slot] == s.cells[slot]
  {
  }

  /** A caller that finds an agent that will do goes on to enter, and has nothing rebuilt. */
  lemma {:induction false} GoodAgentIsNotRebuilt(s: State, c: nat, slot: nat, after: seq<Event>)
    requires FindsAgent(s, c, slot, true) && Possible(Next(s, Check(c)), after)
    ensures At(Next(s, Check(c)), c, Entering)
    ensures forall i :: 0 <= i < |after| ==> !(after[i].Rebuild? && after[i].c == c)
  {
    NeverRebuilds(Next(s, Check(c)), c, after);
  }

  predicate IsPastChecking(s: State, c: nat) {
    c in s.callers && s.callers[c].stage != Checking && s.callers[c].stage != Stale && !s.callers[c].stage.Stopping?
  }

  lemma {:induction false} NeverRebuilds(s: State, c: nat, events: seq<Event>)
    requires IsPastChecking(s, c) && Possible(s, events)
    ensures forall i :: 0 <= i < |events| ==> !(events[i].Rebuild? && events[i].c == c)
    decreases |events|
  {
    if events != [] {
      PastCheckingStays(s, c, events[0]);
      NeverRebuilds(Next(s, events[0]), c, events[1..]);
      hide Next, IsPastChecking, Possible;
      assert forall i :: 1 <= i < |events| ==> events[i] == events[1..][i-1];
    }
  }

  lemma PastCheckingStays(s: State, c: nat, e: Event)
    requires IsPastChecking(s, c) && Enabled(s, e)
    ensures IsPastChecking(Next(s, e), c) && !(e.Rebuild? && e.c == c)
  {
  }

  predicate FailedToStop(s: State, k: nat) {
    k in s.killers && s.killers[k].phase.Resolved? && s.killers[k].phase.failed
  }

  /** A kill counts as failed exactly when its agent would not stop. */
  lemma {:induction false} StopFailureIsHistory(s: State, events: seq<Event>, k: nat)
    requires Possible(s, events)
    ensures FailedToStop(Run(s, events), k) <==> FailedToStop(s, k) || Finish(k, true) in events
    decreases |events|
  {
    if events != [] {
      StopFailureOfStep(s, events[0], k);
      StopFailureIsHistory(Next(s, events[0]), events[1..], k);
      hide Next, Enabled, FailedToStop;
      assert Finish(k, true) in events <==> events[0] == Finish(k, true) || Finish(k, true) in events[1..];
    }
  }

  lemma StopFailureOfStep(s: State, e: Event, k: nat)
    requires Enabled(s, e)
    ensures FailedToStop(Next(s, e), k) <==> FailedToStop(s, k) || e == Finish(k, true)
  {
  }

  /**
   A caller back from its rebuild fails if the old agent would not stop, and is then never
   served; otherwise it goes on to enter.
   */
  lemma FailedRebuildIsNotServed(before: seq<Event>, c: nat, k: nat, after: seq<Event>)
    requires Possible(START, before) && At(Run(START, before), c, Stopping(k)) && Enabled(Run(START, before), Resume(c))
    requires Possible(Next(Run(START, before), Resume(c)), after)
    ensures if Finish(k, true) in before then At(Run(Next(Run(START, before), Resume(c)), after), c, Failed)
            else At(Next(Run(START, before), Resume(c)), c, Entering)
  {
    StopFailureIsHistory(START, before, k);
    if Finish(k, true) in before {
      OverStaysOver(Next(Run(START, before), Resume(c)), after, c);
    }
  }

  predicate IsPlain(s: State, k: nat) {
    k in s.killers && !s.killers[k].wait && !s.killers[k].phase.Waiting?
  }

  /** The kill of a rebuild never waits for a build, whatever it finds in the slot. */
  lemma RebuildNeverWaits(s: State, c: nat, k: nat, after: seq<Event>)
    requires Enabled(s, Rebuild(c, k)) && Possible(Next(s, Rebuild(c, k)), after)
    ensures JoinKill(k) !in after && GiveUp(k) !in after
  {
    PlainNeverWaits(Next(s, Rebuild(c, k)), k, after);
  }

  lemma {:induction false} PlainNeverWaits(s: State, k: nat, events: seq<Event>)
    requires IsPlain(s, k) && Possible(s, events)
    ensures JoinKill(k) !in events && GiveUp(k) !in events
    decreases |events|
  {
    if events != [] {
      PlainStays(s, k, events[0]);
      PlainNeverWaits(Next(s, events[0]), k, events[1..]);
      hide Next, IsPlain, Possible;
    }
  }

  lemma PlainStays(s: State, k: nat, e: Event)
    requires IsPlain(s, k) && Enabled(s, e)
    ensures IsPlain(Next(s, e), k) && e != JoinKill(k) && e != GiveUp(k)
  {
  }
}
