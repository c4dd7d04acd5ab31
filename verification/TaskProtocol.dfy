/**
 The task manager under concurrency: callers, kills and builds interleave one atomic step
 at a time. A slot is a cell that is empty, being built, or set; a conversation maps to at
 most one slot, and whoever took hold of a slot keeps it after the map has dropped it.
 */
module TaskProtocol {
  import opened Wrappers
  import opened TaskManager

  /** `owner` is the caller whose build is running, or ran, in the cell. */
  datatype Cell = Empty | Building(owner: nat) | Ready(agent: nat, capabilities: Capabilities, owner: nat)

  datatype Stage =
    | Checking
    | Stale
    | Stopping(killer: nat)
    | Entering
    | Holding(slot: nat)
    | Filling(slot: nat)
    | Served(slot: nat, agent: nat)
    | Failed
    | Gone
  {
    predicate Over() { Served? || Failed? || Gone? }
  }

  datatype Caller = Caller(conversation: string, want: Capabilities, stage: Stage)

  datatype Outcome = NothingThere | Stopped(agent: nat) | Left

  datatype Phase = Looking | Waiting | Ending(agent: nat) | Resolved(outcome: Outcome, failed: bool)

  /** A kill, plain or awaited; `seen` is the cell as it was when the slot left the map. */
  datatype Killer = Killer(wait: bool, slot: Option<nat>, seen: Cell, phase: Phase)

  datatype State = State(
    tasks: map<string, nat>,
    cells: map<nat, Cell>,
    callers: map<nat, Caller>,
    killers: map<nat, Killer>,
    agents: set<nat>,
    killed: set<nat>)

  const START := State(map[], map[], map[], map[], {}, {})

  datatype Event =
    | Arrive(c: nat, conversation: string, want: Capabilities)
    | Check(c: nat)
    | Rebuild(c: nat, k: nat)
    | Resume(c: nat)
    | Enter(c: nat, novel: nat)
    | Acquire(c: nat)
    | Built(c: nat, agent: Option<nat>)
    | Dropped(c: nat)
    | Join(c: nat)
    | Kill(k: nat, conversation: string, wait: bool)
    | Look(k: nat)
    | JoinKill(k: nat)
    | GiveUp(k: nat)
    | Finish(k: nat, failed: bool)

  // ---------------------------------------------------------------- steps

  predicate At(s: State, c: nat, stage: Stage) {
    c in s.callers && s.callers[c].stage == stage
  }

  predicate IsStale(s: State, conversation: string, want: Capabilities) {
    && conversation in s.tasks && s.tasks[conversation] in s.cells
    && s.cells[s.tasks[conversation]].Ready?
    && !Satisfies(s.cells[s.tasks[conversation]].capabilities, want)
  }

  predicate Enabled(s: State, e: Event) {
    match e
    case Arrive(c, _, _) => c !in s.callers
    case Check(c) => At(s, c, Checking)
    case Rebuild(c, k) => At(s, c, Stale) && k !in s.killers
    case Resume(c) =>
      && c in s.callers && s.callers[c].stage.Stopping?
      && s.callers[c].stage.killer in s.killers && s.killers[s.callers[c].stage.killer].phase.Resolved?
    case Enter(c, novel) => At(s, c, Entering) && novel !in s.cells
    case Acquire(c) => Holds(s, c) && s.cells[s.callers[c].stage.slot].Empty?
    case Join(c) => Holds(s, c) && s.cells[s.callers[c].stage.slot].Ready?
    case Built(c, agent) => Fills(s, c) && (agent.Some? ==> agent.value !in s.agents)
    case Dropped(c) => Fills(s, c)
    case Kill(k, _, _) => k !in s.killers
    case Look(k) => Seeks(s, k) && s.killers[k].phase.Looking?
    case JoinKill(k) => Seeks(s, k) && s.killers[k].phase.Waiting? && s.cells[s.killers[k].slot.value].Ready?
    case GiveUp(k) => Seeks(s, k) && s.killers[k].phase.Waiting? && s.cells[s.killers[k].slot.value].Empty?
    case Finish(k, _) => Seeks(s, k) && s.killers[k].phase.Ending?
  }

  predicate Holds(s: State, c: nat) {
    c in s.callers && s.callers[c].stage.Holding? && s.callers[c].stage.slot in s.cells
  }

  predicate Fills(s: State, c: nat) {
    c in s.callers && s.callers[c].stage.Filling? && s.callers[c].stage.slot in s.cells
  }

  predicate Seeks(s: State, k: nat) {
    k in s.killers && s.killers[k].slot.Some? && s.killers[k].slot.value in s.cells
  }

  function Move(s: State, c: nat, stage: Stage): State
    requires c in s.callers
  {
    s.(callers := s.callers[c := s.callers[c].(stage := stage)])
  }

  function Turn(s: State, k: nat, phase: Phase): State
    requires k in s.killers
  {
    s.(killers := s.killers[k := s.killers[k].(phase := phase)])
  }

  /** Take the slot out of the map, if there is one; what happens to its agent comes later. */
  function Remove(s: State, k: nat, conversation: string, wait: bool): State {
    if conversation in s.tasks && s.tasks[conversation] in s.cells then
      var slot := s.tasks[conversation];
      s.(tasks := s.tasks - {conversation},
         killers := s.killers[k := Killer(wait, Some(slot), s.cells[slot], Looking)])
    else s.(killers := s.killers[k := Killer(wait, None, Empty, Resolved(NothingThere, false))])
  }

  function Next(s: State, e: Event): State
    requires Enabled(s, e)
  {
    match e
    case Arrive(c, conversation, want) => s.(callers := s.callers[c := Caller(conversation, want, Checking)])
    case Check(c) => Move(s, c, if IsStale(s, s.callers[c].conversation, s.callers[c].want) then Stale else Entering)
    case Rebuild(c, k) => Move(Remove(s, k, s.callers[c].conversation, false), c, Stopping(k))
    case Resume(c) => Move(s, c, if s.killers[s.callers[c].stage.killer].phase.failed then Failed else Entering)
    case Enter(c, novel) =>
      var conversation := s.callers[c].conversation;
      if conversation in s.tasks then Move(s, c, Holding(s.tasks[conversation]))
      else Move(s.(tasks := s.tasks[conversation := novel], cells := s.cells[novel := Empty]), c, Holding(novel))
    case Acquire(c) =>
      var slot := s.callers[c].stage.slot;
      Move(s.(cells := s.cells[slot := Building(c)]), c, Filling(slot))
    case Built(c, agent) =>
      var slot := s.callers[c].stage.slot;
      if agent.Some? then
        Move(s.(cells := s.cells[slot := Ready(agent.value, s.callers[c].want, c)], agents := s.agents + {agent.value}),
             c, Served(slot, agent.value))
      else Move(s.(cells := s.cells[slot := Empty]), c, Failed)
    case Dropped(c) => Move(s.(cells := s.cells[s.callers[c].stage.slot := Empty]), c, Gone)
    case Join(c) =>
      var slot := s.callers[c].stage.slot;
      Move(s, c, Served(slot, s.cells[slot].agent))
    case Kill(k, conversation, wait) => Remove(s, k, conversation, wait)
    case Look(k) =>
      var cell := s.cells[s.killers[k].slot.value];
      Turn(s, k, if cell.Ready? then Ending(cell.agent) else if s.killers[k].wait then Waiting else Resolved(Left, false))
    case JoinKill(k) => Turn(s, k, Ending(s.cells[s.killers[k].slot.value].agent))
    case GiveUp(k) => Turn(s, k, Resolved(Left, false))
    case Finish(k, failed) =>
      var agent := s.killers[k].phase.agent;
      Turn(s, k, Resolved(Stopped(agent), failed)).(killed := s.killed + {agent})
  }

  ghost predicate Possible(s: State, events: seq<Event>)
    decreases |events|
  {
    events == [] || (Enabled(s, events[0]) && Possible(Next(s, events[0]), events[1..]))
  }

  ghost function Run(s: State, events: seq<Event>): State
    requires Possible(s, events)
    decreases |events|
  {
    if events == [] then s else Run(Next(s, events[0]), events[1..])
  }

  function SlotOf(stage: Stage): Option<nat> {
    match stage
    case Holding(slot) => Some(slot)
    case Filling(slot) => Some(slot)
    case Served(slot, _) => Some(slot)
    case _ => None
  }

  // ---------------------------------------------------------------- what every step keeps

  /** A build in flight or done is known to its caller, and the other way round. */
  predicate CellFits(s: State, slot: nat)
    requires slot in s.cells
  {
    match s.cells[slot]
    case Empty => true
    case Building(owner) => At(s, owner, Filling(slot))
    case Ready(agent, capabilities, owner) =>
      At(s, owner, Served(slot, agent)) && s.callers[owner].want == capabilities && agent in s.agents
  }

  predicate CallerFits(s: State, c: nat)
    requires c in s.callers
  {
    match s.callers[c].stage
    case Holding(slot) => slot in s.cells
    case Filling(slot) => slot in s.cells && s.cells[slot] == Building(c)
    case Served(slot, agent) => slot in s.cells && s.cells[slot].Ready? && s.cells[slot].agent == agent
    case _ => true
  }

  ghost predicate CellsFit(s: State) {
    && (forall slot :: slot in s.cells ==> CellFits(s, slot))
    && (forall c :: c in s.callers ==> CallerFits(s, c))
  }

  ghost predicate MapFits(s: State) {
    && (forall id :: id in s.tasks ==> s.tasks[id] in s.cells)
    && (forall id, other :: id in s.tasks && other in s.tasks && id != other ==> s.tasks[id] != s.tasks[other])
  }

  ghost predicate AgentsDiffer(s: State) {
    forall slot, other :: slot in s.cells && other in s.cells && slot != other && s.cells[slot].Ready? && s.cells[other].Ready?
      ==> s.cells[slot].agent != s.cells[other].agent
  }

  /** The build the kill saw in flight is still running in that slot, or its caller is through. */
  ghost predicate SawFits(s: State, slot: nat, seen: Cell)
    requires slot in s.cells
  {
    match seen
    case Empty => true
    case Building(owner) => At(s, owner, Filling(slot)) || (owner in s.callers && s.callers[owner].stage.Over())
    case Ready(_, _, _) => s.cells[slot] == seen
  }

  predicate BuiltBy(cell: Cell, owner: nat) {
    cell.Ready? && cell.owner == owner
  }

  ghost predicate PhaseFits(s: State, k: Killer, slot: nat)
    requires slot in s.cells
  {
    match k.phase
    case Looking => true
    case Waiting => k.wait && !k.seen.Ready?
    case Ending(agent) => s.cells[slot].Ready? && s.cells[slot].agent == agent
    case Resolved(NothingThere, _) => false
    case Resolved(Stopped(agent), _) => s.cells[slot].Ready? && s.cells[slot].agent == agent && agent in s.killed
    case Resolved(Left, _) =>
      && !k.seen.Ready?
      && (k.wait && k.seen.Building? ==>
            !At(s, k.seen.owner, Filling(slot)) && !BuiltBy(s.cells[slot], k.seen.owner))
  }

  ghost predicate KillerFits(s: State, k: nat)
    requires k in s.killers
  {
    var killer := s.killers[k];
    if killer.slot.Some? then
      && killer.slot.value in s.cells
      && SawFits(s, killer.slot.value, killer.seen)
      && PhaseFits(s, killer, killer.slot.value)
    else killer.phase.Resolved? && killer.phase.outcome == NothingThere
  }

  ghost predicate KillersFit(s: State) {
    forall k :: k in s.killers ==> KillerFits(s, k)
  }

  /** A slot leaves the map once, and for good. */
  ghost predicate RemovedOnce(s: State) {
    && (forall k, id :: k in s.killers && id in s.tasks ==> s.killers[k].slot != Some(s.tasks[id]))
    && (forall k, other :: k in s.killers && other in s.killers && k != other && s.killers[k].slot.Some? ==>
          s.killers[k].slot != s.killers[other].slot)
  }

  predicate HasStopped(s: State, k: nat, agent: nat) {
    k in s.killers && s.killers[k].phase.Resolved? && s.killers[k].phase.outcome == Stopped(agent)
  }

  ghost predicate KilledFits(s: State) {
    forall agent :: agent in s.killed ==> exists k :: HasStopped(s, k, agent)
  }

  ghost predicate Consistent(s: State) {
    CellsFit(s) && MapFits(s) && AgentsDiffer(s) && KillersFit(s) && RemovedOnce(s) && KilledFits(s)
  }

  /** The caller an event is about. */
  function ActorOf(e: Event): Option<nat> {
    match e
    case Kill(_, _, _) => None
    case Look(_) => None
    case JoinKill(_) => None
    case GiveUp(_) => None
    case Finish(_, _) => None
    case _ => Some(e.c)
  }

  lemma OthersStay(s: State, e: Event, c: nat)
    requires Enabled(s, e) && c in s.callers && ActorOf(e) != Some(c)
    ensures c in Next(s, e).callers && Next(s, e).callers[c] == s.callers[c]
  {
  }

  /** A step leaves a cell alone, or is about the caller the cell belongs to before or after. */
  lemma CellsStay(s: State, e: Event, slot: nat)
    requires CellsFit(s) && Enabled(s, e) && slot in s.cells
    ensures slot in Next(s, e).cells && s.agents <= Next(s, e).agents
    ensures Next(s, e).cells[slot] == s.cells[slot] || (ActorOf(e).Some? && e.c in s.callers
              && (s.callers[e.c].stage == Holding(slot) || s.callers[e.c].stage == Filling(slot)))
  {
    hide CellFits, CallerFits;
  }

  lemma StepKeepsCell(s: State, e: Event, slot: nat)
    requires CellsFit(s) && Enabled(s, e) && slot in Next(s, e).cells
    ensures CellFits(Next(s, e), slot)
  {
    if slot in s.cells {
      assert CellFits(s, slot);
      CellsStay(s, e, slot);
      var cell := s.cells[slot];
      if !cell.Empty? && Next(s, e).cells[slot] == cell && ActorOf(e) != Some(cell.owner) {
        hide CellsFit, Next, Enabled;
        OthersStay(s, e, cell.owner);
      } else {
        ActorKeepsCell(s, e, slot);
      }
    } else {
      NewCellIsEmpty(s, e, slot);
    }
  }

  lemma NewCellIsEmpty(s: State, e: Event, slot: nat)
    requires Enabled(s, e) && slot in Next(s, e).cells && slot !in s.cells
    ensures Next(s, e).cells[slot].Empty?
  {
  }

  lemma ActorKeepsCell(s: State, e: Event, slot: nat)
    requires CellsFit(s) && Enabled(s, e) && slot in s.cells && slot in Next(s, e).cells
    requires s.cells[slot].Empty? || Next(s, e).cells[slot] != s.cells[slot] || ActorOf(e) == Some(s.cells[slot].owner)
    ensures CellFits(Next(s, e), slot)
  {
    assert CellFits(s, slot);
    hide CellsFit;
  }

  lemma StepKeepsCaller(s: State, e: Event, c: nat)
    requires CellsFit(s) && MapFits(s) && Enabled(s, e) && c in Next(s, e).callers
    ensures CallerFits(Next(s, e), c)
  {
    if c in s.callers {
      assert CallerFits(s, c);
      if ActorOf(e) != Some(c) {
        OtherKeepsFit(s, e, c);
      } else {
        ActorKeepsFit(s, e, c);
      }
    } else {
      ArrivalFits(s, e, c);
    }
  }

  lemma ArrivalFits(s: State, e: Event, c: nat)
    requires Enabled(s, e) && c in Next(s, e).callers && c !in s.callers
    ensures CallerFits(Next(s, e), c)
  {
  }

  lemma OtherKeepsFit(s: State, e: Event, c: nat)
    requires CellsFit(s) && Enabled(s, e) && c in s.callers && c in Next(s, e).callers && ActorOf(e) != Some(c)
    ensures CallerFits(Next(s, e), c)
  {
    assert CallerFits(s, c);
    OthersStay(s, e, c);
    var slot := SlotOf(s.callers[c].stage);
    if slot.Some? {
      CellsStay(s, e, slot.value);
      if s.cells[slot.value].Building? {
        BuildersCell(s, e, slot.value);
      } else if s.cells[slot.value].Ready? {
        ReadyStays(s, e, slot.value);
      }
    }
    hide CellsFit, Next, Enabled;
  }

  lemma BuildersCell(s: State, e: Event, slot: nat)
    requires CellsFit(s) && Enabled(s, e) && slot in s.cells && s.cells[slot].Building?
    ensures slot in Next(s, e).cells && (ActorOf(e) != Some(s.cells[slot].owner) ==> Next(s, e).cells[slot] == s.cells[slot])
  {
    CellsStay(s, e, slot);
    assert forall c :: c in s.callers ==> CallerFits(s, c);
    assert CellFits(s, slot);
  }

  lemma ReadyStays(s: State, e: Event, slot: nat)
    requires CellsFit(s) && Enabled(s, e) && slot in s.cells && s.cells[slot].Ready?
    ensures slot in Next(s, e).cells && Next(s, e).cells[slot] == s.cells[slot]
  {
    assert forall c :: c in s.callers ==> CallerFits(s, c);
  }

  lemma ActorKeepsFit(s: State, e: Event, c: nat)
    requires CellsFit(s) && MapFits(s) && Enabled(s, e) && c in s.callers && c in Next(s, e).callers && ActorOf(e) == Some(c)
    ensures CallerFits(Next(s, e), c)
  {
    assert CallerFits(s, c);
    hide CellsFit;
  }

  lemma StepKeepsCells(s: State, e: Event)
    requires CellsFit(s) && MapFits(s) && Enabled(s, e)
    ensures CellsFit(Next(s, e))
  {
    hide CellFits, CallerFits, Next, Enabled, MapFits;
    var s' := Next(s, e);
    forall slot | slot in s'.cells ensures CellFits(s', slot) {
      StepKeepsCell(s, e, slot);
    }
    forall c | c in s'.callers ensures CallerFits(s', c) {
      StepKeepsCaller(s, e, c);
    }
  }

  lemma StepKeepsMap(s: State, e: Event)
    requires MapFits(s) && Enabled(s, e)
    ensures MapFits(Next(s, e))
  {
  }

  lemma StepKeepsAgentsApart(s: State, e: Event)
    requires CellsFit(s) && AgentsDiffer(s) && Enabled(s, e)
    ensures AgentsDiffer(Next(s, e))
  {
    hide CallerFits;
    assert forall slot :: slot in s.cells ==> CellFits(s, slot);
  }

  predicate IsOver(s: State, c: nat) {
    c in s.callers && s.callers[c].stage.Over()
  }

  /** A set cell stays set, a caller that is through stays so, and only a running build sets a cell. */
  lemma SlotMovesOn(s: State, e: Event, slot: nat, owner: nat)
    requires CellsFit(s) && Enabled(s, e) && slot in s.cells
    ensures var s' := Next(s, e);
            && slot in s'.cells
            && (s.cells[slot].Ready? ==> s'.cells[slot] == s.cells[slot])
            && (IsOver(s, owner) ==> IsOver(s', owner) && s'.callers[owner] == s.callers[owner])
            && (At(s, owner, Filling(slot)) ==> At(s', owner, Filling(slot)) || IsOver(s', owner))
            && (BuiltBy(s'.cells[slot], owner) ==> BuiltBy(s.cells[slot], owner) || At(s, owner, Filling(slot)))
            && s.killed <= s'.killed
  {
    assert CellFits(s, slot);
    assert owner in s.callers ==> CallerFits(s, owner);
  }

  lemma OtherKillersStay(s: State, e: Event, k: nat)
    requires CellsFit(s) && MapFits(s) && KillersFit(s) && Enabled(s, e) && k in s.killers
    requires Next(s, e).killers[k] == s.killers[k]
    ensures KillerFits(Next(s, e), k)
  {
    hide Next, Enabled, CellsFit, MapFits;
    assert KillerFits(s, k);
    var killer := s.killers[k];
    if killer.slot.Some? {
      SlotMovesOn(s, e, killer.slot.value, if killer.seen.Building? then killer.seen.owner else 0);
    }
  }

  lemma ActingKillerFits(s: State, e: Event, k: nat)
    requires CellsFit(s) && MapFits(s) && KillersFit(s) && Enabled(s, e) && k in Next(s, e).killers
    requires k in s.killers ==> Next(s, e).killers[k] != s.killers[k]
    ensures KillerFits(Next(s, e), k)
  {
    if k in s.killers {
      assert KillerFits(s, k);
    } else {
      var killer := Next(s, e).killers[k];
      assert killer.slot.Some? ==> CellFits(s, killer.slot.value);
    }
  }

  lemma StepKeepsKiller(s: State, e: Event, k: nat)
    requires CellsFit(s) && MapFits(s) && KillersFit(s) && Enabled(s, e) && k in Next(s, e).killers
    ensures KillerFits(Next(s, e), k)
  {
    hide *;
    if k in s.killers && Next(s, e).killers[k] == s.killers[k] {
      OtherKillersStay(s, e, k);
    } else {
      ActingKillerFits(s, e, k);
    }
  }

  lemma StepKeepsKillers(s: State, e: Event)
    requires CellsFit(s) && MapFits(s) && KillersFit(s) && Enabled(s, e)
    ensures KillersFit(Next(s, e))
  {
    hide CellsFit, KillerFits, Next, Enabled, MapFits;
    var s' := Next(s, e);
    forall k | k in s'.killers ensures KillerFits(s', k) {
      StepKeepsKiller(s, e, k);
    }
  }

  lemma SlotStaysOut(s: State, e: Event, k: nat, id: string)
    requires MapFits(s) && KillersFit(s) && RemovedOnce(s) && Enabled(s, e)
    requires k in Next(s, e).killers && id in Next(s, e).tasks
    ensures Next(s, e).killers[k].slot != Some(Next(s, e).tasks[id])
  {
    hide SawFits, PhaseFits;
    assert k in s.killers ==> KillerFits(s, k);
  }

  lemma SlotIsTakenOnce(s: State, e: Event, k: nat, other: nat)
    requires KillersFit(s) && RemovedOnce(s) && Enabled(s, e)
    requires k in Next(s, e).killers && other in Next(s, e).killers && k != other && Next(s, e).killers[k].slot.Some?
    ensures Next(s, e).killers[k].slot != Next(s, e).killers[other].slot
  {
    hide KillersFit;
  }

  lemma StepKeepsRemovals(s: State, e: Event)
    requires MapFits(s) && KillersFit(s) && RemovedOnce(s) && Enabled(s, e)
    ensures RemovedOnce(Next(s, e))
  {
    hide MapFits, KillersFit, Enabled, Next;
    var s' := Next(s, e);
    forall k, id | k in s'.killers && id in s'.tasks ensures s'.killers[k].slot != Some(s'.tasks[id]) {
      SlotStaysOut(s, e, k, id);
    }
    forall k, other | k in s'.killers && other in s'.killers && k != other && s'.killers[k].slot.Some?
      ensures s'.killers[k].slot != s'.killers[other].slot
    {
      SlotIsTakenOnce(s, e, k, other);
    }
  }

  lemma StepKeepsKilled(s: State, e: Event)
    requires KilledFits(s) && Enabled(s, e)
    ensures KilledFits(Next(s, e))
  {
    var s' := Next(s, e);
    forall agent | agent in s'.killed ensures exists k :: HasStopped(s', k, agent) {
      if agent in s.killed {
        var k :| HasStopped(s, k, agent);
        assert HasStopped(s', k, agent);
      } else {
        assert HasStopped(s', e.k, agent);
      }
    }
  }

  lemma StepIsConsistent(s: State, e: Event)
    requires Consistent(s) && Enabled(s, e)
    ensures Consistent(Next(s, e))
  {
    StepKeepsCells(s, e);
    StepKeepsMap(s, e);
    StepKeepsAgentsApart(s, e);
    StepKeepsKillers(s, e);
    StepKeepsRemovals(s, e);
    StepKeepsKilled(s, e);
  }

  lemma {:induction false} RunIsConsistent(s: State, events: seq<Event>)
    requires Consistent(s) && Possible(s, events)
    ensures Consistent(Run(s, events))
    decreases |events|
  {
    hide Consistent, Next, Enabled;
    if events != [] {
      StepIsConsistent(s, events[0]);
      RunIsConsistent(Next(s, events[0]), events[1..]);
    }
  }

  lemma StartIsConsistent()
    ensures Consistent(START)
  {
  }

  lemma ReachedIsConsistent(events: seq<Event>)
    requires Possible(START, events)
    ensures Consistent(Run(START, events))
  {
    StartIsConsistent();
    RunIsConsistent(START, events);
  }

  // ---------------------------------------------------------------- one build per slot

  /** Once set, a cell keeps its agent for the rest of every run. */
  lemma {:induction false} CellIsSetOnce(s: State, events: seq<Event>, slot: nat)
    requires Consistent(s) && Possible(s, events) && slot in s.cells && s.cells[slot].Ready?
    ensures slot in Run(s, events).cells && Run(s, events).cells[slot] == s.cells[slot]
    decreases |events|
  {
    hide CellsFit, MapFits, Next, Enabled, KillersFit, AgentsDiffer, RemovedOnce, KilledFits;
    if events != [] {
      SlotMovesOn(s, events[0], slot, 0);
      StepIsConsistent(s, events[0]);
      CellIsSetOnce(Next(s, events[0]), events[1..], slot);
    }
  }

  /**
   Two callers served from one slot have the same agent, and it was built by one of the
   slot's callers for the capabilities that caller asked for.
   */
  lemma SlotServesOneAgent(events: seq<Event>, c: nat, d: nat)
    requires Possible(START, events)
    requires var s := Run(START, events);
             && c in s.callers && d in s.callers && s.callers[c].stage.Served? && s.callers[d].stage.Served?
             && s.callers[c].stage.slot == s.callers[d].stage.slot
    ensures var s := Run(START, events);
            && s.callers[c].stage.agent == s.callers[d].stage.agent
            && s.callers[c].stage.slot in s.cells
            && exists owner :: At(s, owner, s.callers[c].stage)
                 && s.cells[s.callers[c].stage.slot] == Ready(s.callers[c].stage.agent, s.callers[owner].want, owner)
  {
    ReachedIsConsistent(events);
    var s := Run(START, events);
    assert CallerFits(s, c) && CallerFits(s, d);
    var slot := s.callers[c].stage.slot;
    assert CellFits(s, slot);
    assert At(s, s.cells[slot].owner, s.callers[c].stage);
  }

  // ---------------------------------------------------------------- one agent per conversation

  predicate Removes(s: State, e: Event, conversation: string) {
    || (e.Kill? && e.conversation == conversation)
    || (e.Rebuild? && e.c in s.callers && s.callers[e.c].conversation == conversation)
  }

  ghost predicate Undisturbed(s: State, events: seq<Event>, conversation: string)
    requires Possible(s, events)
    decreases |events|
  {
    events == [] || (!Removes(s, events[0], conversation) && Undisturbed(Next(s, events[0]), events[1..], conversation))
  }

  lemma {:induction false} MappedSlotStays(s: State, events: seq<Event>, conversation: string)
    requires Possible(s, events) && Undisturbed(s, events, conversation) && conversation in s.tasks
    ensures conversation in Run(s, events).tasks && Run(s, events).tasks[conversation] == s.tasks[conversation]
    decreases |events|
  {
    if events != [] {
      MappedSlotStays(Next(s, events[0]), events[1..], conversation);
    }
  }

  lemma {:induction false} CallerKeepsItsSlot(s: State, events: seq<Event>, c: nat)
    requires Possible(s, events) && c in s.callers && SlotOf(s.callers[c].stage).Some?
    ensures var s' := Run(s, events);
            c in s'.callers && (SlotOf(s'.callers[c].stage) == SlotOf(s.callers[c].stage) || s'.callers[c].stage.Failed? || s'.callers[c].stage.Gone?)
    decreases |events|
  {
    if events != [] && !s.callers[c].stage.Over() {
      var s' := Next(s, events[0]);
      if SlotOf(s'.callers[c].stage).Some? {
        CallerKeepsItsSlot(s', events[1..], c);
      } else {
        OverStaysOver(s', events[1..], c);
      }
    } else if events != [] {
      OverStaysOver(s, events, c);
    }
  }

  lemma {:induction false} OverStaysOver(s: State, events: seq<Event>, c: nat)
    requires Possible(s, events) && IsOver(s, c)
    ensures c in Run(s, events).callers && Run(s, events).callers[c] == s.callers[c]
    decreases |events|
  {
    if events != [] {
      OverStaysOver(Next(s, events[0]), events[1..], c);
    }
  }

  /**
   Callers that enter a conversation with no kill or rebuild of it in between get one and
   the same agent, whatever else runs and whatever happens to the slot later.
   */
  lemma OneAgentBetweenKills(before: seq<Event>, c: nat, n: nat, between: seq<Event>, d: nat, m: nat, after: seq<Event>)
    requires Possible(START, before) && Enabled(Run(START, before), Enter(c, n))
    requires var s := Next(Run(START, before), Enter(c, n));
             && Possible(s, between) && Undisturbed(s, between, s.callers[c].conversation)
             && Enabled(Run(s, between), Enter(d, m))
             && Run(s, between).callers[d].conversation == s.callers[c].conversation
             && Possible(Next(Run(s, between), Enter(d, m)), after)
    ensures var s := Run(Next(Run(Next(Run(START, before), Enter(c, n)), between), Enter(d, m)), after);
            && c in s.callers && d in s.callers
            && (s.callers[c].stage.Served? && s.callers[d].stage.Served? ==> s.callers[c].stage.agent == s.callers[d].stage.agent)
  {
    var s0 := Run(START, before);
    var s1 := Next(s0, Enter(c, n));
    var s2 := Run(s1, between);
    ReachedIsConsistent(before);
    StepIsConsistent(s0, Enter(c, n));
    RunIsConsistent(s1, between);
    EntersTheMappedSlot(s0, c, n);
    EntersTheMappedSlot(s2, d, m);
    hide Next, Enabled, Consistent, Possible, Run, Undisturbed;
    MappedSlotStays(s1, between, s1.callers[c].conversation);
    CallerKeepsItsSlot(s1, between, c);
    EnterMovesOnlyItsCaller(s2, d, m, c);
    StepIsConsistent(s2, Enter(d, m));
    SameSlotSameAgent(Next(s2, Enter(d, m)), after, c, d);
  }

  lemma SameSlotSameAgent(s: State, events: seq<Event>, c: nat, d: nat)
    requires Consistent(s) && Possible(s, events) && c in s.callers && d in s.callers
    requires SlotOf(s.callers[d].stage).Some?
    requires SlotOf(s.callers[c].stage) == SlotOf(s.callers[d].stage) || s.callers[c].stage.Failed? || s.callers[c].stage.Gone?
    ensures var s' := Run(s, events);
            && c in s'.callers && d in s'.callers
            && (s'.callers[c].stage.Served? && s'.callers[d].stage.Served? ==> s'.callers[c].stage.agent == s'.callers[d].stage.agent)
  {
    hide Next, Enabled, Possible, Run;
    RunIsConsistent(s, events);
    CallerKeepsItsSlot(s, events, d);
    if SlotOf(s.callers[c].stage).Some? {
      CallerKeepsItsSlot(s, events, c);
    } else {
      OverStaysOver(s, events, c);
    }
    var s' := Run(s, events);
    assert CallerFits(s', c) && CallerFits(s', d);
  }

  lemma EntersTheMappedSlot(s: State, c: nat, n: nat)
    requires Enabled(s, Enter(c, n))
    ensures var s' := Next(s, Enter(c, n)); var id := s.callers[c].conversation;
            && id in s'.tasks && At(s', c, Holding(s'.tasks[id])) && s'.callers[c].conversation == id
            && (id in s.tasks ==> s'.tasks[id] == s.tasks[id])
  {
  }

  lemma EnterMovesOnlyItsCaller(s: State, d: nat, m: nat, c: nat)
    requires Enabled(s, Enter(d, m)) && c in s.callers && c != d
    ensures c in Next(s, Enter(d, m)).callers && Next(s, Enter(d, m)).callers[c] == s.callers[c]
  {
  }

  ghost predicate OneSlot(s: State, conversation: string) {
    forall c :: c in s.callers && s.callers[c].conversation == conversation && SlotOf(s.callers[c].stage).Some? ==>
      conversation in s.tasks && Some(s.tasks[conversation]) == SlotOf(s.callers[c].stage)
  }

  lemma {:induction false} UndisturbedKeepsOneSlot(s: State, events: seq<Event>, conversation: string)
    requires Possible(s, events) && Undisturbed(s, events, conversation) && OneSlot(s, conversation)
    ensures OneSlot(Run(s, events), conversation)
    decreases |events|
  {
    if events != [] {
      UndisturbedKeepsOneSlot(Next(s, events[0]), events[1..], conversation);
    }
  }

  /** A conversation that is never killed or rebuilt has one agent for all its callers. */
  lemma OneAgentWithoutKills(events: seq<Event>, conversation: string, c: nat, d: nat)
    requires Possible(START, events) && Undisturbed(START, events, conversation)
    requires var s := Run(START, events);
             && c in s.callers && d in s.callers && s.callers[c].stage.Served? && s.callers[d].stage.Served?
             && s.callers[c].conversation == conversation == s.callers[d].conversation
    ensures Run(START, events).callers[c].stage == Run(START, events).callers[d].stage
  {
    UndisturbedKeepsOneSlot(START, events, conversation);
    ReachedIsConsistent(events);
    var s := Run(START, events);
    assert CallerFits(s, c) && CallerFits(s, d);
  }

  // ---------------------------------------------------------------- what a kill reaches

  lemma {:induction false} KillRemembers(s: State, events: seq<Event>, k: nat)
    requires Possible(s, events) && k in s.killers
    ensures var s' := Run(s, events);
            && k in s'.killers && s'.killers[k] == s.killers[k].(phase := s'.killers[k].phase)
    decreases |events|
  {
    if events != [] {
      KillRemembers(Next(s, events[0]), events[1..], k);
    }
  }

  /**
   An awaited kill that takes away a slot while `owner` is building in it does not resolve
   before that build is over, and if the build succeeded its agent has been told to stop.
   */
  lemma AwaitedKillReachesTheBuild(before: seq<Event>, k: nat, conversation: string, owner: nat, after: seq<Event>)
    requires Possible(START, before) && Enabled(Run(START, before), Kill(k, conversation, true))
    requires var s := Run(START, before);
             && conversation in s.tasks && s.tasks[conversation] in s.cells
             && s.cells[s.tasks[conversation]] == Building(owner)
    requires Possible(Next(Run(START, before), Kill(k, conversation, true)), after)
    ensures var s := Run(Next(Run(START, before), Kill(k, conversation, true)), after);
            && k in s.killers
            && (s.killers[k].phase.Resolved? ==>
                  && IsOver(s, owner)
                  && (s.callers[owner].stage.Served? ==> s.callers[owner].stage.agent in s.killed))
  {
    var s0 := Run(START, before);
    var slot := s0.tasks[conversation];
    ReachedIsConsistent(before);
    assert CellFits(s0, slot);
    var s1 := Next(s0, Kill(k, conversation, true));
    StepIsConsistent(s0, Kill(k, conversation, true));
    RunIsConsistent(s1, after);
    KillRemembers(s1, after, k);
    BuilderStaysInItsSlot(s1, after, owner, slot);
    var s2 := Run(s1, after);
    assert KillerFits(s2, k);
    if s2.killers[k].phase.Resolved? && IsOver(s2, owner) && s2.callers[owner].stage.Served? {
      assert CallerFits(s2, owner);
    }
  }

  /** A caller that is building is served, if at all, with the agent it built itself. */
  lemma {:induction false} BuilderStaysInItsSlot(s: State, events: seq<Event>, owner: nat, slot: nat)
    requires Consistent(s) && Possible(s, events)
    requires At(s, owner, Filling(slot)) || IsOver(s, owner)
    requires IsOver(s, owner) && s.callers[owner].stage.Served? ==>
               s.callers[owner].stage.slot == slot && slot in s.cells && BuiltBy(s.cells[slot], owner)
    ensures var s' := Run(s, events);
            && (At(s', owner, Filling(slot)) || IsOver(s', owner))
            && (IsOver(s', owner) && s'.callers[owner].stage.Served? ==>
                  s'.callers[owner].stage.slot == slot && slot in s'.cells && BuiltBy(s'.cells[slot], owner))
    decreases |events|
  {
    hide KillersFit, AgentsDiffer, RemovedOnce, KilledFits, MapFits;
    if events != [] {
      StepIsConsistent(s, events[0]);
      if At(s, owner, Filling(slot)) {
        assert CallerFits(s, owner);
      }
      SlotMovesOnAsNeeded(s, events[0], owner, slot);
      BuilderStaysInItsSlot(Next(s, events[0]), events[1..], owner, slot);
    }
  }

  lemma SlotMovesOnAsNeeded(s: State, e: Event, owner: nat, slot: nat)
    requires CellsFit(s) && Enabled(s, e)
    requires At(s, owner, Filling(slot)) || IsOver(s, owner)
    requires IsOver(s, owner) && s.callers[owner].stage.Served? ==>
               s.callers[owner].stage.slot == slot && slot in s.cells && BuiltBy(s.cells[slot], owner)
    ensures var s' := Next(s, e);
            && (At(s', owner, Filling(slot)) || IsOver(s', owner))
            && (IsOver(s', owner) && s'.callers[owner].stage.Served? ==>
                  s'.callers[owner].stage.slot == slot && slot in s'.cells && BuiltBy(s'.cells[slot], owner))
  {
    assert owner in s.callers && CallerFits(s, owner);
    if slot in s.cells {
      assert CellFits(s, slot);
    }
  }

  /** An agent the map still leads to has not been told to stop. */
  lemma MappedAgentsLive(events: seq<Event>, conversation: string)
    requires Possible(START, events)
    requires var s := Run(START, events);
             conversation in s.tasks && s.tasks[conversation] in s.cells && s.cells[s.tasks[conversation]].Ready?
    ensures var s := Run(START, events); s.cells[s.tasks[conversation]].agent !in s.killed
  {
    ReachedIsConsistent(events);
    var s := Run(START, events);
    var agent := s.cells[s.tasks[conversation]].agent;
    hide CellsFit, MapFits, KillersFit, AgentsDiffer, RemovedOnce, HasStopped;
    forall k ensures !HasStopped(s, k, agent) {
      NoKillStoppedIt(s, conversation, k);
    }
  }

  lemma NoKillStoppedIt(s: State, conversation: string, k: nat)
    requires Consistent(s)
    requires conversation in s.tasks && s.tasks[conversation] in s.cells && s.cells[s.tasks[conversation]].Ready?
    ensures !HasStopped(s, k, s.cells[s.tasks[conversation]].agent)
  {
    assert k in s.killers ==> KillerFits(s, k) && s.killers[k].slot != Some(s.tasks[conversation]);
  }

  // ---------------------------------------------------------------- orphans

  ghost predicate Mapped(s: State, slot: nat) {
    exists id :: id in s.tasks && s.tasks[id] == slot
  }

  predicate Took(s: State, k: nat, slot: nat) {
    k in s.killers && s.killers[k].slot == Some(slot)
  }

  ghost predicate SlotsAreAccounted(s: State) {
    forall slot :: slot in s.cells ==> Mapped(s, slot) || exists k :: Took(s, k, slot)
  }

  lemma StepKeepsAccount(s: State, e: Event)
    requires MapFits(s) && SlotsAreAccounted(s) && Enabled(s, e)
    ensures SlotsAreAccounted(Next(s, e))
  {
    var s' := Next(s, e);
    forall slot | slot in s'.cells ensures Mapped(s', slot) || exists k :: Took(s', k, slot) {
      if slot !in s.cells {
        assert s'.tasks[s.callers[e.c].conversation] == slot;
      } else if Mapped(s, slot) {
        var id :| id in s.tasks && s.tasks[id] == slot;
        if id in s'.tasks {
          assert s'.tasks[id] == slot;
        } else {
          assert Took(s', e.k, slot);
        }
      } else {
        var k :| Took(s, k, slot);
        assert Took(s', k, slot);
      }
    }
  }

  lemma {:induction false} RunKeepsAccount(s: State, events: seq<Event>)
    requires Consistent(s) && SlotsAreAccounted(s) && Possible(s, events)
    ensures SlotsAreAccounted(Run(s, events))
    decreases |events|
  {
    hide CellsFit, Next, Enabled, KillersFit, AgentsDiffer, RemovedOnce, KilledFits, SlotsAreAccounted, MapFits;
    if events != [] {
      StepIsConsistent(s, events[0]);
      StepKeepsAccount(s, events[0]);
      RunKeepsAccount(Next(s, events[0]), events[1..]);
    }
  }

  /**
   Where every built agent stands: still in the map and running, or taken away by exactly
   one kill, which has told it to stop unless it is under way or let go of the cell before
   the agent was in it.
   */
  lemma AgentFate(events: seq<Event>, slot: nat)
    requires Possible(START, events)
    requires slot in Run(START, events).cells && Run(START, events).cells[slot].Ready?
    ensures var s := Run(START, events); var agent := s.cells[slot].agent;
            || (Mapped(s, slot) && agent !in s.killed && !exists k :: Took(s, k, slot))
            || (!Mapped(s, slot) && exists k :: Took(s, k, slot) && (agent in s.killed <==> HasStopped(s, k, agent)))
  {
    ReachedIsConsistent(events);
    RunKeepsAccount(START, events);
    var s := Run(START, events);
    var agent := s.cells[slot].agent;
    if Mapped(s, slot) {
      var id :| id in s.tasks && s.tasks[id] == slot;
      MappedAgentsLive(events, id);
    } else {
      var k :| Took(s, k, slot);
      StoppedByItsKiller(s, k, slot);
    }
  }

  lemma StoppedByItsKiller(s: State, k: nat, slot: nat)
    requires Consistent(s) && Took(s, k, slot) && slot in s.cells && s.cells[slot].Ready?
    ensures s.cells[slot].agent in s.killed <==> HasStopped(s, k, s.cells[slot].agent)
  {
    var agent := s.cells[slot].agent;
    assert KillerFits(s, k);
    if agent in s.killed {
      var other :| HasStopped(s, other, agent);
      assert KillerFits(s, other);
    }
  }

  // ---------------------------------------------------------------- what a kill misses

  /** A plain kill that looks while `owner` is still building never stops the agent of that build. */
  lemma PlainKillMissesTheBuild(before: seq<Event>, k: nat, slot: nat, owner: nat, after: seq<Event>)
    requires Possible(START, before)
    requires var s := Run(START, before);
             && Enabled(s, Look(k)) && !s.killers[k].wait && Took(s, k, slot)
             && slot in s.cells && s.cells[slot] == Building(owner)
    requires Possible(Next(Run(START, before), Look(k)), after)
    ensures var s := Run(Next(Run(START, before), Look(k)), after);
            && owner in s.callers
            && (s.callers[owner].stage.Served? ==> s.callers[owner].stage.agent !in s.killed)
  {
    var s0 := Run(START, before);
    ReachedIsConsistent(before);
    assert CellFits(s0, slot);
    var s1 := Next(s0, Look(k));
    StepIsConsistent(s0, Look(k));
    RunIsConsistent(s1, after);
    ResolvedStays(s1, after, k);
    BuilderStaysInItsSlot(s1, after, owner, slot);
    var s2 := Run(s1, after);
    if s2.callers[owner].stage.Served? {
      assert CallerFits(s2, owner);
      StoppedByItsKiller(s2, k, slot);
    }
  }

  lemma {:induction false} ResolvedStays(s: State, events: seq<Event>, k: nat)
    requires Possible(s, events) && k in s.killers && s.killers[k].phase.Resolved?
    ensures k in Run(s, events).killers && Run(s, events).killers[k] == s.killers[k]
    decreases |events|
  {
    if events != [] {
      ResolvedStays(Next(s, events[0]), events[1..], k);
    }
  }
}
