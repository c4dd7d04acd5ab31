/**
 The progress ledger of one background container.

 A `Card` is the value a ledger holds, the functions on it say what each operation
 of the ledger does, and the class `WorkflowCard` performs the operations in place.
 The words a card shows are the business of a `Style`; ids, statuses, order and the
 decision to emit are not.
 */
module WorkflowProgress {
  import opened Wrappers

  const THROTTLE_MS := 500

  datatype LoopState = Start | InProgress | Done

  datatype CardStatus = Running | Completed | Errored | Cancelled

  datatype CardKind = Workflow | BackgroundTask

  datatype ToolStatus = ToolRunning | ToolCompleted | ToolError | ToolCanceled

  /** Arguments of a tool call; only two members are ever looked at. */
  datatype Args = Null | Json(raw: string, description: Option<string>, command: Option<string>)

  /** What is known about one agent. A detail event has the same optional fields. */
  datatype AgentEntry = AgentEntry(
    agentLabel: Option<string>,
    phaseIndex: Option<nat>,
    phaseTitle: Option<string>,
    model: Option<string>,
    loopState: Option<LoopState>,
    tokens: Option<nat>,
    toolCalls: Option<nat>,
    lastToolName: Option<string>,
    lastToolSummary: Option<string>,
    durationMs: Option<nat>)

  type AgentDetail = AgentEntry

  const BLANK_ENTRY := AgentEntry(None, None, None, None, None, None, None, None, None, None)

  datatype Agent = Agent(ref: string, entry: AgentEntry)

  datatype EntryStatus = Executing | Success

  datatype GroupEntry = GroupEntry(callId: string, name: string, status: EntryStatus, description: string)

  datatype ToolData = ToolData(
    callId: string, name: string, args: Args, status: ToolStatus,
    input: Option<Args>, output: Option<string>, description: Option<string>)

  datatype Rendered = Rendered(description: string, output: string, entries: seq<GroupEntry>)

  datatype Ledger = Ledger(
    kind: CardKind,
    taskId: string,
    desc: Option<string>,
    callId: string,
    toolName: string,
    args: Args,
    startedAt: int,
    phases: map<nat, string>,
    agents: seq<Agent>,
    status: CardStatus,
    lastTouched: Option<string>)

  datatype Card = Card(ledger: Ledger, lastRender: Option<Rendered>, lastEmit: Option<int>)

  /** The wording of a card: title row, expanded tree, and one agent's row. */
  datatype Style = Style(
    headline: (Ledger, nat) -> string,
    tree: Ledger -> string,
    agentLine: (Ledger, AgentEntry) -> string)

  /** What one emission hands to the wire. */
  datatype Emission = Emission(data: ToolData, entries: seq<GroupEntry>)

  datatype Taken = Taken(card: Card, sent: Option<Emission>)

  // ---------------------------------------------------------------- operations

  function NewCard(kind: CardKind, taskId: string, desc: Option<string>,
                   callId: string, toolName: string, args: Args, now: int): Card
  {
    Card(Ledger(kind, taskId, desc, callId, toolName, args, now, map[], [], Running, None), None, None)
  }

  function AsToolStatus(status: CardStatus): ToolStatus {
    match status
    case Running => ToolRunning
    case Completed => ToolCompleted
    case Errored => ToolError
    case Cancelled => ToolCanceled
  }

  predicate IsDone(e: AgentEntry) {
    e.loopState == Some(Done)
  }

  function Merge(e: AgentEntry, d: AgentDetail): AgentEntry {
    AgentEntry(
      Or(d.agentLabel, e.agentLabel), Or(d.phaseIndex, e.phaseIndex), Or(d.phaseTitle, e.phaseTitle),
      Or(d.model, e.model), Or(d.loopState, e.loopState), Or(d.tokens, e.tokens),
      Or(d.toolCalls, e.toolCalls), Or(d.lastToolName, e.lastToolName),
      Or(d.lastToolSummary, e.lastToolSummary), Or(d.durationMs, e.durationMs))
  }

  /** Where an agent sits in the roster; the length of the roster when it is unknown. */
  function Position(agents: seq<Agent>, ref: string): (i: nat)
    ensures i <= |agents|
    ensures i < |agents| ==> agents[i].ref == ref
    ensures forall j :: 0 <= j < i ==> agents[j].ref != ref
  {
    if agents == [] || agents[0].ref == ref then 0 else 1 + Position(agents[1..], ref)
  }

  function Upsert(l: Ledger, ref: string, d: AgentDetail): Ledger {
    var i := Position(l.agents, ref);
    l.(lastTouched := Some(ref),
       agents := if i < |l.agents|
                 then l.agents[i := Agent(ref, Merge(l.agents[i].entry, d))]
                 else l.agents + [Agent(ref, Merge(BLANK_ENTRY, d))])
  }

  /** A new agent, or one that reached another loop state, is not throttled. */
  predicate UpsertForces(l: Ledger, ref: string, d: AgentDetail) {
    var i := Position(l.agents, ref);
    i < |l.agents| ==> l.agents[i].entry.loopState != Or(d.loopState, l.agents[i].entry.loopState)
  }

  function DeclarePhase(l: Ledger, index: nat, title: string): Ledger {
    l.(phases := l.phases[index := title])
  }

  function CloseAgent(a: Agent): Agent {
    if IsDone(a.entry) then a else a.(entry := a.entry.(loopState := Some(Done)))
  }

  function Settle(l: Ledger, status: CardStatus): Ledger {
    l.(status := status, agents := seq(|l.agents|, i requires 0 <= i < |l.agents| => CloseAgent(l.agents[i])))
  }

  function EntryId(callId: string, ref: string): string {
    callId + ":" + ref
  }

  function RenderEntry(style: Style, l: Ledger, a: Agent): GroupEntry {
    GroupEntry(
      EntryId(l.callId, a.ref),
      if a.entry.agentLabel.Some? then a.entry.agentLabel.value else a.ref,
      if IsDone(a.entry) then Success else Executing,
      style.agentLine(l, a.entry))
  }

  function RenderEntries(style: Style, l: Ledger): seq<GroupEntry> {
    seq(|l.agents|, i requires 0 <= i < |l.agents| => RenderEntry(style, l, l.agents[i]))
  }

  function Elapsed(l: Ledger, now: int): nat {
    if now > l.startedAt then now - l.startedAt else 0
  }

  function Render(style: Style, l: Ledger, now: int): Rendered {
    match l.kind
    case BackgroundTask => Rendered(style.headline(l, Elapsed(l, now)), "", [])
    case Workflow => Rendered(style.headline(l, Elapsed(l, now)), style.tree(l), RenderEntries(style, l))
  }

  /** A workflow card nobody has reported an agent for yet has nothing to show. */
  predicate IsBlank(l: Ledger) {
    l.kind == Workflow && l.agents == []
  }

  predicate Due(c: Card, now: int) {
    c.lastEmit.None? || now - c.lastEmit.value >= THROTTLE_MS
  }

  predicate Emits(style: Style, c: Card, now: int, forced: bool) {
    !IsBlank(c.ledger) && (forced || (c.lastRender != Some(Render(style, c.ledger, now)) && Due(c, now)))
  }

  function TakeEmission(style: Style, c: Card, now: int, forced: bool): Taken {
    if !Emits(style, c, now, forced) then Taken(c, None) else
    var r := Render(style, c.ledger, now);
    Taken(
      c.(lastRender := Some(r), lastEmit := Some(now)),
      Some(Emission(
             ToolData(c.ledger.callId, c.ledger.toolName, c.ledger.args, AsToolStatus(c.ledger.status), None,
                      if c.ledger.kind == Workflow then Some(r.output) else None, Some(r.description)),
             r.entries)))
  }

  // ---------------------------------------------------------------- the ledger itself

  /** The mutable ledger, one per running container. */
  class WorkflowCard {
    const style: Style
    const kind: CardKind
    const taskId: string
    const desc: Option<string>
    const callId: string
    const toolName: string
    const args: Args
    const startedAt: int
    var phases: map<nat, string>
    var agents: seq<Agent>
    var status: CardStatus
    var lastTouched: Option<string>
    var lastRender: Option<Rendered>
    var lastEmit: Option<int>

    function Contents(): Ledger
      reads this
    {
      Ledger(kind, taskId, desc, callId, toolName, args, startedAt, phases, agents, status, lastTouched)
    }

    function State(): Card
      reads this
    {
      Card(Contents(), lastRender, lastEmit)
    }

    predicate IsBackground()
      reads this
      ensures IsBackground() <==> State().ledger.kind == BackgroundTask
    {
      kind == BackgroundTask
    }

    constructor (style: Style, kind: CardKind, taskId: string, desc: Option<string>,
                 callId: string, toolName: string, args: Args, now: int)
      ensures this.style == style
      ensures State() == NewCard(kind, taskId, desc, callId, toolName, args, now)
    {
      this.style, this.kind, this.taskId, this.desc := style, kind, taskId, desc;
      this.callId, this.toolName, this.args, this.startedAt := callId, toolName, args, now;
      phases, agents, status, lastTouched := map[], [], Running, None;
      lastRender, lastEmit := None, None;
    }

    method AddPhase(index: nat, title: string) returns (isNew: bool)
      modifies this
      ensures State() == old(State()).(ledger := DeclarePhase(old(State()).ledger, index, title))
      ensures isNew == (index !in old(State()).ledger.phases)
    {
      isNew := index !in phases;
      phases := phases[index := title];
    }

    method UpsertAgent(ref: string, detail: AgentDetail) returns (forced: bool)
      modifies this
      ensures State() == old(State()).(ledger := Upsert(old(State()).ledger, ref, detail))
      ensures forced == UpsertForces(old(State()).ledger, ref, detail)
    {
      lastTouched := Some(ref);
      var i := 0;
      while i < |agents| && agents[i].ref != ref
        invariant i <= |agents|
        invariant forall j :: 0 <= j < i ==> agents[j].ref != ref
      {
        i := i + 1;
      }
      assert i == Position(agents, ref);
      if i < |agents| {
        var merged := Merge(agents[i].entry, detail);
        forced := agents[i].entry.loopState != merged.loopState;
        agents := agents[i := Agent(ref, merged)];
      } else {
        agents := agents + [Agent(ref, Merge(BLANK_ENTRY, detail))];
        forced := true;
      }
    }

    method SettleAs(status: CardStatus)
      modifies this
      ensures State() == old(State()).(ledger := Settle(old(State()).ledger, status))
    {
      this.status := status;
      var i := 0;
      while i < |agents|
        invariant i <= |agents| == |old(agents)|
        invariant forall j :: 0 <= j < i ==> agents[j] == CloseAgent(old(agents)[j])
        invariant forall j :: i <= j < |agents| ==> agents[j] == old(agents)[j]
        invariant State() == old(State()).(ledger := old(Contents()).(status := status, agents := agents))
      {
        agents := agents[i := CloseAgent(agents[i])];
        i := i + 1;
      }
      assert agents == Settle(old(Contents()), status).agents;
    }

    method Emit(now: int, forced: bool) returns (sent: Option<Emission>)
      modifies this
      ensures Taken(State(), sent) == TakeEmission(style, old(State()), now, forced)
    {
      if kind == Workflow && agents == [] {
        return None;
      }
      var r := Render(style, Contents(), now);
      var changed := lastRender != Some(r);
      var due := lastEmit.None? || now - lastEmit.value >= THROTTLE_MS;
      if !(forced || (changed && due)) {
        return None;
      }
      var output := if kind == Workflow then Some(r.output) else None;
      var data := ToolData(callId, toolName, args, AsToolStatus(status), None, output, Some(r.description));
      lastRender := Some(r);
      lastEmit := Some(now);
      return Some(Emission(data, r.entries));
    }
  }

  // ---------------------------------------------------------------- histories of one card

  datatype CardOp =
    | Report(ref: string, detail: AgentDetail)
    | Phase(index: nat, title: string)
    | End(status: CardStatus)
    | Offer(now: int, forced: bool)

  function ApplyOp(style: Style, c: Card, op: CardOp): Card {
    match op
    case Report(ref, d) => c.(ledger := Upsert(c.ledger, ref, d))
    case Phase(i, t) => c.(ledger := DeclarePhase(c.ledger, i, t))
    case End(status) => c.(ledger := Settle(c.ledger, status))
    case Offer(now, forced) => TakeEmission(style, c, now, forced).card
  }

  function ApplyOps(style: Style, c: Card, ops: seq<CardOp>): Card {
    if ops == [] then c else ApplyOp(style, ApplyOps(style, c, ops[..|ops|-1]), ops[|ops|-1])
  }

  /** An emission together with the circumstances it was sent in. */
  datatype Sent = Sent(at: int, forced: bool, rendered: Rendered)

  function SentBy(style: Style, c: Card, op: CardOp): seq<Sent> {
    if op.Offer? && Emits(style, c, op.now, op.forced)
    then [Sent(op.now, op.forced, Render(style, c.ledger, op.now))] else []
  }

  function AllSent(style: Style, c: Card, ops: seq<CardOp>): seq<Sent> {
    if ops == [] then [] else
    var earlier := ops[..|ops|-1];
    AllSent(style, c, earlier) + SentBy(style, ApplyOps(style, c, earlier), ops[|ops|-1])
  }

  function Ids(entries: seq<GroupEntry>): seq<string> {
    seq(|entries|, i requires 0 <= i < |entries| => entries[i].callId)
  }

  predicate Distinct<T(==)>(s: seq<T>) {
    forall i, j :: 0 <= i < j < |s| ==> s[i] != s[j]
  }

  predicate DistinctRefs(agents: seq<Agent>) {
    forall i, j :: 0 <= i < j < |agents| ==> agents[i].ref != agents[j].ref
  }

  /** The ids an emission of this ledger carries. */
  function RosterIds(style: Style, l: Ledger): seq<string> {
    Ids(Render(style, l, 0).entries)
  }

  lemma OpGrowsRoster(style: Style, c: Card, op: CardOp)
    requires DistinctRefs(c.ledger.agents)
    ensures DistinctRefs(ApplyOp(style, c, op).ledger.agents)
    ensures RosterIds(style, c.ledger) <= RosterIds(style, ApplyOp(style, c, op).ledger)
    ensures Distinct(RosterIds(style, c.ledger))
  {
    var before, after := c.ledger, ApplyOp(style, c, op).ledger;
    assert |before.agents| <= |after.agents|;
    assert forall i :: 0 <= i < |before.agents| ==> before.agents[i].ref == after.agents[i].ref;
    assert after.kind == before.kind && after.callId == before.callId;
    DistinctIds(style, before);
  }

  lemma DistinctIds(style: Style, l: Ledger)
    requires DistinctRefs(l.agents)
    ensures Distinct(RosterIds(style, l))
  {
    var ids := RosterIds(style, l);
    forall i, j | 0 <= i < j < |ids|
      ensures ids[i] != ids[j]
    {
      var n := |l.callId| + 1;
      assert ids[i] == EntryId(l.callId, l.agents[i].ref) && ids[j] == EntryId(l.callId, l.agents[j].ref);
      assert ids[i][n..] == l.agents[i].ref && ids[j][n..] == l.agents[j].ref;
    }
  }

  lemma {:induction false} RosterNeverShrinks(style: Style, c: Card, ops: seq<CardOp>)
    requires DistinctRefs(c.ledger.agents)
    ensures DistinctRefs(ApplyOps(style, c, ops).ledger.agents)
    ensures forall e :: e in AllSent(style, c, ops) ==>
                          Ids(e.rendered.entries) <= RosterIds(style, ApplyOps(style, c, ops).ledger)
  {
    if ops != [] {
      var earlier := ops[..|ops|-1];
      RosterNeverShrinks(style, c, earlier);
      OpGrowsRoster(style, ApplyOps(style, c, earlier), ops[|ops|-1]);
    }
  }

  /**
   The persisted tool group is keyed by the first id and replaced as a whole, so an
   emission may only extend the id list of the ones before it.
   */
  lemma {:induction false} StableRoster(style: Style, c: Card, ops: seq<CardOp>, i: nat, j: nat)
    requires DistinctRefs(c.ledger.agents)
    requires i <= j < |AllSent(style, c, ops)|
    ensures var sent := AllSent(style, c, ops);
            && Ids(sent[i].rendered.entries) <= Ids(sent[j].rendered.entries)
            && Distinct(Ids(sent[j].rendered.entries))
  {
    var earlier := ops[..|ops|-1];
    if j < |AllSent(style, c, earlier)| {
      StableRoster(style, c, earlier, i, j);
    } else {
      RosterNeverShrinks(style, c, earlier);
      DistinctIds(style, ApplyOps(style, c, earlier).ledger);
    }
  }

  /** Rows of two calls never share an id unless the calls and the agents are the same. */
  lemma EntryIdsNeverCollide(call: string, ref: string, otherCall: string, otherRef: string)
    requires ':' !in call && ':' !in otherCall
    ensures EntryId(call, ref) == EntryId(otherCall, otherRef) <==> call == otherCall && ref == otherRef
  {
    var a, b := EntryId(call, ref), EntryId(otherCall, otherRef);
    if a == b {
      assert a[|call|] == ':' && b[|otherCall|] == ':';
      assert |call| == |otherCall|;
      assert call == a[..|call|] == b[..|otherCall|] == otherCall;
      assert ref == a[|call|+1..] && otherRef == b[|otherCall|+1..];
    }
  }

  // ---------------------------------------------------------------- what the roster says

  predicate Reported(ops: seq<CardOp>, ref: string) {
    exists k :: 0 <= k < |ops| && ops[k].Report? && ops[k].ref == ref
  }

  /** The latest report about an agent in which a field was present decides that field. */
  ghost function MostRecent<T>(ops: seq<CardOp>, ref: string, field: AgentDetail -> Option<T>): Option<T> {
    if ops == [] then None else
    var last := ops[|ops|-1];
    if last.Report? && last.ref == ref && field(last.detail).Some?
    then field(last.detail)
    else MostRecent(ops[..|ops|-1], ref, field)
  }

  /** The loop state is also decided by the end of the container, for agents known by then. */
  ghost function MostRecentLoop(ops: seq<CardOp>, ref: string): Option<LoopState> {
    if ops == [] then None else
    var last, earlier := ops[|ops|-1], ops[..|ops|-1];
    if last.Report? && last.ref == ref && last.detail.loopState.Some? then last.detail.loopState
    else if last.End? && Reported(earlier, ref) then Some(Done)
    else MostRecentLoop(earlier, ref)
  }

  ghost function Latest(ops: seq<CardOp>, ref: string): AgentEntry {
    AgentEntry(
      MostRecent(ops, ref, (d: AgentDetail) => d.agentLabel),
      MostRecent(ops, ref, (d: AgentDetail) => d.phaseIndex),
      MostRecent(ops, ref, (d: AgentDetail) => d.phaseTitle),
      MostRecent(ops, ref, (d: AgentDetail) => d.model),
      MostRecentLoop(ops, ref),
      MostRecent(ops, ref, (d: AgentDetail) => d.tokens),
      MostRecent(ops, ref, (d: AgentDetail) => d.toolCalls),
      MostRecent(ops, ref, (d: AgentDetail) => d.lastToolName),
      MostRecent(ops, ref, (d: AgentDetail) => d.lastToolSummary),
      MostRecent(ops, ref, (d: AgentDetail) => d.durationMs))
  }

  lemma {:induction false} NothingBeforeFirstReport(ops: seq<CardOp>, ref: string)
    requires !Reported(ops, ref)
    ensures Latest(ops, ref) == BLANK_ENTRY
  {
    if ops != [] {
      var earlier := ops[..|ops|-1];
      assert !Reported(earlier, ref);
      NothingBeforeFirstReport(earlier, ref);
    }
  }

  lemma ReportedStep(ops: seq<CardOp>, op: CardOp, ref: string)
    ensures Reported(ops + [op], ref) <==> Reported(ops, ref) || (op.Report? && op.ref == ref)
  {
    var all := ops + [op];
    if Reported(ops, ref) {
      var k :| 0 <= k < |ops| && ops[k].Report? && ops[k].ref == ref;
      assert all[k].Report? && all[k].ref == ref;
    }
    if op.Report? && op.ref == ref {
      assert all[|ops|].Report? && all[|ops|].ref == ref;
    }
  }

  /**
   A card that starts empty lists exactly the agents reported to it, and every field
   of every agent is the most recent value reported for it.
   */
  lemma {:induction false} RosterIsLatest(style: Style, c: Card, ops: seq<CardOp>)
    requires c.ledger.agents == []
    ensures var agents := ApplyOps(style, c, ops).ledger.agents;
            && (forall ref :: Position(agents, ref) < |agents| <==> Reported(ops, ref))
            && (forall i :: 0 <= i < |agents| ==> agents[i].entry == Latest(ops, agents[i].ref))
            && DistinctRefs(agents)
  {
    if ops != [] {
      var earlier, op := ops[..|ops|-1], ops[|ops|-1];
      assert ops == earlier + [op];
      RosterIsLatest(style, c, earlier);
      var mid, agents := ApplyOps(style, c, earlier), ApplyOps(style, c, ops).ledger.agents;
      OpGrowsRoster(style, mid, op);
      forall ref
        ensures Position(agents, ref) < |agents| <==> Reported(ops, ref)
      {
        KnownAfter(style, mid, earlier, op, ref);
      }
      forall i | 0 <= i < |agents|
        ensures agents[i].entry == Latest(ops, agents[i].ref)
      {
        if i < |mid.ledger.agents| {
          assert Position(mid.ledger.agents, mid.ledger.agents[i].ref) == i;
        }
        EntryAfter(style, mid, earlier, op, i);
      }
    }
  }

  lemma LatestAfter(earlier: seq<CardOp>, op: CardOp, ref: string)
    ensures Latest(earlier + [op], ref) ==
            if op.Report? && op.ref == ref then Merge(Latest(earlier, ref), op.detail)
            else if op.End? && Reported(earlier, ref) then Latest(earlier, ref).(loopState := Some(Done))
            else Latest(earlier, ref)
  {
    var ops := earlier + [op];
    assert ops[..|ops|-1] == earlier && ops[|ops|-1] == op;
  }

  lemma KnownAfter(style: Style, c: Card, earlier: seq<CardOp>, op: CardOp, ref: string)
    requires Position(c.ledger.agents, ref) < |c.ledger.agents| <==> Reported(earlier, ref)
    ensures var agents := ApplyOp(style, c, op).ledger.agents;
            Position(agents, ref) < |agents| <==> Reported(earlier + [op], ref)
  {
    ReportedStep(earlier, op, ref);
    KnownStep(style, c, op, ref);
    hide ApplyOp, Reported;
  }

  lemma KnownStep(style: Style, c: Card, op: CardOp, ref: string)
    ensures var agents, after := c.ledger.agents, ApplyOp(style, c, op).ledger.agents;
            Position(after, ref) < |after| <==> Position(agents, ref) < |agents| || (op.Report? && op.ref == ref)
  {
    hide Merge, Render;
    var agents, after := c.ledger.agents, ApplyOp(style, c, op).ledger.agents;
    SamePlace(agents, after, ref);
    if op.Report? && Position(agents, op.ref) == |agents| && op.ref == ref {
      assert after[|agents|].ref == ref;
    }
  }

  lemma SamePlace(agents: seq<Agent>, after: seq<Agent>, ref: string)
    requires |agents| <= |after| && forall i :: 0 <= i < |agents| ==> after[i].ref == agents[i].ref
    ensures Position(agents, ref) < |agents| ==> Position(after, ref) == Position(agents, ref)
  {
  }

  lemma EntryAfter(style: Style, c: Card, earlier: seq<CardOp>, op: CardOp, i: nat)
    requires DistinctRefs(c.ledger.agents) && i < |ApplyOp(style, c, op).ledger.agents|
    requires i < |c.ledger.agents| ==>
               && c.ledger.agents[i].entry == Latest(earlier, c.ledger.agents[i].ref)
               && Reported(earlier, c.ledger.agents[i].ref)
    requires op.Report? && Reported(earlier, op.ref) ==> Position(c.ledger.agents, op.ref) < |c.ledger.agents|
    ensures var agents := ApplyOp(style, c, op).ledger.agents;
            agents[i].entry == Latest(earlier + [op], agents[i].ref)
  {
    var agents, after := c.ledger.agents, ApplyOp(style, c, op).ledger.agents;
    LatestAfter(earlier, op, after[i].ref);
    if i < |agents| {
      assert Position(agents, agents[i].ref) == i;
    } else {
      NothingBeforeFirstReport(earlier, op.ref);
    }
  }

  // ---------------------------------------------------------------- how often a card speaks

  predicate ClockNeverRunsBack(ops: seq<CardOp>, now: int) {
    && (forall i :: 0 <= i < |ops| && ops[i].Offer? ==> ops[i].now <= now)
    && (forall i, j :: 0 <= i < j < |ops| && ops[i].Offer? && ops[j].Offer? ==> ops[i].now <= ops[j].now)
  }

  /** How many unforced emissions fall into the window from `from` to `to`. */
  function Unforced(sent: seq<Sent>, from: int, to: int): nat {
    if sent == [] then 0 else
    var last := sent[|sent|-1];
    Unforced(sent[..|sent|-1], from, to) + if !last.forced && from <= last.at <= to then 1 else 0
  }

  predicate Spaced(sent: seq<Sent>) {
    forall i :: 1 <= i < |sent| ==>
      && sent[i-1].at <= sent[i].at
      && (!sent[i].forced ==> sent[i].at - sent[i-1].at >= THROTTLE_MS && sent[i].rendered != sent[i-1].rendered)
  }

  /** A card remembers its last emission, and the emissions so far are spaced. */
  predicate Tracks(sent: seq<Sent>, c: Card, now: int) {
    && Spaced(sent)
    && (sent == [] ==> c.lastEmit.None? && c.lastRender.None?)
    && (sent != [] ==> var last := sent[|sent|-1];
                       c.lastEmit == Some(last.at) && c.lastRender == Some(last.rendered) && last.at <= now)
  }

  lemma TracksAfter(style: Style, sent: seq<Sent>, c: Card, op: CardOp, before: int, now: int)
    requires Tracks(sent, c, before) && before <= now
    requires op.Offer? ==> before <= op.now <= now
    ensures Tracks(sent + SentBy(style, c, op), ApplyOp(style, c, op), now)
  {
    hide Render, Upsert, DeclarePhase, Settle, IsBlank;
    var more := SentBy(style, c, op);
    if more == [] {
      assert sent + more == sent;
    } else {
      var all := sent + more;
      assert forall i :: 0 <= i < |sent| ==> all[i] == sent[i];
      assert sent != [] ==> all[|sent|-1] == sent[|sent|-1];
    }
  }

  /** Consecutive emissions: an unforced one waits for the throttle and says something new. */
  lemma {:induction false} EmissionsAreSpaced(style: Style, c: Card, ops: seq<CardOp>, now: int)
    requires c.lastEmit.None? && c.lastRender.None?
    requires ClockNeverRunsBack(ops, now)
    ensures Tracks(AllSent(style, c, ops), ApplyOps(style, c, ops), now)
  {
    if ops != [] {
      var earlier, op := ops[..|ops|-1], ops[|ops|-1];
      var before := if op.Offer? then op.now else now;
      EmissionsAreSpaced(style, c, earlier, before);
      TracksAfter(style, AllSent(style, c, earlier), ApplyOps(style, c, earlier), op, before, now);
    }
  }

  lemma {:induction false} SpacedMeansRare(sent: seq<Sent>, from: int, to: int)
    requires Spaced(sent) && from <= to
    ensures sent == [] || sent[|sent|-1].at < from ==> Unforced(sent, from, to) == 0
    ensures sent != [] && from <= sent[|sent|-1].at <= to ==>
              Unforced(sent, from, to) <= (sent[|sent|-1].at - from) / THROTTLE_MS + 1
    ensures Unforced(sent, from, to) <= (to - from) / THROTTLE_MS + 1
  {
    if sent != [] {
      var earlier := sent[..|sent|-1];
      SpacedMeansRare(earlier, from, to);
      if |sent| > 1 {
        assert earlier[|earlier|-1] == sent[|sent|-2];
      }
    }
  }

  /** However often a card is offered, a window of T ms carries at most T/500 + 1 unforced frames. */
  lemma EmissionRateBound(style: Style, c: Card, ops: seq<CardOp>, now: int, from: int, to: int)
    requires c.lastEmit.None? && c.lastRender.None?
    requires ClockNeverRunsBack(ops, now) && from <= to
    ensures Unforced(AllSent(style, c, ops), from, to) <= (to - from) / THROTTLE_MS + 1
  {
    EmissionsAreSpaced(style, c, ops, now);
    SpacedMeansRare(AllSent(style, c, ops), from, to);
  }

  /** A forced offer on a card with something to show is never withheld, and shows the whole roster. */
  lemma ForcedIsNeverWithheld(style: Style, c: Card, now: int)
    ensures TakeEmission(style, c, now, true).sent.Some? <==> !IsBlank(c.ledger)
    ensures !IsBlank(c.ledger) ==>
              Ids(TakeEmission(style, c, now, true).sent.value.entries) == RosterIds(style, c.ledger)
  {
  }

  function ForcedTimes(sent: seq<Sent>): seq<int> {
    if sent == [] then [] else
    var last := sent[|sent|-1];
    ForcedTimes(sent[..|sent|-1]) + if last.forced then [last.at] else []
  }

  predicate HasReport(ops: seq<CardOp>) {
    exists k :: 0 <= k < |ops| && ops[k].Report?
  }

  /** The forced offers made to a card that had something to show: any background card, or one with an agent. */
  function ForcedOffers(kind: CardKind, ops: seq<CardOp>): seq<int> {
    if ops == [] then [] else
    var earlier, last := ops[..|ops|-1], ops[|ops|-1];
    ForcedOffers(kind, earlier)
    + if last.Offer? && last.forced && (kind == BackgroundTask || HasReport(earlier)) then [last.now] else []
  }

  lemma HasReportOfLast(ops: seq<CardOp>)
    requires ops != []
    ensures HasReport(ops) <==> HasReport(ops[..|ops|-1]) || ops[|ops|-1].Report?
  {
    var earlier := ops[..|ops|-1];
    if HasReport(earlier) {
      var k :| 0 <= k < |earlier| && earlier[k].Report?;
      assert ops[k].Report?;
    }
    assert forall k :: 0 <= k < |ops| && ops[k].Report? ==> k == |ops| - 1 || earlier[k].Report?;
  }

  lemma {:induction false} BlankUntilReported(style: Style, c: Card, ops: seq<CardOp>)
    requires c.ledger.agents == []
    ensures ApplyOps(style, c, ops).ledger.kind == c.ledger.kind
    ensures ApplyOps(style, c, ops).ledger.agents == [] <==> !HasReport(ops)
  {
    hide Render, Merge;
    if ops != [] {
      HasReportOfLast(ops);
      hide HasReport;
      BlankUntilReported(style, c, ops[..|ops|-1]);
    }
  }

  /** The forced emissions are exactly the forced offers to a card with something to show, none withheld. */
  lemma {:induction false} ForcedOffersAllShow(style: Style, c: Card, ops: seq<CardOp>)
    requires c.ledger.agents == []
    ensures ForcedTimes(AllSent(style, c, ops)) == ForcedOffers(c.ledger.kind, ops)
  {
    hide Render, ApplyOp, HasReport;
    if ops != [] {
      var earlier, last := ops[..|ops|-1], ops[|ops|-1];
      ForcedOffersAllShow(style, c, earlier);
      BlankUntilReported(style, c, earlier);
      var before, more := AllSent(style, c, earlier), SentBy(style, ApplyOps(style, c, earlier), last);
      if more != [] {
        assert (before + more)[..|before + more|-1] == before;
      } else {
        assert before + more == before;
      }
    }
  }

  /** After settlement no row of an emitted roster is left executing. */
  lemma SettledRosterIsAllDone(style: Style, l: Ledger, status: CardStatus, now: int)
    ensures forall e :: e in Render(style, Settle(l, status), now).entries ==> e.status == Success
  {
  }
}
