/**
 The task manager run one call at a time: slots, capabilities, token revocation and
 the scan for idle agents. How concurrent callers interleave is the subject of
 `TaskProtocol`.
 */
module TaskManager {
  import opened Wrappers
  import opened ActiveLease
  import opened RuntimeToken
  import opened Texts
  import PumpModel

  type Status = PumpModel.Status

  datatype AgentKind = Acp | OtherAgent

  datatype Agent = Agent(id: nat, kind: AgentKind, status: Option<Status>, lastActivity: int, killFails: bool)

  datatype Capabilities = Capabilities(version: Option<nat>)

  datatype Managed = Managed(agent: Agent, capabilities: Capabilities)

  datatype Failure = FactoryFailed | KillFailed

  const TOKEN_ENV := "AIONUI_RUNTIME_TOKEN"

  const GENERATION := "default"

  datatype Options = Options(user: string, conversation: string, team: bool, env: seq<(string, string)>, capabilities: Capabilities)

  type Factory = Options -> Result<Agent, Failure>

  /** A conversation's slot holds a task once its cell is set. */
  type Slots = map<string, Option<Managed>>

  datatype World = World(tasks: Slots, tokens: Store, killed: seq<Agent>, built: seq<Options>)

  /** What a new token may need: a random draw, the clock, and the order of the token map. */
  datatype Draw = Draw(token: string, now: int, order: seq<string>)

  predicate Satisfies(actual: Capabilities, requested: Capabilities) {
    requested.version.Some? ==> actual.version.Some? && actual.version.value >= requested.version.value
  }

  function ScopesFor(o: Options): set<Scope> {
    if o.team then {ConversationHelper, TeamContext, TeamCall} else {ConversationHelper}
  }

  function TokenRequest(o: Options, d: Draw): Request {
    Request(o.user, o.conversation, GENERATION, ScopesFor(o), d.token, d.now, d.order)
  }

  function WithoutToken(env: seq<(string, string)>): seq<(string, string)> {
    if env == [] then [] else
    var last := env[|env|-1];
    WithoutToken(env[..|env|-1]) + if last.0 == TOKEN_ENV then [] else [last]
  }

  /** The token entries of an environment, in order. */
  function TokenEntries(env: seq<(string, string)>): seq<string> {
    if env == [] then [] else
    var last := env[|env|-1];
    TokenEntries(env[..|env|-1]) + if last.0 == TOKEN_ENV then [last.1] else []
  }

  datatype Refreshed = Refreshed(options: Options, tokens: Store)

  /** The hash of the token service, for a manager that has one. */
  type Service = Option<Hash>

  function RefreshToken(service: Service, tokens: Store, o: Options, d: Draw): Refreshed {
    if service.None? then Refreshed(o, tokens) else
    var issued := Issue(service.value, tokens, TokenRequest(o, d));
    Refreshed(o.(env := WithoutToken(o.env) + [(TOKEN_ENV, issued.entry.token)]), issued.tokens)
  }

  datatype KillOut = KillOut(w: World, failed: bool)

  function Kill(w: World, conversation: string): KillOut {
    if conversation !in w.tasks then KillOut(w, false) else
    var slot := w.tasks[conversation];
    var w' := w.(tasks := w.tasks - {conversation}, tokens := DropConversationId(w.tokens, conversation));
    if slot.None? then KillOut(w', false)
    else KillOut(w'.(killed := w.killed + [slot.value.agent]), slot.value.agent.killFails)
  }

  /** Kill whatever is there, one after the other, ignoring agents that fail to stop. */
  function ClearAll(w: World, order: seq<string>): World {
    if order == [] then w else Kill(ClearAll(w, order[..|order|-1]), order[|order|-1]).w
  }

  predicate NeedsRebuild(w: World, conversation: string, o: Options) {
    && conversation in w.tasks && w.tasks[conversation].Some?
    && !Satisfies(w.tasks[conversation].value.capabilities, o.capabilities)
  }

  datatype BuildOut = BuildOut(w: World, result: Result<Agent, Failure>)

  function InitSlot(factory: Factory, w: World, conversation: string, o: Options): BuildOut {
    var tasks := if conversation in w.tasks then w.tasks else w.tasks[conversation := None];
    if tasks[conversation].Some? then BuildOut(w.(tasks := tasks), Ok(tasks[conversation].value.agent))
    else
      var agent := factory(o);
      BuildOut(w.(tasks := if agent.Ok? then tasks[conversation := Some(Managed(agent.value, o.capabilities))] else tasks,
                  built := w.built + [o]),
               agent)
  }

  function GetOrBuild(factory: Factory, service: Service, w: World, conversation: string, o: Options, d: Draw): BuildOut {
    if NeedsRebuild(w, conversation, o) then
      var killed := Kill(w, conversation);
      if killed.failed then BuildOut(killed.w, Err(KillFailed)) else
      var r := RefreshToken(service, killed.w.tokens, o, d);
      InitSlot(factory, killed.w.(tokens := r.tokens), conversation, r.options)
    else InitSlot(factory, w, conversation, o)
  }

  // ---------------------------------------------------------------- idle agents

  predicate LooksIdle(m: Managed, now: int, threshold: int) {
    && m.agent.kind == Acp
    && (m.agent.status.None? || m.agent.status == Some(PumpModel.Status.Finished))
    && SaturatingSub(now, m.agent.lastActivity) > threshold
  }

  datatype Scan = Scan(idle: seq<string>, leases: Leases)

  /** A slot the scan comes by, and the clock should its lease be asked for there. */
  datatype Visit = Visit(id: string, at: int)

  /** One pass over the slots; a lease is asked for only when the agent itself looks idle. */
  function ScanIdle(tasks: Slots, leases: Leases, now: int, threshold: int, visits: seq<Visit>): Scan {
    if visits == [] then Scan([], leases) else
    var before, v := ScanIdle(tasks, leases, now, threshold, visits[..|visits|-1]), visits[|visits|-1];
    if v.id in tasks && tasks[v.id].Some? && LooksIdle(tasks[v.id].value, now, threshold) then
      Scan(before.idle + if ActiveUntil(before.leases, v.id, v.at).Some? then [] else [v.id], Swept(before.leases, v.id, v.at))
    else before
  }

  // ---------------------------------------------------------------- the manager

  class WorkerTaskManager {
    const factory: Factory
    const tokens: RuntimeTokenService?
    const leases: ActiveLeaseRegistry
    var tasks: Slots
    /** Agents told to stop, and the options of every factory call, in order. */
    ghost var killed: seq<Agent>
    ghost var built: seq<Options>

    constructor (factory: Factory, tokens: RuntimeTokenService?, leases: ActiveLeaseRegistry)
      ensures tasks == map[] && killed == [] && built == []
      ensures this.factory == factory && this.tokens == tokens && this.leases == leases
    {
      this.factory, this.tokens, this.leases := factory, tokens, leases;
      tasks, killed, built := map[], [], [];
    }

    ghost function State(): World
      reads this, tokens
    {
      World(tasks, if tokens == null then map[] else tokens.tokens, killed, built)
    }

    ghost function Hashing(): Service
    {
      if tokens == null then None else Some(tokens.hash)
    }

    method KillTask(conversation: string) returns (failed: bool)
      modifies this, tokens
      ensures KillOut(State(), failed) == Kill(old(State()), conversation)
    {
      failed := false;
      if conversation in tasks {
        var slot := tasks[conversation];
        tasks := tasks - {conversation};
        if tokens != null {
          tokens.InvalidateConversationId(conversation);
        }
        if slot.Some? {
          killed := killed + [slot.value.agent];
          failed := slot.value.agent.killFails;
        }
      }
    }

    method Refresh(o: Options, d: Draw) returns (refreshed: Options)
      modifies tokens
      ensures Refreshed(refreshed, State().tokens) == RefreshToken(Hashing(), old(State()).tokens, o, d)
    {
      if tokens == null {
        return o;
      }
      var e := tokens.IssueToken(TokenRequest(o, d));
      refreshed := o.(env := WithoutToken(o.env) + [(TOKEN_ENV, e.token)]);
    }

    method GetOrBuildTask(conversation: string, o: Options, d: Draw) returns (result: Result<Agent, Failure>)
      modifies this, tokens
      ensures BuildOut(State(), result) == GetOrBuild(factory, Hashing(), old(State()), conversation, o, d)
    {
      var options := o;
      if conversation in tasks && tasks[conversation].Some?
         && !Satisfies(tasks[conversation].value.capabilities, o.capabilities) {
        var failed := KillTask(conversation);
        if failed {
          return Err(KillFailed);
        }
        options := Refresh(o, d);
      }
      if conversation !in tasks {
        tasks := tasks[conversation := None];
      }
      if tasks[conversation].Some? {
        return Ok(tasks[conversation].value.agent);
      }
      built := built + [options];
      result := factory(options);
      if result.Ok? {
        tasks := tasks[conversation := Some(Managed(result.value, options.capabilities))];
      }
    }

    method Clear(order: seq<string>)
      modifies this, tokens
      ensures State() == ClearAll(old(State()), order)
    {
      hide Kill;
      var k := 0;
      while k < |order|
        invariant k <= |order| && State() == ClearAll(old(State()), order[..k])
      {
        assert order[..k+1][..k] == order[..k];
        var failed := KillTask(order[k]);
        k := k + 1;
      }
      assert order[..k] == order;
    }

    method CollectIdle(now: int, threshold: int, visits: seq<Visit>) returns (idle: seq<string>)
      modifies leases
      ensures Scan(idle, leases.leases) == ScanIdle(tasks, old(leases.leases), now, threshold, visits)
    {
      idle := [];
      var k := 0;
      while k < |visits|
        invariant k <= |visits|
        invariant Scan(idle, leases.leases) == ScanIdle(tasks, old(leases.leases), now, threshold, visits[..k])
      {
        assert visits[..k+1][..k] == visits[..k];
        var id := visits[k].id;
        if id in tasks && tasks[id].Some? && LooksIdle(tasks[id].value, now, threshold) {
          var until := leases.Ask(id, visits[k].at);
          if until.None? {
            idle := idle + [id];
          }
        }
        k := k + 1;
      }
      assert visits[..k] == visits;
    }
  }

  // ---------------------------------------------------------------- clearing

  /** The agents in the slots of these conversations, in order. */
  function AgentsIn(tasks: Slots, order: seq<string>): seq<Agent> {
    if order == [] then [] else
    var id := order[|order|-1];
    AgentsIn(tasks, order[..|order|-1]) + if id in tasks && tasks[id].Some? then [tasks[id].value.agent] else []
  }

  lemma {:induction false} ClearedSoFar(w: World, order: seq<string>)
    requires forall i, j :: 0 <= i < j < |order| ==> order[i] != order[j]
    ensures var after := ClearAll(w, order);
            && (forall id :: id in after.tasks <==> id in w.tasks && id !in order)
            && (forall id :: id in after.tasks ==> after.tasks[id] == w.tasks[id])
            && (forall h :: h in after.tokens <==>
                  h in w.tokens && !(w.tokens[h].claims.conversation in w.tasks && w.tokens[h].claims.conversation in order))
            && (forall h :: h in after.tokens ==> after.tokens[h] == w.tokens[h])
            && after.killed == w.killed + AgentsIn(w.tasks, order)
            && after.built == w.built
  {
    if order != [] {
      var init, last := order[..|order|-1], order[|order|-1];
      ClearedSoFar(w, init);
      assert last !in init;
      assert forall id :: id in order <==> id in init || id == last;
    }
  }

  /** Clearing stops every agent in a slot once and revokes the tokens of exactly those conversations. */
  lemma ClearEmptiesTheManager(w: World, order: seq<string>)
    requires Enumerates(order, w.tasks.Keys)
    ensures var after := ClearAll(w, order);
            && after.tasks == map[] && after.killed == w.killed + AgentsIn(w.tasks, order) && after.built == w.built
            && after.tokens == map h | h in w.tokens && w.tokens[h].claims.conversation !in w.tasks :: w.tokens[h]
  {
    hide ClearAll;
    ClearedSoFar(w, order);
    assert forall id :: id in order <==> id in (set k | k in order);
  }

  // ---------------------------------------------------------------- capabilities and tokens

  /** Whatever was in the slot before, a successful call leaves a task that meets the request in it. */
  lemma BuiltTaskSatisfies(factory: Factory, service: Service, w: World, conversation: string, o: Options, d: Draw)
    requires GetOrBuild(factory, service, w, conversation, o, d).result.Ok?
    ensures var out := GetOrBuild(factory, service, w, conversation, o, d);
            && conversation in out.w.tasks && out.w.tasks[conversation].Some?
            && out.w.tasks[conversation].value.agent == out.result.value
            && WillDo(out.w.tasks[conversation].value.capabilities.version, o.capabilities.version)
  {
    hide RefreshToken;
    RefreshKeepsCapabilities(service, Kill(w, conversation).w.tokens, o, d);
  }

  // ---------------------------------------------------------------- one call, exactly

  /** A stored version that will do for a wanted one. */
  predicate WillDo(stored: Option<nat>, wanted: Option<nat>) {
    wanted == None || (stored.Some? && wanted.value <= stored.value)
  }

  /** The agent a call would have to replace: it is in the slot and its version will not do. */
  function Outdated(w: World, conversation: string, o: Options): Option<Agent> {
    if conversation in w.tasks && w.tasks[conversation].Some?
       && !WillDo(w.tasks[conversation].value.capabilities.version, o.capabilities.version)
    then Some(w.tasks[conversation].value.agent) else None
  }

  /** A live agent that will do is handed out again, and nothing changes. */
  lemma LiveAgentIsReused(factory: Factory, service: Service, w: World, conversation: string, o: Options, d: Draw)
    requires conversation in w.tasks && w.tasks[conversation].Some?
    requires WillDo(w.tasks[conversation].value.capabilities.version, o.capabilities.version)
    ensures GetOrBuild(factory, service, w, conversation, o, d) == BuildOut(w, Ok(w.tasks[conversation].value.agent))
  {
    hide RefreshToken, Kill;
  }

  /** An outdated agent that fails to stop ends the call: it is out of the map, and nothing is built. */
  lemma StubbornAgentEndsTheCall(factory: Factory, service: Service, w: World, conversation: string, o: Options, d: Draw)
    requires Outdated(w, conversation, o).Some? && Outdated(w, conversation, o).value.killFails
    ensures var out := GetOrBuild(factory, service, w, conversation, o, d);
            && out.result == Err(KillFailed)
            && out.w.tasks == w.tasks - {conversation} && out.w.built == w.built
            && out.w.killed == w.killed + [Outdated(w, conversation, o).value]
            && (forall h :: h in out.w.tokens <==> h in w.tokens && w.tokens[h].claims.conversation != conversation)
  {
    hide RefreshToken;
  }

  /**
   Otherwise the factory is asked once, for the options as they came but for the renewed
   token of a rebuild, and the call ends as the factory does: with its agent in the slot
   under the capabilities asked for, or with its error and the slot not set.
   */
  lemma BuildEndsAsTheFactoryDoes(factory: Factory, service: Service, w: World, conversation: string, o: Options, d: Draw)
    requires Outdated(w, conversation, o).Some? ==> !Outdated(w, conversation, o).value.killFails
    requires conversation in w.tasks && w.tasks[conversation].Some? ==> Outdated(w, conversation, o).Some?
    ensures var out := GetOrBuild(factory, service, w, conversation, o, d); var stale := Outdated(w, conversation, o);
            && |out.w.built| == |w.built| + 1 && out.w.built[..|w.built|] == w.built
            && var seen := out.w.built[|w.built|];
               && seen == o.(env := seen.env)
               && (stale.None? || service.None? ==> seen == o)
               && out.result == factory(seen)
               && out.w.tasks == w.tasks[conversation :=
                    if factory(seen).Ok? then Some(Managed(factory(seen).value, o.capabilities)) else None]
               && out.w.killed == w.killed + (if stale.Some? then [stale.value] else [])
               && (stale.None? ==> out.w.tokens == w.tokens)
  {
    hide Issue;
  }

  /** The entries of an environment besides the token, from the front. */
  function OtherEntries(env: seq<(string, string)>): seq<(string, string)> {
    if env == [] then []
    else (if env[0].0 == TOKEN_ENV then [] else [env[0]]) + OtherEntries(env[1..])
  }

  lemma {:induction false} OtherEntriesOfLast(env: seq<(string, string)>, last: (string, string))
    ensures OtherEntries(env + [last]) == OtherEntries(env) + if last.0 == TOKEN_ENV then [] else [last]
  {
    if env == [] {
      assert env + [last] == [last] && [last][1..] == [];
    } else {
      assert (env + [last])[1..] == env[1..] + [last];
      OtherEntriesOfLast(env[1..], last);
    }
  }

  lemma {:induction false} WithoutTokenKeepsOthers(env: seq<(string, string)>)
    ensures WithoutToken(env) == OtherEntries(env)
  {
    if env != [] {
      var init, last := env[..|env|-1], env[|env|-1];
      WithoutTokenKeepsOthers(init);
      OtherEntriesOfLast(init, last);
      assert env == init + [last];
    }
  }

  /** On the rebuild path the factory sees the other entries as they were, and the new token after them. */
  lemma RebuildKeepsTheEnvironment(factory: Factory, hash: Hash, w: World, conversation: string, o: Options, d: Draw)
    requires Outdated(w, conversation, o).Some? && !Outdated(w, conversation, o).value.killFails
    ensures var out := GetOrBuild(factory, Some(hash), w, conversation, o, d);
            && |out.w.built| == |w.built| + 1
            && var env := out.w.built[|w.built|].env;
               env != [] && env[..|env|-1] == OtherEntries(o.env) && env[|env|-1].0 == TOKEN_ENV
  {
    WithoutTokenKeepsOthers(o.env);
    hide Issue;
  }

  lemma RefreshKeepsCapabilities(service: Service, tokens: Store, o: Options, d: Draw)
    ensures RefreshToken(service, tokens, o, d).options == o.(env := RefreshToken(service, tokens, o, d).options.env)
  {
  }

  lemma {:induction false} NoTokenLeft(env: seq<(string, string)>)
    ensures TokenEntries(WithoutToken(env)) == []
  {
    if env != [] {
      NoTokenLeft(env[..|env|-1]);
      var without := WithoutToken(env);
      if env[|env|-1].0 != TOKEN_ENV {
        assert without[..|without|-1] == WithoutToken(env[..|env|-1]);
      } else {
        assert without == WithoutToken(env[..|env|-1]);
      }
    }
  }

  lemma OneTokenLeft(env: seq<(string, string)>, token: string)
    ensures TokenEntries(WithoutToken(env) + [(TOKEN_ENV, token)]) == [token]
  {
    NoTokenLeft(env);
    var all := WithoutToken(env) + [(TOKEN_ENV, token)];
    assert all[..|all|-1] == WithoutToken(env);
  }

  /**
   Rebuilding for new capabilities: the factory sees one token, that token validates for
   every scope the task needs, and every token the conversation had before is unknown.
   */
  lemma RebuildRenewsTheToken(factory: Factory, hash: Hash, w: World, drawn: set<string>, o: Options, d: Draw)
    requires NeedsRebuild(w, o.conversation, o) && !Kill(w, o.conversation).failed
    requires Injective(hash) && Valid(hash, w.tokens, drawn) && IsHexToken(d.token) && d.token !in drawn
    ensures var out := GetOrBuild(factory, Some(hash), w, o.conversation, o, d);
            && |out.w.built| == |w.built| + 1
            && TokenEntries(out.w.built[|w.built|].env) == [d.token]
            && (forall scope :: Validate(hash, out.w.tokens, Some(d.token), o.user, o.conversation, scope, "default").Ok? <==>
                                scope == ConversationHelper || o.team)
            && (forall h :: h in w.tokens && w.tokens[h].claims.conversation == o.conversation ==>
                  IsUnknown(hash, out.w.tokens, w.tokens[h].token))
  {
    hide Validate, Valid, IsHexToken;
    var killed := Kill(w, o.conversation).w;
    var r := TokenRequest(o, d);
    ApplyKeepsValid(hash, w.tokens, drawn, DoDropConversationId(o.conversation));
    assert drawn + {} == drawn;
    NothingToFind(w.tokens, r, r.order);
    OneTokenLeft(o.env, d.token);
    forall scope
      ensures Validate(hash, Issue(hash, killed.tokens, r).tokens, Some(d.token), o.user, o.conversation, scope, "default").Ok?
              <==> scope == ConversationHelper || o.team
    {
      NewTokenIsForItsScopes(hash, killed.tokens, r, scope);
    }
    forall h | h in w.tokens && w.tokens[h].claims.conversation == o.conversation
      ensures IsUnknown(hash, Issue(hash, killed.tokens, r).tokens, w.tokens[h].token)
    {
      DroppedStaysUnknown(hash, w.tokens, drawn, r, h);
    }
  }

  lemma NewTokenIsForItsScopes(hash: Hash, tokens: Store, r: Request, scope: Scope)
    requires Existing(tokens, r, r.order).None? && IsHexToken(r.draw)
    ensures Validate(hash, Issue(hash, tokens, r).tokens, Some(r.draw), r.user, r.conversation, scope, r.generation).Ok?
            <==> scope in r.scopes
  {
    hide Trim, IsHexToken;
    HexIsTrimmed(r.draw);
  }

  lemma NothingToFind(tokens: Store, r: Request, order: seq<string>)
    ensures Existing(DropConversationId(tokens, r.conversation), r, order) == None
  {
    ExistingMeans(DropConversationId(tokens, r.conversation), r, order);
  }

  lemma DroppedStaysUnknown(hash: Hash, tokens: Store, drawn: set<string>, r: Request, h: string)
    requires Injective(hash) && Valid(hash, tokens, drawn) && r.draw !in drawn
    requires h in tokens && tokens[h].claims.conversation == r.conversation
    ensures IsUnknown(hash, Issue(hash, DropConversationId(tokens, r.conversation), r).tokens, tokens[h].token)
  {
    hide Existing, IsHexToken;
    NothingToFind(tokens, r, r.order);
  }

  // ---------------------------------------------------------------- what the scan returns

  predicate EachOnce(visits: seq<Visit>) {
    forall i, j :: 0 <= i < j < |visits| ==> visits[i].id != visits[j].id
  }

  predicate IsVisited(visits: seq<Visit>, id: string) {
    exists k :: 0 <= k < |visits| && visits[k].id == id
  }

  lemma {:induction false} ScanTouchesVisited(tasks: Slots, leases: Leases, now: int, threshold: int, visits: seq<Visit>, id: string)
    requires !IsVisited(visits, id)
    ensures var scan := ScanIdle(tasks, leases, now, threshold, visits);
            id !in scan.idle && Get(scan.leases, id) == Get(leases, id)
  {
    hide LooksIdle;
    if visits != [] {
      var init := visits[..|visits|-1];
      assert forall k :: 0 <= k < |init| ==> init[k] == visits[k];
      ScanTouchesVisited(tasks, leases, now, threshold, init, id);
    }
  }

  lemma {:induction false} ScanMeans(tasks: Slots, leases: Leases, now: int, threshold: int, visits: seq<Visit>, k: nat)
    requires EachOnce(visits) && k < |visits|
    ensures var id := visits[k].id;
            id in ScanIdle(tasks, leases, now, threshold, visits).idle <==>
            && id in tasks && tasks[id].Some? && LooksIdle(tasks[id].value, now, threshold)
            && ActiveUntil(leases, id, visits[k].at).None?
  {
    hide LooksIdle;
    var init, last := visits[..|visits|-1], visits[|visits|-1];
    if k < |init| {
      ScanMeans(tasks, leases, now, threshold, init, k);
    } else {
      ScanTouchesVisited(tasks, leases, now, threshold, init, last.id);
      SameLeaseSameAnswer(ScanIdle(tasks, leases, now, threshold, init).leases, leases, last.id, last.at);
    }
  }

  lemma SameLeaseSameAnswer(a: Leases, b: Leases, id: string, now: int)
    requires Get(a, id) == Get(b, id)
    ensures ActiveUntil(a, id, now) == ActiveUntil(b, id, now)
  {
  }

  /** A scan that comes by every slot once, reading a clock that never falls behind its start. */
  predicate Scans(visits: seq<Visit>, tasks: Slots, now: int) {
    && EachOnce(visits) && (forall id :: id in tasks ==> IsVisited(visits, id))
    && (forall k :: 0 <= k < |visits| ==> now <= visits[k].at)
  }

  /** An ACP agent that never ran a turn or finished its last one, and has done nothing for longer than the threshold. */
  predicate RestsSince(agent: Agent, now: int, threshold: int) {
    && agent.kind == Acp
    && (agent.status == None || agent.status == Some(PumpModel.Status.Finished))
    && now - agent.lastActivity > threshold && threshold < I64_MAX
  }

  lemma LooksIdleMeans(m: Managed, now: int, threshold: int)
    requires I64_MIN <= threshold <= I64_MAX
    ensures LooksIdle(m, now, threshold) <==> RestsSince(m.agent, now, threshold)
  {
  }

  /**
   The idle scan over lazily swept leases returns exactly the tasks that look idle at its
   start and whose last renewal has run out when the scan comes by.
   */
  lemma IdleScanIsExact(tasks: Slots, ops: seq<LeaseOp>, ttl: int, now: int, threshold: int, visits: seq<Visit>)
    requires ActiveLease.ClockNeverRunsBack(ops, now) && Scans(visits, tasks, now)
    requires I64_MIN <= threshold <= I64_MAX
    ensures var idle := ScanIdle(tasks, ActiveLease.ApplyOps(map[], ops, ttl), now, threshold, visits).idle;
            && (forall k :: 0 <= k < |visits| ==>
                  (visits[k].id in idle <==>
                    && visits[k].id in tasks && tasks[visits[k].id].Some? && RestsSince(tasks[visits[k].id].value.agent, now, threshold)
                    && !(LastExpiry(ops, visits[k].id, ttl).Some? && LastExpiry(ops, visits[k].id, ttl).value > visits[k].at)))
            && (forall id :: id in idle ==> id in tasks)
  {
    hide LooksIdle, RestsSince, ScanIdle;
    var leases := ActiveLease.ApplyOps(map[], ops, ttl);
    forall k | 0 <= k < |visits|
      ensures var id := visits[k].id;
              id in ScanIdle(tasks, leases, now, threshold, visits).idle <==>
              && id in tasks && tasks[id].Some? && RestsSince(tasks[id].value.agent, now, threshold)
              && !(LastExpiry(ops, id, ttl).Some? && LastExpiry(ops, id, ttl).value > visits[k].at)
    {
      if visits[k].id in tasks && tasks[visits[k].id].Some? {
        LooksIdleMeans(tasks[visits[k].id].value, now, threshold);
      }
      ScanMeans(tasks, leases, now, threshold, visits, k);
      LeasesRefineTheClock(ops, ttl, visits[k].id, visits[k].at);
    }
    forall id | id in ScanIdle(tasks, leases, now, threshold, visits).idle ensures id in tasks {
      if !IsVisited(visits, id) {
        ScanTouchesVisited(tasks, leases, now, threshold, visits, id);
      }
    }
  }
}
