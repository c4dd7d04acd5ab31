/**
 The agent catalog's availability state: which rows are cached, why a row is unavailable,
 and which version probes were put off. Five operations rewrite the three of them.
 */
module Registry {
  import opened Wrappers
  import opened Ordering

  datatype Source = Builtin | Internal | OtherSource

  datatype Verdict = Online | Offline

  datatype Kind = Startup | Scheduled | Manual | Session

  datatype Snapshot = Snapshot(
    status: Option<Verdict>,
    kind: Option<Kind>,
    code: Option<string>,
    message: Option<string>,
    latency: Option<int>,
    at: Option<int>,
    successAt: Option<int>,
    failureAt: Option<int>)

  datatype Meta = Meta(
    id: string,
    source: Source,
    backend: Option<string>,
    enabled: bool,
    command: Option<string>,
    overridden: bool,
    binary: Option<string>,
    bridge: Option<string>,
    snapshot: Snapshot,
    available: bool,
    resolved: Option<string>)

  datatype Reason =
    | Disabled
    | NoCommand
    | BridgeMissing(bridge: string)
    | PrimaryMissing(binary: string)
    | PrimaryUnusable(binary: string, detail: string)
    | CommandMissing(command: string)
    | ManagedRuntimeUnavailable(resource: string, detail: string)

  datatype Failure = NoCommandToProbe | CommandNotFound | SkipLookup | VersionFailed | VersionTimeout

  datatype Version = Runs | Breaks | TimesOut

  /** What the machine answers while one operation runs. */
  datatype Host = Host(
    candidate: string -> Option<string>,
    lookup: string -> Option<string>,
    skips: string -> Result<bool, string>,
    version: (string, bool) -> Version,
    detail: (string, Failure) -> string,
    now: string -> int,
    latency: string -> int)

  const SLOW_THRESHOLD := 2000

  /** A database row; `meta` is None when the row does not decode. */
  datatype Row = Row(id: string, user: Option<string>, meta: Option<Meta>)

  const SYSTEM_USER := "system_default_user"

  datatype Registry = Registry(byId: map<string, Meta>, reasons: map<string, Reason>, pending: seq<string>)

  // ---------------------------------------------------------------- probing one row

  predicate Filled(s: Option<string>) {
    s.Some? && s.value != ""
  }

  predicate IsManagedBuiltin(m: Meta) {
    m.source == Builtin && (m.backend == Some("claude") || m.backend == Some("codex"))
  }

  predicate IsCommandlessInternal(m: Meta) {
    m.enabled && m.command.None? && m.source == Internal
  }

  function CommandName(m: Meta): Option<string> {
    if m.overridden && Filled(m.command) then m.command else Or(m.binary, m.command)
  }

  function ResolveCommand(host: Host, m: Meta): Result<string, Reason> {
    if !m.enabled then Err(Disabled)
    else if IsManagedBuiltin(m) then
      var primary := CommandName(m);
      if primary.None? then Err(NoCommand)
      else if host.candidate(primary.value).None? then Err(PrimaryMissing(primary.value))
      else Ok(host.candidate(primary.value).value)
    else if !Filled(m.command) then Err(NoCommand)
    else
      var command := m.command.value;
      if m.bridge.Some? && m.bridge.value != command && host.candidate(m.bridge.value).None? then
        Err(BridgeMissing(m.bridge.value))
      else if m.binary.Some? && m.binary.value != command && m.bridge != m.binary
              && host.candidate(m.binary.value).None? then
        Err(PrimaryMissing(m.binary.value))
      else if host.candidate(command).None? then Err(CommandMissing(command))
      else Ok(host.candidate(command).value)
  }

  datatype Probed = Probed(meta: Meta, reason: Option<Reason>)

  function ApplyProbe(host: Host, m: Meta): Probed {
    var answer := ResolveCommand(host, m);
    var resolved := if answer.Ok? then Some(answer.value) else None;
    var available := resolved.Some? || IsCommandlessInternal(m);
    Probed(m.(resolved := resolved, available := available),
           if available then None else if answer.Ok? then None else Some(answer.error))
  }

  predicate HasSlowHistory(m: Meta) {
    || m.snapshot.code == Some("version_probe_timeout")
    || (m.snapshot.kind == Some(Startup) && m.snapshot.latency.Some? && m.snapshot.latency.value > SLOW_THRESHOLD)
  }

  /** The version probe under the inline or the wider budget; None is success. */
  function VersionProbe(host: Host, m: Meta, wide: bool): Option<Failure> {
    var name := CommandName(m);
    if name.None? then Some(NoCommandToProbe)
    else if host.lookup(name.value).None? then Some(CommandNotFound)
    else if m.source == Builtin && m.bridge == Some("npx") && m.backend.Some? && host.skips(m.backend.value).Err? then
      Some(SkipLookup)
    else if m.source == Builtin && m.bridge == Some("npx") && m.backend.Some? && host.skips(m.backend.value).value then
      None
    else
      match host.version(host.lookup(name.value).value, wide)
      case Runs => None
      case Breaks => Some(VersionFailed)
      case TimesOut => Some(VersionTimeout)
  }

  function ErrorCode(f: Failure): string {
    match f
    case NoCommandToProbe => "command_not_found"
    case CommandNotFound => "command_not_found"
    case SkipLookup => "package_lock_invalid"
    case VersionFailed => "version_probe_failed"
    case VersionTimeout => "version_probe_timeout"
  }

  datatype Checked = Checked(meta: Meta, reason: Option<Reason>, later: bool)

  function CheckVersion(host: Host, p: Probed): Checked {
    var m := p.meta;
    if !m.available || m.source != Builtin || CommandName(m).None? then Checked(m, p.reason, false)
    else if HasSlowHistory(m) then Checked(m, None, true)
    else
      var failure := VersionProbe(host, m, false);
      match failure
      case None => Checked(m, None, false)
      case Some(VersionTimeout) => Checked(m, None, true)
      case Some(VersionFailed) =>
        Checked(m.(snapshot := m.snapshot.(
                     status := Some(Offline), kind := Some(Startup),
                     code := Some(ErrorCode(VersionFailed)), message := Some(host.detail(m.id, VersionFailed)))),
                None, false)
      case Some(f) =>
        Checked(m.(available := false, resolved := None),
                Some(PrimaryUnusable(CommandName(m).value, host.detail(m.id, f))), false)
  }

  function Check(host: Host, m: Meta): Checked {
    CheckVersion(host, ApplyProbe(host, m))
  }

  // ---------------------------------------------------------------- judging a row by its snapshot

  predicate HasSnapshot(s: Snapshot) {
    s.status.Some? || s.kind.Some? || s.code.Some? || s.at.Some? || s.successAt.Some? || s.failureAt.Some?
  }

  const MISSING_CODES := [
    "command_not_found", "command_missing", "primary_missing", "bridge_missing",
    "managed_runtime_unavailable", "no_command", "disabled"]

  predicate SaysMissing(s: Snapshot) {
    s.code.Some? && s.code.value in MISSING_CODES
  }

  function CachedReason(m: Meta): Option<Reason>
    requires SaysMissing(m.snapshot)
  {
    var code := m.snapshot.code.value;
    if code == "disabled" then Some(Disabled)
    else if code == "no_command" then Some(NoCommand)
    else if code == "bridge_missing" then
      if m.bridge.Some? then Some(BridgeMissing(m.bridge.value)) else None
    else if code == "primary_missing" then
      if m.binary.Some? then Some(PrimaryMissing(m.binary.value)) else None
    else if code == "managed_runtime_unavailable" then
      Some(ManagedRuntimeUnavailable(
             Or(m.backend, Some("runtime")).value,
             Or(m.snapshot.message, Some("managed runtime was unavailable during the last health check")).value))
    else Some(CommandMissing(Or(Or(m.binary, m.command), Some("command")).value))
  }

  function ApplyCached(m: Meta): Probed {
    if !m.enabled then Probed(m.(available := false), Some(Disabled))
    else if IsCommandlessInternal(m) then Probed(m.(available := true), None)
    else if SaysMissing(m.snapshot) then Probed(m.(available := false), CachedReason(m))
    else if !HasSnapshot(m.snapshot) then
      Probed(m.(available := false), if !IsManagedBuiltin(m) && !Filled(m.command) then Some(NoCommand) else None)
    else Probed(m.(available := true), None)
  }

  // ---------------------------------------------------------------- the five operations

  function SetReason(reasons: map<string, Reason>, id: string, reason: Option<Reason>): map<string, Reason> {
    if reason.Some? then reasons[id := reason.value] else reasons - {id}
  }

  /** Rows that decode, freshly decoded: nothing resolved, not yet available. */
  function Decoded(rows: seq<Row>): seq<Meta> {
    if rows == [] then [] else
    var last := rows[|rows|-1];
    Decoded(rows[..|rows|-1]) + if last.meta.Some? then [Fresh(last)] else []
  }

  function Fresh(row: Row): Meta
    requires row.meta.Some?
  {
    row.meta.value.(id := row.id, available := false, resolved := None)
  }

  /** The checks collected in the order they finished. */
  function Tally(host: Host, metas: seq<Meta>): Registry {
    if metas == [] then Registry(map[], map[], []) else
    var before, c := Tally(host, metas[..|metas|-1]), Check(host, metas[|metas|-1]);
    Registry(before.byId[c.meta.id := c.meta],
             if c.reason.Some? then before.reasons[c.meta.id := c.reason.value] else before.reasons,
             before.pending + if c.later then [c.meta.id] else [])
  }

  function Hydrate(host: Host, rows: seq<Row>): Registry {
    var t := Tally(host, Decoded(rows));
    t.(pending := Sort(t.pending))
  }

  function Values(byId: map<string, Meta>, order: seq<string>): seq<Meta>
    requires forall id :: id in order ==> id in byId
  {
    seq(|order|, i requires 0 <= i < |order| => byId[order[i]])
  }

  /** Only availability and the resolved command of a checked row are written back. */
  function WriteBack(host: Host, byId: map<string, Meta>, metas: seq<Meta>): map<string, Meta> {
    if metas == [] then byId else
    var before, c := WriteBack(host, byId, metas[..|metas|-1]), Check(host, metas[|metas|-1]).meta;
    if c.id in before then before[c.id := before[c.id].(available := c.available, resolved := c.resolved)] else before
  }

  function Refresh(host: Host, r: Registry, order: seq<string>): Registry
    requires Enumerates(order, r.byId.Keys)
  {
    assert forall id :: id in order <==> id in (set k | k in order);
    var metas := Values(r.byId, order);
    Registry(WriteBack(host, r.byId, metas), Tally(host, metas).reasons, Sort(Tally(host, metas).pending))
  }

  function Reload(host: Host, r: Registry, id: string, row: Option<Row>): Registry {
    if row.None? || row.value.meta.None? then r.(byId := r.byId - {id}, reasons := r.reasons - {id})
    else
      var p := ApplyProbe(host, Fresh(row.value));
      r.(byId := r.byId[p.meta.id := p.meta], reasons := SetReason(r.reasons, p.meta.id, p.reason))
  }

  predicate IsGlobal(row: Row) {
    row.user.None? || row.user == Some(SYSTEM_USER)
  }

  function Handshake(r: Registry, row: Option<Row>): Registry {
    if row.None? || !IsGlobal(row.value) || row.value.meta.None? then r
    else
      var p := ApplyCached(Fresh(row.value));
      var id := p.meta.id;
      var meta := if id in r.byId then p.meta.(available := r.byId[id].available, resolved := r.byId[id].resolved) else p.meta;
      var reason := if id in r.byId then if meta.available then None else Or(Get(r.reasons, id), p.reason) else p.reason;
      r.(byId := r.byId[id := meta], reasons := SetReason(r.reasons, id, reason))
  }

  function Settled(host: Host, m: Meta): Meta {
    var failure := VersionProbe(host, m, true);
    var at := Some(host.now(m.id));
    m.(snapshot := m.snapshot.(
      status := Some(if failure.None? then Online else Offline),
      kind := Some(Startup),
      code := if failure.None? then None else Some(ErrorCode(failure.value)),
      message := if failure.None? then None else Some(host.detail(m.id, failure.value)),
      latency := Some(host.latency(m.id)),
      at := at,
      successAt := if failure.None? then at else m.snapshot.successAt,
      failureAt := if failure.None? then m.snapshot.failureAt else at))
  }

  function SettleAll(host: Host, byId: map<string, Meta>, ids: seq<string>): map<string, Meta> {
    if ids == [] then byId else
    var before, id := SettleAll(host, byId, ids[..|ids|-1]), ids[|ids|-1];
    if id in before then before[id := Settled(host, before[id])] else before
  }

  function Recheck(host: Host, r: Registry): Registry {
    Registry(SettleAll(host, r.byId, r.pending), r.reasons, [])
  }

  datatype Op =
    | DoHydrate(host: Host, rows: seq<Row>)
    | DoRefresh(host: Host, order: seq<string>)
    | DoReload(host: Host, id: string, row: Option<Row>)
    | DoHandshake(row: Option<Row>)
    | DoRecheck(host: Host)

  predicate DistinctRows(rows: seq<Row>) {
    forall i, j :: 0 <= i < j < |rows| ==> rows[i].id != rows[j].id
  }

  predicate Allowed(r: Registry, op: Op) {
    match op
    case DoHydrate(_, rows) => DistinctRows(rows)
    case DoRefresh(_, order) => Enumerates(order, r.byId.Keys)
    case DoReload(_, id, row) => row.Some? ==> row.value.id == id
    case DoHandshake(_) => true
    case DoRecheck(_) => true
  }

  function Apply(r: Registry, op: Op): Registry
    requires Allowed(r, op)
  {
    match op
    case DoHydrate(host, rows) => Hydrate(host, rows)
    case DoRefresh(host, order) => Refresh(host, r, order)
    case DoReload(host, id, row) => Reload(host, r, id, row)
    case DoHandshake(row) => Handshake(r, row)
    case DoRecheck(host) => Recheck(host, r)
  }

  const EMPTY := Registry(map[], map[], [])

  predicate AllAllowed(r: Registry, ops: seq<Op>)
    decreases |ops|
  {
    ops == [] || (Allowed(r, ops[0]) && AllAllowed(Apply(r, ops[0]), ops[1..]))
  }

  function ApplyAll(r: Registry, ops: seq<Op>): Registry
    requires AllAllowed(r, ops)
    decreases |ops|
  {
    if ops == [] then r else ApplyAll(Apply(r, ops[0]), ops[1..])
  }

  // ---------------------------------------------------------------- the registry

  class AgentRegistry {
    var byId: map<string, Meta>
    var reasons: map<string, Reason>
    var pending: seq<string>

    constructor ()
      ensures State() == EMPTY
    {
      byId, reasons, pending := map[], map[], [];
    }

    function State(): Registry
      reads this
    {
      Registry(byId, reasons, pending)
    }

    method HydrateRows(host: Host, rows: seq<Row>)
      modifies this
      ensures State() == Hydrate(host, rows)
    {
      hide Check, Decoded;
      var metas := Decoded(rows);
      byId, reasons, pending := map[], map[], [];
      var k := 0;
      while k < |metas|
        invariant k <= |metas| && State() == Tally(host, metas[..k])
      {
        assert metas[..k+1][..k] == metas[..k];
        var c := Check(host, metas[k]);
        if c.reason.Some? {
          reasons := reasons[c.meta.id := c.reason.value];
        }
        if c.later {
          pending := pending + [c.meta.id];
        }
        byId := byId[c.meta.id := c.meta];
        k := k + 1;
      }
      assert metas[..k] == metas;
      pending := Sort(pending);
    }

    method RefreshAvailability(host: Host, order: seq<string>)
      requires Enumerates(order, byId.Keys)
      modifies this
      ensures State() == Refresh(host, old(State()), order)
    {
      assert forall id :: id in order <==> id in (set k | k in order);
      hide Check, Tally, WriteBack, Enumerates;
      var metas := Values(byId, order);
      var results, found, late := CheckAll(host, metas);
      pending := Sort(late);
      StoreAvailability(host, metas, results);
      reasons := found;
    }

    static method CheckAll(host: Host, metas: seq<Meta>)
      returns (results: seq<Meta>, found: map<string, Reason>, late: seq<string>)
      ensures found == Tally(host, metas).reasons && late == Tally(host, metas).pending
      ensures |results| == |metas| && forall i :: 0 <= i < |metas| ==> results[i] == Check(host, metas[i]).meta
    {
      hide Check;
      results, found, late := [], map[], [];
      for k := 0 to |metas|
        invariant found == Tally(host, metas[..k]).reasons && late == Tally(host, metas[..k]).pending
        invariant |results| == k && forall i :: 0 <= i < k ==> results[i] == Check(host, metas[i]).meta
      {
        assert metas[..k+1][..k] == metas[..k];
        var c := Check(host, metas[k]);
        results := results + [c.meta];
        if c.later {
          late := late + [c.meta.id];
        }
        if c.reason.Some? {
          found := found[c.meta.id := c.reason.value];
        }
      }
      assert metas[..|metas|] == metas;
    }

    method StoreAvailability(host: Host, metas: seq<Meta>, results: seq<Meta>)
      requires |results| == |metas| && forall i :: 0 <= i < |metas| ==> results[i] == Check(host, metas[i]).meta
      modifies `byId
      ensures byId == WriteBack(host, old(byId), metas)
    {
      hide Check;
      for k := 0 to |metas|
        invariant byId == WriteBack(host, old(byId), metas[..k])
      {
        assert metas[..k+1][..k] == metas[..k];
        var m := results[k];
        if m.id in byId {
          byId := byId[m.id := byId[m.id].(available := m.available, resolved := m.resolved)];
        }
      }
      assert metas[..|metas|] == metas;
    }

    method ReloadOne(host: Host, id: string, row: Option<Row>)
      modifies this
      ensures State() == Reload(host, old(State()), id, row)
    {
      if row.None? || row.value.meta.None? {
        byId, reasons := byId - {id}, reasons - {id};
        return;
      }
      var p := ApplyProbe(host, Fresh(row.value));
      reasons := SetReason(reasons, p.meta.id, p.reason);
      byId := byId[p.meta.id := p.meta];
    }

    method ApplyHandshake(row: Option<Row>)
      modifies this
      ensures State() == Handshake(old(State()), row)
    {
      if row.Some? && IsGlobal(row.value) && row.value.meta.Some? {
        var p := ApplyCached(Fresh(row.value));
        var meta, reason, id := p.meta, p.reason, p.meta.id;
        if id in byId {
          meta := meta.(available := byId[id].available, resolved := byId[id].resolved);
          reason := if meta.available then None else Or(Get(reasons, id), p.reason);
        }
        reasons := SetReason(reasons, id, reason);
        byId := byId[id := meta];
      }
    }

    method RunSlowProbeRecheck(host: Host)
      modifies this
      ensures State() == Recheck(host, old(State()))
    {
      var ids := pending;
      pending := [];
      var k := 0;
      while k < |ids|
        invariant k <= |ids| && pending == [] && reasons == old(reasons)
        invariant byId == SettleAll(host, old(byId), ids[..k])
      {
        assert ids[..k+1][..k] == ids[..k];
        if ids[k] in byId {
          byId := byId[ids[k] := Settled(host, byId[ids[k]])];
        }
        k := k + 1;
      }
      assert ids[..k] == ids;
    }
  }

  // ---------------------------------------------------------------- what one probe decides

  /** Everything that must be on the machine before a row with a spawn command is available. */
  function Needed(m: Meta): set<string>
    requires Filled(m.command)
  {
    {m.command.value}
    + (if m.bridge.Some? then {m.bridge.value} else {})
    + (if m.binary.Some? then {m.binary.value} else {})
  }

  /** The probe against its meaning: which rows come out available, and what a reason points at. */
  lemma ProbeMeans(host: Host, m: Meta)
    ensures var p := ApplyProbe(host, m);
            && (p.meta.available <==>
                  && m.enabled
                  && (if IsManagedBuiltin(m) then CommandName(m).Some? && host.candidate(CommandName(m).value).Some?
                      else if Filled(m.command) then forall name :: name in Needed(m) ==> host.candidate(name).Some?
                      else m.command.None? && m.source == Internal))
            && (p.reason.Some? <==> !p.meta.available)
            && p.meta == m.(available := p.meta.available, resolved := p.meta.resolved)
  {
  }

  lemma ReasonNamesTheMissingPiece(host: Host, m: Meta)
    requires ApplyProbe(host, m).reason.Some?
    ensures match ApplyProbe(host, m).reason.value
            case Disabled => !m.enabled
            case NoCommand => m.enabled && !Filled(m.command)
            case BridgeMissing(bridge) => m.bridge == Some(bridge) && host.candidate(bridge).None?
            case PrimaryMissing(binary) => host.candidate(binary).None? && (m.binary == Some(binary) || m.command == Some(binary))
            case CommandMissing(command) => m.command == Some(command) && host.candidate(command).None?
            case _ => false
  {
  }

  /** A check never changes who a row is; it ends with a reason exactly when the row is unavailable. */
  lemma CheckFits(host: Host, m: Meta)
    ensures var c := Check(host, m);
            && c.meta.id == m.id && c.meta.source == m.source
            && (c.reason.Some? <==> !c.meta.available)
            && (c.later ==> c.meta.available && c.meta.source == Builtin)
  {
    ProbeMeans(host, m);
  }

  // ---------------------------------------------------------------- collecting the checks

  predicate DistinctIds(metas: seq<Meta>) {
    forall i, j :: 0 <= i < j < |metas| ==> metas[i].id != metas[j].id
  }

  predicate HasId(metas: seq<Meta>, id: string) {
    exists i :: 0 <= i < |metas| && metas[i].id == id
  }

  predicate Holds(t: Registry, c: Checked) {
    && c.meta.id in t.byId && t.byId[c.meta.id] == c.meta
    && Get(t.reasons, c.meta.id) == c.reason
    && (c.meta.id in t.pending <==> c.later)
  }

  lemma HasIdOfLast(metas: seq<Meta>, id: string)
    requires metas != []
    ensures HasId(metas, id) <==> HasId(metas[..|metas|-1], id) || metas[|metas|-1].id == id
  {
    var init := metas[..|metas|-1];
    if HasId(metas, id) {
      var i :| 0 <= i < |metas| && metas[i].id == id;
      assert i < |init| ==> init[i].id == id;
    }
    if HasId(init, id) {
      var i :| 0 <= i < |init| && init[i].id == id;
      assert metas[i].id == id;
    }
  }

  /** Only checked rows turn up, in any of the three. */
  lemma {:induction false} TallyKeys(host: Host, metas: seq<Meta>, id: string)
    ensures var t := Tally(host, metas);
            && (id in t.byId <==> HasId(metas, id))
            && (id in t.reasons ==> id in t.byId)
            && (id in t.pending ==> id in t.byId)
  {
    hide Check;
    if metas != [] {
      HasIdOfLast(metas, id);
      hide HasId;
      TallyKeys(host, metas[..|metas|-1], id);
      CheckFits(host, metas[|metas|-1]);
    }
  }

  lemma {:induction false} TallyAt(host: Host, metas: seq<Meta>, i: nat)
    requires DistinctIds(metas) && i < |metas|
    ensures Holds(Tally(host, metas), Check(host, metas[i]))
  {
    hide Check;
    var init, last := metas[..|metas|-1], metas[|metas|-1];
    CheckFits(host, last);
    if i < |init| {
      TallyAt(host, init, i);
      assert init[i] == metas[i];
      CheckFits(host, metas[i]);
    } else {
      TallyKeys(host, init, last.id);
    }
  }

  lemma {:induction false} PendingHasNoRepeats(host: Host, metas: seq<Meta>)
    requires DistinctIds(metas)
    ensures NoRepeats(Tally(host, metas).pending)
  {
    hide Check;
    if metas != [] {
      var init, last := metas[..|metas|-1], metas[|metas|-1];
      PendingHasNoRepeats(host, init);
      CheckFits(host, last);
      TallyKeys(host, init, last.id);
    }
  }

  /** The checks may finish in any order: what is cached, and why, and what is put off does not depend on it. */
  lemma CheckOrderDoesNotMatter(host: Host, a: seq<Meta>, b: seq<Meta>)
    requires DistinctIds(a) && DistinctIds(b) && forall m :: m in a <==> m in b
    ensures Tally(host, a).byId == Tally(host, b).byId
    ensures Tally(host, a).reasons == Tally(host, b).reasons
    ensures Sort(Tally(host, a).pending) == Sort(Tally(host, b).pending)
  {
    hide Check, Tally, DistinctIds, Sort, NoRepeats;
    forall id
      ensures Get(Tally(host, a).byId, id) == Get(Tally(host, b).byId, id)
      ensures Get(Tally(host, a).reasons, id) == Get(Tally(host, b).reasons, id)
      ensures id in Tally(host, a).pending <==> id in Tally(host, b).pending
    {
      SameAt(host, a, b, id);
    }
    SameMap(Tally(host, a).byId, Tally(host, b).byId);
    SameMap(Tally(host, a).reasons, Tally(host, b).reasons);
    PendingHasNoRepeats(host, a);
    PendingHasNoRepeats(host, b);
    SameMembersSortAlike(Tally(host, a).pending, Tally(host, b).pending);
  }

  lemma {:induction false} DecodedMeans(rows: seq<Row>, m: Meta)
    ensures m in Decoded(rows) <==> exists k :: 0 <= k < |rows| && rows[k].meta.Some? && Fresh(rows[k]) == m
  {
    if rows != [] {
      var init, last := rows[..|rows|-1], rows[|rows|-1];
      DecodedMeans(init, m);
      assert forall k :: 0 <= k < |init| ==> init[k] == rows[k];
      assert m in Decoded(init) ==> exists k :: 0 <= k < |init| && rows[k].meta.Some? && Fresh(rows[k]) == m;
      assert last == rows[|rows|-1];
    }
  }

  lemma SameRowsDecodeAlike(rows: seq<Row>, other: seq<Row>, m: Meta)
    requires forall row :: row in rows ==> row in other
    ensures m in Decoded(rows) ==> m in Decoded(other)
  {
    DecodedMeans(rows, m);
    DecodedMeans(other, m);
    if m in Decoded(rows) {
      var k :| 0 <= k < |rows| && rows[k].meta.Some? && Fresh(rows[k]) == m;
      assert rows[k] in other;
    }
  }

  /** Loading gives the same registry, deferred list included, in whatever order the checks finish. */
  lemma HydrateIgnoresOrder(host: Host, rows: seq<Row>, other: seq<Row>)
    requires DistinctRows(rows) && DistinctRows(other) && forall row :: row in rows <==> row in other
    ensures Hydrate(host, rows) == Hydrate(host, other)
  {
    hide Tally, Sort, Decoded, DistinctRows, DistinctIds;
    DecodedAreDistinct(rows);
    DecodedAreDistinct(other);
    forall m ensures m in Decoded(rows) <==> m in Decoded(other) {
      SameRowsDecodeAlike(rows, other, m);
      SameRowsDecodeAlike(other, rows, m);
    }
    CheckOrderDoesNotMatter(host, Decoded(rows), Decoded(other));
  }

  lemma OrderMeans(order: seq<string>, keys: set<string>)
    requires Enumerates(order, keys)
    ensures forall id :: id in order <==> id in keys
  {
    assert forall id :: id in order <==> id in (set k | k in order);
  }

  lemma ValuesMean(byId: map<string, Meta>, order: seq<string>, other: seq<string>)
    requires Keyed(byId) && Enumerates(order, byId.Keys) && Enumerates(other, byId.Keys)
    ensures (forall id :: id in order ==> id in byId) && (forall id :: id in other ==> id in byId)
    ensures DistinctIds(Values(byId, order))
    ensures forall m :: m in Values(byId, order) ==> m in Values(byId, other)
  {
    OrderMeans(order, byId.Keys);
    OrderMeans(other, byId.Keys);
    forall m | m in Values(byId, order) ensures m in Values(byId, other) {
      var i :| 0 <= i < |order| && Values(byId, order)[i] == m;
      var id := order[i];
      assert id in byId.Keys && id in other;
      var j :| 0 <= j < |other| && other[j] == id;
      assert Values(byId, other)[j] == m;
    }
  }

  /** So does re-probing, in whatever order the cache is walked. */
  lemma RefreshIgnoresOrder(host: Host, r: Registry, order: seq<string>, other: seq<string>)
    requires Keyed(r.byId) && Enumerates(order, r.byId.Keys) && Enumerates(other, r.byId.Keys)
    ensures Refresh(host, r, order) == Refresh(host, r, other)
  {
    ValuesMean(r.byId, order, other);
    ValuesMean(r.byId, other, order);
    CheckOrderDoesNotMatter(host, Values(r.byId, order), Values(r.byId, other));
    hide Check, Sort, Enumerates, Tally, WriteBack;
    forall id ensures Get(Refresh(host, r, order).byId, id) == Get(Refresh(host, r, other).byId, id) {
      RefreshKeys(host, r, order, id);
      RefreshKeys(host, r, other, id);
      if id in r.byId {
        RefreshAt(host, r, order, id);
        RefreshAt(host, r, other, id);
      }
    }
    SameMap(Refresh(host, r, order).byId, Refresh(host, r, other).byId);
  }

  lemma SameMap<K, V>(a: map<K, V>, b: map<K, V>)
    requires forall k :: Get(a, k) == Get(b, k)
    ensures a == b
  {
    assert forall k :: k in a <==> Get(a, k).Some?;
    assert forall k :: k in b <==> Get(b, k).Some?;
  }

  lemma SameAt(host: Host, a: seq<Meta>, b: seq<Meta>, id: string)
    requires DistinctIds(a) && DistinctIds(b) && forall m :: m in a <==> m in b
    ensures Get(Tally(host, a).byId, id) == Get(Tally(host, b).byId, id)
    ensures Get(Tally(host, a).reasons, id) == Get(Tally(host, b).reasons, id)
    ensures id in Tally(host, a).pending <==> id in Tally(host, b).pending
  {
    hide Check, Tally;
    TallyKeys(host, a, id);
    TallyKeys(host, b, id);
    if HasId(b, id) {
      SharedId(b, a, id);
    }
    if HasId(a, id) {
      var i :| 0 <= i < |a| && a[i].id == id;
      assert a[i] in b;
      var j :| 0 <= j < |b| && b[j] == a[i];
      TallyAt(host, a, i);
      TallyAt(host, b, j);
      CheckFits(host, a[i]);
    }
  }

  lemma SharedId(a: seq<Meta>, b: seq<Meta>, id: string)
    requires forall m :: m in a ==> m in b
    requires HasId(a, id)
    ensures HasId(b, id)
  {
    var i :| 0 <= i < |a| && a[i].id == id;
    assert a[i] in b;
  }

  // ---------------------------------------------------------------- what every operation keeps

  predicate Keyed(byId: map<string, Meta>) {
    forall id :: id in byId ==> byId[id].id == id
  }

  /** A recorded reason belongs to a cached row that is unavailable. */
  predicate Sound(r: Registry) {
    && Keyed(r.byId)
    && (forall id :: id in r.reasons ==> id in r.byId && !r.byId[id].available)
  }

  /** No row is unavailable without a recorded reason. */
  predicate Explained(r: Registry) {
    forall id :: id in r.byId && !r.byId[id].available ==> id in r.reasons
  }

  /** Every probe put off belongs to a cached builtin row that is available. */
  predicate Deferred(r: Registry) {
    forall id :: id in r.pending ==> id in r.byId && r.byId[id].available && r.byId[id].source == Builtin
  }

  lemma TallyIsSound(host: Host, metas: seq<Meta>, id: string)
    requires DistinctIds(metas)
    ensures var t := Tally(host, metas);
            && (id in t.byId ==> t.byId[id].id == id && (id in t.reasons <==> !t.byId[id].available))
            && (id in t.pending ==> id in t.byId && t.byId[id].available && t.byId[id].source == Builtin)
            && (id in t.reasons ==> id in t.byId)
  {
    hide Check, Tally;
    TallyKeys(host, metas, id);
    if HasId(metas, id) {
      var i :| 0 <= i < |metas| && metas[i].id == id;
      TallyAt(host, metas, i);
      CheckFits(host, metas[i]);
    }
  }

  lemma {:induction false} DecodedAreDistinct(rows: seq<Row>)
    requires DistinctRows(rows)
    ensures DistinctIds(Decoded(rows))
    ensures forall i :: 0 <= i < |Decoded(rows)| ==> exists k :: 0 <= k < |rows| && rows[k].id == Decoded(rows)[i].id
  {
    if rows != [] {
      var init, last := rows[..|rows|-1], rows[|rows|-1];
      DecodedAreDistinct(init);
      var before := Decoded(init);
      forall i | 0 <= i < |before| ensures exists k :: 0 <= k < |rows| - 1 && rows[k].id == before[i].id {
        var k :| 0 <= k < |init| && init[k].id == before[i].id;
        assert rows[k].id == before[i].id;
      }
      var all := Decoded(rows);
      forall i | 0 <= i < |all| ensures exists k :: 0 <= k < |rows| && rows[k].id == all[i].id {
        if i == |before| {
          assert rows[|rows|-1].id == all[i].id;
        }
      }
    }
  }

  /** After loading every row: a reason for each unavailable row and no other, and only live rows deferred. */
  lemma HydrateSettlesEverything(host: Host, rows: seq<Row>)
    requires DistinctRows(rows)
    ensures Sound(Hydrate(host, rows)) && Explained(Hydrate(host, rows)) && Deferred(Hydrate(host, rows))
  {
    hide Tally, Decoded, DistinctIds;
    DecodedAreDistinct(rows);
    hide Sort;
    var t := Tally(host, Decoded(rows));
    forall id
      ensures id in t.byId ==> t.byId[id].id == id && (id in t.reasons <==> !t.byId[id].available)
      ensures id in t.pending ==> id in t.byId && t.byId[id].available && t.byId[id].source == Builtin
      ensures id in t.reasons ==> id in t.byId
      ensures id in Sort(t.pending) <==> id in t.pending
    {
      TallyIsSound(host, Decoded(rows), id);
      SortKeeps(Tally(host, Decoded(rows)).pending, id);
    }
  }

  lemma {:induction false} WriteBackMeans(host: Host, byId: map<string, Meta>, metas: seq<Meta>, id: string)
    requires DistinctIds(metas)
    ensures var after := WriteBack(host, byId, metas);
            && (id in after <==> id in byId)
            && (id in byId ==> after[id] == byId[id].(available := after[id].available, resolved := after[id].resolved))
            && (id in byId && !HasId(metas, id) ==> after[id] == byId[id])
            && (forall i :: 0 <= i < |metas| && metas[i].id == id && id in byId ==>
                  after[id].available == Check(host, metas[i]).meta.available
                  && after[id].resolved == Check(host, metas[i]).meta.resolved)
  {
    hide Check;
    if metas != [] {
      var init, last := metas[..|metas|-1], metas[|metas|-1];
      WriteBackMeans(host, byId, init, id);
      CheckFits(host, last);
      if HasId(init, id) {
        var i :| 0 <= i < |init| && init[i].id == id;
        assert metas[i].id == id;
      }
      assert forall i :: 0 <= i < |metas| && metas[i].id == id ==> if i < |init| then init[i].id == id else last.id == id;
    }
  }

  lemma RefreshAt(host: Host, r: Registry, order: seq<string>, id: string)
    requires Keyed(r.byId) && Enumerates(order, r.byId.Keys) && id in r.byId
    ensures var after := Refresh(host, r, order); var c := Check(host, r.byId[id]);
            && id in after.byId
            && after.byId[id] == r.byId[id].(available := c.meta.available, resolved := c.meta.resolved)
            && Get(after.reasons, id) == c.reason
            && (id in after.pending <==> c.later)
  {
    hide Check, Tally, WriteBack, Sort;
    assert id in (set k | k in order);
    assert forall id :: id in order <==> id in (set k | k in order);
    var metas := Values(r.byId, order);
    assert DistinctIds(metas);
    var i :| 0 <= i < |order| && order[i] == id;
    assert metas[i] == r.byId[id];
    TallyAt(host, metas, i);
    WriteBackMeans(host, r.byId, metas, id);
    CheckFits(host, metas[i]);
    SortKeeps(Tally(host, metas).pending, id);
  }

  lemma RefreshKeys(host: Host, r: Registry, order: seq<string>, id: string)
    requires Keyed(r.byId) && Enumerates(order, r.byId.Keys)
    ensures var after := Refresh(host, r, order);
            && (id in after.byId <==> id in r.byId)
            && (id in after.reasons ==> id in r.byId)
            && (id in after.pending ==> id in r.byId)
  {
    hide Check, Tally, WriteBack, Sort;
    assert forall id :: id in order <==> id in (set k | k in order);
    var metas := Values(r.byId, order);
    assert DistinctIds(metas);
    TallyKeys(host, metas, id);
    WriteBackMeans(host, r.byId, metas, id);
    SortKeeps(Tally(host, metas).pending, id);
  }

  /** The same after re-probing the cached rows, whatever state they were in; only availability may change. */
  lemma RefreshSettlesEverything(host: Host, r: Registry, order: seq<string>)
    requires Keyed(r.byId) && Enumerates(order, r.byId.Keys)
    ensures var after := Refresh(host, r, order);
            && Sound(after) && Explained(after) && Deferred(after)
            && after.byId.Keys == r.byId.Keys
            && forall id :: id in r.byId ==>
                 after.byId[id] == r.byId[id].(available := after.byId[id].available, resolved := after.byId[id].resolved)
  {
    hide Refresh, Check, Enumerates;
    var after := Refresh(host, r, order);
    forall id ensures (id in after.byId <==> id in r.byId) && (id in after.reasons ==> id in r.byId)
                      && (id in after.pending ==> id in r.byId) {
      RefreshKeys(host, r, order, id);
    }
    forall id | id in r.byId
      ensures var c := Check(host, r.byId[id]);
              && after.byId[id] == r.byId[id].(available := c.meta.available, resolved := c.meta.resolved)
              && Get(after.reasons, id) == c.reason && (id in after.pending <==> c.later)
              && (c.reason.Some? <==> !c.meta.available) && (c.later ==> c.meta.available && r.byId[id].source == Builtin)
    {
      RefreshAt(host, r, order, id);
      CheckFits(host, r.byId[id]);
    }
  }

  lemma {:induction false} SettleAllMeans(host: Host, byId: map<string, Meta>, ids: seq<string>, id: string)
    ensures var after := SettleAll(host, byId, ids);
            && (id in after <==> id in byId)
            && (id in byId ==> after[id] == if id in ids then Settled(host, byId[id]) else byId[id])
  {
    hide Settled;
    if ids != [] {
      var init, last := ids[..|ids|-1], ids[|ids|-1];
      SettleAllMeans(host, byId, init, id);
      assert ids == init + [last];
      if id in byId {
        SettlingTwiceIsOnce(host, byId[id]);
      }
    }
  }

  lemma SettlingTwiceIsOnce(host: Host, m: Meta)
    ensures Settled(host, Settled(host, m)) == Settled(host, m)
  {
    assert VersionProbe(host, Settled(host, m), true) == VersionProbe(host, m, true);
  }

  /**
   Settling the deferred probes leaves none, decides nothing about availability, and
   touches the snapshots of exactly the rows that were waiting.
   */
  lemma RecheckOnlyWritesSnapshots(host: Host, r: Registry)
    ensures var after := Recheck(host, r);
            && after.pending == [] && after.reasons == r.reasons && after.byId.Keys == r.byId.Keys
            && forall id :: id in r.byId ==>
                 && after.byId[id] == r.byId[id].(snapshot := after.byId[id].snapshot)
                 && (id !in r.pending ==> after.byId[id] == r.byId[id])
                 && (id in r.pending ==> after.byId[id].snapshot.status == Some(
                       if VersionProbe(host, r.byId[id], true).None? then Online else Offline))
  {
    hide VersionProbe, SettleAll;
    forall id
      ensures id in SettleAll(host, r.byId, r.pending) <==> id in r.byId
      ensures id in r.byId ==> SettleAll(host, r.byId, r.pending)[id] ==
                               if id in r.pending then Settled(host, r.byId[id]) else r.byId[id]
    {
      SettleAllMeans(host, r.byId, r.pending, id);
    }
  }

  lemma OperationKeepsSound(r: Registry, op: Op)
    requires Sound(r) && Allowed(r, op)
    ensures Sound(Apply(r, op))
  {
    hide Hydrate, Refresh, Recheck, ApplyProbe, Enumerates;
    match op {
      case DoHydrate(host, rows) => HydrateSettlesEverything(host, rows);
      case DoRefresh(host, order) => RefreshSettlesEverything(host, r, order);
      case DoReload(host, id, row) =>
        if row.Some? && row.value.meta.Some? {
          ProbeMeans(host, Fresh(row.value));
        }
      case DoHandshake(row) => HandshakeKeepsSound(r, row);
      case DoRecheck(host) => RecheckOnlyWritesSnapshots(host, r);
    }
  }

  lemma HandshakeKeepsSound(r: Registry, row: Option<Row>)
    requires Sound(r)
    ensures Sound(Handshake(r, row))
  {
    hide SaysMissing, CachedReason, HasSnapshot, IsManagedBuiltin, IsCommandlessInternal;
  }

  /** In every run, a recorded reason implies a cached and unavailable row. */
  lemma {:induction false} ReasonsMeanUnavailable(r: Registry, ops: seq<Op>)
    requires Sound(r) && AllAllowed(r, ops)
    ensures Sound(ApplyAll(r, ops))
    decreases |ops|
  {
    hide Apply, Allowed, Sound;
    if ops != [] {
      OperationKeepsSound(r, ops[0]);
      ReasonsMeanUnavailable(Apply(r, ops[0]), ops[1..]);
    }
  }

  // ---------------------------------------------------------------- rows unavailable without a reason

  /** A decoded row whose snapshot makes it unavailable but gives no reason. */
  predicate IsSilent(m: Meta) {
    && m.enabled && !IsCommandlessInternal(m)
    && (if SaysMissing(m.snapshot) then
          || (m.snapshot.code == Some("bridge_missing") && m.bridge.None?)
          || (m.snapshot.code == Some("primary_missing") && m.binary.None?)
        else !HasSnapshot(m.snapshot) && (IsManagedBuiltin(m) || Filled(m.command)))
  }

  /** A handshake that first brings in a silent row. */
  predicate Hushes(r: Registry, op: Op) {
    && op.DoHandshake? && op.row.Some? && IsGlobal(op.row.value) && op.row.value.meta.Some?
    && op.row.value.id !in r.byId && IsSilent(op.row.value.meta.value)
  }

  lemma CachedVerdictMeans(m: Meta)
    ensures IsSilent(m) <==> !ApplyCached(m).meta.available && ApplyCached(m).reason.None?
  {
  }

  lemma SilenceIgnoresAvailability(row: Row)
    requires row.meta.Some?
    ensures IsSilent(Fresh(row)) <==> IsSilent(row.meta.value)
  {
  }

  /** The one way a row becomes unavailable without a reason is a handshake for a silent row not yet cached. */
  lemma OnlySilentHandshakesHush(r: Registry, op: Op)
    requires Sound(r) && Explained(r) && Allowed(r, op)
    ensures Explained(Apply(r, op)) <==> !Hushes(r, op)
  {
    hide Hydrate, Refresh, Recheck, ApplyProbe, Enumerates, IsSilent, ApplyCached;
    match op {
      case DoHydrate(host, rows) => HydrateSettlesEverything(host, rows);
      case DoRefresh(host, order) => RefreshSettlesEverything(host, r, order);
      case DoReload(host, id, row) =>
        if row.Some? && row.value.meta.Some? {
          ProbeMeans(host, Fresh(row.value));
        }
      case DoHandshake(row) =>
        if row.Some? && row.value.meta.Some? {
          CachedVerdictMeans(Fresh(row.value));
          SilenceIgnoresAvailability(row.value);
          HandshakeExplains(r, row.value);
        }
      case DoRecheck(host) => RecheckOnlyWritesSnapshots(host, r);
    }
  }

  lemma CachedKeepsTheId(m: Meta)
    ensures ApplyCached(m).meta.id == m.id
  {
  }

  lemma HandshakeExplains(r: Registry, row: Row)
    requires Sound(r) && Explained(r) && row.meta.Some?
    requires IsSilent(Fresh(row)) <==> !ApplyCached(Fresh(row)).meta.available && ApplyCached(Fresh(row)).reason.None?
    ensures Explained(Handshake(r, Some(row))) <==> !(IsGlobal(row) && row.id !in r.byId && IsSilent(Fresh(row)))
  {
    hide ApplyCached, IsSilent;
    CachedKeepsTheId(Fresh(row));
    var after := Handshake(r, Some(row));
    assert IsGlobal(row) ==> row.id in after.byId;
    assert forall id :: id in r.byId && id != row.id ==> id in after.byId && after.byId[id] == r.byId[id] && Get(after.reasons, id) == Get(r.reasons, id);
  }

  /** A builtin row that was never checked. */
  function SilentRow(id: string): Row {
    Row(id, None, Some(Meta(id, Builtin, Some("claude"), true, Some("claude"), false, Some("claude"), None,
                            Snapshot(None, None, None, None, None, None, None, None), false, None)))
  }

  /** Whatever has happened so far, a handshake for such a row leaves it unavailable without a reason. */
  lemma AnyNewRowCanHush(ops: seq<Op>, id: string)
    requires AllAllowed(EMPTY, ops) && id !in ApplyAll(EMPTY, ops).byId
    ensures var r := ApplyAll(EMPTY, ops); var op := DoHandshake(Some(SilentRow(id)));
            && Allowed(r, op) && Hushes(r, op)
            && id in Apply(r, op).byId && !Apply(r, op).byId[id].available && id !in Apply(r, op).reasons
  {
  }

  // ---------------------------------------------------------------- deferral across operations

  /**
   A recheck decides whether the next refresh defers the row again: it does when the recheck
   timed out or was slow, and otherwise only when the new inline probe times out itself.
   */
  lemma RecheckDecidesDeferral(wide: Host, inline: Host, r: Registry, order: seq<string>, id: string)
    requires Sound(r) && id in r.pending && id in r.byId
    requires Enumerates(order, Recheck(wide, r).byId.Keys)
    ensures var m := r.byId[id];
            id in Refresh(inline, Recheck(wide, r), order).pending <==>
              && ApplyProbe(inline, m).meta.available && m.source == Builtin && CommandName(m).Some?
              && (|| VersionProbe(wide, m, true) == Some(VersionTimeout)
                  || wide.latency(id) > SLOW_THRESHOLD
                  || VersionProbe(inline, m, false) == Some(VersionTimeout))
  {
    hide Enumerates, Refresh, SettleAll;
    var m := r.byId[id];
    RecheckOnlyWritesSnapshots(wide, r);
    SettleAllMeans(wide, r.byId, r.pending, id);
    RefreshAt(inline, Recheck(wide, r), order, id);
    SettledDeferral(wide, inline, m);
  }

  lemma SettledDeferral(wide: Host, inline: Host, m: Meta)
    ensures Check(inline, Settled(wide, m)).later <==>
              && ApplyProbe(inline, m).meta.available && m.source == Builtin && CommandName(m).Some?
              && (|| VersionProbe(wide, m, true) == Some(VersionTimeout)
                  || wide.latency(m.id) > SLOW_THRESHOLD
                  || VersionProbe(inline, m, false) == Some(VersionTimeout))
  {
    hide VersionProbe, ResolveCommand;
    var s := Settled(wide, m);
    ProbeIgnoresSnapshot(inline, m, s.snapshot);
    var p := ApplyProbe(inline, s).meta;
    VersionProbeIgnoresState(inline, m, p);
  }

  lemma ProbeIgnoresSnapshot(host: Host, m: Meta, snapshot: Snapshot)
    ensures ApplyProbe(host, m.(snapshot := snapshot)).meta == ApplyProbe(host, m).meta.(snapshot := snapshot)
  {
  }

  lemma VersionProbeIgnoresState(host: Host, m: Meta, other: Meta)
    requires other == m.(snapshot := other.snapshot, available := other.available, resolved := other.resolved)
    ensures VersionProbe(host, other, false) == VersionProbe(host, m, false)
  {
  }
}
