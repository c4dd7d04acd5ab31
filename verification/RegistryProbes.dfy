/**
 What the catalog operations decide about one row, in terms of the row's fields and the
 machine's answers alone.
 */
module RegistryProbes {
  import opened Wrappers
  import opened Ordering
  import opened Registry

  // ---------------------------------------------------------------- what the machine has

  /** The command whose version is probed: the override, else the primary binary, else the spawn command. */
  function ProbedName(m: Meta): Option<string> {
    if m.overridden && m.command.Some? && m.command.value != "" then m.command
    else if m.binary.Some? then m.binary else m.command
  }

  predicate HasCommand(m: Meta) {
    m.command.Some? && m.command.value != ""
  }

  predicate IsClaudeOrCodex(m: Meta) {
    m.source == Builtin && m.backend.Some? && m.backend.value in {"claude", "codex"}
  }

  /** An enabled row is installed when everything it needs is on the machine; some internal rows need nothing. */
  predicate IsInstalled(host: Host, m: Meta) {
    && m.enabled
    && (if IsClaudeOrCodex(m) then ProbedName(m).Some? && host.candidate(ProbedName(m).value).Some?
        else if HasCommand(m) then
          && host.candidate(m.command.value).Some?
          && (m.bridge.Some? ==> host.candidate(m.bridge.value).Some?)
          && (m.binary.Some? ==> host.candidate(m.binary.value).Some?)
        else m.command == None && m.source == Internal)
  }

  /** Where the row is started from, once installed. */
  function StartedFrom(host: Host, m: Meta): Option<string> {
    if IsClaudeOrCodex(m) then (if ProbedName(m).Some? then host.candidate(ProbedName(m).value) else None)
    else if HasCommand(m) then host.candidate(m.command.value) else None
  }

  predicate IsSlow(m: Meta) {
    || m.snapshot.code == Some("version_probe_timeout")
    || (m.snapshot.kind == Some(Startup) && m.snapshot.latency.Some? && m.snapshot.latency.value > 2000)
  }

  predicate IsFound(host: Host, m: Meta) {
    ProbedName(m).Some? && host.lookup(ProbedName(m).value).Some?
  }

  predicate UsesNpx(m: Meta) {
    m.source == Builtin && m.bridge == Some("npx") && m.backend.Some?
  }

  predicate LockIsReadable(host: Host, m: Meta) {
    UsesNpx(m) ==> host.skips(m.backend.value).Ok?
  }

  predicate IsSkipped(host: Host, m: Meta) {
    UsesNpx(m) && host.skips(m.backend.value) == Ok(true)
  }

  /** The version run that is made, and its answer. */
  predicate Answers(host: Host, m: Meta, wide: bool, answer: Version) {
    && IsFound(host, m) && LockIsReadable(host, m) && !IsSkipped(host, m)
    && host.version(host.lookup(ProbedName(m).value).value, wide) == answer
  }

  predicate Passes(host: Host, m: Meta, wide: bool) {
    IsFound(host, m) && LockIsReadable(host, m) && (IsSkipped(host, m) || Answers(host, m, wide, Runs))
  }

  lemma NamesAgree(m: Meta)
    ensures CommandName(m) == ProbedName(m) && IsManagedBuiltin(m) == IsClaudeOrCodex(m) && Filled(m.command) == HasCommand(m)
  {
  }

  /** The version probe succeeds when the machine says so, and otherwise fails for the first thing wrong. */
  lemma VersionProbeMeans(host: Host, m: Meta, wide: bool)
    ensures var failure := VersionProbe(host, m, wide);
            && (failure == None <==> Passes(host, m, wide))
            && (failure == Some(NoCommandToProbe) <==> ProbedName(m) == None)
            && (failure == Some(CommandNotFound) <==> ProbedName(m).Some? && !IsFound(host, m))
            && (failure == Some(SkipLookup) <==> IsFound(host, m) && !LockIsReadable(host, m))
            && (failure == Some(VersionFailed) <==> Answers(host, m, wide, Breaks))
            && (failure == Some(VersionTimeout) <==> Answers(host, m, wide, TimesOut))
  {
    NamesAgree(m);
    hide CommandName, ProbedName;
  }

  lemma InstalledMeans(host: Host, m: Meta)
    ensures var p := ApplyProbe(host, m);
            && (p.meta.available <==> IsInstalled(host, m))
            && p.meta == m.(available := IsInstalled(host, m), resolved := p.meta.resolved)
            && (p.meta.available ==> p.meta.resolved == StartedFrom(host, m))
            && (!p.meta.available ==> p.meta.resolved == None)
  {
    NamesAgree(m);
    hide CommandName, ProbedName;
  }

  lemma InstalledBuiltinHasName(host: Host, m: Meta)
    requires IsInstalled(host, m) && m.source == Builtin
    ensures ProbedName(m).Some?
  {
  }

  // ---------------------------------------------------------------- what a check decides

  /** A builtin row that is installed and not known to be slow has its version probed. */
  predicate IsProbed(host: Host, m: Meta) {
    IsInstalled(host, m) && m.source == Builtin && !IsSlow(m)
  }

  /** An installed row stays available unless its probe finds no command or no readable package lock. */
  predicate StaysUp(host: Host, m: Meta) {
    IsInstalled(host, m) && (IsProbed(host, m) ==> IsFound(host, m) && LockIsReadable(host, m))
  }

  /** A version probe that is put off: it is known to be slow, or has just been. */
  predicate IsPutOff(host: Host, m: Meta) {
    IsInstalled(host, m) && m.source == Builtin && (IsSlow(m) || Answers(host, m, false, TimesOut))
  }

  /** A version that breaks is recorded; nothing else touches what is known about the row. */
  function SnapshotAfter(host: Host, m: Meta): Snapshot {
    if IsProbed(host, m) && Answers(host, m, false, Breaks) then
      m.snapshot.(status := Some(Offline), kind := Some(Startup), code := Some("version_probe_failed"),
                  message := Some(host.detail(m.id, VersionFailed)))
    else m.snapshot
  }

  lemma CheckDecides(host: Host, m: Meta)
    ensures var c := Check(host, m);
            && c.meta == m.(available := StaysUp(host, m), snapshot := SnapshotAfter(host, m), resolved := c.meta.resolved)
            && c.meta.resolved == (if StaysUp(host, m) then StartedFrom(host, m) else None)
            && (c.later <==> IsPutOff(host, m))
            && (c.reason == None <==> StaysUp(host, m))
            && (IsProbed(host, m) && !StaysUp(host, m) ==>
                  c.reason.value.PrimaryUnusable? && Some(c.reason.value.binary) == ProbedName(m))
            && (!IsInstalled(host, m) ==> c.reason == ApplyProbe(host, m).reason)
  {
    InstalledMeans(host, m);
    var p := ApplyProbe(host, m).meta;
    VersionProbeMeans(host, m, false);
    assert VersionProbe(host, p, false) == VersionProbe(host, m, false) by {
      VersionProbeIgnoresState(host, m, p);
    }
    NamesAgree(m);
    NamesAgree(p);
    ProbeMeans(host, m);
    assert ProbedName(p) == ProbedName(m) && HasSlowHistory(p) == IsSlow(m);
    if IsInstalled(host, m) && m.source == Builtin {
      InstalledBuiltinHasName(host, m);
    }
    hide ApplyProbe, VersionProbe, CommandName, ProbedName, IsInstalled, IsFound, LockIsReadable, IsSkipped, Answers, Passes, HasSlowHistory, IsSlow, StartedFrom;
  }

  /** After re-probing the cache: row by row, by the machine's answers. The snapshot is not written back. */
  lemma RefreshDecides(host: Host, r: Registry, order: seq<string>, id: string)
    requires Keyed(r.byId) && Enumerates(order, r.byId.Keys) && id in r.byId
    ensures var m, after := r.byId[id], Refresh(host, r, order);
            && id in after.byId
            && after.byId[id] == m.(available := StaysUp(host, m), resolved := if StaysUp(host, m) then StartedFrom(host, m) else None)
            && (id in after.reasons <==> !StaysUp(host, m))
            && (id in after.pending <==> IsPutOff(host, m))
            && (IsProbed(host, m) && !StaysUp(host, m) ==>
                  after.reasons[id].PrimaryUnusable? && Some(after.reasons[id].binary) == ProbedName(m))
  {
    hide Refresh, Check, StaysUp, IsPutOff, IsProbed, StartedFrom, SnapshotAfter, ProbedName, IsInstalled, Enumerates;
    RefreshAt(host, r, order, id);
    CheckDecides(host, r.byId[id]);
  }

  /** After loading: the same for every row that decodes, and a version that breaks is recorded as Offline. */
  lemma HydrateDecides(host: Host, rows: seq<Row>, k: nat)
    requires DistinctRows(rows) && k < |rows| && rows[k].meta.Some?
    ensures var id, m, after := rows[k].id, Fresh(rows[k]), Hydrate(host, rows);
            && id in after.byId
            && after.byId[id] == m.(available := StaysUp(host, m), snapshot := SnapshotAfter(host, m),
                                    resolved := if StaysUp(host, m) then StartedFrom(host, m) else None)
            && (id in after.reasons <==> !StaysUp(host, m))
            && (id in after.pending <==> IsPutOff(host, m))
            && (IsProbed(host, m) && !StaysUp(host, m) ==>
                  after.reasons[id].PrimaryUnusable? && Some(after.reasons[id].binary) == ProbedName(m))
  {
    hide Check, Tally, Sort, StaysUp, IsPutOff, IsProbed, StartedFrom, SnapshotAfter, ProbedName, IsInstalled, Decoded, DistinctIds, DistinctRows;
    var m := Fresh(rows[k]);
    DecodedAreDistinct(rows);
    DecodedMeans(rows, m);
    var i :| 0 <= i < |Decoded(rows)| && Decoded(rows)[i] == m;
    TallyAt(host, Decoded(rows), i);
    SortKeeps(Tally(host, Decoded(rows)).pending, m.id);
    CheckDecides(host, m);
  }

  /** A reload takes the probe's word for whether a row is installed, and runs no version. */
  lemma ReloadDecides(host: Host, r: Registry, row: Row)
    requires row.meta.Some?
    ensures var id, m, after := row.id, Fresh(row), Reload(host, r, row.id, Some(row));
            && id in after.byId
            && after.byId[id] == m.(available := IsInstalled(host, m), resolved := if IsInstalled(host, m) then StartedFrom(host, m) else None)
            && (id in after.reasons <==> !IsInstalled(host, m))
            && after.pending == r.pending
            && (forall other :: other != id ==> Get(after.byId, other) == Get(r.byId, other) && Get(after.reasons, other) == Get(r.reasons, other))
  {
    hide IsInstalled, ApplyProbe;
    InstalledMeans(host, Fresh(row));
    ProbeMeans(host, Fresh(row));
  }

  // ---------------------------------------------------------------- what a recheck records

  /** The code a failed probe leaves, by what went wrong. */
  function FailureCode(host: Host, m: Meta): string {
    if !IsFound(host, m) then "command_not_found"
    else if !LockIsReadable(host, m) then "package_lock_invalid"
    else if Answers(host, m, true, Breaks) then "version_probe_failed" else "version_probe_timeout"
  }

  /**
   A recheck records, for each cached row that was waiting, whether the wider probe passed,
   what it cost, and the time of the check, as that of a success or of a failure.
   */
  lemma RecheckRecords(host: Host, r: Registry, id: string)
    requires Keyed(r.byId) && id in r.byId && id in r.pending
    ensures var m, after := r.byId[id], Recheck(host, r); var passed := Passes(host, m, true); var now := Some(host.now(id));
            && id in after.byId
            && var s := after.byId[id].snapshot;
               && after.byId[id] == m.(snapshot := s)
               && s.status == Some(if passed then Online else Offline)
               && s.kind == Some(Startup) && s.latency == Some(host.latency(id)) && s.at == now
               && s.code == (if passed then None else Some(FailureCode(host, m)))
               && (s.message == None <==> passed)
               && s.successAt == (if passed then now else m.snapshot.successAt)
               && s.failureAt == (if passed then m.snapshot.failureAt else now)
  {
    SettleAllMeans(host, r.byId, r.pending, id);
    VersionProbeMeans(host, r.byId[id], true);
    hide VersionProbe, SettleAll, Passes, IsFound, LockIsReadable, Answers, ProbedName;
    assert IsFound(host, r.byId[id]) ==> ProbedName(r.byId[id]).Some? by {
      NameWhenFound(host, r.byId[id]);
    }
  }

  lemma NameWhenFound(host: Host, m: Meta)
    ensures IsFound(host, m) ==> ProbedName(m).Some?
    ensures !Passes(host, m, true) && IsFound(host, m) && LockIsReadable(host, m) && !Answers(host, m, true, Breaks)
            ==> Answers(host, m, true, TimesOut)
  {
  }

  // ---------------------------------------------------------------- what a handshake decides

  predicate NeedsNoCommand(m: Meta) {
    m.enabled && m.command == None && m.source == Internal
  }

  /** The last check said a piece was missing, or the row was off. */
  predicate LastCheckFoundMissing(m: Meta) {
    m.snapshot.code.Some? && m.snapshot.code.value in
      {"command_not_found", "command_missing", "primary_missing", "bridge_missing", "managed_runtime_unavailable", "no_command", "disabled"}
  }

  predicate WasChecked(m: Meta) {
    var s := m.snapshot;
    !(s.status == None && s.kind == None && s.code == None && s.at == None && s.successAt == None && s.failureAt == None)
  }

  /** A row judged by its snapshot alone. */
  predicate LooksUsable(m: Meta) {
    m.enabled && (NeedsNoCommand(m) || (!LastCheckFoundMissing(m) && WasChecked(m)))
  }

  lemma CachedMeans(m: Meta)
    ensures var p := ApplyCached(m);
            && p.meta == m.(available := LooksUsable(m))
            && (p.reason.Some? ==> !LooksUsable(m))
  {
    hide CachedReason;
  }

  /** The reason given for a row without a machine at hand: what the last check recorded. */
  lemma RecordedReasonMeans(m: Meta)
    ensures var reason, code := ApplyCached(m).reason, m.snapshot.code;
            if !m.enabled then reason == Some(Disabled)
            else if NeedsNoCommand(m) then reason == None
            else
              && (reason == Some(Disabled) <==> code == Some("disabled"))
              && (code == Some("no_command") ==> reason == Some(NoCommand))
              && (code == Some("bridge_missing") && m.bridge.Some? ==> reason == Some(BridgeMissing(m.bridge.value)))
              && (code == Some("primary_missing") && m.binary.Some? ==> reason == Some(PrimaryMissing(m.binary.value)))
              && (code == Some("command_not_found") || code == Some("command_missing") ==>
                    reason == Some(CommandMissing(if m.binary.Some? then m.binary.value
                                                  else if m.command.Some? then m.command.value else "command")))
              && (code == Some("managed_runtime_unavailable") ==>
                    reason == Some(ManagedRuntimeUnavailable(
                                     if m.backend.Some? then m.backend.value else "runtime",
                                     if m.snapshot.message.Some? then m.snapshot.message.value
                                     else "managed runtime was unavailable during the last health check")))
  {
  }

  /**
   A handshake touches one row, and only a row every user shares. A cached row keeps its
   availability; a new one is judged by its snapshot.
   */
  lemma HandshakeDecides(r: Registry, row: Row)
    ensures var id, after := row.id, Handshake(r, Some(row));
            if row.meta.None? || !(row.user == None || row.user == Some("system_default_user")) then after == r
            else
              var m := row.meta.value.(id := id);
              && id in after.byId && after.pending == r.pending
              && after.byId[id] == (if id in r.byId then m.(available := r.byId[id].available, resolved := r.byId[id].resolved)
                                    else m.(available := LooksUsable(m), resolved := None))
              && (id in after.reasons ==> !after.byId[id].available)
              && (id in r.byId && id in r.reasons && !r.byId[id].available ==> after.reasons[id] == r.reasons[id])
              && (!(id in r.byId && (r.byId[id].available || id in r.reasons)) ==> Get(after.reasons, id) == ApplyCached(Fresh(row)).reason)
              && (forall other :: other != id ==> Get(after.byId, other) == Get(r.byId, other) && Get(after.reasons, other) == Get(r.reasons, other))
  {
    if row.meta.Some? {
      CachedMeans(Fresh(row));
      assert LooksUsable(Fresh(row)) == LooksUsable(row.meta.value.(id := row.id));
    }
    hide ApplyCached, LooksUsable;
  }
}
