/** Leases that expire lazily, and the clock they amount to. */
module ActiveLease {
  import opened Wrappers

  const ACTIVE_LEASE_TTL_MS := 90_000

  const I64_MAX := 0x7FFF_FFFF_FFFF_FFFF
  const I64_MIN := -0x8000_0000_0000_0000

  function Clamp(x: int): int {
    if x > I64_MAX then I64_MAX else if x < I64_MIN then I64_MIN else x
  }

  function SaturatingAdd(a: int, b: int): int {
    Clamp(a + b)
  }

  function SaturatingSub(a: int, b: int): int {
    Clamp(a - b)
  }

  type Leases = map<string, int>

  /** The lease of every conversation renewed at `now` runs until the same moment. */
  function Renewed(leases: Leases, ids: seq<string>, expires: int): Leases {
    if ids == [] then leases else Renewed(leases, ids[..|ids|-1], expires)[ids[|ids|-1] := expires]
  }

  /** Asking removes a lease that has run out. */
  function Swept(leases: Leases, id: string, now: int): Leases {
    if id in leases && leases[id] <= now then leases - {id} else leases
  }

  function ActiveUntil(leases: Leases, id: string, now: int): Option<int> {
    if id in leases && leases[id] > now then Some(leases[id]) else None
  }

  class ActiveLeaseRegistry {
    const ttl: int
    var leases: Leases

    constructor (ttl: int := ACTIVE_LEASE_TTL_MS)
      ensures leases == map[] && this.ttl == ttl
    {
      this.ttl := ttl;
      leases := map[];
    }

    method Renew(id: string, now: int) returns (expires: int)
      modifies this
      ensures expires == SaturatingAdd(now, ttl) && leases == Renewed(old(leases), [id], expires)
    {
      expires := SaturatingAdd(now, ttl);
      leases := leases[id := expires];
    }

    method RenewMany(ids: seq<string>, now: int) returns (count: nat, expires: int)
      modifies this
      ensures count == |ids| && expires == SaturatingAdd(now, ttl) && leases == Renewed(old(leases), ids, expires)
    {
      expires := SaturatingAdd(now, ttl);
      count := 0;
      while count < |ids|
        invariant count <= |ids| && leases == Renewed(old(leases), ids[..count], expires)
      {
        assert ids[..count+1][..count] == ids[..count];
        leases := leases[ids[count] := expires];
        count := count + 1;
      }
      assert ids[..count] == ids;
    }

    method Ask(id: string, now: int) returns (until: Option<int>)
      modifies this
      ensures until == ActiveUntil(old(leases), id, now) && leases == Swept(old(leases), id, now)
      ensures id in leases <==> id in old(leases) && old(leases)[id] > now
      ensures until == Get(leases, id)
      ensures forall other :: other != id ==> Get(leases, other) == Get(old(leases), other)
    {
      if id !in leases {
        return None;
      }
      if leases[id] > now {
        return Some(leases[id]);
      }
      leases := leases - {id};
      return None;
    }
  }

  // ---------------------------------------------------------------- histories

  datatype LeaseOp = DoRenew(ids: seq<string>, now: int) | DoAsk(id: string, now: int)

  function ApplyOp(leases: Leases, op: LeaseOp, ttl: int): Leases {
    match op
    case DoRenew(ids, now) => Renewed(leases, ids, SaturatingAdd(now, ttl))
    case DoAsk(id, now) => Swept(leases, id, now)
  }

  function ApplyOps(leases: Leases, ops: seq<LeaseOp>, ttl: int): Leases {
    if ops == [] then leases else ApplyOp(ApplyOps(leases, ops[..|ops|-1], ttl), ops[|ops|-1], ttl)
  }

  /** A moment after a time to live, kept within 64 bits. */
  function Until(now: int, ttl: int): int {
    if now + ttl > 9223372036854775807 then 9223372036854775807
    else if now + ttl < -9223372036854775808 then -9223372036854775808
    else now + ttl
  }

  /** When the last renewal of a conversation runs out; questions play no part. */
  function LastExpiry(ops: seq<LeaseOp>, id: string, ttl: int): Option<int> {
    if ops == [] then None else
    var last := ops[|ops|-1];
    if last.DoRenew? && id in last.ids then Some(Until(last.now, ttl)) else LastExpiry(ops[..|ops|-1], id, ttl)
  }

  predicate ClockNeverRunsBack(ops: seq<LeaseOp>, now: int) {
    && (forall i :: 0 <= i < |ops| ==> ops[i].now <= now)
    && (forall i, j :: 0 <= i < j < |ops| ==> ops[i].now <= ops[j].now)
  }

  lemma {:induction false} RenewedMeans(leases: Leases, ids: seq<string>, expires: int, id: string)
    ensures Get(Renewed(leases, ids, expires), id) == if id in ids then Some(expires) else Get(leases, id)
  {
    if ids != [] {
      RenewedMeans(leases, ids[..|ids|-1], expires, id);
      assert id in ids <==> id in ids[..|ids|-1] || id == ids[|ids|-1];
    }
  }

  lemma {:induction false} LeasesFollowTheClock(ops: seq<LeaseOp>, ttl: int, id: string, now: int)
    requires ClockNeverRunsBack(ops, now)
    ensures var kept := Get(ApplyOps(map[], ops, ttl), id);
            kept == LastExpiry(ops, id, ttl)
            || (kept.None? && LastExpiry(ops, id, ttl).Some? && LastExpiry(ops, id, ttl).value <= now)
  {
    if ops != [] {
      var init, last := ops[..|ops|-1], ops[|ops|-1];
      LeasesFollowTheClock(init, ttl, id, last.now);
      if last.DoRenew? {
        RenewedMeans(ApplyOps(map[], init, ttl), last.ids, SaturatingAdd(last.now, ttl), id);
      }
    }
  }

  /**
   Lazily swept leases are a simple clock: a conversation is active exactly until its
   last renewal runs out, whatever was asked and removed in between.
   */
  lemma LeasesRefineTheClock(ops: seq<LeaseOp>, ttl: int, id: string, now: int)
    requires ClockNeverRunsBack(ops, now)
    ensures var e := LastExpiry(ops, id, ttl);
            ActiveUntil(ApplyOps(map[], ops, ttl), id, now) == if e.Some? && e.value > now then e else None
  {
    LeasesFollowTheClock(ops, ttl, id, now);
  }
}
