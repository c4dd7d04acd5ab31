/** The token store and the verdict on a token, by the history of issues and revocations alone. */
module TokenHistory {
  import opened Wrappers
  import opened Texts
  import opened RuntimeToken

  // ---------------------------------------------------------------- which issues are live

  /** A later operation that ends a token issued for `r`: a revocation that names it, or an issue it does not serve. */
  predicate Ends(op: Op, r: Request) {
    match op
    case DoIssue(next) =>
      next.user == r.user && next.conversation == r.conversation && !(next.generation == r.generation && next.scopes <= r.scopes)
    case DoDropConversation(user, conversation) => user == r.user && conversation == r.conversation
    case DoDropConversationId(conversation) => conversation == r.conversation
    case DoDropGeneration(conversation, generation) => conversation == r.conversation && generation == r.generation
  }

  predicate LastsFrom(ops: seq<Op>, k: nat)
    requires k < |ops| && ops[k].DoIssue?
  {
    forall j :: k < j < |ops| ==> !Ends(ops[j], ops[k].r)
  }

  /** An earlier token is handed out again for a request of the same holder and generation that asks for no more. */
  predicate Covers(r: Request, next: Request) {
    && r.user == next.user && r.conversation == next.conversation && r.generation == next.generation
    && next.scopes <= r.scopes
  }

  /** Issue `k` drew a token of its own: no live token covered it. */
  predicate IsMade(ops: seq<Op>, k: nat)
    decreases k
  {
    && k < |ops| && ops[k].DoIssue?
    && forall j :: 0 <= j < k && IsMade(ops, j) && LastsFrom(ops[..k], j) ==> !Covers(ops[j].r, ops[k].r)
  }

  /** Issue `k` drew a token, and nothing has revoked or replaced it since. */
  predicate IsLive(ops: seq<Op>, k: int): (live: bool)
    ensures live ==> 0 <= k < |ops| && ops[k].DoIssue?
  {
    0 <= k < |ops| && IsMade(ops, k) && LastsFrom(ops, k)
  }

  /** Some live token will be handed out again for this request. */
  ghost predicate HasCovering(ops: seq<Op>, r: Request) {
    exists j :: IsLive(ops, j) && Covers(ops[j].r, r)
  }

  /** Every issue walks the whole store, in some order. */
  predicate WalksFit(hash: Hash, ops: seq<Op>) {
    forall k :: 0 <= k < |ops| && ops[k].DoIssue? ==> Enumerates(ops[k].r.order, After(hash, map[], ops[..k]).Keys)
  }

  lemma {:induction false} MadeByPrefix(ops: seq<Op>, n: nat, k: nat)
    requires k < n <= |ops|
    ensures IsMade(ops[..n], k) <==> IsMade(ops, k)
    decreases k
  {
    assert ops[..n][..k] == ops[..k];
    forall j | 0 <= j < k ensures IsMade(ops[..n], j) <==> IsMade(ops, j) {
      MadeByPrefix(ops, n, j);
    }
    hide Covers, LastsFrom;
  }

  lemma LastsByPrefix(ops: seq<Op>, k: nat)
    requires ops != [] && k < |ops| - 1 && ops[k].DoIssue?
    ensures LastsFrom(ops, k) <==> LastsFrom(ops[..|ops|-1], k) && !Ends(ops[|ops|-1], ops[k].r)
  {
    hide Ends;
    var init := ops[..|ops|-1];
    assert forall j :: k < j < |init| ==> init[j] == ops[j];
  }

  lemma LiveByPrefix(ops: seq<Op>, k: nat)
    requires ops != [] && k < |ops| - 1
    ensures IsLive(ops, k) <==> IsLive(ops[..|ops|-1], k) && !Ends(ops[|ops|-1], ops[k].r)
  {
    hide Ends, LastsFrom;
    MadeByPrefix(ops, |ops| - 1, k);
    if ops[k].DoIssue? {
      LastsByPrefix(ops, k);
    }
  }

  // ---------------------------------------------------------------- the store is its live issues

  /** The entry an issue makes. */
  function EntryFor(r: Request): Entry {
    Entry(r.draw, Claims(r.user, r.conversation, r.scopes, r.now, r.generation))
  }

  ghost predicate Stored(hash: Hash, tokens: Store, r: Request) {
    hash(r.draw) in tokens && tokens[hash(r.draw)] == EntryFor(r)
  }

  ghost predicate ComesFrom(hash: Hash, ops: seq<Op>, h: string) {
    exists k :: IsLive(ops, k) && h == hash(ops[k].r.draw)
  }

  ghost predicate IsHistory(hash: Hash, tokens: Store, ops: seq<Op>) {
    && (forall k :: IsLive(ops, k) ==> Stored(hash, tokens, ops[k].r))
    && (forall h :: h in tokens ==> ComesFrom(hash, ops, h))
  }

  lemma RevokedStore(hash: Hash, tokens: Store, ops: seq<Op>)
    requires Injective(hash) && ops != [] && !ops[|ops|-1].DoIssue? && IsHistory(hash, tokens, ops[..|ops|-1])
    ensures IsHistory(hash, Apply(hash, tokens, ops[|ops|-1]), ops)
  {
    hide IsLive;
    var init, last := ops[..|ops|-1], ops[|ops|-1];
    var after := Apply(hash, tokens, last);
    forall k | IsLive(ops, k) ensures Stored(hash, after, ops[k].r) {
      LiveByPrefix(ops, k);
      assert init[k] == ops[k];
      assert Stored(hash, tokens, init[k].r);
    }
    forall h | h in after ensures ComesFrom(hash, ops, h) {
      assert h in tokens && ComesFrom(hash, init, h);
      var k :| IsLive(init, k) && h == hash(init[k].r.draw);
      LiveByPrefix(ops, k);
      assert init[k] == ops[k] && Stored(hash, tokens, init[k].r);
      assert IsLive(ops, k);
    }
  }

  /** The issue that serves a request again, if there is one, is what the walk of the store finds. */
  lemma FoundIsCovering(hash: Hash, tokens: Store, init: seq<Op>, r: Request)
    requires IsHistory(hash, tokens, init) && Enumerates(r.order, tokens.Keys)
    ensures Existing(tokens, r, r.order).Some? <==> HasCovering(init, r)
  {
    hide IsLive, Existing;
    ExistingMeans(tokens, r, r.order);
    assert forall h :: h in r.order <==> h in (set k | k in r.order);
    if Existing(tokens, r, r.order).Some? {
      var h :| h in r.order && h in tokens && Serves(tokens[h], r);
      assert ComesFrom(hash, init, h);
      var j :| IsLive(init, j) && h == hash(init[j].r.draw);
      assert Stored(hash, tokens, init[j].r);
      assert tokens[h] == EntryFor(init[j].r);
      assert Serves(EntryFor(init[j].r), r);
      assert r.scopes <= init[j].r.scopes;
      assert init[j].r.generation == r.generation;
      assert Covers(init[j].r, r);
    } else {
      forall j | IsLive(init, j) ensures !Covers(init[j].r, r) {
        assert Stored(hash, tokens, init[j].r);
        assert hash(init[j].r.draw) in r.order;
      }
    }
  }

  lemma LastIsMade(ops: seq<Op>)
    requires ops != [] && ops[|ops|-1].DoIssue?
    ensures IsLive(ops, |ops| - 1) <==> !HasCovering(ops[..|ops|-1], ops[|ops|-1].r)
  {
    var n, init := |ops| - 1, ops[..|ops|-1];
    assert LastsFrom(ops, n);
    hide Covers, LastsFrom;
    forall j | 0 <= j < n ensures IsMade(init, j) <==> IsMade(ops, j) {
      MadeByPrefix(ops, n, j);
    }
    assert forall j: nat :: j < n ==> init[j] == ops[j];
  }

  /** An issue that is served again ends no live token. */
  lemma ServedEndsNothing(hash: Hash, tokens: Store, drawn: set<string>, init: seq<Op>, r: Request, k: int)
    requires Injective(hash) && Valid(hash, tokens, drawn) && IsHistory(hash, tokens, init)
    requires HasCovering(init, r) && IsLive(init, k)
    ensures !Ends(DoIssue(r), init[k].r)
  {
    hide IsLive, IsHexToken, Valid, Injective;
    var j :| IsLive(init, j) && Covers(init[j].r, r);
    assert Stored(hash, tokens, init[j].r) && Stored(hash, tokens, init[k].r);
    if init[k].r.user == r.user && init[k].r.conversation == r.conversation {
      SameHolderSameIssue(hash, tokens, drawn, init[j].r, init[k].r);
    }
  }

  lemma ServedStore(hash: Hash, tokens: Store, drawn: set<string>, ops: seq<Op>)
    requires Injective(hash) && ops != [] && ops[|ops|-1].DoIssue? && IsHistory(hash, tokens, ops[..|ops|-1])
    requires Valid(hash, tokens, drawn) && HasCovering(ops[..|ops|-1], ops[|ops|-1].r)
    ensures IsHistory(hash, tokens, ops)
  {
    hide IsLive, IsHexToken, Valid, Injective, Ends, HasCovering, Covers;
    var n, init, r := |ops| - 1, ops[..|ops|-1], ops[|ops|-1].r;
    LastIsMade(ops);
    forall k: int
      ensures k < n ==> (IsLive(ops, k) <==> IsLive(init, k))
    {
      if 0 <= k < n {
        LiveByPrefix(ops, k);
        if IsLive(init, k) {
          ServedEndsNothing(hash, tokens, drawn, init, r, k);
        }
      }
    }
    forall k | IsLive(ops, k) ensures Stored(hash, tokens, ops[k].r) {
      assert init[k] == ops[k] && IsLive(init, k);
    }
    forall h | h in tokens ensures ComesFrom(hash, ops, h) {
      assert ComesFrom(hash, init, h);
      var k :| IsLive(init, k) && h == hash(init[k].r.draw);
      assert init[k] == ops[k] && IsLive(ops, k);
    }
  }

  /** Of two stored issues of one holder, an operation that covers by one does not end the other. */
  lemma SameHolderSameIssue(hash: Hash, tokens: Store, drawn: set<string>, a: Request, b: Request)
    requires Injective(hash) && Valid(hash, tokens, drawn) && Stored(hash, tokens, a) && Stored(hash, tokens, b)
    requires a.user == b.user && a.conversation == b.conversation
    ensures a.generation == b.generation && a.scopes == b.scopes
  {
    hide IsHexToken;
    assert SameHolder(tokens[hash(a.draw)].claims, tokens[hash(b.draw)].claims);
  }

  lemma NewlyIssuedStore(hash: Hash, tokens: Store, drawn: set<string>, ops: seq<Op>)
    requires Injective(hash) && ops != [] && ops[|ops|-1].DoIssue? && IsHistory(hash, tokens, ops[..|ops|-1])
    requires Valid(hash, tokens, drawn) && ops[|ops|-1].r.draw !in drawn && !HasCovering(ops[..|ops|-1], ops[|ops|-1].r)
    ensures var r := ops[|ops|-1].r;
            IsHistory(hash, DropConversation(tokens, r.user, r.conversation)[hash(r.draw) := EntryFor(r)], ops)
  {
    hide IsLive, IsHexToken;
    var n, init, r := |ops| - 1, ops[..|ops|-1], ops[|ops|-1].r;
    var after := DropConversation(tokens, r.user, r.conversation)[hash(r.draw) := EntryFor(r)];
    LastIsMade(ops);
    forall k | IsLive(ops, k) ensures Stored(hash, after, ops[k].r) {
      if k < n {
        LiveByPrefix(ops, k);
        assert init[k] == ops[k] && Stored(hash, tokens, init[k].r);
        assert !Covers(init[k].r, r);
      }
    }
    forall h | h in after ensures ComesFrom(hash, ops, h) {
      if h == hash(r.draw) {
        assert IsLive(ops, n);
      } else {
        assert h in tokens && ComesFrom(hash, init, h);
        var k :| IsLive(init, k) && h == hash(init[k].r.draw);
        LiveByPrefix(ops, k);
        assert init[k] == ops[k] && Stored(hash, tokens, init[k].r);
        assert IsLive(ops, k);
      }
    }
  }

  lemma IssuedStore(hash: Hash, tokens: Store, drawn: set<string>, ops: seq<Op>)
    requires Injective(hash) && ops != [] && ops[|ops|-1].DoIssue? && IsHistory(hash, tokens, ops[..|ops|-1])
    requires Valid(hash, tokens, drawn) && ops[|ops|-1].r.draw !in drawn
    requires Enumerates(ops[|ops|-1].r.order, tokens.Keys)
    ensures IsHistory(hash, Apply(hash, tokens, ops[|ops|-1]), ops)
  {
    hide IsHistory, Existing, Valid, Injective, Enumerates, HasCovering;
    var init, r := ops[..|ops|-1], ops[|ops|-1].r;
    FoundIsCovering(hash, tokens, init, r);
    if HasCovering(init, r) {
      ServedStore(hash, tokens, drawn, ops);
    } else {
      NewlyIssuedStore(hash, tokens, drawn, ops);
    }
  }

  /** After any run the store holds the tokens of the live issues, and those alone. */
  lemma {:induction false} StoreIsHistory(hash: Hash, ops: seq<Op>)
    requires Injective(hash) && FreshDraws({}, ops) && WalksFit(hash, ops)
    ensures IsHistory(hash, After(hash, map[], ops), ops)
  {
    hide IsHistory, Apply, Valid, Injective, Enumerates, IsHexToken;
    if ops == [] {
      NothingIssued(hash);
    } else {
      var init, last := ops[..|ops|-1], ops[|ops|-1];
      assert forall k :: 0 <= k < |init| ==> init[..k] == ops[..k];
      StoreIsHistory(hash, init);
      OneLiveToken(hash, init);
      if last.DoIssue? {
        assert last.r.draw !in Drawn(init);
        IssuedStore(hash, After(hash, map[], init), Drawn(init), ops);
      } else {
        RevokedStore(hash, After(hash, map[], init), ops);
      }
    }
  }

  lemma NothingIssued(hash: Hash)
    ensures IsHistory(hash, map[], [])
  {
  }

  // ---------------------------------------------------------------- the verdict

  /** The first of the four claims that differs, or none. */
  function FirstMismatch(r: Request, user: string, conversation: string, scope: Scope, generation: string): Option<TokenError> {
    if r.user != user then Some(UserMismatch)
    else if r.conversation != conversation then Some(ConversationMismatch)
    else if scope !in r.scopes then Some(ScopeMissing)
    else if r.generation != generation then Some(GenerationMismatch)
    else None
  }

  ghost predicate IsTokenOf(ops: seq<Op>, k: int, token: string) {
    IsLive(ops, k) && ops[k].r.draw == token
  }

  lemma {:induction false} TrimIsBlank(s: string)
    ensures Trim(s) == "" <==> forall c :: c in s ==> IsSpace(c)
  {
    BlankStart(s);
    BlankEnd(TrimStart(s));
    StartKeepsRest(s);
  }

  lemma {:induction false} BlankStart(s: string)
    ensures TrimStart(s) == "" <==> forall c :: c in s ==> IsSpace(c)
  {
    hide IsSpace;
    if s != "" {
      BlankStart(s[1..]);
      assert forall c :: c in s <==> c == s[0] || c in s[1..];
    }
  }

  lemma {:induction false} BlankEnd(s: string)
    ensures TrimEnd(s) == "" <==> forall c :: c in s ==> IsSpace(c)
  {
    hide IsSpace;
    if s != "" {
      BlankEnd(s[..|s|-1]);
      assert forall c :: c in s <==> c == s[|s|-1] || c in s[..|s|-1];
    }
  }

  lemma StartKeepsRest(s: string)
    ensures forall c :: c in TrimStart(s) ==> c in s
  {
    var t := TrimStart(s);
    assert t == s[|s|-|t|..];
  }

  /**
   The verdict on a token, whoever presents it. No text is Missing. A token nobody's live
   issue drew is Unknown. Otherwise the issue that drew it decides: the first of user,
   conversation, scope and generation that differs is the error, and if none does the
   claims are those of the issue.
   */
  lemma VerdictIsExact(hash: Hash, ops: seq<Op>, raw: Option<string>, user: string, conversation: string, scope: Scope, generation: string)
    requires Injective(hash) && FreshDraws({}, ops) && WalksFit(hash, ops)
    ensures var verdict := Validate(hash, After(hash, map[], ops), raw, user, conversation, scope, generation);
            && (verdict == Err(Missing) <==> raw.None? || forall c :: c in raw.value ==> IsSpace(c))
            && (verdict == Err(Unknown) <==>
                  raw.Some? && !(forall c :: c in raw.value ==> IsSpace(c)) && !exists k :: IsTokenOf(ops, k, Trim(raw.value)))
            && (forall k :: raw.Some? && IsTokenOf(ops, k, Trim(raw.value)) ==>
                  var r := ops[k].r; var wrong := FirstMismatch(r, user, conversation, scope, generation);
                  verdict == if wrong.Some? then Err(wrong.value)
                             else Ok(Claims(r.user, r.conversation, r.scopes, r.now, r.generation)))
  {
    StoreIsHistory(hash, ops);
    hide After, IsTokenOf, Trim, IsSpace, Validate, IsHistory, WalksFit, FreshDraws, Injective, FirstMismatch;
    var tokens := After(hash, map[], ops);
    if raw.Some? {
      TrimIsBlank(raw.value);
      if Trim(raw.value) != "" {
        LookupIsHistory(hash, tokens, ops, Trim(raw.value));
      }
      forall k | IsTokenOf(ops, k, Trim(raw.value))
        ensures Trim(raw.value) != ""
        ensures var r := ops[k].r; var wrong := FirstMismatch(r, user, conversation, scope, generation);
                Validate(hash, tokens, raw, user, conversation, scope, generation) ==
                if wrong.Some? then Err(wrong.value) else Ok(Claims(r.user, r.conversation, r.scopes, r.now, r.generation))
      {
        VerdictOnLive(hash, tokens, ops, raw.value, k, user, conversation, scope, generation);
      }
    }
    NoVerdictOnOthers(hash, tokens, raw, user, conversation, scope, generation);
  }

  lemma LookupIsHistory(hash: Hash, tokens: Store, ops: seq<Op>, token: string)
    requires Injective(hash) && IsHistory(hash, tokens, ops)
    ensures hash(token) in tokens <==> exists k :: IsTokenOf(ops, k, token)
  {
    hide IsLive;
    if hash(token) in tokens {
      assert ComesFrom(hash, ops, hash(token));
      var k :| IsLive(ops, k) && hash(token) == hash(ops[k].r.draw);
      assert IsTokenOf(ops, k, token);
    }
    forall k | IsTokenOf(ops, k, token) ensures hash(token) in tokens {
      assert Stored(hash, tokens, ops[k].r);
    }
  }

  lemma VerdictOnLive(hash: Hash, tokens: Store, ops: seq<Op>, raw: string, k: int,
                      user: string, conversation: string, scope: Scope, generation: string)
    requires IsHistory(hash, tokens, ops) && FreshDraws({}, ops) && IsTokenOf(ops, k, Trim(raw))
    ensures Trim(raw) != ""
    ensures var r := ops[k].r; var wrong := FirstMismatch(r, user, conversation, scope, generation);
            Validate(hash, tokens, Some(raw), user, conversation, scope, generation) ==
            if wrong.Some? then Err(wrong.value) else Ok(Claims(r.user, r.conversation, r.scopes, r.now, r.generation))
  {
    hide IsLive, Trim;
    assert Stored(hash, tokens, ops[k].r);
  }

  lemma NoVerdictOnOthers(hash: Hash, tokens: Store, raw: Option<string>, user: string, conversation: string, scope: Scope, generation: string)
    ensures var verdict := Validate(hash, tokens, raw, user, conversation, scope, generation);
            && (verdict == Err(Missing) <==> raw.None? || Trim(raw.value) == "")
            && (verdict == Err(Unknown) <==> raw.Some? && Trim(raw.value) != "" && hash(Trim(raw.value)) !in tokens)
  {
    hide Trim;
  }

  /** A token is accepted exactly for what a live issue drew it for. */
  lemma AcceptedIsIssued(hash: Hash, ops: seq<Op>, token: string, user: string, conversation: string, scope: Scope, generation: string)
    requires Injective(hash) && FreshDraws({}, ops) && WalksFit(hash, ops)
    ensures Validate(hash, After(hash, map[], ops), Some(token), user, conversation, scope, generation).Ok? <==>
            exists k :: IsTokenOf(ops, k, Trim(token)) && ops[k].r.user == user && ops[k].r.conversation == conversation
                        && scope in ops[k].r.scopes && ops[k].r.generation == generation
  {
    hide Validate, After, IsTokenOf, IsSpace, Trim, WalksFit, FreshDraws;
    VerdictIsExact(hash, ops, Some(token), user, conversation, scope, generation);
  }
}
