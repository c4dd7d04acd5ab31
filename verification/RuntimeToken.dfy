/**
 Runtime tokens: one live token per user and conversation, and revocation for good.

 The hash is a parameter, assumed injective where it matters; a fresh random token is
 an input of the operation that may need one.
 */
module RuntimeToken {
  import opened Wrappers
  import opened Texts

  datatype Scope = TeamContext | TeamCall | ConversationHelper

  datatype Claims = Claims(user: string, conversation: string, scopes: set<Scope>, issuedAt: int, generation: string)

  datatype Entry = Entry(token: string, claims: Claims)

  datatype TokenError = Missing | Unknown | UserMismatch | ConversationMismatch | ScopeMissing | GenerationMismatch

  type Store = map<string, Entry>

  type Hash = string -> string

  /** What an issue asks for, and the token, clock and iteration order it is given. */
  datatype Request = Request(user: string, conversation: string, generation: string, scopes: set<Scope>,
                             draw: string, now: int, order: seq<string>)

  predicate Serves(e: Entry, r: Request) {
    && e.claims.user == r.user && e.claims.conversation == r.conversation
    && e.claims.generation == r.generation && r.scopes <= e.claims.scopes
  }

  /** The first entry in iteration order that serves the request. */
  function Existing(tokens: Store, r: Request, order: seq<string>): Option<Entry> {
    if order == [] then None
    else if order[0] in tokens && Serves(tokens[order[0]], r) then Some(tokens[order[0]])
    else Existing(tokens, r, order[1..])
  }

  function DropConversation(tokens: Store, user: string, conversation: string): Store {
    map h | h in tokens && !(tokens[h].claims.user == user && tokens[h].claims.conversation == conversation) :: tokens[h]
  }

  function DropConversationId(tokens: Store, conversation: string): Store {
    map h | h in tokens && tokens[h].claims.conversation != conversation :: tokens[h]
  }

  function DropGeneration(tokens: Store, conversation: string, generation: string): Store {
    map h | h in tokens && !(tokens[h].claims.conversation == conversation && tokens[h].claims.generation == generation)
      :: tokens[h]
  }

  function NewEntry(r: Request): Entry {
    Entry(r.draw, Claims(r.user, r.conversation, r.scopes, r.now, r.generation))
  }

  datatype Issued = Issued(tokens: Store, entry: Entry)

  function Issue(hash: Hash, tokens: Store, r: Request): Issued {
    match Existing(tokens, r, r.order)
    case Some(e) => Issued(tokens, e)
    case None => Issued(DropConversation(tokens, r.user, r.conversation)[hash(r.draw) := NewEntry(r)], NewEntry(r))
  }

  function Validate(hash: Hash, tokens: Store, raw: Option<string>, user: string, conversation: string,
                    scope: Scope, generation: string): Result<Claims, TokenError>
  {
    if raw.None? || Trim(raw.value) == "" then Err(Missing)
    else if hash(Trim(raw.value)) !in tokens then Err(Unknown)
    else
      var c := tokens[hash(Trim(raw.value))].claims;
      if c.user != user then Err(UserMismatch)
      else if c.conversation != conversation then Err(ConversationMismatch)
      else if scope !in c.scopes then Err(ScopeMissing)
      else if c.generation != generation then Err(GenerationMismatch)
      else Ok(c)
  }

  // ---------------------------------------------------------------- the service

  class RuntimeTokenService {
    const hash: Hash
    var tokens: Store

    constructor (hash: Hash)
      ensures tokens == map[] && this.hash == hash
    {
      this.hash := hash;
      tokens := map[];
    }

    method ExistingToken(r: Request, order: seq<string>) returns (found: Option<Entry>)
      ensures found == Existing(tokens, r, order)
    {
      var k := 0;
      while k < |order|
        invariant k <= |order|
        invariant Existing(tokens, r, order) == Existing(tokens, r, order[k..])
      {
        if order[k] in tokens && Serves(tokens[order[k]], r) {
          return Some(tokens[order[k]]);
        }
        k := k + 1;
      }
      return None;
    }

    method IssueToken(r: Request) returns (e: Entry)
      modifies this
      ensures Issued(tokens, e) == Issue(hash, old(tokens), r)
    {
      var found := ExistingToken(r, r.order);
      if found.Some? {
        return found.value;
      }
      e := NewEntry(r);
      InvalidateConversation(r.user, r.conversation);
      tokens := tokens[hash(r.draw) := e];
    }

    method InvalidateConversation(user: string, conversation: string)
      modifies this
      ensures tokens == DropConversation(old(tokens), user, conversation)
    {
      tokens := map h | h in tokens && !(tokens[h].claims.user == user && tokens[h].claims.conversation == conversation) :: tokens[h];
    }

    method InvalidateConversationId(conversation: string)
      modifies this
      ensures tokens == DropConversationId(old(tokens), conversation)
    {
      tokens := map h | h in tokens && tokens[h].claims.conversation != conversation :: tokens[h];
    }

    method InvalidateGeneration(conversation: string, generation: string)
      modifies this
      ensures tokens == DropGeneration(old(tokens), conversation, generation)
    {
      tokens := map h | h in tokens && !(tokens[h].claims.conversation == conversation && tokens[h].claims.generation == generation)
        :: tokens[h];
    }
  }

  // ---------------------------------------------------------------- histories

  datatype Op =
    | DoIssue(r: Request)
    | DoDropConversation(user: string, conversation: string)
    | DoDropConversationId(conversation: string)
    | DoDropGeneration(conversation: string, generation: string)

  function Apply(hash: Hash, tokens: Store, op: Op): Store {
    match op
    case DoIssue(r) => Issue(hash, tokens, r).tokens
    case DoDropConversation(user, conversation) => DropConversation(tokens, user, conversation)
    case DoDropConversationId(conversation) => DropConversationId(tokens, conversation)
    case DoDropGeneration(conversation, generation) => DropGeneration(tokens, conversation, generation)
  }

  function After(hash: Hash, tokens: Store, ops: seq<Op>): Store {
    if ops == [] then tokens else Apply(hash, After(hash, tokens, ops[..|ops|-1]), ops[|ops|-1])
  }

  /** Every token the random source handed out. */
  function Drawn(ops: seq<Op>): set<string> {
    set k | 0 <= k < |ops| && ops[k].DoIssue? :: ops[k].r.draw
  }

  /** Random tokens are hexadecimal and never repeat one drawn before, nor one of `known`. */
  predicate FreshDraws(known: set<string>, ops: seq<Op>) {
    forall k :: 0 <= k < |ops| && ops[k].DoIssue? ==>
      && IsHexToken(ops[k].r.draw) && ops[k].r.draw !in known
      && forall j :: 0 <= j < k && ops[j].DoIssue? ==> ops[j].r.draw != ops[k].r.draw
  }

  predicate IsHexToken(t: string) {
    |t| == 64 && forall k :: 0 <= k < |t| ==> '0' <= t[k] <= '9' || 'a' <= t[k] <= 'f'
  }

  ghost predicate Injective(hash: Hash) {
    forall a, b :: hash(a) == hash(b) ==> a == b
  }

  predicate SameHolder(a: Claims, b: Claims) {
    a.user == b.user && a.conversation == b.conversation
  }

  /** Entries sit under the hash of a drawn token, and no conversation of a user has two. */
  predicate Valid(hash: Hash, tokens: Store, drawn: set<string>) {
    && (forall h :: h in tokens ==> h == hash(tokens[h].token) && tokens[h].token in drawn && IsHexToken(tokens[h].token))
    && (forall g, h :: g in tokens && h in tokens && SameHolder(tokens[g].claims, tokens[h].claims) ==> g == h)
  }

  lemma HexIsTrimmed(t: string)
    requires IsHexToken(t)
    ensures Trim(t) == t && t != ""
  {
    assert !IsSpace(t[0]) && !IsSpace(t[|t|-1]);
  }

  lemma {:induction false} ExistingMeans(tokens: Store, r: Request, order: seq<string>)
    ensures var e := Existing(tokens, r, order);
            && (e.Some? ==> exists h :: h in order && h in tokens && tokens[h] == e.value && Serves(e.value, r))
            && (e.None? ==> forall h :: h in order && h in tokens ==> !Serves(tokens[h], r))
  {
    if order != [] && !(order[0] in tokens && Serves(tokens[order[0]], r)) {
      ExistingMeans(tokens, r, order[1..]);
      assert forall h :: h in order <==> h == order[0] || h in order[1..];
    }
  }

  lemma ApplyKeepsValid(hash: Hash, tokens: Store, drawn: set<string>, op: Op)
    requires Valid(hash, tokens, drawn)
    requires op.DoIssue? ==> IsHexToken(op.r.draw)
    ensures Valid(hash, Apply(hash, tokens, op), drawn + if op.DoIssue? then {op.r.draw} else {})
  {
    if op.DoIssue? {
      ExistingMeans(tokens, op.r, op.r.order);
    }
  }

  /** Whatever is issued and revoked, a user has at most one live token for a conversation. */
  lemma {:induction false} OneLiveToken(hash: Hash, ops: seq<Op>)
    requires FreshDraws({}, ops)
    ensures Valid(hash, After(hash, map[], ops), Drawn(ops))
  {
    if ops != [] {
      var init, last := ops[..|ops|-1], ops[|ops|-1];
      OneLiveToken(hash, init);
      ApplyKeepsValid(hash, After(hash, map[], init), Drawn(init), last);
      assert Drawn(ops) == Drawn(init) + if last.DoIssue? then {last.r.draw} else {};
    }
  }

  /** Which entry is found does not depend on the order the map is walked in. */
  lemma ExistingIgnoresOrder(hash: Hash, tokens: Store, drawn: set<string>, r: Request, order: seq<string>, other: seq<string>)
    requires Valid(hash, tokens, drawn)
    requires Enumerates(order, tokens.Keys) && Enumerates(other, tokens.Keys)
    ensures Existing(tokens, r, order) == Existing(tokens, r, other)
  {
    ExistingMeans(tokens, r, order);
    ExistingMeans(tokens, r, other);
    assert forall h :: h in order <==> h in (set k | k in order);
    assert forall h :: h in other <==> h in (set k | k in other);
  }

  /** An issued token, new or found, validates for every scope that was asked for. */
  lemma IssuedTokenValidates(hash: Hash, tokens: Store, drawn: set<string>, r: Request, scope: Scope)
    requires Valid(hash, tokens, drawn) && IsHexToken(r.draw) && scope in r.scopes
    ensures var i := Issue(hash, tokens, r);
            Validate(hash, i.tokens, Some(i.entry.token), r.user, r.conversation, scope, r.generation) == Ok(i.entry.claims)
  {
    hide Trim, IsHexToken, Existing;
    ExistingMeans(tokens, r, r.order);
    HexIsTrimmed(Issue(hash, tokens, r).entry.token);
  }

  predicate IsUnknown(hash: Hash, tokens: Store, token: string) {
    hash(token) !in tokens
  }

  lemma UnknownMeans(hash: Hash, tokens: Store, token: string, user: string, conversation: string, scope: Scope, generation: string)
    requires IsHexToken(token)
    ensures Validate(hash, tokens, Some(token), user, conversation, scope, generation) == Err(Unknown) <==> IsUnknown(hash, tokens, token)
  {
    hide Trim, IsHexToken;
    HexIsTrimmed(token);
  }

  /** A token that was drawn and is no longer live never becomes live again. */
  lemma {:induction false} RevocationIsPermanent(hash: Hash, tokens: Store, token: string, ops: seq<Op>)
    requires Injective(hash) && IsHexToken(token)
    requires IsUnknown(hash, tokens, token) && FreshDraws({token}, ops)
    ensures forall user, conversation, scope, generation ::
              Validate(hash, After(hash, tokens, ops), Some(token), user, conversation, scope, generation) == Err(Unknown)
    ensures IsUnknown(hash, After(hash, tokens, ops), token)
  {
    hide Validate, IsHexToken, Existing;
    if ops != [] {
      RevocationIsPermanent(hash, tokens, token, ops[..|ops|-1]);
    }
    forall user, conversation, scope, generation
      ensures Validate(hash, After(hash, tokens, ops), Some(token), user, conversation, scope, generation) == Err(Unknown)
    {
      UnknownMeans(hash, After(hash, tokens, ops), token, user, conversation, scope, generation);
    }
  }

  /** Each of the three revocations makes exactly the tokens it names unknown. */
  lemma RevocationIsExact(hash: Hash, tokens: Store, drawn: set<string>, h: string, user: string, conversation: string, generation: string)
    requires Valid(hash, tokens, drawn) && h in tokens
    ensures var e := tokens[h];
            && (IsUnknown(hash, DropConversation(tokens, user, conversation), e.token) <==>
                e.claims.user == user && e.claims.conversation == conversation)
            && (IsUnknown(hash, DropConversationId(tokens, conversation), e.token) <==> e.claims.conversation == conversation)
            && (IsUnknown(hash, DropGeneration(tokens, conversation, generation), e.token) <==>
                e.claims.conversation == conversation && e.claims.generation == generation)
  {
  }

  /** Issuing a token the store did not have revokes what the user had for the conversation. */
  lemma IssueReplaces(hash: Hash, tokens: Store, drawn: set<string>, r: Request, h: string)
    requires Injective(hash) && Valid(hash, tokens, drawn) && r.draw !in drawn
    requires h in tokens && tokens[h].claims.user == r.user && tokens[h].claims.conversation == r.conversation
    requires Enumerates(r.order, tokens.Keys)
    ensures IsUnknown(hash, Issue(hash, tokens, r).tokens, tokens[h].token) <==> !Serves(tokens[h], r)
    ensures forall g :: g in tokens && !(tokens[g].claims.user == r.user && tokens[g].claims.conversation == r.conversation) ==>
              g in Issue(hash, tokens, r).tokens && Issue(hash, tokens, r).tokens[g] == tokens[g]
  {
    ExistingMeans(tokens, r, r.order);
    assert h in (set k | k in r.order);
  }
}
