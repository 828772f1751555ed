/** The ERC-721-style canister of src/nft721/lib.rs. Tokens are a vector in
    mint order, each with a uuid, a mint number, an asset and an owner; a
    token has at most one approved user, a user has a list of operators,
    and controllers are a list of principals. `caller()` and the
    `create_address` hash are parameters, and so is the uuid `mint` draws
    from the management canister. */
module Nft721 {
  import opened Bytes
  import opened Vectors
  import Types

  type Principal = Types.Principal

  type Subaccount = Types.Subaccount

  /** `create_address(principal, sub_account)`: the hex account id. */
  type AddressOf = (Principal, Subaccount) -> string

  datatype User = Principal(principal: Principal) | Address(address: string)

  datatype Extension = Extension(principal: Principal, types: seq<string>)

  datatype Asset = Asset(uri: string, mime: string, extension: Option<Extension>)

  datatype Token = Token(id: string, mint: nat, asset: Asset, owner: User)

  datatype ErrorCode =
    | ManagementCanisterUnreachable
    | UuidInvalidByteLength
    | TokenNotFound
    | IsAlreadyOperator
    | OperatorNotFound
    | IsAlreadyController
    | ControllerNotFound

  /** The owner of a token nobody holds yet. */
  const ZERO_ADDRESS: User := Address("0")

  /** `caller_to_user`. */
  function CallerToUser(caller: Principal, subAccount: Option<Subaccount>, createAddress: AddressOf): User {
    match subAccount
    case Some(s) => Address(createAddress(caller, s))
    case None => Principal(caller)
  }

  function Min(a: nat, b: nat): nat {
    if a < b then a else b
  }

  // ---------------------------------------------------------------------
  // Filters over the vector

  /** The tokens whose position lies in [start, end), in list order: the
      `enumerate().filter()` chain of `tokens`, one position at a time. */
  function Positions(tokens: seq<Token>, start: nat, end: nat): seq<Token> {
    if tokens == [] then []
    else
      var n := |tokens| - 1;
      Positions(tokens[..n], start, end) + (if start <= n < end then [tokens[n]] else [])
  }

  lemma {:induction false} SliceOfPrefix(tokens: seq<Token>, n: nat, a: nat, b: nat)
    requires a <= b <= n <= |tokens|
    ensures tokens[..n][a..b] == tokens[a..b]
  {
    assert forall k :: 0 <= k < b - a ==> tokens[..n][a..b][k] == tokens[a + k];
  }

  lemma {:induction false} SliceGrows(tokens: seq<Token>, a: nat, n: nat)
    requires a <= n < |tokens|
    ensures tokens[a..n] + [tokens[n]] == tokens[a..n + 1]
  {
    assert forall k :: 0 <= k <= n - a ==> (tokens[a..n] + [tokens[n]])[k] == tokens[a + k];
  }

  /** The chain keeps exactly the slice of positions inside the window. */
  lemma {:induction false} PositionsWindow(tokens: seq<Token>, start: nat, end: nat)
    ensures Positions(tokens, start, end) ==
      if start < end && start < |tokens| then tokens[start..Min(end, |tokens|)] else []
  {
    if tokens != [] {
      var n := |tokens| - 1;
      PositionsWindow(tokens[..n], start, end);
      if start < end && start < n {
        SliceOfPrefix(tokens, n, start, Min(end, n));
        if n < end {
          SliceGrows(tokens, start, n);
        }
      } else if start == n < end {
        assert [tokens[n]] == tokens[start..n + 1];
      }
    }
  }

  /** The tokens that user owns, in list order. */
  function OwnedBy(tokens: seq<Token>, user: User): seq<Token> {
    if tokens == [] then []
    else
      var n := |tokens| - 1;
      OwnedBy(tokens[..n], user) + (if tokens[n].owner == user then [tokens[n]] else [])
  }

  /** The list holds exactly the user's tokens. */
  lemma {:induction false} OwnedByMembers(tokens: seq<Token>, user: User)
    ensures forall t :: t in OwnedBy(tokens, user) <==> t in tokens && t.owner == user
  {
    if tokens != [] {
      var n := |tokens| - 1;
      OwnedByMembers(tokens[..n], user);
      assert tokens == tokens[..n] + [tokens[n]];
    }
  }

  /** The `enumerate().filter()` chain of `tokens_of_owner`: position and
      owner tested together. */
  function OwnerPositions(tokens: seq<Token>, user: User, start: nat, end: nat): seq<Token> {
    if tokens == [] then []
    else
      var n := |tokens| - 1;
      OwnerPositions(tokens[..n], user, start, end) +
        (if tokens[n].owner == user && start <= n < end then [tokens[n]] else [])
  }

  lemma {:induction false} OwnedByAppend(a: seq<Token>, b: seq<Token>, user: User)
    ensures OwnedBy(a + b, user) == OwnedBy(a, user) + OwnedBy(b, user)
    decreases |b|
  {
    if b != [] {
      var n := |b| - 1;
      assert (a + b)[..|a + b| - 1] == a + b[..n];
      OwnedByAppend(a, b[..n], user);
    } else {
      assert a + b == a;
    }
  }

  /** `tokens_of_owner` cuts the window out of the whole list first and
      filters by owner after. */
  lemma {:induction false} OwnerPositionsFilterWindow(tokens: seq<Token>, user: User, start: nat, end: nat)
    ensures OwnerPositions(tokens, user, start, end) == OwnedBy(Positions(tokens, start, end), user)
  {
    if tokens != [] {
      var n := |tokens| - 1;
      OwnerPositionsFilterWindow(tokens[..n], user, start, end);
      var last := if start <= n < end then [tokens[n]] else [];
      OwnedByAppend(Positions(tokens[..n], start, end), last, user);
      if start <= n < end {
        assert OwnedBy(last, user) == OwnedBy([], user) + (if tokens[n].owner == user then [tokens[n]] else []) by {
          assert last[..0] == [];
        }
      }
    }
  }

  /** `balance_of`: the number of tokens that user owns. */
  function BalanceOf(tokens: seq<Token>, user: User): nat {
    if tokens == [] then 0
    else BalanceOf(tokens[..|tokens| - 1], user) + (if tokens[|tokens| - 1].owner == user then 1 else 0)
  }

  /** The balance is the number of tokens `tokens_of_owner` lists for the
      user over the whole vector. */
  lemma {:induction false} BalanceCountsOwned(tokens: seq<Token>, user: User)
    ensures BalanceOf(tokens, user) == |OwnedBy(tokens, user)|
  {
    if tokens != [] {
      BalanceCountsOwned(tokens[..|tokens| - 1], user);
    }
  }

  /** A changed owner moves one unit of balance from the old owner to the
      new one. */
  lemma {:induction false} BalanceAfterOwnerChange(tokens: seq<Token>, i: nat, to: User, u: User)
    requires i < |tokens|
    ensures BalanceOf(tokens[i := tokens[i].(owner := to)], u) + (if tokens[i].owner == u then 1 else 0) ==
      BalanceOf(tokens, u) + (if to == u then 1 else 0)
  {
    var after := tokens[i := tokens[i].(owner := to)];
    var n := |tokens| - 1;
    assert BalanceOf(after, u) == BalanceOf(after[..n], u) + (if after[n].owner == u then 1 else 0);
    assert BalanceOf(tokens, u) == BalanceOf(tokens[..n], u) + (if tokens[n].owner == u then 1 else 0);
    if i < n {
      assert after[..n] == tokens[..n][i := tokens[i].(owner := to)];
      assert after[n] == tokens[n];
      BalanceAfterOwnerChange(tokens[..n], i, to, u);
    } else {
      assert after[..n] == tokens[..n];
    }
  }

  // ---------------------------------------------------------------------
  // Listing

  /** `tokens(offset, length)`: the tokens at positions [offset,
      offset + length), in list order; no offset starts at 0 and no length
      runs to the end. */
  function Tokens(tokens: seq<Token>, offset: Option<nat>, length: Option<nat>): (r: seq<Token>)
    ensures var start := if offset.Some? then offset.value else 0;
      length.None? ==> r == if start < |tokens| then tokens[start..] else []
    ensures var start := if offset.Some? then offset.value else 0;
      length.Some? ==> r == if start < |tokens| && length.value > 0
        then tokens[start..Min(start + length.value, |tokens|)] else []
  {
    var start := if offset.Some? then offset.value else 0;
    PositionsWindow(tokens, start, start + if length.Some? then length.value else |tokens|);
    Positions(tokens, start, start + if length.Some? then length.value else |tokens|)
  }

  /** `tokens_of_owner(user, offset, length)`: the same window, then only
      that user's tokens. */
  function TokensOfOwner(tokens: seq<Token>, user: User, offset: Option<nat>, length: Option<nat>): (r: seq<Token>)
    ensures r == OwnedBy(Tokens(tokens, offset, length), user)
  {
    var start := if offset.Some? then offset.value else 0;
    var end := start + if length.Some? then length.value else |tokens|;
    OwnerPositionsFilterWindow(tokens, user, start, end);
    assert Tokens(tokens, offset, length) == Positions(tokens, start, end);
    OwnerPositions(tokens, user, start, end)
  }

  /** A `usize` sum in the release build: it wraps around at 2^32. */
  function UsizeAdd(a: nat, b: nat): (r: nat)
    requires a < USIZE_LIMIT && b < USIZE_LIMIT
    ensures r < USIZE_LIMIT && r % USIZE_LIMIT == (a + b) % USIZE_LIMIT
  {
    if a + b < USIZE_LIMIT then a + b else a + b - USIZE_LIMIT
  }

  /** `tokens` as written: `start + length` is a `usize` sum and wraps
      around (the release build does not check overflow). */
  function TokensAsWritten(tokens: seq<Token>, offset: Option<nat>, length: Option<nat>): (r: seq<Token>)
    requires |tokens| < USIZE_LIMIT
    requires offset.Some? ==> offset.value < USIZE_LIMIT
    requires length.Some? ==> length.value < USIZE_LIMIT
    ensures var start := if offset.Some? then offset.value else 0;
      var end := UsizeAdd(start, if length.Some? then length.value else |tokens|);
      r == if start < end && start < |tokens| then tokens[start..Min(end, |tokens|)] else []
  {
    var start := if offset.Some? then offset.value else 0;
    var end := UsizeAdd(start, if length.Some? then length.value else |tokens|);
    PositionsWindow(tokens, start, end);
    Positions(tokens, start, end)
  }

  /** `tokens_of_owner` as written: the same wrapped window, then only that
      user's tokens. */
  function TokensOfOwnerAsWritten(tokens: seq<Token>, user: User, offset: Option<nat>, length: Option<nat>): (r: seq<Token>)
    requires |tokens| < USIZE_LIMIT
    requires offset.Some? ==> offset.value < USIZE_LIMIT
    requires length.Some? ==> length.value < USIZE_LIMIT
    ensures r == OwnedBy(TokensAsWritten(tokens, offset, length), user)
  {
    var start := if offset.Some? then offset.value else 0;
    var end := UsizeAdd(start, if length.Some? then length.value else |tokens|);
    OwnerPositionsFilterWindow(tokens, user, start, end);
    assert TokensAsWritten(tokens, offset, length) == Positions(tokens, start, end);
    OwnerPositions(tokens, user, start, end)
  }

  /** Below the wrap the two agree. */
  lemma {:induction false} TokensAsWrittenAgreesBelowWrap(tokens: seq<Token>, offset: Option<nat>, length: Option<nat>)
    requires |tokens| < USIZE_LIMIT
    requires offset.Some? ==> offset.value < USIZE_LIMIT
    requires length.Some? ==> length.value < USIZE_LIMIT
    requires (if offset.Some? then offset.value else 0) + (if length.Some? then length.value else |tokens|) < USIZE_LIMIT
    ensures TokensAsWritten(tokens, offset, length) == Tokens(tokens, offset, length)
  {
    var start := if offset.Some? then offset.value else 0;
    var len := if length.Some? then length.value else |tokens|;
    assert UsizeAdd(start, len) == start + len;
    assert TokensAsWritten(tokens, offset, length) == Positions(tokens, start, start + len);
    assert Tokens(tokens, offset, length) == Positions(tokens, start, start + len);
  }

  /** Asking for everything after the first token with the largest `usize`
      length gives nothing, although the window covers every later token. */
  lemma {:induction false} TokensWrapAround(tokens: seq<Token>)
    requires 2 <= |tokens| < USIZE_LIMIT
    ensures TokensAsWritten(tokens, Some(1), Some(USIZE_LIMIT - 1)) == []
    ensures Tokens(tokens, Some(1), Some(USIZE_LIMIT - 1)) == tokens[1..] != []
  {
    PositionsWindow(tokens, 1, 0);
  }

  /** The same window misses the user's token at position 1 in
      `tokens_of_owner`, although the intended window holds it. */
  lemma {:induction false} TokensOfOwnerWrapAround(tokens: seq<Token>, user: User)
    requires 2 <= |tokens| < USIZE_LIMIT && tokens[1].owner == user
    ensures TokensOfOwnerAsWritten(tokens, user, Some(1), Some(USIZE_LIMIT - 1)) == []
    ensures tokens[1] in TokensOfOwner(tokens, user, Some(1), Some(USIZE_LIMIT - 1))
  {
    TokensWrapAround(tokens);
    assert OwnedBy([], user) == [];
    OwnedByMembers(tokens[1..], user);
    assert tokens[1] in tokens[1..];
  }

  // ---------------------------------------------------------------------
  // Searching

  /** The token a call looks for: that id, and that owner when one is given. */
  predicate Matches(t: Token, id: string, owner: Option<User>) {
    t.id == id && (owner.Some? ==> t.owner == owner.value)
  }

  /** The first matching index (`iter().find`). */
  function Find(tokens: seq<Token>, id: string, owner: Option<User>): (r: Option<nat>)
    ensures r.Some? ==> r.value < |tokens| && Matches(tokens[r.value], id, owner)
    ensures r.Some? ==> forall j :: 0 <= j < r.value ==> !Matches(tokens[j], id, owner)
    ensures r.None? ==> forall j :: 0 <= j < |tokens| ==> !Matches(tokens[j], id, owner)
  {
    if tokens == [] then None
    else if Matches(tokens[0], id, owner) then Some(0)
    else match Find(tokens[1..], id, owner)
      case None => None
      case Some(k) => Some(k + 1)
  }

  lemma {:induction false} FindIsFirst(tokens: seq<Token>, id: string, owner: Option<User>, i: nat)
    requires i <= |tokens| && forall j :: 0 <= j < i ==> !Matches(tokens[j], id, owner)
    requires i < |tokens| ==> Matches(tokens[i], id, owner)
    ensures Find(tokens, id, owner) == if i < |tokens| then Some(i) else None
  {
    if tokens != [] && i > 0 {
      FindIsFirst(tokens[1..], id, owner, i - 1);
    }
  }

  /** The scan `find` makes. */
  method FindToken(tokens: seq<Token>, id: string, owner: Option<User>) returns (r: Option<nat>)
    ensures r == Find(tokens, id, owner)
  {
    var i := 0;
    while i < |tokens|
      invariant i <= |tokens|
      invariant forall j :: 0 <= j < i ==> !Matches(tokens[j], id, owner)
    {
      if Matches(tokens[i], id, owner) {
        FindIsFirst(tokens, id, owner, i);
        return Some(i);
      }
      i := i + 1;
    }
    FindIsFirst(tokens, id, owner, |tokens|);
    r := None;
  }

  /** `owner_of(token_id, user)`: whether the first token with that id is
      the user's. */
  function OwnerOf(tokens: seq<Token>, id: string, user: User): (r: Result<bool, ErrorCode>)
    ensures r == Err(TokenNotFound) <==> forall j :: 0 <= j < |tokens| ==> tokens[j].id != id
    ensures r == Ok(true) ==> Find(tokens, id, Some(user)).Some? && Find(tokens, id, Some(user)) == Find(tokens, id, None)
    ensures r == Ok(false) ==> Find(tokens, id, Some(user)) != Find(tokens, id, None)
  {
    match Find(tokens, id, None)
    case None => assert forall j :: 0 <= j < |tokens| ==> !Matches(tokens[j], id, None); Err(TokenNotFound)
    case Some(i) =>
      if tokens[i].owner == user then FindIsFirst(tokens, id, Some(user), i); Ok(true)
      else Ok(false)
  }

  // ---------------------------------------------------------------------
  // `burn`

  /** The number of tokens at the end of the vector that nobody holds. */
  function ZeroTail(tokens: seq<Token>): (r: nat)
    ensures r <= |tokens|
    ensures forall i :: |tokens| - r <= i < |tokens| ==> tokens[i].owner == ZERO_ADDRESS
    ensures r < |tokens| ==> tokens[|tokens| - r - 1].owner != ZERO_ADDRESS
  {
    if tokens == [] || tokens[|tokens| - 1].owner != ZERO_ADDRESS then 0
    else ZeroTail(tokens[..|tokens| - 1]) + 1
  }

  /** A held token just before a run of g unheld ones ends the unheld tail. */
  lemma {:induction false} ZeroTailStopsAtHeld(tokens: seq<Token>, g: nat)
    requires g <= ZeroTail(tokens) && g < |tokens|
    requires tokens[|tokens| - g - 1].owner != ZERO_ADDRESS
    ensures ZeroTail(tokens) == g
  {
  }

  /** An unheld token just before a run of g unheld ones lengthens it. */
  lemma {:induction false} ZeroTailGrows(tokens: seq<Token>, g: nat)
    requires g <= ZeroTail(tokens) && g < |tokens|
    requires tokens[|tokens| - g - 1].owner == ZERO_ADDRESS
    ensures g + 1 <= ZeroTail(tokens)
  {
  }

  /** Taking the last token off a prefix leaves the next shorter prefix. */
  lemma {:induction false} DropLastOfPrefix(tokens: seq<Token>, k: nat)
    requires 0 < k <= |tokens|
    ensures RemoveAt(tokens[..k], k - 1) == tokens[..k - 1]
  {
    assert tokens[..k][..k - 1] == tokens[..k - 1];
  }

  /** What `burn(count)` leaves and reports: it takes unheld tokens off the
      end, at most `count` of them; meeting a held token it stops and
      reports how many went, otherwise it reports `count`. */
  function BurnResult(tokens: seq<Token>, count: nat): (seq<Token>, nat) {
    var z := ZeroTail(tokens);
    var wanted := Min(count, |tokens|);
    if z < wanted then (tokens[..|tokens| - z], z)
    else (tokens[..|tokens| - wanted], count)
  }

  /** Burning leaves a prefix, takes off only unheld tokens and at most
      `count` of them, takes all it may when the unheld tail is long enough,
      and reports fewer than `count` only when it stopped at a held token. */
  lemma {:induction false} BurnResultShape(tokens: seq<Token>, count: nat)
    ensures var (rest, n) := BurnResult(tokens, count);
      && |rest| <= |tokens| && rest == tokens[..|rest|]
      && (forall i :: |rest| <= i < |tokens| ==> tokens[i].owner == ZERO_ADDRESS)
      && |tokens| - |rest| <= count
      && (n != count ==> n == |tokens| - |rest| < Min(count, |tokens|) && tokens[|rest| - 1].owner != ZERO_ADDRESS)
      && (ZeroTail(tokens) >= Min(count, |tokens|) ==> |tokens| - |rest| == Min(count, |tokens|))
  {
  }

  /** Token i carries mint number i + 1. */
  predicate MintsInOrder(tokens: seq<Token>) {
    forall i :: 0 <= i < |tokens| ==> tokens[i].mint == i + 1
  }

  /** Dropping tokens off the end keeps mint numbers equal to positions. */
  lemma {:induction false} PrefixKeepsMints(tokens: seq<Token>, k: nat)
    requires MintsInOrder(tokens) && k <= |tokens|
    ensures MintsInOrder(tokens[..k])
  {
    forall i | 0 <= i < k
      ensures tokens[..k][i].mint == i + 1
    {
      assert tokens[..k][i] == tokens[i];
    }
  }

  /** Burning stops at a held token after g unheld ones. */
  lemma {:induction false} BurnStopsEarly(tokens: seq<Token>, count: nat, g: nat)
    requires g <= ZeroTail(tokens) && g < Min(count, |tokens|)
    requires tokens[|tokens| - g - 1].owner != ZERO_ADDRESS
    ensures BurnResult(tokens, count) == (tokens[..|tokens| - g], g)
  {
    ZeroTailStopsAtHeld(tokens, g);
  }

  /** One round of the `burn` loop, after i - 1 unheld tokens went: a held
      token at position |tokens| - i ends it with the result the loop
      returns, an unheld one goes and the unheld tail is at least i long. */
  lemma {:induction false} BurnStep(tokens: seq<Token>, count: nat, i: nat)
    requires 1 <= i <= Min(count, |tokens|) && i - 1 <= ZeroTail(tokens)
    ensures tokens[..|tokens| - (i - 1)][|tokens| - i] == tokens[|tokens| - i]
    ensures tokens[|tokens| - i].owner != ZERO_ADDRESS ==>
      BurnResult(tokens, count) == (tokens[..|tokens| - (i - 1)], i - 1)
    ensures tokens[|tokens| - i].owner == ZERO_ADDRESS ==>
      i <= ZeroTail(tokens) && RemoveAt(tokens[..|tokens| - (i - 1)], |tokens| - i) == tokens[..|tokens| - i]
  {
    if tokens[|tokens| - i].owner != ZERO_ADDRESS {
      BurnStopsEarly(tokens, count, i - 1);
    } else {
      ZeroTailGrows(tokens, i - 1);
      DropLastOfPrefix(tokens, |tokens| - i + 1);
    }
  }

  /** Burning runs through all it was asked for when the unheld tail is
      long enough. */
  lemma {:induction false} BurnRunsOut(tokens: seq<Token>, count: nat)
    requires Min(count, |tokens|) <= ZeroTail(tokens)
    ensures BurnResult(tokens, count) == (tokens[..|tokens| - Min(count, |tokens|)], count)
  {
  }

  /** With more asked for than there are tokens, and none of them held, the
      vector empties and `burn` reports the number asked for. */
  lemma {:induction false} BurnReportsCountBeyondSupply(tokens: seq<Token>, count: nat)
    requires count > |tokens| && ZeroTail(tokens) == |tokens|
    ensures BurnResult(tokens, count) == ([], count)
  {
  }

  /** A held token at the end stops `burn` before anything goes. */
  lemma {:induction false} BurnStopsAtHeldToken(tokens: seq<Token>, count: nat)
    requires tokens != [] && count > 0 && tokens[|tokens| - 1].owner != ZERO_ADDRESS
    ensures BurnResult(tokens, count) == (tokens, 0)
  {
    assert tokens[..|tokens|] == tokens;
  }

  // ---------------------------------------------------------------------
  // `inspect_message`

  /** `inspect_message` accepts `transfer_from` when a token with that id
      exists, `from` is its owner, and the caller's user owns it, is its
      approved user or one of the owner's operators, or the caller is a
      controller and nobody holds the token. */
  predicate AcceptsTransferFrom(tokens: seq<Token>, approved: map<string, User>, operators: map<User, seq<User>>,
                                controllers: seq<Principal>, caller: Principal, createAddress: AddressOf,
                                from: User, tokenId: string, subAccount: Option<Subaccount>)
  {
    var found := Find(tokens, tokenId, None);
    found.Some? &&
    var t := tokens[found.value];
    var user := CallerToUser(caller, subAccount, createAddress);
    && from == t.owner
    && (|| t.owner == user
        || (t.id in approved && approved[t.id] == user)
        || (t.owner in operators && user in operators[t.owner])
        || (caller in controllers && t.owner == ZERO_ADDRESS))
  }

  /** An accepted `transfer_from` finds its token: the first token with that
      id is also the first with that id and owner. */
  lemma {:induction false} AcceptedTransferFromFindsToken(tokens: seq<Token>, approved: map<string, User>, operators: map<User, seq<User>>,
                                       controllers: seq<Principal>, caller: Principal, createAddress: AddressOf,
                                       from: User, tokenId: string, subAccount: Option<Subaccount>)
    requires AcceptsTransferFrom(tokens, approved, operators, controllers, caller, createAddress, from, tokenId, subAccount)
    ensures Find(tokens, tokenId, Some(from)) == Find(tokens, tokenId, None)
  {
    var i := Find(tokens, tokenId, None).value;
    FindIsFirst(tokens, tokenId, Some(from), i);
  }

  // ---------------------------------------------------------------------
  // The canister state

  class State {
    var symbol: string
    var name: string
    var tokens: seq<Token>
    var approved: map<string, User>
    var operators: map<User, seq<User>>
    var controllers: seq<Principal>
    var extension: Option<Extension>

    /** Every token's mint number is its place in the vector, counted from
        1, and no list holds a value twice. */
    ghost predicate Valid()
      reads this
    {
      && MintsInOrder(tokens)
      && NoDuplicates(controllers)
      && forall u :: u in operators ==> NoDuplicates(operators[u])
    }

    /** `init` on the default state. */
    constructor (controller: Principal, newSymbol: string, newName: string)
      ensures Valid()
      ensures symbol == newSymbol && name == newName && controllers == [controller]
      ensures tokens == [] && approved == map[] && operators == map[] && extension == None
    {
      symbol, name, controllers := newSymbol, newName, [controller];
      tokens, approved, operators, extension := [], map[], map[], None;
    }

    /** `mint`: a failed uuid draw changes nothing; otherwise a token
        numbered one past the length is appended, owned by `to` or by
        nobody. */
    method Mint(uuid: Result<string, ErrorCode>, asset: Asset, to: Option<User>) returns (r: Result<Token, ErrorCode>)
      requires Valid()
      modifies this
      ensures name == old(name) && symbol == old(symbol) && extension == old(extension)
      ensures Valid()
      ensures approved == old(approved) && operators == old(operators) && controllers == old(controllers)
      ensures uuid.Err? ==> r == Err(uuid.error) && tokens == old(tokens)
      ensures uuid.Ok? ==>
        r == Ok(Token(uuid.value, |old(tokens)| + 1, asset, if to.Some? then to.value else ZERO_ADDRESS)) &&
        tokens == old(tokens) + [r.value]
    {
      if uuid.Err? {
        return Err(uuid.error);
      }
      var token := Token(uuid.value, |tokens| + 1, asset, if to.Some? then to.value else ZERO_ADDRESS);
      tokens := tokens + [token];
      r := Ok(token);
    }

    /** `burn(count)`: the `for` loop over `0..=min(count, supply)` looks at
        position `supply - i`, which is the last token once `i` tokens
        before it are gone. */
    method Burn(count: nat) returns (removed: nat)
      requires Valid()
      modifies this
      ensures name == old(name) && symbol == old(symbol) && extension == old(extension)
      ensures Valid()
      ensures approved == old(approved) && operators == old(operators) && controllers == old(controllers)
      ensures (tokens, removed) == BurnResult(old(tokens), count)
    {
      var supply := |tokens|;
      ghost var before := tokens;
      assert MintsInOrder(before);
      for i := 0 to Min(count, supply) + 1
        invariant i == 0 ==> tokens == before
        invariant 0 < i ==> tokens == before[..supply - (i - 1)] && i - 1 <= ZeroTail(before)
        invariant Valid()
        invariant approved == old(approved) && operators == old(operators) && controllers == old(controllers)
        invariant name == old(name) && symbol == old(symbol) && extension == old(extension)
      {
        var index := supply - i;
        if index < |tokens| {
          BurnStep(before, count, i);
          if tokens[index].owner != ZERO_ADDRESS {
            return i - 1;
          }
          tokens := RemoveAt(tokens, index);
          PrefixKeepsMints(before, index);
        }
      }
      BurnRunsOut(before, count);
      removed := count;
    }

    /** `set_asset`. */
    method SetAsset(tokenId: string, asset: Asset) returns (r: Result<Token, ErrorCode>)
      requires Valid()
      modifies this
      ensures name == old(name) && symbol == old(symbol) && extension == old(extension)
      ensures Valid()
      ensures approved == old(approved) && operators == old(operators) && controllers == old(controllers)
      ensures Find(old(tokens), tokenId, None).None? ==> r == Err(TokenNotFound) && tokens == old(tokens)
      ensures Find(old(tokens), tokenId, None).Some? ==>
        var i := Find(old(tokens), tokenId, None).value;
        tokens == old(tokens)[i := old(tokens)[i].(asset := asset)] && r == Ok(tokens[i])
    {
      var index := FindToken(tokens, tokenId, None);
      if index.None? {
        return Err(TokenNotFound);
      }
      var i := index.value;
      tokens := tokens[i := tokens[i].(asset := asset)];
      r := Ok(tokens[i]);
    }

    /** `transfer_from`: the first token with that id owned by `from` goes
        to `to` and loses its approval; `from`'s operators go once it owns
        nothing. The call itself does not look at the caller. */
    method TransferFrom(from: User, to: User, tokenId: string) returns (r: Result<(), ErrorCode>)
      requires Valid()
      modifies this
      ensures name == old(name) && symbol == old(symbol) && extension == old(extension)
      ensures Valid()
      ensures controllers == old(controllers)
      ensures Find(old(tokens), tokenId, Some(from)).None? ==>
        r == Err(TokenNotFound) && tokens == old(tokens) && approved == old(approved) && operators == old(operators)
      ensures Find(old(tokens), tokenId, Some(from)).Some? ==>
        var i := Find(old(tokens), tokenId, Some(from)).value;
        && r == Ok(())
        && tokens == old(tokens)[i := old(tokens)[i].(owner := to)]
        && approved == old(approved) - {tokenId}
        && operators == if BalanceOf(tokens, from) == 0 then old(operators) - {from} else old(operators)
    {
      var index := FindToken(tokens, tokenId, Some(from));
      if index.None? {
        return Err(TokenNotFound);
      }
      var i := index.value;
      tokens := tokens[i := tokens[i].(owner := to)];
      approved := approved - {tokenId};
      if BalanceOf(tokens, from) == 0 {
        operators := operators - {from};
      }
      r := Ok(());
    }

    /** `approve`: some user becomes the token's single approved user, none
        clears it. */
    method Approve(tokenId: string, user: Option<User>) returns (r: Result<(), ErrorCode>)
      requires Valid()
      modifies this
      ensures name == old(name) && symbol == old(symbol) && extension == old(extension)
      ensures Valid()
      ensures tokens == old(tokens) && operators == old(operators) && controllers == old(controllers)
      ensures Find(tokens, tokenId, None).None? ==> r == Err(TokenNotFound) && approved == old(approved)
      ensures Find(tokens, tokenId, None).Some? ==>
        r == Ok(()) &&
        approved == if user.Some? then old(approved)[tokenId := user.value] else old(approved) - {tokenId}
    {
      var index := FindToken(tokens, tokenId, None);
      if index.None? {
        return Err(TokenNotFound);
      }
      if user.Some? {
        approved := approved[tokenId := user.value];
      } else {
        approved := approved - {tokenId};
      }
      r := Ok(());
    }

    /** `set_approval_for_all`: the caller's user gets an operator list,
        empty if it had none, even when the call then fails; adding a
        present operator or removing an absent one fails, anything else
        adds or removes exactly that operator. */
    method SetApprovalForAll(caller: Principal, createAddress: AddressOf, operator: User, isApproved: bool,
                             subAccount: Option<Subaccount>) returns (r: Result<(), ErrorCode>)
      requires Valid()
      modifies this
      ensures name == old(name) && symbol == old(symbol) && extension == old(extension)
      ensures Valid()
      ensures tokens == old(tokens) && approved == old(approved) && controllers == old(controllers)
      ensures var user := CallerToUser(caller, subAccount, createAddress);
        var base := if user in old(operators) then old(operators) else old(operators)[user := []];
        if isApproved then
          if operator in base[user] then r == Err(IsAlreadyOperator) && operators == base
          else r == Ok(()) && operators == base[user := base[user] + [operator]]
        else if operator !in base[user] then
          r == Err(OperatorNotFound) && operators == base
        else
          r == Ok(()) && user in operators && operator !in operators[user] &&
          multiset(operators[user]) == multiset(base[user]) - multiset{operator} &&
          (exists i :: 0 <= i < |base[user]| && base[user][i] == operator &&
             operators[user] == RemoveAt(base[user], i)) &&
          operators == base[user := operators[user]]
    {
      var user := CallerToUser(caller, subAccount, createAddress);
      if user !in operators {
        operators := operators[user := []];
      }
      var list := operators[user];
      var index := Position(list, operator);
      if isApproved {
        if index.None? {
          AppendKeepsNoDuplicates(list, operator);
          operators := operators[user := list + [operator]];
        } else {
          return Err(IsAlreadyOperator);
        }
      } else {
        if index.None? {
          return Err(OperatorNotFound);
        }
        RemoveOnly(list, index.value);
        operators := operators[user := RemoveAt(list, index.value)];
      }
      r := Ok(());
    }

    /** `set_controller`: adding a present controller or removing an absent
        one fails; anything else adds or removes exactly that controller. */
    method SetController(controller: Principal, isApproved: bool) returns (r: Result<(), ErrorCode>)
      requires Valid()
      modifies this
      ensures name == old(name) && symbol == old(symbol) && extension == old(extension)
      ensures Valid()
      ensures tokens == old(tokens) && approved == old(approved) && operators == old(operators)
      ensures r.Err? ==> controllers == old(controllers)
      ensures isApproved ==>
        if controller in old(controllers) then r == Err(IsAlreadyController)
        else r == Ok(()) && controllers == old(controllers) + [controller]
      ensures !isApproved ==>
        if controller !in old(controllers) then r == Err(ControllerNotFound)
        else
          r == Ok(()) && controller !in controllers &&
          multiset(controllers) == multiset(old(controllers)) - multiset{controller} &&
          (exists i :: 0 <= i < |old(controllers)| && old(controllers)[i] == controller &&
             controllers == RemoveAt(old(controllers), i))
    {
      var index := Position(controllers, controller);
      if isApproved {
        if index.None? {
          AppendKeepsNoDuplicates(controllers, controller);
          controllers := controllers + [controller];
        } else {
          return Err(IsAlreadyController);
        }
      } else {
        if index.None? {
          return Err(ControllerNotFound);
        }
        RemoveOnly(controllers, index.value);
        controllers := RemoveAt(controllers, index.value);
      }
      r := Ok(());
    }
  }
}
