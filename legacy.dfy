/** The older ledger canister of src/lib.rs. Tokens are kept in a vector in
    mint order, each with a principal id that embeds its mint index and an
    owner `User`; approvals are per-token vectors of principals, and
    custodians and extensions are kept alongside. `caller()` and `id()` are
    parameters, and so is `AccountIdentifier::new`, a hash this model does
    not compute. */
module Legacy {
  import opened Bytes
  import opened Vectors
  import Types

  type Principal = Types.Principal

  type Subaccount = Types.Subaccount

  /** A ledger account identifier: 32 bytes. */
  type AccountIdentifier = s: seq<u8> | |s| == 32 witness Zeros(32)

  /** `AccountIdentifier::new(principal, subaccount)`. */
  type AccountIdOf = (Principal, Subaccount) -> AccountIdentifier

  datatype User = Principal(principal: Principal) | Account(account: AccountIdentifier) | Null

  datatype Token = Token(id: Principal, owner: User)

  const MAX_APPROVALS: nat := 256
  const MAX_CUSTODIANS: nat := 256
  const MAX_EXTENSIONS: nat := 256
  const MAX_EXTENSION_TYPES: nat := 256

  /** The largest mint index `mint` hands out. */
  const MAX_MINT: nat := 100000

  /** The user a call acts as: the caller's principal, or its account
      identifier when a subaccount is given. */
  function CallerUser(caller: Principal, fromSubaccount: Option<Subaccount>, accountId: AccountIdOf): User {
    match fromSubaccount
    case Some(s) => Account(accountId(caller, s))
    case None => Principal(caller)
  }

  // ---------------------------------------------------------------------
  // Searching

  /** The first index of a token with that id (`iter().position`). */
  function Find(tokens: seq<Token>, id: Principal): (r: Option<nat>)
    ensures r.Some? ==> r.value < |tokens| && tokens[r.value].id == id
    ensures r.Some? ==> forall j :: 0 <= j < r.value ==> tokens[j].id != id
    ensures r.None? ==> forall j :: 0 <= j < |tokens| ==> tokens[j].id != id
  {
    if tokens == [] then None
    else if tokens[0].id == id then Some(0)
    else match Find(tokens[1..], id)
      case None => None
      case Some(k) => Some(k + 1)
  }

  /** The scan `find` and `position` make over the tokens. */
  method FindToken(tokens: seq<Token>, id: Principal) returns (r: Option<nat>)
    ensures r == Find(tokens, id)
  {
    var i := 0;
    while i < |tokens|
      invariant i <= |tokens|
      invariant forall j :: 0 <= j < i ==> tokens[j].id != id
    {
      if tokens[i].id == id {
        FindIsFirst(tokens, id, i);
        return Some(i);
      }
      i := i + 1;
    }
    FindIsFirst(tokens, id, |tokens|);
    r := None;
  }

  /** Find is pinned down by where the first match is. */
  lemma {:induction false} FindIsFirst(tokens: seq<Token>, id: Principal, i: nat)
    requires i <= |tokens| && forall j :: 0 <= j < i ==> tokens[j].id != id
    requires i < |tokens| ==> tokens[i].id == id
    ensures Find(tokens, id) == if i < |tokens| then Some(i) else None
  {
    if tokens != [] && i > 0 {
      FindIsFirst(tokens[1..], id, i - 1);
    }
  }

  // ---------------------------------------------------------------------
  // Queries

  /** `tokens_of`: the tokens of that owner, in list order. */
  function TokensOf(tokens: seq<Token>, owner: User): seq<Token> {
    if tokens == [] then []
    else (if tokens[0].owner == owner then [tokens[0]] else []) + TokensOf(tokens[1..], owner)
  }

  /** The list holds exactly the owner's tokens. */
  lemma {:induction false} TokensOfMembers(tokens: seq<Token>, owner: User)
    ensures forall t :: t in TokensOf(tokens, owner) <==> t in tokens && t.owner == owner
  {
    if tokens != [] {
      TokensOfMembers(tokens[1..], owner);
      assert tokens == [tokens[0]] + tokens[1..];
    }
  }

  /** `balance_of`: the number of tokens of that owner. */
  function BalanceOf(tokens: seq<Token>, user: User): nat {
    if tokens == [] then 0
    else (if tokens[0].owner == user then 1 else 0) + BalanceOf(tokens[1..], user)
  }

  /** The balance is the length of the owner's token list, so at most the
      supply. */
  lemma {:induction false} BalanceCountsTokens(tokens: seq<Token>, user: User)
    ensures BalanceOf(tokens, user) == |TokensOf(tokens, user)|
    ensures BalanceOf(tokens, user) <= |tokens|
  {
    if tokens != [] {
      BalanceCountsTokens(tokens[1..], user);
    }
  }

  /** `total_supply`: the length of the vector, which bounds every balance
      and is zero exactly when every balance is. */
  function TotalSupply(tokens: seq<Token>): (n: nat)
    ensures forall u :: BalanceOf(tokens, u) <= n
    ensures n == 0 <==> forall u :: BalanceOf(tokens, u) == 0
  {
    BalancesBounded(tokens);
    assert tokens != [] ==> BalanceOf(tokens, tokens[0].owner) > 0;
    |tokens|
  }

  lemma {:induction false} BalancesBounded(tokens: seq<Token>)
    ensures forall u :: BalanceOf(tokens, u) <= |tokens|
  {
    forall u
      ensures BalanceOf(tokens, u) <= |tokens|
    {
      BalanceCountsTokens(tokens, u);
    }
  }

  /** `owner_of`. */
  function OwnerOf(tokens: seq<Token>, id: Principal): (r: Result<User, string>)
    ensures r.Err? <==> forall j :: 0 <= j < |tokens| ==> tokens[j].id != id
    ensures r.Err? ==> r.error == "Token not found"
    ensures r.Ok? ==>
      exists j :: 0 <= j < |tokens| && tokens[j] == Token(id, r.value) &&
        forall k :: 0 <= k < j ==> tokens[k].id != id
  {
    match Find(tokens, id)
    case None => Err("Token not found")
    case Some(i) => assert tokens[i] == Token(id, tokens[i].owner); Ok(tokens[i].owner)
  }

  /** Changing one token's owner moves one unit of balance from its old
      owner to the new one. */
  lemma {:induction false} BalanceAfterOwnerChange(tokens: seq<Token>, i: nat, to: User, u: User)
    requires i < |tokens|
    ensures BalanceOf(tokens[i := tokens[i].(owner := to)], u) + (if tokens[i].owner == u then 1 else 0) ==
      BalanceOf(tokens, u) + (if to == u then 1 else 0)
  {
    var after := tokens[i := tokens[i].(owner := to)];
    if i > 0 {
      assert after[1..] == tokens[1..][i - 1 := tokens[i].(owner := to)];
      BalanceAfterOwnerChange(tokens[1..], i - 1, to, u);
    } else {
      assert after[1..] == tokens[1..];
    }
  }

  /** Removing a token takes it off its owner's balance only. */
  lemma {:induction false} BalanceAfterRemove(tokens: seq<Token>, i: nat, u: User)
    requires i < |tokens|
    ensures BalanceOf(RemoveAt(tokens, i), u) + (if tokens[i].owner == u then 1 else 0) == BalanceOf(tokens, u)
  {
    if i > 0 {
      assert RemoveAt(tokens, i)[1..] == RemoveAt(tokens[1..], i - 1);
      assert RemoveAt(tokens, i)[0] == tokens[0];
      BalanceAfterRemove(tokens[1..], i - 1, u);
    } else {
      assert RemoveAt(tokens, 0) == tokens[1..];
    }
  }

  lemma {:induction false} BalanceAfterAppend(tokens: seq<Token>, t: Token, u: User)
    ensures BalanceOf(tokens + [t], u) == BalanceOf(tokens, u) + (if t.owner == u then 1 else 0)
  {
    if tokens != [] {
      assert (tokens + [t])[1..] == tokens[1..] + [t];
      BalanceAfterAppend(tokens[1..], t, u);
    } else {
      assert ([] + [t])[1..] == [];
    }
  }

  // ---------------------------------------------------------------------
  // Mint indices

  /** Every token id is the id `mint` builds for this canister, and the mint
      indices strictly increase along the vector and never pass the limit. */
  ghost predicate MintOrdered(tokens: seq<Token>, canister: Principal) {
    && |canister| <= 20
    && (forall i :: 0 <= i < |tokens| ==>
         |tokens[i].id| == |canister| + 9 &&
         tokens[i].id == Types.FromMintIndex(canister, Types.ToMintIndex(tokens[i].id)) &&
         Types.ToMintIndex(tokens[i].id) <= MAX_MINT)
    && (forall i, j :: 0 <= i < j < |tokens| ==>
         Types.ToMintIndex(tokens[i].id) < Types.ToMintIndex(tokens[j].id))
  }

  /** The mint index `mint` gives the next token: one more than the last
      token's, or 0 for an empty vector (ids in use are never shorter than
      five bytes). */
  ghost function NextMint(tokens: seq<Token>): nat {
    if tokens == [] || |tokens[|tokens| - 1].id| < 5 then 0
    else Types.ToMintIndex(tokens[|tokens| - 1].id) + 1
  }

  /** Mint-ordered tokens never share an id. */
  lemma {:induction false} MintOrderedIdsDistinct(tokens: seq<Token>, canister: Principal, i: nat, j: nat)
    requires MintOrdered(tokens, canister)
    requires i < j < |tokens|
    ensures tokens[i].id != tokens[j].id
  {
  }

  /** The next index is larger than every index in use, so a fresh token's
      id is new. */
  lemma {:induction false} NextMintIsFresh(tokens: seq<Token>, canister: Principal)
    requires MintOrdered(tokens, canister)
    ensures forall i :: 0 <= i < |tokens| ==> Types.ToMintIndex(tokens[i].id) < NextMint(tokens)
    ensures NextMint(tokens) <= MAX_MINT + 1
  {
  }

  /** Mint indices are at least their position. */
  lemma {:induction false} MintIndexAtLeastPosition(tokens: seq<Token>, canister: Principal, i: nat)
    requires MintOrdered(tokens, canister) && i < |tokens|
    ensures Types.ToMintIndex(tokens[i].id) >= i
  {
    if i > 0 {
      MintIndexAtLeastPosition(tokens, canister, i - 1);
    }
  }

  /** So a mint-ordered vector holds at most 100001 tokens. */
  lemma {:induction false} MintOrderedLength(tokens: seq<Token>, canister: Principal)
    requires MintOrdered(tokens, canister)
    ensures |tokens| <= MAX_MINT + 1
  {
    if tokens != [] {
      MintIndexAtLeastPosition(tokens, canister, |tokens| - 1);
    }
  }

  /** `len() - 1` in the release build: the last position, or the largest
      usize for an empty vector. */
  lemma {:induction false} LastIndexWraps(len: nat)
    requires len < USIZE_LIMIT
    ensures (len + USIZE_LIMIT - 1) % USIZE_LIMIT == if len == 0 then USIZE_LIMIT - 1 else len - 1
  {
  }

  /** What `mint` reads at `len() - 1`: nothing for an empty vector, else
      the last token, whose index is one below the next. */
  lemma {:induction false} MintFromLast(tokens: seq<Token>, canister: Principal)
    requires MintOrdered(tokens, canister)
    ensures |tokens| < USIZE_LIMIT
    ensures var last := (|tokens| + USIZE_LIMIT - 1) % USIZE_LIMIT;
      (last < |tokens| <==> tokens != []) &&
      (last < |tokens| ==> |tokens[last].id| >= 5 && NextMint(tokens) == Types.ToMintIndex(tokens[last].id) + 1)
  {
    MintOrderedLength(tokens, canister);
    LastIndexWraps(|tokens|);
  }

  /** Appending the token `mint` builds keeps the vector mint-ordered. */
  lemma {:induction false} MintOrderedAppend(tokens: seq<Token>, canister: Principal)
    requires MintOrdered(tokens, canister) && NextMint(tokens) <= MAX_MINT
    ensures MintOrdered(tokens + [Token(Types.FromMintIndex(canister, NextMint(tokens)), Null)], canister)
  {
    var mint := NextMint(tokens);
    NextMintIsFresh(tokens, canister);
    Types.MintIndexRoundTrip(canister, mint);
  }

  /** Burning the last token lets the next mint hand out its id again. */
  lemma {:induction false} BurnLastReusesId(tokens: seq<Token>, canister: Principal)
    requires MintOrdered(tokens, canister) && tokens != []
    ensures NextMint(RemoveAt(tokens, |tokens| - 1)) <= Types.ToMintIndex(tokens[|tokens| - 1].id)
  {
    var rest := RemoveAt(tokens, |tokens| - 1);
    if rest != [] {
      assert rest[|rest| - 1] == tokens[|tokens| - 2];
    }
  }

  lemma {:induction false} MintOrderedRemove(tokens: seq<Token>, canister: Principal, k: nat)
    requires MintOrdered(tokens, canister) && k < |tokens|
    ensures MintOrdered(RemoveAt(tokens, k), canister)
  {
    var r := RemoveAt(tokens, k);
    forall i, j | 0 <= i < j < |r|
      ensures Types.ToMintIndex(r[i].id) < Types.ToMintIndex(r[j].id)
    {
      var i', j' := if i < k then i else i + 1, if j < k then j else j + 1;
      assert r[i] == tokens[i'] && r[j] == tokens[j'];
    }
  }

  lemma {:induction false} MintOrderedOwnerChange(tokens: seq<Token>, canister: Principal, k: nat, to: User)
    requires MintOrdered(tokens, canister) && k < |tokens|
    ensures MintOrdered(tokens[k := tokens[k].(owner := to)], canister)
  {
  }

  /** Every approval list is duplicate-free and within the limit. */
  predicate ApprovalsValid(approved: map<Principal, seq<Principal>>) {
    forall id :: id in approved ==> NoDuplicates(approved[id]) && |approved[id]| <= MAX_APPROVALS
  }

  lemma {:induction false} ApprovalsUpdate(approved: map<Principal, seq<Principal>>, id: Principal, list: seq<Principal>)
    requires ApprovalsValid(approved) && NoDuplicates(list) && |list| <= MAX_APPROVALS
    ensures ApprovalsValid(approved[id := list])
  {
    var m := approved[id := list];
    forall k | k in m
      ensures NoDuplicates(m[k]) && |m[k]| <= MAX_APPROVALS
    {
      if k != id {
        assert m[k] == approved[k];
      }
    }
  }

  // ---------------------------------------------------------------------
  // The canister state

  class State {
    var name: string
    var symbol: string
    var tokens: seq<Token>
    var approved: map<Principal, seq<Principal>>
    var extensions: map<Principal, seq<string>>
    var custodians: seq<Principal>

    /** The limits the update calls keep: no duplicate custodians or
        approvals, at most 256 of each, at most 256 extensions. */
    ghost predicate Valid()
      reads this
    {
      && NoDuplicates(custodians) && |custodians| <= MAX_CUSTODIANS
      && |extensions.Keys| <= MAX_EXTENSIONS
      && ApprovalsValid(approved)
    }

    /** `init`. */
    constructor (newName: string, newSymbol: string, custodian: Principal)
      ensures Valid()
      ensures name == newName && symbol == newSymbol && custodians == [custodian]
      ensures tokens == [] && approved == map[] && extensions == map[]
    {
      name, symbol, custodians := newName, newSymbol, [custodian];
      tokens, approved, extensions := [], map[], map[];
    }

    /** `true` when the token exists and the user owns it. */
    ghost predicate Owns(user: User, tokenId: Principal)
      reads this
    {
      Find(tokens, tokenId).Some? && tokens[Find(tokens, tokenId).value].owner == user
    }

    /** `approve`: the checks in order are self-approval, an unknown token,
        a caller who is not the owner; then, to approve, a spender already
        approved and a full list; to revoke, a spender not in the list. */
    method Approve(caller: Principal, accountId: AccountIdOf, fromSubaccount: Option<Subaccount>,
                   spender: Principal, tokenId: Principal, isApproved: bool) returns (r: Result<(), string>)
      requires Valid()
      modifies this
      ensures name == old(name) && symbol == old(symbol)
      ensures Valid()
      ensures tokens == old(tokens) && custodians == old(custodians) && extensions == old(extensions)
      ensures r.Err? ==> approved == old(approved)
      ensures spender == caller ==> r == Err("Caller cannot approve itself")
      ensures spender != caller && Find(tokens, tokenId).None? ==> r == Err("Token not found")
      ensures (spender != caller && Find(tokens, tokenId).Some? &&
               !Owns(CallerUser(caller, fromSubaccount, accountId), tokenId)) ==> r == Err("Caller is not owner")
      ensures
        (spender != caller && Owns(CallerUser(caller, fromSubaccount, accountId), tokenId) && isApproved) ==>
        if tokenId !in old(approved) then
          r == Ok(()) && approved == old(approved)[tokenId := [spender]]
        else if spender in old(approved)[tokenId] then
          r == Err("Already approved")
        else if |old(approved)[tokenId]| == MAX_APPROVALS then
          r == Err("Max approvals (256) has been reached")
        else
          r == Ok(()) && approved == old(approved)[tokenId := old(approved)[tokenId] + [spender]]
      ensures
        (spender != caller && Owns(CallerUser(caller, fromSubaccount, accountId), tokenId) && !isApproved) ==>
        if tokenId !in old(approved) || spender !in old(approved)[tokenId] then
          r == Err("Approved not found")
        else
          r == Ok(()) && tokenId in approved && spender !in approved[tokenId] &&
          multiset(approved[tokenId]) == multiset(old(approved)[tokenId]) - multiset{spender} &&
          (exists i :: 0 <= i < |old(approved)[tokenId]| && old(approved)[tokenId][i] == spender &&
             approved[tokenId] == RemoveAt(old(approved)[tokenId], i)) &&
          approved == old(approved)[tokenId := approved[tokenId]]
    {
      if spender == caller {
        return Err("Caller cannot approve itself");
      }
      var index := FindToken(tokens, tokenId);
      if index.None? {
        return Err("Token not found");
      }
      var user := CallerUser(caller, fromSubaccount, accountId);
      if user != tokens[index.value].owner {
        return Err("Caller is not owner");
      }
      if isApproved {
        if tokenId in approved {
          var list := approved[tokenId];
          if spender in list {
            return Err("Already approved");
          }
          if |list| == MAX_APPROVALS {
            return Err("Max approvals (256) has been reached");
          }
          AppendKeepsNoDuplicates(list, spender);
          ApprovalsUpdate(approved, tokenId, list + [spender]);
          approved := approved[tokenId := list + [spender]];
        } else {
          ApprovalsUpdate(approved, tokenId, [spender]);
          approved := approved[tokenId := [spender]];
          return Ok(());
        }
      } else {
        if tokenId !in approved {
          return Err("Approved not found");
        }
        var list := approved[tokenId];
        var at := Position(list, spender);
        if at.None? {
          return Err("Approved not found");
        }
        RemoveOnly(list, at.value);
        ApprovalsUpdate(approved, tokenId, RemoveAt(list, at.value));
        approved := approved[tokenId := RemoveAt(list, at.value)];
      }
      r := Ok(());
    }

    /** `transfer`: to anyone but `Null`, by the owner, or by a custodian
        for a token nobody owns yet. The token's approvals go. */
    method Transfer(caller: Principal, accountId: AccountIdOf, fromSubaccount: Option<Subaccount>,
                    to: User, tokenId: Principal) returns (r: Result<(), string>)
      requires Valid()
      modifies this
      ensures name == old(name) && symbol == old(symbol)
      ensures Valid()
      ensures custodians == old(custodians) && extensions == old(extensions)
      ensures r.Err? ==> tokens == old(tokens) && approved == old(approved)
      ensures to == Null ==> r == Err("Cannot transfer to null")
      ensures to != Null && Find(old(tokens), tokenId).None? ==> r == Err("Token not found")
      ensures to != Null && Find(old(tokens), tokenId).Some? ==>
        var i := Find(old(tokens), tokenId).value;
        var owner := old(tokens)[i].owner;
        if CallerUser(caller, fromSubaccount, accountId) == owner || (owner == Null && caller in old(custodians)) then
          r == Ok(()) && tokens == old(tokens)[i := old(tokens)[i].(owner := to)] &&
          approved == old(approved) - {tokenId}
        else
          r == Err("Caller is not owner or custodian")
    {
      if to == Null {
        return Err("Cannot transfer to null");
      }
      var from := CallerUser(caller, fromSubaccount, accountId);
      var isCustodian := caller in custodians;
      var index := FindToken(tokens, tokenId);
      if index.None? {
        return Err("Token not found");
      }
      var i := index.value;
      var isOwner := from == tokens[i].owner;
      if !isOwner && !(tokens[i].owner == Null && isCustodian) {
        return Err("Caller is not owner or custodian");
      }
      tokens := tokens[i := tokens[i].(owner := to)];
      approved := approved - {tokenId};
      r := Ok(());
    }

    /** `transfer_from`: the caller must be in the token's approval list;
        the owner itself is not excused. The token's approvals go. */
    method TransferFrom(caller: Principal, from: User, to: User, tokenId: Principal) returns (r: Result<(), string>)
      requires Valid()
      modifies this
      ensures name == old(name) && symbol == old(symbol)
      ensures Valid()
      ensures custodians == old(custodians) && extensions == old(extensions)
      ensures r.Err? ==> tokens == old(tokens) && approved == old(approved)
      ensures to == Null ==> r == Err("Cannot transfer to null")
      ensures to != Null && Find(old(tokens), tokenId).None? ==> r == Err("Token not found")
      ensures to != Null && Find(old(tokens), tokenId).Some? ==>
        var i := Find(old(tokens), tokenId).value;
        if from != old(tokens)[i].owner then
          r == Err("Token is not owned by user passed as from argument")
        else if !(tokenId in old(approved) && caller in old(approved)[tokenId]) then
          r == Err("Caller is not approved")
        else
          r == Ok(()) && tokens == old(tokens)[i := old(tokens)[i].(owner := to)] &&
          approved == old(approved) - {tokenId}
    {
      if to == Null {
        return Err("Cannot transfer to null");
      }
      var isApproved := tokenId in approved && caller in approved[tokenId];
      var index := FindToken(tokens, tokenId);
      if index.None? {
        return Err("Token not found");
      }
      var i := index.value;
      if from != tokens[i].owner {
        return Err("Token is not owned by user passed as from argument");
      }
      if !isApproved {
        return Err("Caller is not approved");
      }
      tokens := tokens[i := tokens[i].(owner := to)];
      approved := approved - {tokenId};
      r := Ok(());
    }

    /** `mint`: a custodian appends a token nobody owns, whose id carries
        the next mint index. `len() - 1` on an empty vector wraps around
        (the release build does not check overflow), the lookup fails and
        the index is 0. */
    method Mint(caller: Principal, canister: Principal) returns (r: Result<Token, string>)
      requires Valid() && MintOrdered(tokens, canister)
      modifies this
      ensures name == old(name) && symbol == old(symbol)
      ensures Valid() && MintOrdered(tokens, canister)
      ensures approved == old(approved) && custodians == old(custodians) && extensions == old(extensions)
      ensures r.Err? ==> tokens == old(tokens)
      ensures caller !in old(custodians) ==> r == Err("Caller is not a custodian")
      ensures caller in old(custodians) && NextMint(old(tokens)) > MAX_MINT ==>
        r == Err("Max tokens (100000) has been reached")
      ensures caller in old(custodians) && NextMint(old(tokens)) <= MAX_MINT ==>
        r == Ok(Token(Types.FromMintIndex(canister, NextMint(old(tokens))), Null)) &&
        tokens == old(tokens) + [r.value]
    {
      if caller !in custodians {
        return Err("Caller is not a custodian");
      }
      MintFromLast(tokens, canister);
      var last := (|tokens| + USIZE_LIMIT - 1) % USIZE_LIMIT;
      var mint: nat := 0;
      if last < |tokens| {
        mint := Types.ToMintIndex(tokens[last].id) + 1;
      }
      assert mint == NextMint(tokens);
      if mint > MAX_MINT {
        return Err("Max tokens (100000) has been reached");
      }
      var token := Token(Types.FromMintIndex(canister, mint), Null);
      MintOrderedAppend(tokens, canister);
      tokens := tokens + [token];
      r := Ok(token);
    }

    /** `burn`: a custodian removes a token that nobody or the custodian
        itself owns; the order of the others is kept. The token's approval
        list is left behind. */
    method Burn(caller: Principal, tokenId: Principal) returns (r: Result<(), string>)
      requires Valid()
      modifies this
      ensures name == old(name) && symbol == old(symbol)
      ensures Valid()
      ensures approved == old(approved) && custodians == old(custodians) && extensions == old(extensions)
      ensures r.Err? ==> tokens == old(tokens)
      ensures Find(old(tokens), tokenId).None? ==> r == Err("Token not found")
      ensures Find(old(tokens), tokenId).Some? ==>
        var i := Find(old(tokens), tokenId).value;
        var owner := old(tokens)[i].owner;
        if (owner == Null || owner == Principal(caller)) && caller in old(custodians) then
          r == Ok(()) && tokens == RemoveAt(old(tokens), i)
        else
          r == Err("Caller is not a custodian")
    {
      var index := FindToken(tokens, tokenId);
      if index.None? {
        return Err("Token not found");
      }
      var owner := tokens[index.value].owner;
      var isCustodian := (owner == Null || owner == Principal(caller)) && caller in custodians;
      if !isCustodian {
        return Err("Caller is not a custodian");
      }
      tokens := RemoveAt(tokens, index.value);
      r := Ok(());
    }

    /** `set_extension`: empty `types` removes the entry; more than 256
        types, or a new entry when 256 are already there, is refused. */
    method SetExtension(caller: Principal, principal: Principal, types: seq<string>) returns (r: Result<(), string>)
      requires Valid()
      modifies this
      ensures name == old(name) && symbol == old(symbol)
      ensures Valid()
      ensures tokens == old(tokens) && approved == old(approved) && custodians == old(custodians)
      ensures r.Err? ==> extensions == old(extensions)
      ensures caller !in old(custodians) ==> r == Err("Caller is not a custodian")
      ensures caller in old(custodians) ==>
        if |types| == 0 then r == Ok(()) && extensions == old(extensions) - {principal}
        else if |types| > MAX_EXTENSION_TYPES then r == Err("Max extension types (256) has been reached")
        else if |old(extensions).Keys| == MAX_EXTENSIONS then r == Err("Max extensions (256) has been reached")
        else r == Ok(()) && extensions == old(extensions)[principal := types]
    {
      if caller !in custodians {
        return Err("Caller is not a custodian");
      }
      if |types| == 0 {
        extensions := extensions - {principal};
      } else if |types| > MAX_EXTENSION_TYPES {
        return Err("Max extension types (256) has been reached");
      } else {
        if |extensions.Keys| == MAX_EXTENSIONS {
          return Err("Max extensions (256) has been reached");
        }
        assert |extensions[principal := types].Keys| <= |extensions.Keys| + 1 by {
          assert extensions[principal := types].Keys == extensions.Keys + {principal};
        }
        extensions := extensions[principal := types];
      }
      r := Ok(());
    }

    /** `set_custodian`: adding refuses a custodian already present and a
        full list; removing refuses one that is not there. */
    method SetCustodian(caller: Principal, custodian: Principal, isCustodian: bool) returns (r: Result<(), string>)
      requires Valid()
      modifies this
      ensures name == old(name) && symbol == old(symbol)
      ensures Valid()
      ensures tokens == old(tokens) && approved == old(approved) && extensions == old(extensions)
      ensures r.Err? ==> custodians == old(custodians)
      ensures caller !in old(custodians) ==> r == Err("Caller is not a custodian")
      ensures caller in old(custodians) && isCustodian ==>
        if custodian in old(custodians) then r == Err("Already a custodian")
        else if |old(custodians)| == MAX_CUSTODIANS then r == Err("Max custodians (256) has been reached")
        else r == Ok(()) && custodians == old(custodians) + [custodian]
      ensures caller in old(custodians) && !isCustodian ==>
        if custodian !in old(custodians) then r == Err("Custodian not found")
        else
          r == Ok(()) && custodian !in custodians &&
          multiset(custodians) == multiset(old(custodians)) - multiset{custodian} &&
          (exists i :: 0 <= i < |old(custodians)| && old(custodians)[i] == custodian &&
             custodians == RemoveAt(old(custodians), i))
    {
      if caller !in custodians {
        return Err("Caller is not a custodian");
      }
      if isCustodian {
        if custodian in custodians {
          return Err("Already a custodian");
        }
        if |custodians| == MAX_CUSTODIANS {
          return Err("Max custodians (256) has been reached");
        }
        AppendKeepsNoDuplicates(custodians, custodian);
        custodians := custodians + [custodian];
      } else {
        var at := Position(custodians, custodian);
        if at.None? {
          return Err("Custodian not found");
        }
        RemoveOnly(custodians, at.value);
        custodians := RemoveAt(custodians, at.value);
      }
      r := Ok(());
    }
  }
}
