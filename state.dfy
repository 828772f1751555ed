/** The ledger state machine of rust/src/state.rs, as functions over a
    `Ledger` value. Every mutator checks its preconditions in a fixed order,
    changes nothing when one fails, and otherwise appends exactly one event
    to the current block and bumps the transaction total; the id of that
    transaction is returned and stored in the token (or, for custodian
    changes, in `custodiansTx`). The message caller, the time and the
    canister's own principal (the minter) come in as an `Env`. The class
    `State` at the end performs the same steps on its fields in place, and
    is proved to agree with the functions. */
module LedgerState {
  import opened Bytes
  import opened Types

  const MAX_APPROVALS: nat := 256
  const MAX_CUSTODIANS: nat := 256

  /** How many token ids one page of `tokens` / `tokens_of` holds. */
  const TOKENS_PAGE: nat := 100000

  /** What `caller()`, `time()` and `id()` return during a call. */
  datatype Env = Env(caller: Principal, time: u64, canister: Principal)

  datatype Ledger = Ledger(
    name: string,
    symbol: string,
    tokens: map<nat, Token>,
    currentBlock: seq<Event>,
    txTotal: nat,
    custodiansTx: nat,
    custodians: set<Principal>)

  /** `State::default()`, the state before `init`. */
  const DEFAULT: Ledger := Ledger("", "", map[], [], 0, 0, {})

  /** The invariant the mutators keep: one event per transaction, every
      stored transaction id names a written transaction, and the approval
      and custodian sets stay within their limits. */
  predicate Valid(l: Ledger) {
    && |l.currentBlock| == l.txTotal
    && |l.custodians| <= MAX_CUSTODIANS
    && (l.custodiansTx == 0 || l.custodiansTx < l.txTotal)
    && forall id :: id in l.tokens ==>
      l.tokens[id].txId < l.txTotal && |l.tokens[id].approved| <= MAX_APPROVALS
  }

  lemma {:induction false} DefaultIsValid()
    ensures Valid(DEFAULT)
  {
  }

  // ---------------------------------------------------------------------
  // Writing transactions

  /** `write_tx`: the event becomes the next entry of the current block. */
  function WriteTxStep(l: Ledger, e: Event): (r: Ledger)
    ensures |r.currentBlock| == |l.currentBlock| + 1
    ensures r.currentBlock[..|l.currentBlock|] == l.currentBlock
    ensures r.currentBlock[|l.currentBlock|] == e
    ensures r.txTotal == l.txTotal + 1
    ensures r.(currentBlock := l.currentBlock, txTotal := l.txTotal) == l
  {
    l.(currentBlock := l.currentBlock + [e], txTotal := l.txTotal + 1)
  }

  lemma {:induction false} WriteTxPreservesValid(l: Ledger, e: Event)
    requires Valid(l)
    ensures Valid(WriteTxStep(l, e))
  {
  }

  /** The optional call details every token event records: the memo, and
      `created_at_time`, which replaces any "time" entry already there. */
  function WithMemoAndTime(d: map<string, Value>, memo: Option<Memo>, createdAtTime: Option<u64>): (r: map<string, Value>)
    ensures r.Keys == d.Keys + (if memo.Some? then {"memo"} else {}) +
      (if createdAtTime.Some? then {"time"} else {})
    ensures memo.Some? ==> r["memo"] == Blob(memo.value)
    ensures createdAtTime.Some? ==> r["time"] == Nat(createdAtTime.value)
    ensures forall k :: k in d && k != "memo" && k != "time" ==> r[k] == d[k]
    ensures createdAtTime.None? && "time" in d ==> r["time"] == d["time"]
  {
    var withMemo := if memo.Some? then d["memo" := Blob(memo.value)] else d;
    if createdAtTime.Some? then withMemo["time" := Nat(createdAtTime.value)] else withMemo
  }

  function Flag(b: bool): Value {
    Nat(if b then 1 else 0)
  }

  // ---------------------------------------------------------------------
  // approve

  function ApproveEvent(env: Env, args: ApproveArgs, fromTx: nat): Event {
    Event(env.caller, "sld2:approve", env.time,
      WithMemoAndTime(
        map["token_id" := Nat(args.tokenId), "spender" := Text(PrincipalText(args.spender)),
            "approved" := Flag(args.approved), "from_tx" := Nat(fromTx)],
        args.memo, args.createdAtTime))
  }

  /** The first check of `approve` that fails, in the order the code makes
      them, or None. */
  function ApproveRejection(l: Ledger, env: Env, args: ApproveArgs): Option<ApproveError> {
    if args.spender == env.caller then Some(ApproveError.NotSelf)
    else if args.tokenId !in l.tokens then Some(ApproveError.NotFound)
    else if !Same(NewAccount(env.caller, args.fromSubaccount), l.tokens[args.tokenId].account) then
      Some(ApproveError.NotOwner)
    else if args.approved && |l.tokens[args.tokenId].approved| == MAX_APPROVALS then
      Some(ApproveError.MaxApprovals(MAX_APPROVALS))
    else None
  }

  /** `approve`: adds the spender to, or removes it from, the token's
      approved set and records an `sld2:approve` event. */
  function ApproveStep(l: Ledger, env: Env, args: ApproveArgs): (res: (Ledger, Result<nat, ApproveError>))
    ensures ApproveRejection(l, env, args).Some? ==>
      res.0 == l && res.1 == Err(ApproveRejection(l, env, args).value)
    ensures ApproveRejection(l, env, args).None? ==>
      var t := l.tokens[args.tokenId];
      && res.1 == Ok(l.txTotal)
      && res.0.tokens == l.tokens[args.tokenId := t.(
           txId := l.txTotal,
           approved := if args.approved then t.approved + {args.spender} else t.approved - {args.spender})]
      && res.0 == WriteTxStep(l, ApproveEvent(env, args, t.txId)).(tokens := res.0.tokens)
  {
    match ApproveRejection(l, env, args)
    case Some(e) => (l, Err(e))
    case None =>
      var t := l.tokens[args.tokenId];
      var approved := if args.approved then t.approved + {args.spender} else t.approved - {args.spender};
      var written := WriteTxStep(l, ApproveEvent(env, args, t.txId));
      var txId := written.txTotal - 1;
      (written.(tokens := l.tokens[args.tokenId := t.(txId := txId, approved := approved)]), Ok(txId))
  }

  /** The order of `approve`'s checks: self-approval first, then an unknown
      token, then a caller who does not own it from the given subaccount,
      then a full approved set. */
  lemma {:induction false} ApproveCheckOrder(l: Ledger, env: Env, args: ApproveArgs)
    ensures ApproveStep(l, env, args).1 == Err(ApproveError.NotSelf) <==> args.spender == env.caller
    ensures ApproveStep(l, env, args).1 == Err(ApproveError.NotFound) <==>
      args.spender != env.caller && args.tokenId !in l.tokens
    ensures ApproveStep(l, env, args).1 == Err(ApproveError.NotOwner) <==>
      args.spender != env.caller && args.tokenId in l.tokens &&
      !Same(NewAccount(env.caller, args.fromSubaccount), l.tokens[args.tokenId].account)
    ensures ApproveStep(l, env, args).1 == Err(ApproveError.MaxApprovals(MAX_APPROVALS)) <==>
      args.spender != env.caller && args.tokenId in l.tokens &&
      Same(NewAccount(env.caller, args.fromSubaccount), l.tokens[args.tokenId].account) &&
      args.approved && |l.tokens[args.tokenId].approved| == MAX_APPROVALS
    ensures ApproveStep(l, env, args).1.Ok? <==> ApproveRejection(l, env, args).None?
  {
  }

  /** A full approved set refuses even a spender that is already in it. */
  lemma {:induction false} MaxApprovalsEvenForMember(l: Ledger, env: Env, args: ApproveArgs)
    requires args.spender != env.caller && args.tokenId in l.tokens && args.approved
    requires l.tokens[args.tokenId].account == NewAccount(env.caller, args.fromSubaccount)
    requires args.spender in l.tokens[args.tokenId].approved
    requires |l.tokens[args.tokenId].approved| == MAX_APPROVALS
    ensures ApproveStep(l, env, args) == (l, Err(ApproveError.MaxApprovals(MAX_APPROVALS)))
  {
    SameIsEquivalence(l.tokens[args.tokenId].account, l.tokens[args.tokenId].account, l.tokens[args.tokenId].account);
  }

  /** Removing a spender that was never approved still succeeds, and
      records a transaction. */
  lemma {:induction false} RemovingNonMemberSucceeds(l: Ledger, env: Env, args: ApproveArgs)
    requires args.spender != env.caller && args.tokenId in l.tokens && !args.approved
    requires Same(NewAccount(env.caller, args.fromSubaccount), l.tokens[args.tokenId].account)
    requires args.spender !in l.tokens[args.tokenId].approved
    ensures ApproveStep(l, env, args).1 == Ok(l.txTotal)
    ensures ApproveStep(l, env, args).0.tokens[args.tokenId].approved == l.tokens[args.tokenId].approved
  {
  }

  lemma {:induction false} ApprovePreservesValid(l: Ledger, env: Env, args: ApproveArgs)
    requires Valid(l)
    ensures Valid(ApproveStep(l, env, args).0)
  {
    if ApproveRejection(l, env, args).None? {
      var t := l.tokens[args.tokenId];
      var approved := if args.approved then t.approved + {args.spender} else t.approved - {args.spender};
      assert |approved| <= MAX_APPROVALS by {
        if args.approved {
          assert |t.approved + {args.spender}| <= |t.approved| + 1;
        } else {
          assert t.approved - {args.spender} <= t.approved;
        }
      }
      var written := WriteTxStep(l, ApproveEvent(env, args, t.txId));
      WriteTxPreservesValid(l, ApproveEvent(env, args, t.txId));
      var n := ApproveStep(l, env, args).0;
      assert n == written.(tokens := l.tokens[args.tokenId := t.(txId := l.txTotal, approved := approved)]);
      forall id | id in n.tokens
        ensures n.tokens[id].txId < n.txTotal && |n.tokens[id].approved| <= MAX_APPROVALS
      {
        if id != args.tokenId {
          assert n.tokens[id] == l.tokens[id];
        }
      }
    }
  }

  // ---------------------------------------------------------------------
  // transfer_from

  /** The token as `transfer_from` sees it: the stored one, or for a
      custodian a fresh minter-owned token with transaction id 0. */
  function TokenFor(l: Ledger, env: Env, id: nat): Option<Token> {
    if id in l.tokens then Some(l.tokens[id])
    else if env.caller in l.custodians then Some(Token(Minter(env.canister), 0, {}))
    else None
  }

  /** The first check of `transfer_from` that fails, in the code's order. */
  function TransferFromRejection(l: Ledger, env: Env, args: TransferFromArgs): Option<TransferFromError> {
    var minter := Minter(env.canister);
    var isCustodian := env.caller in l.custodians;
    match TokenFor(l, env, args.tokenId)
    case None => Some(TransferFromError.NotFound)
    case Some(t) =>
      if !(Same(t.account, args.from) || (isCustodian && Same(t.account, minter))) then
        Some(TransferFromError.NotOwner)
      else if Same(args.to, minter) && !isCustodian then
        Some(TransferFromError.GenericError(403, "Caller is not custodian"))
      else if args.from.owner != env.caller && env.caller !in t.approved then
        Some(TransferFromError.NotApproved)
      else if Same(args.to, t.account) then
        Some(TransferFromError.NotSelf)
      else None
  }

  /** The event's label: a mint when the token did not exist, else a burn
      when it goes to the minter, else a transfer when the caller owns the
      source account, else a transfer on someone's behalf. */
  function TransferLabel(l: Ledger, env: Env, args: TransferFromArgs): string {
    if args.tokenId !in l.tokens then "sld1:mint"
    else if Same(args.to, Minter(env.canister)) then "sld1:burn"
    else if args.from.owner == env.caller then "sld1:transfer"
    else "sld2:transfer_from"
  }

  function TransferEvent(l: Ledger, env: Env, args: TransferFromArgs, fromTx: nat): Event {
    Event(env.caller, TransferLabel(l, env, args), env.time,
      WithMemoAndTime(
        map["token_id" := Nat(args.tokenId), "time" := Nat(env.time), "from_tx" := Nat(fromTx)],
        args.memo, args.createdAtTime))
  }

  /** `transfer_from`: moves the token to `to`, clears its approvals and
      records a mint, burn or transfer event. */
  function TransferFromStep(l: Ledger, env: Env, args: TransferFromArgs): (res: (Ledger, Result<nat, TransferFromError>))
    ensures TransferFromRejection(l, env, args).Some? ==>
      res.0 == l && res.1 == Err(TransferFromRejection(l, env, args).value)
    ensures TransferFromRejection(l, env, args).None? ==>
      var t := TokenFor(l, env, args.tokenId).value;
      && res.1 == Ok(l.txTotal)
      && res.0.tokens == l.tokens[args.tokenId := Token(args.to, l.txTotal, {})]
      && res.0 == WriteTxStep(l, TransferEvent(l, env, args, t.txId)).(tokens := res.0.tokens)
  {
    match TransferFromRejection(l, env, args)
    case Some(e) => (l, Err(e))
    case None =>
      var t := TokenFor(l, env, args.tokenId).value;
      var written := WriteTxStep(l, TransferEvent(l, env, args, t.txId));
      var txId := written.txTotal - 1;
      (written.(tokens := l.tokens[args.tokenId := t.(account := args.to, txId := txId, approved := {})]), Ok(txId))
  }

  /** The order of `transfer_from`'s checks. */
  lemma {:induction false} TransferFromCheckOrder(l: Ledger, env: Env, args: TransferFromArgs)
    ensures TransferFromStep(l, env, args).1 == Err(TransferFromError.NotFound) <==>
      args.tokenId !in l.tokens && env.caller !in l.custodians
    ensures TransferFromStep(l, env, args).1 == Err(TransferFromError.NotOwner) <==>
      TokenFor(l, env, args.tokenId).Some? &&
      !Same(TokenFor(l, env, args.tokenId).value.account, args.from) &&
      !(env.caller in l.custodians && Same(TokenFor(l, env, args.tokenId).value.account, Minter(env.canister)))
    ensures TransferFromStep(l, env, args).1 == Err(TransferFromError.GenericError(403, "Caller is not custodian")) <==>
      TokenFor(l, env, args.tokenId).Some? &&
      Same(TokenFor(l, env, args.tokenId).value.account, args.from) &&
      Same(args.to, Minter(env.canister)) && env.caller !in l.custodians
    ensures TransferFromStep(l, env, args).1 == Err(TransferFromError.NotApproved) <==>
      TokenFor(l, env, args.tokenId).Some? &&
      var t := TokenFor(l, env, args.tokenId).value;
      && (Same(t.account, args.from) || (env.caller in l.custodians && Same(t.account, Minter(env.canister))))
      && !(Same(args.to, Minter(env.canister)) && env.caller !in l.custodians)
      && args.from.owner != env.caller && env.caller !in t.approved
    ensures TransferFromStep(l, env, args).1 == Err(TransferFromError.NotSelf) <==>
      TokenFor(l, env, args.tokenId).Some? &&
      var t := TokenFor(l, env, args.tokenId).value;
      && (Same(t.account, args.from) || (env.caller in l.custodians && Same(t.account, Minter(env.canister))))
      && !(Same(args.to, Minter(env.canister)) && env.caller !in l.custodians)
      && (args.from.owner == env.caller || env.caller in t.approved)
      && Same(args.to, t.account)
    ensures TransferFromStep(l, env, args).1.Ok? <==> TransferFromRejection(l, env, args).None?
  {
  }

  /** Unless it is the caller's own source account, only principals in the
      token's approved set get past the approval check. */
  lemma {:induction false} TransferFromNeedsApproval(l: Ledger, env: Env, args: TransferFromArgs)
    requires TransferFromStep(l, env, args).1.Ok?
    ensures args.from.owner == env.caller || env.caller in TokenFor(l, env, args.tokenId).value.approved
    ensures !Same(args.to, TokenFor(l, env, args.tokenId).value.account)
  {
  }

  /** A custodian cannot mint by naming the minter account as `from`: a
      fresh token has no approvals and the caller is not the minter, so the
      call stops at the approval check. Minting goes through a `from` that
      the custodian owns. */
  lemma {:induction false} CustodianMintFromMinterNotApproved(l: Ledger, env: Env, args: TransferFromArgs)
    requires env.caller in l.custodians && env.caller != env.canister
    requires args.tokenId !in l.tokens && args.from == Minter(env.canister)
    ensures TransferFromStep(l, env, args) == (l, Err(TransferFromError.NotApproved))
  {
  }

  /** A custodian mints a new token by transferring it out of an account it
      owns; the event is labelled as a mint and refers back to transaction 0. */
  lemma {:induction false} CustodianMint(l: Ledger, env: Env, args: TransferFromArgs)
    requires env.caller in l.custodians && args.tokenId !in l.tokens
    requires args.from.owner == env.caller && !Same(args.to, Minter(env.canister))
    ensures TransferFromStep(l, env, args).1 == Ok(l.txTotal)
    ensures TransferFromStep(l, env, args).0.tokens[args.tokenId] == Token(args.to, l.txTotal, {})
    ensures TransferFromStep(l, env, args).0.currentBlock[|l.currentBlock|].operation == "sld1:mint"
    ensures TransferFromStep(l, env, args).0.currentBlock[|l.currentBlock|].details["from_tx"] == Nat(0)
  {
  }

  lemma {:induction false} TransferFromPreservesValid(l: Ledger, env: Env, args: TransferFromArgs)
    requires Valid(l)
    ensures Valid(TransferFromStep(l, env, args).0)
  {
    if TransferFromRejection(l, env, args).None? {
      var t := TokenFor(l, env, args.tokenId).value;
      WriteTxPreservesValid(l, TransferEvent(l, env, args, t.txId));
    }
  }

  // ---------------------------------------------------------------------
  // set_custodian

  function SetCustodianRejection(l: Ledger, env: Env, args: SetCustodianArgs): Option<SetCustodiansError> {
    if env.caller !in l.custodians then Some(SetCustodiansError.NotAllowed)
    else if args.approved && |l.custodians| == MAX_CUSTODIANS then
      Some(SetCustodiansError.MaxCustodians(MAX_CUSTODIANS))
    else None
  }

  function CustodianEvent(l: Ledger, env: Env, args: SetCustodianArgs): Event {
    Event(env.caller, "sld4:set_custodian", env.time,
      map["custodian" := Text(PrincipalText(args.custodian)), "approved" := Flag(args.approved),
          "from_tx" := Nat(l.custodiansTx)])
  }

  /** `set_custodian`: adds or removes one custodian; the new transaction id
      becomes `custodiansTx`. */
  function SetCustodianStep(l: Ledger, env: Env, args: SetCustodianArgs): (res: (Ledger, Result<nat, SetCustodiansError>))
    ensures SetCustodianRejection(l, env, args).Some? ==>
      res.0 == l && res.1 == Err(SetCustodianRejection(l, env, args).value)
    ensures SetCustodianRejection(l, env, args).None? ==>
      && res.1 == Ok(l.txTotal)
      && res.0.custodians == (if args.approved then l.custodians + {args.custodian} else l.custodians - {args.custodian})
      && res.0.custodiansTx == l.txTotal
      && res.0 == WriteTxStep(l, CustodianEvent(l, env, args)).(custodians := res.0.custodians, custodiansTx := l.txTotal)
  {
    match SetCustodianRejection(l, env, args)
    case Some(e) => (l, Err(e))
    case None =>
      var custodians := if args.approved then l.custodians + {args.custodian} else l.custodians - {args.custodian};
      var written := WriteTxStep(l.(custodians := custodians), CustodianEvent(l, env, args));
      (written.(custodiansTx := written.txTotal - 1), Ok(written.txTotal - 1))
  }

  /** Only custodians change custodians, and a full set refuses even a
      custodian already in it. */
  lemma {:induction false} SetCustodianCheckOrder(l: Ledger, env: Env, args: SetCustodianArgs)
    ensures SetCustodianStep(l, env, args).1 == Err(SetCustodiansError.NotAllowed) <==> env.caller !in l.custodians
    ensures SetCustodianStep(l, env, args).1 == Err(SetCustodiansError.MaxCustodians(MAX_CUSTODIANS)) <==>
      env.caller in l.custodians && args.approved && |l.custodians| == MAX_CUSTODIANS
    ensures SetCustodianStep(l, env, args).1.Ok? <==>
      env.caller in l.custodians && !(args.approved && |l.custodians| == MAX_CUSTODIANS)
  {
  }

  /** Removing a custodian twice leaves the same set as removing it once,
      and a custodian may remove itself, even as the last one. */
  lemma {:induction false} RemoveCustodianIdempotent(l: Ledger, env: Env, c: Principal)
    requires env.caller in l.custodians
    ensures var once := SetCustodianStep(l, env, SetCustodianArgs(c, false)).0;
      once.custodians == l.custodians - {c} &&
      (env.caller in once.custodians ==>
        SetCustodianStep(once, env, SetCustodianArgs(c, false)).0.custodians == once.custodians)
    ensures l.custodians == {env.caller} ==>
      SetCustodianStep(l, env, SetCustodianArgs(env.caller, false)).0.custodians == {}
  {
  }

  lemma {:induction false} SetCustodianPreservesValid(l: Ledger, env: Env, args: SetCustodianArgs)
    requires Valid(l)
    ensures Valid(SetCustodianStep(l, env, args).0)
  {
    if SetCustodianRejection(l, env, args).None? {
      var custodians := if args.approved then l.custodians + {args.custodian} else l.custodians - {args.custodian};
      assert |custodians| <= MAX_CUSTODIANS by {
        if args.approved {
          assert |l.custodians + {args.custodian}| <= |l.custodians| + 1;
        } else {
          assert l.custodians - {args.custodian} <= l.custodians;
        }
      }
    }
  }

  // ---------------------------------------------------------------------
  // init

  /** `init`: stores the name and symbol, makes `custodian` the only
      custodian and records that as the first transaction through
      `set_custodian`. When the installing caller is not that custodian the
      call to `set_custodian` fails and `unwrap` traps: None. */
  function InitStep(l: Ledger, env: Env, name: string, symbol: string, custodian: Principal): (r: Option<Ledger>)
    ensures r.Some? <==> env.caller == custodian
    ensures r.Some? ==>
      && r.value.name == name && r.value.symbol == symbol
      && r.value.custodians == {custodian}
      && r.value.txTotal == l.txTotal + 1
      && r.value.custodiansTx == l.txTotal
      && r.value.tokens == l.tokens
      && r.value.currentBlock == l.currentBlock + [CustodianEvent(l, env, SetCustodianArgs(custodian, true))]
  {
    var withCustodian := l.(name := name, symbol := symbol, custodians := {custodian});
    var (next, result) := SetCustodianStep(withCustodian, env, SetCustodianArgs(custodian, true));
    if result.Err? then None else Some(next)
  }

  /** Installing a fresh canister leaves one custodian, one transaction,
      and that transaction is the `sld4:set_custodian` event. */
  lemma {:induction false} InitFromDefault(env: Env, name: string, symbol: string)
    ensures var r := InitStep(DEFAULT, env, name, symbol, env.caller);
      && r.Some? && Valid(r.value)
      && r.value.custodians == {env.caller}
      && r.value.txTotal == 1 && r.value.custodiansTx == 0
      && |r.value.currentBlock| == 1
      && r.value.currentBlock[0].operation == "sld4:set_custodian"
      && r.value.currentBlock[0].details["from_tx"] == Nat(0)
  {
    var r := InitStep(DEFAULT, env, name, symbol, env.caller);
    assert r.value.currentBlock == [] + [CustodianEvent(DEFAULT, env, SetCustodianArgs(env.caller, true))];
  }

  // ---------------------------------------------------------------------
  // Queries

  /** `true` when the ids in `order` are exactly the keys of `tokens`, each
      once: the (unspecified) order a `HashMap` iterates in. */
  predicate Enumerates(order: seq<nat>, keys: set<nat>) {
    Distinct(order) &&
    (forall id :: id in order ==> id in keys) &&
    (forall id :: id in keys ==> id in order)
  }

  /** The ids in `order` whose token account is (`owned`) or is not
      (`!owned`) the same account as `a`, in that order. */
  function Select(order: seq<nat>, tokens: map<nat, Token>, a: Account, owned: bool): (r: seq<nat>)
    requires forall id :: id in order ==> id in tokens
    ensures forall id :: id in r <==> id in order && Same(tokens[id].account, a) == owned
    ensures |r| <= |order|
  {
    if order == [] then []
    else
      var rest := Select(order[1..], tokens, a, owned);
      if Same(tokens[order[0]].account, a) == owned then [order[0]] + rest else rest
  }

  /** The token ids whose account is, or is not, the same as `a`. */
  function Holding(tokens: map<nat, Token>, a: Account, owned: bool): set<nat> {
    set id | id in tokens && Same(tokens[id].account, a) == owned
  }

  /** Counting the matches of a duplicate-free enumeration counts the set of
      matching ids, whatever the order. */
  predicate Distinct(s: seq<nat>) {
    forall i, j :: 0 <= i < j < |s| ==> s[i] != s[j]
  }

  lemma {:induction false} DistinctTail(s: seq<nat>)
    requires Distinct(s) && s != []
    ensures Distinct(s[1..]) && s[0] !in s[1..]
  {
    var rest := s[1..];
    forall i, j | 0 <= i < j < |rest|
      ensures rest[i] != rest[j]
    {
      assert rest[i] == s[i + 1] && rest[j] == s[j + 1];
    }
    forall k | 0 <= k < |rest|
      ensures rest[k] != s[0]
    {
      assert rest[k] == s[k + 1];
    }
  }

  /** The set of elements of a list. */
  function Elements(s: seq<nat>): (r: set<nat>)
    ensures forall x :: x in r <==> x in s
  {
    if s == [] then {} else {s[0]} + Elements(s[1..])
  }

  /** A duplicate-free list has as many elements as the set of them. */
  lemma {:induction false} DistinctCard(s: seq<nat>)
    requires Distinct(s)
    ensures |Elements(s)| == |s|
  {
    if s != [] {
      DistinctTail(s);
      DistinctCard(s[1..]);
      assert s[0] !in Elements(s[1..]);
    }
  }

  lemma {:induction false} SelectDistinct(order: seq<nat>, tokens: map<nat, Token>, a: Account, owned: bool)
    requires forall id :: id in order ==> id in tokens
    requires Distinct(order)
    ensures Distinct(Select(order, tokens, a, owned))
  {
    if order != [] {
      var rest := order[1..];
      DistinctTail(order);
      SelectDistinct(rest, tokens, a, owned);
      var r := Select(rest, tokens, a, owned);
      if Same(tokens[order[0]].account, a) == owned {
        var x := [order[0]] + r;
        assert order[0] !in r;
        forall i, j | 0 <= i < j < |x|
          ensures x[i] != x[j]
        {
          assert x[j] == r[j - 1];
          if i > 0 {
            assert x[i] == r[i - 1];
          }
        }
      }
    }
  }

  /** Counting the matches of a duplicate-free list counts the set of ids
      that match, whatever the order. */
  lemma {:induction false} SelectCount(order: seq<nat>, tokens: map<nat, Token>, a: Account, owned: bool)
    requires forall id :: id in order ==> id in tokens
    requires Distinct(order)
    ensures |Select(order, tokens, a, owned)| ==
      |set id | id in order && Same(tokens[id].account, a) == owned|
  {
    var r := Select(order, tokens, a, owned);
    SelectDistinct(order, tokens, a, owned);
    DistinctCard(r);
    assert Elements(r) == set id | id in order && Same(tokens[id].account, a) == owned;
  }

  /** Counting over an enumeration of all keys counts `Holding`. */
  lemma {:induction false} SelectCountsHolding(order: seq<nat>, tokens: map<nat, Token>, a: Account, owned: bool)
    requires Enumerates(order, tokens.Keys)
    ensures |Select(order, tokens, a, owned)| == |Holding(tokens, a, owned)|
  {
    SelectCount(order, tokens, a, owned);
    assert (set id | id in order && Same(tokens[id].account, a) == owned) == Holding(tokens, a, owned);
  }

  /** `total_supply`: the number of tokens not held by the minter, counted
      along the map's iteration order. */
  function TotalSupply(l: Ledger, canister: Principal, order: seq<nat>): (n: nat)
    requires Enumerates(order, l.tokens.Keys)
    ensures n == |Holding(l.tokens, Minter(canister), false)|
  {
    SelectCountsHolding(order, l.tokens, Minter(canister), false);
    |Select(order, l.tokens, Minter(canister), false)|
  }

  /** `balance_of`: the number of tokens held by the same account. */
  function BalanceOf(l: Ledger, a: Account, order: seq<nat>): (n: nat)
    requires Enumerates(order, l.tokens.Keys)
    ensures n == |Holding(l.tokens, a, true)|
  {
    SelectCountsHolding(order, l.tokens, a, true);
    |Select(order, l.tokens, a, true)|
  }

  /** Every token is either in the supply or held by the minter. */
  lemma {:induction false} SupplyAndMinterBalance(l: Ledger, canister: Principal, order: seq<nat>)
    requires Enumerates(order, l.tokens.Keys)
    ensures TotalSupply(l, canister, order) + BalanceOf(l, Minter(canister), order) == |l.tokens|
  {
    var a := Minter(canister);
    var held, free := Holding(l.tokens, a, true), Holding(l.tokens, a, false);
    assert held + free == l.tokens.Keys;
    assert held * free == {};
    assert |held + free| == |held| + |free|;
  }

  /** A successful `transfer_from` moves exactly one token: the receiving
      account holds it afterwards, the account it came from no longer does,
      and every other account holds what it held. */
  lemma {:induction false} TransferMovesOneToken(l: Ledger, env: Env, args: TransferFromArgs, a: Account)
    requires TransferFromStep(l, env, args).1.Ok?
    ensures var after := TransferFromStep(l, env, args).0.tokens;
      var source := TokenFor(l, env, args.tokenId).value.account;
      Holding(after, a, true) ==
        if Same(a, args.to) then Holding(l.tokens, a, true) + {args.tokenId}
        else Holding(l.tokens, a, true) - {args.tokenId}
    ensures Same(a, TokenFor(l, env, args.tokenId).value.account) ==>
      args.tokenId !in Holding(TransferFromStep(l, env, args).0.tokens, a, true)
  {
    var after := TransferFromStep(l, env, args).0.tokens;
    var source := TokenFor(l, env, args.tokenId).value.account;
    assert !Same(args.to, source);
    if Same(a, source) {
      if Same(a, args.to) {
        SameIsEquivalence(a, source, args.to);
        SameIsEquivalence(source, a, args.to);
        assert false;
      }
    }
  }

  /** How many entries page `page` of a list of n entries holds: a full
      page, the rest of the list on the last page, and none past the end or
      for a page number that does not fit in a `usize`. */
  function PageLength(n: nat, page: nat): nat {
    if page >= USIZE_LIMIT || n <= page * TOKENS_PAGE then 0
    else if n - page * TOKENS_PAGE < TOKENS_PAGE then n - page * TOKENS_PAGE
    else TOKENS_PAGE
  }

  /** Page `page` of a list of ids: at most `TOKENS_PAGE` of them, after
      skipping the earlier pages; empty when the page number does not fit
      in a `usize` or lies past the end. */
  function Page(ids: seq<nat>, page: nat): (r: seq<nat>)
    ensures |r| == PageLength(|ids|, page) <= TOKENS_PAGE
    ensures forall k :: 0 <= k < |r| ==> page * TOKENS_PAGE + k < |ids| && r[k] == ids[page * TOKENS_PAGE + k]
    ensures forall id :: id in r ==> id in ids
  {
    if page >= USIZE_LIMIT || page * TOKENS_PAGE >= |ids| then []
    else
      var start := page * TOKENS_PAGE;
      ids[start..if start + TOKENS_PAGE <= |ids| then start + TOKENS_PAGE else |ids|]
  }

  /** The pages cut the list into consecutive pieces: the id at position i
      is entry i % TOKENS_PAGE of page i / TOKENS_PAGE. */
  lemma {:induction false} PagesCover(ids: seq<nat>, i: nat)
    requires i < |ids| && i / TOKENS_PAGE < USIZE_LIMIT
    ensures i % TOKENS_PAGE < |Page(ids, i / TOKENS_PAGE)|
    ensures Page(ids, i / TOKENS_PAGE)[i % TOKENS_PAGE] == ids[i]
  {
    assert (i / TOKENS_PAGE) * TOKENS_PAGE + i % TOKENS_PAGE == i;
  }

  /** Page of the tokens list as the code computes it: the skip count
      `page * 100_000` is a wasm32 `usize` and wraps around above 2^32. */
  function PageAsWritten(ids: seq<nat>, page: nat): (r: seq<nat>)
    ensures |r| <= TOKENS_PAGE
    ensures r == [] <==> page >= USIZE_LIMIT || (page * TOKENS_PAGE) % USIZE_LIMIT >= |ids|
    ensures forall k :: 0 <= k < |r| ==>
      (page * TOKENS_PAGE) % USIZE_LIMIT + k < |ids| && r[k] == ids[(page * TOKENS_PAGE) % USIZE_LIMIT + k]
  {
    if page >= USIZE_LIMIT then []
    else
      var start := (page * TOKENS_PAGE) % USIZE_LIMIT;
      if start >= |ids| then []
      else ids[start..if start + TOKENS_PAGE <= |ids| then start + TOKENS_PAGE else |ids|]
  }

  /** Page 42950 starts past 2^32 ids, so it should be empty; the wrapped
      skip count makes it start at id 32704 instead. */
  lemma {:induction false} PageWrapsAround(ids: seq<nat>)
    requires 32704 < |ids| < USIZE_LIMIT
    ensures Page(ids, 42950) == []
    ensures PageAsWritten(ids, 42950) != [] && PageAsWritten(ids, 42950)[0] == ids[32704]
  {
    assert 42950 * TOKENS_PAGE == USIZE_LIMIT + 32704;
    assert (42950 * TOKENS_PAGE) % USIZE_LIMIT == 32704;
  }

  /** The two agree below the wrap-around. */
  lemma {:induction false} PageAsWrittenAgreesBelowWrap(ids: seq<nat>, page: nat)
    requires page * TOKENS_PAGE < USIZE_LIMIT
    ensures PageAsWritten(ids, page) == Page(ids, page)
  {
  }

  /** `tokens`: a page of the ids of tokens not held by the minter. */
  function Tokens(l: Ledger, canister: Principal, order: seq<nat>, page: nat): (r: seq<nat>)
    requires Enumerates(order, l.tokens.Keys)
    ensures var free := Select(order, l.tokens, Minter(canister), false);
      && |r| == PageLength(|free|, page) <= TOKENS_PAGE
      && forall k :: 0 <= k < |r| ==> r[k] == free[page * TOKENS_PAGE + k]
    ensures forall id :: id in r ==> id in Holding(l.tokens, Minter(canister), false)
  {
    Page(Select(order, l.tokens, Minter(canister), false), page)
  }

  /** `tokens_of`: a page of the ids of tokens held by the same account. */
  function TokensOf(l: Ledger, a: Account, order: seq<nat>, page: nat): (r: seq<nat>)
    requires Enumerates(order, l.tokens.Keys)
    ensures var held := Select(order, l.tokens, a, true);
      && |r| == PageLength(|held|, page) <= TOKENS_PAGE
      && forall k :: 0 <= k < |r| ==> r[k] == held[page * TOKENS_PAGE + k]
    ensures forall id :: id in r ==> id in Holding(l.tokens, a, true)
  {
    Page(Select(order, l.tokens, a, true), page)
  }

  /** `owner_of`. */
  function OwnerOf(l: Ledger, id: nat): (r: Option<Account>)
    ensures r.Some? <==> id in l.tokens
    ensures r.Some? ==> r.value == l.tokens[id].account
  {
    if id in l.tokens then Some(l.tokens[id].account) else None
  }

  /** `get_approved`: empty for an unknown token. */
  function GetApproved(l: Ledger, id: nat): (r: set<Principal>)
    ensures id !in l.tokens ==> r == {}
    ensures id in l.tokens ==> r == l.tokens[id].approved
  {
    if id in l.tokens then l.tokens[id].approved else {}
  }

  /** `read_tx`: the event with that index in the current block, if the
      index fits in a `usize` and the block has it. */
  function ReadTx(l: Ledger, txId: nat): (r: Option<EventOrBucket>)
    ensures r.Some? <==> txId < USIZE_LIMIT && txId < |l.currentBlock|
    ensures r.Some? ==> r.value == EventEntry(l.currentBlock[txId])
  {
    if txId >= USIZE_LIMIT then None
    else if txId < |l.currentBlock| then Some(EventEntry(l.currentBlock[txId]))
    else None
  }

  /** `read_block`: the current block for every id that fits in a `usize`. */
  function ReadBlock(l: Ledger, blockId: nat): (r: Option<BlockOrBucket>)
    ensures r.Some? <==> blockId < USIZE_LIMIT
    ensures r.Some? ==> r.value == Block(l.currentBlock)
  {
    if blockId < USIZE_LIMIT then Some(Block(l.currentBlock)) else None
  }

  /** The id a successful mutator returns names the event it wrote, and the
      events before it are untouched. */
  lemma {:induction false} ReadBackTransfer(l: Ledger, env: Env, args: TransferFromArgs)
    requires Valid(l) && l.txTotal < USIZE_LIMIT
    requires TransferFromStep(l, env, args).1.Ok?
    ensures var (next, r) := TransferFromStep(l, env, args);
      && ReadTx(next, r.value) == Some(EventEntry(TransferEvent(l, env, args, TokenFor(l, env, args.tokenId).value.txId)))
      && forall i :: 0 <= i < l.txTotal ==> ReadTx(next, i) == ReadTx(l, i)
  {
    var next := TransferFromStep(l, env, args).0;
    forall i | 0 <= i < l.txTotal
      ensures ReadTx(next, i) == ReadTx(l, i)
    {
      assert next.currentBlock[i] == next.currentBlock[..|l.currentBlock|][i];
    }
  }

  lemma {:induction false} ReadBackApprove(l: Ledger, env: Env, args: ApproveArgs)
    requires Valid(l) && l.txTotal < USIZE_LIMIT
    requires ApproveRejection(l, env, args).None?
    ensures var (next, r) := ApproveStep(l, env, args);
      ReadTx(next, r.value) == Some(EventEntry(ApproveEvent(env, args, l.tokens[args.tokenId].txId)))
  {
  }

  lemma {:induction false} ReadBackSetCustodian(l: Ledger, env: Env, args: SetCustodianArgs)
    requires Valid(l) && l.txTotal < USIZE_LIMIT
    requires SetCustodianStep(l, env, args).1.Ok?
    ensures var (next, r) := SetCustodianStep(l, env, args);
      ReadTx(next, r.value) == Some(EventEntry(CustodianEvent(l, env, args)))
  {
  }

  // ---------------------------------------------------------------------
  // The mutable state

  /** `State`, updated in place by the canister's update calls. */
  class State {
    var name: string
    var symbol: string
    var tokens: map<nat, Token>
    var currentBlock: seq<Event>
    var txTotal: nat
    var custodiansTx: nat
    var custodians: set<Principal>

    /** The fields as a `Ledger` value. */
    function Value(): Ledger
      reads this
    {
      Ledger(name, symbol, tokens, currentBlock, txTotal, custodiansTx, custodians)
    }

    constructor ()
      ensures Value() == DEFAULT
    {
      name, symbol, tokens, currentBlock := "", "", map[], [];
      txTotal, custodiansTx, custodians := 0, 0, {};
    }

    method WriteTx(event: Event)
      modifies this
      ensures Value() == WriteTxStep(old(Value()), event)
    {
      currentBlock := currentBlock + [event];
      txTotal := txTotal + 1;
    }

    method Approve(env: Env, args: ApproveArgs) returns (r: Result<nat, ApproveError>)
      modifies this
      ensures (Value(), r) == ApproveStep(old(Value()), env, args)
    {
      ghost var before := Value();
      if args.spender == env.caller {
        assert ApproveRejection(before, env, args) == Some(ApproveError.NotSelf);
        return Err(ApproveError.NotSelf);
      }
      if args.tokenId !in tokens {
        assert ApproveRejection(before, env, args) == Some(ApproveError.NotFound);
        return Err(ApproveError.NotFound);
      }
      var token := tokens[args.tokenId];
      var from := NewAccount(env.caller, args.fromSubaccount);
      if !Same(from, token.account) {
        assert ApproveRejection(before, env, args) == Some(ApproveError.NotOwner);
        return Err(ApproveError.NotOwner);
      }
      if args.approved {
        if |token.approved| == MAX_APPROVALS {
          assert ApproveRejection(before, env, args) == Some(ApproveError.MaxApprovals(MAX_APPROVALS));
          return Err(ApproveError.MaxApprovals(MAX_APPROVALS));
        }
        token := token.(approved := token.approved + {args.spender});
      } else {
        token := token.(approved := token.approved - {args.spender});
      }
      assert ApproveRejection(before, env, args).None?;
      ghost var written := WriteTxStep(before, ApproveEvent(env, args, token.txId));
      WriteTx(ApproveEvent(env, args, token.txId));
      assert Value() == written;
      var txId := txTotal - 1;
      token := token.(txId := txId);
      tokens := tokens[args.tokenId := token];
      r := Ok(txId);
      assert Value() == written.(tokens := tokens);
    }

    method TransferFrom(env: Env, args: TransferFromArgs) returns (r: Result<nat, TransferFromError>)
      modifies this
      ensures (Value(), r) == TransferFromStep(old(Value()), env, args)
    {
      var minter := Minter(env.canister);
      var callerIsCustodian := env.caller in custodians;
      var transferIsBurn := Same(args.to, minter);
      var token: Token;
      if args.tokenId in tokens {
        token := tokens[args.tokenId];
      } else {
        if !callerIsCustodian {
          return Err(TransferFromError.NotFound);
        }
        token := Token(minter, 0, {});
      }
      var callerIsFrom := args.from.owner == env.caller;
      var fromIsOwner := Same(token.account, args.from) || (callerIsCustodian && Same(token.account, minter));
      var callerIsApproved := env.caller in token.approved;
      if !fromIsOwner {
        return Err(TransferFromError.NotOwner);
      }
      if transferIsBurn && !callerIsCustodian {
        return Err(TransferFromError.GenericError(403, "Caller is not custodian"));
      }
      if !callerIsFrom && !callerIsApproved {
        return Err(TransferFromError.NotApproved);
      }
      if Same(args.to, token.account) {
        return Err(TransferFromError.NotSelf);
      }
      var event := TransferEvent(Value(), env, args, token.txId);
      token := token.(account := args.to);
      WriteTx(event);
      token := token.(txId := txTotal - 1, approved := {});
      tokens := tokens[args.tokenId := token];
      r := Ok(txTotal - 1);
    }

    method SetCustodian(env: Env, args: SetCustodianArgs) returns (r: Result<nat, SetCustodiansError>)
      modifies this
      ensures (Value(), r) == SetCustodianStep(old(Value()), env, args)
    {
      if env.caller !in custodians {
        return Err(SetCustodiansError.NotAllowed);
      }
      var event := CustodianEvent(Value(), env, args);
      if args.approved {
        if |custodians| == MAX_CUSTODIANS {
          return Err(SetCustodiansError.MaxCustodians(MAX_CUSTODIANS));
        }
        custodians := custodians + {args.custodian};
      } else {
        custodians := custodians - {args.custodian};
      }
      WriteTx(event);
      custodiansTx := txTotal - 1;
      r := Ok(txTotal - 1);
    }

    /** `init`. A trap undoes everything the call changed, so when
        `set_custodian` fails the fields are put back and `trapped` is
        true. */
    method Init(env: Env, newName: string, newSymbol: string, custodian: Principal) returns (trapped: bool)
      modifies this
      ensures trapped <==> InitStep(old(Value()), env, newName, newSymbol, custodian).None?
      ensures trapped ==> Value() == old(Value())
      ensures !trapped ==> Value() == InitStep(old(Value()), env, newName, newSymbol, custodian).value
    {
      var saved := Value();
      name := newName;
      symbol := newSymbol;
      custodians := {custodian};
      var result := SetCustodian(env, SetCustodianArgs(custodian, true));
      trapped := result.Err?;
      if trapped {
        name, symbol, tokens, currentBlock := saved.name, saved.symbol, saved.tokens, saved.currentBlock;
        txTotal, custodiansTx, custodians := saved.txTotal, saved.custodiansTx, saved.custodians;
      }
    }
  }
}
