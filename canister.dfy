/** The canister interface of rust/src/lib.rs: the update calls normalise
    their accounts with `Account::new` and hand them to the state machine,
    `sld1_transfer` maps its errors through `to_transfer_error`, and the
    queries read the state. Every entry point is a function of the ledger
    and the call's `Env`. */
module Canister {
  import opened Bytes
  import opened Types
  import opened LedgerState

  const REPOSITORY_URL: string := "https://github.com/slide-computer/slide-token"

  /** What `sld3_block_size` reports while block paging is not written. */
  const BLOCK_SIZE: nat := 0

  /** The transfer-from arguments `sld1_transfer` builds: the caller's own
      account as the source, the destination in normal form. */
  function TransferRequest(caller: Principal, args: TransferArgs): (r: TransferFromArgs)
    ensures r.from == NewAccount(caller, args.fromSubaccount) && r.from.owner == caller
    ensures r.to == NewAccount(args.to.owner, args.to.subaccount) && Same(r.to, args.to)
    ensures r.tokenId == args.tokenId && r.memo == args.memo && r.createdAtTime == args.createdAtTime
  {
    TransferFromArgs(NewAccount(caller, args.fromSubaccount), NewAccount(args.to.owner, args.to.subaccount),
      args.tokenId, args.memo, args.createdAtTime)
  }

  /** `sld1_transfer`. */
  function Sld1Transfer(l: Ledger, env: Env, args: TransferArgs): (res: (Ledger, Result<nat, TransferError>))
    ensures var (next, r) := TransferFromStep(l, env, TransferRequest(env.caller, args));
      res.0 == next && (r.Ok? ==> res.1 == Ok(r.value)) && (r.Err? ==> res.1 == Err(ToTransferError(r.error)))
  {
    var (next, r) := TransferFromStep(l, env, TransferRequest(env.caller, args));
    (next, match r case Ok(id) => Ok(id) case Err(e) => Err(ToTransferError(e)))
  }

  /** The arguments `sld2_transfer_from` passes on: both accounts in normal form. */
  function NormalisedRequest(args: TransferFromArgs): (r: TransferFromArgs)
    ensures r.from == NewAccount(args.from.owner, args.from.subaccount) && Same(r.from, args.from)
    ensures r.to == NewAccount(args.to.owner, args.to.subaccount) && Same(r.to, args.to)
    ensures r.tokenId == args.tokenId && r.memo == args.memo && r.createdAtTime == args.createdAtTime
  {
    args.(from := NewAccount(args.from.owner, args.from.subaccount), to := NewAccount(args.to.owner, args.to.subaccount))
  }

  /** `sld2_transfer_from`. */
  function Sld2TransferFrom(l: Ledger, env: Env, args: TransferFromArgs): (Ledger, Result<nat, TransferFromError>) {
    TransferFromStep(l, env, NormalisedRequest(args))
  }

  /** `sld2_approve`, forwarded unchanged. */
  function Sld2Approve(l: Ledger, env: Env, args: ApproveArgs): (Ledger, Result<nat, ApproveError>) {
    ApproveStep(l, env, args)
  }

  /** `sld4_set_custodian`, forwarded unchanged. */
  function Sld4SetCustodian(l: Ledger, env: Env, args: SetCustodianArgs): (Ledger, Result<nat, SetCustodiansError>) {
    SetCustodianStep(l, env, args)
  }

  /** `sld3_get_tx` and `sld3_get_block`, forwarded unchanged. */
  function Sld3GetTx(l: Ledger, txId: nat): Option<EventOrBucket> {
    ReadTx(l, txId)
  }

  function Sld3GetBlock(l: Ledger, blockId: nat): Option<BlockOrBucket> {
    ReadBlock(l, blockId)
  }

  /** `sld1_supported_standards`: SLD-1 to SLD-4, all pointing at the
      repository. */
  function Sld1SupportedStandards(): (r: seq<SupportedStandard>)
    ensures |r| == 4
    ensures forall i :: 0 <= i < 4 ==> r[i].name == "SLD-" + [('1' as int + i) as char]
    ensures forall i :: 0 <= i < 4 ==> r[i].url == REPOSITORY_URL
  {
    [SupportedStandard("SLD-1", REPOSITORY_URL), SupportedStandard("SLD-2", REPOSITORY_URL),
     SupportedStandard("SLD-3", REPOSITORY_URL), SupportedStandard("SLD-4", REPOSITORY_URL)]
  }

  // ---------------------------------------------------------------------
  // Properties of the entry points

  /** A holder who is not a custodian cannot burn: sending a token it owns
      to the minter gives a 403 and changes nothing. */
  lemma {:induction false} HolderBurnIsForbidden(l: Ledger, env: Env, args: TransferArgs)
    requires env.caller !in l.custodians
    requires args.tokenId in l.tokens
    requires Same(l.tokens[args.tokenId].account, NewAccount(env.caller, args.fromSubaccount))
    requires Same(args.to, Minter(env.canister))
    ensures Sld1Transfer(l, env, args) == (l, Err(TransferError.GenericError(403, "Caller is not custodian")))
  {
    var req := TransferRequest(env.caller, args);
    SameIsEquivalence(l.tokens[args.tokenId].account, req.from, req.from);
    SameIsEquivalence(req.to, args.to, Minter(env.canister));
    assert Same(req.to, Minter(env.canister)) by {
      SameIffSameNormalForm(req.to, args.to);
      SameIffSameNormalForm(args.to, Minter(env.canister));
      SameIffSameNormalForm(req.to, Minter(env.canister));
    }
  }

  /** The caller always owns the source account of `sld1_transfer`, so it
      never fails the approval check. */
  lemma {:induction false} Sld1TransferNeverUnapproved(l: Ledger, env: Env, args: TransferArgs)
    ensures Sld1Transfer(l, env, args).1 != Err(TransferError.GenericError(403, "Caller is not approved"))
  {
    var req := TransferRequest(env.caller, args);
    assert TransferFromRejection(l, env, req) != Some(TransferFromError.NotApproved);
    var r := TransferFromStep(l, env, req).1;
    if r.Err? {
      assert r.error != TransferFromError.NotApproved;
      assert !r.error.GenericError? || r.error.message != "Caller is not approved";
    }
  }

  /** An all-zero subaccount is the same as none, on either side of a
      transfer. */
  lemma {:induction false} ZeroSubaccountIsDefault(l: Ledger, env: Env, args: TransferArgs)
    ensures Sld1Transfer(l, env, args.(fromSubaccount := Some(DEFAULT_SUBACCOUNT))) ==
      Sld1Transfer(l, env, args.(fromSubaccount := None))
    ensures Sld1Transfer(l, env, args.(to := Account(args.to.owner, Some(DEFAULT_SUBACCOUNT)))) ==
      Sld1Transfer(l, env, args.(to := Account(args.to.owner, None)))
  {
    assert TransferRequest(env.caller, args.(fromSubaccount := Some(DEFAULT_SUBACCOUNT))) ==
      TransferRequest(env.caller, args.(fromSubaccount := None));
    assert TransferRequest(env.caller, args.(to := Account(args.to.owner, Some(DEFAULT_SUBACCOUNT)))) ==
      TransferRequest(env.caller, args.(to := Account(args.to.owner, None)));
  }

  /** Every stored account is in `Account::new` normal form. */
  predicate Canonical(l: Ledger) {
    forall id :: id in l.tokens ==> l.tokens[id].account.subaccount != Some(DEFAULT_SUBACCOUNT)
  }

  /** A transfer to an account in normal form keeps the ledger canonical. */
  lemma {:induction false} TransferKeepsCanonical(l: Ledger, env: Env, args: TransferFromArgs)
    requires Canonical(l) && args.to.subaccount != Some(DEFAULT_SUBACCOUNT)
    ensures Canonical(TransferFromStep(l, env, args).0)
  {
    var n := TransferFromStep(l, env, args).0;
    if TransferFromRejection(l, env, args).None? {
      assert n.tokens == l.tokens[args.tokenId := Token(args.to, l.txTotal, {})];
      forall id | id in n.tokens
        ensures n.tokens[id].account.subaccount != Some(DEFAULT_SUBACCOUNT)
      {
        if id != args.tokenId {
          assert n.tokens[id] == l.tokens[id];
        }
      }
    }
  }

  /** An approval keeps every token's account. */
  lemma {:induction false} ApproveKeepsCanonical(l: Ledger, env: Env, args: ApproveArgs)
    requires Canonical(l)
    ensures Canonical(ApproveStep(l, env, args).0)
  {
    var n := ApproveStep(l, env, args).0;
    if ApproveRejection(l, env, args).None? {
      forall id | id in n.tokens
        ensures n.tokens[id].account.subaccount != Some(DEFAULT_SUBACCOUNT)
      {
        assert id in l.tokens;
        assert n.tokens[id].account == l.tokens[id].account;
      }
    }
  }

  /** The transfer entry points only ever store normalised accounts, and
      approvals and custodian changes keep the accounts they find. */
  lemma {:induction false} EntryPointsKeepCanonical(l: Ledger, env: Env, t: TransferArgs, tf: TransferFromArgs, a: ApproveArgs, c: SetCustodianArgs)
    requires Canonical(l)
    ensures Canonical(Sld1Transfer(l, env, t).0)
    ensures Canonical(Sld2TransferFrom(l, env, tf).0)
    ensures Canonical(Sld2Approve(l, env, a).0)
    ensures Canonical(Sld4SetCustodian(l, env, c).0)
  {
    TransferKeepsCanonical(l, env, TransferRequest(env.caller, t));
    TransferKeepsCanonical(l, env, NormalisedRequest(tf));
    ApproveKeepsCanonical(l, env, a);
    assert Sld4SetCustodian(l, env, c).0.tokens == l.tokens;
  }

  /** A custodian cannot burn a token someone else holds without an
      approval: through `sld2_transfer_from` the call stops as `NotOwner`
      (a `from` that does not hold it) or `NotApproved` (the holder's own
      account as `from`), and nothing changes. */
  lemma {:induction false} CustodianCannotBurnHeldToken(l: Ledger, env: Env, args: TransferFromArgs)
    requires env.caller in l.custodians && args.tokenId in l.tokens
    requires l.tokens[args.tokenId].account.owner != env.caller
    requires env.caller !in l.tokens[args.tokenId].approved
    requires !Same(l.tokens[args.tokenId].account, Minter(env.canister))
    ensures Sld2TransferFrom(l, env, args).0 == l
    ensures Sld2TransferFrom(l, env, args).1 == Err(TransferFromError.NotOwner) <==>
      !Same(l.tokens[args.tokenId].account, args.from)
    ensures Sld2TransferFrom(l, env, args).1 == Err(TransferFromError.NotApproved) <==>
      Same(l.tokens[args.tokenId].account, args.from)
  {
    var req := NormalisedRequest(args);
    var t := l.tokens[args.tokenId];
    assert Same(t.account, req.from) <==> Same(t.account, args.from) by {
      SameIsEquivalence(t.account, req.from, args.from);
      SameIsEquivalence(t.account, args.from, req.from);
    }
    TransferFromCheckOrder(l, env, req);
  }

  /** A custodian mints by transferring a new token id out of its own
      account; the holder cannot burn it, and a later transfer back to the
      minter by the custodian fails because the custodian does not hold it. */
  lemma {:induction false} MintThenBurnScenario(custodian: Principal, holder: Principal, canister: Principal, time: u64, name: string, symbol: string)
    requires custodian != holder && custodian != canister && holder != canister
    ensures var installed := InitStep(DEFAULT, Env(custodian, time, canister), name, symbol, custodian);
      installed.Some? &&
      var mint := Sld1Transfer(installed.value, Env(custodian, time, canister),
        TransferArgs(None, Account(holder, None), 7, None, None));
      && mint.1 == Ok(1)
      && OwnerOf(mint.0, 7) == Some(Account(holder, None))
      && mint.0.currentBlock[1].operation == "sld1:mint"
      && Sld1Transfer(mint.0, Env(holder, time, canister),
           TransferArgs(None, Minter(canister), 7, None, None)) ==
         (mint.0, Err(TransferError.GenericError(403, "Caller is not custodian")))
      && Sld1Transfer(mint.0, Env(custodian, time, canister),
           TransferArgs(None, Minter(canister), 7, None, None)).1 == Err(TransferError.NotOwner)
  {
    var env := Env(custodian, time, canister);
    var installed := InitStep(DEFAULT, env, name, symbol, custodian);
    assert installed.Some?;
    var l := installed.value;
    assert l.txTotal == 1 && l.custodians == {custodian} && l.tokens == map[];
    var args := TransferArgs(None, Account(holder, None), 7, None, None);
    CustodianMint(l, env, TransferRequest(custodian, args));
    var mint := Sld1Transfer(l, env, args);
    assert mint.0.tokens[7] == Token(Account(holder, None), 1, {});
    assert |l.currentBlock| == 1;
    HolderBurnIsForbidden(mint.0, Env(holder, time, canister), TransferArgs(None, Minter(canister), 7, None, None));
  }
}
