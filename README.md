# slide-token in Dafny

A model of the slide-token NFT ledgers for the Internet Computer, with
proofs of their properties. The repository holds three ledgers, and the
model covers all three.

- **The SLD ledger (`rust/`).** Tokens live in a map from token id to owner
  account, a last transaction id and a set of approved spenders. Every
  update appends one event to the current block and bumps the transaction
  total.
  - `types.dfy` models the records, `Account::new` and the account-equality
    rule, the ICRC-1 textual encoding, the mint-index id layout, the
    history-entry decoder and the error mapping.
  - `stable.dfy` models the stable-memory writer and reader over a byte
    array that grows in 64 KiB pages.
  - `state.dfy` models the state machine. Each update call is a pure step
    function on a `Ledger` value, with its error order and effects proved.
    A `State` class then performs the same update field by field and is
    proved equal to the step function.
  - `canister.dfy` models the canister entry points that normalise
    accounts and map errors.
- **The legacy ledger (`src/lib.rs`)** is `legacy.dfy`: a `State` class over
  a token vector, per-token approval vectors, custodians and extensions,
  with the exact error strings.
- **The ERC-721-style canister (`src/nft721/`)** is `nft721.dfy`: single
  approvals, operator lists, controllers, windowed listing, the tail burn
  and the `inspect_message` acceptance rule for `transfer_from`.
- **Support modules.**
  - `bytes.dfy`: fixed-width integers, big- and little-endian codecs,
    `Option` and `Result`.
  - `crc32.dfy`: CRC-32 (IEEE, reflected polynomial 0xEDB88320).
  - `base32.dfy`: lowercase unpadded base32 (section 6 of RFC 4648) with
    a strict decoder.
  - `vectors.dfy`: `Vec::remove`, `iter().position` and duplicate-free
    lists.

**Platform assumptions.**
- `caller()`, `time()` and `id()` are parameters: an `Env` record, or plain
  arguments in the legacy ledgers.
- `usize` has 32 bits, as on wasm32. Arithmetic wraps around, as in a
  release build. The four paging queries are the exception: they use the
  corrected arithmetic, and the wrapping versions stand beside them (see
  "## Findings").
- An IC trap rolls the state back, so a call that traps leaves the state
  unchanged (`LedgerState.State.Init`).
- `HashMap` iteration order has no fixed meaning. The queries that iterate
  the token map take the order as a parameter, `order`: any list that
  enumerates the keys once each. Their contracts do not depend on it.

**Behaviour of the code worth knowing.**
- Minting from the minter account. A custodian calling `transfer_from` with
  `from` set to the minter account gets `NotApproved`, because the caller is
  not the owner of `from` and a new token has no approvals
  (`LedgerState.CustodianMintFromMinterNotApproved`). A mint goes through
  when the custodian names its own account as `from`, which is what
  `sld1_transfer` does (`LedgerState.CustodianMint`).
- Burning another holder's token. A custodian cannot burn a token someone
  else holds. Through `sld1_transfer` the call fails with `NotOwner`
  (`Canister.MintThenBurnScenario`). Through `sld2_transfer_from` it fails
  with `NotOwner` or `NotApproved`, and nothing changes
  (`Canister.CustodianCannotBurnHeldToken`).

## Model

| member | source | states |
|---|---|---|
| Types.NewAccount | rust/src/types.rs:199-204 | the owner is kept; an all-zero subaccount is dropped; any other subaccount is kept; the result is the same account as the input under account equality |
| Types.Same | rust/src/types.rs:270-274 | accounts are equal when the owners match and the subaccounts match, a missing subaccount counting as the all-zero one; `Types.SameIsEquivalence` and `Types.SameIffSameNormalForm` state what this means |
| Types.SameIsEquivalence | rust/src/types.rs:270-274 | account equality is reflexive, symmetric and transitive, and no subaccount equals the all-zero one |
| Types.SameIffSameNormalForm | rust/src/types.rs:199-204 | two accounts are equal exactly when `Account::new` maps them to the same value |
| Types.LeadingZeros | rust/src/types.rs:233-240 | the count of leading zero bytes the subaccount loop skips: all bytes before it are zero and the byte at it is not |
| Types.SignificantBytes | rust/src/types.rs:234-240 | the `for` loop with its `count` collects exactly the subaccount without its leading zeros, and `count` is their number |
| Types.SubaccountBytes | rust/src/types.rs:233-244 | the bytes appended for a subaccount: nothing for the default one, else the significant bytes, their count and 127 |
| Types.WriteDashed | rust/src/types.rs:258-264 | the `while` loop writes the text in groups of five separated by dashes |
| Types.Display | rust/src/types.rs:227-265 | `Display for Account` produces the dashed base32 of the big-endian CRC-32 followed by the payload |
| Types.PayloadLayout | rust/src/types.rs:228-244 | the checksummed payload is the owner alone for the default subaccount, else owner, significant bytes, their count and 127 |
| Types.DashedLayout | rust/src/types.rs:258-264 | the dashed text has a dash exactly at every sixth position, and the base32 characters in between in order |
| Types.RemoveDashesOfDashed | rust/src/types.rs:258-264 | removing the dashes gives back the undashed text |
| Types.TextLayout | rust/src/types.rs:227-265 | without its dashes the account text is the base32 of the checksummed payload; it neither starts nor ends with a dash |
| Types.DefaultAccountText | rust/src/types.rs:233-244 | an account with no or an all-zero subaccount has the same ICRC-1 text as its owner principal |
| Types.PayloadRoundTrip | rust/src/types.rs:228-244 | the payload splits back into the account in normal form when the owner's last byte is not 127 |
| Types.TextRoundTrip | rust/src/types.rs:227-265 | parsing the ICRC-1 text gives back the account in normal form |
| Types.TextInjective | rust/src/types.rs:227-274 | two accounts with the same text are the same account |
| Base32.Encode | rust/src/types.rs:254-255 | lowercase unpadded base32 output has the right length, only alphabet characters and no dash |
| Base32.EncodeRoundTrip | rust/src/types.rs:254-255 | the strict base32 decoder inverts the encoder |
| Bytes.FromLeBytes | rust/src/types.rs:313-320 | reading back the little-endian bytes of a number gives the number |
| Bytes.FromBeBytes | rust/src/types.rs:251 | reading back the big-endian bytes of a number gives the number |
| Types.ToMintIndex | rust/src/types.rs:292-297 | the big-endian u32 in the four bytes before the last; `Types.MintIndexRoundTrip` shows it inverts `from_mint_index` |
| Types.FromMintIndex | rust/src/types.rs:283-290 | a token id built from a mint index is nine bytes longer than the canister id |
| Types.MintIndexLayout | rust/src/types.rs:283-290 | the id is the tag `\x0Asld`, the canister id, the big-endian index and the marker byte 1 |
| Types.MintIndexRoundTrip | rust/src/types.rs:283-297 | `to_mint_index` recovers the index `from_mint_index` was given |
| Types.FromMintIndexInjective | rust/src/types.rs:283-297 | different mint indices give different token ids |
| Types.FromStableBytes | rust/src/types.rs:310-322 | a decoded entry has a 32-bit token id and offset, an owner of the length byte's size and a normalised subaccount |
| Types.EntryLayoutRoundTrip | rust/src/types.rs:310-322 | decoding the 78-byte layout of an entry gives the entry with its account normalised |
| Types.FromStableBytesIgnoresPadding | rust/src/types.rs:310-322 | bytes past the owner inside the owner field do not affect the decoded entry |
| Types.ToTransferError | rust/src/types.rs:113-126 | every transfer-from error maps to the transfer error of the same name, except NotApproved, which becomes generic error 403 "Caller is not approved" |
| Types.ToTransferErrorInverts | rust/src/types.rs:113-126 | every transfer error is the image of the transfer-from error of the same name |
| Stable.CapacityBytes | rust/src/stable.rs:40 | `(capacity as usize) << 16` is the page count times 65536, wrapped to 32 bits, so a full 4 GiB memory gives 0 |
| Stable.GrowthPages | rust/src/stable.rs:41 | the pages `write` asks for cover the end of the write with less than one page to spare |
| Stable.ReadLength | rust/src/stable.rs:84-93 | a read succeeds exactly when it fits or starts inside the capacity; it is truncated to the capacity; otherwise OutOfBounds |
| Stable.SplicedLayout | rust/src/stable.rs:44 | a stable write replaces exactly the written range and nothing else |
| Stable.GrownLayout | rust/src/stable.rs:30 | growing appends zeroed pages and keeps the old contents |
| Stable.StableMemory.Grow | rust/src/stable.rs:30 | the host grows by whole zeroed pages and returns the old size, or refuses with OutOfMemory and changes nothing |
| Stable.StableWriter.Grow | rust/src/stable.rs:29-33 | on success the capacity becomes the old size plus the added pages; a refusal changes nothing |
| Stable.StableWriter.Write | rust/src/stable.rs:39-47 | a write that fits is spliced in; one that does not first grows, and on a refused growth changes nothing; on success the offset advances by the length |
| Stable.StableWriter.IoWrite | rust/src/stable.rs:50-54 | the `io::Write` adapter does what `write` does in all three cases (fits, growth refused, grown), with memory contents, capacity and offset stated, and wraps the error as an OutOfMemory I/O error |
| Stable.StableReader.Read | rust/src/stable.rs:83-97 | the read length is as `ReadLength` says; that many bytes are copied from the offset, the rest of the buffer is untouched and the offset advances |
| Stable.StableReader.IoRead | rust/src/stable.rs:100-104 | the `io::Read` adapter never fails: an out-of-bounds read gives 0 and changes nothing; otherwise the bytes copied, the untouched rest of the buffer, the capacity and the offset are those of `read` |
| LedgerState.DefaultIsValid | rust/src/state.rs:21-33 | the empty state satisfies the ledger invariant |
| LedgerState.WriteTxStep | rust/src/state.rs:279-281 | writing a transaction appends exactly that event, bumps the total by one and changes nothing else |
| LedgerState.WriteTxPreservesValid | rust/src/state.rs:279-281 | writing a transaction keeps the ledger invariant |
| LedgerState.WithMemoAndTime | rust/src/state.rs:139-144 | the memo is always recorded when given; the created-at time, when given, overrides any earlier "time" entry, which is otherwise kept; no other detail changes |
| LedgerState.ApproveStep | rust/src/state.rs:105-151 | a rejected approval changes nothing; a successful one adds or removes the spender, stamps the token with the new transaction id and records one approve event |
| LedgerState.ApproveCheckOrder | rust/src/state.rs:107-120 | each approval error happens exactly when the earlier checks pass and its own fails: NotSelf, NotFound, NotOwner, MaxApprovals |
| LedgerState.MaxApprovalsEvenForMember | rust/src/state.rs:118-120 | a full approval set refuses even a spender already in it |
| LedgerState.RemovingNonMemberSucceeds | rust/src/state.rs:123-125 | revoking a spender that is not approved still succeeds and leaves the set as it was |
| LedgerState.ApprovePreservesValid | rust/src/state.rs:105-151 | approve keeps the ledger invariant |
| LedgerState.TransferFromStep | rust/src/state.rs:153-239 | a rejected transfer changes nothing; a successful one gives the token to `to` with the new transaction id and no approvals and records one event |
| LedgerState.TransferFromCheckOrder | rust/src/state.rs:159-191 | each of the five errors (NotFound, NotOwner, the 403 burn refusal, NotApproved, NotSelf) happens exactly under its condition in the code's order |
| LedgerState.TransferFromNeedsApproval | rust/src/state.rs:185-191 | a successful transfer had a caller owning `from` or approved for the token, and a destination other than the current owner |
| LedgerState.CustodianMintFromMinterNotApproved | rust/src/state.rs:159-187 | a custodian transferring a new token from the minter account itself is refused as not approved |
| LedgerState.CustodianMint | rust/src/state.rs:159-238 | a custodian minting a new token from its own account succeeds, records `sld1:mint` with `from_tx` 0 and creates the token |
| LedgerState.TransferFromPreservesValid | rust/src/state.rs:153-239 | transfer_from keeps the ledger invariant |
| LedgerState.SetCustodianStep | rust/src/state.rs:245-277 | a rejected change does nothing; a successful one adds or removes the custodian, records one event and makes its id the custodian transaction |
| LedgerState.SetCustodianCheckOrder | rust/src/state.rs:247-254 | NotAllowed exactly for a non-custodian caller, MaxCustodians exactly for adding to a full set |
| LedgerState.RemoveCustodianIdempotent | rust/src/state.rs:257-259 | removing a custodian twice is the same as once, and the last custodian can remove itself |
| LedgerState.SetCustodianPreservesValid | rust/src/state.rs:245-277 | set_custodian keeps the ledger invariant |
| LedgerState.InitStep | rust/src/state.rs:49-59 | init succeeds exactly when the caller is the named custodian, sets name, symbol and the single custodian and records its event |
| LedgerState.InitFromDefault | rust/src/state.rs:49-59 | init on the empty ledger by the custodian gives a valid ledger with one `sld4:set_custodian` event |
| LedgerState.Select | rust/src/state.rs:73-77 | the filter keeps exactly the ids whose account matches (or does not match) the given one |
| LedgerState.SelectCountsHolding | rust/src/state.rs:73-77 | counting a filter over any enumeration of the keys counts the set of matching ids |
| LedgerState.TotalSupply | rust/src/state.rs:71-74 | the supply is the number of tokens not held by the minter account |
| LedgerState.BalanceOf | rust/src/state.rs:76-78 | the balance is the number of tokens held by an account equal to the given one |
| LedgerState.SupplyAndMinterBalance | rust/src/state.rs:71-78 | supply plus the minter's balance is the number of tokens |
| LedgerState.TransferMovesOneToken | rust/src/state.rs:193-223 | a successful transfer adds the token to the destination's holdings and removes it from everyone else's |
| LedgerState.Page | rust/src/state.rs:86-92 | page `p` holds `PageLength` entries (a full page, the rest of the list, or none past the end or for `p >= 2^32`) and its entry `k` is entry `p * 100000 + k` of the list |
| LedgerState.PagesCover | rust/src/state.rs:86-92 | every position of the filtered list is found on its page at its offset |
| LedgerState.PageAsWritten | rust/src/state.rs:86-92 | the page as the code computes it: empty exactly when the page number does not fit or the wrapped skip count passes the end, and entry `k` is entry `(p * 100000) % 2^32 + k` |
| LedgerState.PageWrapsAround | rust/src/state.rs:89 | page 42950 of a long list yields ids in the code as written but is empty in the corrected paging |
| LedgerState.PageAsWrittenAgreesBelowWrap | rust/src/state.rs:89 | the written and the corrected paging agree while `page * 100000` fits in 32 bits |
| LedgerState.Tokens | rust/src/state.rs:84-93 | page `p` of the ids of tokens not held by the minter: `PageLength` entries, entry `k` being entry `p * 100000 + k` of that list |
| LedgerState.TokensOf | rust/src/state.rs:95-103 | page `p` of the ids of tokens held by the account: `PageLength` entries, entry `k` being entry `p * 100000 + k` of that list |
| LedgerState.OwnerOf | rust/src/state.rs:80-82 | the owner is found exactly for existing tokens and is the stored account |
| LedgerState.GetApproved | rust/src/state.rs:241-243 | the approved set of an existing token, empty for an unknown one |
| LedgerState.ReadTx | rust/src/state.rs:321-330 | a transaction is found exactly when its id fits in `usize` and is in the current block, and it is that event |
| LedgerState.ReadBlock | rust/src/state.rs:332-337 | any block id that fits in `usize` returns the current block |
| LedgerState.ReadBackTransfer | rust/src/state.rs:220-238 | the id a transfer returns reads back its event, and earlier transactions read back unchanged |
| LedgerState.ReadBackApprove | rust/src/state.rs:145-150 | the id an approval returns reads back its event |
| LedgerState.ReadBackSetCustodian | rust/src/state.rs:272-276 | the id a custodian change returns reads back its event |
| LedgerState.State.constructor | rust/src/state.rs:21-33 | a new state is the empty ledger |
| LedgerState.State.WriteTx | rust/src/state.rs:279-281 | the field updates equal the pure transaction write |
| LedgerState.State.Approve | rust/src/state.rs:105-151 | the field-by-field approve equals the pure step, result included |
| LedgerState.State.TransferFrom | rust/src/state.rs:153-239 | the field-by-field transfer equals the pure step, result included |
| LedgerState.State.SetCustodian | rust/src/state.rs:245-277 | the field-by-field custodian change equals the pure step, result included |
| LedgerState.State.Init | rust/src/state.rs:49-59 | init traps exactly when the caller is not the custodian, and then the state is rolled back; otherwise it equals the pure step |
| Canister.TransferRequest | rust/src/lib.rs:77-84 | `sld1_transfer` sends from the caller's normalised account to the normalised destination with the same token, memo and time |
| Canister.Sld1Transfer | rust/src/lib.rs:76-86 | the state change is that of transfer_from on that request, and every error goes through `to_transfer_error` |
| Canister.NormalisedRequest | rust/src/lib.rs:119-129 | `sld2_transfer_from` normalises both accounts and changes nothing else |
| Canister.Sld2TransferFrom | rust/src/lib.rs:119-129 | `transfer_from` on the normalised request |
| Canister.Sld2Approve | rust/src/lib.rs:113-115 | `approve`, forwarded unchanged |
| Canister.Sld4SetCustodian | rust/src/lib.rs:170-172 | `set_custodian`, forwarded unchanged |
| Canister.Sld3GetTx | rust/src/lib.rs:139-141 | `read_tx`, forwarded unchanged |
| Canister.Sld3GetBlock | rust/src/lib.rs:145-147 | `read_block`, forwarded unchanged |
| Canister.Sld1SupportedStandards | rust/src/lib.rs:90-109 | exactly four standards, SLD-1 to SLD-4, all with the repository URL |
| Canister.HolderBurnIsForbidden | rust/src/lib.rs:76-86 | a holder who is not a custodian sending its token to the minter gets generic error 403 and nothing changes |
| Canister.Sld1TransferNeverUnapproved | rust/src/lib.rs:76-86 | `sld1_transfer` never fails as not approved, since the caller owns the source account |
| Canister.ZeroSubaccountIsDefault | rust/src/lib.rs:79-80 | an all-zero subaccount behaves as none, on either side of a transfer |
| Canister.EntryPointsKeepCanonical | rust/src/lib.rs:76-172 | the update entry points store only accounts in `Account::new` normal form |
| Canister.CustodianCannotBurnHeldToken | rust/src/state.rs:170-187 | a custodian sending someone else's unapproved token to the minter through `sld2_transfer_from` gets NotOwner exactly when `from` does not hold it and NotApproved otherwise, and nothing changes |
| Canister.MintThenBurnScenario | rust/src/lib.rs:76-86 | after init and a custodian mint to a holder, the holder's burn gets 403 and the custodian's burn gets NotOwner |
| Vectors.RemoveAt | src/lib.rs:277 | `Vec::remove` keeps the elements before the index and shifts those after it down by one |
| Vectors.Position | src/lib.rs:354-357 | the scan returns the first index holding the value, or none exactly when the value is absent |
| Vectors.RemoveOnly | src/lib.rs:358 | in a duplicate-free list, removing at the found index removes that value entirely and nothing else |
| Legacy.Find | src/lib.rs:94-97 | the first index of a token with the id, or none when no token has it |
| Legacy.FindToken | src/lib.rs:166-169 | the `find` scan returns exactly that first index |
| Legacy.TokensOf | src/lib.rs:296-298 | the owner's tokens in list order; its meaning is stated by `Legacy.TokensOfMembers` |
| Legacy.TokensOfMembers | src/lib.rs:296-298 | exactly the tokens of that owner |
| Legacy.BalanceOf | src/lib.rs:56-58 | the count of the owner's tokens; its meaning is stated by `Legacy.BalanceCountsTokens` |
| Legacy.BalanceCountsTokens | src/lib.rs:56-58 | the number of the owner's tokens, which is the length of its token list |
| Legacy.TotalSupply | src/lib.rs:83-85 | the supply bounds every balance and is zero exactly when all balances are |
| Legacy.OwnerOf | src/lib.rs:61-70 | "Token not found" exactly when no token has the id; otherwise the owner of the first token with that id |
| Legacy.BalanceAfterOwnerChange | src/lib.rs:174 | changing a token's owner moves one unit of balance from the old owner to the new one |
| Legacy.BalanceAfterRemove | src/lib.rs:277 | removing a token lowers only its owner's balance, by one |
| Legacy.BalanceAfterAppend | src/lib.rs:251 | appending a token raises only its owner's balance, by one |
| Legacy.MintIndexAtLeastPosition | src/lib.rs:232-241 | in mint order each token's index is at least its position |
| Legacy.MintOrderedLength | src/lib.rs:239-241 | the vector never holds more than 100001 tokens |
| Legacy.MintOrderedAppend | src/lib.rs:232-251 | appending the token mint builds keeps ids in strictly increasing mint order |
| Legacy.MintOrderedRemove | src/lib.rs:277 | burning keeps ids in strictly increasing mint order |
| Legacy.BurnLastReusesId | src/lib.rs:232-238 | after burning the last token the next mint index is at most the burned one's |
| Legacy.State.constructor | src/lib.rs:388-395 | init sets the name, the symbol and the single custodian, with no tokens, approvals or extensions |
| Legacy.State.Approve | src/lib.rs:88-130 | self-approval, an unknown token and a non-owner are refused in that order; approving refuses a duplicate and a full list, creates or extends the list; revoking refuses an absent spender or removes exactly it, the others keeping their order; errors change nothing; name and symbol never change |
| Legacy.State.Transfer | src/lib.rs:155-179 | `Null` is refused first; the owner, or a custodian for a token nobody holds, moves it and its approvals go; errors change nothing; name and symbol never change |
| Legacy.State.TransferFrom | src/lib.rs:191-214 | `Null`, a missing token, a wrong `from` and an unapproved caller are refused in that order; the owner is not exempt; approvals go on success; name and symbol never change |
| Legacy.State.Mint | src/lib.rs:226-253 | only custodians mint; the index is one past the last token's, or 0 for none; above 100000 it is refused; otherwise a token nobody holds is appended and mint order is kept; name and symbol never change |
| Legacy.State.Burn | src/lib.rs:265-278 | an unknown token is refused; a custodian removes exactly that token when nobody or the custodian holds it, keeping the others' order; name and symbol never change |
| Legacy.State.SetExtension | src/lib.rs:306-328 | only custodians; no types removes the entry; over 256 types or 256 existing entries is refused; otherwise the entry is set; name and symbol never change |
| Legacy.State.SetCustodian | src/lib.rs:336-362 | only custodians; adding refuses a duplicate and a full list; removing refuses an absent custodian or removes exactly it, the others keeping their order; name and symbol never change |
| Nft721.PositionsWindow | src/nft721/lib.rs:84-89 | the enumerate-and-filter chain keeps exactly the slice of positions in the window |
| Nft721.OwnedByMembers | src/nft721/lib.rs:99 | exactly the tokens of that user |
| Nft721.OwnerPositionsFilterWindow | src/nft721/lib.rs:96-101 | filtering by position and owner together is the window of the whole list, then filtered by owner |
| Nft721.BalanceOf | src/nft721/lib.rs:47-49 | the count of the user's tokens; its meaning is stated by `Nft721.BalanceCountsOwned` |
| Nft721.BalanceCountsOwned | src/nft721/lib.rs:47-49 | the number of the user's tokens |
| Nft721.BalanceAfterOwnerChange | src/nft721/lib.rs:153 | changing a token's owner moves one unit of balance from the old owner to the new one |
| Nft721.Tokens | src/nft721/lib.rs:81-90 | the tokens from the offset (default 0) for the length (default all), in list order |
| Nft721.TokensOfOwner | src/nft721/lib.rs:93-102 | the same window of the whole list, then only the user's tokens |
| Nft721.UsizeAdd | src/nft721/lib.rs:83 | the `usize` sum is below 2^32 and congruent to the true sum modulo 2^32 |
| Nft721.TokensAsWritten | src/nft721/lib.rs:81-90 | `tokens` as the code computes it: the slice from the offset to the wrapped end, empty when the wrapped end is not past the offset |
| Nft721.TokensOfOwnerAsWritten | src/nft721/lib.rs:93-102 | `tokens_of_owner` as the code computes it: the wrapped window, then only the user's tokens |
| Nft721.TokensOfOwnerWrapAround | src/nft721/lib.rs:95 | offset 1 with the largest length misses the user's token at position 1 as written, while the intended window holds it |
| Nft721.TokensWrapAround | src/nft721/lib.rs:83 | offset 1 with the largest length gives nothing as written, while the window covers every token after the first |
| Nft721.TokensAsWrittenAgreesBelowWrap | src/nft721/lib.rs:83 | the written and the corrected window agree while `start + length` fits in 32 bits |
| Nft721.Find | src/nft721/lib.rs:149-152 | the first index of a token with the id, and with the owner when one is given |
| Nft721.FindToken | src/nft721/lib.rs:149-152 | the `find` scan returns exactly that first index |
| Nft721.OwnerOf | src/nft721/lib.rs:51-58 | TokenNotFound exactly when no token has the id; true means the first token with that id is the user's, and false that it is not |
| Nft721.ZeroTail | src/nft721/lib.rs:124-133 | the length of the run of tokens nobody holds at the end of the vector |
| Nft721.BurnResultShape | src/nft721/lib.rs:122-135 | burn leaves a prefix, removes only unheld tokens, at most `count`, all it may when the unheld run is long enough, and reports `count` unless it stopped at a held token |
| Nft721.BurnStep | src/nft721/lib.rs:124-132 | one round of the loop: a held token at `supply - i` ends `burn` with the result `BurnResult` gives, an unheld one is removed and the unheld tail is then at least `i` long |
| Nft721.BurnReportsCountBeyondSupply | src/nft721/lib.rs:134 | asked for more than the supply of unheld tokens, burn empties the vector and still reports the number asked for |
| Nft721.BurnStopsAtHeldToken | src/nft721/lib.rs:128-129 | a held last token stops burn before anything is removed |
| Nft721.AcceptsTransferFrom | src/nft721/lib.rs:252-267 | the `transfer_from` rule of `inspect_message`: the token exists, `from` owns it, and the caller's user owns it, is approved for it or is an operator of the owner, or the caller is a controller and nobody holds it |
| Nft721.AcceptedTransferFromFindsToken | src/nft721/lib.rs:252-267 | a `transfer_from` that `inspect_message` accepts finds the same token under id and owner as under id alone |
| Nft721.State.constructor | src/nft721/lib.rs:297-302 | init on the default state has one controller, the symbol and the name, and nothing else |
| Nft721.State.Mint | src/nft721/lib.rs:110-119 | a failed uuid draw changes nothing; otherwise a token numbered one past the length is appended, owned by `to` or the zero address; name, symbol and extension never change |
| Nft721.State.Burn | src/nft721/lib.rs:122-135 | the `for` loop leaves the vector and result `BurnResult` describes and keeps mint numbers equal to positions; name, symbol and extension never change |
| Nft721.State.SetAsset | src/nft721/lib.rs:138-145 | TokenNotFound for an unknown id; otherwise only that token's asset changes and the token is returned; name, symbol and extension never change |
| Nft721.State.TransferFrom | src/nft721/lib.rs:148-157 | TokenNotFound unless a token has the id and owner; then it goes to `to`, loses its approval, and `from`'s operators go once `from` owns nothing; name, symbol and extension never change |
| Nft721.State.Approve | src/nft721/lib.rs:169-178 | TokenNotFound for an unknown id; otherwise the single approval is set or cleared; name, symbol and extension never change |
| Nft721.State.SetApprovalForAll | src/nft721/lib.rs:190-208 | the caller's operator list is created even when the call then fails; duplicates give IsAlreadyOperator, absent ones OperatorNotFound; otherwise exactly one operator is appended, or removed with the others keeping their order; name, symbol and extension never change |
| Nft721.State.SetController | src/nft721/lib.rs:220-232 | duplicates give IsAlreadyController, absent ones ControllerNotFound; otherwise exactly one controller is appended, or removed with the others keeping their order; name, symbol and extension never change |

## Left out

- Crc32.Hash is computed bit by bit with the IEEE polynomial. No property of it is proved beyond what the text round trip needs, because the checksum is only ever recomputed, never inverted.
- `AccountIdentifier::new` (src/lib.rs) and `create_address` (src/nft721/utils.rs) are SHA-224 hashes. They are function parameters, not computed.
- `uuid_v4` is a call to the management canister. Its outcome is a parameter of `Nft721.State.Mint`.
- The fire-and-forget notifications to the events canister (src/lib.rs) and the extension canister (src/nft721/lib.rs) are not modelled. They run after the state change and their results are discarded. The model treats each `async` update as one atomic step. Only nft721 `mint` awaits before it changes the state: the uuid it awaits is a parameter, and the step after the await is atomic.
- `Legacy.State` has no `events` field, and `set_events`/`events` are left out. The field only addresses the notifications.
- Plain field reads are left out as trivial: `name`, `symbol`, `tokens`, `extensions`, `custodians`, `is_approved` and `get_approved` in src/lib.rs; `get_approved`, `is_approved_for_all`, `total_supply` and `get_extension` in src/nft721/lib.rs. So is the plain write `set_extension` in src/nft721/lib.rs.
- Of `inspect_message`, only the `transfer_from` rule is modelled. The other branches only choose whether to accept a message: the public list, the controller-only list, `approve` and `set_approval_for_all`.
- Several forwarders are not modelled separately because they add nothing to the state queries they call: `sld1_metadata`, `sld1_name`, `sld1_symbol`, `sld3_tx_total`, `sld4_get_custodians`, `sld2_get_approved`, `sld1_total_supply`, `sld1_balance_of`, `sld1_owner_of`, `sld1_tokens` and `sld1_tokens_of`. `sld3_block_size` is the constant `Canister.BLOCK_SIZE`.
- The `metadata`, `block_indexes` and `hash_tree` fields of the SLD ledger are not modelled. So are certification, `http_request`, block paging, history flushing and `read_history`, which are commented out or unfinished in the code.
- `HistoryEntry::to_stable_bytes` has an empty body. `Types.EntryLayout` is the layout the decoder reads and is proved against the decoder only, not against an encoder in the code.
- Upgrade hooks, `cycles`, `wallet_receive`, candid export and `stable_save`/`stable_restore`/`stable_bytes` are not modelled: they are host serialisation and plumbing.
- Stable.StableWriter.Write: requires that `offset + |buf|` fits in 32 bits. The wrapped sum the code would compute beyond that is not modelled.
- Stable.StableWriter.IoWrite: carries the same 32-bit bound as `Stable.StableWriter.Write`, for the same reason.
- Stable.StableReader.Read: requires that `offset + buf.len()` fits in 32 bits, for the same reason.
- Stable.StableReader.IoRead: carries the same 32-bit bound as `Stable.StableReader.Read`, for the same reason.
- Stable.StableMemory.Write and Stable.StableMemory.Read: a host trap on an out-of-range access is a precondition here, not a modelled outcome. The writer and reader never make such an access.
- Types.FromMintIndex: requires a canister id of at most 20 bytes. The trap of `Principal::from_slice` on a longer id is not modelled; canister ids are 10 bytes.
- Legacy.State.Mint: requires the tokens to be in mint order (`Legacy.MintOrdered`) and the canister id to have at most 20 bytes. Tokens only ever come from `mint`, and canister ids are 10 bytes. The trap of `Principal::from_slice` on a longer id, and the slice trap on a token id shorter than 5 bytes, are not modelled.
- A debug build traps on the integer overflows this model wraps (`page * 100_000`, `start + length`, `len() - 1`). The model follows the release build: `len() - 1` wraps in `Legacy.State.Mint`, and the wrapping paging is `LedgerState.PageAsWritten`, `Nft721.TokensAsWritten` and `Nft721.TokensOfOwnerAsWritten`.
- LedgerState.Tokens: uses the corrected paging `LedgerState.Page`, not the wrapping skip count of rust/src/state.rs:89. The two agree below 2^32 (`LedgerState.PageAsWrittenAgreesBelowWrap`); the difference is the first row of "## Findings".
- LedgerState.TokensOf: uses the corrected paging `LedgerState.Page`, not the wrapping skip count of rust/src/state.rs:99, for the same reason.
- Nft721.Tokens: uses the corrected window end `start + length`, not the wrapping `usize` sum of src/nft721/lib.rs:83. The two agree below 2^32 (`Nft721.TokensAsWrittenAgreesBelowWrap`); the difference is the second row of "## Findings".
- Nft721.TokensOfOwner: uses the corrected window end, not the wrapping sum of src/nft721/lib.rs:95; the code as written is `Nft721.TokensOfOwnerAsWritten`.
- Types.ToMintIndex: requires an id of at least five bytes. The slice panic of `to_mint_index` on a shorter id is not modelled.
- Types.FromStableBytes: requires the owner length byte to be at most 29. The trap of `Principal::from_slice` on a longer owner is not modelled.
- The order in which a `HashMap` is iterated is a parameter (`order`) of the SLD queries, not a fixed order.

## Findings

| source | as written | input that shows it | evidently intended | confidence | as-written member | corrected member |
|---|---|---|---|---|---|---|
| rust/src/state.rs:89 | `skip(page * 100_000)` multiplies two `usize` values, which wrap around on wasm32. `tokens_of` at line 99 does the same | page 42950, with more than 32704 matching tokens: 42950 * 100000 wraps to 32704, so the call returns tokens from position 32704 | a page past the end of the list is empty | not executed | LedgerState.PageAsWritten, LedgerState.PageWrapsAround | LedgerState.Page, LedgerState.PagesCover |
| src/nft721/lib.rs:83 | `start + length` is a `usize` sum that wraps around on wasm32. `tokens_of_owner` at line 95 does the same | offset 1 and length 2^32 - 1 with at least two tokens: the end wraps to 0 and the call returns nothing | every token from position 1 to the end | not executed | Nft721.TokensAsWritten, Nft721.TokensWrapAround, Nft721.TokensOfOwnerAsWritten, Nft721.TokensOfOwnerWrapAround | Nft721.Tokens, Nft721.TokensOfOwner |
