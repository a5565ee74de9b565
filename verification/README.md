# Superposition accounts, verified

Superposition accounts let an Ed25519 key spend an EVM user's tokens. This project models the parts of
the system on which that rests, and proves what holds of them for every input and over every run.

## What is modelled

**The hand-written EVM programs.** `Evm.dfy` is a small-step semantics of the instructions they use,
over 256-bit words, byte memory, storage, calldata and return data; calls are answered by an arbitrary
environment, which sees every request and may change storage. `Huff.dfy` is an assembler for Huff
macros, with general theorems: assembled code decodes to the program, labels are valid jump targets,
and running a stretch of code is running its instruction list. On these stand the exact bytes
that LiteFactory deploys (`LiteCode.dfy`, `LiteAccount.dfy`), the metamorphic beacon proxy
(`BeaconCode.dfy`, `BeaconProxy.dfy`), SafetyRouter (`RouterCode.dfy`, `SafetyRouter.dfy`) and the
creation code of the first two (`Deployment.dfy`). For each there is a short specification, total in
caller, storage and calldata, and a proof that the bytes halt exactly as it says. `LiteHistory.dfy` runs
the LiteAccount bytes over trees of re-entrant messages, `Sender.dfy` ties the command line tool to them.

**The account protocol.** `Accounts.dfy` holds the shared world (raw storage of every account, locks,
EIP-20 ledgers, Authority9lives registries) and the single changes it can undergo. `Protocol.dfy` says
what a message does, from its bytes on: the route it takes, signatures, nonces, permits, pulls,
approvals, the authority's verdict, the call of a target that may itself send messages to any account to
any depth, the balance checks, migrations, creation of accounts, upgrades of the factory, and the undoing
of what fails. `Nodes.dfy` is the same as imperative code: a class whose fields are changed in place, with
the loops of the source, each method proved to reach exactly what the protocol says. `ProtocolRuns.dfy`
proves once, over all trees of messages, that a run is a log of single changes each possible when it was
made, and that locks exclude. `Scripts.dfy`, `Verdicts.dfy` and `Dispatch.dfy` say the same protocol a second
time, without steps and logs, as a relation between the bytes of a message, the world before and the world
after (signatures, nonces, locks, storage, and lists of token operations of which none may be refused), and
prove the two equal for every message; `Funding.dfy`, `Births.dfy` and `Records.dfy` draw from it who must
pay and allow how much, exactly which migrations, creations and upgrades commit, what accounts then answer, and
what a run records. `AccountHistory.dfy`, `Authenticity.dfy`, `Batches.dfy`, `Ledger.dfy`,
`Supply.dfy`, `Spending.dfy`, `OwnTokens.dfy`, `Effects.dfy`, `SharedKeys.dfy` and `Outputs.dfy` prove the
laws, and `Nodes.dfy` carries those over runs to the fields of its class.

**The wire format.** `Borsh.dfy` encodes and decodes every schema of the Borsh specification that is
needed; `Wire.dfy` has the eleven requests, `FlatBytes.dfy` the same bytes written by hand field by field,
`GoLayout.dfy` the Go declarations of the same types, and `Layouts.dfy` and `Kinds.dfy` say exactly when
payloads of different kinds have the same signed bytes.

**Two schedulers.** `RateLimit.dfy` (the in-memory rate limiter) and `KeyRotation.dfy` (the choice of the
least recently used sender key) are compared with their whole histories.

`dafny verify dfyconfig.toml` checks the whole project.

## Assumptions

- Ed25519ph, SHA-512, keccak and ecrecover are arbitrary functions. Where distinct storage slots matter,
  `Separated` says exactly which hashes must differ: the nonce slots of keys below 2^128 among themselves,
  from the slot of key 0, and from slots 0 to 6 and the two EIP-1967 slots.
- Tokens follow EIP-20 and EIP-2612 and do not call back. Whether a token accepts a permit is answered by
  the environment; a token may or may not count down the largest allowance. The exact condition for the
  balance floor supposes that the supply of every token fits a word.
- Every implementation that is installed is this account code. The precompiles and the static calls of an
  authority change nothing.
- `U::from` of a byte array is its big-endian number, `addr()` and conversions to an address take the low
  20 bytes, and `read_words!` panics when words are missing.
- The asset list is a parameter: its size, and the address, if any, of each asset.
- No calldata, return data or memory region reaches 2^63 bytes.

Where the source and its comments differ, the code is followed: `max_unspent` is checked as a lower bound
on the balance that remains; the text that an EOA signs has 27 and 64 characters where the size constant
adds 28 and 63; map slots hash the slot before the key.

## Model

| member | source | states |
|---|---|---|
| LiteCode.LiteLoads | sol/LiteFactory.sol:13-21 | For every owner and operator, the bytes that LiteFactory concatenates are the assembled Huff program: every stretch is in its place and every label is a JUMPDEST that decoding arrives at |
| LiteAccount.LiteRefines | sol/LiteAccount.huff:14-48 | For every owner, operator, caller, storage and calldata, and every behaviour of what it calls, the deployed bytes halt exactly as `LiteSpec` says: the owner sets the flag; others are refused when disabled, on a used nonce or a bad signature; otherwise the nonce is used up, sha512 is asked over address, nonce, target and calldata, the verifier over that hash, operator and signature, and the target is called with exactly its calldata and no value, its answer passed back |
| LiteHistory.VisitsSpend | sol/LiteAccount.huff:18-48 | Over every tree of messages run through the bytes, with callbacks and rollback, each nonce leads to at most one committed target call, none that was used before, and the used nonces grow by exactly those; no owner message frees one |
| Deployment.LiteDeploys | sol/LiteFactory.sol:13-27 | Running the creation code stores the enabled flag and returns exactly the account code |
| Deployment.BeaconDeploys | lib/types/proxy.go:10-16 | Running the creation code of the beacon proxy writes nothing and returns exactly the proxy code |
| BeaconProxy.BeaconRefines | lib/types/proxy.go:10-16 | For every calldata and storage: calldata that starts with the migrate selector is delegated to the address that the factory returns for empty calldata, all other calldata to the address in the proxy's EIP-1967 slot, with success, storage and return data passed through |
| SafetyRouter.RouterRefines | sol/SafetyRouter.huff:6-20 | For every calldata: a call is made only when the code hash of the first word's address is the expected one, and then with the rest of the calldata, its outcome passed back |
| SafetyRouter.Frame | lib/client/client.go:43-56 | Through the router the request is preceded by the account address as a 32-byte word and sent to the router; otherwise it goes to the account unchanged |
| SafetyRouter.RouterTransparent | sol/SafetyRouter.huff:6-20 | A framed request reaches the account byte for byte with success and return data unchanged when the code hash matches; otherwise no call is made |
| Sender.LiteArbitraryCd | accounts-cli/src/main.rs:222-243 | The printed text, hex-decoded, is signature, nonce, target and calldata, the signature being over contract, nonce, target and calldata |
| Sender.SenderAgrees | sol/LiteAccount.huff:29-47 | For every nonce, contract, target and calldata, that text makes the account's bytes hash exactly what the tool signed, verify exactly its signature and call exactly that target with that calldata |
| Borsh.DecodeEncode | superposition_libaccounts/src/lib.rs:106-352 | For every schema and every value of it, decoding the encoding followed by anything gives the value and the rest |
| Borsh.EncodeDecode | superposition_libaccounts/src/lib.rs:106-352 | For every schema, bytes that decode are the encoding of the value followed by the rest |
| Borsh.LittleEndianAt | superposition_libaccounts/src/lib.rs:106-352 | Integers and counts are the bytes of the big-endian number in the opposite order |
| Wire.DecodeEncodeArgs | superposition_libaccounts/src/lib.rs:298-352 | For all eleven requests that fit, whatever follows, decoding inverts encoding |
| Wire.EncodeDecodeArgs | contract/src/main.rs:73-75 | Calldata that decodes to a request fits and is that request's only encoding, followed by what is left over |
| FlatBytes.RequestsAreFlat | superposition_libaccounts/src/lib.rs:298-352 | Every request that fits is, byte for byte, its number in the enumeration (0 to 10) and its fields written one after the other in the order of the declaration |
| FlatBytes.PayloadsAreFlat | superposition_libaccounts/src/lib.rs:166-297 | So are the signed bytes of each of the five kinds of payload |
| Protocol.Numbers | superposition_libaccounts/src/entry_fresh.rs:63-69 | The words, addresses and nonces taken from a request are those whose big-endian bytes it has |
| Wire.SolveBytesDistinct | superposition_libaccounts/src/entry_solve.rs:124-128 | Two different solve items never share the bytes that are signed |
| Wire.V2BytesDistinct | superposition_libaccounts/src/entry_solve.rs:136-142 | Two different SolveV2 payloads never share their signed bytes |
| Wire.V3BytesDistinct | superposition_libaccounts/src/entry_solve.rs:151-157 | Two different SolveV3 payloads never share their signed bytes |
| Wire.TransferOnlyBytesDistinct | superposition_libaccounts/src/entry_transfer_only.rs:10-16 | Two different transfer batches never share their signed bytes |
| GoLayout.SameLayout | lib/types/types.go:9-151 | The Go declarations describe the same Borsh layout as the Rust ones, for any number of assets |
| GoLayout.SameBytes | lib/types/types.go:9-151 | Every request that fits has the same bytes in Go and in Rust |
| Messages.ConsentsDistinct | superposition_libaccounts/src/entry_fresh.rs:17-36 | The message an EOA signs, piece by piece: a 29-byte EIP-191 prefix and the 153 bytes it announces, with the key and then the authority in hexadecimal, each at its place after its text; equal messages name the same key and the same authority |
| Hex.EncodeAt | superposition_libaccounts/src/entry_fresh.rs:19-27 | Hexadecimal text has the two lower-case digits of each byte, high half first |
| Messages.StatementsDistinct | superposition_libaccounts/src/lib.rs:360-368 | What is hashed for a statement determines the account, the message and the nonce |
| Messages.StatementsApart | superposition_libaccounts/src/lib.rs:360-368 | What is hashed for a statement is never the signed bytes of a payload of another kind |
| Entrypoint.RequestsArrive | contract/src/main.rs:63-77 | Every encoded request, whatever follows it, is routed to its handler, and the proxy never takes it for a migration |
| Entrypoint.ProxyAgrees | contract/src/main.rs:41-79 | For every calldata, what the byte code of the proxy does by what the contract makes of it: migrations, which are exactly the calldata with the selector and all four words, go to the code the factory names, requests and empty calldata to the proxy's own slot, and of the calldata with the selector that is too short all is refused |
| Entrypoint.MigrationsArrive | superposition_libaccounts/src/entry_fresh.rs:63-69 | The migration calldata that the factory builds reads back as its four words on both sides |
| Dispatch.MessagesExactly | contract/src/main.rs:41-79 | For every message to any address and whatever the targets do: it leaves one world and no other, namely the one that `Leaves` relates to its bytes and the world before (empty calldata, a migration, or an encoded request that commits; from the admin of the upgradeable proxy an upgrade and then the call in it), or, where `Leaves` relates none, it changes and logs nothing |
| Verdicts.RequestExactly | superposition_libaccounts/src/lib.rs:385-413 | Each of the eleven requests commits exactly when, and leads exactly where, `Commits` says: signatures over its bytes under the stored key, the lock where it is taken, free nonces, known assets and accepted permits, token operations none of which is refused, the authority, targets that succeed, minima kept |
| Verdicts.ItemsExactly | superposition_libaccounts/src/entry_solve.rs:21-117 | Items lead from one world to another exactly when each in turn has a free nonce, accepted permits, known assets, no refused token operation and an allowed target, its target, doing anything, succeeds, and every minimum is kept |
| Verdicts.GasExactly | superposition_libaccounts/src/entry_solve.rs:158-203 | Gas is paid exactly when its asset is known, its permit, if any, is for that asset and accepted, and neither the permit nor the pull from owner to clearinghouse is refused |
| Verdicts.StateExactly | superposition_libaccounts/src/entry_statement.rs:5-14 | A statement is served exactly when the key signed the hash of the text, the account in hexadecimal and the payload, and its nonce is free; it uses up the nonce and changes nothing else, lock or no lock |
| Dispatch.TargetsMustSucceed | superposition_libaccounts/src/entry_solve.rs:84-99 | A message with a Solve, SolveV2, SolveV3 or creation with items, one of whose targets fails, does not commit and leaves the whole world as it was |
| Dispatch.UpgradeExactly | sol/UpgradeableProxy.sol:57-71 | Calldata is read as an upgrade to an address with some data exactly when it is the selector, the address as a word, an offset as a word, and at that offset the size and the data |
| Records.CommitsAreRecorded | superposition_libaccounts/src/entry_solve.rs:21-117 | A request that commits is on the log: its payloads as served and, for each item, the use of its nonce and the call of its target with the code hash found there |
| Records.GuardIsMarked | superposition_libaccounts/src/lib.rs:396-406 | A request that takes the lock marks its beginning and its end, committed or not, and begins exactly when the lock is free |
| Entrypoint.FreshAllOrNothing | superposition_libaccounts/src/entry_fresh.rs:38-84 | A request for an account either changes nothing, so a failing attached solve leaves no account behind, or creates the account and then commits exactly the attached batch on it |
| Births.CreationsCommitExactly | superposition_libaccounts/src/entry_fresh.rs:38-84 | A message with a creation request and no batch commits exactly when key and EOA are not zero, the factory has an implementation, the address is free, and recovering (v, r, s) on the message for that key and authority gives the EOA; then the new account holds the bytes of the request as key, owner and authority, no nonce is used, and nothing else changes |
| Births.CreatedAnswers | superposition_libaccounts/src/entry_owner.rs:5-8 | After a creation, and over every run that follows, the account answers the calldata 8, 7, 3 and 2 with the key, the EOA, the authority of the request and version 2, and the creation itself answered with the address of that account |
| ProtocolRuns.CreateIsBirth | superposition_libaccounts/src/entry_fresh.rs:55-73 | Creating an empty proxy and migrating it through its calldata always succeeds when the EOA consented and the address is free, and leaves exactly the storage an account is born with |
| ProtocolRuns.ActsSound | superposition_libaccounts/src/lib.rs:385-413 | Every run, with nested messages and rollback, is a log of single changes each possible when it was made and leading to the world reached; every lock taken on the way was free and is left |
| ProtocolRuns.LockExclusive | superposition_libaccounts/src/lib.rs:396-406 | At every moment of every run, failed requests included, at most one lock-holding request of an account has begun and not ended |
| AccountHistory.NoncesOnce | superposition_libaccounts/src/storage.rs:48-50 | Over every run, a nonce of an account is consumed by at most one committed item across all kinds of request, never one used before, and the used nonces afterwards are exactly those before and those consumed |
| AccountHistory.FrozenConfiguration | superposition_libaccounts/src/entry_migrate.rs:5-58 | Once version is 2, over every run, key, key count, owner, authority and version never change; the implementation is what was installed last, non-zero, and every installation came from the owner |
| AccountHistory.FirstMigrationDecides | superposition_libaccounts/src/entry_migrate.rs:5-58 | Over every run, the first committed migration of an account below version 2 settles its configuration for good, whatever migrations follow: at level 0 anyone may send it and it names key, owner and authority; at level 1 only the owner, and it settles the authority; without one nothing changes |
| Births.MigrationsCommitExactly | superposition_libaccounts/src/entry_migrate.rs:5-58 | A message with migration calldata, at every version, commits exactly when the implementation is not zero and either the version is 0 with key and owner not zero, or it is not 0 and the sender is the owner; then each slot holds what its level writes, and every other slot and everything else is unchanged |
| AccountHistory.FactoryUpgrades | sol/UpgradeableProxy.sol:51-82 | For an upgradeable proxy whose owner is its admin, over every run every change of the implementation comes in a message from the admin, and the admin stays the same |
| Births.UpgradesInstall | sol/UpgradeableProxy.sol:51-71 | An upgrade without data from the admin always commits, installs the address in it, which empty calldata then answers with, and changes nothing else |
| AccountHistory.CreatedAsConsented | superposition_libaccounts/src/entry_fresh.rs:38-84 | Over every run, every account created is new and ends with version 2, the EOA as owner, and the key and authority of the message that recovers to the EOA |
| AccountHistory.OneAccountPerEoa | superposition_libaccounts/src/entry_fresh.rs:57-62 | Over every run, no two creations give the same account, so a factory gives an EOA at most one |
| AccountHistory.AuthorityRules | superposition_libaccounts/src/entry_solve.rs:76-84 | Over every run, every target call of an account whose stored authority word, cut to an address, is at that moment an Authority9lives contract happens while the latest registration there of the target's code hash is true, including authorities deployed during the run |
| AccountHistory.OneOperator | sol/Authority9lives.sol:22-39 | Over every run, from any moment at which an authority is initialised on, it keeps its operator, and every registration in it is sent by that operator |
| Births.ActsExactly | sol/Authority9lives.sol:22-39 | Exactly what each act other than a message leaves: initialising works once, only the operator registers, a scan allows both trading hashes or nothing, a refused token operation changes nothing, and what is undone leaves nothing |
| Authenticity.OnlyWhatWasSigned | superposition_libaccounts/src/entry_solve.rs:119-205 | Over every run, every payload that an account at version 2 serves came to it in the calldata of a message of the run, nested ones included, with a signature there that verifies under its key; it consumes a nonce, calls a target or pulls tokens only as such a payload asks, with that token, payer, recipient and amount |
| Effects.AtMostOnce | superposition_libaccounts/src/storage.rs:48-50 | Over every run, an account serves a payload that has a nonce at most once, under whatever signatures and in whatever requests it comes, and never if a nonce of it is used already |
| Effects.OnceExactly | superposition_libaccounts/src/entry_solve.rs:136-205 | For every payload that is served in some run: no run serves it twice if and only if it is not a SolveV2 or SolveV3 without items |
| Effects.GasEachTime | superposition_libaccounts/src/entry_solve.rs:151-205 | A signed SolveV3 without items, sent k times as bytes by anyone, is served k times while the owner can pay: for every holder and token the balance moves by k times the amount from owner to clearinghouse, and no account changes |
| SharedKeys.AcceptsByKey | superposition_libaccounts/src/entry_solve.rs:119-134 | For any item and whatever the world answers, an account commits it exactly when the signature verifies under its own key and the item goes through there |
| SharedKeys.TwoAccountsOneItem | superposition_libaccounts/src/entry_solve.rs:119-134 | Two accounts both commit one signed item if and only if it verifies under the keys of both and goes through at both: items do not name the account |
| SharedKeys.CallOnlyGoesThrough | superposition_libaccounts/src/entry_solve.rs:21-117 | An item that moves no tokens and has a fresh nonce goes through at every idle account without an authority, and uses up the nonce of that account only |
| Kinds.ReadsAsParses | superposition_libaccounts/src/lib.rs:166-297 | For every byte string and each of the four kinds signed as bytes: some payload of that kind has these bytes if and only if they decode, to the last, under the schema of that kind; so a signature for one kind serves for another exactly then |
| Kinds.KindsMeet | superposition_libaccounts/src/lib.rs:166-297 | Two different kinds have payloads with the same signed bytes if and only if there is an asset and they are not SolveV2 and SolveV3 |
| Kinds.BareItemAsV3 | superposition_libaccounts/src/lib.rs:166-297 | The bytes of an item without permits are those of a SolveV3 if and only if it pulls nothing, has 40 bytes of calldata, byte 5 of its target is 1 and byte 6 is an asset |
| Kinds.EmptyMeet | superposition_libaccounts/src/lib.rs:166-297 | Payloads of different kinds whose leading vector is empty share their bytes only as such an item and a SolveV3 |
| Kinds.V2NeverV3 | superposition_libaccounts/src/lib.rs:230-297 | No SolveV2 and SolveV3 share their signed bytes |
| Kinds.ItemOrTransfers | superposition_libaccounts/src/lib.rs:166-273 | An item and a transfer batch with the same signed bytes have as many permits as transfers, and the transfers with permits make up the rest of the item: a transfer batch without permits is never an item, an item without permits never a transfer batch |
| Kinds.SameLeading | superposition_libaccounts/src/lib.rs:166-297 | Payloads of any two kinds with the same signed bytes begin with vectors of the same length |
| Kinds.ItemTransfer | superposition_libaccounts/src/lib.rs:166-273 | 167 bytes that are both an item and a transfer batch |
| Kinds.ItemV3 | superposition_libaccounts/src/lib.rs:166-297 | 88 bytes that are both an item which moves no tokens and a SolveV3 which only pays for gas |
| Batches.BatchIsSequence | superposition_libaccounts/src/entry_solve.rs:119-134 | For an account at version 2 and any targets, a batch commits exactly when its items sent one by one in order all commit, to the same world; this holds if and only if the batch is not empty or the lock is free |
| Ledger.WithinAllowance | superposition_libaccounts/src/entry_solve.rs:61-75 | Any sequence of token operations that touches a holder only through one spender's allowance takes at most that allowance from it |
| Scripts.ScriptExactly | superposition_libaccounts/src/entry_solve.rs:61-75 | For every list of token operations: none is refused if and only if no single balance and no single allowance, each followed through the list on its own, stands in the way |
| Scripts.ScriptEnds | superposition_libaccounts/src/entry_solve.rs:61-75 | And then every balance and every allowance ends where it is followed to |
| Spending.BalanceFloor | superposition_libaccounts/src/entry_solve.rs:61-114 | For an item that commits, assets repeated or not, pulled from someone other than the account, with a target that does anything, messages to any account included, but lets the account's tokens move only through its own allowance: the account ends with at least its balance before plus all pulls but the last of that token, so never below its balance before |
| Spending.FloorExactly | superposition_libaccounts/src/entry_solve.rs:61-114 | For an item that gets as far as its target: every commit against such a target leaves at least the balance before if and only if the tokens come from someone other than the account, or the last pull is of nothing, or some entry of the token insists on the balance before, or some entry insists on more than the supply of its token, so that the item never commits |
| Supply.SupplyKept | superposition_libaccounts/src/entry_solve.rs:61-114 | No sequence of token operations changes what all holders together have of a token |
| OwnTokens.OwnTokensCanGo | superposition_libaccounts/src/entry_solve.rs:136-149 | Two signed SolveV2 requests sent as bytes to an account in service, the first with the account itself as target, the second with the account as transfer owner: both commit, the target keeps to its allowance, and the second leaves the account poorer by all it pulled |
| Spending.PermitsSuffice | superposition_libaccounts/src/entry_solve.rs:36-84 | An item with an unused nonce, with accepted permits for all it pulls, from an owner who can afford it, reaches its target exactly when there is no authority, or an Authority9lives one in which the target's code hash is allowed, or another one that says yes; no earlier approval is needed |
| Funding.ItemFundedExactly | superposition_libaccounts/src/entry_solve.rs:36-75 | No token operation of an item that pulls from someone other than the account is refused if and only if, for every token, the owner has all that is pulled of it, has allowed it by a permit or before, and the account can hold it |
| Funding.ItemLedger | superposition_libaccounts/src/entry_solve.rs:36-75 | What the target of such an item finds, for every holder, token and pair of owner and spender: what was pulled has moved, the account may take from the owner what was granted less what was pulled unless the token does not count it down, the target may take what was pulled last, and nothing else differs |
| Funding.ItemCommitsExactly | superposition_libaccounts/src/entry_solve.rs:21-134 | A message with one item, to an account that is not its own owner, commits exactly when the lock and the nonce are free, the key signed it, permits are accepted, the owner can pay, the authority allows the target, the target succeeds, and the minima are kept |
| Spending.TransfersAllOrNothing | superposition_libaccounts/src/entry_transfer_only.rs:10-55 | A message with transfers either leaves the whole world as it was, or the batch is not empty, its nonce was free and is used, every holder of every token has its balance before plus received minus sent, and any group with all parties keeps its total |
| Funding.TransfersCommitExactly | superposition_libaccounts/src/entry_transfer_only.rs:10-55 | A message with transfers commits exactly when the lock and the nonce are free, the key signed it, it is not empty, assets are known, permits are accepted, and every sender can pay each transfer in turn out of what it has by then and of its permit or allowance; then only the nonce is used, and every balance, every allowance to the account and every other allowance is what that comes to |
| Funding.LeftIs | superposition_libaccounts/src/entry_transfer_only.rs:31-51 | After a batch the account may take from a sender with a permit the largest amount, less what was pulled since its last permit where the token counts down, and from one without a permit what it could before less what was pulled |
| Nodes.Node.CallPermits | superposition_libaccounts/src/entry_solve.rs:37-59 | The loop over permits reaches what the protocol says, or stops at the first that fails |
| Nodes.Node.TakeAll | superposition_libaccounts/src/entry_solve.rs:61-75 | The loop of pulls and approvals reaches what the protocol says |
| Nodes.Node.CheckKept | superposition_libaccounts/src/entry_solve.rs:100-114 | True exactly when every listed asset is known and its balance is at least the stated minimum |
| Nodes.Node.EntrySolve | superposition_libaccounts/src/entry_solve.rs:21-117 | The loop over items, each with its target's callbacks, reaches what the protocol says; `Verdicts.ItemsExactly` says what that is |
| Nodes.Node.VerifyAll | superposition_libaccounts/src/entry_solve.rs:120-131 | Succeeds exactly when every item is signed by the key, and returns the items in order |
| Nodes.Node.SendAll | superposition_libaccounts/src/entry_transfer_only.rs:22-53 | The loop of permits and transfers reaches what the protocol says; `Funding.TransfersCommitExactly` says what that is |
| Nodes.Node.EntryMigrate | superposition_libaccounts/src/entry_migrate.rs:5-58 | The migration by levels leaves exactly the storage the protocol says, or nothing changes; `Births.MigrationsCommitExactly` says which |
| Nodes.Node.Deliver | sol/UpgradeableProxy.sol:51-82 | Admin messages stay with the proxy, others reach the account code, and a failed message leaves everything as it was; it succeeds exactly when `Leaves` relates a world to it, and the fields then are that world |
| Nodes.Node.PerformAll | superposition_libaccounts/src/lib.rs:385-413 | Whatever happens to the node, message by message with callbacks, its fields end where the protocol says |
| Nodes.Node.Serve | superposition_libaccounts/src/lib.rs:385-413 | Serving anything, the node's own storage has each nonce slot consumed at most once and none freed, every account at version 2 keeps its configuration with code installed by its owner only, and at every moment at most one lock-holding request per account is open and all are left |
| Outputs.ProxyFollowsFactory | contract/src/main.rs:41-47 | The byte code of a proxy, asked to migrate, delegates to the code installed in its factory: what the factory writes back for empty calldata |
| Outputs.ReadsNeverChange | superposition_libaccounts/src/entry_owner.rs:5-8 | Over every run, what an account at version 2 writes back for its version, authority, owner and key stays the same |
| UpgradeableProxy.LayoutsAgree | superposition_libaccounts/src/storage.rs:4-32 | For every list of fields, Solidity's packed layout is the Rust counter if and only if no two neighbours fit into one slot |
| UpgradeableProxy.FieldsCoincide | sol/UpgradeableProxy.sol:13-24 | The Solidity fields are in the slots that the account code numbers |
| UpgradeableProxy.Proxy.constructor | sol/UpgradeableProxy.sol:26-49 | The constructor's writes leave exactly the storage described, the key in the slot where the account code looks for it |
| UpgradeableProxy.OnlyAdminUpgrades | sol/UpgradeableProxy.sol:26-82 | From construction on, over every run, key, owner, admin and version stay as constructed, and the implementation changes only in messages from the admin |
| ClientAddress.ProxyHash | lib/types/proxy.go:10-16 | The appended parts are the creation code of the beacon proxy |
| ClientAddress.GetClientAddr | lib/types/proxy.go:18-28 | The address computed in the 85-byte buffer is where the factory creates the EOA's account |
| ClientAddress.SharedAddressCollides | lib/types/proxy.go:18-28 | Two EOAs with the same address exhibit a collision of the hash or of its last 20 bytes |
| RateLimit.Run | lib/ratelimit/ratelimit.go:37-80 | Every answer follows the rule of the current run of its slice; with a clock that never goes back, request k is refused exactly when at least four earlier ones have its id and lie in the same five minutes; a dry run refuses nothing |
| RateLimit.SlicesExactly | lib/ratelimit/ratelimit.go:13-57 | Two clock readings are of one slice if and only if they lie between the same two consecutive multiples of 300,000,000,000 nanoseconds |
| RateLimit.FollowsHistory | lib/ratelimit/ratelimit.go:54-78 | For every sequence of requests and clock readings: the answers are those of the whole history, refusing an id exactly when it has four grants in the slice, if and only if at each request, when the slice has had four requests of its id, the current run of the slice has had four too |
| RateLimit.RefusesByHistory | lib/ratelimit/ratelimit.go:54-78 | So it is when no ended slice is entered again |
| RateLimit.ClockForward | lib/ratelimit/ratelimit.go:57-65 | A clock that never goes back never enters an ended slice again |
| RateLimit.AtMostFour | lib/ratelimit/ratelimit.go:66-76 | No id is granted more than four requests in a slice if and only if the same condition holds |
| RateLimit.ClockBackward | lib/ratelimit/ratelimit.go:57-65 | With a clock that goes back, a fifth request of a slice is granted |
| KeyRotation.SenderKeys.SelectFirst | db/migrations/1766122851-pick_account_non_random.sql:13-16 | The key selected comes before or with every other in the order of the query |
| KeyRotation.SenderKeys.GetPrivateKey | db/migrations/1766122851-pick_account_non_random.sql:10-19 | The key handed out is a first one of the query, and only its time of access changes |
| KeyRotation.SenderKeys.HandOut | db/migrations/1766122851-pick_account_non_random.sql:10-19 | Handing out keys at rising clock readings is a run of the table, in which every complete turn is a permutation of the keys |
| KeyRotation.Rotation | db/migrations/1766122851-pick_account_non_random.sql:10-19 | With n keys, any initial times, and a clock that strictly increases from after them, any n consecutive picks are a permutation of the keys |

## Left out

- AccountHistory.FrozenConfiguration: after the owner installs an implementation other than this code, nothing is claimed.
- Funding.ItemFundedExactly: the closed form is for items that pull from someone other than the account; for items that pull the account's own tokens `Verdicts.ItemsExactly` and `Scripts.ScriptExactly` hold, which follow each balance and allowance through the pulls.
- Evm: gas metering, the stack limit of 1024 and static-call protection of storage; only the instructions that these programs use are present.
- Cryptography, and the internals of bobcat_sdk (storage cache, flush guard, lock slot, calls), which are not part of this model.
- Tokens that deviate from EIP-20, charge fees on transfers, or call back; tokens that refuse a second approval.
- Whether an EIP-2612 permit is valid, which depends on the token's own nonces and clock: it is an input.
- Events and log messages, except as the log of changes; the messages of reverts of the account code.
- The AssetsVersion request, which is unfinished in the source and modelled as failing; the clearinghouse contract; SocialVault; MassSendArbitrum.
- The Rust and Go JSON and text conversions, the GraphQL server, HTTP middleware, database access other than key rotation, alarms, and lib/convertor.
- The channel through which the rate limiter receives requests: requests come as a sequence, in the order in which the loop takes them.
- The lock of the database row while a key is handed out: picks happen one after the other.
