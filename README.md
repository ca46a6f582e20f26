# License ledger

A model of the `LicenseContract` ledger in `contracts/license/src/lib.rs`. The
contract stores one administrator account, fixed at construction, and a map
from account id to license expiry in nanoseconds. It has three operations:

- `grant_license`: only the administrator may call it. It extends an active
  license from its current expiry. It restarts an expired or missing license
  from the current block time.
- `is_licensed`: true while the stored expiry is strictly later than the
  current block time.
- `get_expiry`: returns the raw stored expiry, or none.

The platform inputs of each call become explicit parameters. `caller` stands
for `env::predecessor_account_id()` and `now` stands for
`env::block_timestamp()`.

The project has four modules:

- `Outcomes` (`outcomes.dfy`): Rust's `Option` with `filter`, `map` and
  `unwrap_or`, and the result and outcome shapes of a call.
- `LicenseLedger` (`license_ledger.dfy`): the ledger as a value (`Ledger`). It
  holds the three operations as pure functions and the lemmas about one grant.
- `LedgerHistory` (`ledger_history.dfy`): a ledger over a sequence of
  `grant_license` calls. A rejected call is aborted by the platform and
  changes nothing. The invariants the ledger keeps across any history are
  proved by induction on the calls.
- `Contract` (`license_contract.dfy`): the contract object as a class. Its
  `const admin` cannot change, and its `licenses` map is updated in place by
  `GrantLicense`, which is proved against `LicenseLedger`. The contract's five
  unit tests are written as client methods. Each returns what its test
  observes, and its postcondition is the test's expectation.

Timestamps are modelled as unbounded `nat`; `duration_days` keeps its `u32`
range. The arithmetic is therefore exact. Where the source's `u64` product
would overflow is stated by `DurationFitsU64Iff`. `GrantExactInU64` states the
inputs for which the model and the `u64` code agree.

## Model

| member | source | states |
|---|---|---|
| `LicenseLedger.BaseTimestamp` | contracts/license/src/lib.rs:47-52 | the base of a grant is at least `now` and at least the stored expiry, and is one of the two: it is the later of them |
| `LicenseLedger.Ledger.GetExpiry` | contracts/license/src/lib.rs:75-84 | returns the stored expiry exactly when an entry exists, regardless of whether it has passed; none otherwise |
| `LicenseLedger.Ledger.IsLicensed` | contracts/license/src/lib.rs:61-73 | the Option-combinator expression is true iff an entry exists and its expiry is strictly greater than `now`; being licensed implies an entry |
| `LicenseLedger.Ledger.GrantLicense` | contracts/license/src/lib.rs:29-59 | fails with `Unauthorized` iff the caller is not the admin; on success keeps the admin, leaves every other account's entry (value and presence) unchanged, extends an active license from its old expiry and restarts an expired or missing one at `now`, by `duration_days * ONE_DAY_NS` |
| `LicenseLedger.New` | contracts/license/src/lib.rs:22-27 | a new ledger has the given admin, no entry for any account, and no account licensed at any time |
| `LicenseLedger.GrantNeverShortens` | contracts/license/src/lib.rs:48-58 | after an admin grant the account has an entry whose expiry is at least `now` and at least its previous expiry |
| `LicenseLedger.GrantActivates` | contracts/license/src/lib.rs:48-58 | a grant of at least one day leaves the account licensed at the grant time, whatever its prior state |
| `LicenseLedger.GrantToNewAccount` | contracts/license/src/lib.rs:121-133 | for an account with no entry, the expiry becomes `now + duration_days * ONE_DAY_NS`, and the account is licensed at `now` iff the duration is positive |
| `LicenseLedger.GrantsInOneBlockAdd` | contracts/license/src/lib.rs:48-56 | two admin grants to one account at the same time give the same ledger as one grant of the summed duration |
| `LicenseLedger.DurationFitsU64Iff` | contracts/license/src/lib.rs:55 | the `u64` product `duration_days * ONE_DAY_NS` fits in 64 bits iff the duration is at most 213_503 days |
| `LicenseLedger.GrantExactInU64` | contracts/license/src/lib.rs:55-56 | when the grant time and the stored expiry plus the duration are below 2^64 and the duration is at most 213_503 days, the duration product and the new expiry both fit in a `u64`, so the unbounded model agrees with the contract |
| `LedgerHistory.Step` | contracts/license/src/lib.rs:40-58 | one call: a call by anyone but the admin is aborted and leaves the ledger as it was; a completed one keeps the admin and changes no account but the one it names |
| `LedgerHistory.RunKeepsAdmin` | contracts/license/src/lib.rs:8-13 | after any sequence of grant calls the administrator is the one set at construction |
| `LedgerHistory.RunNeverShortens` | contracts/license/src/lib.rs:39-59 | across any sequence of grant calls no entry is deleted and no expiry decreases |
| `LedgerHistory.RunKeepsRemainingTime` | contracts/license/src/lib.rs:29-31 | an account licensed at time `t` is still licensed at `t` after any further grant calls: remaining time is never lost |
| `LedgerHistory.RunByOthersChangesNothing` | contracts/license/src/lib.rs:40-43 | any sequence of grant calls by non-admin callers leaves the ledger exactly as it was |
| `LedgerHistory.RunLeavesOthersAlone` | contracts/license/src/lib.rs:58 | an account that no admin call names keeps its entry, or its lack of one, across any sequence of calls |
| `LedgerHistory.NeverGrantedHasNoEntry` | contracts/license/src/lib.rs:111-119 | from a new ledger, an account the admin never granted has no expiry and is not licensed at any time |
| `Contract.LicenseContract.constructor` | contracts/license/src/lib.rs:22-27 | the new contract's state is the new ledger with the given admin |
| `Contract.NewInitializesAdmin` | contracts/license/src/lib.rs:111-119 | right after construction the user is not licensed |
| `Contract.GrantLicenseByAdmin` | contracts/license/src/lib.rs:121-133 | a 30-day grant by the admin at 1_000_000_000 passes, licenses the user, and sets the expiry to 1_000_000_000 + 30 * ONE_DAY_NS = 2_592_001_000_000_000 |
| `Contract.GrantLicenseUnauthorized` | contracts/license/src/lib.rs:135-144 | a grant by the user is rejected with `Unauthorized` and writes no entry |
| `Contract.LicenseExpiry` | contracts/license/src/lib.rs:146-166 | a one-day grant is valid at the grant time, invalid at its expiry instant and one nanosecond later, and its expiry stays readable |
| `Contract.ExtendLicense` | contracts/license/src/lib.rs:168-190 | a second 30-day grant halfway through the first extends from the first expiry, to 1_000_000_000 + 60 * ONE_DAY_NS, and the user stays licensed |
| `Contract.LicenseContract.GrantLicense` | contracts/license/src/lib.rs:39-59 | a rejected call returns `Unauthorized` and leaves the map untouched; a completed one leaves the state `LicenseLedger.Ledger.GrantLicense` prescribes; the admin is a `const` |

## Left out

- `LicenseLedger.Ledger.GrantLicense`: expiries are unbounded `nat`. The `u64` overflow at lib.rs:55-56 is not modelled, whether as wrap-around or as a panic. Any duration over 213_503 days already overflows the product (`DurationFitsU64Iff`). A large stored expiry can also overflow the sum.
- `Contract.LicenseContract.GrantLicense`: the same `u64` overflow is not modelled here either.
- NEAR SDK plumbing: the `#[near]`, `#[init]` and `PanicOnDefault` attributes, Borsh serialization and persistence. The init-once guard belongs to the platform.
- `LookupMap` internals and its storage prefix `b"l"`: the map is an abstract Dafny `map`.
- `AccountId` parsing and validation: account ids are opaque strings compared for equality.
- The panic message text: a rejected grant is modelled as the error `Unauthorized`. The platform's all-or-nothing rollback is modelled by leaving the state unchanged.
- Schema migration between key types: lib.rs contains no migration code, so none is modelled.
- The test harness (`VMContextBuilder`, `testing_env!`): its scenarios appear as the client methods in `Contract`.
