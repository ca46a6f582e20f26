/** The license ledger as a value: an immutable administrator and a map from
    account to license expiry, with the contract's three operations as pure
    functions of that state. The platform inputs of each call (the calling
    account and the block timestamp) are explicit parameters. */
module LicenseLedger {
  import opened Outcomes

  /** Account identifiers are opaque: the ledger only compares them. */
  type AccountId = string

  /** Nanoseconds since the epoch. Unbounded: the `u64` width is not modelled. */
  type Timestamp = nat

  /** `duration_days` is a `u32`. */
  type Days = d: nat | d < 0x1_0000_0000

  const NANOS_PER_SECOND: nat := 1_000_000_000
  const ONE_DAY_NS: nat := 24 * 60 * 60 * NANOS_PER_SECOND

  /** One past the largest `u64`. */
  const U64_LIMIT: nat := 0x1_0000_0000_0000_0000

  /** The largest duration whose length in nanoseconds is still a `u64`. */
  const MAX_EXACT_DAYS: nat := 213_503

  /** The only way a call can fail. */
  datatype Error = Unauthorized

  /** Where a grant counts from: the stored expiry while it is still in the
      future, otherwise the current block time. It is the later of the two. */
  function BaseTimestamp(stored: Option<Timestamp>, now: Timestamp): (base: Timestamp)
    ensures base >= now
    ensures stored.Some? ==> base >= stored.value
    ensures base == now || stored == Some(base)
  {
    stored.Filter(expiry => expiry > now).UnwrapOr(now)
  }

  datatype Ledger = Ledger(admin: AccountId, licenses: map<AccountId, Timestamp>) {

    /** The raw stored expiry, whether or not it has passed. */
    function GetExpiry(accountId: AccountId): (r: Option<Timestamp>)
      ensures r.Some? <==> accountId in licenses
      ensures r.Some? ==> r.value == licenses[accountId]
    {
      if accountId in licenses then Some(licenses[accountId]) else None
    }

    /** A license is valid while its expiry is strictly later than `now`. */
    function IsLicensed(accountId: AccountId, now: Timestamp): (r: bool)
      ensures r <==> accountId in licenses && licenses[accountId] > now
      ensures r ==> GetExpiry(accountId).Some?
    {
      GetExpiry(accountId).Map(expiry => expiry > now).UnwrapOr(false)
    }

    /** Only the administrator may grant. An active license is extended from
        its expiry, an expired or missing one is restarted at `now`; no other
        account and not the administrator is touched. */
    function GrantLicense(caller: AccountId, now: Timestamp, accountId: AccountId, durationDays: Days)
      : (r: Result<Ledger, Error>)
      ensures r.Err? <==> caller != admin
      ensures r.Err? ==> r.error == Unauthorized
      ensures r.Ok? ==> r.value.admin == admin
      ensures r.Ok? ==> forall other :: other != accountId ==> r.value.GetExpiry(other) == GetExpiry(other)
      ensures r.Ok? && IsLicensed(accountId, now) ==>
                r.value.GetExpiry(accountId) == Some(licenses[accountId] + durationDays * ONE_DAY_NS)
      ensures r.Ok? && !IsLicensed(accountId, now) ==>
                r.value.GetExpiry(accountId) == Some(now + durationDays * ONE_DAY_NS)
    {
      if caller != admin then
        Err(Unauthorized)
      else
        var base := BaseTimestamp(GetExpiry(accountId), now);
        var durationNs := durationDays * 24 * 60 * 60 * NANOS_PER_SECOND;
        Ok(Ledger(admin, licenses[accountId := base + durationNs]))
    }
  }

  /** A freshly constructed ledger: the given administrator and no licenses. */
  function New(admin: AccountId): (l: Ledger)
    ensures l.admin == admin
    ensures forall a :: l.GetExpiry(a) == None
    ensures forall a, now :: !l.IsLicensed(a, now)
  {
    Ledger(admin, map[])
  }

  /** A grant never moves an expiry backwards: afterwards the account's
      expiry is at least the grant time and at least what it was. */
  lemma GrantNeverShortens(l: Ledger, now: Timestamp, accountId: AccountId, durationDays: Days)
    ensures var next := l.GrantLicense(l.admin, now, accountId, durationDays).value;
            accountId in next.licenses && next.licenses[accountId] >= now &&
            (accountId in l.licenses ==> next.licenses[accountId] >= l.licenses[accountId])
  {
  }

  /** A grant of at least one day leaves the account licensed at the grant
      time, whatever its previous state. */
  lemma GrantActivates(l: Ledger, now: Timestamp, accountId: AccountId, durationDays: Days)
    requires durationDays > 0
    ensures l.GrantLicense(l.admin, now, accountId, durationDays).value.IsLicensed(accountId, now)
  {
  }

  /** For an account with no entry, the grant sets the expiry to the grant
      time plus the duration, and the account is licensed at the grant time
      exactly when the duration is positive. */
  lemma GrantToNewAccount(l: Ledger, now: Timestamp, accountId: AccountId, durationDays: Days)
    requires accountId !in l.licenses
    ensures var next := l.GrantLicense(l.admin, now, accountId, durationDays).value;
            next.GetExpiry(accountId) == Some(now + durationDays * ONE_DAY_NS) &&
            (next.IsLicensed(accountId, now) <==> durationDays > 0)
  {
  }

  /** Two grants to one account in the same block add up: they leave the
      ledger exactly as one grant of the summed duration would. */
  lemma {:induction false} GrantsInOneBlockAdd(l: Ledger, now: Timestamp, accountId: AccountId, first: Days, second: Days)
    requires first + second < 0x1_0000_0000
    ensures l.GrantLicense(l.admin, now, accountId, first).value.GrantLicense(l.admin, now, accountId, second)
         == l.GrantLicense(l.admin, now, accountId, first + second)
  {
    var mid := l.GrantLicense(l.admin, now, accountId, first).value;
    var base := BaseTimestamp(l.GetExpiry(accountId), now);
    if first > 0 {
      assert mid.IsLicensed(accountId, now);
    }
    assert (first + second) * ONE_DAY_NS == first * ONE_DAY_NS + second * ONE_DAY_NS;
    assert mid.licenses[accountId := base + (first + second) * ONE_DAY_NS]
        == l.licenses[accountId := base + (first + second) * ONE_DAY_NS];
  }

  /** The duration in nanoseconds computed by the contract is a `u64`
      exactly when the grant is at most `MAX_EXACT_DAYS` days long; beyond
      that the contract's `u64` product overflows while this model's stays
      exact. */
  lemma DurationFitsU64Iff(durationDays: Days)
    ensures durationDays * ONE_DAY_NS < U64_LIMIT <==> durationDays <= MAX_EXACT_DAYS
  {
  }

  /** Where the stored expiries, the grant time and the extended expiry are
      all `u64` values, the contract's `u64` arithmetic cannot overflow: the
      duration product and the new expiry both stay below `U64_LIMIT`, so
      this model and the contract agree. */
  lemma GrantExactInU64(l: Ledger, now: Timestamp, accountId: AccountId, durationDays: Days)
    requires durationDays <= MAX_EXACT_DAYS
    requires now + durationDays * ONE_DAY_NS < U64_LIMIT
    requires accountId in l.licenses ==> l.licenses[accountId] + durationDays * ONE_DAY_NS < U64_LIMIT
    ensures durationDays * ONE_DAY_NS < U64_LIMIT
    ensures l.GrantLicense(l.admin, now, accountId, durationDays).value.licenses[accountId] < U64_LIMIT
  {
  }
}
