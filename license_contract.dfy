/** The contract object itself: its administrator is fixed at construction
    and its license map is updated in place by `GrantLicense`. Each method is
    proved against the value model in `LicenseLedger`. */
module Contract {
  import opened Outcomes
  import opened LicenseLedger

  class LicenseContract {
    /** The account that may grant licenses; there is no way to change it. */
    const admin: AccountId
    /** Account to license expiry, in nanoseconds. */
    var licenses: map<AccountId, Timestamp>

    /** The contract's state as a ledger value. */
    function State(): (l: Ledger)
      reads this
    {
      Ledger(admin, licenses)
    }

    /** `new`: the given administrator and an empty license map. */
    constructor (admin: AccountId)
      ensures State() == New(admin)
    {
      this.admin := admin;
      licenses := map[];
    }

    /** `grant_license`, called by `caller` in a block with timestamp `now`.
        A rejected call leaves the map as it was; a completed one leaves the
        state the value model prescribes. */
    method GrantLicense(caller: AccountId, now: Timestamp, accountId: AccountId, durationDays: Days)
      returns (outcome: Outcome<Error>)
      modifies this
      ensures outcome.Fail? ==> licenses == old(licenses)
      ensures old(State()).GrantLicense(caller, now, accountId, durationDays)
           == (if outcome.Pass? then Ok(State()) else Err(outcome.error))
    {
      if caller != admin {
        return Fail(Unauthorized);
      }
      var currentTimestamp := now;
      var baseTimestamp := State().GetExpiry(accountId)
                                  .Filter(expiry => expiry > currentTimestamp)
                                  .UnwrapOr(currentTimestamp);
      var durationNs := durationDays * 24 * 60 * 60 * 1_000_000_000;
      var newExpiry := baseTimestamp + durationNs;
      licenses := licenses[accountId := newExpiry];
      outcome := Pass;
    }
  }

  // The contract's unit tests, as clients of the specifications above. Each
  // returns what its test observes, and its postcondition is the test's
  // expectation.

  /** A new contract licenses nobody. */
  method NewInitializesAdmin() returns (licensed: bool)
    ensures !licensed
  {
    var contract := new LicenseContract("admin.near");
    licensed := contract.State().IsLicensed("user.near", 0);
  }

  /** A 30-day grant by the admin at time 1_000_000_000. */
  method GrantLicenseByAdmin() returns (outcome: Outcome<Error>, licensed: bool, expiry: Option<Timestamp>)
    ensures outcome == Pass && licensed
    ensures expiry == Some(1_000_000_000 + 30 * ONE_DAY_NS)
    ensures expiry == Some(2_592_001_000_000_000)
  {
    var contract := new LicenseContract("admin.near");
    outcome := contract.GrantLicense("admin.near", 1_000_000_000, "user.near", 30);
    licensed := contract.State().IsLicensed("user.near", 1_000_000_000);
    expiry := contract.State().GetExpiry("user.near");
  }

  /** A grant by anyone but the admin is rejected and writes nothing. */
  method GrantLicenseUnauthorized() returns (outcome: Outcome<Error>, expiry: Option<Timestamp>)
    ensures outcome == Fail(Unauthorized)
    ensures expiry == None
  {
    var contract := new LicenseContract("admin.near");
    outcome := contract.GrantLicense("user.near", 0, "user.near", 30);
    expiry := contract.State().GetExpiry("user.near");
  }

  /** A one-day license lapses: one nanosecond past its expiry, and already
      at the expiry instant, it is no longer valid, but its expiry is still
      readable. */
  method LicenseExpiry() returns (licensedAtGrant: bool, licensedAtExpiry: bool, licensedAfter: bool, expiry: Option<Timestamp>)
    ensures licensedAtGrant && !licensedAtExpiry && !licensedAfter
    ensures expiry == Some(1_000_000_000 + ONE_DAY_NS)
  {
    var initialTime := 1_000_000_000;
    var contract := new LicenseContract("admin.near");
    var outcome := contract.GrantLicense("admin.near", initialTime, "user.near", 1);
    licensedAtGrant := contract.State().IsLicensed("user.near", initialTime);
    licensedAtExpiry := contract.State().IsLicensed("user.near", initialTime + ONE_DAY_NS);
    licensedAfter := contract.State().IsLicensed("user.near", initialTime + ONE_DAY_NS + 1);
    expiry := contract.State().GetExpiry("user.near");
  }

  /** A second 30-day grant halfway through the first extends from the first
      expiry, not from the time of the second grant. */
  method ExtendLicense() returns (firstExpiry: Option<Timestamp>, newExpiry: Option<Timestamp>, licensed: bool)
    ensures firstExpiry == Some(1_000_000_000 + 30 * ONE_DAY_NS)
    ensures newExpiry == Some(1_000_000_000 + 60 * ONE_DAY_NS)
    ensures licensed
  {
    var initialTime := 1_000_000_000;
    var contract := new LicenseContract("admin.near");
    var outcome := contract.GrantLicense("admin.near", initialTime, "user.near", 30);
    firstExpiry := contract.State().GetExpiry("user.near");
    var halfway := initialTime + 15 * ONE_DAY_NS;
    outcome := contract.GrantLicense("admin.near", halfway, "user.near", 30);
    newExpiry := contract.State().GetExpiry("user.near");
    licensed := contract.State().IsLicensed("user.near", halfway);
  }
}
