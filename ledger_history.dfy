/** A ledger over its lifetime: a sequence of `grant_license` calls applied
    one after another. A rejected call is aborted by the platform and leaves
    the state as it was. The invariants the ledger keeps across any such
    history are proved here by induction on the calls. */
module LedgerHistory {
  import opened Outcomes
  import opened LicenseLedger

  /** One `grant_license` invocation with its platform inputs. */
  datatype Call = Call(caller: AccountId, now: Timestamp, accountId: AccountId, durationDays: Days)

  /** The state after one call: the platform aborts a rejected call, so it
      changes nothing; a completed one keeps the administrator and touches no
      account but the one it names. */
  function Step(l: Ledger, c: Call): (next: Ledger)
    ensures c.caller != l.admin ==> next == l
    ensures next.admin == l.admin
    ensures forall other :: other != c.accountId ==> next.GetExpiry(other) == l.GetExpiry(other)
  {
    match l.GrantLicense(c.caller, c.now, c.accountId, c.durationDays)
    case Ok(next) => next
    case Err(_) => l
  }

  /** The state after the calls, in order. */
  function Run(l: Ledger, calls: seq<Call>): (final: Ledger)
    decreases |calls|
  {
    if calls == [] then l else Run(Step(l, calls[0]), calls[1..])
  }

  /** The administrator never changes. */
  lemma {:induction false} RunKeepsAdmin(l: Ledger, calls: seq<Call>)
    ensures Run(l, calls).admin == l.admin
    decreases |calls|
  {
    if calls != [] {
      RunKeepsAdmin(Step(l, calls[0]), calls[1..]);
    }
  }

  /** No entry is ever deleted and no expiry ever decreases. */
  lemma {:induction false} RunNeverShortens(l: Ledger, calls: seq<Call>, accountId: AccountId)
    requires accountId in l.licenses
    ensures accountId in Run(l, calls).licenses
    ensures Run(l, calls).licenses[accountId] >= l.licenses[accountId]
    decreases |calls|
  {
    if calls != [] {
      var next := Step(l, calls[0]);
      assert accountId in next.licenses && next.licenses[accountId] >= l.licenses[accountId] by {
        if calls[0].caller == l.admin && calls[0].accountId == accountId {
          GrantNeverShortens(l, calls[0].now, accountId, calls[0].durationDays);
        }
      }
      RunNeverShortens(next, calls[1..], accountId);
    }
  }

  /** A license valid up to some time stays valid up to that time, whatever
      is granted afterwards: remaining time is never lost. */
  lemma {:induction false} RunKeepsRemainingTime(l: Ledger, calls: seq<Call>, accountId: AccountId, t: Timestamp)
    requires l.IsLicensed(accountId, t)
    ensures Run(l, calls).IsLicensed(accountId, t)
  {
    RunNeverShortens(l, calls, accountId);
  }

  /** Calls from anyone but the administrator leave the ledger untouched. */
  lemma {:induction false} RunByOthersChangesNothing(l: Ledger, calls: seq<Call>)
    requires forall i :: 0 <= i < |calls| ==> calls[i].caller != l.admin
    ensures Run(l, calls) == l
  {
    if calls != [] {
      assert Step(l, calls[0]) == l;
      RunByOthersChangesNothing(l, calls[1..]);
    }
  }

  /** An account that no call of the administrator names keeps its entry,
      or its absence of one. */
  lemma {:induction false} RunLeavesOthersAlone(l: Ledger, calls: seq<Call>, accountId: AccountId)
    requires forall i :: 0 <= i < |calls| ==> calls[i].caller != l.admin || calls[i].accountId != accountId
    ensures Run(l, calls).GetExpiry(accountId) == l.GetExpiry(accountId)
    decreases |calls|
  {
    if calls != [] {
      var next := Step(l, calls[0]);
      RunLeavesOthersAlone(next, calls[1..], accountId);
    }
  }

  /** Starting from a new ledger, an account the administrator never granted
      has no entry and is never licensed. */
  lemma {:induction false} NeverGrantedHasNoEntry(admin: AccountId, calls: seq<Call>, accountId: AccountId, now: Timestamp)
    requires forall i :: 0 <= i < |calls| ==> calls[i].caller != admin || calls[i].accountId != accountId
    ensures Run(New(admin), calls).GetExpiry(accountId) == None
    ensures !Run(New(admin), calls).IsLicensed(accountId, now)
  {
    RunLeavesOthersAlone(New(admin), calls, accountId);
  }
}
