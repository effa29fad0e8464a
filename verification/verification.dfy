/**
  Following a verification link: the address is a single-use token that
  marks its account verified.
 */
module Verification {
  import opened Store
  import opened Accounts

  /**
    Consumes the verification `address`. The row is deleted before the
    owning account is looked up, so the token is spent even when that
    account no longer exists.
   */
  function ConsumeVerification(s: State, address: Address): (r: Outcome)
    ensures address !in s.verifications ==> r == Reject(s, 404, AddressUnknown)
    ensures address in s.verifications ==>
      && r.state.verifications == s.verifications - {address}
      && r.state.(verifications := s.verifications, accounts := s.accounts) == s
    ensures address in s.verifications && s.verifications[address] !in s.accounts ==>
      r.reply == Reply(404, AccountGone) && r.state.accounts == s.accounts
    ensures r.reply.code == 204 <==>
      address in s.verifications && s.verifications[address] in s.accounts
    ensures r.reply.code != 204 ==> r.reply.code == 404
    ensures r.reply.code == 204 ==>
      var owner := s.verifications[address];
      r.state.accounts == s.accounts[owner := s.accounts[owner].(verified := true)]
  {
    if address !in s.verifications then Reject(s, 404, AddressUnknown)
    else
      var owner := s.verifications[address];
      var s1 := s.(verifications := s.verifications - {address});
      if owner !in s1.accounts then Reject(s1, 404, AccountGone)
      else Outcome(Reply(204, Done), s1.(accounts := s1.accounts[owner := s1.accounts[owner].(verified := true)]))
  }

  /** A token works once: consuming the same address again finds nothing. */
  lemma ConsumeIsSingleUse(s: State, address: Address)
    ensures var t := ConsumeVerification(s, address).state;
      ConsumeVerification(t, address) == Reject(t, 404, AddressUnknown)
  {
  }

  /** Consumption keeps the verification table one row per account. */
  lemma ConsumeKeepsOneToken(s: State, address: Address)
    requires OneTokenPerAccount(s.verifications)
    ensures OneTokenPerAccount(ConsumeVerification(s, address).state.verifications)
  {
  }

  /** Only the owner's verified flag changes; every other account and field stays. */
  lemma ConsumeTouchesOnlyOwner(s: State, address: Address, x: Uuid)
    requires x in s.accounts
    ensures var t := ConsumeVerification(s, address).state;
      && x in t.accounts
      && t.accounts[x].(verified := s.accounts[x].verified) == s.accounts[x]
      && (t.accounts[x] != s.accounts[x] ==> s.verifications[address] == x && t.accounts[x].verified)
  {
  }

  /**
    Registration followed by a visit to the issued address leaves the new
    account verified, and the address spent.
   */
  lemma RegisterThenConsumeVerifies(s: State, body: Registration, hash: string -> string,
                                    newUuid: Uuid, draws: Draws)
    requires !EmailTaken(s, body.email) && !NameTaken(s, body.name)
    requires NewAddress(draws) !in s.verifications
    ensures var t := Register(s, true, body, hash, newUuid, draws).state;
      var r := ConsumeVerification(t, NewAddress(draws));
      && Register(s, true, body, hash, newUuid, draws).reply.code == 201
      && r.reply.code == 204
      && r.state.accounts[newUuid] == FreshAccount(body, hash).(verified := true)
      && NewAddress(draws) !in r.state.verifications
  {
  }

  /**
    After an email change the old address of the account no longer works and
    the new one re-verifies the account under its new email.
   */
  lemma EmailChangeThenConsume(s: State, u: Uuid, body: Settings, hash: string -> string,
                               draws: Draws, previous: Address)
    requires OneTokenPerAccount(s.verifications)
    requires u in s.accounts && body.email.Some? && !EmailTaken(s, body.email.value)
    requires NewAddress(draws) !in s.verifications
    requires previous in s.verifications && s.verifications[previous] == u
    ensures var t := UpdateSettings(s, u, true, body, hash, draws).state;
      && UpdateSettings(s, u, true, body, hash, draws).reply.code == 200
      && ConsumeVerification(t, previous).reply == Reply(404, AddressUnknown)
      && ConsumeVerification(t, NewAddress(draws)).reply.code == 204
      && ConsumeVerification(t, NewAddress(draws)).state.accounts[u].verified
      && ConsumeVerification(t, NewAddress(draws)).state.accounts[u].email == body.email.value
  {
  }
}
