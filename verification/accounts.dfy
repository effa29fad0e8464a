/**
  Account registration and the settings update, and the random verification
  addresses both of them issue.
 */
module Accounts {
  import opened Base
  import opened Store

  /** `n` consecutive characters starting at `first`. */
  function CharRun(first: char, n: nat): (r: string)
    requires first as int + n <= 0x80
    ensures |r| == n
    ensures forall i :: 0 <= i < n ==> r[i] == (first as int + i) as char
  {
    seq(n, i requires 0 <= i < n => (first as int + i) as char)
  }

  /**
    The 64 symbols verification addresses are drawn from, in order: the
    lower-case letters, the upper-case letters, the digits, `-` and `_`.
   */
  const Charset: string := CharRun('a', 26) + CharRun('A', 26) + CharRun('0', 10) + ['-', '_']

  /** Length of every verification address. */
  const AddressLength: nat := 32

  /** One random draw: a position in `Charset`. */
  type SymbolIndex = i: int | 0 <= i < 64

  /** The random draws for one address. */
  type Draws = d: seq<SymbolIndex> | |d| == AddressLength witness seq(AddressLength, i => 0)

  /**
    The string of `length` symbols picked by the first `length` draws, one
    symbol appended per draw (randomness is supplied as the draws).
   */
  function RandomString(length: nat, draws: seq<SymbolIndex>): (s: string)
    requires length <= |draws|
    ensures |s| == length
    ensures forall i :: 0 <= i < length ==> s[i] == Charset[draws[i]]
    decreases length
  {
    if length == 0 then ""
    else RandomString(length - 1, draws) + [Charset[draws[length - 1]]]
  }

  /** The address a handler issues for the given draws. */
  function NewAddress(draws: Draws): (a: Address)
    ensures |a| == AddressLength
    ensures forall i :: 0 <= i < |a| ==> a[i] in Charset
  {
    RandomString(AddressLength, draws)
  }

  /** The position of a symbol in `Charset`, for decoding an address. */
  function SymbolIndexOf(c: char): (i: int)
  {
    if 'a' <= c <= 'z' then c as int - 'a' as int
    else if 'A' <= c <= 'Z' then 26 + (c as int - 'A' as int)
    else if '0' <= c <= '9' then 52 + (c as int - '0' as int)
    else if c == '-' then 62
    else if c == '_' then 63
    else -1
  }

  /** Each symbol's position decodes back to that position. */
  lemma SymbolIndexOfCharset(i: SymbolIndex)
    ensures SymbolIndexOf(Charset[i]) == i
  {
  }

  /** An address determines the draws that made it: distinct draws give distinct addresses. */
  lemma {:induction false} AddressDeterminesDraws(d: Draws, d2: Draws)
    ensures d != d2 ==> NewAddress(d) != NewAddress(d2)
  {
    if NewAddress(d) == NewAddress(d2) {
      var a := NewAddress(d);
      forall i | 0 <= i < AddressLength
        ensures d[i] == d2[i]
      {
        SymbolIndexOfCharset(d[i]);
        SymbolIndexOfCharset(d2[i]);
        assert a[i] == Charset[d[i]] == Charset[d2[i]];
      }
    }
  }

  // ---------------------------------------------------------------------
  // Registration

  /** The fields a registration body carries (after validation). */
  datatype Registration = Registration(email: string, name: string, password: string)

  /** Some account already uses this email. */
  predicate EmailTaken(s: State, email: string) {
    exists x :: x in s.accounts && s.accounts[x].email == email
  }

  /** Some account already uses this name. */
  predicate NameTaken(s: State, name: string) {
    exists x :: x in s.accounts && s.accounts[x].name == name
  }

  /** A fresh account: unverified, no role, every counter zero. */
  function FreshAccount(body: Registration, hash: string -> string): (a: Account)
    ensures a.email == body.email && a.name == body.name && a.password == hash(body.password)
    ensures !a.verified && a.userType == Some(NoRole) && a.about.None?
    ensures a.gamesPlayed == Some(0) && a.totalRating == Some(0) && a.totalFriends == Some(0)
  {
    Account(body.email, body.name, hash(body.password), None, false, Some(NoRole), Some(0), Some(0), Some(0))
  }

  /**
    Registers an account under `newUuid` and issues its verification
    address. `valid` is the outcome of the body's shape validation; `hash`
    stands for the password hashing. The account row is written before the
    verification row: if the address is already held by another account the
    second write fails with 500 and the account stays.
   */
  function Register(s: State, valid: bool, body: Registration, hash: string -> string,
                    newUuid: Uuid, draws: Draws): (r: Outcome)
    ensures !valid ==> r == Reject(s, 400, InvalidBody)
    ensures valid && EmailTaken(s, body.email) ==> r == Reject(s, 400, EmailInUse)
    ensures valid && !EmailTaken(s, body.email) && NameTaken(s, body.name) ==> r == Reject(s, 400, NameInUse)
    ensures r.reply.code in {201, 400, 500}
    ensures r.reply.code == 400 <==> !valid || EmailTaken(s, body.email) || NameTaken(s, body.name)
    ensures r.reply.code == 500 <==>
      && valid && !EmailTaken(s, body.email) && !NameTaken(s, body.name)
      && SaveToken(s.verifications, newUuid, NewAddress(draws)).None?
    ensures r.reply.code == 400 ==> r.state == s
    ensures r.reply.code != 400 ==>
      && r.state.accounts == s.accounts[newUuid := FreshAccount(body, hash)]
      && r.state.(accounts := s.accounts, verifications := s.verifications) == s
    ensures r.reply.code == 500 ==> r.state.verifications == s.verifications
    ensures r.reply.code == 201 ==>
      && r.state.verifications == SaveToken(s.verifications, newUuid, NewAddress(draws)).value
      && NewAddress(draws) in r.state.verifications
      && r.state.verifications[NewAddress(draws)] == newUuid
      && (forall a :: a in r.state.verifications && r.state.verifications[a] == newUuid ==> a == NewAddress(draws))
      && (forall a :: a in s.verifications && s.verifications[a] != newUuid ==>
            a in r.state.verifications && r.state.verifications[a] == s.verifications[a])
  {
    if !valid then Reject(s, 400, InvalidBody)
    else if EmailTaken(s, body.email) then Reject(s, 400, EmailInUse)
    else if NameTaken(s, body.name) then Reject(s, 400, NameInUse)
    else
      var s1 := s.(accounts := s.accounts[newUuid := FreshAccount(body, hash)]);
      var v := SaveToken(s1.verifications, newUuid, NewAddress(draws));
      if v.None? then Outcome(Reply(500, StoreFault), s1)
      else Outcome(Reply(201, Done), s1.(verifications := v.value))
  }

  // ---------------------------------------------------------------------
  // Settings

  /** The optional fields of a settings body (after validation). */
  datatype Settings = Settings(email: Option<string>, name: Option<string>,
                               about: Option<string>, password: Option<string>)

  /** The account with the given name, about text and password applied. */
  function ApplyProfile(a: Account, body: Settings, hash: string -> string): (a': Account)
    ensures a'.(name := a.name, about := a.about, password := a.password) == a
    ensures a'.name == body.name.GetOr(a.name)
    ensures a'.about == if body.about.Some? then body.about else a.about
    ensures body.password.Some? ==> a'.password == hash(body.password.value)
    ensures body.password.None? ==> a'.password == a.password
  {
    a.(name := body.name.GetOr(a.name),
       about := if body.about.Some? then body.about else a.about,
       password := if body.password.Some? then hash(body.password.value) else a.password)
  }

  /**
    Updates the settings of account `u`. A new email is handled alone: it
    issues a fresh verification for the account, sets the email, marks the
    account unverified and ignores every other field. Without an email, an
    unverified account may change nothing; a verified one may change name
    (unique), about text and password.
   */
  function UpdateSettings(s: State, u: Uuid, valid: bool, body: Settings, hash: string -> string,
                          draws: Draws): (r: Outcome)
    ensures !valid ==> r == Reject(s, 400, InvalidBody)
    ensures valid && u !in s.accounts ==> r == Reject(s, 404, RequesterMissing)
    ensures r.reply.code in {200, 204, 400, 403, 404, 500}
    ensures r.reply.code !in {200, 204} ==> r.state == s
    ensures valid && u in s.accounts && body.email.Some? && EmailTaken(s, body.email.value) ==>
      r == Reject(s, 400, EmailInUse)
    ensures r.reply.code == 200 <==>
      && valid && u in s.accounts && body.email.Some? && !EmailTaken(s, body.email.value)
      && SaveToken(s.verifications, u, NewAddress(draws)).Some?
    ensures r.reply.code == 200 ==>
      && r.state.accounts == s.accounts[u := s.accounts[u].(email := body.email.value, verified := false)]
      && r.state.verifications == SaveToken(s.verifications, u, NewAddress(draws)).value
      && r.state.(accounts := s.accounts, verifications := s.verifications) == s
    ensures r.reply.code == 500 <==>
      && valid && u in s.accounts && body.email.Some? && !EmailTaken(s, body.email.value)
      && SaveToken(s.verifications, u, NewAddress(draws)).None?
    ensures valid && u in s.accounts && body.email.None? && !s.accounts[u].verified ==>
      r == Reject(s, 403, NotVerified)
    ensures (valid && u in s.accounts && body.email.None? && s.accounts[u].verified
             && body.name.Some? && NameTaken(s, body.name.value)) ==>
      r == Reject(s, 400, NameInUse)
    ensures r.reply.code == 204 <==>
      && valid && u in s.accounts && body.email.None? && s.accounts[u].verified
      && !(body.name.Some? && NameTaken(s, body.name.value))
    ensures r.reply.code == 204 ==>
      r.state == s.(accounts := s.accounts[u := ApplyProfile(s.accounts[u], body, hash)])
  {
    if !valid then Reject(s, 400, InvalidBody)
    else if u !in s.accounts then Reject(s, 404, RequesterMissing)
    else
      var a := s.accounts[u];
      if body.email.Some? then
        if EmailTaken(s, body.email.value) then Reject(s, 400, EmailInUse)
        else
          var v := SaveToken(s.verifications, u, NewAddress(draws));
          if v.None? then Reject(s, 500, StoreFault)
          else Outcome(Reply(200, Done), s.(
            verifications := v.value,
            accounts := s.accounts[u := a.(email := body.email.value, verified := false)]))
      else if !a.verified then Reject(s, 403, NotVerified)
      else if body.name.Some? && NameTaken(s, body.name.value) then Reject(s, 400, NameInUse)
      else Outcome(Reply(204, Done), s.(accounts := s.accounts[u := ApplyProfile(a, body, hash)]))
  }

  /** Re-submitting the account's own current email is refused as in use. */
  lemma OwnEmailRejected(s: State, u: Uuid, body: Settings, hash: string -> string, draws: Draws)
    requires u in s.accounts
    requires body.email == Some(s.accounts[u].email)
    ensures UpdateSettings(s, u, true, body, hash, draws) == Reject(s, 400, EmailInUse)
  {
  }

  /** Registration and settings updates leave the verification table one row per account. */
  lemma RegisterKeepsOneToken(s: State, valid: bool, body: Registration, hash: string -> string,
                              newUuid: Uuid, draws: Draws)
    requires OneTokenPerAccount(s.verifications)
    ensures OneTokenPerAccount(Register(s, valid, body, hash, newUuid, draws).state.verifications)
  {
  }

  lemma UpdateSettingsKeepsOneToken(s: State, u: Uuid, valid: bool, body: Settings,
                                    hash: string -> string, draws: Draws)
    requires OneTokenPerAccount(s.verifications)
    ensures OneTokenPerAccount(UpdateSettings(s, u, valid, body, hash, draws).state.verifications)
  {
  }
}
