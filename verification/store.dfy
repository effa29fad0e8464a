/**
  The relational store the account controllers read and write: account rows,
  the three relationship tables and the verification table, as one immutable
  value. Every handler is a function from a store and its request parameters
  to a reply and the store after the handler's writes.
 */
module Store {
  import opened Base
  import opened Lex

  type Uuid = string
  type Address = string

  /** A row of a two-column relationship table, `(accountUuid, account2Uuid)`. */
  type Pair = (Uuid, Uuid)

  /** Privilege level; its ordinal is what tokens and gates carry. */
  datatype UserType = Admin | Moderator | NoRole {
    function Ordinal(): nat {
      match this
      case Admin => 0
      case Moderator => 1
      case NoRole => 2
    }
  }

  /**
    An account row. The password is the stored hash, treated as an opaque
    string. The three counters are nullable columns.
   */
  datatype Account = Account(
    email: string,
    name: string,
    password: string,
    about: Option<string>,
    verified: bool,
    userType: Option<UserType>,
    gamesPlayed: Option<int>,
    totalRating: Option<int>,
    totalFriends: Option<int>)

  /**
    The store. `friendships` holds each friendship once, as its sorted pair;
    `pending` holds (sender, receiver); `blocks` holds (blocker, blocked).
    `verifications` is indexed by the unique address column and maps it to
    the account the token belongs to.
   */
  datatype State = State(
    accounts: map<Uuid, Account>,
    friendships: set<Pair>,
    pending: set<Pair>,
    blocks: set<Pair>,
    verifications: map<Address, Uuid>)

  /** Which check produced a reply (the text each branch sends). */
  datatype Reason =
    | Done
    | InvalidBody
    | RequesterMissing
    | RequestedMissing
    | AlreadyFriends
    | RequestExists
    | BlockExists
    | AlreadyBlocked
    | NoSuchRequest
    | NoSuchFriendship
    | NoSuchBlock
    | EmailInUse
    | NameInUse
    | NotVerified
    | AddressUnknown
    | AccountGone
    | StoreFault

  /** An HTTP status with the branch that sent it. */
  datatype Reply = Reply(code: int, reason: Reason)

  /** What a handler answers, and the store after its writes. */
  datatype Outcome = Outcome(reply: Reply, state: State)

  /** A reply that leaves the store as it was. */
  function Reject(s: State, code: int, why: Reason): (r: Outcome)
    ensures r.state == s && r.reply.code == code
  {
    Outcome(Reply(code, why), s)
  }

  // ---------------------------------------------------------------------
  // Relationship predicates as the handlers query them

  /** The friendship row for `{u, u2}`, looked up under the sorted pair. */
  predicate AreFriends(s: State, u: Uuid, u2: Uuid) {
    SortPair(u, u2) in s.friendships
  }

  /** A pending request in either direction between `u` and `u2`. */
  predicate RequestBetween(s: State, u: Uuid, u2: Uuid) {
    (u, u2) in s.pending || (u2, u) in s.pending
  }

  /** A block in either direction between `u` and `u2`. */
  predicate BlockBetween(s: State, u: Uuid, u2: Uuid) {
    (u, u2) in s.blocks || (u2, u) in s.blocks
  }

  // ---------------------------------------------------------------------
  // The relationship invariants

  /** Every friendship row is stored in canonical (sorted) order. */
  predicate FriendshipsSorted(s: State) {
    forall f :: f in s.friendships ==> LessEq(f.0, f.1)
  }

  /** No two distinct accounts have requests pending both ways. */
  predicate NoCrossedRequests(s: State) {
    forall p :: p in s.pending && p.0 != p.1 ==> (p.1, p.0) !in s.pending
  }

  /** A pair with a pending request is not also a friendship. */
  predicate PendingNotFriends(s: State) {
    forall p :: p in s.pending ==> !AreFriends(s, p.0, p.1)
  }

  /** A pair with a pending request has no block either way. */
  predicate PendingNotBlocked(s: State) {
    forall p :: p in s.pending ==> !BlockBetween(s, p.0, p.1)
  }

  /** A friendship has no block either way. */
  predicate FriendsNotBlocked(s: State) {
    forall f :: f in s.friendships ==> !BlockBetween(s, f.0, f.1)
  }

  /** The relationship tables are mutually consistent. */
  predicate RelationshipsConsistent(s: State) {
    && FriendshipsSorted(s)
    && NoCrossedRequests(s)
    && PendingNotFriends(s)
    && PendingNotBlocked(s)
    && FriendsNotBlocked(s)
  }

  /** Each account has at most one verification row (its primary key). */
  predicate OneTokenPerAccount(v: map<Address, Uuid>) {
    forall a, b :: a in v && b in v && a != b ==> v[a] != v[b]
  }

  predicate Consistent(s: State) {
    RelationshipsConsistent(s) && OneTokenPerAccount(s.verifications)
  }

  // ---------------------------------------------------------------------
  // Counters

  /** A nullable counter read as a number, null counting as zero. */
  function Count(c: Option<int>): int {
    c.GetOr(0)
  }

  /** Accepting a friendship: a null counter becomes 1, otherwise adds 1. */
  function IncrementOrInit(c: Option<int>): (r: Option<int>)
    ensures r.Some? && r.value == Count(c) + 1
  {
    if c.None? then Some(1) else Some(c.value + 1)
  }

  /** Removing a friendship: subtract 1 from a counter that is set; null stays null. */
  function DecrementIfSet(c: Option<int>): (r: Option<int>)
    ensures r.None? <==> c.None?
    ensures c.Some? ==> r.value == c.value - 1
  {
    if c.None? then None else Some(c.value - 1)
  }

  /**
    Writes back two account rows that were both loaded before either was
    changed; when both name the same account, the second write wins.
   */
  function SaveBoth(accounts: map<Uuid, Account>, u: Uuid, a: Account, u2: Uuid, a2: Account): (m: map<Uuid, Account>)
    ensures m.Keys == accounts.Keys + {u, u2}
    ensures m[u2] == a2
    ensures u != u2 ==> m[u] == a
    ensures forall x :: x in accounts && x != u && x != u2 ==> m[x] == accounts[x]
  {
    accounts[u := a][u2 := a2]
  }

  // ---------------------------------------------------------------------
  // Verification rows

  /** The verification table without the row of account `u`. */
  function DropToken(v: map<Address, Uuid>, u: Uuid): (r: map<Address, Uuid>)
    ensures forall a :: a in r <==> a in v && v[a] != u
    ensures forall a :: a in r ==> r[a] == v[a]
  {
    map a | a in v && v[a] != u :: v[a]
  }

  /**
    Saving a verification row `(u, address)`: the primary key is the account,
    so an existing row of `u` is replaced; the address column is unique, so an
    address already held by another account makes the save fail (None).
   */
  function SaveToken(v: map<Address, Uuid>, u: Uuid, address: Address): (r: Option<map<Address, Uuid>>)
    ensures r.None? <==> address in v && v[address] != u
    ensures r.Some? ==> address in r.value && r.value[address] == u
    ensures r.Some? ==> forall a :: a in r.value && r.value[a] == u ==> a == address
    ensures r.Some? ==> forall a :: a in v && v[a] != u ==> a in r.value && r.value[a] == v[a]
    ensures r.Some? ==> forall a :: a in r.value && a != address ==> a in v && v[a] == r.value[a]
    ensures r.Some? && OneTokenPerAccount(v) ==> OneTokenPerAccount(r.value)
  {
    if address in v && v[address] != u then None
    else Some(DropToken(v, u)[address := u])
  }
}
