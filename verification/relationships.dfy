/**
  The friend-request, friendship and block handlers of the account
  controller, each a transition `(store, uuid, uuid2) -> (reply, store')`.
  `uuid` is the account named first in the route (the actor), `uuid2` the
  other party. Both account rows are loaded before anything else; every
  counter written back is computed from those pre-state rows.
 */
module Relationships {
  import opened Base
  import opened Lex
  import opened Store

  /** Both accounts exist; otherwise the 404 the handler sends, requester first. */
  function MissingAccount(s: State, u: Uuid, u2: Uuid): (r: Option<Outcome>)
    ensures r.None? <==> u in s.accounts && u2 in s.accounts
    ensures r.Some? ==> r.value.state == s && r.value.reply.code == 404
  {
    if u !in s.accounts then Some(Reject(s, 404, RequesterMissing))
    else if u2 !in s.accounts then Some(Reject(s, 404, RequestedMissing))
    else None
  }

  /** Sends a friend request from `u` to `u2`. */
  function RequestFriendship(s: State, u: Uuid, u2: Uuid): (r: Outcome)
    ensures r.reply.code == 404 <==> u !in s.accounts || u2 !in s.accounts
    ensures r.reply.code == 201 <==>
      && u in s.accounts && u2 in s.accounts
      && !AreFriends(s, u, u2) && !RequestBetween(s, u, u2) && !BlockBetween(s, u, u2)
    ensures r.reply.code in {201, 400, 404}
    ensures r.reply.code == 201 ==>
      && (u, u2) !in s.pending
      && r.state.pending == s.pending + {(u, u2)}
      && r.state.(pending := s.pending) == s
    ensures r.reply.code != 201 ==> r.state == s
  {
    var missing := MissingAccount(s, u, u2);
    if missing.Some? then missing.value
    else if AreFriends(s, u, u2) then Reject(s, 400, AlreadyFriends)
    else if RequestBetween(s, u, u2) then Reject(s, 400, RequestExists)
    else if BlockBetween(s, u, u2) then Reject(s, 400, BlockExists)
    else Outcome(Reply(201, Done), s.(pending := s.pending + {(u, u2)}))
  }

  /** `u` accepts the request `u2` sent to it. */
  function AcceptRequest(s: State, u: Uuid, u2: Uuid): (r: Outcome)
    ensures r.reply.code == 201 <==> u in s.accounts && u2 in s.accounts && (u2, u) in s.pending
    ensures r.reply.code != 201 ==> r.reply.code == 404 && r.state == s
    ensures r.reply.code == 201 ==>
      && r.state.pending == s.pending - {(u2, u)}
      && r.state.friendships == s.friendships + {SortPair(u, u2)}
      && r.state.blocks == s.blocks
      && r.state.verifications == s.verifications
      && r.state.accounts.Keys == s.accounts.Keys
      && (forall x :: x in s.accounts && x != u && x != u2 ==> r.state.accounts[x] == s.accounts[x])
    ensures r.reply.code == 201 ==>
      && r.state.accounts[u] == s.accounts[u].(totalFriends := Some(Count(s.accounts[u].totalFriends) + 1))
      && r.state.accounts[u2] == s.accounts[u2].(totalFriends := Some(Count(s.accounts[u2].totalFriends) + 1))
  {
    var missing := MissingAccount(s, u, u2);
    if missing.Some? then missing.value
    else if (u2, u) !in s.pending then Reject(s, 404, NoSuchRequest)
    else
      var a := s.accounts[u];
      var a2 := s.accounts[u2];
      var accounts := SaveBoth(s.accounts,
        u, a.(totalFriends := IncrementOrInit(a.totalFriends)),
        u2, a2.(totalFriends := IncrementOrInit(a2.totalFriends)));
      Outcome(Reply(201, Done), s.(
        pending := s.pending - {(u2, u)},
        friendships := s.friendships + {SortPair(u, u2)},
        accounts := accounts))
  }

  /** `u` declines the request `u2` sent to it. */
  function DeclineRequest(s: State, u: Uuid, u2: Uuid): (r: Outcome)
    ensures r.reply.code == 204 <==> u in s.accounts && u2 in s.accounts && (u2, u) in s.pending
    ensures r.reply.code != 204 ==> r.reply.code == 404 && r.state == s
    ensures r.reply.code == 204 ==>
      r.state.pending == s.pending - {(u2, u)} && r.state.(pending := s.pending) == s
  {
    var missing := MissingAccount(s, u, u2);
    if missing.Some? then missing.value
    else if (u2, u) !in s.pending then Reject(s, 404, NoSuchRequest)
    else Outcome(Reply(204, Done), s.(pending := s.pending - {(u2, u)}))
  }

  /** The friendship row of `{u, u2}` removed, with both counters decremented. */
  function Unfriend(s: State, u: Uuid, u2: Uuid): (t: State)
    requires u in s.accounts && u2 in s.accounts
    ensures t.friendships == s.friendships - {SortPair(u, u2)}
    ensures t.(friendships := s.friendships, accounts := s.accounts) == s
    ensures t.accounts.Keys == s.accounts.Keys
    ensures forall x :: x in s.accounts && x != u && x != u2 ==> t.accounts[x] == s.accounts[x]
    ensures t.accounts[u] == s.accounts[u].(totalFriends := DecrementIfSet(s.accounts[u].totalFriends))
    ensures t.accounts[u2] == s.accounts[u2].(totalFriends := DecrementIfSet(s.accounts[u2].totalFriends))
  {
    var a := s.accounts[u];
    var a2 := s.accounts[u2];
    s.(friendships := s.friendships - {SortPair(u, u2)},
       accounts := SaveBoth(s.accounts,
         u, a.(totalFriends := DecrementIfSet(a.totalFriends)),
         u2, a2.(totalFriends := DecrementIfSet(a2.totalFriends))))
  }

  /** `u` ends its friendship with `u2`. */
  function RemoveFriend(s: State, u: Uuid, u2: Uuid): (r: Outcome)
    ensures r.reply.code == 204 <==> u in s.accounts && u2 in s.accounts && AreFriends(s, u, u2)
    ensures r.reply.code != 204 ==> r.reply.code == 404 && r.state == s
    ensures r.reply.code == 204 ==> r.state == Unfriend(s, u, u2)
  {
    var missing := MissingAccount(s, u, u2);
    if missing.Some? then missing.value
    else if !AreFriends(s, u, u2) then Reject(s, 404, NoSuchFriendship)
    else Outcome(Reply(204, Done), Unfriend(s, u, u2))
  }

  /**
    Deletes the request `(sender, receiver)` the way the block handler does:
    it first looks for any request whose sender is `sender`, and only when
    one exists deletes the exact pair. The net effect is the pair's removal.
   */
  function DeleteSentRequest(pending: set<Pair>, sender: Uuid, receiver: Uuid): (r: set<Pair>)
    ensures r == pending - {(sender, receiver)}
  {
    if exists p :: p in pending && p.0 == sender then pending - {(sender, receiver)}
    else pending
  }

  /**
    `u` blocks `u2`. The duplicate check looks for any block whose blocker is
    `u`, whoever it blocks.
   */
  function CreateBlock(s: State, u: Uuid, u2: Uuid): (r: Outcome)
    ensures r.reply.code == 201 <==>
      u in s.accounts && u2 in s.accounts && !(exists b :: b in s.blocks && b.0 == u)
    ensures r.reply.code == 400 <==>
      u in s.accounts && u2 in s.accounts && (exists b :: b in s.blocks && b.0 == u)
    ensures r.reply.code !in {201, 400} ==> r.reply.code == 404
    ensures r.reply.code != 201 ==> r.state == s
    ensures r.reply.code == 201 ==>
      && (u, u2) !in s.blocks
      && r.state.blocks == s.blocks + {(u, u2)}
      && r.state.pending == s.pending - {(u, u2), (u2, u)}
      && r.state.verifications == s.verifications
      && (AreFriends(s, u, u2) ==>
            r.state.(pending := s.pending, blocks := s.blocks) == Unfriend(s, u, u2))
      && (!AreFriends(s, u, u2) ==>
            r.state.(pending := s.pending, blocks := s.blocks) == s)
  {
    var missing := MissingAccount(s, u, u2);
    if missing.Some? then missing.value
    else if exists b :: b in s.blocks && b.0 == u then Reject(s, 400, AlreadyBlocked)
    else
      var s1 := if AreFriends(s, u, u2) then Unfriend(s, u, u2) else s;
      var s2 := s1.(pending := DeleteSentRequest(s1.pending, u, u2));
      var s3 := s2.(pending := DeleteSentRequest(s2.pending, u2, u));
      Outcome(Reply(201, Done), s3.(blocks := s3.blocks + {(u, u2)}))
  }

  /** `u` lifts its block on `u2`. */
  function RemoveBlock(s: State, u: Uuid, u2: Uuid): (r: Outcome)
    ensures r.reply.code == 204 <==> u in s.accounts && u2 in s.accounts && (u, u2) in s.blocks
    ensures r.reply.code != 204 ==> r.reply.code == 404 && r.state == s
    ensures r.reply.code == 204 ==>
      r.state.blocks == s.blocks - {(u, u2)} && r.state.(blocks := s.blocks) == s
  {
    var missing := MissingAccount(s, u, u2);
    if missing.Some? then missing.value
    else if (u, u2) !in s.blocks then Reject(s, 404, NoSuchBlock)
    else Outcome(Reply(204, Done), s.(blocks := s.blocks - {(u, u2)}))
  }

  // ---------------------------------------------------------------------
  // Read-only list endpoints

  /** A list endpoint's answer: 404 when nothing matches, else 200 with the rows. */
  datatype Listing<T> = Listing(code: int, rows: set<T>)

  function ListOf<T>(rows: set<T>): (l: Listing<T>)
    ensures l.rows == rows
    ensures l.code == 404 <==> rows == {}
    ensures l.code != 404 ==> l.code == 200
  {
    Listing(if rows == {} then 404 else 200, rows)
  }

  /** The friendship rows that mention `u` on either side. */
  function FriendList(s: State, u: Uuid): (l: Listing<Pair>)
    ensures forall f :: f in l.rows <==> f in s.friendships && (f.0 == u || f.1 == u)
    ensures l.code == 404 <==> l.rows == {}
  {
    ListOf(set f | f in s.friendships && (f.0 == u || f.1 == u))
  }

  /** The pending requests `u` sent or received. */
  function PendingList(s: State, u: Uuid): (l: Listing<Pair>)
    ensures forall p :: p in l.rows <==> p in s.pending && (p.0 == u || p.1 == u)
    ensures l.code == 404 <==> l.rows == {}
  {
    ListOf(set p | p in s.pending && (p.0 == u || p.1 == u))
  }

  /** The accounts `u` has blocked. */
  function BlockedList(s: State, u: Uuid): (l: Listing<Uuid>)
    ensures forall x :: x in l.rows <==> (u, x) in s.blocks
    ensures l.code == 404 <==> l.rows == {}
  {
    ListOf(set b | b in s.blocks && b.0 == u :: b.1)
  }
}
