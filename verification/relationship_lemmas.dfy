/**
  Properties of the relationship handlers: each keeps the relationship
  tables consistent, and the handlers relate to each other as the routes
  promise (a declined request leaves no trace, an accepted request cannot be
  accepted twice, blocks cut every other relationship).
 */
module RelationshipLemmas {
  import opened Base
  import opened Lex
  import opened Store
  import opened Relationships

  // ---------------------------------------------------------------------
  // Invariant preservation, one lemma per handler

  lemma RequestPreservesConsistency(s: State, u: Uuid, u2: Uuid)
    requires RelationshipsConsistent(s)
    ensures RelationshipsConsistent(RequestFriendship(s, u, u2).state)
  {
  }

  lemma AcceptPreservesConsistency(s: State, u: Uuid, u2: Uuid)
    requires RelationshipsConsistent(s)
    ensures RelationshipsConsistent(AcceptRequest(s, u, u2).state)
  {
  }

  lemma DeclinePreservesConsistency(s: State, u: Uuid, u2: Uuid)
    requires RelationshipsConsistent(s)
    ensures RelationshipsConsistent(DeclineRequest(s, u, u2).state)
  {
  }

  lemma RemoveFriendPreservesConsistency(s: State, u: Uuid, u2: Uuid)
    requires RelationshipsConsistent(s)
    ensures RelationshipsConsistent(RemoveFriend(s, u, u2).state)
  {
  }

  lemma BlockPreservesConsistency(s: State, u: Uuid, u2: Uuid)
    requires RelationshipsConsistent(s)
    ensures RelationshipsConsistent(CreateBlock(s, u, u2).state)
  {
    var t := CreateBlock(s, u, u2).state;
    if t != s {
      forall f | f in t.friendships
        ensures !BlockBetween(t, f.0, f.1)
      {
        if f == (u, u2) || f == (u2, u) {
          SortedPairIsCanonical(f, u, u2);
          assert false;
        }
      }
    }
  }

  lemma UnblockPreservesConsistency(s: State, u: Uuid, u2: Uuid)
    requires RelationshipsConsistent(s)
    ensures RelationshipsConsistent(RemoveBlock(s, u, u2).state)
  {
  }

  // ---------------------------------------------------------------------
  // Requests

  /** Once `u` has asked `u2`, `u2` cannot ask `u` back: the request exists. */
  lemma ReverseRequestRejected(s: State, u: Uuid, u2: Uuid)
    requires RequestFriendship(s, u, u2).reply.code == 201
    ensures RequestFriendship(RequestFriendship(s, u, u2).state, u2, u).reply == Reply(400, RequestExists)
  {
    SortPairSymmetric(u, u2);
  }

  /** Declining a request just sent restores the store exactly. */
  lemma RequestThenDeclineRestores(s: State, u: Uuid, u2: Uuid)
    requires RequestFriendship(s, u, u2).reply.code == 201
    ensures DeclineRequest(RequestFriendship(s, u, u2).state, u2, u) == Outcome(Reply(204, Done), s)
  {
    var t := RequestFriendship(s, u, u2).state;
    assert t.pending - {(u, u2)} == s.pending;
  }

  /** A request can be accepted once; a repeat finds no request. */
  lemma AcceptIsSingleUse(s: State, u: Uuid, u2: Uuid)
    requires AcceptRequest(s, u, u2).reply.code == 201
    ensures AcceptRequest(AcceptRequest(s, u, u2).state, u, u2).reply == Reply(404, NoSuchRequest)
  {
  }

  /**
    Accepting makes the two accounts friends: each sees the canonical row in
    its friend list and the request is gone from both pending lists.
   */
  lemma AcceptShowsInFriendLists(s: State, u: Uuid, u2: Uuid)
    requires NoCrossedRequests(s)
    requires AcceptRequest(s, u, u2).reply.code == 201
    ensures var t := AcceptRequest(s, u, u2).state;
      && SortPair(u, u2) in FriendList(t, u).rows
      && SortPair(u, u2) in FriendList(t, u2).rows
      && (u2, u) !in PendingList(t, u).rows
      && (u, u2) !in PendingList(t, u).rows
  {
  }

  // ---------------------------------------------------------------------
  // Counters

  /**
    Accepting then removing the friendship brings both friend counts back to
    their values before the accept (a null counter comes back as 0), and the
    friendship table back to what it was.
   */
  lemma AcceptThenRemoveRestoresCounts(s: State, u: Uuid, u2: Uuid)
    requires RelationshipsConsistent(s)
    requires AcceptRequest(s, u, u2).reply.code == 201
    ensures var t := AcceptRequest(s, u, u2).state;
      var r := RemoveFriend(t, u, u2);
      && r.reply.code == 204
      && r.state.friendships == s.friendships
      && r.state.pending == s.pending - {(u2, u)}
      && Count(r.state.accounts[u].totalFriends) == Count(s.accounts[u].totalFriends)
      && Count(r.state.accounts[u2].totalFriends) == Count(s.accounts[u2].totalFriends)
  {
    assert !AreFriends(s, u2, u);
    SortPairSymmetric(u, u2);
  }

  /**
    A self-request (`uuid == uuid2`) is not refused; accepting it loads the
    same row twice, so the second write overwrites the first and the counter
    rises by one, not two.
   */
  lemma SelfAcceptCountsOnce(s: State, u: Uuid)
    requires AcceptRequest(s, u, u).reply.code == 201
    ensures AcceptRequest(s, u, u).state.accounts[u].totalFriends == Some(Count(s.accounts[u].totalFriends) + 1)
  {
  }

  /** Removing a friendship takes one from each set counter and leaves null ones null. */
  lemma RemoveFriendDecrements(s: State, u: Uuid, u2: Uuid, x: Uuid)
    requires RemoveFriend(s, u, u2).reply.code == 204
    requires x == u || x == u2
    ensures var c := s.accounts[x].totalFriends;
      var c' := RemoveFriend(s, u, u2).state.accounts[x].totalFriends;
      && (c.None? ==> c'.None?)
      && (c.Some? ==> c' == Some(c.value - 1))
  {
  }

  // ---------------------------------------------------------------------
  // Blocks

  /** Blocking a friend ends the friendship and decrements both counters. */
  lemma BlockEndsFriendship(s: State, u: Uuid, u2: Uuid)
    requires AreFriends(s, u, u2)
    requires CreateBlock(s, u, u2).reply.code == 201
    ensures var t := CreateBlock(s, u, u2).state;
      && !AreFriends(t, u, u2)
      && !AreFriends(t, u2, u)
      && t.accounts[u].totalFriends == DecrementIfSet(s.accounts[u].totalFriends)
      && t.accounts[u2].totalFriends == DecrementIfSet(s.accounts[u2].totalFriends)
      && u2 in BlockedList(t, u).rows
  {
    SortPairSymmetric(u, u2);
  }

  /**
    After `u` blocks `u2`, a request from `u2` to `u` is refused because of
    the block (no friendship or request survives the block).
   */
  lemma BlockedAccountCannotRequest(s: State, u: Uuid, u2: Uuid)
    requires CreateBlock(s, u, u2).reply.code == 201
    ensures RequestFriendship(CreateBlock(s, u, u2).state, u2, u).reply == Reply(400, BlockExists)
  {
    SortPairSymmetric(u, u2);
  }

  /**
    The duplicate-block check looks only at the blocker: once `u` blocks
    anyone, every further block by `u` is refused, even of a third account.
   */
  lemma SecondBlockByRequesterRejected(s: State, u: Uuid, u2: Uuid, u3: Uuid)
    requires CreateBlock(s, u, u2).reply.code == 201
    requires u3 in s.accounts
    ensures CreateBlock(CreateBlock(s, u, u2).state, u, u3) ==
      Outcome(Reply(400, AlreadyBlocked), CreateBlock(s, u, u2).state)
  {
    var t := CreateBlock(s, u, u2).state;
    assert (u, u2) in t.blocks;
  }

  /**
    Lifting a block just placed restores the block table but nothing the
    block removed: no friendship or request between the two comes back.
   */
  lemma UnblockRestoresNothingElse(s: State, u: Uuid, u2: Uuid)
    requires CreateBlock(s, u, u2).reply.code == 201
    ensures var t := CreateBlock(s, u, u2).state;
      var r := RemoveBlock(t, u, u2);
      && r.reply.code == 204
      && r.state.blocks == s.blocks
      && !AreFriends(r.state, u, u2)
      && !RequestBetween(r.state, u, u2)
  {
    var t := CreateBlock(s, u, u2).state;
    assert t.blocks - {(u, u2)} == s.blocks;
  }
}
