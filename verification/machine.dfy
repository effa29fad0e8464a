/**
  The account controller's mutating handlers as one state machine, and the
  consistency of every store they can reach.
 */
module Machine {
  import opened Store
  import opened Relationships
  import opened RelationshipLemmas
  import opened Accounts
  import opened Verification

  /** One request to a mutating handler, with what it is given. */
  datatype Op =
    | SendRequest(u: Uuid, u2: Uuid)
    | AcceptFrom(u: Uuid, u2: Uuid)
    | DeclineFrom(u: Uuid, u2: Uuid)
    | EndFriendship(u: Uuid, u2: Uuid)
    | PlaceBlock(u: Uuid, u2: Uuid)
    | LiftBlock(u: Uuid, u2: Uuid)
    | SignUp(valid: bool, body: Registration, newUuid: Uuid, draws: Draws)
    | ChangeSettings(u: Uuid, valid: bool, settings: Settings, draws: Draws)
    | VisitLink(address: Address)

  /** Runs one handler; `hash` stands for the password hashing. */
  function Apply(s: State, op: Op, hash: string -> string): Outcome {
    match op
    case SendRequest(u, u2) => RequestFriendship(s, u, u2)
    case AcceptFrom(u, u2) => AcceptRequest(s, u, u2)
    case DeclineFrom(u, u2) => DeclineRequest(s, u, u2)
    case EndFriendship(u, u2) => RemoveFriend(s, u, u2)
    case PlaceBlock(u, u2) => CreateBlock(s, u, u2)
    case LiftBlock(u, u2) => RemoveBlock(s, u, u2)
    case SignUp(valid, body, newUuid, draws) => Register(s, valid, body, hash, newUuid, draws)
    case ChangeSettings(u, valid, settings, draws) => UpdateSettings(s, u, valid, settings, hash, draws)
    case VisitLink(address) => ConsumeVerification(s, address)
  }

  /** The store after a sequence of requests, one at a time. */
  function Run(s: State, ops: seq<Op>, hash: string -> string): State
    decreases |ops|
  {
    if ops == [] then s else Run(Apply(s, ops[0], hash).state, ops[1..], hash)
  }

  /** A store with no rows. */
  const Empty: State := State(map[], {}, {}, {}, map[])

  /** Every handler keeps the store consistent. */
  lemma StepPreservesConsistency(s: State, op: Op, hash: string -> string)
    requires Consistent(s)
    ensures Consistent(Apply(s, op, hash).state)
  {
    match op
    case SendRequest(u, u2) => RequestPreservesConsistency(s, u, u2);
    case AcceptFrom(u, u2) => AcceptPreservesConsistency(s, u, u2);
    case DeclineFrom(u, u2) => DeclinePreservesConsistency(s, u, u2);
    case EndFriendship(u, u2) => RemoveFriendPreservesConsistency(s, u, u2);
    case PlaceBlock(u, u2) => BlockPreservesConsistency(s, u, u2);
    case LiftBlock(u, u2) => UnblockPreservesConsistency(s, u, u2);
    case SignUp(valid, body, newUuid, draws) => RegisterKeepsOneToken(s, valid, body, hash, newUuid, draws);
    case ChangeSettings(u, valid, settings, draws) => UpdateSettingsKeepsOneToken(s, u, valid, settings, hash, draws);
    case VisitLink(address) => ConsumeKeepsOneToken(s, address);
  }

  lemma {:induction false} RunPreservesConsistency(s: State, ops: seq<Op>, hash: string -> string)
    requires Consistent(s)
    ensures Consistent(Run(s, ops, hash))
    decreases |ops|
  {
    if ops != [] {
      StepPreservesConsistency(s, ops[0], hash);
      RunPreservesConsistency(Apply(s, ops[0], hash).state, ops[1..], hash);
    }
  }

  /** Every store reachable from the empty one is consistent. */
  lemma ReachableIsConsistent(ops: seq<Op>, hash: string -> string)
    ensures Consistent(Run(Empty, ops, hash))
  {
    RunPreservesConsistency(Empty, ops, hash);
  }
}
