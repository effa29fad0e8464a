# Social graph, verification, auth gates and game paging — a Dafny model

This project models the part of the express-rest backend that carries real
logic: the account controller's friend-request / friendship / block state
machine, account registration and settings updates, consumption of
single-use email-verification addresses, the bearer-token middleware with its
authorization gates, and the paging of the game list.

The store is an immutable value (`Store.State`): a map of account rows, three
relationship tables as sets of uuid pairs (friendships stored once as their
sorted pair, pending requests as (sender, receiver), blocks as (blocker,
blocked)), and the verification table. Each HTTP handler is a pure function
from the store and its request parameters to a reply (status code plus the
branch that produced it) and the store after its writes. Each handler is one
sequential, atomic transition.

Modules, following the source:

- `Lex` — the order JavaScript's default `sort()` gives two strings, and the
  canonical pair `[a, b].sort()` the handlers use as a friendship key.
- `Store` — rows, the store, the relationship invariants, nullable counters,
  and saving a verification row (primary key = account, unique address).
- `Relationships` — `postNewFriendRequest`, `postAcceptRequest`,
  `deleteRequest`, `deleteFriend`, `postNewBlock`, `deleteBlock`, and the
  three list endpoints as observers.
- `RelationshipLemmas` — invariant preservation per handler and the
  relations between handlers.
- `Accounts` — `postNewAccount`, `putNewAccountSettings`,
  `randomStringCreator`.
- `Verification` — `getVerification` (and the older `postVerification`,
  which has the same logic).
- `Auth` — `verifyJWT`, `verifyAdministrator`, `verifyModerator`,
  `verifyOwner`, `verifyVerification`, and the payload `createAccessToken`
  signs.
- `Games` — `getMostRecentGame` and `getRecentGames`.
- `Machine` — all mutating handlers as one state machine; every reachable
  store is consistent.

Parameters stand in for what the code gets from outside: the result of the
Joi body validation (`valid`), password hashing (`hash`), the uuid `v4()`
returns (`newUuid`), the `Math.random` draws of `randomStringCreator` (a
sequence of 32 indices in [0, 64)), the `JWTSECRET` environment variable
(`secret`) and JWT signature checking (`verify`, an oracle returning the
decoded payload or nothing).

Behaviour of the code that the model keeps as written:

- The duplicate-block check looks up any block whose blocker is the
  requester, so after blocking one account a user cannot block anyone else
  (`RelationshipLemmas.SecondBlockByRequesterRejected`).
- The block handler finds requests to delete with a lookup keyed on the
  sender only, then deletes the exact pair; the net effect is still removing
  both directions (`Relationships.DeleteSentRequest`).
- Both account rows are loaded before any write and saved one after the
  other. A request from an account to itself is not refused; accepting it
  raises that account's counter by one, not two
  (`RelationshipLemmas.SelfAcceptCountsOnce`).
- Accepting turns a null `totalFriends` into 1; removing a friendship leaves
  a null counter null.
- `verifyVerification` reads a payload field `verification`, while the token
  the login handler signs carries `verified`; no issued token passes that gate
  (`Auth.IssuedTokenFailsVerificationGate`).
- Registration saves the account before its verification row. If the random
  address is already held by another account, the unique column makes the
  second save fail: the reply is 500 and the account stays, without a
  verification. A settings update saves the verification first, so the same
  failure there changes nothing.
- A settings update whose email equals the account's own current email is
  refused as "already in use".
- The older `src/models/orm/verification.ts` names its key column `uuid`,
  while `src/controllers/verification.ts` reads `accountUuid`; the model
  follows the schema in `app/src/models/orm/verification.ts`, where the key is
  `accountUuid`.

In the relationship handlers a conflict (an existing friendship, request or
block, `app/src/controllers/account.ts` lines 340, 361, 379 and 425) answers
400, and a missing row (an account, lines 322 and 329; a request, lines 533
and 709; a friendship, line 751; a block, line 803) answers 404.
`postAcceptRequest` loads both accounts before any write
(`app/src/controllers/account.ts:505-512`) and computes each new counter from
those loaded rows; `postNewBlock` refuses whenever the requester already has
any block row, whoever it names (`app/src/controllers/account.ts:422-425`).

The verification table is indexed by its unique `address` column
(`map<Address, Uuid>`); that the account is the primary key appears as the
invariant `Store.OneTokenPerAccount`, and saving a row for an account replaces
its old one (`Store.SaveToken`).

## Model

| member | source | states |
|---|---|---|
| Lex.SortPair | app/src/controllers/account.ts:334-336 | Sorting `[uuid, uuid2]` yields the same two uuids with the first not after the second in the string order; the given order is kept exactly when uuid2 does not sort strictly before uuid. |
| Lex.SortPairSymmetric | app/src/controllers/account.ts:541-545 | The sorted pair does not depend on which account acts, so both parties find the same friendship row. |
| Lex.LessTotal | app/src/controllers/account.ts:746-748 | Any two distinct uuids are ordered one way round, so every pair has a canonical order. |
| Lex.LessAsymmetric | app/src/controllers/account.ts:435-437 | The string order never puts two strings before each other. |
| Lex.LessIrreflexive | app/src/controllers/account.ts:334-335 | No string sorts strictly before itself. |
| Lex.SortedPairIsCanonical | app/src/models/orm/friendship.ts:7-14 | A sorted row over `{a, b}` is exactly the row the handlers look up for `{a, b}`. |
| Store.IncrementOrInit | app/src/controllers/account.ts:550-560 | The counter after an accept is set and equals the old value plus one, a null counting as zero. |
| Store.DecrementIfSet | app/src/controllers/account.ts:758-764 | A set counter drops by exactly one; a null counter stays null. |
| Store.SaveBoth | app/src/controllers/account.ts:562-563 | Writing back two pre-loaded rows changes only those two accounts; when they are the same account the second write wins. |
| Store.DropToken | app/src/models/orm/verification.ts:10-15 | Removes exactly the rows of one account and keeps every other row. |
| Store.SaveToken | app/src/models/orm/verification.ts:10-26 | Saving `(account, address)` fails exactly when another account holds the address; otherwise the account has exactly that one token, other accounts' rows are kept, and one row per account is preserved. |
| Relationships.MissingAccount | app/src/controllers/account.ts:319-331 | 404 exactly when the requester or the requested account does not exist, with the store unchanged. |
| Relationships.RequestFriendship | app/src/controllers/account.ts:312-390 | 404 when either account is missing; 201 exactly when the accounts are not friends and have no request or block either way, adding only the request (uuid, uuid2); any other outcome leaves the store unchanged. |
| Relationships.AcceptRequest | app/src/controllers/account.ts:498-566 | 201 exactly when the request uuid2 to uuid exists: it is removed, the sorted friendship is added, both counters end at their pre-call value plus one, and nothing else changes; otherwise 404 and no change. |
| Relationships.DeclineRequest | app/src/controllers/account.ts:674-716 | 204 exactly when the request uuid2 to uuid exists, removing only that row; otherwise 404 and no change. |
| Relationships.Unfriend | app/src/controllers/account.ts:745-767 | Removes only the sorted friendship row and decrements both set counters, touching no other account or table. |
| Relationships.RemoveFriend | app/src/controllers/account.ts:724-770 | 204 exactly when the sorted friendship exists, then removes it with both counter decrements; otherwise 404 and no change. |
| Relationships.DeleteSentRequest | app/src/controllers/account.ts:462-485 | The sender-keyed lookup followed by an exact-pair delete removes exactly that one request. |
| Relationships.CreateBlock | app/src/controllers/account.ts:399-490 | 400 whenever the requester already has any block; otherwise 201, adding the block, removing the requests both ways and the friendship (with counter decrements) and changing nothing else. |
| Relationships.RemoveBlock | app/src/controllers/account.ts:778-810 | 204 exactly when the block (uuid, uuid2) exists, removing only it; otherwise 404 and no change. |
| Relationships.FriendList | app/src/controllers/account.ts:114-136 | Lists exactly the friendship rows naming the account on either side; 404 exactly when there are none. |
| Relationships.PendingList | app/src/controllers/account.ts:144-169 | Lists exactly the requests the account sent or received; 404 exactly when there are none. |
| Relationships.BlockedList | app/src/controllers/account.ts:177-197 | Lists exactly the accounts this account blocked; 404 exactly when there are none. |
| RelationshipLemmas.RequestPreservesConsistency | app/src/controllers/account.ts:333-381 | A friend request keeps friendships sorted, requests uncrossed, and requests, friendships and blocks mutually exclusive. |
| RelationshipLemmas.AcceptPreservesConsistency | app/src/controllers/account.ts:537-548 | Accepting keeps the relationship tables consistent: the new friendship has no request and no block beside it. |
| RelationshipLemmas.DeclinePreservesConsistency | app/src/controllers/account.ts:695-713 | Declining keeps the relationship tables consistent. |
| RelationshipLemmas.RemoveFriendPreservesConsistency | app/src/controllers/account.ts:745-756 | Removing a friendship keeps the relationship tables consistent. |
| RelationshipLemmas.BlockPreservesConsistency | app/src/controllers/account.ts:434-488 | Blocking keeps the relationship tables consistent: no friendship or request survives beside the new block. |
| RelationshipLemmas.UnblockPreservesConsistency | app/src/controllers/account.ts:799-807 | Lifting a block keeps the relationship tables consistent. |
| RelationshipLemmas.ReverseRequestRejected | app/src/models/orm/pending_friendship.ts:7-9 | Once uuid has asked uuid2, a request from uuid2 back to uuid is refused as already pending. |
| RelationshipLemmas.RequestThenDeclineRestores | app/src/controllers/account.ts:695-715 | Declining a request just sent returns 204 and the exact store before the request. |
| RelationshipLemmas.AcceptIsSingleUse | app/src/controllers/account.ts:519-535 | A second accept of the same request answers 404 "no such request". |
| RelationshipLemmas.AcceptShowsInFriendLists | app/src/controllers/account.ts:114-169 | After an accept both accounts list the friendship and neither lists the request. |
| RelationshipLemmas.AcceptThenRemoveRestoresCounts | app/src/controllers/account.ts:550-564 | Accept then remove-friend restores the friendship table and both friend counts (null read as zero). |
| RelationshipLemmas.SelfAcceptCountsOnce | app/src/controllers/account.ts:505-563 | Accepting a self-request raises the single counter by one, since both pre-loaded copies are written back. |
| RelationshipLemmas.RemoveFriendDecrements | app/src/controllers/account.ts:758-764 | Removing a friendship lowers each set counter by exactly one and leaves null counters null. |
| RelationshipLemmas.BlockEndsFriendship | app/src/controllers/account.ts:434-460 | Blocking a friend, the account itself included, removes the friendship under either order, decrements both counters and lists the blocked account. |
| RelationshipLemmas.BlockedAccountCannotRequest | app/src/controllers/account.ts:365-381 | After uuid blocks uuid2, a request from uuid2 to uuid is refused because of the block. |
| RelationshipLemmas.SecondBlockByRequesterRejected | app/src/controllers/account.ts:421-427 | After a first block by uuid, any further block by uuid is refused with no change, whoever it targets. |
| RelationshipLemmas.UnblockRestoresNothingElse | app/src/controllers/account.ts:799-809 | Lifting a block just placed restores the block table but no friendship or request between the two. |
| Accounts.RandomString | app/src/controllers/account.ts:818-826 | The string has the requested length and its i-th symbol is the charset symbol the i-th draw picks. |
| Accounts.NewAddress | app/src/controllers/account.ts:19-21 | Every issued address has 32 symbols, each from the 64-symbol charset. |
| Accounts.SymbolIndexOfCharset | app/src/controllers/account.ts:21 | Each charset symbol decodes back to its position, so the 64 symbols are distinct. |
| Accounts.AddressDeterminesDraws | app/src/controllers/account.ts:19-21 | Distinct draw sequences give distinct addresses: an address determines the draws that made it. |
| Accounts.FreshAccount | app/src/controllers/account.ts:262-280 | A new account is unverified, has no role and all counters 0, and stores the hashed password. |
| Accounts.Register | app/src/controllers/account.ts:235-304 | 400 with no change exactly on an invalid body, a duplicate email or a duplicate name; 500 exactly when the body is accepted but the drawn address is held by another account, and then the fresh account is kept without a verification; otherwise 201, the fresh account is written and a verification with the new address becomes its only token. |
| Accounts.ApplyProfile | app/src/controllers/account.ts:633-652 | Only the name, about text and password change, each only when given. |
| Accounts.UpdateSettings | app/src/controllers/account.ts:574-666 | An email in use gives 400; a free new email gives 500 exactly when the drawn address is held by another account, else 200, replacing the account's token and setting only email and verified=false; without email an unverified account gets 403, a name in use gives 400, otherwise 204 with the profile fields applied; every failure leaves the store unchanged. |
| Accounts.OwnEmailRejected | app/src/controllers/account.ts:599-606 | Submitting the account's own current email is refused as in use. |
| Accounts.RegisterKeepsOneToken | app/src/controllers/account.ts:285-291 | Registration keeps one verification row per account. |
| Accounts.UpdateSettingsKeepsOneToken | app/src/controllers/account.ts:608-614 | An email change keeps one verification row per account. |
| Verification.ConsumeVerification | app/src/controllers/verification.ts:19-50 | Unknown address: 404, no change. Known address: the row is removed first; a missing owner gives 404 with no account changed; otherwise 204 and only the owner's verified flag becomes true. |
| Verification.ConsumeIsSingleUse | app/src/controllers/verification.ts:22-29 | Consuming the same address a second time answers 404 "not (or no longer) in use". |
| Verification.ConsumeKeepsOneToken | app/src/controllers/verification.ts:29 | Deleting the consumed row keeps one verification row per account. |
| Verification.ConsumeTouchesOnlyOwner | app/src/controllers/verification.ts:29-39 | No account other than the owner changes, and the owner changes only in its verified flag, to true. |
| Verification.RegisterThenConsumeVerifies | app/src/controllers/account.ts:285-293 | With the email and name free and the drawn address unused, registration succeeds (201), and visiting the address it issued verifies the new account and spends the address. |
| Verification.EmailChangeThenConsume | app/src/controllers/account.ts:608-622 | With the new email free and the drawn address unused, the email change succeeds (200); afterwards the previous address is dead and the new one verifies the account under its new email. |
| Auth.StartsWith | app/src/auth/auth.ts:13 | `startsWith('Bearer')` holds exactly when the header is at least as long as the prefix and agrees with it character by character; the header is then the prefix followed by the rest. |
| Auth.Split | app/src/auth/auth.ts:18 | Splitting on a space gives at least one field, no field contains a space, and joining the fields gives the header back. |
| Auth.FirstIndexOfJoin | app/src/auth/auth.ts:18 | In a joined header the first separator sits right after the first field. |
| Auth.FirstFieldDetermined | app/src/auth/auth.ts:18 | The first field and the rest of a joined header are determined by the header. |
| Auth.JoinInjective | app/src/auth/auth.ts:18 | Space-free fields are determined by their join. |
| Auth.SplitJoin | app/src/auth/auth.ts:18 | Splitting a join of space-free fields returns those fields. |
| Auth.BearerToken | app/src/auth/auth.ts:18-23 | A token exists exactly when the header contains a space; it contains no space and is the field right after the first space (the header is a space-free prefix, a space, the token, then nothing or a space and the rest). |
| Auth.SecondFieldUnique | app/src/auth/auth.ts:18 | Only one space-free string stands in that position of a header, so the field taken by `split(' ')[1]` is determined. |
| Auth.VerifyJwt | app/src/auth/auth.ts:4-40 | 401 exactly without a `Bearer` header or a non-empty second field; then 500 exactly without a secret; then 403 exactly when the oracle rejects; otherwise the next handler runs with the oracle's payload. |
| Auth.WellFormedHeaderReachesOracle | app/src/auth/auth.ts:18-35 | A header `Bearer t` with a non-empty, space-free `t` hands exactly `t` to the oracle and takes the oracle's verdict. |
| Auth.MalformedHeadersRejected | app/src/auth/auth.ts:11-23 | `Bearer`, `BearerX` and `Bearer  t` are refused with 401. |
| Auth.Role | app/src/auth/auth.ts:47 | The role the gates compare is present exactly when the payload has a numeric `type` field, and is that number. |
| Auth.VerifyAdministrator | app/src/auth/auth.ts:42-54 | Passes exactly when the role ordinal is 0, else 403. |
| Auth.VerifyModerator | app/src/auth/auth.ts:56-68 | Passes exactly when the role ordinal is 0 or 1, else 403. |
| Auth.VerifyOwner | app/src/auth/auth.ts:70-84 | Passes exactly for role 0 or 1 or a payload uuid equal to the path uuid, else 403. |
| Auth.VerifyVerification | app/src/auth/auth.ts:86-98 | Passes exactly when the payload's `verification` field is true, else 403. |
| Auth.GatesNested | app/src/auth/auth.ts:47-83 | Whatever passes the administrator gate passes the moderator gate, and that passes the owner gate for any path uuid. |
| Auth.AccessPayload | app/src/controllers/login.ts:59-65 | The signed payload has exactly the fields uuid, name, verified and type. |
| Auth.SignedPayload | app/src/controllers/login.ts:59-68 | The decoded token carries the signed fields unchanged plus iat and exp, and nothing else. |
| Auth.IssuedTokenFailsVerificationGate | app/src/auth/auth.ts:91-97 | No token built by the login handler passes the verified-email gate, whatever the account and the issue and expiry times. |
| Auth.IssuedTokenRoles | app/src/controllers/login.ts:59-68 | On issued tokens, whatever their issue and expiry times, the administrator, moderator and owner gates pass exactly for the matching account user types or the owner's own uuid. |
| Games.Skip | app/src/controllers/game.ts:30-44 | An absent (NaN) or non-positive page skips nothing; a positive page p skips 10·p rows. |
| Games.Newest | app/src/controllers/game.ts:13-20 | The chosen id is in the table and no id is larger. |
| Games.MaxExists | app/src/controllers/game.ts:13-20 | A non-empty id set has a largest element. |
| Games.Descending | app/src/controllers/game.ts:33-40 | The ordering lists each id exactly once, strictly decreasing. |
| Games.MostRecentGame | app/src/controllers/game.ts:11-27 | 404 exactly on an empty table; otherwise the one returned game is a table row with the largest id. |
| Games.WindowSize | app/src/controllers/game.ts:42-50 | A window holds at most ten rows and is short only when the order runs out. |
| Games.Window | app/src/controllers/game.ts:42-50 | The window's i-th id is the order's id at position skip + i. |
| Games.RecentGames | app/src/controllers/game.ts:29-59 | At most ten table rows in strictly descending id order, the ones at positions skip to skip + 9 of the newest-first order (skip 0 for NaN or non-positive pages, 10·page otherwise); 404 exactly when empty. |
| Games.MostRecentHeadsFirstPage | app/src/controllers/game.ts:11-40 | The newest game is the first game of the first page. |
| Games.PagesAreConsecutive | app/src/controllers/game.ts:42-50 | A non-empty page p > 0 follows a full page p − 1; its skip is ten more than that page's, and its first game is the one at that position of the newest-first order. |
| Machine.StepPreservesConsistency | app/src/controllers/account.ts:312-810 | Every mutating handler keeps the relationship tables consistent and one verification row per account. |
| Machine.RunPreservesConsistency | app/src/controllers/account.ts:312-810 | Any sequence of handlers keeps a consistent store consistent. |
| Machine.ReachableIsConsistent | app/src/models/orm/pending_friendship.ts:7-15 | Every store reachable from the empty store is consistent. |

## Left out

- Rating handlers (`postNewRating`, `putRating`, `deleteRating`) and the rating aggregates: `app/src/controllers/game.ts` does not contain them, so there is no code to model; the rating tables are schema only.
- Room endpoints: DynamoDB reads with no local logic.
- Login (`postLogin`): argon2 verification and JWT signing are library calls; only the payload it signs and the `iat`/`exp` fields the library adds are modelled (`Auth.AccessPayload`, `Auth.SignedPayload`).
- Accounts.Register, Accounts.UpdateSettings: the duplicate email and name checks compare strings exactly. The database (MariaDB, `app/src/rdbms.ts:18`) compares under its column collation, by default case-insensitively and ignoring the trailing padding of the `char` name column, so it refuses some registrations and renames (`Bob@x.io` after `bob@x.io`) that the model accepts. The same holds for uuid lookups and for verification addresses (`findOneBy({ address })` and the unique `address` column), whose charset mixes upper and lower case: Store.SaveToken accepts an address that differs only in case from one held by another account, where the database save fails, and Verification.ConsumeVerification answers 404 for a link visited in another case, where the database finds and spends the row. Accounts.AddressDeterminesDraws holds for address strings, not for addresses the database treats as equal.
- Name search (`getAccountSearchByName`): SQL `LIKE` matching.
- The single-account getters (`getPublicAccountStatistics`, `getPublicAccountShortened`, `getPersonalAccountInfo`) and the older `src/controllers/account.ts` getters: column projections with no logic.
- Joi validation: an abstract flag `valid`; a failing body gives 400 before anything else.
- Password hashing: an abstract function `hash`; the stored password is opaque.
- Timestamps (`dateGenerated`, `timeGenerated`) and the server's log output.
- Concurrency and missing transactions: each handler is one atomic step, and the un-awaited `remove`/`save` calls of the verification handler are taken to complete in order.
- Exceptions other than the unique-address collision (lost connections, column-width errors): the 500 and 400 catch branches are not modelled.
- Column widths: `totalFriends` is an unsigned `tinyint`, but the model uses unbounded integers, so DB-level underflow or overflow is not modelled.
- Cascades and `onDelete` options, and account deletion (no handler deletes accounts); accounts can still be absent, which the handlers' 404 branches cover.
- JavaScript loose equality in the gates (`"0" == 0`, `1 == true`): a role counts only when the `type` field holds a number, and the verification gate only accepts the boolean `true`.
- Non-integer pages: `Number(page)` is modelled as an integer or NaN (`None`).
- Character order: Dafny characters are Unicode scalar values while JavaScript sorts by UTF-16 code units; the two orders agree on the ASCII uuids the handlers receive.
- Newly generated uuids are not assumed fresh: a colliding `v4()` value overwrites the existing row, as TypeORM's `save` would.
- The unused `Relationship` schema and the routers.
