/**
  The game listing endpoints: the newest game, and pages of ten games in
  descending `gameId` order.
 */
module Games {
  import opened Base
  import opened Store

  /** A game row: its generated id and its (nullable) owner. */
  datatype Game = Game(gameId: nat, owner: Option<Uuid>)

  /** The game table, keyed by `gameId`. */
  type Table = map<nat, Option<Uuid>>

  /** Games per page. */
  const PageSize: nat := 10

  lemma {:induction false} MaxExists(ids: set<nat>)
    requires ids != {}
    ensures exists m :: m in ids && forall x :: x in ids ==> x <= m
    decreases ids
  {
    var y :| y in ids;
    if ids != {y} {
      MaxExists(ids - {y});
      var m :| m in ids - {y} && forall x :: x in ids - {y} ==> x <= m;
      var top := if y <= m then m else y;
      forall x | x in ids
        ensures x <= top
      {
        if x != y {
          assert x in ids - {y};
        }
      }
    }
  }

  /** The largest id in a non-empty set. */
  function Newest(ids: set<nat>): (m: nat)
    requires ids != {}
    ensures m in ids && forall x :: x in ids ==> x <= m
  {
    MaxExists(ids);
    var m :| m in ids && forall x :: x in ids ==> x <= m;
    m
  }

  /** `ORDER BY gameId DESC`: the ids, newest first. */
  function Descending(ids: set<nat>): (r: seq<nat>)
    ensures |r| == |ids|
    ensures forall x :: x in ids <==> x in r
    ensures forall i, j :: 0 <= i < j < |r| ==> r[i] > r[j]
    decreases ids
  {
    if ids == {} then []
    else
      var m := Newest(ids);
      [m] + Descending(ids - {m})
  }

  /** Rows skipped for a page: pages that are absent (NaN) or not positive show the first ten. */
  function Skip(page: Option<int>): (n: nat)
    ensures page.None? || page.value <= 0 ==> n == 0
    ensures page.Some? && page.value > 0 ==> n == PageSize * page.value
  {
    if page.None? || page.value <= 0 then 0 else PageSize * page.value
  }

  /** The rows for a run of ids, in the same order. */
  function Rows(table: Table, ids: seq<nat>): (g: seq<Game>)
    requires forall i :: 0 <= i < |ids| ==> ids[i] in table
    ensures |g| == |ids|
    ensures forall i :: 0 <= i < |g| ==> g[i] == Game(ids[i], table[ids[i]])
  {
    seq(|ids|, i requires 0 <= i < |ids| => Game(ids[i], table[ids[i]]))
  }

  /** A list answer: 404 when empty, 200 otherwise. */
  datatype GameList = GameList(code: int, games: seq<Game>)

  /**
    The newest game. Returns the row with the largest id, 404 on an empty
    table.
   */
  function MostRecentGame(table: Table): (r: GameList)
    ensures r.code == 404 <==> table == map[]
    ensures r.code != 404 ==>
      && r.code == 200 && |r.games| == 1
      && r.games[0].gameId in table && r.games[0].owner == table[r.games[0].gameId]
      && forall id :: id in table ==> id <= r.games[0].gameId
  {
    if table.Keys == {} then
      assert table == map[];
      GameList(404, [])
    else
      var m := Newest(table.Keys);
      GameList(200, [Game(m, table[m])])
  }

  /** How many rows a window of `PageSize` starting at `skip` holds out of `n`. */
  function WindowSize(n: nat, skip: nat): (k: nat)
    ensures k <= PageSize
    ensures skip + k <= n || k == 0
    ensures k < PageSize ==> skip + k >= n
  {
    if skip >= n then 0
    else if n - skip < PageSize then n - skip
    else PageSize
  }

  /** A page of at most ten games: the window `[skip, skip + 10)` of the newest-first order. */
  function RecentGames(table: Table, page: Option<int>): (r: GameList)
    ensures |r.games| <= PageSize
    ensures r.code == 404 <==> r.games == []
    ensures r.code != 404 ==> r.code == 200
    ensures forall i :: 0 <= i < |r.games| ==>
      r.games[i].gameId in table && r.games[i].owner == table[r.games[i].gameId]
    ensures forall i, j :: 0 <= i < j < |r.games| ==> r.games[i].gameId > r.games[j].gameId
    ensures |r.games| == WindowSize(|table.Keys|, Skip(page))
    ensures forall i :: 0 <= i < |r.games| ==>
      Skip(page) + i < |table.Keys| && r.games[i].gameId == Descending(table.Keys)[Skip(page) + i]
  {
    var order := Descending(table.Keys);
    var ids := Window(order, Skip(page));
    assert forall i :: 0 <= i < |ids| ==> ids[i] in table.Keys;
    var games := Rows(table, ids);
    GameList(if games == [] then 404 else 200, games)
  }

  /** The at most `PageSize` entries of `order` from position `skip` on. */
  function Window(order: seq<nat>, skip: nat): (w: seq<nat>)
    ensures |w| == WindowSize(|order|, skip)
    ensures forall i :: 0 <= i < |w| ==> skip + i < |order| && w[i] == order[skip + i]
  {
    var k := WindowSize(|order|, skip);
    if k == 0 then [] else order[skip..skip + k]
  }

  /** The newest game heads the first page. */
  lemma MostRecentHeadsFirstPage(table: Table)
    requires table != map[]
    ensures RecentGames(table, None).games != []
    ensures MostRecentGame(table).games[0] == RecentGames(table, None).games[0]
  {
    assert table.Keys != {};
  }

  /** A non-empty window at `skip + PageSize` means the window at `skip` was full. */
  lemma FullBeforeNonEmpty(n: nat, skip: nat)
    requires WindowSize(n, skip + PageSize) > 0
    ensures WindowSize(n, skip) == PageSize
  {
  }

  /** A non-empty page `p > 0` means page `p - 1` was full, and page `p` starts ten positions later. */
  lemma PagesAreConsecutive(table: Table, p: int)
    requires p > 0
    requires RecentGames(table, Some(p)).games != []
    ensures |RecentGames(table, Some(p - 1)).games| == PageSize
    ensures Skip(Some(p)) == Skip(Some(p - 1)) + PageSize < |table.Keys|
    ensures RecentGames(table, Some(p)).games[0].gameId == Descending(table.Keys)[Skip(Some(p))]
  {
    var skip := Skip(Some(p - 1));
    assert Skip(Some(p)) == skip + PageSize;
    FullBeforeNonEmpty(|table.Keys|, skip);
  }
}
