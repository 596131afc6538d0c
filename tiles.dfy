/** The per-resolution tile-grid cache and the fetch orchestration behind it. A
    resolution change runs an effect that serves a cached grid, or issues one
    fetch at level 0, or one fetch per cell of a 2L x 2L grid at level L > 0.
    The batch completes later; its grid is published and cached only if every
    fetch succeeded and the batch was not made stale by a later resolution
    change. The source's captured `stale` flag is a generation counter here:
    the effect's cleanup bumps it and a completion compares against it. */
module Tiles {

  /** A tile address: row i, column j, resolution level z. */
  datatype Coord = Coord(row: int, col: int, level: int)

  /** How a tile request fails: HTTP 404, HTTP 403, anything else. */
  datatype FetchError = NotFound | BadToken | Unhandled

  datatype TileResult = Ok(url: string) | Failed(error: FetchError)

  /** The tile server, as an oracle: what a request for a coordinate yields. */
  type Fetcher = Coord -> TileResult

  type Grid = seq<seq<string>>

  const NotFoundStatus: int := 404
  const BadTokenStatus: int := 403

  /** The outcome of one tile request from its HTTP response: a tile handle when
      the response is ok, otherwise the status classified. */
  function ResponseOutcome(ok: bool, status: int, handle: string): (r: TileResult)
    ensures r.Ok? <==> ok
    ensures r.Ok? ==> r.url == handle
    ensures r == Failed(NotFound) <==> !ok && status == NotFoundStatus
    ensures r == Failed(BadToken) <==> !ok && status == BadTokenStatus
  {
    if ok then Ok(handle)
    else if status == NotFoundStatus then Failed(NotFound)
    else if status == BadTokenStatus then Failed(BadToken)
    else Failed(Unhandled)
  }

  /** The side of the square grid at a level: 1 at level 0, 2L at level L > 0. */
  function Dim(level: nat): (n: nat)
    ensures level == 0 ==> n == 1
    ensures level > 0 ==> n == 2 * level
  {
    if level == 0 then 1 else 2 * level
  }

  predicate InGrid(c: Coord, level: nat)
  {
    c.level == level && 0 <= c.row < Dim(level) && 0 <= c.col < Dim(level)
  }

  /** The requests of one row of the construction loop, in issue order. */
  function RowCalls(level: nat, row: nat, n: nat): seq<Coord>
  {
    seq(n, j => Coord(row, j, level))
  }

  /** The requests of the first `rows` rows of the construction loop. */
  function RowsCalls(level: nat, rows: nat, n: nat): seq<Coord>
  {
    if rows == 0 then [] else RowsCalls(level, rows - 1, n) + RowCalls(level, rows - 1, n)
  }

  /** The requests an effect run issues for a level that is not cached. */
  function Calls(level: nat): seq<Coord>
  {
    if level == 0 then [Coord(0, 0, 0)] else RowsCalls(level, Dim(level), Dim(level))
  }

  predicate Distinct(s: seq<Coord>)
  {
    forall k1, k2 :: 0 <= k1 < k2 < |s| ==> s[k1] != s[k2]
  }

  lemma {:induction false} RowsCallsShape(level: nat, rows: nat, n: nat)
    ensures |RowsCalls(level, rows, n)| == rows * n
    ensures forall c :: c in RowsCalls(level, rows, n) <==>
                          c.level == level && 0 <= c.row < rows && 0 <= c.col < n
    ensures Distinct(RowsCalls(level, rows, n))
  {
    if rows > 0 {
      RowsCallsShape(level, rows - 1, n);
      var prefix, last := RowsCalls(level, rows - 1, n), RowCalls(level, rows - 1, n);
      assert RowsCalls(level, rows, n) == prefix + last;
      assert forall c :: c in last <==> c.level == level && c.row == rows - 1 && 0 <= c.col < n by {
        forall c: Coord | c.level == level && c.row == rows - 1 && 0 <= c.col < n
          ensures c in last
        {
          assert last[c.col] == c;
        }
      }
      forall k1, k2 | 0 <= k1 < k2 < |prefix + last|
        ensures (prefix + last)[k1] != (prefix + last)[k2]
      {
        if k2 < |prefix| {
        } else if k1 < |prefix| {
          assert prefix[k1] in prefix;
        } else {
          assert (prefix + last)[k1] == last[k1 - |prefix|];
          assert (prefix + last)[k2] == last[k2 - |prefix|];
        }
      }
    }
  }

  /** The effect issues exactly one request per cell of the level's grid:
      Dim(level)^2 requests, pairwise distinct, whose set is exactly the grid's
      addresses at that level. */
  lemma CallsCoverGrid(level: nat)
    ensures |Calls(level)| == Dim(level) * Dim(level)
    ensures forall c :: c in Calls(level) <==> InGrid(c, level)
    ensures Distinct(Calls(level))
  {
    if level > 0 {
      RowsCallsShape(level, Dim(level), Dim(level));
    }
  }

  /** What a cell of a completed batch holds: the handle, or still "" when the
      request failed. */
  function CellValue(r: TileResult): string
  {
    if r.Ok? then r.url else ""
  }

  /** The grid the responses of the oracle fill in at a level. */
  function TileGrid(level: nat, fetch: Fetcher): (g: Grid)
    ensures IsSquare(g, Dim(level))
    ensures forall i, j :: 0 <= i < Dim(level) && 0 <= j < Dim(level) ==>
              g[i][j] == CellValue(fetch(Coord(i, j, level)))
  {
    seq(Dim(level), i => seq(Dim(level), j => CellValue(fetch(Coord(i, j, level)))))
  }

  predicate IsSquare(g: Grid, n: nat)
  {
    |g| == n && forall i :: 0 <= i < n ==> |g[i]| == n
  }

  /** Two square grids of the same side with the same cells are the same grid. */
  lemma SquareGridsEqual(g: Grid, h: Grid, n: nat)
    requires IsSquare(g, n) && IsSquare(h, n)
    requires forall i, j :: 0 <= i < n && 0 <= j < n ==> g[i][j] == h[i][j]
    ensures g == h
  {
    forall i | 0 <= i < n ensures g[i] == h[i] {
      assert forall j :: 0 <= j < n ==> g[i][j] == h[i][j];
    }
  }

  predicate AllOk(calls: seq<Coord>, fetch: Fetcher)
  {
    forall k :: 0 <= k < |calls| ==> fetch(calls[k]).Ok?
  }

  /** Every request of a level's batch succeeds exactly when every cell of the
      level's grid gets a handle. */
  lemma AllOkIffEveryCell(level: nat, fetch: Fetcher)
    ensures AllOk(Calls(level), fetch) <==> forall c :: InGrid(c, level) ==> fetch(c).Ok?
  {
    CallsCoverGrid(level);
    var calls := Calls(level);
    if AllOk(calls, fetch) {
      forall c | InGrid(c, level) ensures fetch(c).Ok? {
        assert c in calls;
        var k :| 0 <= k < |calls| && calls[k] == c;
      }
    }
  }

  /** One in-flight fetch batch: the level and generation it was issued at, the
      requests it issued, and the grid its responses are written into. */
  datatype Batch = Batch(level: nat, generation: nat, calls: seq<Coord>, cells: array2<string>)

  datatype Issue = NoFetch | Fetch(batch: Batch)

  /** A batch as the effect leaves it: one request per cell, a grid of the level's
      size, every cell still "". */
  ghost predicate Pending(b: Batch)
    reads b.cells
  {
    b.calls == Calls(b.level) &&
    b.cells.Length0 == Dim(b.level) && b.cells.Length1 == Dim(b.level) &&
    forall i, j :: 0 <= i < b.cells.Length0 && 0 <= j < b.cells.Length1 ==> b.cells[i, j] == ""
  }

  class GridController {
    /** The grid published to the presenter. */
    var grid: Grid
    /** Completed grids per level; an absent key is a level never completed. */
    var cache: map<nat, Grid>
    /** True until the level-0 grid has been published. */
    var loading: bool
    /** Bumped by the cleanup of an effect run; a batch is stale once it moved on. */
    var generation: nat
    /** Whether the last effect run returned a cleanup (only the 2L x 2L path does). */
    var armed: bool
    /** The level whose cached grid is the published one. */
    ghost var shown: nat

    ghost predicate Valid()
      reads this
    {
      (forall l :: l in cache ==> IsSquare(cache[l], Dim(l))) &&
      (grid == [] || (shown in cache && cache[shown] == grid)) &&
      (!loading ==> 0 in cache)
    }

    constructor ()
      ensures Valid()
      ensures grid == [] && cache == map[] && loading && generation == 0 && !armed
    {
      grid := [];
      cache := map[];
      loading := true;
      generation := 0;
      armed := false;
      shown := 0;
    }

    /** What one run of the effect on a resolution change does to the
        controller, with the previous run's cleanup first: the generation grows
        by one exactly when that run returned a cleanup; the cache and loading
        are unchanged; a cached level is published with no request; an uncached
        level keeps the published grid and yields a fresh all-"" grid of its
        size with exactly the requests of `Calls(level)`, tagged with the current
        generation; only the level > 0 path returns a cleanup. */
    twostate predicate EffectRan(level: nat, new issued: Issue)
      reads this, if issued.Fetch? then {issued.batch.cells} else {}
    {
      generation == old(generation) + (if old(armed) then 1 else 0) &&
      cache == old(cache) && loading == old(loading) &&
      (armed <==> issued.Fetch? && level > 0) &&
      (level in cache ==> issued == NoFetch && grid == cache[level]) &&
      (level !in cache ==>
         grid == old(grid) &&
         match issued
         case NoFetch => false
         case Fetch(b) =>
           fresh(b.cells) && b.level == level && b.generation == generation && Pending(b))
    }

    /** The effect run on a resolution change, preceded by the previous run's
        cleanup: a cached level is served with no request; otherwise the
        level's requests are issued and an empty grid is allocated for them. */
    method RunEffect(level: nat) returns (issued: Issue)
      requires Valid()
      modifies this
      ensures Valid() && EffectRan(level, issued)
    {
      if armed {
        generation := generation + 1;
        armed := false;
      }
      if level in cache {
        grid := cache[level];
        shown := level;
        return NoFetch;
      }
      var n := Dim(level);
      var cells := new string[n, n]((i, j) => "");
      if level == 0 {
        return Fetch(Batch(0, generation, [Coord(0, 0, 0)], cells));
      }
      var calls: seq<Coord> := [];
      for i := 0 to n
        invariant calls == RowsCalls(level, i, n)
      {
        for j := 0 to n
          invariant calls == RowsCalls(level, i, n) + RowCalls(level, i, n)[..j]
        {
          assert RowCalls(level, i, n)[..j + 1] == RowCalls(level, i, n)[..j] + [Coord(i, j, level)];
          calls := calls + [Coord(i, j, level)];
        }
        assert RowCalls(level, i, n)[..n] == RowCalls(level, i, n);
      }
      armed := true;
      issued := Fetch(Batch(level, generation, calls, cells));
    }

    /** The cleanup on unmount: the last batch, if one is guarded, becomes stale. */
    method Unmount()
      requires Valid()
      modifies this
      ensures Valid()
      ensures generation == old(generation) + (if old(armed) then 1 else 0) && !armed
      ensures grid == old(grid) && cache == old(cache) && loading == old(loading)
    {
      if armed {
        generation := generation + 1;
        armed := false;
      }
    }

    /** The completion of a batch once every response has arrived: the grid is
        published and cached at the batch's level only if no request failed and
        the batch is not stale (a level-0 batch has no cleanup, so it is never
        stale). Publishing the level-0 grid ends the loading state. */
    method Complete(b: Batch, fetch: Fetcher)
      requires Valid() && Pending(b)
      modifies this, b.cells
      ensures Valid()
      ensures generation == old(generation) && armed == old(armed)
      ensures forall i, j :: 0 <= i < Dim(b.level) && 0 <= j < Dim(b.level) ==>
                b.cells[i, j] == CellValue(fetch(Coord(i, j, b.level)))
      ensures (b.level == 0 || b.generation == old(generation)) && AllOk(b.calls, fetch) ==>
                grid == TileGrid(b.level, fetch) && cache == old(cache)[b.level := grid] &&
                loading == (old(loading) && b.level != 0)
      ensures !((b.level == 0 || b.generation == old(generation)) && AllOk(b.calls, fetch)) ==>
                grid == old(grid) && cache == old(cache) && loading == old(loading)
    {
      var failed := ReceiveResponses(b, fetch);
      if !failed && (b.level == 0 || b.generation == generation) {
        var published := Snapshot(b.cells);
        SquareGridsEqual(published, TileGrid(b.level, fetch), Dim(b.level));
        grid := published;
        cache := cache[b.level := published];
        shown := b.level;
        if b.level == 0 {
          loading := false;
        }
      }
    }
  }

  /** The responses of a batch arriving, in issue order: each successful response
      is written only into its own cell, a failed one leaves its cell "", and the
      batch has failed as soon as one response failed. */
  method ReceiveResponses(b: Batch, fetch: Fetcher) returns (failed: bool)
    requires Pending(b)
    modifies b.cells
    ensures failed <==> !AllOk(b.calls, fetch)
    ensures forall i, j :: 0 <= i < Dim(b.level) && 0 <= j < Dim(b.level) ==>
              b.cells[i, j] == CellValue(fetch(Coord(i, j, b.level)))
  {
    var n := Dim(b.level);
    CallsCoverGrid(b.level);
    failed := false;
    for k := 0 to |b.calls|
      invariant failed <==> exists m :: 0 <= m < k && fetch(b.calls[m]).Failed?
      invariant forall i, j :: 0 <= i < n && 0 <= j < n ==>
                  b.cells[i, j] == (if Coord(i, j, b.level) in b.calls[..k]
                                    then CellValue(fetch(Coord(i, j, b.level))) else "")
    {
      var c := b.calls[k];
      assert InGrid(c, b.level) by { assert c in b.calls; }
      assert b.calls[..k + 1] == b.calls[..k] + [c];
      match fetch(c) {
        case Ok(url) => b.cells[c.row, c.col] := url;
        case Failed(_) => failed := true;
      }
    }
    assert b.calls[..|b.calls|] == b.calls;
  }

  /** The rows of a two-dimensional grid, as the presenter receives them. */
  function Snapshot(a: array2<string>): (g: Grid)
    reads a
    ensures |g| == a.Length0
    ensures forall i, j :: 0 <= i < a.Length0 && 0 <= j < a.Length1 ==> |g[i]| == a.Length1 && g[i][j] == a[i, j]
  {
    seq(a.Length0, i requires 0 <= i < a.Length0 reads a =>
          seq(a.Length1, j requires 0 <= j < a.Length1 reads a => a[i, j]))
  }

  /** Leaving a completed level and coming back serves the cached grid: the second
      visit issues no request and shows exactly the grid the first one fetched. */
  method RevisitServesCache(level: nat, other: nat, fetch: Fetcher) returns (second: Issue, shownGrid: Grid)
    requires level != other && AllOk(Calls(level), fetch)
    ensures second == NoFetch
    ensures shownGrid == TileGrid(level, fetch)
  {
    var tiles := new GridController();
    var first := tiles.RunEffect(level);
    tiles.Complete(first.batch, fetch);
    var _ := tiles.RunEffect(other);
    second := tiles.RunEffect(level);
    shownGrid := tiles.grid;
  }

  /** A batch for a level L > 0 whose level was left before it completed is
      discarded on arrival, even when every request succeeded: nothing is
      published and nothing is cached. */
  method StaleBatchDiscarded(level: nat, other: nat, fetch: Fetcher) returns (shownGrid: Grid, cachedLevels: set<nat>)
    requires level > 0 && level != other && AllOk(Calls(level), fetch)
    ensures shownGrid == [] && cachedLevels == {}
  {
    var tiles := new GridController();
    var first := tiles.RunEffect(level);
    var _ := tiles.RunEffect(other);
    tiles.Complete(first.batch, fetch);
    shownGrid := tiles.grid;
    cachedLevels := tiles.cache.Keys;
  }

  /** The level-0 path returns no cleanup, so a level-0 result that arrives after
      the level moved on is still published: the 1 x 1 grid is shown and cached
      while a 2L x 2L batch for the new level is in flight. */
  method LateRootResultPublished(other: nat, fetch: Fetcher) returns (shownGrid: Grid, loading: bool)
    requires other > 0 && fetch(Coord(0, 0, 0)).Ok?
    ensures shownGrid == [[fetch(Coord(0, 0, 0)).url]] && !loading
  {
    var tiles := new GridController();
    var root := tiles.RunEffect(0);
    var _ := tiles.RunEffect(other);
    tiles.Complete(root.batch, fetch);
    assert tiles.grid[0] == [fetch(Coord(0, 0, 0)).url];
    shownGrid := tiles.grid;
    loading := tiles.loading;
  }

  /** One failed request of a batch publishes nothing, although every other cell
      of the batch's grid receives its handle and the failed one stays "". */
  method FailedCellBlocksPublication(level: nat, bad: Coord, fetch: Fetcher)
    returns (shownGrid: Grid, cachedLevels: set<nat>, filled: Grid)
    requires InGrid(bad, level) && fetch(bad).Failed?
    requires forall c :: InGrid(c, level) && c != bad ==> fetch(c).Ok?
    ensures shownGrid == [] && cachedLevels == {}
    ensures IsSquare(filled, Dim(level)) && filled[bad.row][bad.col] == ""
    ensures forall i, j :: 0 <= i < Dim(level) && 0 <= j < Dim(level) && Coord(i, j, level) != bad ==>
              fetch(Coord(i, j, level)).Ok? && filled[i][j] == fetch(Coord(i, j, level)).url
  {
    var tiles := new GridController();
    var first := tiles.RunEffect(level);
    CallsCoverGrid(level);
    ghost var k :| 0 <= k < |Calls(level)| && Calls(level)[k] == bad;
    tiles.Complete(first.batch, fetch);
    shownGrid := tiles.grid;
    cachedLevels := tiles.cache.Keys;
    filled := Snapshot(first.batch.cells);
  }

  /** Two level-0 batches can be in flight at once (0, then L, then 0 again before
      the first result arrived), and neither is ever stale, so the level-0 cache
      entry is written twice: the later arrival wins. */
  method RootEntryRewritten(other: nat, first: Fetcher, second: Fetcher) returns (cached: Grid)
    requires other > 0 && first(Coord(0, 0, 0)).Ok? && second(Coord(0, 0, 0)).Ok?
    ensures cached == [[second(Coord(0, 0, 0)).url]]
  {
    var tiles := new GridController();
    var r1 := tiles.RunEffect(0);
    var _ := tiles.RunEffect(other);
    var r2 := tiles.RunEffect(0);
    tiles.Complete(r1.batch, first);
    tiles.Complete(r2.batch, second);
    cached := tiles.cache[0];
    assert cached[0] == [second(Coord(0, 0, 0)).url];
  }
}
