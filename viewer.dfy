/** The image controller hook as a whole: the zoom state, the pan controller and
    the grid cache. A button press or wheel tick computes the new zoom state; the
    grid effect depends on the resolution, so it runs again exactly when the
    resolution changed. */
module Viewer {
  import opened Zoom
  import Pan
  import Tiles

  class ImageController {
    const config: Config
    var zoom: ZoomState
    const pan: Pan.PanController
    const tiles: Tiles.GridController

    ghost predicate Valid()
      reads this, tiles
    {
      ValidConfig(config) && InBounds(config, zoom) && tiles.Valid()
    }

    /** The hook's initial state: scale 2.0 at the coarsest level, no offset, no
        grid, an empty cache, loading. */
    constructor (c: Config)
      requires ValidConfig(c)
      ensures Valid() && config == c && zoom == Initial(c)
      ensures fresh(pan) && fresh(tiles)
      ensures pan.position == Pan.Point(0.0, 0.0) && !pan.dragging
      ensures tiles.grid == [] && tiles.cache == map[] && tiles.loading && !tiles.armed
    {
      config := c;
      zoom := Initial(c);
      pan := new Pan.PanController();
      tiles := new Tiles.GridController();
    }

    /** The grid effect's first run, on mount. */
    method Mount() returns (issued: Tiles.Issue)
      requires Valid()
      modifies tiles
      ensures Valid() && tiles.EffectRan(zoom.resolution, issued)
    {
      issued := tiles.RunEffect(zoom.resolution);
    }

    /** Re-runs the grid effect exactly when the resolution moved away from
        `before`; otherwise nothing about the grid changes. */
    method AfterZoomChange(before: int) returns (issued: Tiles.Issue)
      requires Valid()
      modifies tiles
      ensures Valid()
      ensures zoom.resolution == before ==> issued == Tiles.NoFetch && unchanged(tiles)
      ensures zoom.resolution != before ==> tiles.EffectRan(zoom.resolution, issued)
    {
      if zoom.resolution != before {
        issued := tiles.RunEffect(zoom.resolution);
      } else {
        issued := Tiles.NoFetch;
      }
    }

    /** The "+" button. */
    method ResolutionIncrease() returns (issued: Tiles.Issue)
      requires Valid()
      modifies this, tiles
      ensures Valid() && zoom == Increase(config, old(zoom))
      ensures old(zoom.resolution) == config.maxResolution ==> issued == Tiles.NoFetch && unchanged(tiles)
      ensures old(zoom.resolution) < config.maxResolution ==> tiles.EffectRan(zoom.resolution, issued)
    {
      var before := zoom.resolution;
      ButtonsPreserveBounds(config, zoom);
      zoom := Increase(config, zoom);
      issued := AfterZoomChange(before);
    }

    /** The "-" button. */
    method ResolutionDecrease() returns (issued: Tiles.Issue)
      requires Valid()
      modifies this, tiles
      ensures Valid() && zoom == Decrease(config, old(zoom))
      ensures old(zoom.resolution) == config.minResolution ==> issued == Tiles.NoFetch && unchanged(tiles)
      ensures old(zoom.resolution) > config.minResolution ==> tiles.EffectRan(zoom.resolution, issued)
    {
      var before := zoom.resolution;
      ButtonsPreserveBounds(config, zoom);
      zoom := Decrease(config, zoom);
      issued := AfterZoomChange(before);
    }

    /** A wheel tick: the zoom updater, then the grid effect if the tick promoted
        or demoted the level. */
    method MouseScroll(deltaY: real) returns (issued: Tiles.Issue)
      requires Valid()
      modifies this, tiles
      ensures Valid() && zoom == Scroll(config, old(zoom), deltaY)
      ensures zoom.resolution == old(zoom.resolution) ==> issued == Tiles.NoFetch && unchanged(tiles)
      ensures zoom.resolution != old(zoom.resolution) ==> tiles.EffectRan(zoom.resolution, issued)
    {
      var before := zoom.resolution;
      ScrollPreservesBounds(config, zoom, deltaY);
      zoom := Scroll(config, zoom, deltaY);
      issued := AfterZoomChange(before);
    }
  }

  /** From mount, two zoom-in ticks of 1.0 with levels [0, 3] promote to level 1,
      which issues the 2 x 2 batch; the level-0 batch is still in flight. */
  method PromotionIssuesLevelOneBatch() returns (first: Tiles.Issue, second: Tiles.Issue, third: Tiles.Issue)
    ensures first.Fetch? && first.batch.level == 0 && first.batch.calls == [Tiles.Coord(0, 0, 0)]
    ensures second == Tiles.NoFetch
    ensures third.Fetch? && third.batch.level == 1 && |third.batch.calls| == 4
  {
    var c := Config(0, 3, 1.0);
    var v := new ImageController(c);
    first := v.Mount();
    second := v.MouseScroll(-1.0);
    third := v.MouseScroll(-1.0);
    Tiles.CallsCoverGrid(1);
  }

  /** With levels [1, 3], the mount batch for level 1 is still in flight when
      "+" moves to level 2; its responses, all successful, arrive afterwards and
      are discarded: no grid is published and nothing is cached. */
  method StaleMountBatchAfterIncrease(fetch: Tiles.Fetcher) returns (shownGrid: Tiles.Grid, cachedLevels: set<nat>)
    requires forall c :: Tiles.InGrid(c, 1) ==> fetch(c).Ok?
    ensures shownGrid == [] && cachedLevels == {}
  {
    var v := new ImageController(Config(1, 3, 1.0));
    var first := v.Mount();
    var second := v.ResolutionIncrease();
    v.tiles.Complete(first.batch, fetch);
    shownGrid := v.tiles.grid;
    cachedLevels := v.tiles.cache.Keys;
  }
}
