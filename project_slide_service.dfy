/**
 * `ProjectSlideService`: slides of a project over a slide repository, with
 * the asset store that keeps their screenshots. Both stores are maps from
 * id to entity value; identity generation is a counter per store.
 */
module SlideService {
  import opened Optional
  import opened Entities

  /** The uploaded screenshot: its bytes, declared content type and size. */
  datatype MultipartFile = MultipartFile(bytes: seq<bv8>, contentType: Option<string>, size: int)

  /**
   * `Character.isWhitespace` of Java 8 (Unicode 6.2): the space, line and
   * paragraph separators other than the non-breaking spaces U+00A0, U+2007
   * and U+202F, and the controls U+0009 to U+000D and U+001C to U+001F.
   */
  predicate IsWhitespace(c: char) {
    var n := c as int;
    || 0x09 <= n <= 0x0D || 0x1C <= n <= 0x20
    || n == 0x1680 || n == 0x180E
    || 0x2000 <= n <= 0x2006 || 0x2008 <= n <= 0x200A
    || n == 0x2028 || n == 0x2029 || n == 0x205F || n == 0x3000
  }

  /** `StringUtils.isBlank`: null, empty, or whitespace only. */
  predicate IsBlank(s: Option<string>) {
    s.None? || forall i :: 0 <= i < |s.value| ==> IsWhitespace(s.value[i])
  }

  /**
   * The in-place part of `updateSlide`: each grid property is overwritten
   * only when its argument is supplied (non-null; for the CSS, non-blank).
   */
  function UpdatedSlide(slide: ProjectSlide, maxColumn: Option<int>, widgetHeight: Option<int>,
                        cssStyle: Option<string>): (r: ProjectSlide)
    ensures r.maxColumn == (if maxColumn.Some? then maxColumn else slide.maxColumn)
    ensures r.widgetHeight == (if widgetHeight.Some? then widgetHeight else slide.widgetHeight)
    ensures r.cssStyle == (if IsBlank(cssStyle) then slide.cssStyle else cssStyle)
    ensures !IsBlank(cssStyle) ==> r.cssStyle.Some? && exists i :: 0 <= i < |r.cssStyle.value| && !IsWhitespace(r.cssStyle.value[i])
    ensures r.id == slide.id && r.screenshot == slide.screenshot
    ensures r.project == slide.project && r.widgets == slide.widgets
    ensures maxColumn.None? && widgetHeight.None? && IsBlank(cssStyle) ==> r == slide
  {
    var s1 := if maxColumn.Some? then slide.(maxColumn := maxColumn) else slide;
    var s2 := if widgetHeight.Some? then s1.(widgetHeight := widgetHeight) else s1;
    if !IsBlank(cssStyle) then s2.(cssStyle := cssStyle) else s2
  }

  /** Applying the same update twice is applying it once. */
  lemma UpdatedSlideIdempotent(slide: ProjectSlide, maxColumn: Option<int>, widgetHeight: Option<int>,
                               cssStyle: Option<string>)
    ensures var once := UpdatedSlide(slide, maxColumn, widgetHeight, cssStyle);
            UpdatedSlide(once, maxColumn, widgetHeight, cssStyle) == once
  {
  }

  /** A later update wins over an earlier one for every property it supplies. */
  lemma UpdatedSlideCompose(slide: ProjectSlide,
                            m1: Option<int>, w1: Option<int>, c1: Option<string>,
                            m2: Option<int>, w2: Option<int>, c2: Option<string>)
    ensures UpdatedSlide(UpdatedSlide(slide, m1, w1, c1), m2, w2, c2)
            == UpdatedSlide(slide, if m2.Some? then m2 else m1, if w2.Some? then w2 else w1,
                            if IsBlank(c2) then c1 else c2)
  {
  }

  /**
   * The asset built by `addOrUpdateScreenshot`: content, type and size from
   * the file, and the id of the slide's current screenshot if it has one.
   */
  function ScreenshotAsset(slide: ProjectSlide, file: MultipartFile): (a: Asset)
    ensures a.content == file.bytes && a.contentType == file.contentType && a.size == file.size
    ensures slide.screenshot.Some? ==> a.id == slide.screenshot.value.id
    ensures slide.screenshot.None? ==> a.id.None?
  {
    Asset(if slide.screenshot.Some? then slide.screenshot.value.id else None,
          file.bytes, file.contentType, file.size)
  }

  /** The id of the screenshot asset a slide holds, if any. */
  function ScreenshotId(slide: ProjectSlide): Option<int> {
    if slide.screenshot.Some? then slide.screenshot.value.id else None
  }

  class ProjectSlideService {
    /** The slide repository. */
    var repository: map<int, ProjectSlide>
    /** The asset store used by the asset service. */
    var assets: map<int, Asset>
    /** Next identity the slide table generates. */
    var nextSlideId: int
    /** Next identity the asset table generates. */
    var nextAssetId: int

    /** Stored entities carry their own key, and generated ids are fresh. */
    ghost predicate Valid()
      reads this
    {
      && (forall k :: k in repository ==> repository[k].id == Some(k) && k < nextSlideId)
      && (forall k :: k in assets ==> assets[k].id == Some(k) && k < nextAssetId)
    }

    constructor (repository: map<int, ProjectSlide>, assets: map<int, Asset>, nextSlideId: int, nextAssetId: int)
      requires forall k :: k in repository ==> repository[k].id == Some(k) && k < nextSlideId
      requires forall k :: k in assets ==> assets[k].id == Some(k) && k < nextAssetId
      ensures Valid()
      ensures this.repository == repository && this.assets == assets
      ensures this.nextSlideId == nextSlideId && this.nextAssetId == nextAssetId
    {
      this.repository, this.assets := repository, assets;
      this.nextSlideId, this.nextAssetId := nextSlideId, nextAssetId;
    }

    /** `projectSlideRepository.save`: a slide without id gets a fresh one; a slide with id replaces that row. */
    method SaveSlide(slide: ProjectSlide) returns (saved: ProjectSlide)
      requires Valid()
      modifies this
      ensures Valid()
      ensures slide.id.None? ==> old(nextSlideId) !in old(repository)
                                 && saved == slide.(id := Some(old(nextSlideId)))
                                 && nextSlideId == old(nextSlideId) + 1
      ensures slide.id.Some? ==> saved == slide
      ensures saved.id.Some? && repository == old(repository)[saved.id.value := saved]
      ensures assets == old(assets) && nextAssetId == old(nextAssetId)
    {
      if slide.id.None? {
        saved := slide.(id := Some(nextSlideId));
        nextSlideId := nextSlideId + 1;
      } else {
        saved := slide;
        if slide.id.value >= nextSlideId {
          nextSlideId := slide.id.value + 1;
        }
      }
      repository := repository[saved.id.value := saved];
    }

    /** `assetService.save`: an asset without id gets a fresh one; an asset with id replaces that row. */
    method SaveAsset(asset: Asset) returns (saved: Asset)
      requires Valid()
      modifies this
      ensures Valid()
      ensures asset.id.None? ==> old(nextAssetId) !in old(assets) && saved == asset.(id := Some(old(nextAssetId)))
      ensures asset.id.Some? ==> saved == asset
      ensures saved.id.Some? && assets == old(assets)[saved.id.value := saved]
      ensures repository == old(repository) && nextSlideId == old(nextSlideId)
    {
      if asset.id.None? {
        saved := asset.(id := Some(nextAssetId));
        nextAssetId := nextAssetId + 1;
      } else {
        saved := asset;
        if asset.id.value >= nextAssetId {
          nextAssetId := asset.id.value + 1;
        }
      }
      assets := assets[saved.id.value := saved];
    }

    /** `getOneById`: the stored slide exactly when the id exists, nothing otherwise. */
    method GetOneById(id: int) returns (r: Option<ProjectSlide>)
      ensures r.Some? <==> id in repository
      ensures r.Some? ==> r.value == repository[id]
    {
      if id in repository {
        r := Some(repository[id]);
      } else {
        r := None;
      }
    }

    /** `addSlideToProject`: store a new slide of the project with the given grid properties. */
    method AddSlideToProject(project: Project, maxColumn: Option<int>, widgetHeight: Option<int>,
                             cssStyle: Option<string>)
      requires Valid()
      modifies this
      ensures Valid()
      ensures var k := old(nextSlideId);
              && k !in old(repository)
              && repository == old(repository)[k := ProjectSlide(Some(k), maxColumn, widgetHeight, cssStyle,
                                                                  None, Some(project), [])]
      ensures assets == old(assets)
    {
      var slide := EmptySlide.(project := Some(project));
      slide := slide.(maxColumn := maxColumn);
      slide := slide.(widgetHeight := widgetHeight);
      slide := slide.(cssStyle := cssStyle);
      var _ := SaveSlide(slide);
    }

    /**
     * `updateSlide`: overwrite the supplied grid properties of the slide and
     * save it; `updated` is the slide object after the call.
     */
    method UpdateSlide(slide: ProjectSlide, maxColumn: Option<int>, widgetHeight: Option<int>,
                       cssStyle: Option<string>) returns (updated: ProjectSlide)
      requires Valid()
      modifies this
      ensures Valid()
      ensures var u := UpdatedSlide(slide, maxColumn, widgetHeight, cssStyle);
              updated == (if slide.id.Some? then u else u.(id := Some(old(nextSlideId))))
      ensures updated.id.Some? && repository == old(repository)[updated.id.value := updated]
      ensures forall k :: k in old(repository) && Some(k) != updated.id ==> k in repository && repository[k] == old(repository)[k]
      ensures assets == old(assets)
    {
      updated := slide;
      if maxColumn.Some? {
        updated := updated.(maxColumn := maxColumn);
      }
      if widgetHeight.Some? {
        updated := updated.(widgetHeight := widgetHeight);
      }
      if !IsBlank(cssStyle) {
        updated := updated.(cssStyle := cssStyle);
      }
      updated := SaveSlide(updated);
    }

    /**
     * `deleteSlide`: remove the slide; the removal cascades to its screenshot
     * asset. Every other slide is left as it was.
     */
    method DeleteSlide(id: int)
      requires Valid()
      modifies this
      ensures Valid()
      ensures repository == old(repository) - {id}
      ensures forall k :: k in repository ==> repository[k] == old(repository)[k]
      ensures assets == if id in old(repository) && ScreenshotId(old(repository)[id]).Some?
                        then old(assets) - {ScreenshotId(old(repository)[id]).value}
                        else old(assets)
    {
      if id in repository {
        var screenshotId := ScreenshotId(repository[id]);
        if screenshotId.Some? {
          assets := assets - {screenshotId.value};
        }
        repository := repository - {id};
      }
    }

    /**
     * `addOrUpdateScreenshot`: save the file as an asset. When the slide has
     * a screenshot the asset takes its id and the slide is left alone;
     * otherwise the saved asset becomes the slide's screenshot and the slide
     * is saved. `updated` is the slide object after the call.
     */
    method AddOrUpdateScreenshot(slide: ProjectSlide, file: MultipartFile) returns (updated: ProjectSlide)
      requires Valid()
      modifies this
      ensures Valid()
      ensures slide.screenshot.Some? ==>
                && updated == slide && repository == old(repository)
                && (slide.screenshot.value.id.Some? ==>
                      assets == old(assets)[slide.screenshot.value.id.value := ScreenshotAsset(slide, file)])
                && (slide.screenshot.value.id.None? ==>
                      assets == old(assets)[old(nextAssetId) := ScreenshotAsset(slide, file).(id := Some(old(nextAssetId)))])
      ensures slide.screenshot.None? ==>
                var asset := ScreenshotAsset(slide, file).(id := Some(old(nextAssetId)));
                && old(nextAssetId) !in old(assets)
                && assets == old(assets)[old(nextAssetId) := asset]
                && updated.screenshot == Some(asset)
                && updated == (if slide.id.Some? then slide.(screenshot := Some(asset))
                               else slide.(screenshot := Some(asset), id := Some(old(nextSlideId))))
                && repository == old(repository)[updated.id.value := updated]
    {
      var screenshotAsset := Asset(None, file.bytes, file.contentType, file.size);
      if slide.screenshot.Some? {
        screenshotAsset := screenshotAsset.(id := slide.screenshot.value.id);
        var _ := SaveAsset(screenshotAsset);
        updated := slide;
      } else {
        screenshotAsset := SaveAsset(screenshotAsset);
        updated := slide.(screenshot := Some(screenshotAsset));
        updated := SaveSlide(updated);
      }
    }
  }
}
