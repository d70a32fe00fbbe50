/**
 * `ProjectSlideMapper`: project slide entities to response DTOs. The mapping
 * code is generated from declarative annotations; with a null source the
 * generated methods return null. The foreign calls (`IdUtils.encrypt` and
 * `libraryService.getLibrariesToken`) are parameters.
 */
module SlideMapper {
  import opened Optional
  import opened Entities

  /** `ProjectSlideGridResponseDto`. */
  datatype ProjectSlideGridResponseDto = ProjectSlideGridResponseDto(
    maxColumn: Option<int>, widgetHeight: Option<int>, cssStyle: Option<string>)

  /** `ProjectSlideResponseDto`. */
  datatype ProjectSlideResponseDto = ProjectSlideResponseDto(
    id: Option<int>,
    gridProperties: ProjectSlideGridResponseDto,
    screenshotToken: Option<string>,
    librariesToken: seq<string>)

  /** `IdUtils.encrypt` applied to an asset id. */
  type Encrypt = Option<int> -> string
  /** `libraryService.getLibrariesToken` applied to the widgets of a slide. */
  type LibrariesToken = seq<ProjectWidget> -> seq<string>

  /** `toProjectSlideDtoDefault`. */
  function ToProjectSlideDtoDefault(encrypt: Encrypt, librariesToken: LibrariesToken,
                                    slide: Option<ProjectSlide>): (r: Option<ProjectSlideResponseDto>)
    ensures r.Some? <==> slide.Some?
    ensures slide.Some? ==>
              var s, d := slide.value, r.value;
              && d.id == s.id
              && d.gridProperties.maxColumn == s.maxColumn
              && d.gridProperties.widgetHeight == s.widgetHeight
              && d.gridProperties.cssStyle == s.cssStyle
              && (d.screenshotToken.None? <==> s.screenshot.None?)
              && (s.screenshot.Some? ==> d.screenshotToken == Some(encrypt(s.screenshot.value.id)))
              && d.librariesToken == librariesToken(s.widgets)
  {
    match slide
    case None => None
    case Some(s) =>
      Some(ProjectSlideResponseDto(
        s.id,
        ProjectSlideGridResponseDto(s.maxColumn, s.widgetHeight, s.cssStyle),
        if s.screenshot.Some? then Some(encrypt(s.screenshot.value.id)) else None,
        librariesToken(s.widgets)))
  }

  /** The element-wise part of `toProjectSlideDtosDefault`. */
  function MapSlides(encrypt: Encrypt, librariesToken: LibrariesToken,
                     slides: seq<Option<ProjectSlide>>): (r: seq<Option<ProjectSlideResponseDto>>)
    ensures |r| == |slides|
    ensures forall i :: 0 <= i < |slides| ==> r[i] == ToProjectSlideDtoDefault(encrypt, librariesToken, slides[i])
    decreases |slides|
  {
    if |slides| == 0 then []
    else [ToProjectSlideDtoDefault(encrypt, librariesToken, slides[0])]
         + MapSlides(encrypt, librariesToken, slides[1..])
  }

  /** `toProjectSlideDtosDefault`: a null list maps to null, otherwise element by element in order. */
  function ToProjectSlideDtosDefault(encrypt: Encrypt, librariesToken: LibrariesToken,
                                     slides: Option<seq<Option<ProjectSlide>>>)
    : (r: Option<seq<Option<ProjectSlideResponseDto>>>)
    ensures r.Some? <==> slides.Some?
    ensures slides.Some? ==> r.value == MapSlides(encrypt, librariesToken, slides.value)
  {
    if slides.None? then None else Some(MapSlides(encrypt, librariesToken, slides.value))
  }

  /** Mapping a concatenation of slide lists is concatenating the mapped lists. */
  lemma {:induction false} MapSlidesAppend(encrypt: Encrypt, librariesToken: LibrariesToken,
                                           a: seq<Option<ProjectSlide>>, b: seq<Option<ProjectSlide>>)
    ensures MapSlides(encrypt, librariesToken, a + b)
            == MapSlides(encrypt, librariesToken, a) + MapSlides(encrypt, librariesToken, b)
  {
    var l, r := MapSlides(encrypt, librariesToken, a + b), MapSlides(encrypt, librariesToken, a) + MapSlides(encrypt, librariesToken, b);
    assert |l| == |r|;
    forall i | 0 <= i < |l| ensures l[i] == r[i] {
      if i < |a| {
        assert (a + b)[i] == a[i];
      } else {
        assert (a + b)[i] == b[i - |a|];
      }
    }
  }
}
