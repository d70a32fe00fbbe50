/**
 * The persistent entities the modelled services read and write, as values.
 * Nullable Java fields (`Integer`, `String`, references) are `Option`s.
 */
module Entities {
  import opened Optional

  /** A widget placed on a slide; only its identifier matters here. */
  datatype ProjectWidget = ProjectWidget(id: int)

  /** A project (dashboard) and the widget instances it holds. */
  datatype Project = Project(id: int, widgets: seq<ProjectWidget>)

  /** A stored binary asset (the screenshot of a slide). */
  datatype Asset = Asset(id: Option<int>, content: seq<bv8>, contentType: Option<string>, size: int)

  /** The `ProjectSlide` entity: one grid page of a dashboard. */
  datatype ProjectSlide = ProjectSlide(
    id: Option<int>,
    maxColumn: Option<int>,
    widgetHeight: Option<int>,
    cssStyle: Option<string>,
    screenshot: Option<Asset>,
    project: Option<Project>,
    widgets: seq<ProjectWidget>)

  /** `new ProjectSlide()`: every field null, the widget list empty. */
  const EmptySlide: ProjectSlide := ProjectSlide(None, None, None, None, None, None, [])
}
