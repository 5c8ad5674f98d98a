/**
 * page.tsx: the home page. It scores every section by how much of it is in the window
 * and how close it is to the window's centre, keeps the best one as the current section,
 * asks the project viewer to close once the projects section is no longer the best, and
 * opens and closes the viewer for a selected project.
 */
module HomePage {
  import opened Wrappers
  import opened Geometry
  import ProjectViewer

  /** The section ids, in the order the page lists them. */
  const SectionIds: seq<string> := ["hero", "about", "projects", "skills", "hobbies", "contact"]

  /** How much of the element's height lies inside the window [0, windowHeight]. */
  function VisibleTop(r: Rect, windowHeight: real): (v: real)
    requires r.height > 0.0 && windowHeight > 0.0
    ensures 0.0 <= v <= r.height && v <= windowHeight
  {
    Max(0.0, Min(r.Bottom(), windowHeight) - Max(r.top, 0.0))
  }

  /** The visible fraction of the element. */
  function VisibilityRatio(r: Rect, windowHeight: real): (ratio: real)
    requires r.height > 0.0 && windowHeight > 0.0
    ensures 0.0 <= ratio <= 1.0
    ensures ratio * r.height == VisibleTop(r, windowHeight)
  {
    var v := VisibleTop(r, windowHeight);
    assert v / r.height <= 1.0 by {
      assert v <= r.height;
    }
    v / r.height
  }

  /** 1 at the window's centre, falling linearly to 0 one window height away. */
  function CenterWeight(r: Rect, windowHeight: real): (w: real)
    requires windowHeight > 0.0
    ensures 0.0 <= w <= 1.0
    ensures w == 1.0 <==> (r.top + r.Bottom()) / 2.0 == windowHeight / 2.0
  {
    var centerDistance := Abs((r.top + r.Bottom()) / 2.0 - windowHeight / 2.0);
    assert centerDistance / windowHeight >= 0.0;
    assert centerDistance / windowHeight == 0.0 <==> centerDistance == 0.0;
    Max(0.0, 1.0 - centerDistance / windowHeight)
  }

  /** The section's total score, 0.7 for visibility plus 0.3 for centring. */
  function Score(r: Rect, windowHeight: real): (s: real)
    requires r.height > 0.0 && windowHeight > 0.0
    ensures 0.0 <= s <= 1.0
    ensures s == 1.0 <==> VisibilityRatio(r, windowHeight) == 1.0 && CenterWeight(r, windowHeight) == 1.0
  {
    VisibilityRatio(r, windowHeight) * 0.7 + CenterWeight(r, windowHeight) * 0.3
  }

  /** The measurements the page can take: one per section, no negative height. */
  predicate Measurable(rects: seq<Option<Rect>>, windowHeight: real) {
    && |rects| == |SectionIds|
    && windowHeight > 0.0
    && forall i :: 0 <= i < |rects| && rects[i].Some? ==> rects[i].value.height >= 0.0
  }

  /**
   * The score of section i, or 0 for a missing element and for an element of height 0
   * (its ratio is 0 / 0, NaN, which loses every comparison); 0 never beats the initial 0.
   */
  function ScoreAt(rects: seq<Option<Rect>>, windowHeight: real, i: nat): (s: real)
    requires Measurable(rects, windowHeight) && i < |rects|
    ensures 0.0 <= s <= 1.0
    ensures rects[i].None? || rects[i].value.height == 0.0 ==> s == 0.0
  {
    match rects[i]
    case None => 0.0
    case Some(r) => if r.height == 0.0 then 0.0 else Score(r, windowHeight)
  }

  /**
   * The section handleScroll selects: "hero" when no score exceeds 0; otherwise the
   * section with the highest score, the earliest one among equal highest scores.
   */
  ghost predicate IsActiveSection(rects: seq<Option<Rect>>, windowHeight: real, id: string)
    requires Measurable(rects, windowHeight)
  {
    if forall j :: 0 <= j < |rects| ==> ScoreAt(rects, windowHeight, j) <= 0.0 then
      id == "hero"
    else
      exists i :: IsFirstBest(rects, windowHeight, i) && id == SectionIds[i]
  }

  ghost predicate IsFirstBest(rects: seq<Option<Rect>>, windowHeight: real, i: int)
    requires Measurable(rects, windowHeight)
  {
    && 0 <= i < |rects|
    && rects[i].Some?
    && ScoreAt(rects, windowHeight, i) > 0.0
    && (forall j :: 0 <= j < i ==> ScoreAt(rects, windowHeight, j) < ScoreAt(rects, windowHeight, i))
    && (forall j :: i < j < |rects| ==> ScoreAt(rects, windowHeight, j) <= ScoreAt(rects, windowHeight, i))
  }

  /** The first best section is unique, so the selection is a function of the measurements. */
  lemma FirstBestUnique(rects: seq<Option<Rect>>, windowHeight: real, i: int, k: int)
    requires Measurable(rects, windowHeight)
    requires IsFirstBest(rects, windowHeight, i) && IsFirstBest(rects, windowHeight, k)
    ensures i == k
  {
  }

  /** Two ids that both satisfy the selection rule are the same id. */
  lemma ActiveSectionUnique(rects: seq<Option<Rect>>, windowHeight: real, id1: string, id2: string)
    requires Measurable(rects, windowHeight)
    requires IsActiveSection(rects, windowHeight, id1) && IsActiveSection(rects, windowHeight, id2)
    ensures id1 == id2
  {
    if !forall j :: 0 <= j < |rects| ==> ScoreAt(rects, windowHeight, j) <= 0.0 {
      var i :| IsFirstBest(rects, windowHeight, i) && id1 == SectionIds[i];
      var k :| IsFirstBest(rects, windowHeight, k) && id2 == SectionIds[k];
      FirstBestUnique(rects, windowHeight, i, k);
    }
  }

  /** The selected id is always one of the listed sections. */
  lemma ActiveSectionListed(rects: seq<Option<Rect>>, windowHeight: real, id: string)
    requires Measurable(rects, windowHeight) && IsActiveSection(rects, windowHeight, id)
    ensures id in SectionIds
  {
    if !forall j :: 0 <= j < |rects| ==> ScoreAt(rects, windowHeight, j) <= 0.0 {
      var i :| IsFirstBest(rects, windowHeight, i) && id == SectionIds[i];
    }
  }

  /**
   * The forEach of handleScroll: keep the running best score (starting from 0 and
   * "hero") and replace it only by a strictly higher one.
   */
  method MostVisibleSection(rects: seq<Option<Rect>>, windowHeight: real) returns (currentSectionId: string)
    requires Measurable(rects, windowHeight)
    ensures IsActiveSection(rects, windowHeight, currentSectionId)
  {
    currentSectionId := "hero";
    var maxVisibility := 0.0;
    ghost var best := -1;
    var k := 0;
    while k < |rects|
      invariant 0 <= k <= |rects|
      invariant -1 <= best < k
      invariant best == -1 ==> maxVisibility == 0.0 && currentSectionId == "hero"
      invariant best == -1 ==> forall j :: 0 <= j < k ==> ScoreAt(rects, windowHeight, j) <= 0.0
      invariant best >= 0 ==> rects[best].Some? && currentSectionId == SectionIds[best]
      invariant best >= 0 ==> maxVisibility == ScoreAt(rects, windowHeight, best) > 0.0
      invariant best >= 0 ==> forall j :: 0 <= j < best ==> ScoreAt(rects, windowHeight, j) < maxVisibility
      invariant best >= 0 ==> forall j :: best < j < k ==> ScoreAt(rects, windowHeight, j) <= maxVisibility
    {
      match rects[k] {
        case None =>
        case Some(rect) =>
          // with a zero height the score is NaN and the comparison below is false
          if rect.height > 0.0 {
            var totalScore := Score(rect, windowHeight);
            if totalScore > maxVisibility {
              maxVisibility := totalScore;
              currentSectionId := SectionIds[k];
              best := k;
            }
          }
      }
      k := k + 1;
    }
    if best >= 0 {
      assert IsFirstBest(rects, windowHeight, best);
    }
  }

  class Home {
    var showCube: bool
    var currentSection: string
    var selectedProject: Option<ProjectViewer.Project>
    var isProjectViewerOpen: bool

    /** The viewer is only ever open with a selected project. */
    ghost predicate Valid()
      reads this
    {
      isProjectViewerOpen ==> selectedProject.Some?
    }

    /** The viewer is in the page exactly while a project is selected. */
    predicate ViewerRendered()
      reads this
    {
      selectedProject.Some?
    }

    constructor ()
      ensures Valid() && !showCube && currentSection == "hero"
      ensures selectedProject == None && !isProjectViewerOpen
    {
      showCube, currentSection := false, "hero";
      selectedProject, isProjectViewerOpen := None, false;
    }

    /** openProjectViewer: select the project and open the viewer. */
    method OpenProjectViewer(project: ProjectViewer.Project)
      requires Valid()
      modifies this`selectedProject, this`isProjectViewerOpen
      ensures Valid() && selectedProject == Some(project) && isProjectViewerOpen
      ensures ViewerRendered()
    {
      selectedProject := Some(project);
      isProjectViewerOpen := true;
    }

    /** closeProjectViewer: close the viewer and drop the selection, which unmounts it. */
    method CloseProjectViewer()
      requires Valid()
      modifies this`selectedProject, this`isProjectViewerOpen
      ensures Valid() && selectedProject == None && !isProjectViewerOpen
      ensures !ViewerRendered()
    {
      isProjectViewerOpen := false;
      selectedProject := None;
    }

    /**
     * handleScroll: show the cube, make the most visible section current, and ask the
     * viewer to close (its handleClose) when the winner is not "projects" while it is open.
     */
    method HandleScroll(rects: seq<Option<Rect>>, windowHeight: real) returns (closeRequested: bool)
      requires Valid() && Measurable(rects, windowHeight)
      modifies this`showCube, this`currentSection
      ensures Valid() && showCube
      ensures IsActiveSection(rects, windowHeight, currentSection)
      ensures closeRequested <==> currentSection != "projects" && isProjectViewerOpen
    {
      showCube := true;
      var currentSectionId := MostVisibleSection(rects, windowHeight);
      currentSection := currentSectionId;
      closeRequested := currentSectionId != "projects" && isProjectViewerOpen;
    }
  }
}
