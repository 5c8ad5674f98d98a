/**
 * useHobbiesScroll.ts: on each scroll, the hobbies section's reading progress, its
 * opacity, the chapter (cars, music, puzzles) that has reached the upper part of the
 * window, and whether the puzzle tiles should show, announced by a puzzleTilesToggle event.
 */
module HobbiesScroll {
  import opened Wrappers
  import opened Geometry

  /** The chapter ids, in order; a chapter's index is its number. */
  const ChapterIds: seq<string> := ["cars", "music", "puzzles"]

  /** A chapter counts as reached once its top is at most this far below the window top. */
  const ChapterActivationOffset: real := 400.0

  /** Where the section's opacity ramp is anchored (a negative distance from the top). */
  const ActivationDistance: real := -200.0

  /** Math.max(0, Math.min(1, x)). */
  function Clamp01(x: real): (r: real)
    ensures 0.0 <= r <= 1.0
    ensures 0.0 <= x <= 1.0 ==> r == x
    ensures x < 0.0 ==> r == 0.0
    ensures x > 1.0 ==> r == 1.0
  {
    Max(0.0, Min(1.0, x))
  }

  /** Clamping keeps order. */
  lemma Clamp01Monotone(x: real, y: real)
    requires x <= y
    ensures Clamp01(x) <= Clamp01(y)
  {
  }

  /** How far the section has been scrolled through, from its top entering at the bottom of
      the window to its bottom leaving at the top. */
  function StoryProgress(top: real, sectionHeight: real, windowHeight: real): (p: real)
    requires sectionHeight >= 0.0 && windowHeight > 0.0
    ensures 0.0 <= p <= 1.0
  {
    Clamp01((windowHeight - top) / (windowHeight + sectionHeight))
  }

  /** Scrolling further down (the section's top moving up) never lowers the progress. */
  lemma StoryProgressMonotone(top1: real, top2: real, sectionHeight: real, windowHeight: real)
    requires sectionHeight >= 0.0 && windowHeight > 0.0 && top2 <= top1
    ensures StoryProgress(top2, sectionHeight, windowHeight) >= StoryProgress(top1, sectionHeight, windowHeight)
  {
    var d := windowHeight + sectionHeight;
    DivMonotone(windowHeight - top1, windowHeight - top2, d);
    Clamp01Monotone((windowHeight - top1) / d, (windowHeight - top2) / d);
  }

  lemma DivMonotone(x: real, y: real, d: real)
    requires x <= y && d > 0.0
    ensures x / d <= y / d
  {
    assert y / d - x / d == (y - x) / d;
  }

  /** The section's opacity: 0.6 plus 0.4 times its clamped activation. */
  function SectionOpacity(top: real, windowHeight: real): (o: real)
    requires windowHeight > 0.0
    ensures 0.6 <= o <= 1.0
  {
    var sectionActivationProgress :=
      Clamp01((windowHeight - top - ActivationDistance) / (windowHeight - ActivationDistance));
    0.6 + sectionActivationProgress * 0.4
  }

  /** The section is fully opaque exactly once its top has reached the top of the window,
      and at its faintest exactly while its top is 200 px or more below the window. */
  lemma SectionOpacityEnds(top: real, windowHeight: real)
    requires windowHeight > 0.0
    ensures SectionOpacity(top, windowHeight) == 1.0 <==> top <= 0.0
    ensures SectionOpacity(top, windowHeight) == 0.6 <==> top >= windowHeight + 200.0
  {
    var d := windowHeight + 200.0;
    var x := windowHeight - top + 200.0;
    DivAtLeastOne(x, d);
    assert x / d <= 0.0 <==> x <= 0.0;
  }

  lemma DivAtLeastOne(x: real, d: real)
    requires d > 0.0
    ensures x / d >= 1.0 <==> x >= d
  {
    var q := x / d;
    assert q * d == x;
    if q >= 1.0 {
      assert (q - 1.0) * d >= 0.0;
    } else {
      assert (1.0 - q) * d > 0.0;
    }
  }

  /**
   * The forEach over the chapters: the last chapter, in order, that is present and whose
   * top is at most 400; chapter 0 when there is none.
   */
  method CurrentChapterOf(chapterTops: seq<Option<real>>) returns (newCurrentChapter: nat)
    requires |chapterTops| == |ChapterIds|
    ensures newCurrentChapter < |ChapterIds|
    ensures forall j :: newCurrentChapter < j < |chapterTops| ==> !Reached(chapterTops[j])
    ensures newCurrentChapter == 0 || Reached(chapterTops[newCurrentChapter])
  {
    newCurrentChapter := 0;
    var index := 0;
    while index < |chapterTops|
      invariant 0 <= index <= |chapterTops|
      invariant newCurrentChapter == 0 || (newCurrentChapter < index && Reached(chapterTops[newCurrentChapter]))
      invariant forall j :: newCurrentChapter < j < index ==> !Reached(chapterTops[j])
    {
      match chapterTops[index] {
        case None =>
        case Some(top) =>
          if top <= ChapterActivationOffset {
            newCurrentChapter := index;
          }
      }
      index := index + 1;
    }
  }

  /** A chapter whose element exists and whose top is at most 400. */
  predicate Reached(chapterTop: Option<real>) {
    chapterTop.Some? && chapterTop.value <= ChapterActivationOffset
  }

  /** The puzzle tiles show while the section intersects the window, the puzzles chapter
      is current and the closing part (progress above 0.8) has not been reached. */
  predicate PuzzleTilesWanted(rect: Rect, windowHeight: real, chapter: nat, progress: real) {
    && rect.Bottom() > 0.0 && rect.top < windowHeight
    && chapter == 2
    && progress <= 0.8
  }

  class HobbiesState {
    var currentChapter: nat
    var storyProgress: real
    var sectionOpacity: real
    var puzzleTilesActive: bool

    ghost predicate Valid()
      reads this
    {
      currentChapter < |ChapterIds| && 0.0 <= storyProgress <= 1.0 && 0.6 <= sectionOpacity <= 1.0
    }

    constructor ()
      ensures Valid() && currentChapter == 0 && storyProgress == 0.0
      ensures sectionOpacity == 0.6 && !puzzleTilesActive
    {
      currentChapter, storyProgress, sectionOpacity, puzzleTilesActive := 0, 0.0, 0.6, false;
    }

    /**
     * handleScroll with the hobbies section's rectangle (None when the element is missing),
     * the window height and the chapters' tops. Returns the detail of the
     * puzzleTilesToggle event, if one is dispatched.
     */
    method HandleScroll(hobbies: Option<Rect>, windowHeight: real, chapterTops: seq<Option<real>>)
      returns (toggleEvent: Option<bool>)
      requires Valid() && windowHeight > 0.0 && |chapterTops| == |ChapterIds|
      requires hobbies.Some? ==> hobbies.value.height >= 0.0
      modifies this
      ensures Valid()
      ensures hobbies.None? ==>
        && toggleEvent.None?
        && currentChapter == old(currentChapter) && storyProgress == old(storyProgress)
        && sectionOpacity == old(sectionOpacity) && puzzleTilesActive == old(puzzleTilesActive)
      ensures hobbies.Some? ==>
        var rect := hobbies.value;
        && storyProgress == StoryProgress(rect.top, rect.height, windowHeight)
        && sectionOpacity == SectionOpacity(rect.top, windowHeight)
        && (forall j :: currentChapter < j < |chapterTops| ==> !Reached(chapterTops[j]))
        && (currentChapter == 0 || Reached(chapterTops[currentChapter]))
        && puzzleTilesActive == PuzzleTilesWanted(rect, windowHeight, currentChapter, storyProgress)
        && (toggleEvent.Some? <==> puzzleTilesActive != old(puzzleTilesActive))
        && (toggleEvent.Some? ==> toggleEvent.value == puzzleTilesActive)
    {
      toggleEvent := None;
      if hobbies.Some? {
        var rect := hobbies.value;
        var progress := StoryProgress(rect.top, rect.height, windowHeight);
        storyProgress := progress;
        sectionOpacity := SectionOpacity(rect.top, windowHeight);
        var newCurrentChapter := CurrentChapterOf(chapterTops);
        var isInHobbiesSection := rect.Bottom() > 0.0 && rect.top < windowHeight;
        var isPuzzlesChapter := isInHobbiesSection && newCurrentChapter == 2 && progress <= 0.8;
        if isPuzzlesChapter != puzzleTilesActive {
          puzzleTilesActive := isPuzzlesChapter;
          toggleEvent := Some(isPuzzlesChapter);
        }
        currentChapter := newCurrentChapter;
      }
    }
  }
}
