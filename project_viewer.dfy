/**
 * ProjectViewer.tsx: the side panel showing one project, with an image carousel, an
 * animated close and an animated swap when a different project is selected.
 */
module ProjectViewer {

  /** The fields of a project the viewer's logic reads; the rest is display text. */
  datatype Project = Project(id: int, title: string, images: seq<string>)

  /** nextImage: the following image, wrapping from the last back to the first. Both
      operands are non-negative, so JavaScript's `%` agrees with Dafny's. */
  function NextIndex(i: nat, n: nat): (r: nat)
    requires i < n
    ensures r < n
    ensures i + 1 < n ==> r == i + 1
    ensures i + 1 == n ==> r == 0
  {
    (i + 1) % n
  }

  /** prevImage: the preceding image, wrapping from the first to the last. */
  function PrevIndex(i: nat, n: nat): (r: nat)
    requires i < n
    ensures r < n
    ensures 0 < i ==> r == i - 1
    ensures i == 0 ==> r == n - 1
  {
    (i - 1 + n) % n
  }

  /** Stepping back after stepping forward shows the original image. */
  lemma PrevAfterNext(i: nat, n: nat)
    requires i < n
    ensures PrevIndex(NextIndex(i, n), n) == i
  {
  }

  /** Stepping forward after stepping back shows the original image. */
  lemma NextAfterPrev(i: nat, n: nat)
    requires i < n
    ensures NextIndex(PrevIndex(i, n), n) == i
  {
  }

  class Viewer {
    /** The props: the project selected by the page and whether the panel is open. */
    var project: Project
    var isOpen: bool
    /** The component state. */
    var currentImageIndex: nat
    var isContentVisible: bool
    var currentProject: Project
    var isClosing: bool

    /** The image index points into the shown project's images (or is 0 when it has none). */
    ghost predicate Valid()
      reads this
    {
      currentImageIndex == 0 || currentImageIndex < |currentProject.images|
    }

    /** The panel is in the page while open and during the closing animation. */
    predicate PanelRendered()
      reads this
    {
      isOpen || isClosing
    }

    /** Arrows and thumbnails are shown only for a project with more than one image. */
    predicate ShowsNavigation()
      reads this
    {
      |currentProject.images| > 1
    }

    constructor (p: Project, open: bool)
      ensures Valid() && project == p && isOpen == open
      ensures currentProject == p && currentImageIndex == 0 && isContentVisible && !isClosing
    {
      project, isOpen := p, open;
      currentImageIndex, isContentVisible, currentProject, isClosing := 0, true, p, false;
    }

    /** handleClose: start the exit animation; the panel stays rendered until the close
        timer fires. */
    method HandleClose()
      requires Valid()
      modifies this`isClosing
      ensures Valid() && isClosing && PanelRendered()
    {
      isClosing := true;
    }

    /**
     * The 400 ms timer of handleClose: the exit animation is over and the caller's onClose
     * is invoked (HomePage.Home.CloseProjectViewer on the page). The panel then stays
     * rendered only if it is open again.
     */
    method CloseTimerFired() returns (onCloseCalled: bool)
      requires Valid()
      modifies this`isClosing
      ensures Valid() && !isClosing && onCloseCalled
      ensures PanelRendered() == isOpen
    {
      isClosing := false;
      onCloseCalled := true;
    }

    /** The effect on `isOpen`: opening clears a pending close. */
    method OpenChanged(open: bool)
      requires Valid()
      modifies this`isOpen, this`isClosing
      ensures Valid() && isOpen == open
      ensures open ==> !isClosing && PanelRendered()
      ensures !open ==> isClosing == old(isClosing)
    {
      isOpen := open;
      if open {
        isClosing := false;
      }
    }

    /**
     * The effect on the project prop: a project with a different id hides the content
     * and schedules the swap; a project with the same id changes nothing.
     */
    method ProjectChanged(p: Project) returns (swapScheduled: bool)
      requires Valid()
      modifies this`project, this`isContentVisible
      ensures Valid() && project == p
      ensures swapScheduled == (p.id != currentProject.id)
      ensures swapScheduled ==> !isContentVisible
      ensures !swapScheduled ==> isContentVisible == old(isContentVisible)
    {
      project := p;
      swapScheduled := p.id != currentProject.id;
      if swapScheduled {
        isContentVisible := false;
      }
    }

    /** The 300 ms timer of the swap: show the captured project from its first image. */
    method SwapTimerFired(p: Project)
      requires Valid()
      modifies this`currentProject, this`currentImageIndex, this`isContentVisible
      ensures Valid()
      ensures currentProject == p && currentImageIndex == 0 && isContentVisible
    {
      currentProject := p;
      currentImageIndex := 0;
      isContentVisible := true;
    }

    /** nextImage (the right arrow, shown only with more than one image). */
    method NextImage()
      requires Valid() && ShowsNavigation()
      modifies this`currentImageIndex
      ensures Valid() && currentImageIndex == NextIndex(old(currentImageIndex), |currentProject.images|)
    {
      currentImageIndex := NextIndex(currentImageIndex, |currentProject.images|);
    }

    /** prevImage (the left arrow, shown only with more than one image). */
    method PrevImage()
      requires Valid() && ShowsNavigation()
      modifies this`currentImageIndex
      ensures Valid() && currentImageIndex == PrevIndex(old(currentImageIndex), |currentProject.images|)
    {
      currentImageIndex := PrevIndex(currentImageIndex, |currentProject.images|);
    }

    /** A click on thumbnail k shows image k. */
    method ThumbnailClick(k: nat)
      requires Valid() && ShowsNavigation() && k < |currentProject.images|
      modifies this`currentImageIndex
      ensures Valid() && currentImageIndex == k
    {
      currentImageIndex := k;
    }
  }
}
