/**
 * TopNavigation.tsx: the header bar. On every scroll it records the position, hides the
 * header past 60 px, closes the mobile menu when scrolling down on a phone, and marks as
 * active the first section whose box contains a point 100 px below the top of the window.
 * It also maps the chosen theme to a hue and asks phone users once for their handedness.
 */
module TopNavigation {
  import opened Wrappers

  /** The section ids the scroll handler searches, in order. */
  const NavSections: seq<string> := ["hero", "about", "projects", "skills", "hobbies", "contact"]

  /** The key under which the handedness is kept in localStorage. */
  const HandednessKey: string := "handedness-n"

  /** An element's offsetTop and offsetHeight. */
  datatype Offset = Offset(top: real, height: real)

  predicate Contains(o: Offset, position: real) {
    o.top <= position < o.top + o.height
  }

  /**
   * The for…break loop of handleScroll: the index of the first present section whose box
   * contains `scrollPosition`, or None when no section does.
   */
  method FirstContainingSection(offsets: seq<Option<Offset>>, scrollPosition: real) returns (found: Option<nat>)
    ensures found.Some? ==>
      && found.value < |offsets|
      && offsets[found.value].Some?
      && Contains(offsets[found.value].value, scrollPosition)
      && forall j :: 0 <= j < found.value && offsets[j].Some? ==> !Contains(offsets[j].value, scrollPosition)
    ensures found.None? ==>
      forall j :: 0 <= j < |offsets| && offsets[j].Some? ==> !Contains(offsets[j].value, scrollPosition)
  {
    found := None;
    var k := 0;
    while k < |offsets|
      invariant 0 <= k <= |offsets|
      invariant forall j :: 0 <= j < k && offsets[j].Some? ==> !Contains(offsets[j].value, scrollPosition)
    {
      match offsets[k] {
        case None =>
        case Some(o) =>
          if scrollPosition >= o.top && scrollPosition < o.top + o.height {
            found := Some(k);
            return;
          }
      }
      k := k + 1;
    }
  }

  /** The theme names that get their own hue; any other name ('default' included) gets 220. */
  const ColouredThemes: seq<string> := ["matrix", "sunset", "purple", "red", "cyan", "pink"]

  /** The primary hue of a theme, as the theme picker's nested conditional chooses it. */
  function ThemeHue(name: string): (hue: int)
    ensures 0 <= hue < 360
    ensures name !in ColouredThemes <==> hue == 220
  {
    if name == "matrix" then 120
    else if name == "sunset" then 30
    else if name == "purple" then 270
    else if name == "red" then 0
    else if name == "cyan" then 180
    else if name == "pink" then 320
    else 220
  }

  /** The picker's seven theme names. */
  const ThemeNames: seq<string> := ["default"] + ColouredThemes

  /** The seven themes of the picker get seven different hues. */
  lemma ThemeHueInjective(a: string, b: string)
    requires a in ThemeNames && b in ThemeNames
    requires ThemeHue(a) == ThemeHue(b)
    ensures a == b
  {
  }

  /** The secondary hue: the primary hue plus 60, without reduction modulo 360. */
  function SecondaryHue(primary: int): (hue: int)
    ensures 0 <= primary ==> (hue < 360 <==> primary < 300)
  {
    primary + 60
  }

  /** Only the pink theme's secondary hue leaves [0, 360): it is 380. */
  lemma SecondaryHueRange(name: string)
    ensures SecondaryHue(ThemeHue(name)) >= 360 <==> name == "pink"
    ensures name == "pink" ==> SecondaryHue(ThemeHue(name)) == 380
  {
  }

  /** The three buttons of the handedness prompt. */
  datatype HandChoice = LeftButton | RightButton | SkipButton

  /** The handedness a button stores; Skip stores the default, "right". */
  function HandednessOf(choice: HandChoice): (h: string)
    ensures h == "left" <==> choice == LeftButton
    ensures h == "left" || h == "right"
  {
    match choice
    case LeftButton => "left"
    case RightButton => "right"
    case SkipButton => "right"
  }

  class Navigation {
    var activeTab: string
    var scrollY: real
    var isHeaderHidden: bool
    var isMobileMenuOpen: bool
    var isMobile: bool
    var lastScrollY: real
    var theme: string
    var showDropdown: bool
    var handedness: Option<string>
    var showHandednessPrompt: bool
    /** The browser's localStorage. */
    var storage: map<string, string>

    /** The active tab is always one of the sections. */
    ghost predicate Valid()
      reads this
    {
      activeTab in NavSections
    }

    constructor (stored: map<string, string>)
      ensures Valid() && activeTab == "hero" && scrollY == 0.0 && !isHeaderHidden
      ensures !isMobileMenuOpen && !isMobile && lastScrollY == 0.0 && theme == "default"
      ensures !showDropdown && handedness == None && !showHandednessPrompt && storage == stored
    {
      activeTab, scrollY, isHeaderHidden := "hero", 0.0, false;
      isMobileMenuOpen, isMobile, lastScrollY := false, false, 0.0;
      theme, showDropdown := "default", false;
      handedness, showHandednessPrompt, storage := None, false, stored;
    }

    /**
     * handleScroll with the window's scrollY and the sections' offsets (None for a
     * missing element).
     */
    method HandleScroll(currentScrollY: real, offsets: seq<Option<Offset>>)
      requires Valid() && |offsets| == |NavSections|
      modifies this`scrollY, this`isHeaderHidden, this`isMobileMenuOpen, this`lastScrollY, this`activeTab
      ensures Valid()
      ensures scrollY == currentScrollY && isHeaderHidden == (currentScrollY > 60.0)
      ensures isMobileMenuOpen ==
        (old(isMobileMenuOpen) && !(isMobile && currentScrollY > 50.0 && currentScrollY - old(lastScrollY) > 0.0))
      ensures lastScrollY == (if isMobile then currentScrollY else old(lastScrollY))
      ensures var position := currentScrollY + 100.0;
        if exists j :: 0 <= j < |offsets| && offsets[j].Some? && Contains(offsets[j].value, position) then
          exists i :: && 0 <= i < |offsets| && activeTab == NavSections[i]
                      && offsets[i].Some? && Contains(offsets[i].value, position)
                      && forall j :: 0 <= j < i && offsets[j].Some? ==> !Contains(offsets[j].value, position)
        else
          activeTab == old(activeTab)
    {
      scrollY := currentScrollY;
      isHeaderHidden := currentScrollY > 60.0;
      if isMobile {
        var scrollDifference := currentScrollY - lastScrollY;
        if currentScrollY > 50.0 && scrollDifference > 0.0 && isMobileMenuOpen {
          isMobileMenuOpen := false;
        }
        lastScrollY := currentScrollY;
      }
      var scrollPosition := currentScrollY + 100.0;
      var found := FirstContainingSection(offsets, scrollPosition);
      if found.Some? {
        activeTab := NavSections[found.value];
      }
    }

    /** localStorage.getItem of the key is truthy: present and not the empty string. */
    predicate HasStoredHandedness()
      reads this
    {
      HandednessKey in storage && storage[HandednessKey] != ""
    }

    /**
     * checkMobile with the window width: a phone without a stored handedness schedules
     * the prompt 2 s later; a phone with one loads it. The handler is created once, on
     * mount, so the `!showHandednessPrompt` it tests always reads the initial false: a
     * resize schedules the prompt again even while it is showing.
     */
    method CheckMobile(innerWidth: int) returns (promptScheduled: bool)
      requires Valid()
      modifies this`isMobile, this`handedness
      ensures Valid() && isMobile == (innerWidth <= 768)
      ensures promptScheduled == (isMobile && !HasStoredHandedness())
      ensures handedness == (if isMobile && !promptScheduled then Some(storage[HandednessKey])
                             else old(handedness))
    {
      isMobile := innerWidth <= 768;
      var showHandednessPromptAtMount := false;
      promptScheduled := isMobile && !HasStoredHandedness() && !showHandednessPromptAtMount;
      if !promptScheduled && isMobile {
        handedness := if HandednessKey in storage then Some(storage[HandednessKey]) else None;
      }
    }

    /** A double click on the title: forget the handedness and ask again. */
    method ResetHandedness()
      requires Valid()
      modifies this`storage, this`handedness, this`showHandednessPrompt
      ensures Valid() && handedness == None && showHandednessPrompt && !HasStoredHandedness()
      ensures storage == old(storage) - {HandednessKey}
    {
      storage := storage - {HandednessKey};
      handedness := None;
      showHandednessPrompt := true;
    }

    /** The 2 s timer scheduled by CheckMobile. */
    method PromptTimerFired()
      modifies this`showHandednessPrompt
      ensures showHandednessPrompt
    {
      showHandednessPrompt := true;
    }

    /** A button of the handedness prompt: store the choice and hide the prompt. */
    method ChooseHandedness(choice: HandChoice)
      requires Valid()
      modifies this`handedness, this`storage, this`showHandednessPrompt
      ensures Valid() && !showHandednessPrompt
      ensures handedness == Some(HandednessOf(choice))
      ensures storage == old(storage)[HandednessKey := HandednessOf(choice)]
    {
      var h := HandednessOf(choice);
      handedness := Some(h);
      storage := storage[HandednessKey := h];
      showHandednessPrompt := false;
    }

    /**
     * A theme button: switch the theme, close the dropdown, and return the primary and
     * secondary hues written to the CSS variables (the primary one is also the detail of
     * the themeChanged event).
     */
    method SelectTheme(name: string) returns (primaryHue: int, secondaryHue: int)
      requires Valid()
      modifies this`theme, this`showDropdown
      ensures Valid() && theme == name && !showDropdown
      ensures primaryHue == ThemeHue(name) && secondaryHue == SecondaryHue(primaryHue)
    {
      theme := name;
      primaryHue := ThemeHue(name);
      secondaryHue := SecondaryHue(primaryHue);
      showDropdown := false;
    }
  }
}
