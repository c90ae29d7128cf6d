/**
 * The mobile menu: an open/closed state flipped by the hamburger button and by
 * clicks on the overlay, the effect that locks the page's scrolling while the
 * menu is open, and the links that scroll to a section and close the menu.
 *
 * The DOM is reduced to what the component reads and writes: the looked-up
 * section's viewport top (absent when no element has the id), the window's
 * `pageYOffset`, the body's `overflow` style and the `scrollTo` requests made.
 */
module MobileMenu {
  import opened Wrappers
  import opened Translations
  import opened LanguageContext

  // ---------------------------------------------------------------------------
  // Scrolling to a section
  // ---------------------------------------------------------------------------

  /** The height kept free above a section for the fixed header. */
  const HeaderOffset: real := 120.0

  /** `elementPosition + window.pageYOffset - offset` */
  function ScrollTarget(elementTop: real, pageYOffset: real): (top: real)
    ensures (elementTop + pageYOffset) - top == HeaderOffset
  {
    elementTop + pageYOffset - HeaderOffset
  }

  /**
   * The target depends only on where the section sits in the document, not on
   * how far the page is scrolled when the link is clicked; a section lower in
   * the document gets a larger target.
   */
  lemma {:induction false} ScrollTargetFollowsDocumentPosition(top1: real, offset1: real, top2: real, offset2: real)
    ensures top1 + offset1 == top2 + offset2 ==> ScrollTarget(top1, offset1) == ScrollTarget(top2, offset2)
    ensures top1 + offset1 < top2 + offset2 ==> ScrollTarget(top1, offset1) < ScrollTarget(top2, offset2)
  {
  }

  // ---------------------------------------------------------------------------
  // The open/closed state and the scroll-lock effect
  // ---------------------------------------------------------------------------

  const Hidden: string := "hidden"
  const Unset: string := "unset"

  /** The body's overflow the effect writes for an open or a closed menu. */
  function OverflowFor(isOpen: bool): (overflow: string)
    ensures overflow == Hidden <==> isOpen
    ensures overflow in {Hidden, Unset}
  {
    if isOpen then Hidden else Unset
  }

  class Menu {
    /** `isOpen` */
    var isOpen: bool
    /** `document.body.style.overflow` */
    var bodyOverflow: string
    /** The `top` of every `window.scrollTo` call made so far, in order. */
    var scrollRequests: seq<real>
    /** Whether the component is mounted (its effect is active). */
    var mounted: bool

    /** While mounted, the page scrolls exactly when the menu is closed. */
    ghost predicate Valid()
      reads this
    {
      mounted && bodyOverflow == OverflowFor(isOpen)
    }

    /** Mount: closed, and the first run of the effect unlocks the page. */
    constructor (initialOverflow: string)
      ensures Valid()
      ensures !isOpen && bodyOverflow == Unset && scrollRequests == []
    {
      isOpen := false;
      bodyOverflow := initialOverflow;
      scrollRequests := [];
      mounted := true;
      new;
      RerunEffect();
    }

    /** A change of `isOpen` runs the previous effect's cleanup, then the effect again. */
    method RerunEffect()
      modifies this
      ensures bodyOverflow == OverflowFor(isOpen)
      ensures isOpen == old(isOpen) && scrollRequests == old(scrollRequests) && mounted == old(mounted)
    {
      bodyOverflow := Unset;
      if isOpen {
        bodyOverflow := Hidden;
      } else {
        bodyOverflow := Unset;
      }
    }

    /** `toggleMenu`: the hamburger button. */
    method Toggle()
      requires Valid()
      modifies this
      ensures Valid()
      ensures isOpen == !old(isOpen)
      ensures bodyOverflow == (if isOpen then Hidden else Unset)
      ensures scrollRequests == old(scrollRequests)
    {
      isOpen := !isOpen;
      RerunEffect();
    }

    /**
     * A click that reaches the overlay toggles the menu; a click inside the
     * navigation panel is stopped there and changes nothing.
     */
    method OverlayClick(insideNav: bool)
      requires Valid()
      modifies this
      ensures Valid()
      ensures isOpen == (if insideNav then old(isOpen) else !old(isOpen))
      ensures insideNav ==> bodyOverflow == old(bodyOverflow)
      ensures scrollRequests == old(scrollRequests)
    {
      if !insideNav {
        Toggle();
      }
    }

    /**
     * `scrollToSection`: when the section exists, one scroll request to its
     * target and the menu closes; when it does not, nothing happens at all.
     */
    method ScrollToSection(elementTop: Option<real>, pageYOffset: real)
      requires Valid()
      modifies this
      ensures Valid()
      ensures elementTop.None? ==>
                isOpen == old(isOpen) && bodyOverflow == old(bodyOverflow) && scrollRequests == old(scrollRequests)
      ensures elementTop.Some? ==>
                !isOpen && bodyOverflow == Unset
                && scrollRequests == old(scrollRequests) + [ScrollTarget(elementTop.value, pageYOffset)]
    {
      if elementTop.Some? {
        var offsetPosition := elementTop.value + pageYOffset - HeaderOffset;
        scrollRequests := scrollRequests + [offsetPosition];
        if isOpen {
          isOpen := false;
          RerunEffect();
        }
      }
    }

    /** Unmount: the last cleanup unlocks the page, whatever the menu's state. */
    method Unmount()
      requires Valid()
      modifies this
      ensures !mounted && bodyOverflow == Unset
      ensures isOpen == old(isOpen) && scrollRequests == old(scrollRequests)
    {
      bodyOverflow := Unset;
      mounted := false;
    }
  }

  /** Opening and then closing the menu leaves the page as it was before opening. */
  method ToggleTwiceRestores(menu: Menu)
    requires menu.Valid()
    modifies menu
    ensures menu.Valid()
    ensures menu.isOpen == old(menu.isOpen) && menu.bodyOverflow == old(menu.bodyOverflow)
    ensures menu.scrollRequests == old(menu.scrollRequests)
  {
    menu.Toggle();
    menu.Toggle();
  }

  // ---------------------------------------------------------------------------
  // What the component renders
  // ---------------------------------------------------------------------------

  /** The hamburger button's state-dependent attributes. */
  datatype ToggleButton = ToggleButton(className: string, ariaLabel: string, ariaExpanded: bool)

  /** The class every render of the button carries, with the separator the template puts after it. */
  const ToggleBase: string := "mobile-menu__toggle "

  /**
   * The button announces the state: expanded exactly when open, labelled
   * "Fechar menu" (close) when open and "Abrir menu" (open) when closed, and
   * its class list grows by the open modifier exactly when open.
   */
  function RenderToggle(isOpen: bool): (button: ToggleButton)
    ensures button.ariaExpanded == isOpen
    ensures button.ariaLabel == "Fechar menu" <==> isOpen
    ensures !isOpen ==> button.ariaLabel == "Abrir menu"
    ensures |ToggleBase| <= |button.className| && button.className[..|ToggleBase|] == ToggleBase
    ensures |button.className| > |ToggleBase| <==> isOpen
  {
    var className := ToggleBase + (if isOpen then "mobile-menu__toggle--open" else "");
    assert className[..|ToggleBase|] == ToggleBase;
    ToggleButton(className, if isOpen then "Fechar menu" else "Abrir menu", isOpen)
  }

  /** A link of the menu: the section it scrolls to, its `href` and its label. */
  datatype MenuItem = MenuItem(id: string, href: string, text: JsValue)

  /** The sections the menu links to, top to bottom. */
  const SectionIds: seq<string> := ["hero", "about", "projects", "skills", "contact"]

  /** The entry of the navigation section that labels a section's link: the first one is "home". */
  function NavField(id: string): (field: string)
    ensures id in SectionIds ==> field in PtNav && field in EnNav
    ensures field != id <==> id == "hero"
  {
    if id == "hero" then "home" else id
  }

  /** `menuItems`: one link per section, in order, each labelled with `t('nav.<field>')`. */
  function MenuItems(language: string): (items: seq<MenuItem>)
    ensures |items| == |SectionIds|
    ensures forall k :: 0 <= k < |items| ==>
              items[k].id == SectionIds[k] && items[k].href == "#" + SectionIds[k]
              && items[k].text == Translate(Table, language, "nav." + NavField(SectionIds[k]))
  {
    seq(|SectionIds|, k requires 0 <= k < |SectionIds| =>
      MenuItem(SectionIds[k], "#" + SectionIds[k], Translate(Table, language, "nav." + NavField(SectionIds[k]))))
  }

  /** `nav.<f>` is the dotted pair of the section name and `f`. */
  lemma NavKeyIsDotted(f: string)
    ensures "nav." + f == "nav" + "." + f
  {
    assert "nav." == "nav" + ".";
  }

  /** The navigation section of each shipped language, as a map of its own. */
  lemma NavSections()
    ensures Table["pt"] == Obj(Pt.props) && "nav" in Pt.props && Table["pt"].props["nav"] == Obj(PtNav)
    ensures Table["en"] == Obj(En.props) && "nav" in En.props && Table["en"].props["nav"] == Obj(EnNav)
  {
    TableLookups();
    PtLookups();
    EnLookups();
  }

  /**
   * In both shipped languages every link shows the navigation section's
   * non-empty text for its section; in any other language it shows its key.
   */
  lemma {:induction false} MenuLabelsAreTranslated(language: string, k: nat)
    requires k < |SectionIds|
    ensures var field := NavField(SectionIds[k]);
            language in Table ==>
              Table[language].props["nav"].Obj? && field in Table[language].props["nav"].props
              && MenuItems(language)[k].text == Table[language].props["nav"].props[field]
              && MenuItems(language)[k].text.Str? && MenuItems(language)[k].text.s != ""
    ensures language !in Table ==> MenuItems(language)[k].text == Str("nav." + NavField(SectionIds[k]))
  {
    var field := NavField(SectionIds[k]);
    if language in Table {
      NavSections();
      NavKeyIsDotted(field);
      ShippedTwoSegmentKeysResolve(language, "nav", field);
    } else {
      UnknownLanguageFallsBack(Table, language, "nav." + field);
    }
  }
}
