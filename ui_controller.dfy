/**
 * The visibility pass `applyVisibilitySettings`. The page is abstracted to the
 * inline style of each element the pass can reach, a map from element to style;
 * an element absent from the map is not in the document.
 */
module UiController {
  import opened Wrappers
  import opened Settings

  /** The UI regions of the selector table other than the nav bar, each with its hide flag. */
  datatype Region = ChatLog | CombatTracker | SidebarTabs | Players | Logo | SceneControls | MacroHotbar

  /** The selector table after `navBar`, in its order. */
  const Regions: seq<Region> := [ChatLog, CombatTracker, SidebarTabs, Players, Logo, SceneControls, MacroHotbar]

  /** Where a region sits in the selector table: every region is listed. */
  function RegionIndex(r: Region): (i: nat)
    ensures i < |Regions| && Regions[i] == r
  {
    match r
    case ChatLog => 0
    case CombatTracker => 1
    case SidebarTabs => 2
    case Players => 3
    case Logo => 4
    case SceneControls => 5
    case MacroHotbar => 6
  }

  /** The table lists each region once. */
  lemma ListedAtIndex(i: nat)
    requires i < |Regions|
    ensures RegionIndex(Regions[i]) == i
  {
  }

  /** The elements the pass can touch. */
  datatype Element =
    | Nav(n: nat)                   // any match of `#navigation`, `nav#navigation` or `.navigation`
    | RegionRoot(r: Region)         // the first match of a region's selector (`#chat`, `#sidebar`, ...)
    | TabLink(n: nat, tab: string)  // a `#sidebar-tabs a[data-tab]` link and its `data-tab`
    | ChatControls                  // `#chat-controls`
    | DiceTray(n: nat)              // any match of `.dice-tray`, `.dice-tray__buttons` or `.dice-tray__math`
    | Other(n: nat)                 // anything else

  /**
   * The inline style properties the pass writes; "" and `None` are unset.
   * The `...Important` flags are the `!important` priority of the property.
   */
  datatype Style = Style(display: string, displayImportant: bool,
                         marginTop: Option<real>, height: Option<real>, heightImportant: bool)

  /** The style attribute `display: none !important` and nothing else. */
  const NavHidden: Style := Style("none", true, None, None, false)

  /** The settings the pass reads. */
  datatype VisibilitySettings = VisibilitySettings(
    navBar: bool, chatLog: bool, combatTracker: bool, sidebarTabs: bool, players: bool,
    logo: bool, sceneControls: bool, macroHotbar: bool,
    minimalSidebar: bool, playerOffsetTop: real, sidebarHeight: real)

  /** The hide flag of a region. */
  function Hide(s: VisibilitySettings, r: Region): bool
  {
    match r
    case ChatLog => s.chatLog
    case CombatTracker => s.combatTracker
    case SidebarTabs => s.sidebarTabs
    case Players => s.players
    case Logo => s.logo
    case SceneControls => s.sceneControls
    case MacroHotbar => s.macroHotbar
  }

  /** The tabs the minimal sidebar keeps. */
  const AllowedTabs: set<string> := {"chat", "settings"}

  /** `el.style.display = v`: an ordinary (not important) display. */
  function WithDisplay(st: Style, v: string): (r: Style)
    ensures r.display == v && !r.displayImportant
    ensures r.marginTop == st.marginTop && r.height == st.height && r.heightImportant == st.heightImportant
  {
    st.(display := v, displayImportant := false)
  }

  /** The region loop's write to a region root: shown or hidden by its flag; the logo is not restyled. */
  function RegionStyled(r: Region, st: Style, s: VisibilitySettings): Style
  {
    if r == Logo then st else WithDisplay(st, if Hide(s, r) then "none" else "")
  }

  /** The style the whole pass leaves on an element it keeps. */
  function Restyled(e: Element, st: Style, s: VisibilitySettings): (r: Style)
    ensures e.Other? ==> r == st
    ensures e.Nav? ==> r == (if s.navBar then NavHidden else st)
    ensures e.RegionRoot? && e.r != Logo ==> r.display == (if Hide(s, e.r) then "none" else "") && !r.displayImportant
    ensures e == RegionRoot(Logo) ==> r == st
    ensures e == RegionRoot(Players) ==> r.marginTop == Some(s.playerOffsetTop)
    ensures e == RegionRoot(SidebarTabs) ==> r.height == Some(s.sidebarHeight) && r.heightImportant
    ensures e.TabLink? && s.minimalSidebar ==>
      r.display == (if e.tab in AllowedTabs then "" else "none") && !r.displayImportant
    ensures e.RegionRoot? && e.r != Players ==> r.marginTop == st.marginTop
    ensures e.RegionRoot? && e.r != SidebarTabs ==> r.height == st.height && r.heightImportant == st.heightImportant
    ensures !e.Nav? && !e.RegionRoot? ==>
      r.marginTop == st.marginTop && r.height == st.height && r.heightImportant == st.heightImportant
    ensures (e == ChatControls || e.DiceTray?) && s.minimalSidebar ==> r.display == "none"
    ensures !s.minimalSidebar && (e.TabLink? || e == ChatControls || e.DiceTray?) ==> r == st
  {
    match e
    case Nav(_) => if s.navBar then NavHidden else st
    case RegionRoot(r) =>
      var d := RegionStyled(r, st, s);
      if r == Players then d.(marginTop := Some(s.playerOffsetTop))
      else if r == SidebarTabs then d.(height := Some(s.sidebarHeight), heightImportant := true)
      else d
    case TabLink(_, tab) =>
      if s.minimalSidebar then WithDisplay(st, if tab in AllowedTabs then "" else "none") else st
    case ChatControls => if s.minimalSidebar then WithDisplay(st, "none") else st
    case DiceTray(_) => if s.minimalSidebar then WithDisplay(st, "none") else st
    case Other(_) => st
  }

  /** The logo is removed from the document when its flag is set. */
  predicate Removed(e: Element, s: VisibilitySettings) { e == RegionRoot(Logo) && s.logo }

  /** The document after one pass, element by element. */
  function Applied(styles: map<Element, Style>, s: VisibilitySettings): (r: map<Element, Style>)
    ensures r.Keys <= styles.Keys
    ensures forall e :: e in styles ==> (e in r <==> !Removed(e, s))
    ensures forall e :: e in styles && e.Other? ==> e in r && r[e] == styles[e]
  {
    map e | e in styles && !Removed(e, s) :: Restyled(e, styles[e], s)
  }

  /** Every write is an absolute overwrite, so restyling a restyled element changes nothing. */
  lemma RestyledIdempotent(e: Element, st: Style, s: VisibilitySettings)
    ensures Restyled(e, Restyled(e, st, s), s) == Restyled(e, st, s)
  {
  }

  /** A second pass with the same settings leaves the document as the first pass left it. */
  lemma AppliedIdempotent(styles: map<Element, Style>, s: VisibilitySettings)
    ensures Applied(Applied(styles, s), s) == Applied(styles, s)
  {
    var once := Applied(styles, s);
    forall e | e in once
      ensures Applied(once, s)[e] == once[e]
    {
      RestyledIdempotent(e, styles[e], s);
    }
  }

  /**
   * The pass creates no element and removes only the logo, exactly when its
   * flag is set; a removed logo never comes back.
   */
  lemma AppliedElements(styles: map<Element, Style>, s: VisibilitySettings)
    ensures Applied(styles, s).Keys == styles.Keys - (if s.logo then {RegionRoot(Logo)} else {})
    ensures RegionRoot(Logo) !in styles ==> RegionRoot(Logo) !in Applied(styles, s)
  {
  }

  /**
   * With the nav flag set every nav element carries exactly
   * `display: none !important`; with it unset nav elements are left as they
   * were, so a nav bar hidden earlier stays hidden.
   */
  lemma NavHiddenNeverRestored(styles: map<Element, Style>, s: VisibilitySettings, n: nat)
    requires Nav(n) in styles
    ensures s.navBar ==> Applied(styles, s)[Nav(n)] == NavHidden
    ensures !s.navBar ==> Applied(styles, s)[Nav(n)] == styles[Nav(n)]
  {
  }

  /** Each region other than the logo is hidden iff its flag is set, and shown otherwise. */
  lemma RegionShownIffNotHidden(styles: map<Element, Style>, s: VisibilitySettings, r: Region)
    requires r != Logo && RegionRoot(r) in styles
    ensures var st := Applied(styles, s)[RegionRoot(r)];
      (st.display == "none" <==> Hide(s, r)) && (st.display == "" <==> !Hide(s, r)) && !st.displayImportant
  {
  }

  /** A kept logo is not restyled: it is removed or left alone, never hidden. */
  lemma LogoRemovedNotHidden(styles: map<Element, Style>, s: VisibilitySettings)
    requires RegionRoot(Logo) in styles
    ensures s.logo <==> RegionRoot(Logo) !in Applied(styles, s)
    ensures !s.logo ==> Applied(styles, s)[RegionRoot(Logo)] == styles[RegionRoot(Logo)]
  {
  }

  /**
   * The minimal sidebar shows a tab link iff its tab is chat or settings and
   * hides the chat controls and the dice tray; when it is off those elements
   * are left as they were.
   */
  lemma MinimalSidebarOneWay(styles: map<Element, Style>, s: VisibilitySettings, e: Element)
    requires e in styles && (e.TabLink? || e == ChatControls || e.DiceTray?)
    ensures !s.minimalSidebar ==> Applied(styles, s)[e] == styles[e]
    ensures s.minimalSidebar && e.TabLink? ==>
      (Applied(styles, s)[e].display == "" <==> e.tab in AllowedTabs) &&
      (Applied(styles, s)[e].display == "none" <==> e.tab !in AllowedTabs)
    ensures s.minimalSidebar && !e.TabLink? ==> Applied(styles, s)[e].display == "none"
  {
  }

  /** The player list offset and the important sidebar height are set on every pass. */
  lemma OffsetsAlwaysSet(styles: map<Element, Style>, s: VisibilitySettings)
    ensures RegionRoot(Players) in styles ==>
      Applied(styles, s)[RegionRoot(Players)].marginTop == Some(s.playerOffsetTop)
    ensures RegionRoot(SidebarTabs) in styles ==>
      Applied(styles, s)[RegionRoot(SidebarTabs)].height == Some(s.sidebarHeight) &&
      Applied(styles, s)[RegionRoot(SidebarTabs)].heightImportant
  {
  }

  /**
   * The four stages of the pass, each stated as its method states it, compose
   * to one pass.
   */
  lemma StagesCompose(s0: map<Element, Style>, s1: map<Element, Style>, s2: map<Element, Style>,
                      s3: map<Element, Style>, s4: map<Element, Style>, s: VisibilitySettings)
    requires s1.Keys == s0.Keys
    requires forall e :: e in s1 ==> s1[e] == if e.Nav? && s.navBar then NavHidden else s0[e]
    requires s2.Keys == s1.Keys - (if s.logo then {RegionRoot(Logo)} else {})
    requires forall e :: e in s2 ==>
      s2[e] == if e.RegionRoot? then RegionStyled(e.r, s1[e], s) else s1[e]
    requires s3.Keys == s2.Keys
    requires forall e :: e in s3 ==>
      s3[e] == if (e.TabLink? || e == ChatControls || e.DiceTray?) then Restyled(e, s2[e], s) else s2[e]
    requires s4.Keys == s3.Keys
    requires forall e :: e in s4 ==>
      s4[e] == if e == RegionRoot(Players) then s3[e].(marginTop := Some(s.playerOffsetTop))
               else if e == RegionRoot(SidebarTabs) then s3[e].(height := Some(s.sidebarHeight), heightImportant := true)
               else s3[e]
    ensures s4 == Applied(s0, s)
  {
    forall e | e in s4
      ensures s4[e] == Restyled(e, s0[e], s)
    {
      assert e in s3 && e in s2 && e in s1 && e in s0;
    }
  }

  /** The document the pass works on. */
  class Document {
    var styles: map<Element, Style>

    constructor(initial: map<Element, Style>)
      ensures styles == initial
    {
      styles := initial;
    }

    /**
     * `applyVisibilitySettings()`: nothing unless the current user is the
     * configured viewer; otherwise one pass.
     */
    method ApplyVisibilitySettings(read: TargetRead, userId: string, s: VisibilitySettings)
      modifies this
      ensures styles == if IsTargetViewer(read, userId) then Applied(old(styles), s) else old(styles)
    {
      if !IsTargetViewer(read, userId) {
        return;
      }
      ApplyPass(s);
    }

    /** The pass itself, from the nav bar to the sidebar height. */
    method ApplyPass(s: VisibilitySettings)
      modifies this
      ensures styles == Applied(old(styles), s)
    {
      ghost var s0 := styles;
      HideNav(s);
      ghost var s1 := styles;
      ApplyRegions(s);
      ghost var s2 := styles;
      ApplyMinimalSidebar(s);
      ghost var s3 := styles;
      ApplyOffsets(s);
      StagesCompose(s0, s1, s2, s3, styles, s);
    }

    /** Every nav element gets the style attribute `display: none !important` when the flag is set. */
    method HideNav(s: VisibilitySettings)
      modifies this
      ensures styles.Keys == old(styles).Keys
      ensures forall e :: e in styles ==> styles[e] == if e.Nav? && s.navBar then NavHidden else old(styles)[e]
    {
      if s.navBar {
        styles := map e | e in styles :: if e.Nav? then NavHidden else styles[e];
      }
    }

    /** The loop over the selector table: each region root shown or hidden, the logo removed. */
    method ApplyRegions(s: VisibilitySettings)
      modifies this
      ensures styles.Keys == old(styles).Keys - (if s.logo then {RegionRoot(Logo)} else {})
      ensures forall e :: e in styles ==>
        styles[e] == if e.RegionRoot? then RegionStyled(e.r, old(styles)[e], s) else old(styles)[e]
    {
      ghost var start := styles;
      var i := 0;
      while i < |Regions|
        invariant 0 <= i <= |Regions|
        invariant styles.Keys == start.Keys - (if s.logo && RegionIndex(Logo) < i then {RegionRoot(Logo)} else {})
        invariant forall e :: e in styles ==>
          styles[e] == if e.RegionRoot? && RegionIndex(e.r) < i then RegionStyled(e.r, start[e], s) else start[e]
      {
        ListedAtIndex(i);
        ApplyRegion(Regions[i], s);
        i := i + 1;
      }
    }

    /** One entry of the selector table: the logo removed when hidden, any other root restyled. */
    method ApplyRegion(r: Region, s: VisibilitySettings)
      modifies this
      ensures styles.Keys == old(styles).Keys - (if r == Logo && s.logo then {RegionRoot(Logo)} else {})
      ensures forall e :: e in styles ==>
        styles[e] == if e == RegionRoot(r) then RegionStyled(r, old(styles)[e], s) else old(styles)[e]
    {
      var hidden := Hide(s, r);
      if r == Logo {
        if hidden && RegionRoot(Logo) in styles {
          styles := styles - {RegionRoot(Logo)};
        }
      } else if RegionRoot(r) in styles {
        styles := styles[RegionRoot(r) := WithDisplay(styles[RegionRoot(r)], if hidden then "none" else "")];
      }
    }

    /** The minimal sidebar: tab links by their tab, chat controls and dice tray hidden. */
    method ApplyMinimalSidebar(s: VisibilitySettings)
      modifies this
      ensures styles.Keys == old(styles).Keys
      ensures forall e :: e in styles ==>
        styles[e] == if (e.TabLink? || e == ChatControls || e.DiceTray?) then Restyled(e, old(styles)[e], s)
                     else old(styles)[e]
    {
      if !s.minimalSidebar {
        return;
      }
      styles := map e | e in styles ::
        if e.TabLink? then WithDisplay(styles[e], if e.tab in AllowedTabs then "" else "none") else styles[e];
      if ChatControls in styles {
        styles := styles[ChatControls := WithDisplay(styles[ChatControls], "none")];
      }
      styles := map e | e in styles :: if e.DiceTray? then WithDisplay(styles[e], "none") else styles[e];
    }

    /** The player list's top margin and the sidebar's important height. */
    method ApplyOffsets(s: VisibilitySettings)
      modifies this
      ensures styles.Keys == old(styles).Keys
      ensures forall e :: e in styles ==>
        styles[e] == if e == RegionRoot(Players) then old(styles)[e].(marginTop := Some(s.playerOffsetTop))
                     else if e == RegionRoot(SidebarTabs) then
                       old(styles)[e].(height := Some(s.sidebarHeight), heightImportant := true)
                     else old(styles)[e]
    {
      if RegionRoot(Players) in styles {
        styles := styles[RegionRoot(Players) := styles[RegionRoot(Players)].(marginTop := Some(s.playerOffsetTop))];
      }
      if RegionRoot(SidebarTabs) in styles {
        var st := styles[RegionRoot(SidebarTabs)];
        styles := styles[RegionRoot(SidebarTabs) := st.(height := Some(s.sidebarHeight), heightImportant := true)];
      }
    }
  }
}
