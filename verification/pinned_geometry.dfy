/**
 The integer layout arithmetic of the pinned layout container: the horizontal
 padding of the participant area, the width of the spotlight pane, and the
 width of the sidebar column beside it. Pixel sizes come in as integers.
 */
module PinnedGeometry {
  import opened Meeting
  import opened PinnedSelection

  /** The breakpoints of the responsive-size hook, widest first. */
  datatype Breakpoint = XL | LG | MD | SM | XS

  /** The position of a breakpoint from the widest (0) to the narrowest (4). */
  function Rank(bp: Breakpoint): (n: nat)
    ensures n <= 4
  {
    match bp
    case XL => 0
    case LG => 1
    case MD => 2
    case SM => 3
    case XS => 4
  }

  /** `presentingSideBarWidth`: the sidebar column's width beside a spotlight. */
  function PresentingSideBarWidth(bp: Breakpoint): (w: int)
    ensures w in {200, 240, 260, 280, 320}
    ensures bp == XL <==> w == 320
    ensures bp == XS <==> w == 200
  {
    match bp
    case XL => 320
    case LG => 280
    case MD => 260
    case SM => 240
    case XS => 200
  }

  /**
   A narrower breakpoint never gets a wider column, and different breakpoints
   get different widths: with the five widths above this fixes XL, LG, MD, SM
   and XS at 320, 280, 260, 240 and 200 pixels.
   */
  lemma NarrowerBreakpointNarrowerColumn(a: Breakpoint, b: Breakpoint)
    requires Rank(a) < Rank(b)
    ensures PresentingSideBarWidth(a) > PresentingSideBarWidth(b)
  {
  }

  /**
   `mainContainerHorizontalPadding`. `sideBarMode` is present exactly when the
   app context holds a string there (some side panel is open).
   */
  function HorizontalPadding(
    spotlight: Option<Id>, singleRowLength: nat, sideBarMode: Option<string>,
    sideBarLength: nat, device: Device): (p: nat)
    // a truthy spotlight with a non-empty single row, a side panel open, or a long sidebar
    ensures (Truthy(spotlight) && singleRowLength != 0) || sideBarMode.Some? || sideBarLength > 9 ==> p == 0
    // otherwise each width belongs to one device class
    ensures var open := !(Truthy(spotlight) && singleRowLength != 0) && sideBarMode.None? && sideBarLength <= 9;
      (p == 140 <==> open && device.isLGDesktop && singleRowLength != 2) &&
      (p == 90 <==> open && !device.isLGDesktop && device.isSMDesktop && singleRowLength != 2) &&
      (p == 20 <==> open && !device.isLGDesktop && device.isSMDesktop && singleRowLength == 2) &&
      (p == 60 <==> open && !device.isLGDesktop && !device.isSMDesktop && device.isTab && !device.isPortrait)
    ensures p in {0, 20, 60, 90, 140}
  {
    if Truthy(spotlight) && singleRowLength != 0 then 0
    else if sideBarMode.Some? then 0
    else if sideBarLength <= 9 then
      if device.isLGDesktop then (if singleRowLength == 2 then 0 else 140)
      else if device.isSMDesktop then (if singleRowLength == 2 then 20 else 90)
      else if device.isTab && !device.isPortrait then 60
      else 0
    else 0
  }

  /** The width of the spotlight pane. */
  function SpotlightPaneWidth(spotlight: Option<Id>, sideBarLength: nat, width: int, presentingSideBarWidth: int): (w: int)
    // collapsed when nothing is spotlighted; open whenever the sidebar is narrower than the container
    ensures !Truthy(spotlight) ==> w == 0
    ensures Truthy(spotlight) && 0 <= presentingSideBarWidth < width ==> 0 < w <= width
    // a sidebar takes its fixed column out of the pane
    ensures Truthy(spotlight) ==> width - w == if sideBarLength > 0 then presentingSideBarWidth else 0
  {
    if Truthy(spotlight) then
      if sideBarLength > 0 then width - presentingSideBarWidth else width
    else 0
  }

  /** The width of the sidebar column: a fixed column beside a spotlight, else the full width. */
  function SideBarColumnWidth(spotlight: Option<Id>, width: int, presentingSideBarWidth: int): (w: int)
    ensures Truthy(spotlight) ==> w == presentingSideBarWidth
    ensures !Truthy(spotlight) ==> w == width
  {
    if Truthy(spotlight) then presentingSideBarWidth else width
  }

  /**
   The sidebar column is rendered beside the spotlight pane: there are tiles,
   the phone is not upright while someone presents, and the tiles do not go to
   the mobile-portrait strip under the pane instead.
   */
  predicate SideBarColumnShown(x: LayoutInputs, r: Selection) {
    r.singleRow != [] &&
    !(x.device.MobilePortrait() && Truthy(x.presenterId)) &&
    !SideBarStrip(x.device, x.layout)
  }

  /**
   Whenever the sidebar column is rendered beside the spotlight pane, the two
   fill the container width exactly; with no sidebar the spotlight, if any,
   takes the whole width. Beside a sidebar the pane is 200 to 320 pixels
   narrower than the container.
   */
  lemma PanesFillWidth(x: LayoutInputs, utils: LayoutUtils, width: int, bp: Breakpoint)
    ensures var r := Select(x, utils);
      var psw := PresentingSideBarWidth(bp);
      var pane := SpotlightPaneWidth(r.spotlightParticipantId, |r.sideBarPinnedParticipantIds|, width, psw);
      var column := SideBarColumnWidth(r.spotlightParticipantId, width, psw);
      (SideBarColumnShown(x, r) ==> pane + column == width) &&
      (r.sideBarPinnedParticipantIds == [] ==> pane == if Truthy(r.spotlightParticipantId) then width else 0) &&
      (Truthy(r.spotlightParticipantId) ==> width - 320 <= pane <= width - 200 || pane == width)
  {
  }

  /**
   A truthy spotlight with a non-empty single row is never padded. In SPOTLIGHT layout a share or
   the whiteboard has the screen to itself: there are no tiles, and with no
   side panel open it is padded 140 pixels exactly on a large desktop.
   */
  lemma PaddingFollowsSelection(x: LayoutInputs, utils: LayoutUtils, sideBarMode: Option<string>)
    ensures var r := Select(x, utils);
      var p := HorizontalPadding(r.spotlightParticipantId, |r.singleRow|, sideBarMode,
                                 |r.sideBarPinnedParticipantIds|, x.device);
      (Truthy(r.spotlightParticipantId) && r.singleRow != [] ==> p == 0) &&
      (x.layout == Spotlight && r.spotlightMediaType.Some? && sideBarMode.None? ==>
         r.singleRow == [] && (p == 140 <==> x.device.isLGDesktop))
  {
  }
}
