/**
 The spotlight/sidebar selection of the pinned layout container: from the pin
 order, the presenter, the whiteboard flag, the layout mode and the device it
 decides who takes the spotlight, with which media, which pinned participants
 fill the sidebar, and the single-row strip the grid utilities lay out for them.
 */
module PinnedSelection {
  import opened Meeting
  import opened PinnedMap

  /** The record `obj` as the three-way branch first builds it. */
  datatype Choice = Choice(
    spotlightParticipantId: Option<Id>,
    sideBarPinnedParticipantIds: seq<Id>,
    spotlightMediaType: Option<MediaType>)

  /**
   What the selection block reads: the pin order, the presenter, the
   whiteboard flag, the layout mode, the device and the local participant.
   */
  datatype LayoutInputs = LayoutInputs(
    pins: seq<Id>,
    presenterId: Option<Id>,
    whiteboardStarted: bool,
    layout: LayoutMode,
    device: Device,
    localParticipantId: Option<Id>)

  /** The record the selection block returns. */
  datatype Selection = Selection(
    spotlightParticipantId: Option<Id>,
    sideBarPinnedParticipantIds: seq<Id>,
    spotlightMediaType: Option<MediaType>,
    singleRow: seq<Tile>)

  /** The presenter is one of the pinned participants. */
  predicate PresenterPinned(pins: seq<Id>, presenterId: Option<Id>) {
    presenterId.Some? && presenterId.value in pins
  }

  /** A phone held upright in SIDEBAR layout: the sidebar becomes a strip of at most four. */
  predicate SideBarStrip(device: Device, layout: LayoutMode) {
    device.MobilePortrait() && layout == SideBar
  }

  /**
   Who takes the spotlight: a pinned presenter's screen share first, then the
   whiteboard, then (outside SPOTLIGHT layout) the first pinned participant.
   */
  function Choose(pins: seq<Id>, presenterId: Option<Id>, whiteboardStarted: bool, layout: LayoutMode): (c: Choice)
    // the sidebar only ever holds pinned participants, never more of them than are pinned
    ensures |c.sideBarPinnedParticipantIds| <= |pins|
    ensures forall id :: id in c.sideBarPinnedParticipantIds ==> id in pins
    // a share always shows the presenter, and a null media type shows nobody
    ensures c.spotlightMediaType == Some(Share) ==> c.spotlightParticipantId == presenterId
    ensures c.spotlightMediaType == None ==> c.spotlightParticipantId == None
    // a webcam spotlight is the first pin and is taken out of the sidebar
    ensures c.spotlightMediaType == Some(Webcam) ==>
      c.spotlightParticipantId == (if pins == [] then None else Some(pins[0])) &&
      c.sideBarPinnedParticipantIds == (if pins == [] then [] else pins[1..])
  {
    if PresenterPinned(pins, presenterId) then
      Choice(presenterId, if layout == Spotlight then [] else pins, Some(Share))
    else if whiteboardStarted then
      Choice(Some(WhiteboardId), if layout == Spotlight then [] else pins, Some(Whiteboard))
    else if layout == Spotlight then
      Choice(None, pins, None)
    else
      Choice(if |pins| > 0 then Some(pins[0]) else None, SpliceFront(pins, 1).1, Some(Webcam))
  }

  /** The sidebar after the mobile-portrait cut to the first four entries. */
  function Cap(ids: seq<Id>, strip: bool): (r: seq<Id>)
    // always a prefix of the list, in its order
    ensures |r| <= |ids| && r == ids[..|r|]
    ensures strip ==> |r| == (if |ids| < 4 then |ids| else 4)
    ensures !strip ==> r == ids
  {
    if strip then SpliceFront(ids, 4).0 else ids
  }

  /** The pinned ids handed to the ordering: a webcam spotlight is no longer pinned there. */
  function OrderingPins(pins: seq<Id>, c: Choice): (o: seq<Id>)
    ensures forall id :: id in o ==> id in pins
    ensures Distinct(pins) ==> Distinct(o)
    ensures c.spotlightMediaType != Some(Webcam) || !Truthy(c.spotlightParticipantId) ==> o == pins
    ensures c.spotlightMediaType == Some(Webcam) && Truthy(c.spotlightParticipantId) ==>
      c.spotlightParticipantId.value !in o && forall id :: id in pins && id != c.spotlightParticipantId.value ==> id in o
  {
    if c.spotlightMediaType == Some(Webcam) && Truthy(c.spotlightParticipantId)
    then Remove(pins, c.spotlightParticipantId.value)
    else pins
  }

  /**
   The argument of `getGridRowsAndColumns`: the mobile-portrait strip is laid
   out as a large landscape desktop that presents nothing; otherwise the real
   device flags go through and "presenting" means a spotlight is shown.
   */
  function GridQueryOf(participantsCount: nat, device: Device, strip: bool, spotlight: Option<Id>): (q: GridQuery)
    ensures q.participantsCount == participantsCount
    ensures strip ==> !q.isMobile && !q.isTab && !q.isSMDesktop && q.isLGDesktop && q.isLandscape && !q.isPresenting
    ensures !strip ==> (q.isMobile == device.isMobile && q.isTab == device.isTab &&
                        q.isSMDesktop == device.isSMDesktop && q.isLGDesktop == device.isLGDesktop)
    ensures !strip ==> (q.isLandscape <==> !device.isPortrait) && (q.isPresenting <==> Truthy(spotlight))
  {
    GridQuery(
      participantsCount,
      if strip then false else device.isMobile,
      if strip then false else device.isTab,
      if strip then false else device.isSMDesktop,
      if strip then true else device.isLGDesktop,
      if strip then true else !device.isPortrait,
      if strip then false else Truthy(spotlight))
  }

  /** The whole selection, as one value of its inputs. */
  function Select(x: LayoutInputs, utils: LayoutUtils): (r: Selection)
    ensures |r.sideBarPinnedParticipantIds| <= |x.pins|
    ensures r.spotlightMediaType == None ==> r.spotlightParticipantId == None
    ensures r.sideBarPinnedParticipantIds == [] ==> r.singleRow == []
  {
    var c := Choose(x.pins, x.presenterId, x.whiteboardStarted, x.layout);
    var strip := SideBarStrip(x.device, x.layout);
    var sideBar := Cap(c.sideBarPinnedParticipantIds, strip);
    var singleRow :=
      if |sideBar| == 0 then []
      else utils.getGridForMainParticipants(
        utils.localAndPinnedOnTop(OrderQuery(x.localParticipantId, sideBar, OrderingPins(x.pins, c), false)),
        utils.getGridRowsAndColumns(GridQueryOf(|sideBar|, x.device, strip, c.spotlightParticipantId)));
    Selection(c.spotlightParticipantId, sideBar, c.spotlightMediaType, singleRow)
  }

  /**
   The selection block as the component runs it: it copies the pin keys,
   splices the copy, builds a fresh map to delete from, and never touches the
   caller's map (this method may modify nothing that existed before it ran).
   */
  method SelectPinnedLayout(
    pinned: PinnedParticipants, presenterId: Option<Id>, whiteboardStarted: bool, layout: LayoutMode,
    device: Device, localParticipantId: Option<Id>, utils: LayoutUtils)
    returns (r: Selection)
    requires pinned.Valid()
    ensures r == Select(LayoutInputs(pinned.keys, presenterId, whiteboardStarted, layout, device, localParticipantId), utils)
  {
    var pinnedParticipantIds := pinned.keys;
    var pinnedPresenter := presenterId.Some? && presenterId.value in pinnedParticipantIds;

    var spotlightParticipantId: Option<Id>;
    var sideBarPinnedParticipantIds: seq<Id>;
    var spotlightMediaType: Option<MediaType>;
    if pinnedPresenter {
      spotlightParticipantId := presenterId;
      sideBarPinnedParticipantIds := if layout == Spotlight then [] else pinnedParticipantIds;
      spotlightMediaType := Some(Share);
    } else if whiteboardStarted {
      spotlightParticipantId := Some(WhiteboardId);
      sideBarPinnedParticipantIds := if layout == Spotlight then [] else pinnedParticipantIds;
      spotlightMediaType := Some(Whiteboard);
    } else if layout == Spotlight {
      spotlightParticipantId := None;
      sideBarPinnedParticipantIds := pinnedParticipantIds;
      spotlightMediaType := None;
    } else {
      spotlightParticipantId := if |pinnedParticipantIds| > 0 then Some(pinnedParticipantIds[0]) else None;
      // splice(0, 1): the removed front is discarded, the copy keeps the rest
      pinnedParticipantIds := SpliceFront(pinnedParticipantIds, 1).1;
      sideBarPinnedParticipantIds := pinnedParticipantIds;
      spotlightMediaType := Some(Webcam);
    }
    ghost var c := Choose(pinned.keys, presenterId, whiteboardStarted, layout);
    assert c == Choice(spotlightParticipantId, sideBarPinnedParticipantIds, spotlightMediaType);

    var strip := device.MobilePortrait() && layout == SideBar;
    if strip {
      sideBarPinnedParticipantIds := SpliceFront(sideBarPinnedParticipantIds, 4).0;
    }
    assert sideBarPinnedParticipantIds == Cap(c.sideBarPinnedParticipantIds, strip);

    var participantsCount := |sideBarPinnedParticipantIds|;
    var singleRow: seq<Tile>;
    if participantsCount > 0 {
      var pinnedParticipantsMap := new PinnedParticipants.Copy(pinned);
      if spotlightMediaType == Some(Webcam) && Truthy(spotlightParticipantId) {
        var deleted := pinnedParticipantsMap.Delete(spotlightParticipantId.value);
      }
      assert pinnedParticipantsMap.keys == OrderingPins(pinned.keys, c);
      var gridInfo := utils.getGridRowsAndColumns(
        GridQueryOf(participantsCount, device, strip, spotlightParticipantId));
      var ordered := utils.localAndPinnedOnTop(
        OrderQuery(localParticipantId, sideBarPinnedParticipantIds, pinnedParticipantsMap.keys, false));
      singleRow := utils.getGridForMainParticipants(ordered, gridInfo);
    } else {
      singleRow := [];
    }

    r := Selection(spotlightParticipantId, sideBarPinnedParticipantIds, spotlightMediaType, singleRow);
  }

  // ---------------------------------------------------------------------------
  // The decision table, case by case, on the final result.

  /** A pinned presenter's screen share takes the spotlight. */
  lemma PresenterTakesSpotlight(x: LayoutInputs, utils: LayoutUtils)
    requires PresenterPinned(x.pins, x.presenterId)
    ensures var r := Select(x, utils);
      r.spotlightParticipantId == x.presenterId && r.spotlightMediaType == Some(Share) &&
      r.sideBarPinnedParticipantIds == if x.layout == Spotlight then [] else Cap(x.pins, SideBarStrip(x.device, x.layout))
  {
  }

  /** Without a pinned presenter, a started whiteboard takes the spotlight. */
  lemma WhiteboardTakesSpotlight(x: LayoutInputs, utils: LayoutUtils)
    requires !PresenterPinned(x.pins, x.presenterId) && x.whiteboardStarted
    ensures var r := Select(x, utils);
      r.spotlightParticipantId == Some(WhiteboardId) && r.spotlightMediaType == Some(Whiteboard) &&
      r.sideBarPinnedParticipantIds == if x.layout == Spotlight then [] else Cap(x.pins, SideBarStrip(x.device, x.layout))
  {
  }

  /** Otherwise SPOTLIGHT layout shows no spotlight and every pin in the sidebar. */
  lemma SpotlightLayoutWithoutShare(x: LayoutInputs, utils: LayoutUtils)
    requires !PresenterPinned(x.pins, x.presenterId) && !x.whiteboardStarted && x.layout == Spotlight
    ensures var r := Select(x, utils);
      r.spotlightParticipantId == None && r.spotlightMediaType == None && r.sideBarPinnedParticipantIds == x.pins
  {
  }

  /** Otherwise GRID and SIDEBAR spotlight the first pin's webcam; the rest fill the sidebar. */
  lemma FirstPinTakesSpotlight(x: LayoutInputs, utils: LayoutUtils)
    requires !PresenterPinned(x.pins, x.presenterId) && !x.whiteboardStarted && x.layout != Spotlight
    ensures var r := Select(x, utils);
      r.spotlightMediaType == Some(Webcam) &&
      r.spotlightParticipantId == (if x.pins == [] then None else Some(x.pins[0])) &&
      r.sideBarPinnedParticipantIds == Cap(if x.pins == [] then [] else x.pins[1..], SideBarStrip(x.device, x.layout))
  {
  }

  // ---------------------------------------------------------------------------
  // What the decision means.

  /**
   The media type names the branch taken, in priority order: share beats
   whiteboard beats webcam, and only SPOTLIGHT layout with neither leaves the
   spotlight empty.
   */
  lemma SpotlightPriority(x: LayoutInputs, utils: LayoutUtils)
    ensures var r := Select(x, utils);
      var pp := PresenterPinned(x.pins, x.presenterId);
      (r.spotlightMediaType == Some(Share) <==> pp) &&
      (r.spotlightMediaType == Some(Whiteboard) <==> !pp && x.whiteboardStarted) &&
      (r.spotlightMediaType == Some(Webcam) <==> !pp && !x.whiteboardStarted && x.layout != Spotlight) &&
      (r.spotlightMediaType == None <==> !pp && !x.whiteboardStarted && x.layout == Spotlight)
  {
  }

  /**
   A spotlight id is the whiteboard's pseudo id or a pinned participant; it is
   missing exactly when the media type is null or no one is pinned for a webcam.
   */
  lemma SpotlightProvenance(x: LayoutInputs, utils: LayoutUtils)
    ensures var r := Select(x, utils);
      var s := r.spotlightParticipantId;
      (s.Some? ==> if r.spotlightMediaType == Some(Whiteboard) then s.value == WhiteboardId else s.value in x.pins) &&
      (s.None? <==> r.spotlightMediaType == None || (r.spotlightMediaType == Some(Webcam) && x.pins == []))
  {
  }

  /**
   The sidebar is a contiguous run of the pins in pin order: it starts right
   after the first pin when that pin's webcam is spotlighted, else at the first pin.
   */
  lemma SideBarFollowsPinOrder(x: LayoutInputs, utils: LayoutUtils)
    ensures var r := Select(x, utils);
      var sb := r.sideBarPinnedParticipantIds;
      var k := if r.spotlightMediaType == Some(Webcam) && x.pins != [] then 1 else 0;
      k + |sb| <= |x.pins| && sb == x.pins[k..k + |sb|]
  {
  }

  /**
   Unless the mobile-portrait cut applies or SPOTLIGHT layout gives the whole
   screen to a share or the whiteboard, every pinned participant is shown: in
   the sidebar or in the spotlight.
   */
  lemma EveryPinShown(x: LayoutInputs, utils: LayoutUtils)
    requires !SideBarStrip(x.device, x.layout)
    ensures var r := Select(x, utils);
      x.layout != Spotlight || r.spotlightMediaType == None ==>
        forall id :: id in x.pins ==> id in r.sideBarPinnedParticipantIds || r.spotlightParticipantId == Some(id)
  {
  }

  /**
   No participant gets two sidebar tiles, and a spotlighted webcam is not
   repeated in the sidebar.
   */
  lemma NoParticipantTwice(x: LayoutInputs, utils: LayoutUtils)
    requires Distinct(x.pins)
    ensures var r := Select(x, utils);
      Distinct(r.sideBarPinnedParticipantIds) &&
      (r.spotlightMediaType == Some(Webcam) && r.spotlightParticipantId.Some? ==>
         r.spotlightParticipantId.value !in r.sideBarPinnedParticipantIds)
  {
  }

  /**
   In the mobile-portrait sidebar the list is cut to its first four entries,
   order kept; in every other mode it is left whole.
   */
  lemma SideBarCap(x: LayoutInputs, utils: LayoutUtils)
    ensures var r := Select(x, utils);
      var full := Choose(x.pins, x.presenterId, x.whiteboardStarted, x.layout).sideBarPinnedParticipantIds;
      var sb := r.sideBarPinnedParticipantIds;
      if SideBarStrip(x.device, x.layout)
      then |sb| == (if |full| < 4 then |full| else 4) && sb == full[..|sb|]
      else sb == full
  {
  }

  /** The ordering utilities keep the number of entries they are given. */
  ghost predicate PreservesCount(utils: LayoutUtils) {
    (forall q :: |utils.localAndPinnedOnTop(q)| == |q.participants|) &&
    (forall ps, g :: |utils.getGridForMainParticipants(ps, g)| == |ps|)
  }

  /**
   `singleRow` is empty whenever the sidebar is; and when the utilities keep
   the count they are given, it has one tile per sidebar entry, so it is
   empty exactly when the sidebar is.
   */
  lemma SingleRowFollowsSideBar(x: LayoutInputs, utils: LayoutUtils)
    ensures var r := Select(x, utils);
      (r.sideBarPinnedParticipantIds == [] ==> r.singleRow == []) &&
      (PreservesCount(utils) ==> |r.singleRow| == |r.sideBarPinnedParticipantIds|)
  {
  }

  /**
   The pinned ids passed to the ordering are the caller's pins, less the first
   one exactly when its webcam holds the spotlight; they still cover every
   sidebar entry, so the whole sidebar is ordered as pinned.
   */
  lemma OrderingPinsCoverSideBar(x: LayoutInputs, utils: LayoutUtils)
    requires Distinct(x.pins)
    ensures var r := Select(x, utils);
      var o := OrderingPins(x.pins, Choose(x.pins, x.presenterId, x.whiteboardStarted, x.layout));
      Distinct(o) &&
      o == (if r.spotlightMediaType == Some(Webcam) && Truthy(r.spotlightParticipantId) then x.pins[1..] else x.pins) &&
      forall id :: id in r.sideBarPinnedParticipantIds ==> id in o
  {
  }
}
