# Pinned layout selection of a video-conferencing client

This project models the spotlight/sidebar selection of the pinned layout
container of a React video-conferencing front end
(`src/meetingContainer/pinnedLayoutViewContainer/PinnedLayoutViewContainer.js`), and proves what that selection promises.

From the meeting state, the container decides four things:

- who takes the spotlight: the presenter's screen share, the whiteboard, the first pinned participant's webcam, or nobody;
- the spotlight's media type;
- which pinned participants fill the sidebar;
- the single-row strip of tiles that the grid utilities lay out for that sidebar.

The meeting state it reads is the ordered pin set, the presenter, the whiteboard
flag, the layout mode (GRID, SPOTLIGHT, SIDEBAR) and the device class. The
container also computes, in integers, the horizontal padding of the participant
area and the width of the spotlight pane.

Modules:

- `Meeting` (meeting.dfy): ids, `Option` for `null`/`undefined`, JavaScript truthiness of ids (`Truthy`), `Map.delete` on ordered keys (`Remove`), `splice(0, n)` (`SpliceFront`), the device flags, and the argument and result records of the grid utilities. The grid utilities themselves are the `LayoutUtils` record of functions.
- `PinnedMap` (pinned_map.dfy): the meeting's pin map as a class whose `keys` field is the insertion-ordered key list. Its copy constructor is `new Map(...)` and `Delete` is `Map.prototype.delete`.
- `PinnedSelection` (pinned_selection.dfy): the decision as a function (`Select`), the selection block as an imperative method (`SelectPinnedLayout`) proved equal to it, and the lemmas about it.
- `PinnedGeometry` (pinned_geometry.dfy): the padding, the width of the spotlight pane, the width of the sidebar column, and the breakpoint table of the sidebar width.

`SelectPinnedLayout` works on local copies, as the source does. It splices a
copy of the keys and deletes from a freshly built map. It has no `modifies`
clause, so Dafny's frame check proves that the caller's pin map is never changed.
The grid utilities `getGridRowsAndColumns`, `localAndPinnedOnTop` and
`getGridForMainParticipants` are not part of this model. They are passed in as
arbitrary total functions, so every property holds whatever they compute.
`PreservesCount` is the one assumption made about them, and only one lemma
uses it: they return as many entries as they are given.

Only the mobile-portrait SIDEBAR list is cut to four (`src/meetingContainer/pinnedLayoutViewContainer/PinnedLayoutViewContainer.js:107-113`); everywhere
else the whole sidebar is passed on.

## Model

| member | source | states |
|---|---|---|
| `Meeting.Remove` | src/meetingContainer/pinnedLayoutViewContainer/PinnedLayoutViewContainer.js:118-124 | Deleting a key from the copied map keeps exactly the other keys. No duplicate appears, and the length drops by one exactly when the key was present. |
| `Meeting.RemoveAt` | src/meetingContainer/pinnedLayoutViewContainer/PinnedLayoutViewContainer.js:120-124 | In a map with distinct keys, deleting any key leaves the keys before it followed by the keys after it, each in insertion order. |
| `Meeting.SpliceFront` | src/meetingContainer/pinnedLayoutViewContainer/PinnedLayoutViewContainer.js:107-113 | `splice(0, n)` splits the array into the removed front of length min(n, size) and the rest; together they are the original. |
| `PinnedMap.PinnedParticipants.Copy` | src/meetingContainer/pinnedLayoutViewContainer/PinnedLayoutViewContainer.js:118 | `new Map(pinnedParticipants)` is a fresh map with the same keys in the same order. |
| `PinnedMap.PinnedParticipants.Delete` | src/meetingContainer/pinnedLayoutViewContainer/PinnedLayoutViewContainer.js:120-124 | Delete keeps the keys distinct. It reports whether the key was present, and leaves the old keys without that one, in order. |
| `PinnedSelection.Choose` | src/meetingContainer/pinnedLayoutViewContainer/PinnedLayoutViewContainer.js:63-105 | The branch never puts anyone but pinned participants in the sidebar, nor more of them than are pinned. A share always shows the presenter, null media shows nobody, and a webcam spotlight is the first pin and is taken out of the sidebar. |
| `PinnedSelection.Cap` | src/meetingContainer/pinnedLayoutViewContainer/PinnedLayoutViewContainer.js:107-113 | The cut list is always a prefix of the list, in order: min(4, n) entries in the mobile-portrait sidebar, the whole list otherwise. |
| `PinnedSelection.OrderingPins` | src/meetingContainer/pinnedLayoutViewContainer/PinnedLayoutViewContainer.js:118-124 | The ordering gets only pinned ids, distinct when the pins are. It gets all pins unless a truthy webcam spotlight exists; that one id is then removed and every other pin stays. |
| `PinnedSelection.Select` | src/meetingContainer/pinnedLayoutViewContainer/PinnedLayoutViewContainer.js:57-167 | The decision as a value: the sidebar is never longer than the pin list, there is no spotlighted participant without a media type, and `singleRow` is empty whenever the sidebar is (that the sidebar holds only pinned ids, in pin order, is `SideBarFollowsPinOrder`). |
| `PinnedSelection.SelectPinnedLayout` | src/meetingContainer/pinnedLayoutViewContainer/PinnedLayoutViewContainer.js:57-169 | The imperative selection block returns exactly the decision `Select` describes. It modifies nothing that existed before it ran, so the caller's pin map is untouched. |
| `PinnedSelection.GridQueryOf` | src/meetingContainer/pinnedLayoutViewContainer/PinnedLayoutViewContainer.js:126-152 | The grid calculator gets `participantsCount` equal to the sidebar length. In the mobile-portrait sidebar it is told large desktop, landscape, not mobile, tab or small desktop, and not presenting. Otherwise it gets the real flags, landscape as not portrait, and "presenting" exactly when a truthy spotlight id exists. |
| `PinnedSelection.PresenterTakesSpotlight` | src/meetingContainer/pinnedLayoutViewContainer/PinnedLayoutViewContainer.js:60-73 | A pinned presenter is the spotlight with media SHARE. The sidebar is empty in SPOTLIGHT layout; otherwise it holds all pins in pin order, capped only in the mobile-portrait sidebar. |
| `PinnedSelection.WhiteboardTakesSpotlight` | src/meetingContainer/pinnedLayoutViewContainer/PinnedLayoutViewContainer.js:74-87 | Without a pinned presenter, a started whiteboard is the spotlight under the id "white-board-id" with media WHITEBOARD. The sidebar is empty in SPOTLIGHT layout; otherwise it holds all pins in pin order, cut to its first four in the mobile-portrait sidebar. |
| `PinnedSelection.SpotlightLayoutWithoutShare` | src/meetingContainer/pinnedLayoutViewContainer/PinnedLayoutViewContainer.js:89-94 | With neither a pinned presenter nor a whiteboard, SPOTLIGHT layout has no spotlight and null media, and the sidebar is every pin. |
| `PinnedSelection.FirstPinTakesSpotlight` | src/meetingContainer/pinnedLayoutViewContainer/PinnedLayoutViewContainer.js:95-104 | With neither, GRID and SIDEBAR layouts spotlight the first pin's webcam (none if nothing is pinned). The sidebar is the remaining pins in order, cut to its first four in the mobile-portrait sidebar. |
| `PinnedSelection.SpotlightPriority` | src/meetingContainer/pinnedLayoutViewContainer/PinnedLayoutViewContainer.js:65-105 | Each media type holds if and only if its branch applies: SHARE for a pinned presenter, then WHITEBOARD, then WEBCAM outside SPOTLIGHT layout. It is null only in SPOTLIGHT layout with neither. |
| `PinnedSelection.SpotlightProvenance` | src/meetingContainer/pinnedLayoutViewContainer/PinnedLayoutViewContainer.js:65-105 | A spotlight id is "white-board-id" for the whiteboard and a pinned id otherwise. It is missing exactly when the media is null, or when the media is WEBCAM and nothing is pinned. |
| `PinnedSelection.SideBarFollowsPinOrder` | src/meetingContainer/pinnedLayoutViewContainer/PinnedLayoutViewContainer.js:58-113 | The sidebar is a contiguous run of the pins in pin order. It starts after the first pin when that pin's webcam is spotlighted, and at the first pin otherwise. |
| `PinnedSelection.EveryPinShown` | src/meetingContainer/pinnedLayoutViewContainer/PinnedLayoutViewContainer.js:58-105 | Outside the mobile-portrait sidebar, and unless SPOTLIGHT layout gives the screen to a share or the whiteboard, every pinned participant is in the sidebar or in the spotlight. |
| `PinnedSelection.NoParticipantTwice` | src/meetingContainer/pinnedLayoutViewContainer/PinnedLayoutViewContainer.js:58-113 | With distinct pins, the sidebar has no duplicates, and a spotlighted webcam is not also in the sidebar. |
| `PinnedSelection.SideBarCap` | src/meetingContainer/pinnedLayoutViewContainer/PinnedLayoutViewContainer.js:107-113 | In mobile-portrait SIDEBAR the list is cut to its first min(4, n) entries, order kept. In every other mode it is unchanged. |
| `PinnedSelection.SingleRowFollowsSideBar` | src/meetingContainer/pinnedLayoutViewContainer/PinnedLayoutViewContainer.js:115-167 | `singleRow` is empty whenever the sidebar is. When the utilities keep the count they are given, it has one tile per sidebar entry, so it is empty exactly when the sidebar is. |
| `PinnedSelection.OrderingPinsCoverSideBar` | src/meetingContainer/pinnedLayoutViewContainer/PinnedLayoutViewContainer.js:118-158 | The pinned ids given to the ordering are the caller's pins, without the first one exactly when its webcam holds a truthy spotlight. They stay distinct and include every sidebar entry. |
| `PinnedGeometry.PresentingSideBarWidth` | src/meetingContainer/pinnedLayoutViewContainer/PinnedLayoutViewContainer.js:198-204 | The sidebar column beside a spotlight is one of 200, 240, 260, 280 or 320 pixels wide: 320 exactly at XL and 200 exactly at XS. |
| `PinnedGeometry.NarrowerBreakpointNarrowerColumn` | src/meetingContainer/pinnedLayoutViewContainer/PinnedLayoutViewContainer.js:198-204 | A narrower breakpoint always gets a strictly narrower column. With the five widths this fixes XL, LG, MD, SM and XS at 320, 280, 260, 240 and 200. |
| `PinnedGeometry.SideBarColumnWidth` | src/meetingContainer/pinnedLayoutViewContainer/PinnedLayoutViewContainer.js:395 | The sidebar column is the fixed presenting width beside a truthy spotlight, and the full container width otherwise. |
| `PinnedGeometry.HorizontalPadding` | src/meetingContainer/pinnedLayoutViewContainer/PinnedLayoutViewContainer.js:206-223 | Padding is 0 when the spotlight id is truthy and `singleRow` is non-empty, when a side panel is open, or when the sidebar has more than 9 ids. Otherwise 140 means a large desktop without exactly 2 tiles; 90 and 20 mean a small desktop without and with exactly 2 tiles; 60 means a landscape tablet. Nothing else is possible. |
| `PinnedGeometry.SpotlightPaneWidth` | src/meetingContainer/pinnedLayoutViewContainer/PinnedLayoutViewContainer.js:252-256 | The pane is collapsed without a truthy spotlight. With a spotlight, a sidebar takes exactly its column width out of the container, and the pane stays positive and at most the container width whenever the column is narrower than the container. |
| `PinnedGeometry.PanesFillWidth` | src/meetingContainer/pinnedLayoutViewContainer/PinnedLayoutViewContainer.js:250-256 | Whenever the sidebar column is rendered beside the pane (tiles exist, not the mobile-portrait strip, not a phone upright while someone presents: lines 341-342), the pane width and the column width of line 395 add up to the container width. With no sidebar, a spotlight takes the whole width. A pane beside a sidebar is 200 to 320 pixels narrower than the container. |
| `PinnedGeometry.PaddingFollowsSelection` | src/meetingContainer/pinnedLayoutViewContainer/PinnedLayoutViewContainer.js:206-223 | For every selection, a truthy spotlight with a non-empty `singleRow` gives padding 0. In SPOTLIGHT layout a share or the whiteboard has no tiles, and with no side panel open it is padded 140 pixels exactly on a large desktop. |

## Left out

- `src/meetingContainer/mainViewContainer/PresenterView.js` is not part of this model. It plays the screen share, wires mouse events and applies styling. Its only logic is a thin call into the grid utilities.
- The bodies of `getGridRowsAndColumns`, `localAndPinnedOnTop` and `getGridForMainParticipants` are not part of this model. They are parameters.
- `calcQuality` is only used to pick the quality of each rendered tile, so the model does not include it.
- `convertHWAspectRatio` and the whiteboard sizing are not modelled: they are floating-point aspect-ratio maths in code that is not part of this model.
- Styling is not modelled: the spacing and gutter, the inner container widths and heights, the halved heights, the sidebar strip height, percentage strings, and transition timings.
- The mobile-portrait strip's tiles and the JSX of the tiles are not modelled; of the rendering, only the guard of the sidebar column (lines 341-343) is, as `SideBarColumnShown`.
- React machinery is not modelled: `useMemo` and its dependency list, the `React.memo` comparator, and the SDK and responsive hooks. Their outputs are plain parameters: the device flags, the breakpoint, the container width, `sideBarMode`, and the ids.
- The pin metadata stored as the map's values is not modelled, because the selection reads only the keys.
- In-place updates of the local arrays are modelled as values. In every branch except the empty list of SPOTLIGHT layout, the sidebar list is the same array as the spliced copy of the keys until the mobile-portrait cut, where line 112 replaces it with the array `splice` returns. That aliasing is not represented, and it cannot be observed, because the copy is not read again.
- A missing pin map is not modelled: when the meeting object has no `pinnedParticipants`, line 58 throws, and the model always receives a map.
- Widths are integers here. A fractional `width` prop is not modelled.
- `PinnedSelection.SingleRowFollowsSideBar`: the "empty exactly when the sidebar is empty" direction is proved only under `PreservesCount`, because the grid utilities are not part of this model.
