/**
 Vocabulary shared by the pinned layout: participant ids, layout modes, the
 device classes reported by the responsive hooks, and the three grid utilities
 that the pinned layout calls but whose bodies are not part of this model.
 */
module Meeting {

  /** A participant id, as handed out by the meeting SDK. */
  type Id = string

  /** JavaScript `null` / `undefined` versus a present value. */
  datatype Option<+T> = None | Some(value: T)

  /** The values of `meetingLayouts` that the pinned layout distinguishes. */
  datatype LayoutMode = Grid | Spotlight | SideBar

  /** `spotlightMediaType`: "SHARE", "WHITEBOARD" or "WEBCAM". */
  datatype MediaType = Share | Whiteboard | Webcam

  /** The pseudo participant id under which the whiteboard is spotlighted. */
  const WhiteboardId: Id := "white-board-id"

  /** JavaScript truthiness of an optional id: `null`, `undefined` and `""` are falsy. */
  predicate Truthy(id: Option<Id>) {
    id.Some? && id.value != ""
  }

  /** No id occurs twice: the keys of a JavaScript `Map`. */
  predicate Distinct(s: seq<Id>) {
    forall i, j :: 0 <= i < j < |s| ==> s[i] != s[j]
  }

  /**
   The keys that remain after `Map.prototype.delete(x)`, in insertion order.
   */
  function Remove(s: seq<Id>, x: Id): (r: seq<Id>)
    ensures forall y :: y in r <==> y in s && y != x
    ensures |r| <= |s|
    ensures x !in s ==> r == s
    ensures Distinct(s) ==> Distinct(r)
    ensures Distinct(s) && x in s ==> |r| == |s| - 1
  {
    if s == [] then []
    else if s[0] == x then Remove(s[1..], x)
    else
      var rest := Remove(s[1..], x);
      assert Distinct(s) ==> s[0] !in s[1..] && Distinct(s[1..]);
      assert forall k :: 0 < k < |[s[0]] + rest| ==> ([s[0]] + rest)[k] == rest[k - 1];
      [s[0]] + rest
  }

  /**
   Deleting any key of a map closes the gap it leaves: the keys before it and
   the keys after it stay, each in their insertion order.
   */
  lemma {:induction false} RemoveAt(s: seq<Id>, k: nat)
    requires Distinct(s) && k < |s|
    ensures Remove(s, s[k]) == s[..k] + s[k + 1..]
  {
    if k == 0 {
      assert s[0] !in s[1..];
    } else {
      var t := s[1..];
      assert Distinct(t) && t[k - 1] == s[k] && s[0] != s[k];
      RemoveAt(t, k - 1);
      assert s[..k] + s[k + 1..] == [s[0]] + (t[..k - 1] + t[k..]);
    }
  }

  /**
   `Array.prototype.splice(0, n)` on an array holding `s`: the removed front
   (the value splice returns) and what stays in the array.
   */
  function SpliceFront(s: seq<Id>, n: nat): (r: (seq<Id>, seq<Id>))
    ensures r.0 + r.1 == s
    ensures |r.0| == if n < |s| then n else |s|
  {
    if n < |s| then (s[..n], s[n..]) else (s, [])
  }

  /** The device class and orientation reported by the responsive hooks. */
  datatype Device = Device(
    isMobile: bool,
    isTab: bool,
    isSMDesktop: bool,
    isLGDesktop: bool,
    isPortrait: bool)
  {
    /** A phone held upright. */
    predicate MobilePortrait() {
      isMobile && isPortrait
    }
  }

  /** The argument record of `getGridRowsAndColumns`. */
  datatype GridQuery = GridQuery(
    participantsCount: nat,
    isMobile: bool,
    isTab: bool,
    isSMDesktop: bool,
    isLGDesktop: bool,
    isLandscape: bool,
    isPresenting: bool)

  /** The result of `getGridRowsAndColumns`: a grid shape. */
  datatype GridInfo = GridInfo(rows: nat, columns: nat)

  /** The argument record of `localAndPinnedOnTop`. */
  datatype OrderQuery = OrderQuery(
    localParticipantId: Option<Id>,
    participants: seq<Id>,
    pinnedParticipantIds: seq<Id>,
    moveLocalUnpinnedOnTop: bool)

  /** One entry of `singleRow`: a participant and its box, in percent of the strip. */
  datatype Tile = Tile(
    participantId: Id,
    relativeTop: real,
    relativeLeft: real,
    relativeWidth: real,
    relativeHeight: real)

  /**
   The grid utilities the pinned layout calls. Their bodies are not part of
   this model: every statement about the layout holds for whatever functions
   are supplied here.
   */
  datatype LayoutUtils = LayoutUtils(
    getGridRowsAndColumns: GridQuery -> GridInfo,
    localAndPinnedOnTop: OrderQuery -> seq<Id>,
    getGridForMainParticipants: (seq<Id>, GridInfo) -> seq<Tile>)
}
