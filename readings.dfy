/**
  The frame-to-reading decoder of the mmWave sensor component (`get_readings`).

  The driver's `get_data()` value is a Python list whose first element is, for a
  standard-mode frame, the list `[type, move_dist, move_energy, static_dist,
  static_energy, overall_dist]`. The component turns it into a dictionary with
  exactly six keys; here that dictionary is a `map<string, FieldValue>`.
 */
module Readings {
  import opened Wrappers

  /** A value stored in the reading dictionary: the status text or a number. */
  datatype FieldValue = Text(text: string) | Number(number: int)

  type Reading = map<string, FieldValue>

  const StatusKey := "detection_status"
  const MovingDistanceKey := "moving_distance_cm"
  const MovingEnergyKey := "moving_energy"
  const StaticDistanceKey := "static_distance_cm"
  const StaticEnergyKey := "static_energy"
  const OverallDistanceKey := "overall_distance_cm"

  /** The numeric keys, in the order their values appear in a frame after the type. */
  const NumericKeys: seq<string> :=
    [MovingDistanceKey, MovingEnergyKey, StaticDistanceKey, StaticEnergyKey, OverallDistanceKey]

  const ReadingKeys: set<string> :=
    {StatusKey, MovingDistanceKey, MovingEnergyKey, StaticDistanceKey, StaticEnergyKey, OverallDistanceKey}

  const NoTarget := "No Target"
  const MovingTarget := "Moving Target"
  const StaticTarget := "Static Target"
  const MovingAndStaticTargets := "Moving and Static Targets"
  const UnknownStatus := "Unknown"
  const ErrorStatus := "Error"
  const NoDataStatus := "No Data"

  /** The detection-type table of the decoder. */
  const StatusTable: map<int, string> :=
    map[0 := NoTarget, 1 := MovingTarget, 2 := StaticTarget, 3 := MovingAndStaticTargets]

  /** The first element of the driver's data: a Python list of numbers, or anything else. */
  datatype Item = ListItem(elems: seq<int>) | OtherItem

  /** The value `get_data()` returns: `None`, or a list of items. */
  type Data = Option<seq<Item>>

  /** What calling `get_data()` on the handle gives: a value, or an exception. */
  datatype Fetch = Fetched(data: Data) | FetchRaised

  /** Exceptions that escape `get_readings`. */
  datatype PyError =
    | ValueError   // unpacking a frame that does not have exactly six elements
    | DriverError  // raised by the driver's `get_data()`

  datatype Outcome = Returned(reading: Reading) | Raised(error: PyError)

  /** `data and isinstance(data[0], list)`: `None` and the empty list are falsy. */
  predicate HasFrame(data: Data) {
    data.Some? && |data.value| > 0 && data.value[0].ListItem?
  }

  /** Every key present, the status a text and every other field a number. */
  ghost predicate Shaped(r: Reading) {
    r.Keys == ReadingKeys && r[StatusKey].Text? &&
    forall i :: 0 <= i < |NumericKeys| ==> r[NumericKeys[i]].Number?
  }

  function StatusOf(r: Reading): string
    requires Shaped(r)
  {
    r[StatusKey].text
  }

  /** The five numeric fields of a reading, in frame order. */
  function NumbersOf(r: Reading): (ns: seq<int>)
    requires Shaped(r)
    ensures |ns| == |NumericKeys|
  {
    seq(|NumericKeys|, i requires 0 <= i < |NumericKeys| => r[NumericKeys[i]].number)
  }

  /** The table lookup with its default: `{...}.get(detection_type, "Unknown")`. */
  function DetectionStatus(t: int): (s: string)
    ensures s == UnknownStatus <==> t !in StatusTable
    ensures s != ErrorStatus && s != NoDataStatus
  {
    if t in StatusTable then StatusTable[t] else UnknownStatus
  }

  /** Reverse lookup of the table: which detection type a status text stands for. */
  function DetectionType(s: string): (t: Option<int>)
    ensures t.Some? ==> t.value in StatusTable && StatusTable[t.value] == s
    ensures t.None? ==> forall k :: k in StatusTable ==> StatusTable[k] != s
  {
    if s == NoTarget then Some(0)
    else if s == MovingTarget then Some(1)
    else if s == StaticTarget then Some(2)
    else if s == MovingAndStaticTargets then Some(3)
    else None
  }

  /** The reading returned on the error paths: the given status and every number zero. */
  function ZeroReading(status: string): (r: Reading)
    ensures Shaped(r) && StatusOf(r) == status
    ensures NumbersOf(r) == [0, 0, 0, 0, 0]
  {
    map[StatusKey := Text(status),
        MovingDistanceKey := Number(0),
        MovingEnergyKey := Number(0),
        StaticDistanceKey := Number(0),
        StaticEnergyKey := Number(0),
        OverallDistanceKey := Number(0)]
  }

  /** The reading built from an unpacked six-element frame. */
  function FrameReading(frame: seq<int>): (r: Reading)
    requires |frame| == 6
    ensures Shaped(r)
  {
    map[StatusKey := Text(DetectionStatus(frame[0])),
        MovingDistanceKey := Number(frame[1]),
        MovingEnergyKey := Number(frame[2]),
        StaticDistanceKey := Number(frame[3]),
        StaticEnergyKey := Number(frame[4]),
        OverallDistanceKey := Number(frame[5])]
  }

  /** Everything `get_readings` does after `get_data()` has returned `data`. */
  function DecodeData(data: Data): (o: Outcome)
    ensures o.Returned? ==> Shaped(o.reading)
    ensures o.Raised? <==> HasFrame(data) && |data.value[0].elems| != 6
    ensures o.Raised? ==> o.error == ValueError
  {
    if HasFrame(data) then
      var frame := data.value[0].elems;
      if |frame| == 6 then Returned(FrameReading(frame)) else Raised(ValueError)
    else
      Returned(ZeroReading(NoDataStatus))
  }

  /**
    `get_readings`: `present` says whether the component holds a radar handle,
    `fetch` is what that handle's `get_data()` gives (unused when there is none).
   */
  function ReadingsFor(present: bool, fetch: Fetch): (o: Outcome)
    ensures o.Returned? ==> Shaped(o.reading)
    ensures o.Raised? <==> present && (fetch.FetchRaised? || (HasFrame(fetch.data) && |fetch.data.value[0].elems| != 6))
    ensures o.Raised? ==> (o.error == DriverError <==> fetch.FetchRaised?)
  {
    if !present then Returned(ZeroReading(ErrorStatus))
    else match fetch
      case FetchRaised => Raised(DriverError)
      case Fetched(data) => DecodeData(data)
  }

  /** The frame a reading of a known detection type was decoded from, if any. */
  function FrameOf(r: Reading): Option<seq<int>>
    requires Shaped(r)
  {
    match DetectionType(StatusOf(r))
    case Some(t) => Some([t] + NumbersOf(r))
    case None => None
  }

  /** The five numbers of a frame land, unchanged and in order, in the five numeric fields. */
  lemma FrameFieldsCopied(frame: seq<int>)
    requires |frame| == 6
    ensures NumbersOf(FrameReading(frame)) == frame[1..]
    ensures StatusOf(FrameReading(frame)) == DetectionStatus(frame[0])
  {
  }

  /** Types 0 to 3 name four different statuses: reading the table backwards recovers the type. */
  lemma DetectionStatusRoundTrip(t: int)
    requires t in StatusTable
    ensures DetectionType(DetectionStatus(t)) == Some(t)
  {
  }

  /** A type found by reading the table backwards looks up to the same status. */
  lemma DetectionTypeRoundTrip(s: string, t: int)
    requires DetectionType(s) == Some(t)
    ensures DetectionStatus(t) == s
  {
  }

  /** The exact table: 0, 1, 2 and 3 give the four target statuses, anything else "Unknown". */
  lemma DetectionStatusTable(t: int)
    ensures t == 0 ==> DetectionStatus(t) == "No Target"
    ensures t == 1 ==> DetectionStatus(t) == "Moving Target"
    ensures t == 2 ==> DetectionStatus(t) == "Static Target"
    ensures t == 3 ==> DetectionStatus(t) == "Moving and Static Targets"
    ensures !(0 <= t <= 3) ==> DetectionStatus(t) == "Unknown"
  {
  }

  /** A frame whose type is in the table can be recovered from its reading ... */
  lemma FrameRoundTrip(frame: seq<int>)
    requires |frame| == 6 && frame[0] in StatusTable
    ensures FrameOf(FrameReading(frame)) == Some(frame)
  {
    FrameFieldsCopied(frame);
    DetectionStatusRoundTrip(frame[0]);
    assert [frame[0]] + frame[1..] == frame;
  }

  /** ... and every shaped reading that names a table type is the reading of that frame. */
  lemma ReadingRoundTrip(r: Reading)
    requires Shaped(r) && FrameOf(r).Some?
    ensures |FrameOf(r).value| == 6 && FrameReading(FrameOf(r).value) == r
  {
  }

  /** Frames that differ only in a type outside the table give the same reading. */
  lemma UnknownTypesIndistinguishable(f: seq<int>, g: seq<int>)
    requires |f| == 6 && |g| == 6 && f[1..] == g[1..]
    requires f[0] !in StatusTable && g[0] !in StatusTable
    ensures FrameReading(f) == FrameReading(g)
  {
  }

  /**
    The status of a returned reading tells which path produced it: "Error" exactly
    when there is no handle, "No Data" exactly when the data holds no list frame,
    otherwise a table status whose numbers are the frame's.
   */
  lemma StatusIdentifiesPath(present: bool, fetch: Fetch)
    requires ReadingsFor(present, fetch).Returned?
    ensures var r := ReadingsFor(present, fetch).reading;
      && (StatusOf(r) == ErrorStatus <==> !present)
      && (StatusOf(r) == NoDataStatus <==> present && !HasFrame(fetch.data))
      && (StatusOf(r) in {ErrorStatus, NoDataStatus} ==> NumbersOf(r) == [0, 0, 0, 0, 0])
      && (present && HasFrame(fetch.data) ==>
            NumbersOf(r) == fetch.data.value[0].elems[1..] &&
            StatusOf(r) == DetectionStatus(fetch.data.value[0].elems[0]))
  {
  }

  /** The sample frame `[[1, 150, 80, 0, 0, 150]]` decodes to a moving target at 150 cm. */
  lemma MovingTargetExample()
    ensures ReadingsFor(true, Fetched(Some([ListItem([1, 150, 80, 0, 0, 150])]))) ==
      Returned(map["detection_status" := Text("Moving Target"),
                   "moving_distance_cm" := Number(150),
                   "moving_energy" := Number(80),
                   "static_distance_cm" := Number(0),
                   "static_energy" := Number(0),
                   "overall_distance_cm" := Number(150)])
  {
  }
}
