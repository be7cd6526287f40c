/**
  The chart data adapter (src/components/ChartTile.tsx): the selected
  range, the date window it asks for, the mapping of records to chart
  points, and the loading/error/empty/chart states of one chart tile.
  Dates are day numbers; `today` stands for the clock.
 */
module Chart {

  import opened Optional
  import opened IotTypes

  const DefaultRange: string := "1d"

  /** The tags offered by the range buttons. */
  const RangeTags: seq<string> := ["1d", "3d", "7d"]

  const ChartError: string := "Failed to load chart data"

  // ---------------------------------------------------------------------------
  // Range

  /** The initial range: any non-empty saved text, kept as it is (the type cast checks nothing), else "1d". */
  function InitialRange(savedRange: Option<string>): (r: string)
    ensures savedRange.Some? && savedRange.value != "" ==> r == savedRange.value
    ensures savedRange.None? || savedRange.value == "" ==> r == DefaultRange
  {
    if savedRange.Some? && savedRange.value != "" then savedRange.value else DefaultRange
  }

  /** How many days `getRangeDates` looks back for a range tag. */
  function RangeDays(range: string): (days: nat)
    ensures days in {1, 3, 7}
    ensures days == 3 <==> range == "3d"
    ensures days == 7 <==> range == "7d"
  {
    if range == "3d" then 3 else if range == "7d" then 7 else 1
  }

  /** The number a button's tag starts with is the span it selects. */
  lemma RangeTagNamesItsSpan(i: nat)
    requires i < |RangeTags|
    ensures |RangeTags[i]| == 2 && RangeTags[i][1] == 'd'
    ensures RangeDays(RangeTags[i]) == RangeTags[i][0] as int - '0' as int
  {
  }

  /** Any tag that is not a button's (a stale saved value, say) looks back one day. */
  lemma UnknownRangeIsOneDay(range: string)
    requires range !in RangeTags
    ensures RangeDays(range) == 1
  {
    assert RangeTags[1] == "3d" && RangeTags[2] == "7d";
  }

  /** The window sent with the request: `startDate` and `endDate` as day numbers. */
  datatype Window = Window(startDate: int, endDate: int)

  /** `getRangeDates(range)`: the window ends today and starts the range's span earlier. */
  function RangeDates(range: string, today: int): (w: Window)
    ensures w.endDate == today
    ensures w.endDate - w.startDate in {1, 3, 7}
    ensures w.endDate - w.startDate == RangeDays(range)
  {
    Window(today - RangeDays(range), today)
  }

  /** One GET the tile issues: its endpoint with the window as query parameters. */
  datatype Request = Request(endpoint: string, window: Window)

  // ---------------------------------------------------------------------------
  // Records to points

  /** A record as the chart reads it: `value` and `status` may be absent or null. */
  datatype RawRecord = RawRecord(date: int, value: Option<real>, status: Option<bool>)

  /** A chart point: the locale-formatted date and the plotted number. */
  datatype Point = Point(date: string, value: real)

  /** The plotted number: `value` unless it is null or absent, otherwise 1 for a truthy `status` and 0 for anything else. */
  function PointValue(x: RawRecord): (v: real)
    ensures x.value.Some? ==> v == x.value.value
    ensures x.value.None? ==> (v == 1.0 <==> x.status == Some(true))
    ensures x.value.None? ==> v == 0.0 || v == 1.0
  {
    match x.value
    case Some(v) => v
    case None => if x.status == Some(true) then 1.0 else 0.0
  }

  /** The records of a reply: a reply without the record list counts as an empty one. */
  function Received(payload: Payload<RawRecord>): (rs: seq<RawRecord>)
    ensures payload.MissingRecords? ==> rs == []
    ensures payload.Records? ==> rs == payload.items
  {
    match payload
    case Records(items) => items
    case MissingRecords => []
  }

  /** The `map` in `fetchData`; `localeText` stands for `new Date(x.date).toLocaleString()`. */
  function ToPoints(rs: seq<RawRecord>, localeText: int -> string): (ps: seq<Point>)
    ensures |ps| == |rs|
    ensures forall i :: 0 <= i < |rs| ==> ps[i] == Point(localeText(rs[i].date), PointValue(rs[i]))
  {
    seq(|rs|, i requires 0 <= i < |rs| => Point(localeText(rs[i].date), PointValue(rs[i])))
  }

  /** A value record as the chart reads it. */
  function FromValueRecord(r: ValueRecord): RawRecord
  {
    RawRecord(r.date, Some(r.payload), None)
  }

  /** A status record as the chart reads it. */
  function FromStatusRecord(r: StatusRecord): RawRecord
  {
    RawRecord(r.date, None, Some(r.payload))
  }

  /** A value record is plotted at its own value, zero included. */
  lemma ValueRecordPlotsItsValue(r: ValueRecord)
    ensures PointValue(FromValueRecord(r)) == r.payload
  {
  }

  /** A status record is plotted as 1 or 0, and the status reads back from the point. */
  lemma StatusRecordRoundTrip(r: StatusRecord)
    ensures PointValue(FromStatusRecord(r)) in {0.0, 1.0}
    ensures (PointValue(FromStatusRecord(r)) == 1.0) == r.payload
  {
  }

  /** Mapping distributes over concatenation: points keep the order of their records. */
  lemma ToPointsAppend(a: seq<RawRecord>, b: seq<RawRecord>, localeText: int -> string)
    ensures ToPoints(a + b, localeText) == ToPoints(a, localeText) + ToPoints(b, localeText)
  {
    var lhs, rhs := ToPoints(a + b, localeText), ToPoints(a, localeText) + ToPoints(b, localeText);
    forall i | 0 <= i < |lhs|
      ensures lhs[i] == rhs[i]
    {
      if i < |a| {
        assert (a + b)[i] == a[i];
      } else {
        assert (a + b)[i] == b[i - |a|];
      }
    }
  }

  // ---------------------------------------------------------------------------
  // What the tile shows

  datatype ChartScreen = Spinner | ErrorText(message: string) | NoData | Plot(points: seq<Point>)

  /** The render: loading beats an error, an error beats an empty list, else the chart. */
  function Screen(loading: bool, err: Option<string>, data: seq<Point>): (s: ChartScreen)
    ensures s == Spinner <==> loading
    ensures s.ErrorText? <==> !loading && err.Some? && err.value != ""
    ensures s.ErrorText? ==> s.message == err.value
    ensures s == NoData <==> !loading && (err.None? || err.value == "") && data == []
    ensures s.Plot? ==> s.points == data && data != []
  {
    if loading then Spinner
    else if err.Some? && err.value != "" then ErrorText(err.value)
    else if data == [] then NoData
    else Plot(data)
  }

  /**
    What a fetch that runs alone shows once it completes: its error, "No
    data available" for an empty or missing list, else the plotted points.
   */
  lemma SettledFetchScreen(reply: Reply<RawRecord>, localeText: int -> string, oldData: seq<Point>)
    ensures reply.Failed? ==> Screen(false, Some(ChartError), oldData) == ErrorText(ChartError)
    ensures reply.Delivered? ==>
      var points := ToPoints(Received(reply.payload), localeText);
      Screen(false, None, points) == if Received(reply.payload) == [] then NoData else Plot(points)
  {
  }

  // ---------------------------------------------------------------------------
  // The component

  /**
    One `ChartTile`'s state. `notifies` says whether an `onRangeChange`
    callback was passed; `reported` lists the ranges it has been called with.
   */
  class ChartTile {
    const endpoint: string
    const notifies: bool
    var range: string
    var data: seq<Point>
    var loading: bool
    var err: Option<string>
    var reported: seq<string>

    /** The first render, before any effect has run. */
    constructor (endpoint: string, savedRange: Option<string>, notifies: bool)
      ensures this.endpoint == endpoint && this.notifies == notifies
      ensures range == InitialRange(savedRange)
      ensures data == [] && !loading && err == None && reported == []
    {
      this.endpoint := endpoint;
      this.notifies := notifies;
      range := InitialRange(savedRange);
      data := [];
      loading := false;
      err := None;
      reported := [];
    }

    /** The two effects keyed on `range`: report it, then start `fetchData`. */
    method RangeEffects(today: int) returns (request: Request)
      modifies this`reported, this`loading, this`err
      ensures reported == old(reported) + (if notifies then [range] else [])
      ensures loading && err == None
      ensures request == Request(endpoint, RangeDates(range, today))
    {
      if notifies {
        reported := reported + [range];
      }
      loading := true;
      err := None;
      request := Request(endpoint, RangeDates(range, today));
    }

    /** A range button. Selecting the current range re-renders nothing and runs no effect. */
    method SelectRange(tag: string, today: int) returns (request: Option<Request>)
      modifies this`range, this`reported, this`loading, this`err
      ensures tag == old(range) ==>
        && range == old(range) && reported == old(reported)
        && loading == old(loading) && err == old(err) && request == None
      ensures tag != old(range) ==>
        && range == tag && reported == old(reported) + (if notifies then [tag] else [])
        && loading && err == None && request == Some(Request(endpoint, RangeDates(tag, today)))
    {
      if tag == range {
        return None;
      }
      range := tag;
      var issued := RangeEffects(today);
      request := Some(issued);
    }

    /**
      The end of one `fetchData` call, given the reply to its GET: the points
      on success, the error on failure, and `loading` cleared either way.
      Replies are applied in whatever order they arrive.
     */
    method Complete(reply: Reply<RawRecord>, localeText: int -> string)
      modifies this`data, this`err, this`loading
      ensures !loading
      ensures reply.Failed? ==> err == Some(ChartError) && data == old(data)
      ensures reply.Delivered? ==> data == ToPoints(Received(reply.payload), localeText) && err == old(err)
    {
      if reply.Failed? {
        err := Some(ChartError);
      } else {
        data := ToPoints(Received(reply.payload), localeText);
      }
      loading := false;
    }
  }
}
