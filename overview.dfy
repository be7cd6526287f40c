/**
  The overview tile (src/components/OverviewTile.tsx): the latest record of
  each of the five sensors, shown as value texts with icons and a "last
  update" line, behind a loading and an error state.
 */
module Overview {

  import opened Optional
  import opened IotTypes
  import Iot

  const OverviewError: string := "Failed to load overview"

  /** What the "Last update" line and an absent reading show when there is nothing to show. */
  const Dash: string := "-"

  /** A numeric sensor's entry in `Latest`. */
  datatype Measurement = Measurement(value: real, date: int)

  /** The diode sensor's entry in `Latest`. */
  datatype DiodeState = DiodeState(status: bool, date: int)

  /** The `Latest` state: one entry per sensor, absent when its fetch found no record. */
  datatype Latest = Latest(
    temperature: Option<Measurement>,
    humidity: Option<Measurement>,
    water: Option<Measurement>,
    light: Option<Measurement>,
    diodes: Option<DiodeState>)

  /** The initial `useState({})`. */
  const NoReadings: Latest := Latest(None, None, None, None, None)

  // ---------------------------------------------------------------------------
  // From fetched records to `Latest`

  /** A numeric sensor's entry: value and date of the fetched record, absent when there is none. */
  function ToMeasurement(r: Option<ValueRecord>): (m: Option<Measurement>)
    ensures m.None? <==> r.None?
    ensures m.Some? ==> m.value.value == r.value.payload && m.value.date == r.value.date
  {
    match r
    case None => None
    case Some(x) => Some(Measurement(x.payload, x.date))
  }

  /** The diode entry: status and date of the fetched record, absent when there is none. */
  function ToDiodeState(r: Option<StatusRecord>): (s: Option<DiodeState>)
    ensures s.None? <==> r.None?
    ensures s.Some? ==> s.value.status == r.value.payload && s.value.date == r.value.date
  {
    match r
    case None => None
    case Some(x) => Some(DiodeState(x.payload, x.date))
  }

  /**
    `Promise.all` over the five fetches' outcomes, then the object given to
    `setData`. It rejects as soon as one fetch rejects; otherwise each
    sensor's entry is present exactly when its fetch found a record.
   */
  function Gathered(t: Settled<Option<ValueRecord>>, h: Settled<Option<ValueRecord>>,
                    w: Settled<Option<ValueRecord>>, l: Settled<Option<ValueRecord>>,
                    d: Settled<Option<StatusRecord>>): (r: Settled<Latest>)
    ensures r.Fulfilled? <==> t.Fulfilled? && h.Fulfilled? && w.Fulfilled? && l.Fulfilled? && d.Fulfilled?
    ensures r.Fulfilled? ==>
      && (r.value.temperature.None? <==> t.value.None?)
      && (r.value.humidity.None? <==> h.value.None?)
      && (r.value.water.None? <==> w.value.None?)
      && (r.value.light.None? <==> l.value.None?)
      && (r.value.diodes.None? <==> d.value.None?)
  {
    if t.Fulfilled? && h.Fulfilled? && w.Fulfilled? && l.Fulfilled? && d.Fulfilled? then
      Fulfilled(Latest(
        ToMeasurement(t.value), ToMeasurement(h.value), ToMeasurement(w.value),
        ToMeasurement(l.value), ToDiodeState(d.value)))
    else
      Rejected
  }

  /** Each of the five requests was answered with a record list. */
  predicate AllDelivered(t: Reply<ValueRecord>, h: Reply<ValueRecord>, w: Reply<ValueRecord>,
                         l: Reply<ValueRecord>, d: Reply<StatusRecord>)
  {
    && t.Delivered? && t.payload.Records? && h.Delivered? && h.payload.Records?
    && w.Delivered? && w.payload.Records? && l.Delivered? && l.payload.Records?
    && d.Delivered? && d.payload.Records?
  }

  /** The readings the effect obtains from five replies. */
  function Fetched(t: Reply<ValueRecord>, h: Reply<ValueRecord>, w: Reply<ValueRecord>,
                   l: Reply<ValueRecord>, d: Reply<StatusRecord>): (r: Settled<Latest>)
    ensures r.Fulfilled? <==> AllDelivered(t, h, w, l, d)
  {
    Gathered(Iot.FetchLatest(t), Iot.FetchLatest(h), Iot.FetchLatest(w),
             Iot.FetchLatest(l), Iot.FetchLatest(d))
  }

  /**
    From the replies: the readings are there exactly when every request was
    answered with a record list; each entry is then absent exactly when its
    list was empty, and otherwise holds the newest record of that list.
   */
  lemma GatheredReplies(t: Reply<ValueRecord>, h: Reply<ValueRecord>, w: Reply<ValueRecord>,
                        l: Reply<ValueRecord>, d: Reply<StatusRecord>)
    ensures Fetched(t, h, w, l, d).Fulfilled? <==> AllDelivered(t, h, w, l, d)
    ensures var r := Fetched(t, h, w, l, d);
      r.Fulfilled? ==>
        && (r.value.temperature.None? <==> t.payload.items == [])
        && (r.value.humidity.None? <==> h.payload.items == [])
        && (r.value.water.None? <==> w.payload.items == [])
        && (r.value.light.None? <==> l.payload.items == [])
        && (r.value.diodes.None? <==> d.payload.items == [])
        && r.value.temperature == ToMeasurement(Iot.Newest(t.payload.items))
        && r.value.humidity == ToMeasurement(Iot.Newest(h.payload.items))
        && r.value.water == ToMeasurement(Iot.Newest(w.payload.items))
        && r.value.light == ToMeasurement(Iot.Newest(l.payload.items))
        && r.value.diodes == ToDiodeState(Iot.Newest(d.payload.items))
  {
  }

  // ---------------------------------------------------------------------------
  // Derived texts

  /** `fmt(iso)`: the locale text of a present date, "-" otherwise. */
  function Fmt(date: Option<int>, localeText: int -> string): (s: string)
    ensures date.None? ==> s == Dash
    ensures date.Some? ==> s == localeText(date.value)
  {
    if date.Some? then localeText(date.value) else Dash
  }

  /** The five `?.date` entries of the `latestDate` array, in its order. */
  function Dates(x: Latest): (ds: seq<Option<int>>)
    ensures |ds| == 5
    ensures ds[0].None? <==> x.temperature.None?
    ensures ds[1].None? <==> x.humidity.None?
    ensures ds[2].None? <==> x.water.None?
    ensures ds[3].None? <==> x.light.None?
    ensures ds[4].None? <==> x.diodes.None?
    ensures x.temperature.Some? ==> ds[0].value == x.temperature.value.date
    ensures x.humidity.Some? ==> ds[1].value == x.humidity.value.date
    ensures x.water.Some? ==> ds[2].value == x.water.value.date
    ensures x.light.Some? ==> ds[3].value == x.light.value.date
    ensures x.diodes.Some? ==> ds[4].value == x.diodes.value.date
  {
    [ if x.temperature.Some? then Some(x.temperature.value.date) else None,
      if x.humidity.Some? then Some(x.humidity.value.date) else None,
      if x.water.Some? then Some(x.water.value.date) else None,
      if x.light.Some? then Some(x.light.value.date) else None,
      if x.diodes.Some? then Some(x.diodes.value.date) else None ]
  }

  /**
    `latestDate`: the present dates sorted newest first, then the head; that
    is the newest present date, `None` when none is present.
   */
  function NewestDate(dates: seq<Option<int>>): (r: Option<int>)
    ensures r.None? <==> forall i :: 0 <= i < |dates| ==> dates[i].None?
    ensures r.Some? ==> r in dates
    ensures r.Some? ==> forall i :: 0 <= i < |dates| && dates[i].Some? ==> dates[i].value <= r.value
  {
    if dates == [] then None
    else
      var rest := NewestDate(dates[1..]);
      assert forall i :: 1 <= i < |dates| ==> dates[i] == dates[1..][i - 1];
      if dates[0].None? then rest
      else if rest.Some? && rest.value > dates[0].value then rest
      else dates[0]
  }

  /** The "Last update" text: the newest present date, or "-" when no sensor has a record. */
  function LastUpdate(x: Latest, localeText: int -> string): (s: string)
    ensures (forall i :: 0 <= i < |Dates(x)| ==> Dates(x)[i].None?) ==> s == Dash
    ensures (exists i :: 0 <= i < |Dates(x)| && Dates(x)[i].Some?) ==>
      exists d :: Some(d) in Dates(x) && s == localeText(d)
        && forall i :: 0 <= i < |Dates(x)| && Dates(x)[i].Some? ==> Dates(x)[i].value <= d
  {
    Fmt(NewestDate(Dates(x)), localeText)
  }

  /** One row of the panel (`caption` is the source's `label`). */
  datatype Item = Item(key: string, caption: string, value: string, icon: string)

  /**
    A numeric row's text: the number, or "-" when absent, then a space and
    the unit; `numberText` stands for JavaScript's number-to-string.
   */
  function ReadingText(m: Option<Measurement>, unit: string, numberText: real -> string): (s: string)
    ensures m.None? ==> s == "- " + unit
    ensures m.Some? ==> s == numberText(m.value.value) + " " + unit
  {
    (if m.Some? then numberText(m.value.value) else Dash) + " " + unit
  }

  /** The diode row's text: "-" when absent, "Problem" for a raised status, "OK" otherwise. */
  function StatusText(d: Option<DiodeState>): (s: string)
    ensures s == Dash <==> d.None?
    ensures s == "Problem" <==> d.Some? && d.value.status
    ensures s == "OK" <==> d.Some? && !d.value.status
  {
    match d
    case None => Dash
    case Some(state) => if state.status then "Problem" else "OK"
  }

  /** The diode row's icon: lit only for a present, raised status. */
  function StatusIcon(d: Option<DiodeState>): (s: string)
    ensures s == "/diode_on.svg" <==> d.Some? && d.value.status
    ensures s == "/diode_off.svg" <==> d.None? || !d.value.status
  {
    if d.Some? && d.value.status then "/diode_on.svg" else "/diode_off.svg"
  }

  /** The `items` array: five rows in a fixed order. */
  function Items(x: Latest, numberText: real -> string): (items: seq<Item>)
    ensures |items| == 5
    ensures items[0].value == ReadingText(x.temperature, "°C", numberText)
    ensures items[1].value == ReadingText(x.humidity, "%", numberText)
    ensures items[2].value == ReadingText(x.water, "%", numberText)
    ensures items[3].value == ReadingText(x.light, "%", numberText)
    ensures items[4].value == StatusText(x.diodes) && items[4].icon == StatusIcon(x.diodes)
  {
    [ Item("temperature", "Temperature", ReadingText(x.temperature, "°C", numberText), "/temperature.svg"),
      Item("humidity", "Humidity", ReadingText(x.humidity, "%", numberText), "/humidity.svg"),
      Item("water", "Water level", ReadingText(x.water, "%", numberText), "/water_level.svg"),
      Item("light", "Light intensity", ReadingText(x.light, "%", numberText), "/light.svg"),
      Item("diodes", "Status", StatusText(x.diodes), StatusIcon(x.diodes)) ]
  }

  // ---------------------------------------------------------------------------
  // What the tile shows

  datatype OverviewScreen = Spinner | ErrorText(message: string) | Panel(items: seq<Item>, lastUpdate: string)

  /** The render: loading beats an error, an error beats the panel. */
  function Screen(loading: bool, err: Option<string>, x: Latest,
                  numberText: real -> string, localeText: int -> string): (s: OverviewScreen)
    ensures s == Spinner <==> loading
    ensures s.ErrorText? <==> !loading && err.Some? && err.value != ""
    ensures s.ErrorText? ==> s.message == err.value
    ensures s.Panel? ==> s.items == Items(x, numberText) && s.lastUpdate == LastUpdate(x, localeText)
  {
    if loading then Spinner
    else if err.Some? && err.value != "" then ErrorText(err.value)
    else Panel(Items(x, numberText), LastUpdate(x, localeText))
  }

  /** When every endpoint answers with an empty list, the panel shows only placeholders. */
  lemma EmptyListsShowPlaceholders(numberText: real -> string, localeText: int -> string)
    ensures Fetched(Delivered(Records([])), Delivered(Records([])), Delivered(Records([])),
                    Delivered(Records([])), Delivered(Records([]))) == Fulfilled(NoReadings)
    ensures var s := Screen(false, None, NoReadings, numberText, localeText);
      && s.Panel? && s.lastUpdate == Dash
      && s.items[0].value == "- °C" && s.items[1].value == "- %" && s.items[2].value == "- %"
      && s.items[3].value == "- %" && s.items[4].value == Dash && s.items[4].icon == "/diode_off.svg"
  {
    var empty: Reply<ValueRecord> := Delivered(Records([]));
    var noDiodes: Reply<StatusRecord> := Delivered(Records([]));
    assert Iot.FetchLatest(empty) == Fulfilled(None);
    assert Iot.FetchLatest(noDiodes) == Fulfilled(None);
  }

  // ---------------------------------------------------------------------------
  // The component

  /**
    The `OverviewTile` component's state, with the effect's `mounted` flag.
    The flag guards `setData` and the `setErr(null)` after it; the error and
    loading setters in `catch` and `finally` run whether or not the tile is
    still mounted.
   */
  class OverviewTile {
    var data: Latest
    var loading: bool
    var err: Option<string>
    var mounted: bool

    /** The first render: no readings, loading, no error; the effect sets `mounted`. */
    constructor ()
      ensures data == NoReadings && loading && err == None && mounted
    {
      data := NoReadings;
      loading := true;
      err := None;
      mounted := true;
    }

    /** The effect's cleanup. */
    method Unmount()
      modifies this`mounted
      ensures !mounted
    {
      mounted := false;
    }

    /** The effect's continuation once the five fetches have settled. */
    method Settle(t: Settled<Option<ValueRecord>>, h: Settled<Option<ValueRecord>>,
                  w: Settled<Option<ValueRecord>>, l: Settled<Option<ValueRecord>>,
                  d: Settled<Option<StatusRecord>>)
      modifies this`data, this`err, this`loading
      ensures !loading
      ensures Gathered(t, h, w, l, d).Rejected? ==> err == Some(OverviewError) && data == old(data)
      ensures Gathered(t, h, w, l, d).Fulfilled? && mounted ==>
        data == Gathered(t, h, w, l, d).value && err == None
      ensures Gathered(t, h, w, l, d).Fulfilled? && !mounted ==> data == old(data) && err == old(err)
    {
      var all := Gathered(t, h, w, l, d);
      if all.Rejected? {
        err := Some(OverviewError);
      } else if mounted {
        data := all.value;
        err := None;
      }
      loading := false;
    }
  }
}
