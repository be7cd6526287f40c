/**
  The data-access layer (src/services/iot.ts): five `fetchLatest*`
  functions, each requesting one resource and returning the newest record
  of the reply, `undefined` when it holds none.
 */
module Iot {

  import opened Optional
  import opened IotTypes

  /** The five sensor kinds the dashboard shows. */
  datatype Sensor = Temperature | Humidity | WaterLevel | LightIntensity | Diodes

  /** The resource name each kind is stored under in the data API. */
  function Resource(sensor: Sensor): (name: string)
    ensures name != [] && '/' !in name
  {
    match sensor
    case Temperature => "temperatures"
    case Humidity => "humidities"
    case WaterLevel => "water-levels"
    case LightIntensity => "light-intensity"
    case Diodes => "diodes"
  }

  /** The path `fetchLatest*` for that kind requests. */
  function Endpoint(sensor: Sensor): (path: string)
    ensures |path| > |"/api/db/"| && path[..|"/api/db/"|] == "/api/db/"
    ensures path[|"/api/db/"|..] == Resource(sensor)
  {
    "/api/db/" + Resource(sensor)
  }

  /** No two kinds share an endpoint. */
  lemma EndpointsDistinct(a: Sensor, b: Sensor)
    ensures a != b ==> Endpoint(a) != Endpoint(b)
  {
    if a != b {
      var pa, pb := Endpoint(a), Endpoint(b);
      if |pa| == |pb| {
        var k := if a.Temperature? || b.Temperature? then 8 else 12;
        assert pa[k] != pb[k];
      }
    }
  }

  // ---------------------------------------------------------------------------
  // Sort a copy newest first, take the head

  /** Ordered as `byNewest` orders: no record is newer than one before it. */
  ghost predicate NewestFirst<P>(s: seq<Record<P>>)
  {
    forall i, j :: 0 <= i < j < |s| ==> s[j].date <= s[i].date
  }

  /**
    One step of the stable sort: `x`, which came before every record of `t`
    in the input, goes ahead of all records of `t` that are not newer.
   */
  function InsertByNewest<P>(x: Record<P>, t: seq<Record<P>>): (r: seq<Record<P>>)
    ensures |r| == |t| + 1
    ensures r[0] == if t == [] || t[0].date <= x.date then x else t[0]
  {
    if t == [] || t[0].date <= x.date then [x] + t
    else
      assert t == [t[0]] + t[1..];
      [t[0]] + InsertByNewest(x, t[1..])
  }

  /**
    Where the step puts `x`: after every record of `t` that is strictly
    newer, and ahead of the first one that is not, so ahead of every
    same-date record listed after it.
   */
  lemma {:induction false} InsertPosition<P>(x: Record<P>, t: seq<Record<P>>) returns (n: nat)
    ensures n <= |t| && InsertByNewest(x, t) == t[..n] + [x] + t[n..]
    ensures forall i :: 0 <= i < n ==> x.date < t[i].date
    ensures n < |t| ==> t[n].date <= x.date
  {
    if t == [] || t[0].date <= x.date {
      n := 0;
    } else {
      var rest := t[1..];
      var m := InsertPosition(x, rest);
      n := m + 1;
      assert t[..n] == [t[0]] + rest[..m];
      assert t[n..] == rest[m..];
      calc {
        InsertByNewest(x, t);
        [t[0]] + InsertByNewest(x, rest);
        [t[0]] + (rest[..m] + [x] + rest[m..]);
        ([t[0]] + rest[..m]) + [x] + rest[m..];
      }
      forall i | 1 <= i < n
        ensures x.date < t[i].date
      {
        assert t[i] == rest[i - 1];
      }
    }
  }

  /** The step adds exactly `x` and loses nothing. */
  lemma {:induction false} InsertByNewestCounts<P>(x: Record<P>, t: seq<Record<P>>)
    ensures multiset(InsertByNewest(x, t)) == multiset(t) + multiset{x}
  {
    if t != [] && x.date < t[0].date {
      InsertByNewestCounts(x, t[1..]);
      assert t == [t[0]] + t[1..];
    }
  }

  /** Inserting into a newest-first list keeps it newest-first. */
  lemma {:induction false} InsertByNewestSorted<P>(x: Record<P>, t: seq<Record<P>>)
    requires NewestFirst(t)
    ensures NewestFirst(InsertByNewest(x, t))
  {
    if t != [] && x.date < t[0].date {
      var rest := InsertByNewest(x, t[1..]);
      InsertByNewestSorted(x, t[1..]);
      assert rest[0].date <= t[0].date;
      assert InsertByNewest(x, t) == [t[0]] + rest;
    }
  }

  /** Sorting a copy of the list with `byNewest`: a stable sort, newest first. */
  function SortByNewest<P>(s: seq<Record<P>>): (r: seq<Record<P>>)
    ensures multiset(r) == multiset(s)
    ensures NewestFirst(r)
  {
    if s == [] then []
    else
      assert s == [s[0]] + s[1..];
      InsertByNewestCounts(s[0], SortByNewest(s[1..]));
      InsertByNewestSorted(s[0], SortByNewest(s[1..]));
      InsertByNewest(s[0], SortByNewest(s[1..]))
  }

  /** The head of the sorted copy: JavaScript's `[0]` gives `undefined` on an empty array. */
  function LatestOf<P>(s: seq<Record<P>>): (r: Option<Record<P>>)
    ensures r.None? <==> s == []
    ensures r.Some? ==> r.value in s && forall x :: x in s ==> x.date <= r.value.date
  {
    var sorted := SortByNewest(s);
    if sorted == [] then
      assert |s| == |multiset(s)| == |multiset(sorted)| == 0;
      None
    else
      assert sorted[0] in multiset(s);
      assert forall x :: x in s ==> x.date <= sorted[0].date by {
        forall x | x in s
          ensures x.date <= sorted[0].date
        {
          assert x in multiset(sorted);
          var j :| 0 <= j < |sorted| && sorted[j] == x;
        }
      }
      Some(sorted[0])
  }

  /**
    The reference meaning of "latest": a record of the list that no record
    of the list is newer than, the earliest such one in the list; `None` for
    an empty list.
   */
  function Newest<P>(s: seq<Record<P>>): (r: Option<Record<P>>)
    ensures r.None? <==> s == []
    ensures r.Some? ==> r.value in s && forall x :: x in s ==> x.date <= r.value.date
  {
    if s == [] then None
    else
      assert s == [s[0]] + s[1..];
      match Newest(s[1..])
      case None => Some(s[0])
      case Some(m) => if m.date > s[0].date then Some(m) else Some(s[0])
  }

  /** Among records with the newest date, the one earliest in the list is chosen. */
  lemma {:induction false} NewestPicksFirstOfTies<P>(s: seq<Record<P>>, k: nat)
    requires k < |s|
    requires forall i :: 0 <= i < |s| ==> s[i].date <= s[k].date
    requires forall i :: 0 <= i < k ==> s[i].date < s[k].date
    ensures Newest(s) == Some(s[k])
  {
    var rest := s[1..];
    if k == 0 {
      var m := Newest(rest);
      if m.Some? {
        var i :| 0 <= i < |rest| && rest[i] == m.value;
        assert s[i + 1] == m.value;
      }
    } else {
      assert forall i :: 0 <= i < |rest| ==> rest[i] == s[i + 1];
      NewestPicksFirstOfTies(rest, k - 1);
    }
  }

  /** Sorting a copy newest first and taking its head yields the newest record. */
  lemma {:induction false} LatestIsNewest<P>(s: seq<Record<P>>)
    ensures LatestOf(s) == Newest(s)
  {
    if s != [] {
      LatestIsNewest(s[1..]);
    }
  }

  /**
    One `fetchLatest*` call, given the reply to its GET. A rejected request
    fails, and so does a body without `data.data.data` (spreading `undefined`
    throws); otherwise the call yields the newest record, `None` for an
    empty list.
   */
  function FetchLatest<P>(reply: Reply<Record<P>>): (r: Settled<Option<Record<P>>>)
    ensures r.Fulfilled? <==> reply.Delivered? && reply.payload.Records?
    ensures r.Fulfilled? ==> r.value == Newest(reply.payload.items)
  {
    match reply
    case Failed => Rejected
    case Delivered(MissingRecords) => Rejected
    case Delivered(Records(items)) =>
      LatestIsNewest(items);
      Fulfilled(LatestOf(items))
  }
}
