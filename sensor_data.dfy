/**
 * `SensorData`: the pH, EC and temperature series of the `sensor_readings`
 * table merged into one timeline keyed by instant — the latest values, the
 * newest `limit` points, and the points of a time range.
 */
module SensorData {
  import opened Common
  import SensorManager

  /** A `sensor_readings` row; instants are points on an integer clock. */
  datatype Row = Row(kind: string, value: real, timestamp: int)

  /** A `SensorData` object: one value per sensor, None where it has none, and an instant. */
  datatype Sample = Sample(ph: Option<real>, ec: Option<real>, temperature: Option<real>, timestamp: int)


  // ---------------------------------------------------------------------
  // Sequence helpers
  // ---------------------------------------------------------------------

  function Reverse<T>(s: seq<T>): (r: seq<T>)
    ensures |r| == |s| && forall i :: 0 <= i < |s| ==> r[i] == s[|s| - 1 - i]
  {
    if s == [] then [] else [s[|s| - 1]] + Reverse(s[..|s| - 1])
  }

  lemma {:induction false} ReverseMultiset<T>(s: seq<T>)
    ensures multiset(Reverse(s)) == multiset(s)
  {
    if s != [] {
      ReverseMultiset(s[..|s| - 1]);
      assert s == s[..|s| - 1] + [s[|s| - 1]];
    }
  }

  /** SQL `LIMIT n`: the first n items; SQLite reads a negative limit as no limit. */
  function Limit<T>(s: seq<T>, n: int): (r: seq<T>)
    ensures r <= s
  {
    if n < 0 || |s| <= n then s else s[..n]
  }

  /** Python `s[:n]`: the first n items; a negative n drops the last -n. */
  function Prefix<T>(s: seq<T>, n: int): (r: seq<T>)
    ensures r <= s
  {
    if 0 <= n then (if |s| <= n then s else s[..n])
    else if |s| + n <= 0 then []
    else s[..|s| + n]
  }

  // ---------------------------------------------------------------------
  // Queries on the table
  // ---------------------------------------------------------------------

  /** `filter_by(sensor_type=kind)`: the rows of one type, in table order. */
  function OfKind(rows: seq<Row>, kind: string): seq<Row>
  {
    if rows == [] then []
    else OfKind(rows[..|rows| - 1], kind) + (if rows[|rows| - 1].kind == kind then [rows[|rows| - 1]] else [])
  }

  lemma {:induction false} OfKindMembers(rows: seq<Row>, kind: string)
    ensures forall x :: x in OfKind(rows, kind) <==> x in rows && x.kind == kind
  {
    if rows != [] {
      OfKindMembers(rows[..|rows| - 1], kind);
      assert rows == rows[..|rows| - 1] + [rows[|rows| - 1]];
    }
  }

  /** `start_time <= timestamp <= end_time`, in the given order. */
  function Within(rs: seq<Row>, start: int, end: int): seq<Row>
  {
    if rs == [] then []
    else (if start <= rs[0].timestamp <= end then [rs[0]] else []) + Within(rs[1..], start, end)
  }

  lemma {:induction false} WithinMembers(rs: seq<Row>, start: int, end: int)
    ensures forall x :: x in Within(rs, start, end) <==> x in rs && start <= x.timestamp <= end
  {
    if rs != [] {
      WithinMembers(rs[1..], start, end);
      assert rs == [rs[0]] + rs[1..];
    }
  }

  /** Rows in order of their instants, oldest first. */
  predicate Ordered(rs: seq<Row>)
  {
    forall i, j :: 0 <= i < j < |rs| ==> rs[i].timestamp <= rs[j].timestamp
  }

  /** Rows in order of their instants, newest first. */
  predicate NewestOrdered(rs: seq<Row>)
  {
    forall i, j :: 0 <= i < j < |rs| ==> rs[i].timestamp >= rs[j].timestamp
  }

  /** Put `r` after every row of `rs` that is not newer than it. */
  function PlaceAfter(r: Row, rs: seq<Row>): seq<Row>
  {
    if rs == [] || rs[|rs| - 1].timestamp <= r.timestamp then rs + [r]
    else PlaceAfter(r, rs[..|rs| - 1]) + [rs[|rs| - 1]]
  }

  /**
   * `ORDER BY timestamp`: oldest first. SQL leaves the order of rows with
   * equal instants open; here they keep table order.
   */
  function OldestFirst(rs: seq<Row>): seq<Row>
  {
    if rs == [] then [] else PlaceAfter(rs[|rs| - 1], OldestFirst(rs[..|rs| - 1]))
  }

  /** `ORDER BY timestamp DESC`: newest first; rows with equal instants in reverse table order. */
  function NewestFirst(rs: seq<Row>): seq<Row>
  {
    Reverse(OldestFirst(rs))
  }

  /** Placing a row adds exactly that row. */
  lemma {:induction false} PlaceAfterMultiset(r: Row, rs: seq<Row>)
    ensures multiset(PlaceAfter(r, rs)) == multiset(rs) + multiset{r}
  {
    if rs != [] && rs[|rs| - 1].timestamp > r.timestamp {
      PlaceAfterMultiset(r, rs[..|rs| - 1]);
      assert rs == rs[..|rs| - 1] + [rs[|rs| - 1]];
    }
  }

  /** Placing a row keeps an oldest-first list oldest first. */
  lemma {:induction false} PlaceAfterOrdered(r: Row, rs: seq<Row>)
    requires Ordered(rs)
    ensures Ordered(PlaceAfter(r, rs))
  {
    if rs != [] && rs[|rs| - 1].timestamp > r.timestamp {
      var init, last := rs[..|rs| - 1], rs[|rs| - 1];
      PlaceAfterOrdered(r, init);
      PlaceAfterMultiset(r, init);
      var p := PlaceAfter(r, init);
      forall x | x in p
        ensures x.timestamp <= last.timestamp
      {
        assert x in multiset(init) + multiset{r};
        if x != r {
          var i :| 0 <= i < |init| && init[i] == x;
          assert rs[i] == x;
        }
      }
      AppendOrdered(p, last);
    }
  }

  /** A row no older than every row of an oldest-first list may follow it. */
  lemma AppendOrdered(p: seq<Row>, last: Row)
    requires Ordered(p)
    requires forall x :: x in p ==> x.timestamp <= last.timestamp
    ensures Ordered(p + [last])
  {
    forall i, j | 0 <= i < j < |p + [last]|
      ensures (p + [last])[i].timestamp <= (p + [last])[j].timestamp
    {
      if j == |p| {
        assert p[i] in p;
      }
    }
  }

  /** The range query's order really is oldest first, and it holds exactly the given rows. */
  lemma {:induction false} OldestFirstSorts(rs: seq<Row>)
    ensures Ordered(OldestFirst(rs)) && multiset(OldestFirst(rs)) == multiset(rs)
  {
    if rs != [] {
      OldestFirstSorts(rs[..|rs| - 1]);
      PlaceAfterMultiset(rs[|rs| - 1], OldestFirst(rs[..|rs| - 1]));
      PlaceAfterOrdered(rs[|rs| - 1], OldestFirst(rs[..|rs| - 1]));
      assert rs == rs[..|rs| - 1] + [rs[|rs| - 1]];
    }
  }

  /** Newest first, and exactly the given rows. */
  lemma NewestFirstSorts(rs: seq<Row>)
    ensures NewestOrdered(NewestFirst(rs)) && multiset(NewestFirst(rs)) == multiset(rs)
    ensures |NewestFirst(rs)| == |rs|
  {
    OldestFirstSorts(rs);
    var o := OldestFirst(rs);
    ReverseMultiset(o);
    assert |o| == |multiset(o)| == |multiset(rs)| == |rs|;
  }

  /** Rows already in order are left as they are. */
  lemma {:induction false} OldestFirstOfOrdered(rs: seq<Row>)
    requires Ordered(rs)
    ensures OldestFirst(rs) == rs
  {
    if rs != [] {
      OldestFirstOfOrdered(rs[..|rs| - 1]);
    }
  }

  /** Keeping only one type keeps the order of the instants. */
  lemma {:induction false} OfKindOrdered(rows: seq<Row>, kind: string)
    requires Ordered(rows)
    ensures Ordered(OfKind(rows, kind))
  {
    if rows != [] {
      var init, last := rows[..|rows| - 1], rows[|rows| - 1];
      OfKindOrdered(init, kind);
      OfKindMembers(init, kind);
      var o := OfKind(init, kind);
      if last.kind == kind {
        forall i, j | 0 <= i < j < |o + [last]|
          ensures (o + [last])[i].timestamp <= (o + [last])[j].timestamp
        {
          if j == |o| {
            assert o[i] in o;
            var k :| 0 <= k < |init| && init[k] == o[i];
            assert rows[k] == o[i];
          }
        }
      }
    }
  }

  // ---------------------------------------------------------------------
  // SensorReading.get_latest and SensorData.get_latest
  // ---------------------------------------------------------------------

  /** `SensorReading.get_latest(kind)`: the first row of the type, newest first. */
  function Newest(rows: seq<Row>, kind: string): Option<Row>
  {
    var s := NewestFirst(OfKind(rows, kind));
    if s == [] then None else Some(s[0])
  }

  /** `x` is a row of the type and no row of the type is newer. */
  ghost predicate NewestOfKind(rows: seq<Row>, kind: string, x: Row)
  {
    x in rows && x.kind == kind && forall y :: y in rows && y.kind == kind ==> y.timestamp <= x.timestamp
  }

  /** `SensorReading.get_latest` finds a newest row of the type, and finds none only when there is none. */
  lemma NewestIsLatest(rows: seq<Row>, kind: string)
    ensures Newest(rows, kind).None? <==> forall x :: x in rows ==> x.kind != kind
    ensures Newest(rows, kind).Some? ==> NewestOfKind(rows, kind, Newest(rows, kind).value)
  {
    var o := OfKind(rows, kind);
    OfKindMembers(rows, kind);
    NewestFirstSorts(o);
    var s := NewestFirst(o);
    if exists x :: x in rows && x.kind == kind {
      var x :| x in rows && x.kind == kind;
      assert x in multiset(s);
    }
    if s != [] {
      assert s[0] in multiset(o);
      forall y | y in rows && y.kind == kind
        ensures y.timestamp <= s[0].timestamp
      {
        assert y in multiset(s);
        var j :| 0 <= j < |s| && s[j] == y;
      }
    }
  }

  /** The row's instant as a list of zero or one instants. */
  function StampOf(r: Option<Row>): seq<int>
  {
    if r.Some? then [r.value.timestamp] else []
  }

  function ValueOf(r: Option<Row>): Option<real>
  {
    if r.Some? then Some(r.value.value) else None
  }

  /** `max(timestamps)` of a non-empty list. */
  function MaxOf(ts: seq<int>): (m: int)
    requires ts != []
    ensures m in ts && forall t :: t in ts ==> t <= m
  {
    if |ts| == 1 then ts[0]
    else
      var rest := MaxOf(ts[1..]);
      assert forall t :: t in ts ==> t == ts[0] || t in ts[1..];
      if ts[0] >= rest then ts[0] else rest
  }

  /**
   * `SensorData.get_latest`: the newest value of each sensor and, as the
   * instant, the newest of their instants — `now` when there is no reading.
   */
  function Latest(rows: seq<Row>, now: int): Sample
  {
    var p, e, t := Newest(rows, "ph"), Newest(rows, "ec"), Newest(rows, "temp");
    var stamps := StampOf(p) + StampOf(e) + StampOf(t);
    Sample(ValueOf(p), ValueOf(e), ValueOf(t), if stamps == [] then now else MaxOf(stamps))
  }

  /** One of the three sensor types. */
  predicate Sensor(kind: string)
  {
    kind == "ph" || kind == "ec" || kind == "temp"
  }

  /** The value reported for a type is a newest row's value, and it is None exactly when the type has no row. */
  ghost predicate ReportsNewest(rows: seq<Row>, kind: string, value: Option<real>)
  {
    && (value.None? <==> forall x :: x in rows ==> x.kind != kind)
    && (value.Some? ==> exists x :: NewestOfKind(rows, kind, x) && x.value == value.value)
  }

  /** Each field of `get_latest` is its sensor's newest value, None exactly when that sensor has no reading. */
  lemma LatestValues(rows: seq<Row>, now: int)
    ensures var s := Latest(rows, now);
      && ReportsNewest(rows, "ph", s.ph)
      && ReportsNewest(rows, "ec", s.ec)
      && ReportsNewest(rows, "temp", s.temperature)
  {
    NewestIsLatest(rows, "ph");
    NewestIsLatest(rows, "ec");
    NewestIsLatest(rows, "temp");
  }

  /**
   * `get_latest` always yields a sample; its instant is the newest instant
   * of any sensor reading, or `now` when there is none.
   */
  lemma LatestInstant(rows: seq<Row>, now: int)
    ensures var s := Latest(rows, now);
      && ((forall x :: x in rows ==> !Sensor(x.kind)) ==> s.timestamp == now)
      && ((exists x :: x in rows && Sensor(x.kind)) ==>
            (exists x :: x in rows && Sensor(x.kind) && x.timestamp == s.timestamp)
            && forall x :: x in rows && Sensor(x.kind) ==> x.timestamp <= s.timestamp)
  {
    NewestIsLatest(rows, "ph");
    NewestIsLatest(rows, "ec");
    NewestIsLatest(rows, "temp");
    var p, e, t := Newest(rows, "ph"), Newest(rows, "ec"), Newest(rows, "temp");
    var stamps := StampOf(p) + StampOf(e) + StampOf(t);
    if exists x :: x in rows && Sensor(x.kind) {
      var x :| x in rows && Sensor(x.kind);
      assert stamps != [] by {
        if x.kind == "ph" {
          assert p.Some?;
        } else if x.kind == "ec" {
          assert e.Some?;
        } else {
          assert t.Some?;
        }
      }
      var m := MaxOf(stamps);
      assert m in StampOf(p) || m in StampOf(e) || m in StampOf(t);
      forall y | y in rows && Sensor(y.kind)
        ensures y.timestamp <= m
      {
        if y.kind == "ph" {
          assert p.value.timestamp in stamps;
        } else if y.kind == "ec" {
          assert e.value.timestamp in stamps;
        } else {
          assert t.value.timestamp in stamps;
        }
      }
    }
  }

  /** The rows as the sensor client's reading table sees them, without instants. */
  function Untimed(rows: seq<Row>): (r: seq<SensorManager.Reading>)
    ensures |r| == |rows|
  {
    if rows == [] then []
    else Untimed(rows[..|rows| - 1]) + [SensorManager.Reading(rows[|rows| - 1].kind, rows[|rows| - 1].value)]
  }

  /** The sensor client's "latest stored value" is the value of the last row of the type. */
  lemma {:induction false} LatestStoredIsLastOfKind(rows: seq<Row>, kind: string)
    ensures var o := OfKind(rows, kind);
      SensorManager.LatestStored(Untimed(rows), kind) == if o == [] then None else Some(o[|o| - 1].value)
  {
    if rows != [] {
      var init := rows[..|rows| - 1];
      assert Untimed(rows)[..|rows| - 1] == Untimed(init);
      LatestStoredIsLastOfKind(init, kind);
    }
  }

  /**
   * When rows are stored in the order of their instants, `SensorReading.get_latest`
   * returns what the sensor client's cache fallback (`get_last_reading`) reads as
   * the latest stored value: the last row of the type.
   */
  lemma NewestAgreesWithClient(rows: seq<Row>, kind: string)
    requires Ordered(rows)
    ensures ValueOf(Newest(rows, kind)) == SensorManager.LatestStored(Untimed(rows), kind)
  {
    var o := OfKind(rows, kind);
    OfKindOrdered(rows, kind);
    OldestFirstOfOrdered(o);
    LatestStoredIsLastOfKind(rows, kind);
  }

  // ---------------------------------------------------------------------
  // The timeline merge
  // ---------------------------------------------------------------------

  /** The instants of a series, in order. */
  function Stamps(series: seq<Row>): (ts: seq<int>)
    ensures |ts| == |series| && forall i :: 0 <= i < |series| ==> ts[i] == series[i].timestamp
  {
    if series == [] then [] else Stamps(series[..|series| - 1]) + [series[|series| - 1].timestamp]
  }

  lemma StampsMembers(series: seq<Row>, t: int)
    ensures t in Stamps(series) <==> exists x :: x in series && x.timestamp == t
  {
    if exists x :: x in series && x.timestamp == t {
      var x :| x in series && x.timestamp == t;
      var i :| 0 <= i < |series| && series[i] == x;
      assert Stamps(series)[i] == t;
    }
  }

  /** `{r.timestamp: r.value for r in series}`: a later row overwrites an earlier one at the same instant. */
  function ByTime(series: seq<Row>): map<int, real>
  {
    if series == [] then map[]
    else ByTime(series[..|series| - 1])[series[|series| - 1].timestamp := series[|series| - 1].value]
  }

  /** The dictionary's keys are the series' instants. */
  lemma {:induction false} ByTimeKeys(series: seq<Row>, t: int)
    ensures t in ByTime(series) <==> t in Stamps(series)
  {
    if series != [] {
      ByTimeKeys(series[..|series| - 1], t);
    }
  }

  /** The value kept for an instant is that of the last row of the series at that instant. */
  lemma {:induction false} ByTimeLastWins(series: seq<Row>, i: int)
    requires 0 <= i < |series|
    requires forall j :: i < j < |series| ==> series[j].timestamp != series[i].timestamp
    ensures series[i].timestamp in ByTime(series) && ByTime(series)[series[i].timestamp] == series[i].value
  {
    if i < |series| - 1 {
      ByTimeLastWins(series[..|series| - 1], i);
    }
  }

  /** Every value kept comes from a row of the series at that instant. */
  lemma {:induction false} ByTimeFromSeries(series: seq<Row>, t: int)
    requires t in ByTime(series)
    ensures exists x :: x in series && x.timestamp == t && x.value == ByTime(series)[t]
  {
    var init, last := series[..|series| - 1], series[|series| - 1];
    if t == last.timestamp {
      assert last in series;
    } else {
      ByTimeFromSeries(init, t);
      var x :| x in init && x.timestamp == t && x.value == ByTime(init)[t];
      assert x in series;
    }
  }

  /** `dict.get(t)`. */
  function At(m: map<int, real>, t: int): Option<real>
  {
    if t in m then Some(m[t]) else None
  }

  /** The loop that builds one `SensorData` per instant. */
  function Merge(ph: map<int, real>, ec: map<int, real>, temp: map<int, real>, ts: seq<int>): (r: seq<Sample>)
    ensures |r| == |ts|
    ensures forall i :: 0 <= i < |ts| ==> r[i] == Sample(At(ph, ts[i]), At(ec, ts[i]), At(temp, ts[i]), ts[i])
  {
    if ts == [] then [] else [Sample(At(ph, ts[0]), At(ec, ts[0]), At(temp, ts[0]), ts[0])] + Merge(ph, ec, temp, ts[1..])
  }

  /** The instants of a list of samples. */
  function Instants(ss: seq<Sample>): (ts: seq<int>)
    ensures |ts| == |ss| && forall i :: 0 <= i < |ss| ==> ts[i] == ss[i].timestamp
  {
    if ss == [] then [] else [ss[0].timestamp] + Instants(ss[1..])
  }

  /** The merge keeps the instants it is given, in order. */
  lemma MergeInstants(ph: map<int, real>, ec: map<int, real>, temp: map<int, real>, ts: seq<int>)
    ensures Instants(Merge(ph, ec, temp, ts)) == ts
  {
    var r := Merge(ph, ec, temp, ts);
    assert forall i :: 0 <= i < |ts| ==> Instants(r)[i] == ts[i];
  }

  /** Distinct instants, oldest first. */
  predicate Rising(ts: seq<int>)
  {
    forall i, j :: 0 <= i < j < |ts| ==> ts[i] < ts[j]
  }

  /** Distinct instants, newest first. */
  predicate Falling(ts: seq<int>)
  {
    forall i, j :: 0 <= i < j < |ts| ==> ts[i] > ts[j]
  }

  /** Add an instant to a rising list, unless it is there already. */
  function InsertTime(t: int, ts: seq<int>): seq<int>
  {
    if ts == [] || t < ts[0] then [t] + ts
    else if t == ts[0] then ts
    else [ts[0]] + InsertTime(t, ts[1..])
  }

  /** `sorted(set(ts))`. */
  function SortedSet(ts: seq<int>): seq<int>
  {
    if ts == [] then [] else InsertTime(ts[0], SortedSet(ts[1..]))
  }

  /** Inserting adds exactly the instant and keeps the list rising. */
  lemma {:induction false} InsertTimeSorts(t: int, ts: seq<int>)
    ensures forall x :: x in InsertTime(t, ts) <==> x == t || x in ts
    ensures Rising(ts) ==> Rising(InsertTime(t, ts))
  {
    if ts == [] || t < ts[0] {
    } else if t == ts[0] {
    } else {
      InsertTimeSorts(t, ts[1..]);
      assert ts == [ts[0]] + ts[1..];
      var rest := InsertTime(t, ts[1..]);
      if Rising(ts) {
        forall k | 0 <= k < |rest|
          ensures ts[0] < rest[k]
        {
          assert rest[k] in rest;
          if rest[k] != t {
            var m :| 0 <= m < |ts[1..]| && ts[1..][m] == rest[k];
            assert ts[m + 1] == rest[k];
          }
        }
      }
    }
  }

  /** `sorted(set(ts))` lists each instant of `ts` once, oldest first. */
  lemma {:induction false} SortedSetSorts(ts: seq<int>)
    ensures forall x :: x in SortedSet(ts) <==> x in ts
    ensures Rising(SortedSet(ts))
  {
    if ts != [] {
      SortedSetSorts(ts[1..]);
      InsertTimeSorts(ts[0], SortedSet(ts[1..]));
      assert ts == [ts[0]] + ts[1..];
    }
  }

  /** Two rising lists with the same instants and the same first instant have the same later instants. */
  lemma TailMember(a: seq<int>, b: seq<int>, x: int)
    requires Rising(a) && Rising(b) && a != [] && b != [] && a[0] == b[0]
    requires forall y :: y in a <==> y in b
    requires x in a[1..]
    ensures x in b[1..]
  {
    var k :| 0 <= k < |a[1..]| && a[1..][k] == x;
    assert a[k + 1] == x && x in a;
    var m :| 0 <= m < |b| && b[m] == x;
    assert b[1..][m - 1] == x;
  }

  /** There is only one rising list of a given set of instants: sorting a set has one answer. */
  lemma {:induction false} RisingUnique(a: seq<int>, b: seq<int>)
    requires Rising(a) && Rising(b)
    requires forall x :: x in a <==> x in b
    ensures a == b
  {
    if a != [] || b != [] {
      var w := if a != [] then a[0] else b[0];
      assert w in a && w in b;
      assert a[0] in a && b[0] in b;
      var i :| 0 <= i < |b| && b[i] == a[0];
      var j :| 0 <= j < |a| && a[j] == b[0];
      assert a[0] == b[0];
      forall x
        ensures x in a[1..] <==> x in b[1..]
      {
        if x in a[1..] {
          TailMember(a, b, x);
        }
        if x in b[1..] {
          TailMember(b, a, x);
        }
      }
      RisingUnique(a[1..], b[1..]);
      assert a == [a[0]] + a[1..] && b == [b[0]] + b[1..];
    }
  }

  /** The value a sample gives for one sensor is what the series holds at exactly that instant. */
  ghost predicate Reports(series: seq<Row>, value: Option<real>, t: int)
  {
    && (value.Some? <==> exists x :: x in series && x.timestamp == t)
    && (value.Some? ==> exists x :: x in series && x.timestamp == t && x.value == value.value)
  }

  lemma AtReports(series: seq<Row>, t: int)
    ensures Reports(series, At(ByTime(series), t), t)
  {
    StampsMembers(series, t);
    ByTimeKeys(series, t);
    if t in ByTime(series) {
      ByTimeFromSeries(series, t);
    }
  }

  /** The instants present in any of three series, as a list. */
  function AllStamps(ph: seq<Row>, ec: seq<Row>, temp: seq<Row>): seq<int>
  {
    Stamps(ph) + Stamps(ec) + Stamps(temp)
  }

  lemma AllStampsMembers(ph: seq<Row>, ec: seq<Row>, temp: seq<Row>, t: int)
    ensures t in AllStamps(ph, ec, temp) <==>
      (exists x :: x in ph && x.timestamp == t) || (exists x :: x in ec && x.timestamp == t) || (exists x :: x in temp && x.timestamp == t)
  {
    StampsMembers(ph, t);
    StampsMembers(ec, t);
    StampsMembers(temp, t);
  }

  // ---------------------------------------------------------------------
  // get_history
  // ---------------------------------------------------------------------

  /** `SensorReading.get_history(kind, limit)`: the newest `limit` rows of the type, newest first. */
  function Recent(rows: seq<Row>, kind: string, limit: int): seq<Row>
  {
    Limit(NewestFirst(OfKind(rows, kind)), limit)
  }

  /** The instants of the three fetched series, newest first: `sorted(..., reverse=True)`. */
  function HistoryStamps(rows: seq<Row>, limit: int): seq<int>
  {
    Reverse(SortedSet(AllStamps(Recent(rows, "ph", limit), Recent(rows, "ec", limit), Recent(rows, "temp", limit))))
  }

  /** `SensorData.get_history(limit)`. */
  function History(rows: seq<Row>, limit: int): seq<Sample>
  {
    var ph, ec, temp := Recent(rows, "ph", limit), Recent(rows, "ec", limit), Recent(rows, "temp", limit);
    Merge(ByTime(ph), ByTime(ec), ByTime(temp), Prefix(HistoryStamps(rows, limit), limit))
  }

  /** `SensorReading.get_history` keeps rows of the type only, newest first. */
  lemma RecentRows(rows: seq<Row>, kind: string, limit: int)
    ensures NewestOrdered(Recent(rows, kind, limit))
    ensures forall x :: x in Recent(rows, kind, limit) ==> x in rows && x.kind == kind
  {
    var o := OfKind(rows, kind);
    OfKindMembers(rows, kind);
    NewestFirstSorts(o);
    var s := NewestFirst(o);
    var r := Recent(rows, kind, limit);
    assert r == s[..|r|];
    forall x | x in r
      ensures x in rows && x.kind == kind
    {
      assert x in multiset(s);
    }
  }

  /** `SensorReading.get_history` keeps `limit` rows of the type, or all of them when there are fewer or the limit is negative. */
  lemma RecentCount(rows: seq<Row>, kind: string, limit: int)
    ensures var n := |OfKind(rows, kind)|;
      |Recent(rows, kind, limit)| == if 0 <= limit < n then limit else n
  {
    NewestFirstSorts(OfKind(rows, kind));
  }

  /** `SensorReading.get_history` drops no row of the type newer than one it keeps. */
  lemma RecentIsNewest(rows: seq<Row>, kind: string, limit: int)
    ensures var r := Recent(rows, kind, limit);
      forall x, i :: x in rows && x.kind == kind && x !in r && 0 <= i < |r| ==> x.timestamp <= r[i].timestamp
  {
    var o := OfKind(rows, kind);
    OfKindMembers(rows, kind);
    NewestFirstSorts(o);
    var s := NewestFirst(o);
    var r := Recent(rows, kind, limit);
    assert r == s[..|r|];
    forall x, i | x in rows && x.kind == kind && x !in r && 0 <= i < |r|
      ensures x.timestamp <= r[i].timestamp
    {
      assert x in multiset(s);
      var j :| 0 <= j < |s| && s[j] == x;
    }
  }

  /** Reading a list backwards keeps its items. */
  lemma ReverseMembers<T>(s: seq<T>, x: T)
    ensures x in Reverse(s) <==> x in s
  {
    var f := Reverse(s);
    if x in f {
      var i :| 0 <= i < |f| && f[i] == x;
      assert s[|s| - 1 - i] == x;
    }
    if x in s {
      var i :| 0 <= i < |s| && s[i] == x;
      assert f[|s| - 1 - i] == x;
    }
  }

  /** A rising list read backwards is falling. */
  lemma ReverseRising(s: seq<int>)
    requires Rising(s)
    ensures Falling(Reverse(s))
  {
  }

  /** The merged instants are the distinct instants of the three series, newest first. */
  lemma HistoryStampsFalling(rows: seq<Row>, limit: int)
    ensures var all := AllStamps(Recent(rows, "ph", limit), Recent(rows, "ec", limit), Recent(rows, "temp", limit));
      var f := HistoryStamps(rows, limit);
      Falling(f) && |f| == |SortedSet(all)| && forall t :: t in f <==> t in all
  {
    var all := AllStamps(Recent(rows, "ph", limit), Recent(rows, "ec", limit), Recent(rows, "temp", limit));
    SortedSetSorts(all);
    ReverseRising(SortedSet(all));
    forall t
      ensures t in HistoryStamps(rows, limit) <==> t in all
    {
      ReverseMembers(SortedSet(all), t);
    }
  }

  /** Python's `f[:limit]` of a newest-first list keeps the newest instants, as many as the limit says. */
  lemma PrefixOfFalling(f: seq<int>, limit: int)
    requires Falling(f)
    ensures var h := Prefix(f, limit);
      && Falling(h)
      && (forall t :: t in h ==> t in f)
      && (forall t, i :: t in f && t !in h && 0 <= i < |h| ==> t < h[i])
      && (0 <= limit ==> |h| == if limit < |f| then limit else |f|)
      && (limit < 0 ==> |h| == if |f| + limit <= 0 then 0 else |f| + limit)
  {
    var h := Prefix(f, limit);
    assert h == f[..|h|];
    forall t, i | t in f && t !in h && 0 <= i < |h|
      ensures t < h[i]
    {
      var j :| 0 <= j < |f| && f[j] == t;
    }
  }

  /**
   * The instants of `get_history`: distinct, newest first, each one present
   * in one of the three fetched series, the newest of them kept — `limit` of
   * them, or all when fewer (a negative limit drops that many of the oldest).
   */
  lemma HistoryTimes(rows: seq<Row>, limit: int)
    ensures var ph, ec, temp := Recent(rows, "ph", limit), Recent(rows, "ec", limit), Recent(rows, "temp", limit);
      var u := SortedSet(AllStamps(ph, ec, temp));
      var h := Instants(History(rows, limit));
      && Falling(h)
      && (forall t :: t in h ==> t in u)
      && (forall t, i :: t in u && t !in h && 0 <= i < |h| ==> t < h[i])
      && (0 <= limit ==> |h| == if limit < |u| then limit else |u|)
      && (limit < 0 ==> |h| == if |u| + limit <= 0 then 0 else |u| + limit)
  {
    var ph, ec, temp := Recent(rows, "ph", limit), Recent(rows, "ec", limit), Recent(rows, "temp", limit);
    var all := AllStamps(ph, ec, temp);
    SortedSetSorts(all);
    HistoryStampsFalling(rows, limit);
    var f := HistoryStamps(rows, limit);
    PrefixOfFalling(f, limit);
    MergeInstants(ByTime(ph), ByTime(ec), ByTime(temp), Prefix(f, limit));
  }

  /**
   * Each entry of `get_history` holds, for each sensor, the value of that
   * sensor's fetched series at exactly the entry's instant, None where the
   * series has none; every value comes from a stored row of that sensor.
   */
  lemma HistoryEntries(rows: seq<Row>, limit: int, i: int)
    requires 0 <= i < |History(rows, limit)|
    ensures var e := History(rows, limit)[i];
      && Reports(Recent(rows, "ph", limit), e.ph, e.timestamp)
      && Reports(Recent(rows, "ec", limit), e.ec, e.timestamp)
      && Reports(Recent(rows, "temp", limit), e.temperature, e.timestamp)
      && (e.ph.Some? ==> Row("ph", e.ph.value, e.timestamp) in rows)
      && (e.ec.Some? ==> Row("ec", e.ec.value, e.timestamp) in rows)
      && (e.temperature.Some? ==> Row("temp", e.temperature.value, e.timestamp) in rows)
  {
    var e := History(rows, limit)[i];
    AtReports(Recent(rows, "ph", limit), e.timestamp);
    AtReports(Recent(rows, "ec", limit), e.timestamp);
    AtReports(Recent(rows, "temp", limit), e.timestamp);
    RecentRows(rows, "ph", limit);
    RecentRows(rows, "ec", limit);
    RecentRows(rows, "temp", limit);
  }

  // ---------------------------------------------------------------------
  // get_range
  // ---------------------------------------------------------------------

  /** The range query of one type: rows with start <= instant <= end, oldest first. */
  function InRange(rows: seq<Row>, kind: string, start: int, end: int): seq<Row>
  {
    OldestFirst(Within(OfKind(rows, kind), start, end))
  }

  /** `SensorData.get_range(start, end)`. */
  function Range(rows: seq<Row>, start: int, end: int): seq<Sample>
  {
    var ph, ec, temp := InRange(rows, "ph", start, end), InRange(rows, "ec", start, end), InRange(rows, "temp", start, end);
    Merge(ByTime(ph), ByTime(ec), ByTime(temp), SortedSet(AllStamps(ph, ec, temp)))
  }

  /** The range query returns exactly the rows of the type inside the closed interval, oldest first. */
  lemma InRangeRows(rows: seq<Row>, kind: string, start: int, end: int)
    ensures Ordered(InRange(rows, kind, start, end))
    ensures forall x :: x in InRange(rows, kind, start, end) <==> x in rows && x.kind == kind && start <= x.timestamp <= end
  {
    var o := OfKind(rows, kind);
    OfKindMembers(rows, kind);
    var w := Within(o, start, end);
    WithinMembers(o, start, end);
    OldestFirstSorts(w);
    var r := InRange(rows, kind, start, end);
    forall x
      ensures x in r <==> x in w
    {
      assert x in r <==> x in multiset(r);
    }
  }

  /** One type's range query has a row at an instant exactly when a row of the type inside the interval does. */
  lemma KindInstant(rows: seq<Row>, kind: string, start: int, end: int, t: int)
    ensures t in Stamps(InRange(rows, kind, start, end)) <==>
      start <= t <= end && exists x :: x in rows && x.kind == kind && x.timestamp == t
  {
    InRangeRows(rows, kind, start, end);
    StampsMembers(InRange(rows, kind, start, end), t);
  }

  /** An instant is in the merged range exactly when a sensor row inside the interval has it. */
  lemma RangeInstant(rows: seq<Row>, start: int, end: int, t: int)
    ensures var ph, ec, temp := InRange(rows, "ph", start, end), InRange(rows, "ec", start, end), InRange(rows, "temp", start, end);
      t in SortedSet(AllStamps(ph, ec, temp)) <==> start <= t <= end && exists x :: x in rows && Sensor(x.kind) && x.timestamp == t
  {
    var ph, ec, temp := InRange(rows, "ph", start, end), InRange(rows, "ec", start, end), InRange(rows, "temp", start, end);
    SortedSetSorts(AllStamps(ph, ec, temp));
    KindInstant(rows, "ph", start, end, t);
    KindInstant(rows, "ec", start, end, t);
    KindInstant(rows, "temp", start, end, t);
    assert t in AllStamps(ph, ec, temp) <==> t in Stamps(ph) || t in Stamps(ec) || t in Stamps(temp);
  }

  /**
   * The instants of `get_range`: distinct, oldest first, and exactly the
   * instants in [start, end] at which some pH, EC or temperature row was stored.
   */
  lemma RangeTimes(rows: seq<Row>, start: int, end: int)
    ensures var g := Instants(Range(rows, start, end));
      && Rising(g)
      && forall t :: t in g <==> start <= t <= end && exists x :: x in rows && Sensor(x.kind) && x.timestamp == t
  {
    var ph, ec, temp := InRange(rows, "ph", start, end), InRange(rows, "ec", start, end), InRange(rows, "temp", start, end);
    var all := AllStamps(ph, ec, temp);
    SortedSetSorts(all);
    MergeInstants(ByTime(ph), ByTime(ec), ByTime(temp), SortedSet(all));
    var g := Instants(Range(rows, start, end));
    forall t
      ensures t in g <==> start <= t <= end && exists x :: x in rows && Sensor(x.kind) && x.timestamp == t
    {
      RangeInstant(rows, start, end, t);
    }
  }

  /** At an instant of the interval, one type's range dictionary holds a value exactly when a row of the type was stored then. */
  lemma KindEntry(rows: seq<Row>, kind: string, start: int, end: int, t: int)
    requires start <= t <= end
    ensures var v := At(ByTime(InRange(rows, kind, start, end)), t);
      && (v.Some? <==> exists x :: x in rows && x.kind == kind && x.timestamp == t)
      && (v.Some? ==> Row(kind, v.value, t) in rows)
  {
    var r := InRange(rows, kind, start, end);
    InRangeRows(rows, kind, start, end);
    AtReports(r, t);
    var v := At(ByTime(r), t);
    if v.Some? {
      var x :| x in r && x.timestamp == t && x.value == v.value;
      assert x == Row(kind, v.value, t);
    }
  }

  /**
   * Each entry of `get_range` holds, for each sensor, a value exactly when a
   * row of that sensor was stored at the entry's instant, and that value is
   * one stored there.
   */
  lemma RangeEntries(rows: seq<Row>, start: int, end: int, i: int)
    requires 0 <= i < |Range(rows, start, end)|
    ensures var e := Range(rows, start, end)[i];
      && start <= e.timestamp <= end
      && (e.ph.Some? <==> exists x :: x in rows && x.kind == "ph" && x.timestamp == e.timestamp)
      && (e.ec.Some? <==> exists x :: x in rows && x.kind == "ec" && x.timestamp == e.timestamp)
      && (e.temperature.Some? <==> exists x :: x in rows && x.kind == "temp" && x.timestamp == e.timestamp)
      && (e.ph.Some? ==> Row("ph", e.ph.value, e.timestamp) in rows)
      && (e.ec.Some? ==> Row("ec", e.ec.value, e.timestamp) in rows)
      && (e.temperature.Some? ==> Row("temp", e.temperature.value, e.timestamp) in rows)
  {
    var ph, ec, temp := InRange(rows, "ph", start, end), InRange(rows, "ec", start, end), InRange(rows, "temp", start, end);
    var e := Range(rows, start, end)[i];
    assert e.timestamp in SortedSet(AllStamps(ph, ec, temp));
    RangeInstant(rows, start, end, e.timestamp);
    KindEntry(rows, "ph", start, end, e.timestamp);
    KindEntry(rows, "ec", start, end, e.timestamp);
    KindEntry(rows, "temp", start, end, e.timestamp);
  }
}
