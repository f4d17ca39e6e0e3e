/**
 * The client for the Atlas Scientific EZO circuits (pH, EC, RTD temperature)
 * on the I2C bus: command framing, sensor reads with temperature
 * compensation, the last-reading cache in front of the `sensor_readings`
 * table, and the calibration commands.
 *
 * The bus is a record: the bytes written so far (address and octet) and, per
 * address, the bytes the device has ready to be read. A device answers a read
 * with a length byte followed by that many bytes.
 */
module SensorManager {
  import opened Common

  /** The sensor types, in the order the address table lists them. */
  const SENSOR_TYPES: seq<string> := ["ph", "ec", "temp"]

  const READ_COMMAND: string := "R"

  /** The default temperature used for compensation when none is known. */
  const DEFAULT_TEMPERATURE: real := 25.0

  /** The I2C address of each circuit: pH 0x63, EC 0x64, RTD 0x66. */
  function Address(kind: string): (a: Option<int>)
    ensures a.Some? <==> kind in SENSOR_TYPES
    ensures a.Some? ==> 0x63 <= a.value <= 0x66
  {
    if kind == "ph" then Some(0x63)
    else if kind == "ec" then Some(0x64)
    else if kind == "temp" then Some(0x66)
    else None
  }

  /** Distinct sensors sit at distinct addresses. */
  lemma AddressesDistinct(k1: string, k2: string)
    requires Address(k1).Some? && Address(k2).Some?
    ensures Address(k1) == Address(k2) <==> k1 == k2
  {
  }

  /** One `write_byte` call on the bus. */
  datatype Write = Write(address: int, b: byte)

  /** A row of `sensor_readings`; rows are kept in the order they were added. */
  datatype Reading = Reading(kind: string, value: real)

  /** Why an operation raised. */
  datatype SensorError =
    | BusNotInitialised
    | UnknownSensor(kind: string)
    | ReadFailed(address: int)          // the device had fewer bytes than it announced
    | NotText(address: int)             // the reply does not decode as text
    | DeviceError(response: string)     // the reply starts with '?'
    | InvalidResponse(response: string) // the reply is not a number
    | BadPoint(point: string)
    | MissingValue

  /**
   * Everything the client reads and changes: whether the bus is open, the
   * bytes written, the bytes pending per address, the `last_readings` cache
   * (a missing key stands for `None`) and the stored readings.
   */
  datatype World = World(
    busOpen: bool,
    written: seq<Write>,
    inbox: map<int, seq<byte>>,
    cache: map<string, real>,
    stored: seq<Reading>)

  /** A result together with the world after the operation. */
  datatype Out<T> = Out(result: T, w: World)

  /** The bytes a device has ready. */
  function Pending(w: World, address: int): seq<byte>
  {
    if address in w.inbox then w.inbox[address] else []
  }

  /** The writes of `bs` to one address, one byte at a time. */
  function WritesTo(address: int, bs: seq<byte>): seq<Write>
  {
    if bs == [] then [] else WritesTo(address, bs[..|bs| - 1]) + [Write(address, bs[|bs| - 1])]
  }

  /** The octets of a sequence of writes. */
  function BytesOf(ws: seq<Write>): seq<byte>
  {
    if ws == [] then [] else BytesOf(ws[..|ws| - 1]) + [ws[|ws| - 1].b]
  }

  lemma {:induction false} WritesToShape(address: int, bs: seq<byte>)
    ensures |WritesTo(address, bs)| == |bs|
    ensures BytesOf(WritesTo(address, bs)) == bs
    ensures forall x :: x in WritesTo(address, bs) ==> x.address == address
  {
    if bs != [] {
      var init := bs[..|bs| - 1];
      WritesToShape(address, init);
      var ws := WritesTo(address, bs);
      assert ws[..|ws| - 1] == WritesTo(address, init);
      assert init + [bs[|bs| - 1]] == bs;
    }
  }

  // ---------------------------------------------------------------------
  // Framing: send_command and read_response
  // ---------------------------------------------------------------------

  /** `send_command`: the encoded command written byte by byte; raises without a bus. */
  function AfterSend(w: World, address: int, command: string): (o: Out<Result<(), SensorError>>)
    ensures o.result.Err? <==> !w.busOpen
    ensures !w.busOpen ==> o.w == w
  {
    if !w.busOpen then Out(Err(BusNotInitialised), w)
    else Out(Ok(()), w.(written := w.written + WritesTo(address, Encode(command))))
  }

  /**
   * Sending an ASCII command appends writes to that one address whose bytes
   * decode back to the command, and changes nothing else.
   */
  lemma SendCommandRoundTrip(w: World, address: int, command: string)
    requires w.busOpen && IsAscii(command)
    ensures var o := AfterSend(w, address, command);
      var added := o.w.written[|w.written|..];
      && o.result.Ok?
      && o.w == w.(written := o.w.written)
      && o.w.written == w.written + added
      && (forall x :: x in added ==> x.address == address)
      && DecodeAscii(BytesOf(added)) == Some(command)
  {
    var o := AfterSend(w, address, command);
    var bs := Encode(command);
    assert o.w.written[|w.written|..] == WritesTo(address, bs);
    WritesToShape(address, bs);
    DecodeEncode(command);
  }

  /** A device reply: the length byte, then the payload. */
  function Frame(payload: seq<byte>): (f: seq<byte>)
    requires |payload| < 256
    ensures |f| == |payload| + 1 && f[0] as int == |payload| && f[1..] == payload
  {
    [|payload| as byte] + payload
  }

  /**
   * `read_response`: read the length byte, then that many bytes, decode and
   * strip. A device without the announced bytes raises (its pending bytes
   * are consumed); undecodable bytes raise after they were read.
   */
  function ResponseOf(w: World, address: int): (o: Out<Result<string, SensorError>>)
    ensures o.w.written == w.written && o.w.cache == w.cache && o.w.stored == w.stored
    ensures o.w.busOpen == w.busOpen
    ensures !w.busOpen || Pending(w, address) == [] ==> o.result.Err? && o.w == w
  {
    if !w.busOpen then Out(Err(BusNotInitialised), w)
    else
      var q := Pending(w, address);
      if q == [] then Out(Err(ReadFailed(address)), w)
      else
        var n := q[0] as int;
        if |q| - 1 < n then Out(Err(ReadFailed(address)), w.(inbox := w.inbox[address := []]))
        else
          var w' := w.(inbox := w.inbox[address := q[n + 1..]]);
          match DecodeAscii(q[1..n + 1])
          case None => Out(Err(NotText(address)), w')
          case Some(text) => Out(Ok(Strip(text)), w')
  }

  /** A framed ASCII reply is read back as the stripped text, leaving what follows pending. */
  lemma ReadFramed(w: World, address: int, s: string, more: seq<byte>)
    requires w.busOpen && IsAscii(s) && |s| < 256
    requires Pending(w, address) == Frame(Encode(s)) + more
    ensures ResponseOf(w, address) == Out(Ok(Strip(s)), w.(inbox := w.inbox[address := more]))
  {
    var q := Pending(w, address);
    var bs := Encode(s);
    assert q[0] as int == |bs|;
    assert q[1..|bs| + 1] == bs;
    assert q[|bs| + 1..] == more;
    DecodeEncode(s);
  }

  /** A reply shorter than its length byte announces raises and leaves nothing pending. */
  lemma ReadShort(w: World, address: int)
    requires w.busOpen && Pending(w, address) != []
    requires |Pending(w, address)| - 1 < Pending(w, address)[0] as int
    ensures ResponseOf(w, address) == Out(Err(ReadFailed(address)), w.(inbox := w.inbox[address := []]))
  {
  }

  // ---------------------------------------------------------------------
  // The last-reading cache
  // ---------------------------------------------------------------------

  /** `SensorReading.get_latest`: the value of the most recent row of a type. */
  function LatestStored(stored: seq<Reading>, kind: string): (r: Option<real>)
    ensures r.Some? ==> Reading(kind, r.value) in stored
    ensures r.None? <==> forall x :: x in stored ==> x.kind != kind
  {
    if stored == [] then None
    else if stored[|stored| - 1].kind == kind then Some(stored[|stored| - 1].value)
    else LatestStored(stored[..|stored| - 1], kind)
  }

  /** A new row is the latest of its type and hides no other type's latest row. */
  lemma LatestAfterAdd(stored: seq<Reading>, kind: string, value: real, other: string)
    ensures LatestStored(stored + [Reading(kind, value)], kind) == Some(value)
    ensures other != kind ==> LatestStored(stored + [Reading(kind, value)], other) == LatestStored(stored, other)
  {
    assert (stored + [Reading(kind, value)])[..|stored|] == stored;
  }

  /**
   * `get_last_reading`: the cached value; otherwise the latest stored value,
   * which is then cached; otherwise the default.
   */
  function LastReadingOf(w: World, kind: string, default: Option<real>): (o: Out<Option<real>>)
    ensures o.w == w.(cache := o.w.cache)
    ensures kind in w.cache ==> o == Out(Some(w.cache[kind]), w)
    ensures kind !in w.cache && LatestStored(w.stored, kind).None? ==> o == Out(default, w)
    ensures kind !in w.cache && LatestStored(w.stored, kind).Some? ==>
      o.result == LatestStored(w.stored, kind) && o.w.cache == w.cache[kind := o.result.value]
  {
    if kind in w.cache then Out(Some(w.cache[kind]), w)
    else match LatestStored(w.stored, kind)
      case Some(v) => Out(Some(v), w.(cache := w.cache[kind := v]))
      case None => Out(default, w)
  }

  /** Asking twice gives the same answer, and the second call changes nothing. */
  lemma LastReadingSettles(w: World, kind: string, default: Option<real>)
    ensures var o := LastReadingOf(w, kind, default);
      LastReadingOf(o.w, kind, default) == Out(o.result, o.w)
  {
  }

  /**
   * The cache agrees with the table: every cached value is the latest stored
   * value of its type.
   */
  predicate Coherent(w: World)
  {
    forall k :: k in w.cache ==> LatestStored(w.stored, k) == Some(w.cache[k])
  }

  /** With a coherent cache, `get_last_reading` answers what the table says, or the default. */
  lemma LastReadingIsLatest(w: World, kind: string, default: Option<real>)
    requires Coherent(w)
    ensures var o := LastReadingOf(w, kind, default);
      && o.result == (if LatestStored(w.stored, kind).Some? then LatestStored(w.stored, kind) else default)
      && Coherent(o.w)
  {
  }

  // ---------------------------------------------------------------------
  // read_sensor
  // ---------------------------------------------------------------------

  /** The compensation command: `T,` and the temperature with two decimals. */
  function CompensationCommand(temperature: real): string
  {
    "T," + Fixed2(temperature)
  }

  /** For pH and EC: look up the temperature (default 25) and send the compensation command. */
  function Compensate(w: World, kind: string, address: int): World
  {
    if kind == "temp" then w
    else
      var t := LastReadingOf(w, "temp", Some(DEFAULT_TEMPERATURE));
      AfterSend(t.w, address, CompensationCommand(t.result.GetOr(DEFAULT_TEMPERATURE))).w
  }

  /** The reply's meaning: '?' is a device error, otherwise it must be a number, which is cached. */
  function Interpret(kind: string, r: Out<Result<string, SensorError>>): (o: Out<Result<real, SensorError>>)
    ensures o.w == r.w.(cache := o.w.cache)
    ensures o.result.Err? ==> o.w == r.w
    ensures o.result.Ok? ==> o.w.cache == r.w.cache[kind := o.result.value]
  {
    match r.result
    case Err(e) => Out(Err(e), r.w)
    case Ok(text) =>
      if StartsWith(text, "?") then Out(Err(DeviceError(text)), r.w)
      else match ParseDecimal(text)
        case None => Out(Err(InvalidResponse(text)), r.w)
        case Some(v) => Out(Ok(v), r.w.(cache := r.w.cache[kind := v]))
  }

  /** `read_sensor`: compensate, send `R`, read the reply and interpret it. */
  function SensorRead(w: World, kind: string): Out<Result<real, SensorError>>
  {
    if !w.busOpen then Out(Err(BusNotInitialised), w)
    else match Address(kind)
      case None => Out(Err(UnknownSensor(kind)), w)
      case Some(a) =>
        var w1 := Compensate(w, kind, a);
        var w2 := AfterSend(w1, a, READ_COMMAND).w;
        Interpret(kind, ResponseOf(w2, a))
  }

  /** Without a bus, or for a type with no address, nothing is sent and nothing changes. */
  lemma ReadSensorRejects(w: World, kind: string)
    requires !w.busOpen || kind !in SENSOR_TYPES
    ensures SensorRead(w, kind).w == w
    ensures SensorRead(w, kind).result
      == Err(if !w.busOpen then BusNotInitialised else UnknownSensor(kind))
  {
  }

  /**
   * The bytes a read puts on the bus, whatever the reply: for pH and EC the
   * compensation command with the last known temperature (25 when none is
   * known) before `R`; for the temperature sensor only `R`.
   */
  lemma ReadSensorCommands(w: World, kind: string)
    requires w.busOpen && kind in SENSOR_TYPES
    ensures var a := Address(kind).value;
      var t := LastReadingOf(w, "temp", Some(DEFAULT_TEMPERATURE)).result.GetOr(DEFAULT_TEMPERATURE);
      var sent := if kind == "temp" then READ_COMMAND
                  else CompensationCommand(t) + READ_COMMAND;
      SensorRead(w, kind).w.written == w.written + WritesTo(a, Encode(sent))
  {
    var a := Address(kind).value;
    var t := LastReadingOf(w, "temp", Some(DEFAULT_TEMPERATURE)).result.GetOr(DEFAULT_TEMPERATURE);
    var w1 := Compensate(w, kind, a);
    var w2 := AfterSend(w1, a, READ_COMMAND).w;
    assert w2.written == w1.written + WritesTo(a, Encode(READ_COMMAND));
    assert SensorRead(w, kind).w.written == w2.written;
    if kind != "temp" {
      var c := CompensationCommand(t);
      assert w1.written == w.written + WritesTo(a, Encode(c));
      EncodeAppend(c, READ_COMMAND);
      WritesToAppend(a, Encode(c), Encode(READ_COMMAND));
    }
  }

  lemma {:induction false} EncodeAppend(s: string, t: string)
    ensures Encode(s + t) == Encode(s) + Encode(t)
  {
    if s == [] {
      assert s + t == t;
    } else {
      assert (s + t)[1..] == s[1..] + t;
      assert (s + t)[0] == s[0];
      EncodeAppend(s[1..], t);
      var c := EncodeChar(s[0]);
      assert Encode(s + t) == c + (Encode(s[1..]) + Encode(t));
      assert c + (Encode(s[1..]) + Encode(t)) == (c + Encode(s[1..])) + Encode(t);
    }
  }

  lemma {:induction false} WritesToAppend(address: int, xs: seq<byte>, ys: seq<byte>)
    ensures WritesTo(address, xs + ys) == WritesTo(address, xs) + WritesTo(address, ys)
    decreases |ys|
  {
    if ys == [] {
      assert xs + ys == xs;
    } else {
      var init := ys[..|ys| - 1];
      var last := [Write(address, ys[|ys| - 1])];
      assert (xs + ys)[..|xs + ys| - 1] == xs + init;
      assert (xs + ys)[|xs + ys| - 1] == ys[|ys| - 1];
      WritesToAppend(address, xs, init);
      assert WritesTo(address, xs + ys) == (WritesTo(address, xs) + WritesTo(address, init)) + last;
      assert WritesTo(address, ys) == WritesTo(address, init) + last;
    }
  }

  /**
   * How a read ends on a readable reply `s`: a reply starting with '?' is a
   * device error; otherwise a reply `float()` cannot read is an invalid
   * response; otherwise the number is returned and becomes the cached value
   * for the type. The reply is consumed either way.
   */
  lemma ReadSensorReply(w: World, kind: string, s: string, more: seq<byte>)
    requires w.busOpen && kind in SENSOR_TYPES
    requires IsAscii(s) && |s| < 256 && Strip(s) == s
    requires Pending(w, Address(kind).value) == Frame(Encode(s)) + more
    ensures var o := SensorRead(w, kind);
      var a := Address(kind).value;
      var w1 := Compensate(w, kind, a);
      && o.w.inbox == w.inbox[a := more]
      && (StartsWith(s, "?") ==> o.result == Err(DeviceError(s)) && o.w.cache == w1.cache)
      && (!StartsWith(s, "?") && ParseDecimal(s).None? ==> o.result == Err(InvalidResponse(s)) && o.w.cache == w1.cache)
      && (!StartsWith(s, "?") && ParseDecimal(s).Some? ==>
            o.result == Ok(ParseDecimal(s).value) && o.w.cache == w1.cache[kind := ParseDecimal(s).value])
  {
    var a := Address(kind).value;
    var w1 := Compensate(w, kind, a);
    var w2 := AfterSend(w1, a, READ_COMMAND).w;
    assert w2.inbox == w.inbox;
    ReadFramed(w2, a, s, more);
    assert SensorRead(w, kind) == Interpret(kind, ResponseOf(w2, a));
  }

  /**
   * A read changes neither the bus handle nor the table, and leaves no value
   * of its own in the cache unless it succeeds.
   */
  lemma ReadSensorCachesOnlySuccess(w: World, kind: string)
    requires w.busOpen && kind in SENSOR_TYPES
    ensures var o := SensorRead(w, kind);
      var before := Compensate(w, kind, Address(kind).value).cache;
      && o.w.stored == w.stored && o.w.busOpen
      && (o.result.Err? ==> o.w.cache == before)
      && (o.result.Ok? ==> o.w.cache == before[kind := o.result.value])
  {
    var a := Address(kind).value;
    var w1 := Compensate(w, kind, a);
    var w2 := AfterSend(w1, a, READ_COMMAND).w;
    var r := ResponseOf(w2, a);
    assert w1.stored == w.stored && w1.busOpen;
    assert SensorRead(w, kind) == Interpret(kind, r);
  }

  // ---------------------------------------------------------------------
  // read_and_log_sensor and read_all_sensors
  // ---------------------------------------------------------------------

  /**
   * `read_and_log_sensor`: read, store the value, then announce it over the
   * socket. Any exception gives `None`; `emitOk` says whether the
   * announcement succeeds (it is imported from the application package).
   */
  function LoggedRead(w: World, kind: string, emitOk: bool): (o: Out<Option<real>>)
  {
    var r := SensorRead(w, kind);
    match r.result
    case Err(_) => Out(None, r.w)
    case Ok(v) => Out(if emitOk then Some(v) else None, r.w.(stored := r.w.stored + [Reading(kind, v)]))
  }

  /**
   * A reading is stored exactly when the sensor read succeeds, and it is then
   * the latest stored value of its type; the caller only sees it when the
   * announcement succeeds too.
   */
  lemma LoggedReadStores(w: World, kind: string, emitOk: bool)
    ensures var r := SensorRead(w, kind);
      var o := LoggedRead(w, kind, emitOk);
      && (r.result.Err? ==> o.result.None? && o.w.stored == w.stored)
      && (r.result.Ok? ==> o.w.stored == w.stored + [Reading(kind, r.result.value)]
                           && LatestStored(o.w.stored, kind) == Some(r.result.value))
      && (o.result.Some? <==> r.result.Ok? && emitOk)
      && (o.result.Some? ==> o.result == Some(r.result.value))
  {
    var r := SensorRead(w, kind);
    if r.result.Ok? {
      LatestAfterAdd(w.stored, kind, r.result.value, kind);
    }
  }

  /** The temperature lookup in a read keeps the cache coherent. */
  lemma CompensateCoherent(w: World, kind: string, address: int)
    requires Coherent(w)
    ensures Coherent(Compensate(w, kind, address))
    ensures Compensate(w, kind, address).stored == w.stored
  {
    if kind != "temp" {
      LastReadingIsLatest(w, "temp", Some(DEFAULT_TEMPERATURE));
    }
  }

  /** Every reading through `read_and_log_sensor` keeps the cache agreeing with the table. */
  lemma LoggedReadCoherent(w: World, kind: string, emitOk: bool)
    requires Coherent(w)
    ensures Coherent(LoggedRead(w, kind, emitOk).w)
  {
    var r := SensorRead(w, kind);
    var o := LoggedRead(w, kind, emitOk);
    if w.busOpen && kind in SENSOR_TYPES {
      var a := Address(kind).value;
      CompensateCoherent(w, kind, a);
      ReadSensorCachesOnlySuccess(w, kind);
      var w1 := Compensate(w, kind, a);
      if r.result.Ok? {
        var v := r.result.value;
        assert o.w.stored == w1.stored + [Reading(kind, v)];
        assert o.w.cache == w1.cache[kind := v];
        forall k | k in o.w.cache
          ensures LatestStored(o.w.stored, k) == Some(o.w.cache[k])
        {
          LatestAfterAdd(w1.stored, kind, v, k);
        }
      } else {
        assert o.w.cache == w1.cache && o.w.stored == w1.stored;
      }
    } else {
      ReadSensorRejects(w, kind);
    }
  }

  /** `read_all_sensors`: every type in turn, each result under its type. */
  function ReadEach(w: World, kinds: seq<string>, emitOk: bool): (o: Out<map<string, Option<real>>>)
  {
    if kinds == [] then Out(map[], w)
    else
      var before := ReadEach(w, kinds[..|kinds| - 1], emitOk);
      var k := kinds[|kinds| - 1];
      var x := LoggedRead(before.w, k, emitOk);
      Out(before.result[k := x.result], x.w)
  }

  lemma ReadEachStep(w: World, kinds: seq<string>, i: int, emitOk: bool)
    requires 0 <= i < |kinds|
    ensures var before := ReadEach(w, kinds[..i], emitOk);
      var x := LoggedRead(before.w, kinds[i], emitOk);
      ReadEach(w, kinds[..i + 1], emitOk) == Out(before.result[kinds[i] := x.result], x.w)
  {
    assert kinds[..i + 1][..i] == kinds[..i];
  }

  /** Every type read gets an entry; with the announcement failing, every entry is `None`. */
  lemma {:induction false} ReadEachKeys(w: World, kinds: seq<string>, emitOk: bool)
    ensures forall k :: k in ReadEach(w, kinds, emitOk).result <==> k in kinds
    ensures !emitOk ==> forall k :: k in ReadEach(w, kinds, emitOk).result ==> ReadEach(w, kinds, emitOk).result[k].None?
  {
    if kinds != [] {
      var init := kinds[..|kinds| - 1];
      ReadEachKeys(w, init, emitOk);
      assert kinds == init + [kinds[|kinds| - 1]];
    }
  }

  /** Reading every sensor keeps the cache agreeing with the table. */
  lemma {:induction false} ReadEachCoherent(w: World, kinds: seq<string>, emitOk: bool)
    requires Coherent(w)
    ensures Coherent(ReadEach(w, kinds, emitOk).w)
  {
    if kinds != [] {
      var init := kinds[..|kinds| - 1];
      ReadEachCoherent(w, init, emitOk);
      LoggedReadCoherent(ReadEach(w, init, emitOk).w, kinds[|kinds| - 1], emitOk);
    }
  }

  /** `read_all_sensors` answers for exactly pH, EC and temperature. */
  lemma ReadAllKeys(w: World, emitOk: bool)
    ensures ReadEach(w, SENSOR_TYPES, emitOk).result.Keys == {"ph", "ec", "temp"}
  {
    ReadEachKeys(w, SENSOR_TYPES, emitOk);
  }

  /**
   * `init_sensors`: open the bus (when the device can be opened), probe each
   * sensor with a plain read, then take a logged reading of each.
   */
  function Initialised(w: World, available: bool, emitOk: bool): (o: World)
  {
    if !available then w
    else
      ReadEach(Probed(w.(busOpen := true), SENSOR_TYPES), SENSOR_TYPES, emitOk).w
  }

  /**
   * A plain `read_sensor` caches a value it never stores: a successful read of
   * a type with no stored row leaves the cache disagreeing with the table.
   * `init_sensors` probes each sensor this way, and the dosing check reads the
   * sensor this way after a dose.
   */
  lemma PlainReadBreaksCoherence(w: World, kind: string)
    requires w.busOpen && kind in SENSOR_TYPES && LatestStored(w.stored, kind).None?
    ensures SensorRead(w, kind).result.Ok? ==> !Coherent(SensorRead(w, kind).w)
  {
    ReadSensorCachesOnlySuccess(w, kind);
    var o := SensorRead(w, kind);
    if o.result.Ok? {
      assert kind in o.w.cache;
    }
  }

  // ---------------------------------------------------------------------
  // Calibration
  // ---------------------------------------------------------------------

  /** The pH points and the buffer each stands for by default. */
  function PhDefaultValue(point: string): (v: Option<string>)
    ensures v.Some? <==> point in ["mid", "low", "high"]
  {
    if point == "mid" then Some("7.00")
    else if point == "low" then Some("4.00")
    else if point == "high" then Some("10.00")
    else None
  }

  /** The pH calibration command: a known point, and the given value or that point's default buffer. */
  function PhCalibrationCommand(point: string, value: Option<string>): (r: Result<string, SensorError>)
    ensures r.Err? <==> point !in ["mid", "low", "high"]
    ensures r.Err? ==> r.error == BadPoint(point)
  {
    match PhDefaultValue(point)
    case None => Err(BadPoint(point))
    case Some(d) => Ok("Cal," + point + "," + (if Filled(value) then value.value else d))
  }

  /** The EC calibration command: `Cal,dry` for the dry point; every other point needs a value. */
  function EcCalibrationCommand(point: string, value: Option<string>): (r: Result<string, SensorError>)
    ensures point !in ["dry", "single", "low", "high"] ==> r == Err(BadPoint(point))
    ensures point == "dry" ==> r == Ok("Cal,dry")
    ensures point in ["single", "low", "high"] ==> (r.Ok? <==> Filled(value))
  {
    if point !in ["dry", "single", "low", "high"] then Err(BadPoint(point))
    else if point == "dry" then Ok("Cal,dry")
    else if Filled(value) then Ok("Cal," + point + "," + value.value)
    else Err(MissingValue)
  }

  /** Send a calibration command and read the acknowledgement; a '?' reply is an error. */
  function Calibrated(w: World, address: int, command: string): (o: Out<Result<(), SensorError>>)
    ensures o.w.cache == w.cache && o.w.stored == w.stored
  {
    var s := AfterSend(w, address, command);
    if s.result.Err? then Out(Err(s.result.error), s.w)
    else
      var r := ResponseOf(s.w, address);
      match r.result
      case Err(e) => Out(Err(e), r.w)
      case Ok(text) => if StartsWith(text, "?") then Out(Err(DeviceError(text)), r.w) else Out(Ok(()), r.w)
  }

  /** `calibrate_ph`: a bad point raises before anything is sent. */
  function PhCalibration(w: World, point: string, value: Option<string>): (o: Out<Result<(), SensorError>>)
  {
    match PhCalibrationCommand(point, value)
    case Err(e) => Out(Err(e), w)
    case Ok(c) => Calibrated(w, 0x63, c)
  }

  /** `calibrate_ec`: a bad point or a missing value raises before anything is sent. */
  function EcCalibration(w: World, point: string, value: Option<string>): (o: Out<Result<(), SensorError>>)
  {
    match EcCalibrationCommand(point, value)
    case Err(e) => Out(Err(e), w)
    case Ok(c) => Calibrated(w, 0x64, c)
  }

  /** `calibrate_temperature`: `Cal,` followed by the value's text, to the RTD circuit. */
  function TemperatureCalibration(w: World, value: string): (o: Out<Result<(), SensorError>>)
  {
    Calibrated(w, 0x66, "Cal," + value)
  }

  /** Without a value the pH points use the 7.00, 4.00 and 10.00 buffers. */
  lemma PhCalibrationDefaults(value: Option<string>)
    requires !Filled(value)
    ensures PhCalibrationCommand("mid", value) == Ok("Cal,mid,7.00")
    ensures PhCalibrationCommand("low", value) == Ok("Cal,low,4.00")
    ensures PhCalibrationCommand("high", value) == Ok("Cal,high,10.00")
  {
    assert "Cal," + "mid" + "," + "7.00" == "Cal,mid,7.00";
    assert "Cal," + "low" + "," + "4.00" == "Cal,low,4.00";
    assert "Cal," + "high" + "," + "10.00" == "Cal,high,10.00";
  }

  /** A rejected calibration request puts nothing on the bus and changes nothing. */
  lemma CalibrationRejects(w: World, point: string, value: Option<string>)
    ensures PhCalibrationCommand(point, value).Err? ==> PhCalibration(w, point, value).w == w
    ensures EcCalibrationCommand(point, value).Err? ==> EcCalibration(w, point, value).w == w
  {
  }

  /**
   * An accepted calibration writes exactly its command to the circuit and
   * succeeds exactly when the acknowledgement is readable text not starting
   * with '?'.
   */
  lemma CalibrationSends(w: World, address: int, command: string, s: string, more: seq<byte>)
    requires w.busOpen && IsAscii(s) && |s| < 256 && Strip(s) == s
    requires Pending(w, address) == Frame(Encode(s)) + more
    ensures var o := Calibrated(w, address, command);
      && o.w.written == w.written + WritesTo(address, Encode(command))
      && o.w.inbox == w.inbox[address := more]
      && (o.result.Ok? <==> !StartsWith(s, "?"))
  {
    var s1 := AfterSend(w, address, command);
    assert Pending(s1.w, address) == Pending(w, address);
    ReadFramed(s1.w, address, s, more);
  }

  // ---------------------------------------------------------------------
  // The client, with its state updated in place
  // ---------------------------------------------------------------------

  /** The module's global state: the bus handle, the bus traffic, the cache and the table. */
  class SensorClient {
    var busOpen: bool
    var written: seq<Write>
    var inbox: map<int, seq<byte>>
    var cache: map<string, real>
    var stored: seq<Reading>

    function State(): World
      reads this
    {
      World(busOpen, written, inbox, cache, stored)
    }

    /** No bus yet and an empty cache, over the given devices and table. */
    constructor (devices: map<int, seq<byte>>, rows: seq<Reading>)
      ensures State() == World(false, [], devices, map[], rows)
    {
      busOpen := false;
      written := [];
      inbox := devices;
      cache := map[];
      stored := rows;
    }

    /** One byte to a device. */
    method WriteByte(address: int, b: byte)
      modifies this
      ensures State() == old(State()).(written := old(written) + [Write(address, b)])
    {
      written := written + [Write(address, b)];
    }

    /** One byte from a device; `None` when it has nothing (an I/O error). */
    method ReadByte(address: int) returns (b: Option<byte>)
      modifies this
      ensures var q := Pending(old(State()), address);
        if q == [] then b.None? && State() == old(State())
        else b == Some(q[0]) && State() == old(State()).(inbox := old(inbox)[address := q[1..]])
    {
      if address !in inbox || inbox[address] == [] {
        return None;
      }
      var q := inbox[address];
      inbox := inbox[address := q[1..]];
      return Some(q[0]);
    }

    method SendCommand(address: int, command: string) returns (r: Result<(), SensorError>)
      modifies this
      ensures Out(r, State()) == AfterSend(old(State()), address, command)
    {
      if !busOpen {
        return Err(BusNotInitialised);
      }
      var bs := Encode(command);
      var i := 0;
      while i < |bs|
        invariant 0 <= i <= |bs|
        invariant State() == old(State()).(written := old(written) + WritesTo(address, bs[..i]))
      {
        WriteByte(address, bs[i]);
        assert bs[..i + 1][..i] == bs[..i];
        i := i + 1;
      }
      assert bs[..i] == bs;
      return Ok(());
    }

    method ReadResponse(address: int) returns (r: Result<string, SensorError>)
      modifies this
      ensures Out(r, State()) == ResponseOf(old(State()), address)
    {
      if !busOpen {
        return Err(BusNotInitialised);
      }
      ghost var q := Pending(State(), address);
      var first := ReadByte(address);
      if first.None? {
        return Err(ReadFailed(address));
      }
      var n := first.value as int;
      var bytes: seq<byte> := [];
      var i := 0;
      while i < n
        invariant 0 <= i <= n && i <= |q| - 1
        invariant bytes == q[1..i + 1]
        invariant State() == old(State()).(inbox := old(inbox)[address := q[i + 1..]])
      {
        var b := ReadByte(address);
        if b.None? {
          return Err(ReadFailed(address));
        }
        bytes := bytes + [b.value];
        i := i + 1;
      }
      var text := DecodeAscii(bytes);
      if text.None? {
        return Err(NotText(address));
      }
      return Ok(Strip(text.value));
    }

    method GetLastReading(kind: string, default: Option<real>) returns (r: Option<real>)
      modifies this
      ensures Out(r, State()) == LastReadingOf(old(State()), kind, default)
    {
      if kind in cache {
        return Some(cache[kind]);
      }
      var latest := LatestStored(stored, kind);
      if latest.Some? {
        cache := cache[kind := latest.value];
        return latest;
      }
      return default;
    }

    method ReadSensor(kind: string) returns (r: Result<real, SensorError>)
      modifies this
      ensures Out(r, State()) == SensorRead(old(State()), kind)
    {
      if !busOpen {
        return Err(BusNotInitialised);
      }
      var address := Address(kind);
      if address.None? {
        return Err(UnknownSensor(kind));
      }
      var a := address.value;
      if kind != "temp" {
        var t := GetLastReading("temp", Some(DEFAULT_TEMPERATURE));
        var _ := SendCommand(a, CompensationCommand(t.GetOr(DEFAULT_TEMPERATURE)));
      }
      var _ := SendCommand(a, READ_COMMAND);
      var response := ReadResponse(a);
      if response.Err? {
        return Err(response.error);
      }
      var text := response.value;
      if StartsWith(text, "?") {
        return Err(DeviceError(text));
      }
      var v := ParseDecimal(text);
      if v.None? {
        return Err(InvalidResponse(text));
      }
      cache := cache[kind := v.value];
      return Ok(v.value);
    }

    method ReadAndLogSensor(kind: string, emitOk: bool) returns (r: Option<real>)
      modifies this
      ensures Out(r, State()) == LoggedRead(old(State()), kind, emitOk)
    {
      var value := ReadSensor(kind);
      if value.Err? {
        return None;
      }
      stored := stored + [Reading(kind, value.value)];
      if !emitOk {
        return None;
      }
      return Some(value.value);
    }

    method ReadAllSensors(emitOk: bool) returns (results: map<string, Option<real>>)
      modifies this
      ensures Out(results, State()) == ReadEach(old(State()), SENSOR_TYPES, emitOk)
    {
      results := map[];
      var i := 0;
      while i < |SENSOR_TYPES|
        invariant 0 <= i <= |SENSOR_TYPES|
        invariant Out(results, State()) == ReadEach(old(State()), SENSOR_TYPES[..i], emitOk)
      {
        var kind := SENSOR_TYPES[i];
        var v := ReadAndLogSensor(kind, emitOk);
        ReadEachStep(old(State()), SENSOR_TYPES, i, emitOk);
        results := results[kind := v];
        i := i + 1;
      }
      assert SENSOR_TYPES[..i] == SENSOR_TYPES;
    }

    /** `init_sensors`, with `available` saying whether the bus device could be opened. */
    method InitSensors(available: bool, emitOk: bool)
      modifies this
      ensures State() == Initialised(old(State()), available, emitOk)
    {
      if !available {
        return;
      }
      busOpen := true;
      var i := 0;
      while i < |SENSOR_TYPES|
        invariant 0 <= i <= |SENSOR_TYPES|
        invariant State() == Probed(old(State()).(busOpen := true), SENSOR_TYPES[..i])
      {
        var _ := ReadSensor(SENSOR_TYPES[i]);
        ProbedStep(old(State()).(busOpen := true), SENSOR_TYPES, i);
        i := i + 1;
      }
      assert SENSOR_TYPES[..3] == SENSOR_TYPES;
      var _ := ReadAllSensors(emitOk);
    }

    method Calibrate(address: int, command: string) returns (r: Result<(), SensorError>)
      modifies this
      ensures Out(r, State()) == Calibrated(old(State()), address, command)
    {
      var s := SendCommand(address, command);
      if s.Err? {
        return Err(s.error);
      }
      var response := ReadResponse(address);
      if response.Err? {
        return Err(response.error);
      }
      if StartsWith(response.value, "?") {
        return Err(DeviceError(response.value));
      }
      return Ok(());
    }

    method CalibratePh(point: string, value: Option<string>) returns (r: Result<(), SensorError>)
      modifies this
      ensures Out(r, State()) == PhCalibration(old(State()), point, value)
    {
      var command := PhCalibrationCommand(point, value);
      if command.Err? {
        return Err(command.error);
      }
      r := Calibrate(0x63, command.value);
    }

    method CalibrateEc(point: string, value: Option<string>) returns (r: Result<(), SensorError>)
      modifies this
      ensures Out(r, State()) == EcCalibration(old(State()), point, value)
    {
      var command := EcCalibrationCommand(point, value);
      if command.Err? {
        return Err(command.error);
      }
      r := Calibrate(0x64, command.value);
    }

    method CalibrateTemperature(value: string) returns (r: Result<(), SensorError>)
      modifies this
      ensures Out(r, State()) == TemperatureCalibration(old(State()), value)
    {
      r := Calibrate(0x66, "Cal," + value);
    }
  }

  /** The plain probe reads of `init_sensors`, in order; their errors are logged and ignored. */
  function Probed(w: World, kinds: seq<string>): World
  {
    if kinds == [] then w else SensorRead(Probed(w, kinds[..|kinds| - 1]), kinds[|kinds| - 1]).w
  }

  lemma ProbedStep(w: World, kinds: seq<string>, i: int)
    requires 0 <= i < |kinds|
    ensures Probed(w, kinds[..i + 1]) == SensorRead(Probed(w, kinds[..i]), kinds[i]).w
  {
    assert kinds[..i + 1][..i] == kinds[..i];
  }
}
