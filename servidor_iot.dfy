/** The device server (servidor_iot.py): one connection is handled by
    reading a newline-terminated header, routing it, updating the device
    registry or the latest sensor readings, or receiving a file and checking
    its digest. The socket is a `Connection` whose peer sends a fixed byte
    string, cut into chunks however the network pleases. */
module ServidorIot {
  import opened Text
  import opened Values

  newtype byte = x: int | 0 <= x < 256

  const NEWLINE: byte := 10
  /** The header buffer may grow to one byte past 64 KiB. */
  const HEADER_LIMIT := 64 * 1024
  const BUFFER_SIZE := 4096
  const DEFAULT_SERIAL := "DESCONOCIDO"
  const DEFAULT_DEVICE_TYPE := "UNKNOWN"
  /** The least magnitude an `int` cannot be converted to a `float` at:
      2^1024 - 2^970, the midpoint between the largest double and 2^1024. */
  const FLOAT_OVERFLOW := 179769313486231580793728971405303415079934132710037826936173778980444968292764750946649017977587207096330286416692887910946555547851940402630657488671505820681908902000708383676273854845817711531764475730270069855571366959622842914819860834936475292719074168444365510704342711559699508093042880177904174497792

  /** The response tokens the server writes. */
  datatype Token = Pong | ErrInvalidHeader | AckHello | AckData | ErrUnknownAction
                 | ErrIncompleteHeader | Ack | ErrChecksum | EofOk

  /** An `iot_devices` entry. */
  datatype DeviceRecord = DeviceRecord(ip: string, deviceType: Value, lastSeen: real)

  /** A `datos_sensores.json` entry. */
  datatype SensorReading = SensorReading(timestamp: string, payload: Value)

  /** The library routines and the outside world one call depends on. */
  datatype Env = Env(
    /** `bytes.decode(errors="replace")` */
    decodeText: seq<byte> -> string,
    /** `json.loads`; `None` where it raises */
    parseJson: string -> Option<Value>,
    /** `hashlib.sha256(...).hexdigest()` */
    sha256Hex: seq<byte> -> string,
    /** `os.path.join(DEST_DIR, filename)` */
    destPath: string -> string,
    /** whether `open(path, "wb")` succeeds */
    canOpen: string -> bool,
    /** whether reading the written file back succeeds */
    readBack: string -> bool,
    /** `time.time()` */
    clock: real,
    /** `_now_ts()` */
    clockIso: string,
    /** `float.__repr__`, which `json.dump` writes a float key with */
    floatRepr: real -> string)

  /** What the header asks for, as `handle_client` decides it. */
  datatype Request =
    | NoHeader
    | PingText
    | InvalidHeader
    | PingJson
    | Hello(serial: Value, deviceType: Value)
    | Data(serial: Value, payload: Value)
    | UnknownAction
    | IncompleteHeader
    /** `int(header["size"])` raises, or `size / 1e6` overflows */
    | BadSize
    /** `os.path.join` raises on a non-string filename */
    | BadFilename
    | SendFile(filename: string, size: int, checksum: Value)

  /** How many bytes the header loop consumes once `k` are in the buffer. */
  function HeaderEnd(rest: seq<byte>, k: nat): (e: nat)
    requires k <= |rest|
    ensures k <= e <= |rest|
    decreases |rest| - k
  {
    if (k > 0 && rest[k - 1] == NEWLINE) || k == |rest| || k > HEADER_LIMIT then k
    else HeaderEnd(rest, k + 1)
  }

  /** The header read from a peer that goes on to send `rest`. */
  function Header(rest: seq<byte>): seq<byte>
  {
    rest[..HeaderEnd(rest, 0)]
  }

  function Action(h: Value): Value
  {
    if h.Dict? then Get(h.fields, "action", Null) else Null
  }

  /** `header_text.strip().lower() == "ping"`, for the stripped text. */
  predicate IsPingText(text: string)
  {
    Lower(text) == "ping"
  }

  /** The routing of `handle_client`. */
  function Route(hdr: seq<byte>, env: Env): (r: Request)
    ensures r == NoHeader <==> hdr == []
  {
    if hdr == [] then NoHeader
    else
      var text := Strip(env.decodeText(hdr));
      if IsPingText(text) then PingText
      else match env.parseJson(text)
        case None => InvalidHeader
        case Some(h) => RouteJson(h)
  }

  /** The routing of a header that decoded as JSON. */
  function RouteJson(h: Value): (r: Request)
    ensures !r.NoHeader? && !r.PingText? && !r.InvalidHeader?
  {
    if Action(h) == Str("ping") then PingJson
    else if Action(h) == Str("hello") then
      Hello(Get(h.fields, "serial", Str(DEFAULT_SERIAL)), Get(h.fields, "device_type", Str(DEFAULT_DEVICE_TYPE)))
    else if Action(h) == Str("data") then
      Data(Get(h.fields, "serial", Str(DEFAULT_SERIAL)), Get(h.fields, "payload", Dict(map[])))
    else if Action(h) != Str("send_file") then UnknownAction
    else if !("filename" in h.fields && "size" in h.fields && "checksum" in h.fields) then IncompleteHeader
    else match IntOf(h.fields["size"])
      case None => BadSize
      case Some(n) =>
        if n <= -FLOAT_OVERFLOW || n >= FLOAT_OVERFLOW then BadSize
        else if h.fields["filename"].Str? then SendFile(h.fields["filename"].s, n, h.fields["checksum"])
        else BadFilename
  }

  /** The tokens sent for a request before any file body is read. */
  function Response(req: Request): (r: seq<Token>)
    ensures |r| <= 1
    ensures Ack in r <==> req.SendFile?
    ensures Pong in r <==> req.PingText? || req.PingJson?
  {
    match req
    case NoHeader => []
    case PingText => [Pong]
    case InvalidHeader => [ErrInvalidHeader]
    case PingJson => [Pong]
    case Hello(serial, _) => if Hashable(serial) then [AckHello] else []
    case Data(_, _) => [AckData]
    case UnknownAction => [ErrUnknownAction]
    case IncompleteHeader => [ErrIncompleteHeader]
    case BadSize => []
    case BadFilename => []
    case SendFile(_, _, _) => [Ack]
  }

  /** `iot_devices` after the request, keyed by Python's equality on
      serials; an unhashable serial raises before the assignment. */
  function RegistryAfter(reg: map<Value, DeviceRecord>, req: Request, ip: string, clock: real)
    : map<Value, DeviceRecord>
  {
    if req.Hello? && Hashable(req.serial) then reg[PyKey(req.serial) := DeviceRecord(ip, req.deviceType, clock)]
    else reg
  }

  /** The readings file after the request, by the key text `json.dump`
      writes: the file is reloaded on every call, so serials that write the
      same key share one entry. `save_sensor_data` swallows the error an
      unusable serial raises. */
  function SensorDataAfter(data: map<string, SensorReading>, req: Request, stamp: string,
                           floatRepr: real -> string): map<string, SensorReading>
  {
    if req.Data? && JsonKey(req.serial, floatRepr).Some?
    then data[JsonKey(req.serial, floatRepr).value := SensorReading(stamp, req.payload)]
    else data
  }

  /** The token that ends a transfer. */
  function Verdict(body: seq<byte>, checksum: Value, env: Env, path: string): (t: Token)
    ensures t == ErrChecksum || t == EofOk
    ensures t == ErrChecksum <==> env.readBack(path) && checksum != Str(env.sha256Hex(body))
  {
    if !env.readBack(path) then EofOk
    else if Str(env.sha256Hex(body)) != checksum then ErrChecksum
    else EofOk
  }

  /** The socket of one connection. */
  class Connection {
    /** Every byte the peer sends before closing its side. */
    const input: seq<byte>
    /** How many bytes the network hands over to the next `recv`, given the
        position and the buffer size; clamped to what `recv` may return. */
    const chunking: (nat, nat) -> nat
    var pos: nat
    var sent: seq<Token>
    var closed: bool

    ghost predicate Valid()
      reads this
    {
      pos <= |input|
    }

    constructor (input: seq<byte>, chunking: (nat, nat) -> nat)
      ensures Valid()
      ensures this.input == input && this.chunking == chunking
      ensures pos == 0 && sent == [] && !closed
    {
      this.input := input;
      this.chunking := chunking;
      pos := 0;
      sent := [];
      closed := false;
    }

    /** `recv(n)`: between one and `n` bytes while the peer has more, and
        nothing once it has closed. */
    method Recv(n: nat) returns (chunk: seq<byte>)
      requires Valid() && n >= 1
      modifies this
      ensures Valid() && old(pos) <= pos
      ensures chunk == input[old(pos)..pos]
      ensures old(pos) < |input| ==> 1 <= |chunk| <= n
      ensures sent == old(sent) && closed == old(closed)
    {
      var k := chunking(pos, n);
      if k < 1 {
        k := 1;
      }
      if k > n {
        k := n;
      }
      if k > |input| - pos {
        k := |input| - pos;
      }
      chunk := input[pos..pos + k];
      pos := pos + k;
    }

    /** `sendall` */
    method SendAll(t: Token)
      modifies this
      ensures sent == old(sent) + [t]
      ensures pos == old(pos) && closed == old(closed)
    {
      sent := sent + [t];
    }

    method Close()
      modifies this
      ensures closed
      ensures pos == old(pos) && sent == old(sent)
    {
      closed := true;
    }
  }

  /** The header loop: one byte at a time until a newline, the peer's close,
      or a buffer longer than 64 KiB. */
  method ReadHeader(conn: Connection) returns (hdr: seq<byte>)
    requires conn.Valid()
    modifies conn
    ensures conn.Valid()
    ensures hdr == Header(conn.input[old(conn.pos)..])
    ensures conn.pos == old(conn.pos) + |hdr|
    ensures conn.sent == old(conn.sent) && conn.closed == old(conn.closed)
  {
    ghost var rest := conn.input[conn.pos..];
    hdr := [];
    while !(|hdr| > 0 && hdr[|hdr| - 1] == NEWLINE)
      invariant conn.Valid()
      invariant conn.pos == old(conn.pos) + |hdr| && |hdr| <= |rest|
      invariant hdr == rest[..|hdr|]
      invariant |hdr| <= HEADER_LIMIT
      invariant HeaderEnd(rest, |hdr|) == HeaderEnd(rest, 0)
      invariant conn.sent == old(conn.sent) && conn.closed == old(conn.closed)
      decreases |conn.input| - conn.pos
    {
      var chunk := conn.Recv(1);
      if chunk == [] {
        break;
      }
      assert rest[..|hdr| + 1] == hdr + chunk;
      hdr := hdr + chunk;
      if |hdr| > HEADER_LIMIT {
        break;
      }
    }
  }

  class IotServer {
    var iotDevices: map<Value, DeviceRecord>
    /** `datos_sensores.json`, by key text. */
    var sensorData: map<string, SensorReading>
    /** The files under `DEST_DIR`, by path. */
    var files: map<string, seq<byte>>

    constructor ()
      ensures iotDevices == map[] && sensorData == map[] && files == map[]
    {
      iotDevices := map[];
      sensorData := map[];
      files := map[];
    }

    /** `save_sensor_data`: keeps the latest reading per key text. */
    method SaveSensorData(serial: Value, payload: Value, stamp: string, floatRepr: real -> string)
      modifies this
      ensures sensorData == SensorDataAfter(old(sensorData), Data(serial, payload), stamp, floatRepr)
      ensures iotDevices == old(iotDevices) && files == old(files)
    {
      var key := JsonKey(serial, floatRepr);
      if key.Some? {
        var data := sensorData;
        data := data[key.value := SensorReading(stamp, payload)];
        sensorData := data;
      }
    }

    /** The transfer loop: read chunks of up to `BUFFER_SIZE` bytes, writing
        each, until `size` bytes have arrived or the peer closes. The last
        chunk may carry the total past `size`. */
    method ReceiveBody(conn: Connection, path: string, size: int) returns (body: seq<byte>)
      requires conn.Valid()
      modifies this, conn
      ensures conn.Valid() && old(conn.pos) <= conn.pos
      ensures body == conn.input[old(conn.pos)..conn.pos]
      ensures |body| >= size || conn.pos == |conn.input|
      ensures size <= 0 ==> body == []
      ensures body == [] || |body| < size + BUFFER_SIZE
      ensures files == old(files)[path := body]
      ensures iotDevices == old(iotDevices) && sensorData == old(sensorData)
      ensures conn.sent == old(conn.sent) && conn.closed == old(conn.closed)
    {
      files := files[path := []];
      body := [];
      var total := 0;
      while total < size
        invariant conn.Valid() && old(conn.pos) <= conn.pos
        invariant body == conn.input[old(conn.pos)..conn.pos]
        invariant total == |body|
        invariant size <= 0 ==> body == []
        invariant body == [] || total < size + BUFFER_SIZE
        invariant files == old(files)[path := body]
        invariant iotDevices == old(iotDevices) && sensorData == old(sensorData)
        invariant conn.sent == old(conn.sent) && conn.closed == old(conn.closed)
        decreases |conn.input| - conn.pos
      {
        var data := conn.Recv(BUFFER_SIZE);
        if data == [] {
          break;
        }
        files := files[path := files[path] + data];
        body := body + data;
        total := total + |data|;
      }
    }

    /** The send_file branch once the header is complete: ACK, the body, and
        the digest check. */
    method ReceiveFile(conn: Connection, env: Env, filename: string, size: int, checksum: Value)
      returns (body: seq<byte>)
      requires conn.Valid()
      modifies this, conn
      ensures conn.Valid() && old(conn.pos) <= conn.pos
      ensures body == conn.input[old(conn.pos)..conn.pos]
      ensures iotDevices == old(iotDevices) && sensorData == old(sensorData)
      ensures conn.closed == old(conn.closed)
      ensures !env.canOpen(env.destPath(filename)) ==>
        body == [] && files == old(files) && conn.sent == old(conn.sent) + [Ack]
      ensures env.canOpen(env.destPath(filename)) ==>
        && files == old(files)[env.destPath(filename) := body]
        && conn.sent == old(conn.sent) + [Ack, Verdict(body, checksum, env, env.destPath(filename))]
        && (|body| >= size || conn.pos == |conn.input|)
        && (body == [] || |body| < size + BUFFER_SIZE)
    {
      var path := env.destPath(filename);
      conn.SendAll(Ack);
      if !env.canOpen(path) {
        return [];
      }
      body := ReceiveBody(conn, path, size);
      if !env.readBack(path) {
        conn.SendAll(EofOk);
      } else {
        var actual := env.sha256Hex(files[path]);
        if Str(actual) != checksum {
          conn.SendAll(ErrChecksum);
        } else {
          conn.SendAll(EofOk);
        }
      }
    }

    /** The branches of `handle_client` that follow a successful JSON
        decode, up to the final close. */
    method HandleJson(conn: Connection, ip: string, env: Env, header: Value) returns (body: seq<byte>)
      requires conn.Valid()
      modifies this, conn
      ensures conn.Valid() && old(conn.pos) <= conn.pos
      ensures body == conn.input[old(conn.pos)..conn.pos]
      ensures iotDevices == RegistryAfter(old(iotDevices), RouteJson(header), ip, env.clock)
      ensures sensorData == SensorDataAfter(old(sensorData), RouteJson(header), env.clockIso, env.floatRepr)
      ensures conn.closed == old(conn.closed)
      ensures !RouteJson(header).SendFile? ==>
        body == [] && files == old(files) && conn.sent == old(conn.sent) + Response(RouteJson(header))
      ensures RouteJson(header).SendFile? ==>
        var req := RouteJson(header);
        var path := env.destPath(req.filename);
        if !env.canOpen(path) then body == [] && files == old(files) && conn.sent == old(conn.sent) + [Ack]
        else
          && files == old(files)[path := body]
          && conn.sent == old(conn.sent) + [Ack, Verdict(body, req.checksum, env, path)]
          && (|body| >= req.size || conn.pos == |conn.input|)
          && (body == [] || |body| < req.size + BUFFER_SIZE)
    {
      body := [];
      var action := if header.Dict? then Get(header.fields, "action", Null) else Null;
      if action == Str("ping") {
        conn.SendAll(Pong);
        return;
      }
      if action == Str("hello") {
        var serial := Get(header.fields, "serial", Str(DEFAULT_SERIAL));
        var deviceType := Get(header.fields, "device_type", Str(DEFAULT_DEVICE_TYPE));
        if Hashable(serial) {
          iotDevices := iotDevices[PyKey(serial) := DeviceRecord(ip, deviceType, env.clock)];
          conn.SendAll(AckHello);
        }
        return;
      }
      if action == Str("data") {
        var serial := Get(header.fields, "serial", Str(DEFAULT_SERIAL));
        var payload := Get(header.fields, "payload", Dict(map[]));
        SaveSensorData(serial, payload, env.clockIso, env.floatRepr);
        conn.SendAll(AckData);
        return;
      }
      if action != Str("send_file") {
        conn.SendAll(ErrUnknownAction);
        return;
      }
      if !("filename" in header.fields && "size" in header.fields && "checksum" in header.fields) {
        conn.SendAll(ErrIncompleteHeader);
        return;
      }
      var size := IntOf(header.fields["size"]);
      if size.None? {
        return;
      }
      if size.value <= -FLOAT_OVERFLOW || size.value >= FLOAT_OVERFLOW {
        return;
      }
      var filename := header.fields["filename"];
      var checksum := header.fields["checksum"];
      if !filename.Str? {
        return;
      }
      body := ReceiveFile(conn, env, filename.s, size.value, checksum);
    }

    /** `handle_client`: the whole exchange on one connection, which is
        closed on every path. */
    method HandleClient(conn: Connection, ip: string, env: Env)
      returns (ghost hdr: seq<byte>, ghost req: Request, body: seq<byte>)
      requires conn.Valid()
      modifies this, conn
      ensures conn.Valid() && conn.closed
      ensures hdr == Header(conn.input[old(conn.pos)..])
      ensures req == Route(hdr, env)
      ensures old(conn.pos) + |hdr| <= conn.pos
      ensures body == conn.input[old(conn.pos) + |hdr|..conn.pos]
      ensures iotDevices == RegistryAfter(old(iotDevices), req, ip, env.clock)
      ensures sensorData == SensorDataAfter(old(sensorData), req, env.clockIso, env.floatRepr)
      ensures !req.SendFile? ==>
        body == [] && files == old(files) && conn.sent == old(conn.sent) + Response(req)
      ensures req.SendFile? ==>
        var path := env.destPath(req.filename);
        if !env.canOpen(path) then body == [] && files == old(files) && conn.sent == old(conn.sent) + [Ack]
        else
          && files == old(files)[path := body]
          && conn.sent == old(conn.sent) + [Ack, Verdict(body, req.checksum, env, path)]
          && (|body| >= req.size || conn.pos == |conn.input|)
          && (body == [] || |body| < req.size + BUFFER_SIZE)
    {
      body := [];
      var headerData := ReadHeader(conn);
      hdr := headerData;
      req := Route(hdr, env);
      if headerData == [] {
        conn.Close();
        return;
      }
      var text := Strip(env.decodeText(headerData));
      if IsPingText(text) {
        assert req == PingText;
        conn.SendAll(Pong);
        conn.Close();
        return;
      }
      var parsed := env.parseJson(text);
      if parsed.None? {
        assert req == InvalidHeader;
        conn.SendAll(ErrInvalidHeader);
        conn.Close();
        return;
      }
      assert req == RouteJson(parsed.value);
      body := HandleJson(conn, ip, env, parsed.value);
      conn.Close();
    }
  }

  // ---------------------------------------------------------------------------
  // Properties

  lemma {:induction false} HeaderEndShape(rest: seq<byte>, k: nat)
    requires k <= |rest| && k <= HEADER_LIMIT + 1
    requires forall i :: 0 <= i < k - 1 ==> rest[i] != NEWLINE
    ensures HeaderEnd(rest, k) <= HEADER_LIMIT + 1
    ensures forall i :: 0 <= i < HeaderEnd(rest, k) - 1 ==> rest[i] != NEWLINE
    ensures var e := HeaderEnd(rest, k);
      e == |rest| || e == HEADER_LIMIT + 1 || (e > 0 && rest[e - 1] == NEWLINE)
    decreases |rest| - k
  {
    if !((k > 0 && rest[k - 1] == NEWLINE) || k == |rest| || k > HEADER_LIMIT) {
      HeaderEndShape(rest, k + 1);
    }
  }

  /** The header is what the peer sent up to and including its first
      newline, cut short by the peer's close or by the 65 537-byte cap. */
  lemma HeaderShape(rest: seq<byte>)
    ensures var h := Header(rest);
      && |h| <= HEADER_LIMIT + 1
      && h == rest[..|h|]
      && (forall i :: 0 <= i < |h| - 1 ==> h[i] != NEWLINE)
      && (|h| == |rest| || |h| == HEADER_LIMIT + 1 || (|h| > 0 && h[|h| - 1] == NEWLINE))
  {
    HeaderEndShape(rest, 0);
  }

  /** A plain-text ping is answered without looking at the JSON decoder. */
  lemma PingTextSkipsJson(hdr: seq<byte>, env: Env, otherParser: string -> Option<Value>)
    requires hdr != [] && Lower(Strip(env.decodeText(hdr))) == "ping"
    ensures Route(hdr, env) == PingText
    ensures Route(hdr, env.(parseJson := otherParser)) == PingText
    ensures Response(Route(hdr, env)) == [Pong]
  {
  }

  /** A header that is not JSON gets ERR_INVALID_HEADER and nothing else. */
  lemma InvalidJsonIsRejected(hdr: seq<byte>, env: Env)
    requires hdr != [] && Lower(Strip(env.decodeText(hdr))) != "ping"
    requires env.parseJson(Strip(env.decodeText(hdr))).None?
    ensures Response(Route(hdr, env)) == [ErrInvalidHeader]
  {
  }

  /** There is no send_file without an action: a header that carries the
      file keys but no action is an unknown action. */
  lemma NoActionlessSendFile(fields: map<string, Value>)
    requires "action" !in fields
    ensures RouteJson(Dict(fields)) == UnknownAction
  {
    assert Action(Dict(fields)) == Null;
  }

  /** Which requests produce which error token, in both directions. */
  lemma ErrorTokens(req: Request)
    ensures ErrUnknownAction in Response(req) <==> req == UnknownAction
    ensures ErrIncompleteHeader in Response(req) <==> req == IncompleteHeader
    ensures Response(req) == [] <==>
      req == NoHeader || req == BadSize || req == BadFilename || (req.Hello? && !Hashable(req.serial))
  {
  }

  /** A hello overwrites the one entry for its serial and leaves the
      others; serials that Python deems equal share that entry. */
  lemma HelloUpserts(reg: map<Value, DeviceRecord>, s1: Value, s2: Value, t1: Value, t2: Value,
                     ip1: string, ip2: string, c1: real, c2: real)
    requires Hashable(s1) && PyKey(s1) == PyKey(s2)
    ensures var once := RegistryAfter(reg, Hello(s1, t1), ip1, c1);
      && RegistryAfter(once, Hello(s2, t2), ip2, c2) == RegistryAfter(reg, Hello(s2, t2), ip2, c2)
      && once.Keys == reg.Keys + {PyKey(s1)}
      && (forall s :: s in reg && s != PyKey(s1) ==> once[s] == reg[s])
  {
  }

  /** `1`, `1.0` and `true` are one serial to the registry. */
  lemma OneSerialForOneTrue()
    ensures PyKey(Int(1)) == PyKey(Float(1.0)) == PyKey(Bool(true))
  {
  }

  /** The last reading written under a key wins; other keys keep theirs. */
  lemma LastReadingWins(data: map<string, SensorReading>, s1: Value, s2: Value, p1: Value, p2: Value,
                        stamp1: string, stamp2: string, floatRepr: real -> string)
    requires JsonKey(s1, floatRepr) == JsonKey(s2, floatRepr)
    ensures var once := SensorDataAfter(data, Data(s1, p1), stamp1, floatRepr);
      && SensorDataAfter(once, Data(s2, p2), stamp2, floatRepr) == SensorDataAfter(data, Data(s2, p2), stamp2, floatRepr)
      && (forall k :: k in data && Some(k) != JsonKey(s1, floatRepr) ==> k in once && once[k] == data[k])
  {
  }

  /** Serials `5` and `"5"` write the same key, so the later reading
      replaces the earlier one. */
  lemma IntAndTextSerialsMerge(floatRepr: real -> string)
    ensures JsonKey(Int(5), floatRepr) == JsonKey(Str("5"), floatRepr) == Some("5")
  {
    assert DecimalString(5) == "5";
  }

  /** The reply to each JSON action that needs no further checks. */
  lemma ActionReplies(h: Value)
    ensures Action(h) == Str("ping") ==> Response(RouteJson(h)) == [Pong]
    ensures Action(h) == Str("hello") ==>
      Response(RouteJson(h)) == if Hashable(Get(h.fields, "serial", Str(DEFAULT_SERIAL))) then [AckHello] else []
    ensures Action(h) == Str("data") ==> Response(RouteJson(h)) == [AckData]
    ensures (Action(h) != Str("ping") && Action(h) != Str("hello") && Action(h) != Str("data")
             && Action(h) != Str("send_file")) ==> Response(RouteJson(h)) == [ErrUnknownAction]
  {
  }

  /** A size whose magnitude reaches 2^1024 - 2^970 cannot be printed in
      megabytes, so the transfer never starts. */
  lemma HugeSizeIsRejected(h: Value)
    requires Action(h) == Str("send_file")
    requires "filename" in h.fields && "size" in h.fields && "checksum" in h.fields
    requires h.fields["size"] == Int(FLOAT_OVERFLOW)
    ensures RouteJson(h) == BadSize && Response(RouteJson(h)) == []
  {
  }
}
