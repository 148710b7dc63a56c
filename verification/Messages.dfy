/**
 Typed messages as JSON values inside frames. The text syntax of JSON is not modelled: a codec is any
 pair of functions between JSON values and bytes that decodes what it encoded.
 */
module Messages {
  import opened Wrappers
  import opened Protocol
  import opened Framing

  datatype Json =
    | Null
    | Bool(b: bool)
    | Num(n: int)
    | Str(s: string)
    | Arr(elems: seq<Json>)
    | Obj(fields: map<string, Json>)

  datatype Codec = Codec(encode: Json -> seq<byte>, decode: seq<byte> -> Option<Json>) {
    ghost predicate Lawful() {
      forall j :: decode(encode(j)) == Some(j)
    }
  }

  datatype DecodeError = ReadFailed(e: ReadError) | BadJson | UnknownKind

  // ---------- Encoding ----------

  // A field tagged omitempty is left out when it has its zero value.
  function Unless(omit: bool, key: string, value: Json): map<string, Json> {
    if omit then map[] else map[key := value]
  }

  function StrsJson(strs: seq<string>): (r: seq<Json>)
    ensures |r| == |strs|
  {
    if strs == [] then [] else [Str(strs[0])] + StrsJson(strs[1..])
  }

  function InfoJson(t: TunnelInfo): Json {
    Obj(map["type" := Str(t.typ), "subdomain" := Str(t.subdomain), "publicURL" := Str(t.publicUrl),
            "port" := Num(t.port), "localPort" := Num(t.localPort)])
  }

  function InfosJson(ts: seq<TunnelInfo>): seq<Json> {
    if ts == [] then [] else [InfoJson(ts[0])] + InfosJson(ts[1..])
  }

  function RegisterJson(q: RegisterRequest): Json {
    Obj(map["type" := Str(q.typ), "localPort" := Num(q.localPort), "private" := Bool(q.private)]
        + Unless(q.domain == "", "domain", Str(q.domain))
        + Unless(q.remotePort == 0, "remotePort", Num(q.remotePort))
        + Unless(q.password == "", "password", Str(q.password))
        + Unless(q.allowIPs == [], "allowIPs", Arr(StrsJson(q.allowIPs))))
  }

  function PayloadJson(m: Message): Json {
    match m
    case Auth(token) => Obj(map["token" := Str(token)])
    case Register(q) => RegisterJson(q)
    case Registered(url, host, port, generated) =>
      Obj(map["publicURL" := Str(url), "host" := Str(host), "port" := Num(port)]
          + Unless(generated == "", "generatedPassword", Str(generated)))
    case Error(text) => Obj(map["message" := Str(text)])
    case Claim(name) => Obj(map["name" := Str(name)])
    case Unclaim(name) => Obj(map["name" := Str(name)])
    case TunnelList(ts) => Obj(map["tunnels" := Arr(InfosJson(ts))])
    case _ => Obj(map[])
  }

  function Kind(m: Message): string {
    match m
    case Auth(_) => "auth"
    case AuthOK => "authok"
    case Register(_) => "register"
    case Registered(_, _, _, _) => "registered"
    case Error(_) => "error"
    case Claim(_) => "claim"
    case Unclaim(_) => "unclaim"
    case OK => "ok"
    case ListTunnels => "list"
    case TunnelList(_) => "tunnellist"
  }

  function WrapJson(kind: string, payload: Json): Json {
    Obj(map["kind" := Str(kind), "payload" := payload])
  }

  function EnvelopeJson(m: Message): Json {
    WrapJson(Kind(m), PayloadJson(m))
  }

  function HeaderJson(h: StreamHeader): Json {
    Obj(map["tunnelId" := Str(h.tunnelId), "localPort" := Num(h.localPort)])
  }

  // ---------- Decoding ----------

  // A missing or null field keeps its zero value; a field of another JSON type is an error.
  function GetStr(f: map<string, Json>, key: string): Option<string> {
    if key !in f || f[key].Null? then Some("") else if f[key].Str? then Some(f[key].s) else None
  }

  function GetInt(f: map<string, Json>, key: string): Option<int> {
    if key !in f || f[key].Null? then Some(0) else if f[key].Num? then Some(f[key].n) else None
  }

  function GetBool(f: map<string, Json>, key: string): Option<bool> {
    if key !in f || f[key].Null? then Some(false) else if f[key].Bool? then Some(f[key].b) else None
  }

  function GetArr(f: map<string, Json>, key: string): Option<seq<Json>> {
    if key !in f || f[key].Null? then Some([]) else if f[key].Arr? then Some(f[key].elems) else None
  }

  // Null decodes into a struct as no fields at all.
  function Fields(j: Json): Option<map<string, Json>> {
    match j
    case Obj(f) => Some(f)
    case Null => Some(map[])
    case _ => None
  }

  function DecodeStrs(elems: seq<Json>): Option<seq<string>> {
    if elems == [] then Some([])
    else
      match (elems[0], DecodeStrs(elems[1..]))
      case (Str(s), Some(more)) => Some([s] + more)
      case (Null, Some(more)) => Some([""] + more)
      case _ => None
  }

  function DecodeInfo(j: Json): Option<TunnelInfo> {
    match Fields(j)
    case None => None
    case Some(f) =>
      match (GetStr(f, "type"), GetStr(f, "subdomain"), GetStr(f, "publicURL"), GetInt(f, "port"), GetInt(f, "localPort"))
      case (Some(typ), Some(sub), Some(url), Some(port), Some(local)) => Some(TunnelInfo(typ, sub, url, port, local))
      case _ => None
  }

  function DecodeInfos(elems: seq<Json>): Option<seq<TunnelInfo>> {
    if elems == [] then Some([])
    else
      match (DecodeInfo(elems[0]), DecodeInfos(elems[1..]))
      case (Some(t), Some(more)) => Some([t] + more)
      case _ => None
  }

  function DecodeRegister(f: map<string, Json>): Option<RegisterRequest> {
    match (GetStr(f, "type"), GetStr(f, "domain"), GetInt(f, "localPort"), GetInt(f, "remotePort"), GetBool(f, "private"),
           GetStr(f, "password"), GetArr(f, "allowIPs"))
    case (Some(typ), Some(domain), Some(local), Some(remote), Some(private), Some(password), Some(elems)) =>
      (match DecodeStrs(elems)
       case Some(ips) => Some(RegisterRequest(typ, domain, local, remote, private, password, ips))
       case None => None)
    case _ => None
  }

  function DecodeRegistered(f: map<string, Json>): Option<Message> {
    match (GetStr(f, "publicURL"), GetStr(f, "host"), GetInt(f, "port"), GetStr(f, "generatedPassword"))
    case (Some(url), Some(host), Some(port), Some(generated)) => Some(Registered(url, host, port, generated))
    case _ => None
  }

  function Map<A, B>(o: Option<A>, f: A -> B): Option<B> {
    match o
    case Some(a) => Some(f(a))
    case None => None
  }

  predicate KnownKind(kind: string) {
    || kind == "auth" || kind == "authok" || kind == "register" || kind == "registered" || kind == "error"
    || kind == "claim" || kind == "unclaim" || kind == "ok" || kind == "list" || kind == "tunnellist"
  }

  function DecodePayload(kind: string, f: map<string, Json>): Option<Message> {
    if kind == "auth" then Map(GetStr(f, "token"), s => Auth(s))
    else if kind == "authok" then Some(AuthOK)
    else if kind == "register" then Map(DecodeRegister(f), q => Register(q))
    else if kind == "registered" then DecodeRegistered(f)
    else if kind == "error" then Map(GetStr(f, "message"), s => Error(s))
    else if kind == "claim" then Map(GetStr(f, "name"), s => Claim(s))
    else if kind == "unclaim" then Map(GetStr(f, "name"), s => Unclaim(s))
    else if kind == "ok" then Some(OK)
    else if kind == "list" then Some(ListTunnels)
    else
      match GetArr(f, "tunnels")
      case Some(elems) => Map(DecodeInfos(elems), ts => TunnelList(ts))
      case None => None
  }

  // The kind is checked before the payload is looked at; an absent payload is no JSON at all.
  function DecodeEnvelope(j: Json): Result<Message, DecodeError> {
    match Fields(j)
    case None => Err(BadJson)
    case Some(env) =>
      match GetStr(env, "kind")
      case None => Err(BadJson)
      case Some(kind) =>
        if !KnownKind(kind) then Err(UnknownKind)
        else if "payload" !in env then Err(BadJson)
        else
          match Fields(env["payload"])
          case None => Err(BadJson)
          case Some(f) =>
            match DecodePayload(kind, f)
            case Some(m) => Ok(m)
            case None => Err(BadJson)
  }

  function DecodeHeader(j: Json): Option<StreamHeader> {
    match Fields(j)
    case None => None
    case Some(f) =>
      match (GetStr(f, "tunnelId"), GetInt(f, "localPort"))
      case (Some(id), Some(port)) => Some(StreamHeader(id, port))
      case _ => None
  }

  // ---------- What is on the wire ----------

  // The names on the wire, and which optional fields are left out.
  lemma RegisterWire(q: RegisterRequest)
    ensures var f := RegisterJson(q).fields;
            f.Keys == {"type", "localPort", "private"}
              + (if q.domain != "" then {"domain"} else {}) + (if q.remotePort != 0 then {"remotePort"} else {})
              + (if q.password != "" then {"password"} else {}) + (if q.allowIPs != [] then {"allowIPs"} else {})
  {
  }

  lemma InfoWire(t: TunnelInfo)
    ensures InfoJson(t) == Obj(map["type" := Str(t.typ), "subdomain" := Str(t.subdomain), "publicURL" := Str(t.publicUrl),
                                   "port" := Num(t.port), "localPort" := Num(t.localPort)])
  {
  }

  lemma RegisteredWire(url: string, host: string, port: int, generated: string)
    ensures var f := PayloadJson(Registered(url, host, port, generated)).fields;
            && f.Keys == {"publicURL", "host", "port"} + (if generated != "" then {"generatedPassword"} else {})
            && f["publicURL"] == Str(url) && f["host"] == Str(host) && f["port"] == Num(port)
            && (generated != "" ==> f["generatedPassword"] == Str(generated))
  {
  }

  function Wire(kind: string, key: string, text: string): Json {
    Obj(map["kind" := Str(kind), "payload" := Obj(map[key := Str(text)])])
  }

  lemma TextMessagesOnTheWire(text: string)
    ensures EnvelopeJson(Auth(text)) == Wire("auth", "token", text)
    ensures EnvelopeJson(Error(text)) == Wire("error", "message", text)
    ensures EnvelopeJson(Claim(text)) == Wire("claim", "name", text)
    ensures EnvelopeJson(Unclaim(text)) == Wire("unclaim", "name", text)
  {
  }

  lemma KindsOnTheWire(m: Message)
    ensures m.Register? ==> Kind(m) == "register"
    ensures m.Registered? ==> Kind(m) == "registered"
    ensures m.TunnelList? ==> Kind(m) == "tunnellist"
    ensures m == AuthOK ==> EnvelopeJson(m) == WrapJson("authok", Obj(map[]))
    ensures m == OK ==> EnvelopeJson(m) == WrapJson("ok", Obj(map[]))
    ensures m == ListTunnels ==> EnvelopeJson(m) == WrapJson("list", Obj(map[]))
  {
  }

  // A null field counts as one that is missing, in every kind of message.
  function WithoutNulls(f: map<string, Json>): map<string, Json> {
    map k | k in f && !f[k].Null? :: f[k]
  }

  lemma NullFieldsCountAsMissing(kind: string, f: map<string, Json>)
    ensures DecodePayload(kind, f) == DecodePayload(kind, WithoutNulls(f))
  {
    var g := WithoutNulls(f);
    assert forall key :: GetStr(f, key) == GetStr(g, key);
    assert forall key :: GetInt(f, key) == GetInt(g, key);
    assert forall key :: GetBool(f, key) == GetBool(g, key);
    assert forall key :: GetArr(f, key) == GetArr(g, key);
  }

  function Field(f: map<string, Json>, key: string): Json {
    if key in f then f[key] else Null
  }

  predicate StrOrNull(j: Json) { j.Str? || j.Null? }

  lemma {:induction false} StrsDecodeIff(elems: seq<Json>)
    ensures DecodeStrs(elems).Some? <==> forall i :: 0 <= i < |elems| ==> StrOrNull(elems[i])
  {
    if elems != [] {
      StrsDecodeIff(elems[1..]);
      assert forall i :: 1 <= i < |elems| ==> elems[i] == elems[1..][i - 1];
    }
  }

  // A registration decodes exactly when each of its fields, where there is one, is of its JSON type.
  lemma RegisterDecodesIff(f: map<string, Json>)
    ensures DecodeRegister(f).Some? <==>
              && StrOrNull(Field(f, "type")) && StrOrNull(Field(f, "domain")) && StrOrNull(Field(f, "password"))
              && (Field(f, "localPort").Num? || Field(f, "localPort").Null?)
              && (Field(f, "remotePort").Num? || Field(f, "remotePort").Null?)
              && (Field(f, "private").Bool? || Field(f, "private").Null?)
              && var ips := Field(f, "allowIPs");
                 ips.Null? || (ips.Arr? && forall i :: 0 <= i < |ips.elems| ==> StrOrNull(ips.elems[i]))
  {
    if GetArr(f, "allowIPs").Some? {
      StrsDecodeIff(GetArr(f, "allowIPs").value);
    }
  }

  // ---------- Values round trip ----------

  lemma {:induction false} StrsRoundTrip(strs: seq<string>)
    ensures DecodeStrs(StrsJson(strs)) == Some(strs)
  {
    if strs != [] {
      StrsRoundTrip(strs[1..]);
      assert strs == [strs[0]] + strs[1..];
    }
  }

  lemma InfoRoundTrip(t: TunnelInfo)
    ensures DecodeInfo(InfoJson(t)) == Some(t)
  {
  }

  lemma {:induction false} InfosRoundTrip(ts: seq<TunnelInfo>)
    ensures DecodeInfos(InfosJson(ts)) == Some(ts)
  {
    if ts != [] {
      InfoRoundTrip(ts[0]);
      InfosRoundTrip(ts[1..]);
      assert ts == [ts[0]] + ts[1..];
    }
  }

  lemma RegisterNames(q: RegisterRequest)
    ensures var f := RegisterJson(q).fields;
            GetStr(f, "type") == Some(q.typ) && GetStr(f, "domain") == Some(q.domain)
  {
  }

  lemma RegisterPassword(q: RegisterRequest)
    ensures GetStr(RegisterJson(q).fields, "password") == Some(q.password)
  {
  }

  lemma RegisterPorts(q: RegisterRequest)
    ensures var f := RegisterJson(q).fields;
            GetInt(f, "localPort") == Some(q.localPort) && GetInt(f, "remotePort") == Some(q.remotePort)
  {
  }

  lemma RegisterPrivacy(q: RegisterRequest)
    ensures var f := RegisterJson(q).fields;
            GetBool(f, "private") == Some(q.private) && GetArr(f, "allowIPs") == Some(StrsJson(q.allowIPs))
  {
  }

  lemma RegisterRoundTrip(q: RegisterRequest)
    ensures DecodeRegister(RegisterJson(q).fields) == Some(q)
  {
    RegisterNames(q);
    RegisterPassword(q);
    RegisterPorts(q);
    RegisterPrivacy(q);
    StrsRoundTrip(q.allowIPs);
  }

  lemma PayloadRoundTrip(m: Message)
    ensures PayloadJson(m).Obj? && DecodePayload(Kind(m), PayloadJson(m).fields) == Some(m)
  {
    match m
    case Register(q) => RegisterRoundTrip(q);
    case TunnelList(ts) => InfosRoundTrip(ts);
    case _ =>
  }

  lemma KindsAreKnown(m: Message)
    ensures KnownKind(Kind(m))
  {
  }

  // The envelope hands its payload to the decoder of its kind, and says so when there is none.
  lemma EnvelopeUnwraps(kind: string, f: map<string, Json>)
    ensures DecodeEnvelope(WrapJson(kind, Obj(f))) ==
            if !KnownKind(kind) then Err(UnknownKind)
            else match DecodePayload(kind, f)
                 case Some(m) => Ok(m)
                 case None => Err(BadJson)
  {
    var env: map<string, Json> := map["kind" := Str(kind), "payload" := Obj(f)];
    assert GetStr(env, "kind") == Some(kind) && env["payload"] == Obj(f);
  }

  // Every message of the ten kinds comes back as the same message.
  lemma EnvelopeRoundTrip(m: Message)
    ensures DecodeEnvelope(EnvelopeJson(m)) == Ok(m)
  {
    PayloadRoundTrip(m);
    KindsAreKnown(m);
    EnvelopeUnwraps(Kind(m), PayloadJson(m).fields);
  }

  // ---------- Messages on a stream ----------

  function MessageFrame(c: Codec, m: Message): seq<byte> {
    c.encode(EnvelopeJson(m))
  }

  function DecodeFrame(c: Codec, frame: seq<byte>): Result<Message, DecodeError> {
    match c.decode(frame)
    case Some(j) => DecodeEnvelope(j)
    case None => Err(BadJson)
  }

  function MessageDecoder(c: Codec): seq<byte> -> Result<Message, DecodeError> {
    frame => DecodeFrame(c, frame)
  }

  function FramesOf(c: Codec, ms: seq<Message>): (r: seq<seq<byte>>)
    ensures |r| == |ms|
    ensures forall i :: 0 <= i < |ms| ==> r[i] == MessageFrame(c, ms[i])
  {
    if ms == [] then [] else [MessageFrame(c, ms[0])] + FramesOf(c, ms[1..])
  }

  method WriteMessage(c: Codec, w: Writer, m: Message) returns (ok: bool)
    modifies w
    ensures var f := Frame(MessageFrame(c, m));
            && w.written == old(w.written) + f[..Min(|f|, old(w.capacity))]
            && w.capacity == old(w.capacity) - Min(|f|, old(w.capacity))
            && (ok <==> |f| <= old(w.capacity))
  {
    ok := w.WriteFrame(MessageFrame(c, m));
  }

  // Reads one frame and decodes it. Whatever is wrong inside the frame, an unknown kind included,
  // exactly that frame is consumed.
  method ReadMessage(c: Codec, r: Reader) returns (m: Result<Message, DecodeError>)
    requires r.Valid()
    modifies r
    ensures r.Valid()
    ensures match ParseFrame(old(r.Unread()))
            case Ok(p) => m == DecodeFrame(c, p.payload) && r.Unread() == p.rest
            case Err(e) => m == Err(ReadFailed(e)) && r.Unread() == []
  {
    var frame := r.ReadFrame();
    match frame
    case Err(e) => m := Err(ReadFailed(e));
    case Ok(b) =>
      var j := c.decode(b);
      if j.None? {
        return Err(BadJson);
      }
      m := DecodeEnvelope(j.value);
  }

  // Reading n frames one after the other and decoding each, up to the first error.
  function ParseWith<T>(decode: seq<byte> -> Result<T, DecodeError>, input: seq<byte>, n: nat)
    : Result<(seq<T>, seq<byte>), DecodeError>
  {
    if n == 0 then Ok(([], input))
    else
      match ParseFrame(input)
      case Err(e) => Err(ReadFailed(e))
      case Ok(p) =>
        match decode(p.payload)
        case Err(e) => Err(e)
        case Ok(t) =>
          match ParseWith(decode, p.rest, n - 1)
          case Err(e) => Err(e)
          case Ok((more, rest)) => Ok(([t] + more, rest))
  }

  lemma {:induction false} ParseWithRoundTrip<T>(
    decode: seq<byte> -> Result<T, DecodeError>, frames: seq<seq<byte>>, ts: seq<T>, rest: seq<byte>)
    requires AllFit(frames) && |ts| == |frames|
    requires forall i :: 0 <= i < |ts| ==> decode(frames[i]) == Ok(ts[i])
    ensures ParseWith(decode, Frames(frames) + rest, |ts|) == Ok((ts, rest))
    decreases |ts|
  {
    if ts == [] {
      assert Frames(frames) + rest == rest;
    } else {
      var others := Frames(frames[1..]) + rest;
      assert Frames(frames) + rest == Frame(frames[0]) + others;
      assert |frames[0]| < MAX_FRAME;
      FrameRoundTripIff(frames[0], others);
      ParseWithRoundTrip(decode, frames[1..], ts[1..], rest);
      assert [ts[0]] + ts[1..] == ts;
    }
  }

  lemma OneMessageRoundTrip(c: Codec, m: Message)
    requires c.Lawful()
    ensures DecodeFrame(c, MessageFrame(c, m)) == Ok(m)
  {
    EnvelopeRoundTrip(m);
  }

  // A list of messages written one after the other is read back as the same list, and what follows
  // it is left unread.
  lemma MessagesRoundTrip(c: Codec, ms: seq<Message>, rest: seq<byte>)
    requires c.Lawful() && AllFit(FramesOf(c, ms))
    ensures ParseWith(MessageDecoder(c), Frames(FramesOf(c, ms)) + rest, |ms|) == Ok((ms, rest))
  {
    var decode := MessageDecoder(c);
    forall i | 0 <= i < |ms| ensures decode(FramesOf(c, ms)[i]) == Ok(ms[i]) {
      OneMessageRoundTrip(c, ms[i]);
    }
    ParseWithRoundTrip(decode, FramesOf(c, ms), ms, rest);
  }

  // n messages one after the other, whatever the chunks; the first error of any kind ends it.
  method ReadMessages(c: Codec, r: Reader, n: nat) returns (ms: Result<seq<Message>, DecodeError>)
    requires r.Valid()
    modifies r
    ensures r.Valid()
    ensures match ParseWith(MessageDecoder(c), old(r.Unread()), n)
            case Ok((all, rest)) => ms == Ok(all) && r.Unread() == rest
            case Err(e) => ms == Err(e)
  {
    if n == 0 {
      return Ok([]);
    }
    var first := ReadMessage(c, r);
    if first.Err? {
      return Err(first.error);
    }
    var more := ReadMessages(c, r, n - 1);
    match more
    case Err(e) => ms := Err(e);
    case Ok(others) => ms := Ok([first.value] + others);
  }

  // However the bytes are cut into chunks, the messages written arrive as they were, and nothing
  // after them is touched.
  method ReceiveMessages(c: Codec, r: Reader, ghost sent: seq<Message>, ghost rest: seq<byte>, n: nat)
    returns (ms: Result<seq<Message>, DecodeError>)
    requires c.Lawful() && AllFit(FramesOf(c, sent)) && n == |sent|
    requires r.Valid() && r.Unread() == Frames(FramesOf(c, sent)) + rest
    modifies r
    ensures r.Valid() && ms == Ok(sent) && r.Unread() == rest
  {
    MessagesRoundTrip(c, sent, rest);
    ms := ReadMessages(c, r, n);
  }

  // ---------- Stream headers ----------

  method WriteStreamHeader(c: Codec, w: Writer, h: StreamHeader) returns (ok: bool)
    modifies w
    ensures var f := Frame(c.encode(HeaderJson(h)));
            w.written == old(w.written) + f[..Min(|f|, old(w.capacity))] && (ok <==> |f| <= old(w.capacity))
  {
    ok := w.WriteFrame(c.encode(HeaderJson(h)));
  }

  function DecodeHeaderFrame(c: Codec, frame: seq<byte>): Result<StreamHeader, DecodeError> {
    match c.decode(frame)
    case None => Err(BadJson)
    case Some(j) =>
      match DecodeHeader(j)
      case Some(h) => Ok(h)
      case None => Err(BadJson)
  }

  method ReadStreamHeader(c: Codec, r: Reader) returns (h: Result<StreamHeader, DecodeError>)
    requires r.Valid()
    modifies r
    ensures r.Valid()
    ensures match ParseFrame(old(r.Unread()))
            case Ok(p) => h == DecodeHeaderFrame(c, p.payload) && r.Unread() == p.rest
            case Err(e) => h == Err(ReadFailed(e)) && r.Unread() == []
  {
    var frame := r.ReadFrame();
    match frame
    case Err(e) => h := Err(ReadFailed(e));
    case Ok(b) => h := DecodeHeaderFrame(c, b);
  }

  lemma HeaderRoundTrip(h: StreamHeader)
    ensures DecodeHeader(HeaderJson(h)) == Some(h)
  {
  }

  // The boundary between header and payload: the client recovers the very header the server wrote,
  // and the next byte it reads is the first raw byte, however the bytes were chunked.
  method ReceiveDataStream(c: Codec, r: Reader, ghost h: StreamHeader, ghost raw: seq<byte>)
    returns (got: Result<StreamHeader, DecodeError>)
    requires c.Lawful() && r.Valid() && |c.encode(HeaderJson(h))| < MAX_FRAME
    requires r.Unread() == Frame(c.encode(HeaderJson(h))) + raw
    modifies r
    ensures got == Ok(h) && r.Valid() && r.Unread() == raw
  {
    FrameRoundTripIff(c.encode(HeaderJson(h)), raw);
    HeaderRoundTrip(h);
    got := ReadStreamHeader(c, r);
  }
}
