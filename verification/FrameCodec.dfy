/** The JSON text frames of the message transport: what may be sent and what is accepted. */
module FrameCodec {
  import opened Basics

  const PROTOCOL_MAJOR: real := 1.0

  datatype WireError = WireError(code: string, message: string, data: Payload)

  datatype Frame =
    | Hello(meta: Payload)
    | HelloOk
    | HelloError(error: WireError)
    | Call(id: string, path: seq<string>, input: Payload, stream: bool)
    | ResultOk(id: string, output: Payload)
    | ResultErr(id: string, error: WireError)
    | Cancel(id: string)
    | Item(id: string, output: Payload)
    | Done(id: string)
    | InItem(id: string, input: Payload)
    | InDone(id: string)

  datatype Kind = KHello | KHelloOk | KHelloError | KCall | KResult | KCancel | KItem | KDone | KInItem | KInDone

  datatype Reason =
    | NotAnObject
    | UnknownType
    | UnexpectedKey
    | InvalidVersion
    | InvalidError
    | InvalidId
    | InvalidPath
    | InvalidStream
    | StreamWithInput
    | InvalidOk
    | ErrorNotAllowed
    | OutputNotAllowed

  datatype DecodeResult = Accepted(frame: Frame) | Rejected(id: Option<string>, reason: Reason)

  /** A frame of the handshake; every other frame bears an id. */
  predicate IsHello(frame: Frame) {
    frame.Hello? || frame.HelloOk? || frame.HelloError?
  }

  predicate Bears(frame: Frame, id: string) {
    !IsHello(frame) && frame.id == id
  }

  // ---- Encoding ----

  function Name(kind: Kind): string {
    match kind
    case KHello => "hello"
    case KHelloOk => "hello-ok"
    case KHelloError => "hello-error"
    case KCall => "call"
    case KResult => "result"
    case KCancel => "cancel"
    case KItem => "item"
    case KDone => "done"
    case KInItem => "in-item"
    case KInDone => "in-done"
  }

  function KindOf(frame: Frame): Kind {
    match frame
    case Hello(_) => KHello
    case HelloOk => KHelloOk
    case HelloError(_) => KHelloError
    case Call(_, _, _, _) => KCall
    case ResultOk(_, _) => KResult
    case ResultErr(_, _) => KResult
    case Cancel(_) => KCancel
    case Item(_, _) => KItem
    case Done(_) => KDone
    case InItem(_, _) => KInItem
    case InDone(_) => KInDone
  }

  function Optional(key: string, value: Payload): map<string, Json> {
    if value.Some? then map[key := value.value] else map[]
  }

  function EncodeError(e: WireError): Json {
    Obj(map["code" := Str(e.code), "message" := Str(e.message)] + Optional("data", e.data))
  }

  function Strings(path: seq<string>): seq<Json> {
    seq(|path|, i requires 0 <= i < |path| => Str(path[i]))
  }

  function Body(frame: Frame): map<string, Json> {
    match frame
    case Hello(meta) => map["type" := Str(Name(KHello)), "v" := Num(PROTOCOL_MAJOR)] + Optional("meta", meta)
    case HelloOk => map["type" := Str(Name(KHelloOk)), "v" := Num(PROTOCOL_MAJOR)]
    case HelloError(error) => map["type" := Str(Name(KHelloError)), "error" := EncodeError(error)]
    case Call(id, path, input, stream) =>
      map["type" := Str(Name(KCall)), "id" := Str(id), "path" := Arr(Strings(path))]
      + Optional("input", input)
      + (if stream then map["stream" := Bool(true)] else map[])
    case ResultOk(id, output) =>
      map["type" := Str(Name(KResult)), "id" := Str(id), "ok" := Bool(true)] + Optional("output", output)
    case ResultErr(id, error) =>
      map["type" := Str(Name(KResult)), "id" := Str(id), "ok" := Bool(false), "error" := EncodeError(error)]
    case Item(id, output) => map["type" := Str(Name(KItem)), "id" := Str(id)] + Optional("output", output)
    case InItem(id, input) => map["type" := Str(Name(KInItem)), "id" := Str(id)] + Optional("input", input)
    case Cancel(id) => map["type" := Str(Name(KCancel)), "id" := Str(id)]
    case Done(id) => map["type" := Str(Name(KDone)), "id" := Str(id)]
    case InDone(id) => map["type" := Str(Name(KInDone)), "id" := Str(id)]
  }

  function EncodeFrame(frame: Frame): Json {
    Obj(Body(frame))
  }

  // ---- Decoding ----

  function Get(fields: map<string, Json>, key: string): Payload {
    if key in fields then Some(fields[key]) else None
  }

  /** A usable id: a non-empty JSON string. */
  function AsId(value: Payload): Option<string> {
    if value.Some? && value.value.Str? && value.value.s != "" then Some(value.value.s) else None
  }

  /** An array of strings, read back as strings. */
  function AsPath(value: Payload): Option<seq<string>> {
    if value.Some? && value.value.Arr? && (forall i :: 0 <= i < |value.value.items| ==> value.value.items[i].Str?)
    then
      var items := value.value.items;
      Some(seq(|items|, i requires 0 <= i < |items| => items[i].s))
    else None
  }

  function DecodeError(value: Payload): Option<WireError> {
    if value.None? || !value.value.Obj? then None
    else
      var fields := value.value.fields;
      if !(fields.Keys <= {"code", "message", "data"}) then None
      else if "code" !in fields || !fields["code"].Str? || fields["code"].s == "" then None
      else if "message" !in fields || !fields["message"].Str? then None
      else Some(WireError(fields["code"].s, fields["message"].s, Get(fields, "data")))
  }

  function KindNamed(name: string): Option<Kind> {
    if name == "hello" then Some(KHello)
    else if name == "hello-ok" then Some(KHelloOk)
    else if name == "hello-error" then Some(KHelloError)
    else if name == "call" then Some(KCall)
    else if name == "result" then Some(KResult)
    else if name == "cancel" then Some(KCancel)
    else if name == "item" then Some(KItem)
    else if name == "done" then Some(KDone)
    else if name == "in-item" then Some(KInItem)
    else if name == "in-done" then Some(KInDone)
    else None
  }

  function AllowedKeys(kind: Kind): set<string> {
    match kind
    case KHello => {"type", "v", "meta"}
    case KHelloOk => {"type", "v"}
    case KHelloError => {"type", "error"}
    case KCall => {"type", "id", "path", "input", "stream"}
    case KResult => {"type", "id", "ok", "output", "error"}
    case KItem => {"type", "id", "output"}
    case KInItem => {"type", "id", "input"}
    case _ => {"type", "id"}
  }

  function DecodeFrame(value: Json): DecodeResult {
    if !value.Obj? then Rejected(None, NotAnObject)
    else
      var fields := value.fields;
      var id := AsId(Get(fields, "id"));
      var kind := if "type" in fields && fields["type"].Str? then KindNamed(fields["type"].s) else None;
      if kind.None? then Rejected(id, UnknownType)
      else if !(fields.Keys <= AllowedKeys(kind.value)) then Rejected(id, UnexpectedKey)
      else ValidateKnown(kind.value, fields, id)
  }

  function ValidateKnown(kind: Kind, fields: map<string, Json>, id: Option<string>): DecodeResult {
    match kind
    case KHello =>
      if Get(fields, "v") != Some(Num(PROTOCOL_MAJOR)) then Rejected(id, InvalidVersion)
      else Accepted(Hello(Get(fields, "meta")))
    case KHelloOk =>
      if Get(fields, "v") != Some(Num(PROTOCOL_MAJOR)) then Rejected(id, InvalidVersion)
      else Accepted(HelloOk)
    case KHelloError =>
      var error := DecodeError(Get(fields, "error"));
      if error.None? then Rejected(id, InvalidError) else Accepted(HelloError(error.value))
    case _ => if id.None? then Rejected(id, InvalidId) else ValidateAddressed(kind, fields, id.value)
  }

  /** The frames that carry an id. */
  function ValidateAddressed(kind: Kind, fields: map<string, Json>, id: string): DecodeResult {
    if kind == KCall then ValidateCall(fields, id)
    else if kind == KResult then ValidateResult(fields, id)
    else if kind == KItem then Accepted(Item(id, Get(fields, "output")))
    else if kind == KInItem then Accepted(InItem(id, Get(fields, "input")))
    else if kind == KCancel then Accepted(Cancel(id))
    else if kind == KDone then Accepted(Done(id))
    else Accepted(InDone(id))
  }

  function ValidateCall(fields: map<string, Json>, id: string): DecodeResult {
    var path := AsPath(Get(fields, "path"));
    if path.None? then Rejected(Some(id), InvalidPath)
    else if "stream" in fields && fields["stream"] != Bool(true) then Rejected(Some(id), InvalidStream)
    else if "stream" in fields && "input" in fields then Rejected(Some(id), StreamWithInput)
    else if "stream" in fields then Accepted(Call(id, path.value, None, true))
    else if "input" in fields && fields["input"] != Null then Accepted(Call(id, path.value, Some(fields["input"]), false))
    else Accepted(Call(id, path.value, None, false))
  }

  function ValidateResult(fields: map<string, Json>, id: string): DecodeResult {
    if "ok" !in fields || !fields["ok"].Bool? then Rejected(Some(id), InvalidOk)
    else if fields["ok"].b then
      if "error" in fields then Rejected(Some(id), ErrorNotAllowed)
      else Accepted(ResultOk(id, Get(fields, "output")))
    else if "output" in fields then Rejected(Some(id), OutputNotAllowed)
    else
      var error := DecodeError(Get(fields, "error"));
      if error.None? then Rejected(Some(id), InvalidError) else Accepted(ResultErr(id, error.value))
  }

  // ---- What the codec promises ----

  /** Frames the wire format can carry. */
  predicate WellFormed(frame: Frame) {
    match frame
    case Hello(_) => true
    case HelloOk => true
    case HelloError(error) => error.code != ""
    case Call(id, _, input, stream) => id != "" && !(stream && input.Some?)
    case ResultErr(id, error) => id != "" && error.code != ""
    case _ => frame.id != ""
  }

  /** A call without input and a call with a `null` input are the same call. */
  function Normal(frame: Frame): Frame {
    match frame
    case Call(id, path, input, stream) => Call(id, path, if input == Some(Null) then None else input, stream)
    case _ => frame
  }

  lemma ErrorRoundTrip(e: WireError)
    ensures DecodeError(Some(EncodeError(e))) == if e.code == "" then None else Some(e)
  {
    var fields := EncodeError(e).fields;
    assert fields["code"] == Str(e.code);
    assert fields["message"] == Str(e.message);
    assert "data" in fields <==> e.data.Some?;
  }

  lemma PathRoundTrip(path: seq<string>)
    ensures AsPath(Some(Arr(Strings(path)))) == Some(path)
  {
    assert AsPath(Some(Arr(Strings(path)))).value == path;
  }

  lemma NamedKind(kind: Kind)
    ensures KindNamed(Name(kind)) == Some(kind)
  {
  }

  /** An encoded frame reaches the validator of its own kind. */
  lemma EncodedDispatch(frame: Frame)
    ensures "type" in Body(frame) && Body(frame)["type"] == Str(Name(KindOf(frame)))
    ensures Body(frame).Keys <= AllowedKeys(KindOf(frame))
    ensures DecodeFrame(EncodeFrame(frame))
         == ValidateKnown(KindOf(frame), Body(frame), AsId(Get(Body(frame), "id")))
  {
    NamedKind(KindOf(frame));
  }

  lemma CallRoundTrip(frame: Frame)
    requires frame.Call?
    ensures ValidateCall(Body(frame), frame.id)
         == if frame.stream && frame.input.Some? then Rejected(Some(frame.id), StreamWithInput)
            else Accepted(Normal(frame))
  {
    var fields := Body(frame);
    PathRoundTrip(frame.path);
    assert fields["path"] == Arr(Strings(frame.path));
    assert "stream" in fields <==> frame.stream;
    assert "input" in fields <==> frame.input.Some?;
  }

  lemma ResultRoundTrip(frame: Frame)
    requires frame.ResultOk? || frame.ResultErr?
    ensures ValidateResult(Body(frame), frame.id)
         == if frame.ResultErr? && frame.error.code == "" then Rejected(Some(frame.id), InvalidError)
            else Accepted(frame)
  {
    var fields := Body(frame);
    if frame.ResultErr? {
      ErrorRoundTrip(frame.error);
      assert fields["error"] == EncodeError(frame.error);
    }
    assert fields["ok"] == Bool(frame.ResultOk?);
  }

  lemma HelloRoundTrip(frame: Frame)
    requires IsHello(frame)
    ensures ValidateKnown(KindOf(frame), Body(frame), AsId(Get(Body(frame), "id")))
         == if WellFormed(frame) then Accepted(frame) else Rejected(None, InvalidError)
  {
    if frame.HelloError? {
      ErrorRoundTrip(frame.error);
    }
  }

  /** The frames that bear an id, and a value perhaps. */
  lemma PlainRoundTrip(frame: Frame)
    requires frame.Item? || frame.InItem? || frame.Cancel? || frame.Done? || frame.InDone?
    ensures ValidateAddressed(KindOf(frame), Body(frame), frame.id) == Accepted(frame)
  {
  }

  lemma AddressedRoundTrip(frame: Frame)
    requires !IsHello(frame)
    ensures AsId(Get(Body(frame), "id")) == if frame.id == "" then None else Some(frame.id)
    ensures frame.id != "" ==>
              var r := ValidateAddressed(KindOf(frame), Body(frame), frame.id);
              (r.Accepted? <==> WellFormed(frame)) && (r.Accepted? ==> r == Accepted(Normal(frame)))
  {
    assert Get(Body(frame), "id") == Some(Str(frame.id));
    if frame.Call? {
      CallRoundTrip(frame);
    } else if frame.ResultOk? || frame.ResultErr? {
      ResultRoundTrip(frame);
    } else {
      PlainRoundTrip(frame);
    }
  }

  /**
   * Decoding an encoded frame gives the frame back (a `null` call input becomes
   * absent), and does so for exactly the well-formed frames.
   */
  lemma RoundTrip(frame: Frame)
    ensures DecodeFrame(EncodeFrame(frame)).Accepted? <==> WellFormed(frame)
    ensures WellFormed(frame) ==> DecodeFrame(EncodeFrame(frame)) == Accepted(Normal(frame))
  {
    EncodedDispatch(frame);
    if IsHello(frame) {
      HelloRoundTrip(frame);
    } else {
      AddressedRoundTrip(frame);
    }
  }

  /** What an accepted object keeps: everything but a `null` call input. */
  function Kept(value: Json): Json
    requires value.Obj?
  {
    if Get(value.fields, "type") == Some(Str(Name(KCall))) && Get(value.fields, "input") == Some(Null)
    then Obj(value.fields - {"input"})
    else value
  }

  lemma NameOfKind(name: string)
    ensures KindNamed(name).Some? ==> Name(KindNamed(name).value) == name
  {
  }

  lemma ErrorReencode(value: Json)
    ensures DecodeError(Some(value)).Some? ==>
              EncodeError(DecodeError(Some(value)).value) == value && DecodeError(Some(value)).value.code != ""
  {
    if DecodeError(Some(value)).Some? {
      var fields := value.fields;
      var e := DecodeError(Some(value)).value;
      assert EncodeError(e).fields == fields;
    }
  }

  lemma CallReencode(fields: map<string, Json>, id: string)
    requires fields.Keys <= AllowedKeys(KCall)
    requires Get(fields, "type") == Some(Str(Name(KCall))) && Get(fields, "id") == Some(Str(id))
    requires ValidateCall(fields, id).Accepted?
    ensures Body(ValidateCall(fields, id).frame) == Kept(Obj(fields)).fields
  {
    var frame := ValidateCall(fields, id).frame;
    var items := fields["path"].items;
    assert Strings(frame.path) == items;
    var body, kept := Body(frame), Kept(Obj(fields)).fields;
    assert body.Keys == kept.Keys;
    assert forall key | key in body.Keys :: body[key] == kept[key];
  }

  lemma ResultReencode(fields: map<string, Json>, id: string)
    requires fields.Keys <= AllowedKeys(KResult)
    requires Get(fields, "type") == Some(Str(Name(KResult))) && Get(fields, "id") == Some(Str(id))
    requires ValidateResult(fields, id).Accepted?
    ensures Body(ValidateResult(fields, id).frame) == fields
  {
    if "error" in fields {
      ErrorReencode(fields["error"]);
    }
    var body := Body(ValidateResult(fields, id).frame);
    assert body.Keys == fields.Keys;
  }

  lemma HelloReencode(fields: map<string, Json>, kind: Kind)
    requires kind in {KHello, KHelloOk, KHelloError} && fields.Keys <= AllowedKeys(kind)
    requires Get(fields, "type") == Some(Str(Name(kind))) && ValidateKnown(kind, fields, None).Accepted?
    ensures Body(ValidateKnown(kind, fields, None).frame) == fields
    ensures WellFormed(ValidateKnown(kind, fields, None).frame)
  {
    if kind == KHelloError {
      ErrorReencode(fields["error"]);
    }
    assert Body(ValidateKnown(kind, fields, None).frame).Keys == fields.Keys;
  }

  lemma PlainReencode(fields: map<string, Json>, kind: Kind, id: string)
    requires kind in {KItem, KInItem, KCancel, KDone, KInDone} && fields.Keys <= AllowedKeys(kind)
    requires Get(fields, "type") == Some(Str(Name(kind))) && Get(fields, "id") == Some(Str(id))
    ensures Body(ValidateAddressed(kind, fields, id).frame) == fields
  {
    assert Body(ValidateAddressed(kind, fields, id).frame).Keys == fields.Keys;
  }

  /**
   * Nothing is invented or lost on the way in: an accepted object is, up to a
   * `null` call input, the encoding of a well-formed frame in normal form.
   */
  lemma AcceptedIsEncoding(value: Json)
    ensures DecodeFrame(value).Accepted? ==>
              var frame := DecodeFrame(value).frame;
              value.Obj? && EncodeFrame(frame) == Kept(value) && WellFormed(frame) && Normal(frame) == frame
  {
    if DecodeFrame(value).Accepted? {
      var fields := value.fields;
      NameOfKind(fields["type"].s);
      var kind := KindNamed(fields["type"].s).value;
      assert Get(fields, "type") == Some(Str(Name(kind)));
      if kind in {KHello, KHelloOk, KHelloError} {
        HelloReencode(fields, kind);
        assert DecodeFrame(value).frame == ValidateKnown(kind, fields, None).frame;
      } else {
        AddressedIsEncoding(value, kind, AsId(Get(fields, "id")).value);
      }
    }
  }

  lemma AddressedIsEncoding(value: Json, kind: Kind, id: string)
    requires kind !in {KHello, KHelloOk, KHelloError}
    requires value.Obj? && value.fields.Keys <= AllowedKeys(kind)
    requires Get(value.fields, "type") == Some(Str(Name(kind))) && UsableId(value, id)
    requires ValidateAddressed(kind, value.fields, id).Accepted?
    ensures var frame := ValidateAddressed(kind, value.fields, id).frame;
            EncodeFrame(frame) == Kept(value) && WellFormed(frame) && Normal(frame) == frame
  {
    var fields := value.fields;
    if kind == KCall {
      CallReencode(fields, id);
    } else {
      assert Kept(value) == value by {
        NamedKind(kind);
        NamedKind(KCall);
      }
      if kind == KResult {
        ResultReencode(fields, id);
        if "error" in fields {
          ErrorReencode(fields["error"]);
        }
      } else {
        PlainReencode(fields, kind, id);
      }
    }
  }

  /** The id a peer may be answered on: a non-empty string under the key `id`. */
  predicate UsableId(value: Json, id: string) {
    value.Obj? && "id" in value.fields && value.fields["id"] == Str(id) && id != ""
  }

  /** A rejection carries the id exactly when the object has a usable one. */
  lemma RejectionCarriesId(value: Json)
    requires DecodeFrame(value).Rejected?
    ensures forall id :: DecodeFrame(value).id == Some(id) <==> UsableId(value, id)
  {
  }

  // ---- The wire ----

  /** The texts of the handshake, as the protocol spells them. */
  lemma HandshakeIsSpelled(meta: Json, code: string, message: string)
    ensures EncodeFrame(Hello(None)) == Obj(map["type" := Str("hello"), "v" := Num(1.0)])
    ensures EncodeFrame(Hello(Some(meta))) == Obj(map["type" := Str("hello"), "v" := Num(1.0), "meta" := meta])
    ensures EncodeFrame(HelloOk) == Obj(map["type" := Str("hello-ok"), "v" := Num(1.0)])
    ensures EncodeFrame(HelloError(WireError(code, message, None)))
         == Obj(map["type" := Str("hello-error"), "error" := Obj(map["code" := Str(code), "message" := Str(message)])])
  {
    var error := map["code" := Str(code), "message" := Str(message)];
    assert error + map[] == error;
    assert map["type" := Str("hello"), "v" := Num(1.0)] + map[] == map["type" := Str("hello"), "v" := Num(1.0)];
  }

  /** A call, with its input or the mark that it streams it. */
  lemma CallIsSpelled(id: string, path: seq<string>, input: Payload, stream: bool)
    ensures var call := map["type" := Str("call"), "id" := Str(id), "path" := Arr(Strings(path))];
            var given := if input.Some? then call["input" := input.value] else call;
            EncodeFrame(Call(id, path, input, stream)) == Obj(if stream then given["stream" := Bool(true)] else given)
  {
    var call := map["type" := Str("call"), "id" := Str(id), "path" := Arr(Strings(path))];
    var given := if input.Some? then call["input" := input.value] else call;
    var mark := if stream then map["stream" := Bool(true)] else map[];
    assert Body(Call(id, path, input, stream)) == call + Optional("input", input) + mark;
    assert call + Optional("input", input) == given;
    assert given + map[] == given && given + map["stream" := Bool(true)] == given["stream" := Bool(true)];
  }

  /** The frames that only bear an id, and those that bear an id and a value. */
  lemma ItemsAreSpelled(id: string)
    ensures EncodeFrame(InDone(id)) == Obj(map["type" := Str("in-done"), "id" := Str(id)])
    ensures EncodeFrame(Done(id)) == Obj(map["type" := Str("done"), "id" := Str(id)])
    ensures EncodeFrame(Frame.Cancel(id)) == Obj(map["type" := Str("cancel"), "id" := Str(id)])
  {
  }

  lemma ValuesAreSpelled(id: string, value: Json)
    ensures EncodeFrame(Item(id, Some(value))) == Obj(map["type" := Str("item"), "id" := Str(id), "output" := value])
    ensures EncodeFrame(InItem(id, Some(value))) == Obj(map["type" := Str("in-item"), "id" := Str(id), "input" := value])
  {
  }

  /** A result, with its output or its error. */
  lemma ResultIsSpelled(id: string, output: Payload)
    ensures var ok := map["type" := Str("result"), "id" := Str(id), "ok" := Bool(true)];
            EncodeFrame(ResultOk(id, output)) == Obj(if output.Some? then ok["output" := output.value] else ok)
  {
    var ok := map["type" := Str("result"), "id" := Str(id), "ok" := Bool(true)];
    assert ok + Optional("output", output) == if output.Some? then ok["output" := output.value] else ok;
  }

  lemma FailureIsSpelled(id: string, error: WireError)
    ensures var told := map["code" := Str(error.code), "message" := Str(error.message)];
            var failure := Obj(if error.data.Some? then told["data" := error.data.value] else told);
            EncodeFrame(ResultErr(id, error))
              == Obj(map["type" := Str("result"), "id" := Str(id), "ok" := Bool(false), "error" := failure])
  {
    var told := map["code" := Str(error.code), "message" := Str(error.message)];
    assert told + Optional("data", error.data) == if error.data.Some? then told["data" := error.data.value] else told;
  }
}
