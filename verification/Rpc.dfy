// Newline-delimited JSON-RPC transport (crates/arky-codex/src/rpc.rs).

/** Decimal numerals, as integers are printed and parsed. */
module Decimal {
  import opened Prelude

  function Digit(n: nat): char
    requires n < 10
  {
    (n + '0' as int) as char
  }

  function ShowNat(n: nat): (r: string)
    ensures r != "" && forall i | 0 <= i < |r| :: '0' <= r[i] <= '9'
    ensures r[0] == '0' ==> n == 0
  {
    if n < 10 then [Digit(n)] else ShowNat(n / 10) + [Digit(n % 10)]
  }

  function ReadNat(s: string): nat
    requires forall i | 0 <= i < |s| :: '0' <= s[i] <= '9'
  {
    if s == "" then 0 else 10 * ReadNat(s[..|s| - 1]) + (s[|s| - 1] as int - '0' as int)
  }

  lemma {:induction false} ReadShow(n: nat)
    ensures ReadNat(ShowNat(n)) == n
  {
    if n >= 10 {
      ReadShow(n / 10);
      var s := ShowNat(n);
      assert s[..|s| - 1] == ShowNat(n / 10) && s[|s| - 1] == Digit(n % 10);
    }
  }

  lemma {:induction false} ShowNatInjective(m: nat, n: nat)
    ensures ShowNat(m) == ShowNat(n) <==> m == n
  {
    ReadShow(m);
    ReadShow(n);
  }

  const I64_LIMIT: int := 0x8000_0000_0000_0000

  predicate IsI64(i: int) {
    -I64_LIMIT <= i < I64_LIMIT
  }

  function ShowInt(i: int): string {
    if i < 0 then "-" + ShowNat(0 - i) else ShowNat(i)
  }

  predicate Digits(s: string) {
    s != "" && forall i | 0 <= i < |s| :: '0' <= s[i] <= '9'
  }

  /** `Number::as_i64` on a number token: fractions, exponents, a negative zero and
      anything out of range are not 64-bit integers. */
  function AsI64(token: string): Option<int> {
    if token != "" && token[0] == '-' then NegativeI64(token[1..]) else NaturalI64(token)
  }

  function NaturalI64(digits: string): Option<int> {
    if Digits(digits) && ReadNat(digits) < I64_LIMIT then Some(ReadNat(digits)) else None
  }

  function NegativeI64(digits: string): Option<int> {
    if Digits(digits) && 0 < ReadNat(digits) <= I64_LIMIT then Some(0 - ReadNat(digits)) else None
  }

  lemma {:induction false} AsI64OfDigits(digits: string, n: nat)
    requires Digits(digits) && ReadNat(digits) == n
    ensures n < I64_LIMIT ==> AsI64(digits) == Some(n)
    ensures 0 < n <= I64_LIMIT ==> AsI64("-" + digits) == Some(0 - n)
  {}

  lemma {:induction false} AsI64ReadsShowInt(i: int)
    requires IsI64(i)
    ensures AsI64(ShowInt(i)) == Some(i)
  {
    var n := if i < 0 then 0 - i else i;
    ReadShow(n);
    AsI64OfDigits(ShowNat(n), n);
  }
}

/** Frames: what is written for each kind of message and how an incoming one is classified
    (sections 4 and 5 of the JSON-RPC 2.0 specification). */
module RpcFrames {
  import opened Prelude
  import opened JsonValues
  import opened Decimal

  datatype JsonRpcId = NumberId(i: int) | StringId(s: string) | NullId

  datatype ErrorObject = ErrorObject(code: int, message: string, data: Option<Json>)

  datatype Incoming =
    | Response(id: JsonRpcId, result: Result<Json, ErrorObject>)
    | Notification(method_: string, params: Json)
    | Request(id: JsonRpcId, method_: string, params: Json)

  datatype ParseError = NotJson | NotAnObject | MissingId | BadErrorPayload | NoResultOrError

  /** The pending-map key of an id; a null id has none. */
  function RequestKey(id: JsonRpcId): Option<string> {
    match id
    case NumberId(i) => Some(ShowInt(i))
    case StringId(s) => Some(s)
    case NullId => None
  }

  function ParseId(value: Option<Json>): Option<JsonRpcId> {
    match value
    case Some(JNumber(token)) => (match AsI64(token) case Some(i) => Some(NumberId(i)) case None => None)
    case Some(JString(s)) => Some(StringId(s))
    case Some(JNull) => Some(NullId)
    case _ => None
  }

  function ParseErrorObject(value: Json): Result<ErrorObject, ParseError> {
    if !value.JObject? then Err(BadErrorPayload)
    else
      match (Lookup(value.entries, "code"), Lookup(value.entries, "message"))
      case (Some(JNumber(token)), Some(JString(message))) =>
        (match AsI64(token)
         case Some(code) => Ok(ErrorObject(code, message, Lookup(value.entries, "data")))
         case None => Err(BadErrorPayload))
      case _ => Err(BadErrorPayload)
  }

  /** `parse_incoming` on a line that is JSON. */
  function ParseIncoming(frame: Json): Result<Incoming, ParseError> {
    if !frame.JObject? then Err(NotAnObject)
    else
      var id := ParseId(Lookup(frame.entries, "id"));
      match Lookup(frame.entries, "method")
      case Some(JString(method_)) =>
        var params := match Lookup(frame.entries, "params") case Some(p) => p case None => JNull;
        (match id
         case Some(id) => Ok(Request(id, method_, params))
         case None => Ok(Notification(method_, params)))
      case _ =>
        if id.None? then Err(MissingId)
        else
          match Lookup(frame.entries, "error")
          case Some(error) =>
            (match ParseErrorObject(error)
             case Ok(e) => Ok(Response(id.value, Err(e)))
             case Err(e) => Err(e))
          case None =>
            match Lookup(frame.entries, "result")
            case Some(result) => Ok(Response(id.value, Ok(result)))
            case None => Err(NoResultOrError)
  }

  function IdJson(id: JsonRpcId): Json {
    match id
    case NumberId(i) => JNumber(ShowInt(i))
    case StringId(s) => JString(s)
    case NullId => JNull
  }

  function OptionalEntry(key: string, value: Option<Json>): seq<Entry> {
    match value
    case Some(v) => [Entry(key, v)]
    case None => []
  }

  function ErrorJson(e: ErrorObject): Json {
    JObject([Entry("code", JNumber(ShowInt(e.code))), Entry("message", JString(e.message))]
            + OptionalEntry("data", e.data))
  }

  /** The frame written for a message; absent params are left out. */
  function FrameOf(message: Incoming, omitParams: bool): Json {
    var version := Entry("jsonrpc", JString("2.0"));
    match message
    case Response(id, Ok(result)) => JObject([version, Entry("id", IdJson(id)), Entry("result", result)])
    case Response(id, Err(e)) => JObject([version, Entry("id", IdJson(id)), Entry("error", ErrorJson(e))])
    case Notification(method_, params) =>
      JObject([version, Entry("method", JString(method_))]
              + OptionalEntry("params", if omitParams then None else Some(params)))
    case Request(id, method_, params) =>
      JObject([version, Entry("id", IdJson(id)), Entry("method", JString(method_))]
              + OptionalEntry("params", if omitParams then None else Some(params)))
  }

  predicate Writable(message: Incoming, omitParams: bool) {
    && (message.Response? || message.Request? ==> message.id.NumberId? ==> IsI64(message.id.i))
    && (message.Response? && message.result.Err? ==> IsI64(message.result.error.code))
    && (omitParams ==> message.Notification? || message.Request? ==> message.params == JNull)
  }

  lemma {:induction false} IdReadsBack(id: JsonRpcId)
    requires id.NumberId? ==> IsI64(id.i)
    ensures ParseId(Some(IdJson(id))) == Some(id)
  {
    if id.NumberId? {
      AsI64ReadsShowInt(id.i);
    }
  }

  /** Looking up keys that already differ in their first character. */
  lemma {:induction false} LookupIn(entries: seq<Entry>, key: string, i: nat)
    requires forall j | 0 <= j < |entries| :: entries[j].key != ""
    requires forall j, k | 0 <= j < k < |entries| :: entries[j].key[0] != entries[k].key[0]
    requires i < |entries| && entries[i].key == key
    ensures Lookup(entries, key) == Some(entries[i].value)
  {}

  lemma {:induction false} LookupOut(entries: seq<Entry>, key: string)
    requires key != "" && forall j | 0 <= j < |entries| :: entries[j].key != "" && entries[j].key[0] != key[0]
    ensures Lookup(entries, key) == None
  {}

  lemma {:induction false} ErrorReadsBack(e: ErrorObject)
    requires IsI64(e.code)
    ensures ParseErrorObject(ErrorJson(e)) == Ok(e)
  {
    AsI64ReadsShowInt(e.code);
    ErrorEntriesReadBack(ShowInt(e.code), e);
  }

  lemma {:induction false} ErrorEntriesReadBack(token: string, e: ErrorObject)
    requires AsI64(token) == Some(e.code)
    ensures ParseErrorObject(JObject([Entry("code", JNumber(token)), Entry("message", JString(e.message))]
                                     + OptionalEntry("data", e.data))) == Ok(e)
  {
    var es := [Entry("code", JNumber(token)), Entry("message", JString(e.message))] + OptionalEntry("data", e.data);
    LookupIn(es, "code", 0);
    LookupIn(es, "message", 1);
    if e.data.Some? {
      LookupIn(es, "data", 2);
    } else {
      LookupOut(es, "data");
    }
  }

  lemma {:induction false} ResponseReadsBack(message: Incoming)
    requires message.Response? && Writable(message, false)
    ensures ParseIncoming(FrameOf(message, false)) == Ok(message)
  {
    var es := FrameOf(message, false).entries;
    IdReadsBack(message.id);
    LookupIn(es, "id", 1);
    LookupOut(es, "method");
    if message.result.Ok? {
      LookupOut(es, "error");
      LookupIn(es, "result", 2);
    } else {
      LookupIn(es, "error", 2);
      ErrorReadsBack(message.result.error);
    }
  }

  lemma {:induction false} RequestReadsBack(message: Incoming, omitParams: bool)
    requires message.Request? && Writable(message, omitParams)
    ensures ParseIncoming(FrameOf(message, omitParams)) == Ok(message)
  {
    IdReadsBack(message.id);
    RequestEntriesReadBack(IdJson(message.id), message, omitParams);
  }

  lemma {:induction false} RequestEntriesReadBack(id: Json, message: Incoming, omitParams: bool)
    requires message.Request? && (omitParams ==> message.params == JNull)
    requires ParseId(Some(id)) == Some(message.id)
    ensures ParseIncoming(JObject([Entry("jsonrpc", JString("2.0")), Entry("id", id),
                                   Entry("method", JString(message.method_))]
                                  + OptionalEntry("params", if omitParams then None else Some(message.params))))
         == Ok(message)
  {
    var es := [Entry("jsonrpc", JString("2.0")), Entry("id", id), Entry("method", JString(message.method_))]
              + OptionalEntry("params", if omitParams then None else Some(message.params));
    LookupIn(es, "id", 1);
    LookupIn(es, "method", 2);
    ParamsReadBack(es, 3, message.params, omitParams);
  }

  lemma {:induction false} NotificationReadsBack(message: Incoming, omitParams: bool)
    requires message.Notification? && Writable(message, omitParams)
    ensures ParseIncoming(FrameOf(message, omitParams)) == Ok(message)
  {
    var es := FrameOf(message, omitParams).entries;
    LookupOut(es, "id");
    LookupIn(es, "method", 1);
    ParamsReadBack(es, 2, message.params, omitParams);
  }

  lemma {:induction false} ParamsReadBack(entries: seq<Entry>, at: nat, params: Json, omitParams: bool)
    requires forall j | 0 <= j < |entries| :: entries[j].key != ""
    requires forall j, k | 0 <= j < k < |entries| :: entries[j].key[0] != entries[k].key[0]
    requires at <= |entries| && (omitParams ==> params == JNull)
    requires if omitParams then forall j | 0 <= j < |entries| :: entries[j].key[0] != 'p'
             else at < |entries| && entries[at] == Entry("params", params)
    ensures Lookup(entries, "params") == if omitParams then None else Some(params)
  {}

  /** A peer that reads a frame written by this side sees the same message. */
  lemma {:induction false} ParseReadsFrame(message: Incoming, omitParams: bool)
    requires Writable(message, omitParams)
    ensures ParseIncoming(FrameOf(message, omitParams)) == Ok(message)
  {
    match message
    case Response(_, _) => ResponseReadsBack(message);
    case Notification(_, _) => NotificationReadsBack(message, omitParams);
    case Request(_, _, _) => RequestReadsBack(message, omitParams);
  }
}
