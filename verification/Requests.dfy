/** REQUEST payloads: the session's parser, the client's printer, and the identity of a
    request through parsing, answering and reading the answer. */
module Requests {
  import opened Decimal
  import opened JsonText
  import opened SessionScanner

  datatype Request = Request(id: nat, method_: string, params: string,
                             haveId: bool, haveMethod: bool, haveParams: bool)

  const BLANK := Request(0, "", "{}", false, false, false)

  datatype ParseError = Fine | InvalidJson | DuplicateRequestId | DuplicateMethod | DuplicateParams
                      | InvalidRequestId | InvalidMethod | InvalidParams | MissingRequestId | MissingMethod

  datatype Field = BadField(error: ParseError) | GoodField(request: Request, end: nat)

  const KEY_ID := "requestId"
  const KEY_METHOD := "method"
  const KEY_PARAMS := "params"

  function ReadId(t: string, pos: nat, r: Request): Field
    requires pos <= |t|
  {
    if r.haveId then BadField(DuplicateRequestId) else
    var n := Uint64At(t, pos);
    if n.NotNumber? || n.value == 0 then BadField(InvalidRequestId)
    else if n.end < |t| && (t[n.end] == '.' || t[n.end] == 'e' || t[n.end] == 'E') then BadField(InvalidRequestId)
    else GoodField(r.(id := n.value, haveId := true), n.end)
  }

  function ReadMethod(t: string, pos: nat, r: Request): Field {
    if r.haveMethod then BadField(DuplicateMethod) else
    var s := StringAt(t, pos);
    if s.NoText? || s.value == "" then BadField(InvalidMethod)
    else GoodField(r.(method_ := s.value, haveMethod := true), s.end)
  }

  function ReadParams(t: string, pos: nat, r: Request): Field
    requires pos <= |t|
  {
    if r.haveParams then BadField(DuplicateParams)
    else if pos >= |t| || t[pos] != '{' then BadField(InvalidParams)
    else
      var v := SkipValue(t, pos, 1);
      if v.Reject? then BadField(InvalidParams)
      else GoodField(r.(params := t[pos..v.pos], haveParams := true), v.pos)
  }

  function ReadOther(t: string, pos: nat, r: Request): Field
    requires pos <= |t|
  {
    var v := SkipValue(t, pos, 1);
    if v.Reject? then BadField(InvalidJson) else GoodField(r, v.pos)
  }

  function ReadField(t: string, pos: nat, key: string, r: Request): (f: Field)
    requires pos <= |t|
    ensures f.GoodField? ==> pos < f.end <= |t|
  {
    if key == KEY_ID then ReadId(t, pos, r)
    else if key == KEY_METHOD then ReadMethod(t, pos, r)
    else if key == KEY_PARAMS then ReadParams(t, pos, r)
    else ReadOther(t, pos, r)
  }

  /** What follows the last member: nothing but white space, and nothing missing. */
  function Finish(t: string, pos: nat, r: Request): ParseError
    requires pos <= |t|
  {
    if SkipWs(t, pos) != |t| then InvalidJson
    else if !r.haveId then MissingRequestId
    else if !r.haveMethod then MissingMethod
    else Fine
  }

  /** The member loop; on an error the request keeps what was read before it. */
  function ParseMembers(t: string, pos: nat, r: Request): (ParseError, Request)
    requires pos <= |t|
    decreases |t| - pos
  {
    var k := SkipKey(t, pos);
    if k.Reject? then (InvalidJson, r) else
    var f := ReadField(t, k.pos, StringAt(t, pos).value, r);
    if f.BadField? then (f.error, r) else
    match AfterElement(t, f.end, '}')
    case Stop(Reject) => (InvalidJson, f.request)
    case Stop(End(e)) => (Finish(t, e, f.request), f.request)
    case More(next) => ParseMembers(t, next, f.request)
  }

  function Parse(t: string): (ParseError, Request) {
    var p := SkipWs(t, 0);
    if p >= |t| || t[p] != '{' then (InvalidJson, BLANK) else
    var q := SkipWs(t, p + 1);
    if q < |t| && t[q] == '}' then (MissingRequestId, BLANK) else ParseMembers(t, q, BLANK)
  }

  // ---------------------------------------------------------------- the loop

  method ParseField(t: string, pos: nat, key: string, r: Request) returns (f: Field)
    requires pos <= |t|
    ensures f == ReadField(t, pos, key, r)
  {
    if key == KEY_ID {
      if r.haveId { return BadField(DuplicateRequestId); }
      var n := ParseUint64(t, pos);
      if n.NotNumber? || n.value == 0 { return BadField(InvalidRequestId); }
      if n.end < |t| && (t[n.end] == '.' || t[n.end] == 'e' || t[n.end] == 'E') {
        return BadField(InvalidRequestId);
      }
      return GoodField(r.(id := n.value, haveId := true), n.end);
    }
    if key == KEY_METHOD {
      if r.haveMethod { return BadField(DuplicateMethod); }
      var s := ParseString(t, pos);
      if s.NoText? || s.value == "" { return BadField(InvalidMethod); }
      return GoodField(r.(method_ := s.value, haveMethod := true), s.end);
    }
    if key == KEY_PARAMS {
      if r.haveParams { return BadField(DuplicateParams); }
      if pos >= |t| || t[pos] != '{' { return BadField(InvalidParams); }
      var p := ScanValue(t, pos, 1);
      if p.Reject? { return BadField(InvalidParams); }
      return GoodField(r.(params := t[pos..p.pos], haveParams := true), p.pos);
    }
    var v := ScanValue(t, pos, 1);
    if v.Reject? { return BadField(InvalidJson); }
    return GoodField(r, v.pos);
  }

  method ParseRequest(t: string) returns (error: ParseError, r: Request)
    ensures (error, r) == Parse(t)
  {
    r := BLANK;
    var pos := ScanWs(t, 0);
    if pos >= |t| || t[pos] != '{' { return InvalidJson, r; }
    pos := ScanWs(t, pos + 1);
    if pos < |t| && t[pos] == '}' { return MissingRequestId, r; }
    ghost var whole := ParseMembers(t, pos, r);
    while true
      invariant pos <= |t| && whole == ParseMembers(t, pos, r)
      decreases |t| - pos
    {
      var k, key := ScanKey(t, pos);
      if k.Reject? { return InvalidJson, r; }
      var f := ParseField(t, k.pos, key, r);
      if f.BadField? { return f.error, r; }
      var turn := ScanSeparator(t, f.end, '}');
      r := f.request;
      if turn.Stop? {
        if turn.result.Reject? { return InvalidJson, r; }
        return Finish(t, turn.result.pos, r), r;
      }
      pos := turn.pos;
    }
  }

  // ---------------------------------------------------------------- the client

  const HEAD := "{\"requestId\":"
  const MID := ",\"method\":\""
  const TAIL := "\",\"params\":"

  function RequestText(id: nat, m: string, params: string): string {
    HEAD + Print(id) + MID + m + TAIL + params + "}"
  }

  predicate PlainText(s: string) {
    forall i :: 0 <= i < |s| ==> s[i] != '"' && s[i] != '\\' && s[i] as int >= 0x20
  }

  function IndexOf(t: string, needle: string, from: nat): (i: nat)
    requires from <= |t|
    ensures from <= i <= |t|
    decreases |t| - from
  {
    if from == |t| || StandsAt(t, from, needle) then from else IndexOf(t, needle, from + 1)
  }

  /** The client's field lookup: the number behind the first occurrence of the key. */
  function JsonUint64(t: string, key: string): Number {
    var needle := "\"" + key + "\":";
    var i := IndexOf(t, needle, 0);
    if !StandsAt(t, i, needle) then NotNumber else Uint64At(t, i + |needle|)
  }

  /** Every response the service prints starts with the request's id. */
  function ResponseText(id: nat, rest: string): string { HEAD + Print(id) + rest }

  lemma ResponseReadsBack(id: nat, rest: string)
    requires id <= UINT64_MAX && (rest != "" ==> !IsDigit(rest[0]))
    ensures JsonUint64(ResponseText(id, rest), KEY_ID).Number?
    ensures JsonUint64(ResponseText(id, rest), KEY_ID).value == id
  {
    var t := ResponseText(id, rest);
    var needle := "\"" + KEY_ID + "\":";
    assert HEAD == "{" + needle;
    assert t[1..1 + |needle|] == needle;
    assert t[0..|needle|][0] == '{';
    assert IndexOf(t, needle, 0) == 1;
    var p := 1 + |needle|;
    assert t[p..p + |Print(id)|] == Print(id);
    assert p + |Print(id)| < |t| ==> t[p + |Print(id)|] == rest[0];
    PrintReadsBack(t, p, id);
  }
}
