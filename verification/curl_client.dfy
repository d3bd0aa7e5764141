/** The request-shaping and status-classifying parts of the curl wrapper.
    The curl handle itself is foreign I/O; `send` survives only as the
    contract `Receive` that maps one transport reply to a response or a
    RuntimeException. */
module CurlClient {
  import opened Wrappers
  import opened Text
  import opened Php
  import opened ApiResponse

  /** A header value as handed to setRequestHeaders: one string or a list. */
  datatype HeaderValue = Scalar(text: string) | Multi(values: seq<string>)

  /** Header names with their values, in insertion order (a PHP array). */
  type Headers = seq<(string, HeaderValue)>

  /** `(array)$values`: a scalar becomes a one-element list. */
  function Values(v: HeaderValue): seq<string> {
    match v
    case Scalar(t) => [t]
    case Multi(vs) => vs
  }

  /** The header line curl receives for one entry. */
  function HeaderLine(name: string, value: HeaderValue): string {
    name + ": " + Join(Values(value), ';')
  }

  /** setRequestHeaders: one "name: value" line per entry, in input order. */
  method SetRequestHeaders(headers: Headers) returns (lines: seq<string>)
    ensures |lines| == |headers|
    ensures forall i :: 0 <= i < |headers| ==> lines[i] == HeaderLine(headers[i].0, headers[i].1)
  {
    lines := [];
    var k := 0;
    while k < |headers|
      invariant 0 <= k <= |headers|
      invariant |lines| == k
      invariant forall i :: 0 <= i < k ==> lines[i] == HeaderLine(headers[i].0, headers[i].1)
    {
      lines := lines + [HeaderLine(headers[k].0, headers[k].1)];
      k := k + 1;
    }
  }

  /** Reads a header line back into its name and its ';'-separated values. */
  function ParseHeaderLine(line: string): (string, seq<string>) {
    var (name, rest) := SplitAtFirst(line, ':');
    var value := if |rest| > 0 && rest[0] == ' ' then rest[1..] else rest;
    (name, Split(value, ';'))
  }

  /** A scalar header value reaches the wire unchanged. */
  lemma ScalarHeaderLine(name: string, text: string)
    ensures HeaderLine(name, Scalar(text)) == name + ": " + text
  {
  }

  /** A header line can be read back: the name up to the first ':', and the
      values the line joined with ';'. */
  lemma HeaderLineRoundTrip(name: string, value: HeaderValue)
    requires ':' !in name
    requires |Values(value)| > 0
    requires forall i :: 0 <= i < |Values(value)| ==> ';' !in Values(value)[i]
    ensures ParseHeaderLine(HeaderLine(name, value)) == (name, Values(value))
  {
    var joined := Join(Values(value), ';');
    assert HeaderLine(name, value) == name + [':'] + (" " + joined);
    SplitAtFirstGlued(name, " " + joined, ':');
    assert (" " + joined)[1..] == joined;
    SplitJoin(Values(value), ';');
  }

  /** What setBody hands to CURLOPT_POSTFIELDS: nothing, or the JSON
      encoding of the body (json_encode is kept symbolic). */
  datatype Payload = NoPayload | JsonEncoded(data: Assoc)

  /** setBody: a null or empty body sets no payload at all. */
  function SetBody(body: Option<Assoc>): (p: Payload)
    ensures p.NoPayload? <==> EmptyArray(body)
    ensures p.JsonEncoded? ==> body == Some(p.data)
  {
    if EmptyArray(body) then NoPayload else JsonEncoded(body.value)
  }

  /** A curl error number; curl reports failure with a non-zero one. */
  type ErrorNumber = n: int | 0 < n witness 1

  /** What one transport call produced: a reply whose HTTP code curl may or
      may not have reported, or a curl-level failure. */
  datatype Reply =
    | Answer(httpCode: Option<int>, body: string)
    | Failure(errno: ErrorNumber, detail: string)

  /** `reply` is an answer carrying `r`'s body, and `r`'s status is the
      code curl reported, or 0 when it reported none. */
  predicate Yields(reply: Reply, r: Response) {
    reply.Answer? && reply.body == r.body && reply.httpCode.GetOr(0) == r.statusCode
  }

  /** The contract of `send`: a curl failure throws a RuntimeException and
      yields no response; otherwise the body comes back with the reported
      status code, or 0 when curl reported none. */
  function Receive(reply: Reply): (r: Result<Response, Error>)
    ensures r.Ok? <==> reply.Answer?
    ensures r.Ok? ==> Yields(reply, r.value)
    ensures reply.Answer? && reply.httpCode.None? ==> r.Ok? && r.value.statusCode == 0
    ensures r.Err? ==> r.error.Runtime? && r.error.code == 0 && StartsWith(r.error.message, "Curl error: ")
  {
    match reply
    case Failure(errno, detail) =>
      Err(Runtime("Curl error: " + NatToString(errno) + " " + detail, 0))
    case Answer(code, body) =>
      Ok(Response(body, code.GetOr(0)))
  }

  /** throwForStatus: 4xx is a client error and 5xx a server error, each a
      RuntimeException whose code is the status and whose message names
      status, class and body; every other status raises nothing. */
  function ThrowForStatus(response: Response): (e: Option<Error>)
    ensures e.Some? <==> 400 <= response.statusCode < 600
    ensures e.Some? ==> e.value.Runtime? && e.value.code == response.statusCode
  {
    var s := response.statusCode;
    if 400 <= s < 500 then
      Some(Runtime(NatToString(s) + " Client Error: " + response.body, s))
    else if 500 <= s < 600 then
      Some(Runtime(NatToString(s) + " Server Error: " + response.body, s))
    else
      None
  }

  /** The classification agrees with the hundreds digit of the status: an
      error is raised exactly for the 4xx and 5xx classes, and it is a
      client error exactly for 4xx. */
  lemma StatusClassAgreement(response: Response)
    ensures ThrowForStatus(response).Some? <==> (response.statusCode / 100 == 4 || response.statusCode / 100 == 5)
    ensures ThrowForStatus(response).Some? ==>
      (response.statusCode / 100 == 4 <==> StartsWith(ThrowForStatus(response).value.message, NatToString(response.statusCode) + " Client"))
  {
    var s := response.statusCode;
    if 400 <= s < 500 {
      var d := NatToString(s);
      var m := d + " Client Error: " + response.body;
      assert m[..|d + " Client"|] == d + " Client";
    } else if 500 <= s < 600 {
      var d := NatToString(s);
      var m := d + " Server Error: " + response.body;
      assert m[|d| + 1] == 'S';
    }
  }

  /** The message is the status, one blank, then class and body. */
  lemma MessageShape(response: Response)
    requires ThrowForStatus(response).Some?
    ensures ThrowForStatus(response).value.message ==
      NatToString(response.statusCode) + [' ']
      + ((if response.statusCode < 500 then "Client Error: " else "Server Error: ") + response.body)
  {
    var kind := if response.statusCode < 500 then "Client Error: " else "Server Error: ";
    assert ThrowForStatus(response).value.message == NatToString(response.statusCode) + ([' '] + kind) + response.body;
  }

  /** The error message can be read back: the text before its first blank
      is the status in decimal, and the rest names the class and carries
      the body verbatim. The status is written the canonical way, without a
      leading zero. */
  lemma StatusMessageRoundTrip(response: Response)
    requires ThrowForStatus(response).Some?
    ensures var cut := SplitAtFirst(ThrowForStatus(response).value.message, ' ');
      && |cut.0| > 0 && cut.0[0] != '0'
      && (forall i :: 0 <= i < |cut.0| ==> IsDigit(cut.0[i]))
      && DigitsValue(cut.0) == response.statusCode
      && cut.1 == (if response.statusCode < 500 then "Client Error: " else "Server Error: ") + response.body
  {
    var s := response.statusCode;
    var d := NatToString(s);
    var rest := (if s < 500 then "Client Error: " else "Server Error: ") + response.body;
    MessageShape(response);
    assert ' ' !in d;
    SplitAtFirstGlued(d, rest, ' ');
    var cut := SplitAtFirst(d + [' '] + rest, ' ');
    assert cut.0 == d && cut.1 == rest;
    assert d[0] != '0';
    DecimalRoundTrip(s);
  }

  /** Every status throwForStatus objects to has three digits, and the
      message spells them out before the class and the body. */
  lemma StatusMessageDigits(response: Response)
    requires ThrowForStatus(response).Some?
    ensures var s := response.statusCode;
      ThrowForStatus(response).value.message ==
        [DigitChar(s / 100), DigitChar(s / 10 % 10), DigitChar(s % 10)]
        + (if s < 500 then " Client Error: " else " Server Error: ") + response.body
  {
    ThreeDigits(response.statusCode);
  }
}
