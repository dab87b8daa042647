/** The replies of the control routes as `send_content` builds them, and the
    test the self-ping client applies to the reply it receives. */
module HttpReply {
  import opened Wrappers

  newtype byte = b: int | 0 <= b < 256

  /** b"pong", the body of the ping reply. */
  const PONG: seq<byte> := [0x70, 0x6F, 0x6E, 0x67]
  /** b"ok", the body of every other control reply. */
  const OK: seq<byte> := [0x6F, 0x6B]

  const STATUS_OK: int := 200
  const NO_CACHE: string := "max-age=0,no-cache"
  const TEXT_PLAIN: string := "text/plain"

  datatype Response = Response(status: int, headers: seq<(string, string)>, body: seq<byte>)

  /** The value of the first header called `name`, if there is one. */
  function HeaderValue(headers: seq<(string, string)>, name: string): (v: Option<string>)
    ensures v.Some? <==> exists i :: 0 <= i < |headers| && headers[i].0 == name
    decreases |headers|
  {
    if headers == [] then None
    else if headers[0].0 == name then Some(headers[0].1)
    else
      var v := HeaderValue(headers[1..], name);
      assert forall i :: 1 <= i < |headers| ==> headers[i] == headers[1..][i - 1];
      v
  }

  predicate IsDigit(c: char) { '0' <= c <= '9' }

  predicate AllDigits(s: string) { forall i :: 0 <= i < |s| ==> IsDigit(s[i]) }

  function DigitChar(d: nat): (c: char)
    requires d < 10
    ensures IsDigit(c) && c as int - '0' as int == d
  {
    ('0' as int + d) as char
  }

  /** Python's `str` of a non-negative int: decimal digits, no sign, and no
      leading zero except for zero itself. */
  function Decimal(n: nat): (s: string)
    ensures |s| > 0 && AllDigits(s)
    ensures s[0] == '0' <==> n == 0
  {
    if n < 10 then [DigitChar(n)] else Decimal(n / 10) + [DigitChar(n % 10)]
  }

  /** The number a string of decimal digits denotes. */
  function DigitsValue(s: string): nat
    requires AllDigits(s)
  {
    if s == [] then 0 else 10 * DigitsValue(s[..|s| - 1]) + (s[|s| - 1] as int - '0' as int)
  }

  /** Reading the decimal text back gives the number it was made from. */
  lemma {:induction false} DecimalRoundTrip(n: nat)
    ensures DigitsValue(Decimal(n)) == n
  {
    if n >= 10 {
      var s := Decimal(n);
      assert s[..|s| - 1] == Decimal(n / 10);
      DecimalRoundTrip(n / 10);
    }
  }

  /** Every canonical decimal text (non-empty, digits only, no leading zero
      unless it is "0") is the `str` of the number it denotes. */
  lemma {:induction false} DecimalOfDigitsValue(s: string)
    requires |s| > 0 && AllDigits(s) && (s[0] == '0' ==> |s| == 1)
    ensures Decimal(DigitsValue(s)) == s
    decreases |s|
  {
    var d := s[|s| - 1] as int - '0' as int;
    if |s| == 1 {
      assert DigitsValue(s) == d;
      assert [DigitChar(d)] == s;
    } else {
      var init := s[..|s| - 1];
      var m := DigitsValue(init);
      assert DigitsValue(s) == 10 * m + d;
      DecimalOfDigitsValue(init);
      assert m != 0 by {
        assert init[0] == s[0] != '0';
      }
      var n := 10 * m + d;
      assert n / 10 == m && n % 10 == d;
      assert Decimal(n) == Decimal(m) + [DigitChar(d)];
      assert init + [s[|s| - 1]] == s;
    }
  }

  /** `send_content`: status 200, no caching, the given content type, and a
      Content-Length that is `str` of the body's length, so it reads back as
      that length. */
  function SendContent(content: seq<byte>, mimeType: string): (r: Response)
    ensures r.status == STATUS_OK && r.body == content
    ensures |r.headers| == 3
    ensures HeaderValue(r.headers, "Cache-Control") == Some(NO_CACHE)
    ensures HeaderValue(r.headers, "Content-Type") == Some(mimeType)
    ensures HeaderValue(r.headers, "Content-Length") == Some(Decimal(|content|))
    ensures var len := HeaderValue(r.headers, "Content-Length").value;
      AllDigits(len) && DigitsValue(len) == |r.body|
  {
    var length := Decimal(|content|);
    var headers := [("Cache-Control", NO_CACHE), ("Content-Type", mimeType), ("Content-Length", length)];
    assert HeaderValue(headers[2..], "Content-Length") == Some(length);
    assert HeaderValue(headers[1..], "Content-Length") == Some(length);
    DecimalRoundTrip(|content|);
    Response(STATUS_OK, headers, content)
  }

  /** The self-ping client's success test: status 200 and body b"pong". */
  predicate PingSucceeded(r: Response) {
    r.status == STATUS_OK && r.body == PONG
  }
}
