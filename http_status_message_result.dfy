/**
 * `HttpStatusMessageResult`: an HTTP status code with a plain-text body
 * holding the code and its reason phrase. Only 404 and 500 are known; the
 * source throws for any other code, which is modelled as a precondition.
 */
module HttpStatusMessageResult {
  import opened Strings

  /** The object result: its `StatusCode` and its body value. */
  datatype HttpStatusMessageResult = HttpStatusMessageResult(statusCode: int, value: string)

  /** The codes `GetStatusCodeMessage` has a message for. */
  predicate IsKnownStatusCode(statusCode: int) {
    statusCode == 404 || statusCode == 500
  }

  /** The decimal digits of `n`, most significant first. */
  function DecimalString(n: nat): (s: string)
    ensures |s| >= 1
    ensures forall k :: 0 <= k < |s| ==> '0' <= s[k] <= '9'
  {
    if n < 10 then [(48 + n) as char]
    else DecimalString(n / 10) + [(48 + n % 10) as char]
  }

  /** The number a string of decimal digits stands for, most significant first. */
  function DigitsValue(s: string): nat
    requires forall k :: 0 <= k < |s| ==> '0' <= s[k] <= '9'
  {
    if s == [] then 0 else DigitsValue(s[..|s| - 1]) * 10 + (s[|s| - 1] as int - 48)
  }

  /** Reading the decimal rendering of `n` back gives `n`. */
  lemma {:induction false} DecimalStringValue(n: nat)
    ensures DigitsValue(DecimalString(n)) == n
  {
    if n >= 10 {
      var s := DecimalString(n);
      assert s[..|s| - 1] == DecimalString(n / 10);
      DecimalStringValue(n / 10);
    }
  }

  /** The decimal strings of the two known codes. */
  lemma DecimalStringOfKnownCodes()
    ensures DecimalString(404) == "404"
    ensures DecimalString(500) == "500"
  {
  }

  /** The message body for a known status code. */
  function GetStatusCodeMessage(statusCode: int): (message: string)
    requires IsKnownStatusCode(statusCode)
    ensures statusCode == 404 ==> message == "404 Not Found"
    ensures statusCode == 500 ==> message == "500 Internal Server Error"
    ensures StartsWith(message, DecimalString(statusCode) + " ")
  {
    DecimalStringOfKnownCodes();
    match statusCode
    case 404 => "404 Not Found"
    case 500 => "500 Internal Server Error"
  }

  /** The constructor: sets `StatusCode` and uses the mapped message as the body. */
  function NewHttpStatusMessageResult(statusCode: int): (r: HttpStatusMessageResult)
    requires IsKnownStatusCode(statusCode)
    ensures r.statusCode == statusCode
    ensures r.value == GetStatusCodeMessage(statusCode)
  {
    HttpStatusMessageResult(statusCode, GetStatusCodeMessage(statusCode))
  }
}
