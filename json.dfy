/** The scalar JSON values that travel between the browser, the HTTP handlers
    and the configuration store, with the truthiness both Python and
    JavaScript give them. */
module Json {

  datatype Json = JNull | JBool(b: bool) | JInt(i: int) | JStr(s: string)

  /** `if value:` in Python and `if (value)` in JavaScript agree on these values:
      null, false, 0 and the empty string are falsy, everything else is truthy. */
  predicate Truthy(j: Json) {
    match j
    case JNull => false
    case JBool(b) => b
    case JInt(i) => i != 0
    case JStr(s) => s != ""
  }

  /** A JSON object, as a dictionary from key to value (a data source, a request body). */
  type Object = map<string, Json>

  /** Decimal rendering of an integer, as string interpolation prints it. */
  function IntToString(n: int): (r: string)
    ensures |r| > 0
    ensures n >= 0 ==> r[0] != '-'
    decreases if n < 0 then 1 - n else n
  {
    if n < 0 then "-" + IntToString(-n)
    else if n < 10 then [DigitChar(n)]
    else IntToString(n / 10) + [DigitChar(n % 10)]
  }

  function DigitChar(d: int): char
    requires 0 <= d < 10
  {
    "0123456789"[d]
  }
}
