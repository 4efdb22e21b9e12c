/**
  The JSON values the relay decodes from a message body, the text codec it
  uses (Python's json.loads and json.dumps, kept uninterpreted), and Python's
  str() of a decoded value, which the relay uses to build a storage key.
 */
module Json {
  import opened Wrappers

  /** A decoded JSON value, as json.loads returns it: dict, list, str, int,
      bool or None. JSON numbers are modelled as integers. */
  datatype JValue =
    | JNull
    | JBool(b: bool)
    | JNum(n: int)
    | JString(s: string)
    | JArray(items: seq<JValue>)
    | JObject(fields: map<string, JValue>)

  /** The library functions the relay calls but whose internals are not
      modelled: `decode` is json.loads (None stands for JSONDecodeError),
      `encode` is json.dumps, and `show` is Python's str() of a list or dict,
      whose text depends on the dict's insertion order. Each is a total,
      deterministic function of the decoded value. A JObject keeps no field
      order, so two texts that differ only in the order of their fields
      decode to the same value and are given the same encoding, whereas
      json.dumps writes a dict's fields back in the order json.loads read
      them. Beyond that, nothing is assumed about these functions. */
  datatype Codec = Codec(
    decode: string -> Option<JValue>,
    encode: JValue -> string,
    show: JValue -> string)

  /** json.loads(json.dumps(v)) == v for every value, which holds of Python's
      json module on the values modelled here (no floats). Only the lemmas
      that speak of re-reading a stored object assume it. */
  ghost predicate RoundTrips(c: Codec)
  {
    forall v: JValue :: c.decode(c.encode(v)) == Some(v)
  }

  predicate IsDigit(ch: char)
  {
    '0' <= ch <= '9'
  }

  predicate AllDigits(s: string)
  {
    forall i :: 0 <= i < |s| ==> IsDigit(s[i])
  }

  function DigitChar(d: nat): (ch: char)
    requires d < 10
    ensures IsDigit(ch) && ch as int - '0' as int == d
  {
    ('0' as int + d) as char
  }

  /** The decimal digits of n, most significant first, without leading zeros. */
  function NatToDecimal(n: nat): (s: string)
    ensures |s| >= 1 && AllDigits(s)
    ensures |s| > 1 ==> s[0] != '0'
    decreases n
  {
    if n < 10 then [DigitChar(n)] else NatToDecimal(n / 10) + [DigitChar(n % 10)]
  }

  /** The number a string of decimal digits denotes. */
  function DecimalValue(s: string): (r: nat)
    requires AllDigits(s)
    decreases |s|
  {
    if s == [] then 0
    else DecimalValue(s[..|s| - 1]) * 10 + (s[|s| - 1] as int - '0' as int)
  }

  /** Decimal digits as Python writes them: at least one, no leading zero. */
  predicate CanonicalDigits(t: string)
  {
    |t| >= 1 && AllDigits(t) && (|t| > 1 ==> t[0] != '0')
  }

  /** The text Python's str() gives an int: canonical digits, preceded by a
      minus sign exactly when the number is negative (so never "-0"). */
  predicate CanonicalInt(s: string)
  {
    if |s| > 0 && s[0] == '-' then CanonicalDigits(s[1..]) && s[1..] != "0"
    else CanonicalDigits(s)
  }

  /** Python's str() of an int. */
  function IntToStr(i: int): (r: string)
    ensures CanonicalInt(r) && ParseInt(r) == Some(i)
    ensures r[0] == '-' <==> i < 0
  {
    if i < 0 then
      DecimalRoundTrip(-i);
      var r := "-" + NatToDecimal(-i);
      assert r[1..] == NatToDecimal(-i);
      r
    else
      DecimalRoundTrip(i);
      NatToDecimal(i)
  }

  /** Reads back what IntToStr writes: the partner of IntToStr. */
  function ParseInt(s: string): (r: Option<int>)
  {
    if |s| > 1 && s[0] == '-' && AllDigits(s[1..]) then Some(0 - DecimalValue(s[1..]) as int)
    else if |s| > 0 && AllDigits(s) then Some(DecimalValue(s))
    else None
  }

  lemma {:induction false} DecimalRoundTrip(n: nat)
    ensures DecimalValue(NatToDecimal(n)) == n
    decreases n
  {
    if n >= 10 {
      DecimalRoundTrip(n / 10);
      var s := NatToDecimal(n);
      assert s[..|s| - 1] == NatToDecimal(n / 10);
    }
  }

  /** Distinct integer identities render to distinct strings. */
  lemma IntToStrInjective(i: int, j: int)
    requires IntToStr(i) == IntToStr(j)
    ensures i == j
  {
  }

  /** Canonical digits with a non-zero leading digit denote a positive number. */
  lemma {:induction false} LeadingDigitPositive(t: string)
    requires |t| >= 1 && AllDigits(t) && t[0] != '0'
    ensures DecimalValue(t) > 0
    decreases |t|
  {
    if |t| > 1 {
      var p := t[..|t| - 1];
      assert p[0] == t[0];
      LeadingDigitPositive(p);
    }
  }

  /** Canonical digits are the decimal text of the number they denote. */
  lemma {:induction false} CanonicalDigitsUnique(t: string)
    requires CanonicalDigits(t)
    ensures NatToDecimal(DecimalValue(t)) == t
    decreases |t|
  {
    if |t| > 1 {
      var p := t[..|t| - 1];
      assert p[0] == t[0];
      assert CanonicalDigits(p);
      LeadingDigitPositive(p);
      CanonicalDigitsUnique(p);
      var d := t[|t| - 1] as int - '0' as int;
      var n := DecimalValue(t);
      assert n == DecimalValue(p) * 10 + d && 0 <= d < 10;
      assert n / 10 == DecimalValue(p) && n % 10 == d;
      assert t == p + [t[|t| - 1]];
    }
  }

  /** The canonical text of an int is unique: any canonical text that reads
      back as i is exactly IntToStr(i). With IntToStr's contract this fixes
      the key an int identity gets. */
  lemma CanonicalIntUnique(s: string, i: int)
    requires CanonicalInt(s) && ParseInt(s) == Some(i)
    ensures s == IntToStr(i)
  {
    if |s| > 0 && s[0] == '-' {
      var t := s[1..];
      CanonicalDigitsUnique(t);
      if |t| == 1 {
        assert t[0] != '0';
      }
      LeadingDigitPositive(t);
      assert s == "-" + t;
    } else {
      CanonicalDigitsUnique(s);
    }
  }

  /** Python's str() of a decoded value: the text of a str itself, the
      decimal form of an int, "True"/"False" and "None" for the JSON
      literals, and the codec's rendering of a list or dict. */
  function PyStr(v: JValue, c: Codec): (r: string)
    ensures v.JString? ==> r == v.s
    ensures v.JNum? ==> CanonicalInt(r) && ParseInt(r) == Some(v.n)
    ensures v.JBool? ==> r == (if v.b then "True" else "False")
    ensures v.JNull? ==> r == "None"
  {
    match v
    case JString(s) => s
    case JNum(n) => IntToStr(n)
    case JBool(b) => if b then "True" else "False"
    case JNull => "None"
    case _ => c.show(v)
  }
}
