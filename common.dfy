/** Values shared by the backend and the frontend model: optional values, results,
    JavaScript truthiness of the fields the services test with `!x`, and the decimal
    spelling of integer ids (`String(id)` on one side, `parseInt` on the other). */
module Common {

  datatype Option<+T> = None | Some(value: T)

  datatype Result<+T, +E> = Ok(value: T) | Err(error: E)

  /** A JavaScript string field that may be `undefined`/`null` (None) is truthy
      exactly when it is present and not the empty string. */
  predicate TruthyString(s: Option<string>)
  {
    s.Some? && s.value != ""
  }

  /** A numeric field is truthy when present and non-zero (NaN is not modelled). */
  predicate TruthyInt(n: Option<int>)
  {
    n.Some? && n.value != 0
  }

  /** A thrown JavaScript error: its `name` ("Error", "TypeError", ...) and `message`. */
  datatype Exception = Exception(name: string, message: string)

  /** `String(e)` of an error: its name, then ": " and its message when there is one. */
  function ErrorString(e: Exception): string
  {
    if e.message == "" then e.name else e.name + ": " + e.message
  }

  /** `new Error(e)` built from a caught error `e`: the constructor turns its argument
      into a string, so the new message starts with the old error's name. */
  function Rewrap(e: Exception): (r: Exception)
    ensures r.name == "Error"
    ensures |r.message| >= |e.name| && r.message[..|e.name|] == e.name
  {
    Exception("Error", ErrorString(e))
  }

  /** `new Error(message)`. */
  function Error(message: string): Exception
  {
    Exception("Error", message)
  }

  /** `a ?? b`: the left operand unless it is `null`/`undefined`. */
  function Coalesce<T>(a: Option<T>, b: T): (r: T)
    ensures a.Some? ==> r == a.value
    ensures a.None? ==> r == b
  {
    if a.Some? then a.value else b
  }

  function DigitChar(d: nat): (c: char)
    requires d < 10
    ensures '0' <= c <= '9'
  {
    "0123456789"[d]
  }

  predicate IsDigit(c: char)
  {
    '0' <= c <= '9'
  }

  /** The decimal digits of a natural number, most significant first, no leading zeros. */
  function NatToDecimal(n: nat): (s: string)
    ensures |s| > 0
    ensures forall i :: 0 <= i < |s| ==> IsDigit(s[i])
    ensures |s| > 1 ==> s[0] != '0'
    decreases n
  {
    if n < 10 then [DigitChar(n)] else NatToDecimal(n / 10) + [DigitChar(n % 10)]
  }

  /** `String(n)` for an integer `n`. */
  function IntToString(n: int): (s: string)
    ensures |s| > 0
    ensures n < 0 <==> s[0] == '-'
  {
    if n < 0 then "-" + NatToDecimal(-n) else NatToDecimal(n)
  }

  /** The value of a non-empty string of decimal digits. */
  function DigitsValue(s: string): (n: nat)
    requires |s| > 0
    requires forall i :: 0 <= i < |s| ==> IsDigit(s[i])
    decreases |s|
  {
    assert IsDigit(s[|s| - 1]);
    var last := (s[|s| - 1] as int - '0' as int) as nat;
    if |s| == 1 then last else DigitsValue(s[..|s| - 1]) * 10 + last
  }

  /** `parseInt(s, 10)` restricted to what an id string can hold: an optional minus
      sign followed by at least one digit and nothing else; anything else is NaN. */
  function ParseDecimal(s: string): Option<int>
  {
    if |s| > 0 && s[0] == '-' then
      var t := s[1..];
      if |t| > 0 && forall i :: 0 <= i < |t| ==> IsDigit(t[i]) then Some(0 - DigitsValue(t)) else None
    else if |s| > 0 && forall i :: 0 <= i < |s| ==> IsDigit(s[i]) then Some(DigitsValue(s) as int)
    else None
  }

  lemma {:induction false} NatDecimalRoundTrip(n: nat)
    ensures DigitsValue(NatToDecimal(n)) == n
    decreases n
  {
    if n >= 10 {
      var s := NatToDecimal(n);
      var p := NatToDecimal(n / 10);
      assert s == p + [DigitChar(n % 10)];
      assert s[..|s| - 1] == p;
      NatDecimalRoundTrip(n / 10);
    }
  }

  lemma ParseDigits(t: string)
    requires |t| > 0 && forall i :: 0 <= i < |t| ==> IsDigit(t[i])
    ensures ParseDecimal(t) == Some(DigitsValue(t) as int)
  {
    assert t[0] != '-';
  }

  lemma ParseNegative(t: string)
    requires |t| > 0 && forall i :: 0 <= i < |t| ==> IsDigit(t[i])
    ensures ParseDecimal("-" + t) == Some(0 - DigitsValue(t))
  {
    var s := "-" + t;
    assert s[1..] == t;
  }

  /** Parsing the decimal spelling of an integer gives the integer back: an id that
      the dashboard turned into a string reaches the backend unchanged. */
  lemma IntStringRoundTrip(n: int)
    ensures ParseDecimal(IntToString(n)) == Some(n)
  {
    if n < 0 {
      var m: nat := -n;
      var t := NatToDecimal(m);
      assert IntToString(n) == "-" + t;
      ParseNegative(t);
      NatDecimalRoundTrip(m);
      assert DigitsValue(t) == m;
    } else {
      var m: nat := n;
      var t := NatToDecimal(m);
      assert IntToString(n) == t;
      ParseDigits(t);
      NatDecimalRoundTrip(m);
      assert DigitsValue(t) == m;
    }
  }

  /** Distinct ids have distinct decimal spellings. */
  lemma IntToStringInjective(a: int, b: int)
    requires IntToString(a) == IntToString(b)
    ensures a == b
  {
    IntStringRoundTrip(a);
    IntStringRoundTrip(b);
  }
}

/** What the database itself does with the values a query binds: NULL handling of
    parameters and the NOT NULL / DEFAULT rules of a column. */
module Postgres {
  import opened Common

  /** What an INSERT says about one column: not named (the default applies), named
      with NULL (JavaScript `undefined` or `null` bound as a parameter), or a value. */
  datatype Column<+T> = Omitted | Null | Value(v: T)

  /** An error the database raises: a NOT NULL column given NULL, or a negative
      LIMIT or OFFSET of a SELECT. */
  datatype DbError = NotNullViolation(table: string, column: string) | NegativeLimit | NegativeOffset

  /** The text PostgreSQL gives the error (the JavaScript `error.message`). */
  function DbErrorText(e: DbError): string
  {
    match e
    case NotNullViolation(table, column) =>
      "null value in column \"" + column + "\" of relation \"" + table + "\" violates not-null constraint"
    case NegativeLimit => "LIMIT must not be negative"
    case NegativeOffset => "OFFSET must not be negative"
  }

  /** The error object the driver throws for it (its name is "error"). */
  function DbException(e: DbError): Exception
  {
    Exception("error", DbErrorText(e))
  }

  /** A JavaScript parameter bound into a query: `undefined` becomes NULL. */
  function Bind<T>(x: Option<T>): (c: Column<T>)
    ensures x.None? <==> c.Null?
    ensures x.Some? ==> c == Value(x.value)
  {
    if x.Some? then Value(x.value) else Null
  }

  /** A NOT NULL column without a default: it must be named with a value. */
  function Required<T>(c: Column<T>, table: string, column: string): (r: Result<T, DbError>)
    ensures r.Ok? <==> c.Value?
    ensures r.Ok? ==> r.value == c.v
    ensures r.Err? ==> r.error == NotNullViolation(table, column)
  {
    if c.Value? then Ok(c.v) else Err(NotNullViolation(table, column))
  }

  /** A NOT NULL column with a default: omitting it gives the default, NULL fails. */
  function Defaulted<T>(c: Column<T>, default: T, table: string, column: string): (r: Result<T, DbError>)
    ensures r.Ok? <==> !c.Null?
    ensures c.Omitted? ==> r == Ok(default)
    ensures c.Value? ==> r == Ok(c.v)
    ensures c.Null? ==> r.Err? && r.error == NotNullViolation(table, column)
  {
    match c
    case Omitted => Ok(default)
    case Null => Err(NotNullViolation(table, column))
    case Value(v) => Ok(v)
  }

  /** `LIMIT limit OFFSET offset` over the rows `s` in the order the query produces:
      PostgreSQL rejects a negative OFFSET first, then a negative LIMIT; otherwise
      the result skips `offset` rows and keeps at most `limit` of the rest. */
  function LimitOffset<T>(s: seq<T>, limit: int, offset: int): (r: Result<seq<T>, DbError>)
    ensures offset < 0 ==> r == Err(NegativeOffset)
    ensures offset >= 0 && limit < 0 ==> r == Err(NegativeLimit)
    ensures offset >= 0 && limit >= 0 ==> r.Ok?
    ensures r.Ok? ==> |r.value| <= limit && |r.value| == (if |s| <= offset then 0 else if |s| - offset < limit then |s| - offset else limit)
    ensures r.Ok? ==> forall i :: 0 <= i < |r.value| ==> r.value[i] == s[offset + i]
  {
    if offset < 0 then Err(NegativeOffset)
    else if limit < 0 then Err(NegativeLimit)
    else if |s| <= offset then Ok([])
    else if |s| - offset < limit then Ok(s[offset..])
    else Ok(s[offset..offset + limit])
  }
}
