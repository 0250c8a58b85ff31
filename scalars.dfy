/** The custom `int64` scalar: how values are serialised to clients and
    how client input, either as a variable value or as a literal in the
    query text, becomes a 64-bit integer. */
module Int64Scalar {
  import opened Wrappers

  newtype int64 = x: int | -0x8000_0000_0000_0000 <= x < 0x8000_0000_0000_0000

  /** The dynamically typed values the scalar's functions receive; a
      pointer is `None` when it is nil. */
  datatype GoValue =
    | Int64Val(i: int64)
    | Int64Ptr(ip: Option<int64>)
    | StringVal(s: string)
    | StringPtr(sp: Option<string>)
    | OtherValue(typeName: string)

  /** Literal nodes of the query syntax tree. */
  datatype AstValue =
    | IntValue(text: string)
    | FloatValue(text: string)
    | StringValue(text: string)
    | BooleanValue(b: bool)
    | EnumValue(text: string)
    | ListValue(values: seq<AstValue>)
    | ObjectValue(fieldNames: seq<string>)
    | Variable(name: string)

  predicate IsDigit(c: char) { '0' <= c <= '9' }

  predicate AllDigits(s: string) {
    forall k :: 0 <= k < |s| ==> IsDigit(s[k])
  }

  /** The number a string of decimal digits denotes. */
  function DigitsValue(s: string): nat
    requires AllDigits(s)
  {
    if s == [] then 0
    else DigitsValue(s[..|s| - 1]) * 10 + (s[|s| - 1] as int - '0' as int)
  }

  /** Base-10 parsing into 64 bits (Go's `strconv.ParseInt(s, 10, 64)`):
      an optional sign, then at least one decimal digit and nothing else;
      `None` for a syntax error and for a value outside the 64-bit range. */
  function ParseInt(s: string): (r: Option<int64>)
    ensures r.Some? ==> s != [] && (r.value < 0 ==> s[0] == '-')
  {
    if s == [] then None
    else
      var neg := s[0] == '-';
      var digits := if s[0] == '+' || s[0] == '-' then s[1..] else s;
      if digits == [] || !AllDigits(digits) then None
      else
        var v: int := if neg then 0 - DigitsValue(digits) else DigitsValue(digits);
        if -0x8000_0000_0000_0000 <= v < 0x8000_0000_0000_0000 then Some(v as int64) else None
  }

  /** Base-10 rendering without leading zeros (Go's `strconv.FormatInt(n, 10)`). */
  function DigitsOf(u: nat): (s: string)
    ensures s != [] && AllDigits(s)
  {
    if u < 10 then [('0' as int + u) as char]
    else DigitsOf(u / 10) + [('0' as int + u % 10) as char]
  }

  function FormatInt(n: int64): string {
    if n < 0 then "-" + DigitsOf(-(n as int)) else DigitsOf(n as int)
  }

  lemma {:induction false} DigitsRoundTrip(u: nat)
    ensures DigitsValue(DigitsOf(u)) == u
  {
    var s := DigitsOf(u);
    if u >= 10 {
      DigitsRoundTrip(u / 10);
      assert s[..|s| - 1] == DigitsOf(u / 10);
    }
  }

  /** Parsing the base-10 rendering of any 64-bit integer gives it back. */
  lemma ParseFormatRoundTrip(n: int64)
    ensures ParseInt(FormatInt(n)) == Some(n)
  {
    var u := if n < 0 then -(n as int) else n as int;
    DigitsRoundTrip(u);
    var d := DigitsOf(u);
    if n < 0 {
      assert FormatInt(n)[1..] == d;
    } else {
      assert IsDigit(d[0]);
    }
  }

  /** A string of digits with a leading '+' parses like the digits alone. */
  lemma PlusSignIgnored(s: string)
    requires s != [] && s[0] != '+' && s[0] != '-'
    ensures ParseInt("+" + s) == ParseInt(s)
  {
    assert ("+" + s)[1..] == s;
  }

  /** `Serialize`: an int64 is returned as it is, a pointer to one is
      dereferenced, anything else panics. */
  function Serialize(v: GoValue): (r: Result<int64>)
    ensures r.Ok? <==> v.Int64Val? || (v.Int64Ptr? && v.ip.Some?)
    ensures v.Int64Val? ==> r == Ok(v.i)
    ensures v.Int64Ptr? && v.ip.Some? ==> r == Ok(v.ip.value)
  {
    match v
    case Int64Ptr(p) => if p.Some? then Ok(p.value) else Panic("nil pointer dereference")
    case Int64Val(i) => Ok(i)
    case _ => Panic("Value is not int64")
  }

  function ParseText(s: string): (r: Result<int64>)
    ensures r.Ok? <==> ParseInt(s).Some?
    ensures r.Ok? ==> r.value == ParseInt(s).value
  {
    match ParseInt(s)
    case Some(i) => Ok(i)
    case None => Panic("Cannot convert " + s + " to int64")
  }

  /** `ParseValue`: int64 values and pointers to them as in `Serialize`;
      a string, or a pointer to one, is parsed as base-10; any other value,
      and text that does not parse, panics. */
  function ParseValue(v: GoValue): (r: Result<int64>)
    ensures v.Int64Val? || v.Int64Ptr? ==> r == Serialize(v)
    ensures v.StringVal? ==> r == ParseText(v.s)
    ensures v.StringPtr? && v.sp.Some? ==> r == ParseText(v.sp.value)
    ensures v.OtherValue? || v == StringPtr(None) ==> r.Panic?
  {
    match v
    case Int64Ptr(p) => if p.Some? then Ok(p.value) else Panic("nil pointer dereference")
    case Int64Val(i) => Ok(i)
    case StringPtr(p) => if p.Some? then ParseText(p.value) else Panic("nil pointer dereference")
    case StringVal(s) => ParseText(s)
    case OtherValue(_) => Panic("Value is not int64")
  }

  /** `ParseLiteral`: an integer literal is parsed as base-10 (panicking if
      it does not fit); every other node, a string literal included, gives nil. */
  function ParseLiteral(ast: AstValue): (r: Result<Option<int64>>)
    ensures ast.IntValue? ==> (r.Ok? <==> ParseInt(ast.text).Some?)
    ensures ast.IntValue? && r.Ok? ==> r.value == Some(ParseInt(ast.text).value)
    ensures !ast.IntValue? ==> r == Ok(None)
  {
    match ast
    case IntValue(text) =>
      (match ParseInt(text)
       case Some(i) => Ok(Some(i))
       case None => Panic("invalid syntax or value out of range"))
    case _ => Ok(None)
  }

  /** A value rendered in base 10 and sent back as a string variable or as
      an integer literal comes back unchanged. */
  lemma ParseRendered(n: int64)
    ensures ParseValue(StringVal(FormatInt(n))) == Ok(n)
    ensures ParseLiteral(IntValue(FormatInt(n))) == Ok(Some(n))
    ensures Serialize(Int64Val(n)) == Ok(n)
  {
    ParseFormatRoundTrip(n);
  }

  /** The range check: the most negative 64-bit value parses, and any
      magnitude beyond the range in either direction does not. */
  lemma RangeLimits(u: nat)
    ensures u == 0x8000_0000_0000_0000 ==> ParseInt("-" + DigitsOf(u)) == Some(-0x8000_0000_0000_0000)
    ensures u >= 0x8000_0000_0000_0000 ==> ParseInt(DigitsOf(u)) == None
    ensures u > 0x8000_0000_0000_0000 ==> ParseInt("-" + DigitsOf(u)) == None
  {
    DigitsRoundTrip(u);
    var d := DigitsOf(u);
    assert ("-" + d)[1..] == d;
    assert IsDigit(d[0]);
  }
}
