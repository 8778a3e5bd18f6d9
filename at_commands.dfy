/**
 * The observable contract of the external AT-command builder and parser that the
 * socket commands are written against: bytes, decimal integers, the grammar of a
 * "set" command line, a builder that writes such a line into a caller's buffer,
 * and the parser steps that match a modem reply.
 */
module AtCommands {
  import opened Wrappers

  newtype u8 = x: int | 0 <= x < 0x100
  newtype u16 = x: int | 0 <= x < 0x1_0000
  newtype i32 = x: int | -0x8000_0000 <= x < 0x8000_0000

  const COMMA: u8 := 44
  const QUOTE: u8 := 34
  const MINUS: u8 := 45
  const EQUALS: u8 := 61
  const CR: u8 := 13
  const LF: u8 := 10
  const ZERO: u8 := 48

  /** The bytes of an ASCII string. */
  function Ascii(s: string): (r: seq<u8>)
    requires forall i :: 0 <= i < |s| ==> s[i] as int < 0x80
  {
    seq(|s|, i requires 0 <= i < |s| => s[i] as int as u8)
  }

  const AT: seq<u8> := [0x41, 0x54]  // "AT"
  const CRLF: seq<u8> := [CR, LF]

  // ---------------------------------------------------------------------------
  // Decimal integers

  predicate IsDigit(b: u8) { ZERO <= b <= ZERO + 9 }

  predicate AllDigits(s: seq<u8>) { forall i :: 0 <= i < |s| ==> IsDigit(s[i]) }

  /** The decimal digits of `n`, most significant first, without leading zeros. */
  function Digits(n: nat): (r: seq<u8>)
    decreases n
  {
    if n < 10 then [ZERO + n as u8] else Digits(n / 10) + [ZERO + (n % 10) as u8]
  }

  /** The number a string of decimal digits denotes. */
  function DigitsValue(s: seq<u8>): nat
    requires AllDigits(s)
    decreases |s|
  {
    if s == [] then 0 else DigitsValue(s[..|s| - 1]) * 10 + (s[|s| - 1] - ZERO) as nat
  }

  /** How an integer parameter is written: decimal ASCII, with a leading '-' when negative. */
  function Decimal(v: int): seq<u8>
  {
    if v < 0 then [MINUS] + Digits(-v) else Digits(v)
  }

  /** A byte that may occur in an integer field of a reply. */
  predicate IsIntChar(b: u8) { IsDigit(b) || b == MINUS }

  /** An integer as the reply parser reads it: an optional '-' and at least one digit. */
  predicate IntToken(t: seq<u8>)
  {
    (|t| >= 1 && AllDigits(t)) || (|t| >= 2 && t[0] == MINUS && AllDigits(t[1..]))
  }

  function TokenValue(t: seq<u8>): int
    requires IntToken(t)
  {
    if t[0] == MINUS then -(DigitsValue(t[1..]) as int) else DigitsValue(t)
  }

  /** Reads an integer field; it must be a well-formed token whose value fits in 32 bits. */
  function ParseInt(t: seq<u8>): Option<i32>
  {
    if IntToken(t) && -0x8000_0000 <= TokenValue(t) < 0x8000_0000
    then Some(TokenValue(t) as i32)
    else None
  }

  /** Reading back the digits of `n` gives `n`; only zero itself starts with a `0`. */
  lemma {:induction false} DigitsRoundTrip(n: nat)
    ensures |Digits(n)| >= 1 && AllDigits(Digits(n))
    ensures Digits(n)[0] != ZERO || n == 0
    ensures DigitsValue(Digits(n)) == n
    decreases n
  {
    if n >= 10 {
      DigitsRoundTrip(n / 10);
      var d := Digits(n);
      assert d[..|d| - 1] == Digits(n / 10);
      assert d[0] == Digits(n / 10)[0];
    }
  }

  /** A digit string whose first digit is not zero denotes a positive number. */
  lemma {:induction false} LeadingDigitPositive(s: seq<u8>)
    requires |s| >= 1 && AllDigits(s) && s[0] != ZERO
    ensures DigitsValue(s) >= 1
    decreases |s|
  {
    if |s| > 1 {
      LeadingDigitPositive(s[..|s| - 1]);
    }
  }

  /** Writing out the number a digit string without leading zeros denotes gives that string back. */
  lemma {:induction false} DigitsOfValue(s: seq<u8>)
    requires |s| >= 1 && AllDigits(s) && (s[0] != ZERO || |s| == 1)
    ensures Digits(DigitsValue(s)) == s
    decreases |s|
  {
    var n := DigitsValue(s);
    if |s| > 1 {
      var front := s[..|s| - 1];
      LeadingDigitPositive(front);
      DigitsOfValue(front);
      assert n / 10 == DigitsValue(front) && n % 10 == (s[|s| - 1] - ZERO) as nat;
      assert s == front + [s[|s| - 1]];
    }
  }

  function Pow10(k: nat): nat
  {
    if k == 0 then 1 else 10 * Pow10(k - 1)
  }

  lemma {:induction false} Pow10Monotone(j: nat, k: nat)
    requires j <= k
    ensures Pow10(j) <= Pow10(k)
    decreases k
  {
    if j < k {
      Pow10Monotone(j, k - 1);
    }
  }

  /** A string of `k` digits denotes a number below 10 to the `k`. */
  lemma {:induction false} DigitsValueBound(s: seq<u8>)
    requires AllDigits(s)
    ensures DigitsValue(s) < Pow10(|s|)
    decreases |s|
  {
    if s != [] {
      DigitsValueBound(s[..|s| - 1]);
    }
  }

  /**
   * Every string of one to nine digits fits in 32 bits, so the integer parser accepts it,
   * leading zeros included, and yields the number it denotes.
   */
  lemma ParseIntShortDigits(t: seq<u8>)
    requires 1 <= |t| <= 9 && AllDigits(t)
    ensures ParseInt(t).Some? && ParseInt(t).value as int == DigitsValue(t)
  {
    DigitsValueBound(t);
    Pow10Monotone(|t|, 9);
    assert Pow10(9) == 1_000_000_000;
  }

  /**
   * A token in the form integers are written in: no leading zero, and no `-0`.
   */
  predicate CanonicalToken(t: seq<u8>)
  {
    IntToken(t) &&
    if t[0] == MINUS then t[1] != ZERO else t[0] != ZERO || |t| == 1
  }

  /** Every 32-bit integer written as a parameter reads back as itself. */
  lemma DecimalRoundTrip(i: i32)
    ensures CanonicalToken(Decimal(i as int))
    ensures ParseInt(Decimal(i as int)) == Some(i)
  {
    if i < 0 {
      DigitsRoundTrip(-(i as int));
      assert Decimal(i as int)[1..] == Digits(-(i as int));
    } else {
      DigitsRoundTrip(i as int);
    }
  }

  /**
   * Conversely, every canonical token the integer parser accepts is exactly how its value
   * is written, so writing and parsing are inverse bijections between the 32-bit integers
   * and the canonical tokens in range.
   */
  lemma ParseIntCanonical(t: seq<u8>)
    requires CanonicalToken(t)
    ensures ParseInt(t).Some? ==> Decimal(ParseInt(t).value as int) == t
  {
    if t[0] == MINUS {
      DigitsOfValue(t[1..]);
      LeadingDigitPositive(t[1..]);
      assert t == [MINUS] + t[1..];
    } else {
      DigitsOfValue(t);
    }
  }

  // ---------------------------------------------------------------------------
  // Command lines

  /** One parameter of a command: an integer, a quoted string, or raw bytes. */
  datatype Param = Int(i: i32) | Str(s: seq<u8>) | Raw(data: seq<u8>)

  /**
   * How one parameter is written. Strings are wrapped in double quotes with no escaping
   * (the strings used here need none); raw parameters are written verbatim.
   */
  function ParamBytes(p: Param): seq<u8>
  {
    match p
    case Int(i) => Decimal(i as int)
    case Str(s) => [QUOTE] + s + [QUOTE]
    case Raw(data) => data
  }

  /** The parameters separated by commas, with no comma before the first or after the last. */
  function JoinParams(ps: seq<Param>): seq<u8>
    decreases |ps|
  {
    if |ps| == 0 then []
    else if |ps| == 1 then ParamBytes(ps[0])
    else ParamBytes(ps[0]) + [COMMA] + JoinParams(ps[1..])
  }

  /** A complete "set" command: `AT`, the name, `=`, the parameters, then CR LF. */
  function CommandLine(name: seq<u8>, ps: seq<Param>): seq<u8>
  {
    AT + name + [EQUALS] + JoinParams(ps) + CRLF
  }

  /** Appending a parameter adds exactly one comma and that parameter's bytes. */
  lemma {:induction false} JoinParamsSnoc(ps: seq<Param>, p: Param)
    requires |ps| >= 1
    ensures JoinParams(ps + [p]) == JoinParams(ps) + [COMMA] + ParamBytes(p)
    decreases |ps|
  {
    if |ps| == 1 {
      assert (ps + [p])[1..] == [p];
    } else {
      assert (ps + [p])[1..] == ps[1..] + [p];
      JoinParamsSnoc(ps[1..], p);
      var a, b, c := ParamBytes(ps[0]), JoinParams(ps[1..]), ParamBytes(p);
      assert a + [COMMA] + (b + [COMMA] + c) == (a + [COMMA] + b) + [COMMA] + c;
    }
  }

  /** Appending a parameter to a command turns its CR LF into `,<parameter>` CR LF. */
  lemma CommandLineSnoc(name: seq<u8>, ps: seq<Param>, p: Param)
    requires |ps| >= 1
    ensures var line := CommandLine(name, ps);
      |line| >= 2 && CommandLine(name, ps + [p]) == line[..|line| - 2] + [COMMA] + ParamBytes(p) + CRLF
  {
    JoinParamsSnoc(ps, p);
    var header, joined, more := AT + name + [EQUALS], JoinParams(ps), ParamBytes(p);
    assert header + (joined + [COMMA] + more) + CRLF == (header + joined + CRLF)[..|header + joined|] + [COMMA] + more + CRLF by {
      assert (header + joined + CRLF)[..|header + joined|] == header + joined;
    }
  }

  /**
   * What the builder leaves behind once it finishes: when the line fits, the line
   * occupies the front of the buffer, the rest is untouched and its length is returned;
   * otherwise the buffer is untouched and the length the line needs is returned.
   */
  ghost predicate Finished(line: seq<u8>, before: seq<u8>, after: seq<u8>, r: Result<nat, nat>)
  {
    && |after| == |before|
    && (r.Success? <==> |line| <= |before|)
    && (r.Success? ==> r.value == |line| && after[..|line|] == line && after[|line|..] == before[|line|..])
    && (r.Failure? ==> r.error == |line| && after == before)
  }

  /**
   * The builder of a "set" command with the `AT` prefix: it collects a name and
   * parameters and, on Finish, writes the command line into the caller's buffer.
   */
  class CommandBuilder {
    const buffer: array<u8>
    var name: seq<u8>
    var params: seq<Param>

    /** The command line the builder will write. */
    function Line(): seq<u8>
      reads this
    {
      CommandLine(name, params)
    }

    constructor CreateSet(buffer: array<u8>)
      ensures this.buffer == buffer && name == [] && params == []
    {
      this.buffer := buffer;
      name := [];
      params := [];
    }

    method Named(name: seq<u8>)
      modifies this
      ensures this.name == name && params == old(params)
    {
      this.name := name;
    }

    method WithIntParameter(i: i32)
      modifies this
      ensures name == old(name) && params == old(params) + [Int(i)]
    {
      params := params + [Int(i)];
    }

    method WithStringParameter(s: seq<u8>)
      modifies this
      ensures name == old(name) && params == old(params) + [Str(s)]
    {
      params := params + [Str(s)];
    }

    method WithRawParameter(data: seq<u8>)
      modifies this
      ensures name == old(name) && params == old(params) + [Raw(data)]
    {
      params := params + [Raw(data)];
    }

    /** Writes the command line into the buffer when it fits, and reports its length. */
    method Finish() returns (r: Result<nat, nat>)
      modifies buffer
      ensures Finished(Line(), old(buffer[..]), buffer[..], r)
    {
      var line := CommandLine(name, params);
      if |line| > buffer.Length {
        return Failure(|line|);
      }
      var i := 0;
      while i < |line|
        invariant 0 <= i <= |line|
        invariant forall k :: 0 <= k < i ==> buffer[k] == line[k]
        invariant forall k :: i <= k < buffer.Length ==> buffer[k] == old(buffer[k])
      {
        buffer[i] := line[i];
        i := i + 1;
      }
      assert buffer[..|line|] == line;
      return Success(|line|);
    }
  }

  // ---------------------------------------------------------------------------
  // Reply parser steps

  /** Matches a literal at the front of the input and yields what follows it. */
  function ExpectIdentifier(input: seq<u8>, identifier: seq<u8>): (r: Option<seq<u8>>)
    ensures r.Some? <==> |identifier| <= |input| && input[..|identifier|] == identifier
    ensures r.Some? ==> input == identifier + r.value
  {
    if |identifier| <= |input| && input[..|identifier|] == identifier
    then Some(input[|identifier|..])
    else None
  }

  /** The length of the longest run of integer bytes at the front of `s`. */
  function IntRunLength(s: seq<u8>): (k: nat)
    ensures k <= |s|
    ensures forall i :: 0 <= i < k ==> IsIntChar(s[i])
    ensures k < |s| ==> !IsIntChar(s[k])
    decreases |s|
  {
    if s == [] || !IsIntChar(s[0]) then 0 else 1 + IntRunLength(s[1..])
  }

  /**
   * Reads an integer at the front of the input: the longest run of integer bytes must
   * form a token that fits in 32 bits; yields the value and what follows the run.
   */
  function ExpectIntParameter(input: seq<u8>): Option<(i32, seq<u8>)>
  {
    var k := IntRunLength(input);
    var i :- ParseInt(input[..k]);
    Some((i, input[k..]))
  }

  /** The parse succeeds only when the whole input has been consumed. */
  function Finish<T>(rest: seq<u8>, value: T): Option<T>
  {
    if rest == [] then Some(value) else None
  }
}
