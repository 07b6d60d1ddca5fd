/** How the configuration file writes values as text and reads them back: Go's string
    quoting, decimal integers, and the quote-aware scans for comments and commas. */
module ConfigText {
  import opened Wrappers
  import Text

  // ---------------------------------------------------------------- hex digits

  function HexDigit(d: nat): char
    requires d < 16
  {
    if d < 10 then ('0' as int + d) as char else ('a' as int + d - 10) as char
  }

  function HexValue(c: char): Option<nat> {
    if '0' <= c <= '9' then Some(c as int - '0' as int)
    else if 'a' <= c <= 'f' then Some(c as int - 'a' as int + 10)
    else if 'A' <= c <= 'F' then Some(c as int - 'A' as int + 10)
    else None
  }

  /** `n` in exactly `k` hexadecimal digits. */
  function Hex(n: nat, k: nat): (s: string)
    ensures |s| == k
  {
    if k == 0 then "" else Hex(n / 16, k - 1) + [HexDigit(n % 16)]
  }

  function ParseHex(s: string): Option<nat> {
    if s == "" then Some(0)
    else
      var high, low := ParseHex(s[..|s| - 1]), HexValue(s[|s| - 1]);
      if high.None? || low.None? then None else Some(high.value * 16 + low.value)
  }

  function Power16(k: nat): nat {
    if k == 0 then 1 else 16 * Power16(k - 1)
  }

  lemma {:induction false} HexRoundTrip(n: nat, k: nat)
    requires n < Power16(k)
    ensures ParseHex(Hex(n, k)) == Some(n)
    ensures forall c :: c in Hex(n, k) ==> HexValue(c).Some?
  {
    if k > 0 {
      HexRoundTrip(n / 16, k - 1);
      assert Hex(n, k)[..k - 1] == Hex(n / 16, k - 1);
    }
  }

  // ------------------------------------------------------------------- quoting

  /** Which characters beyond ASCII are written as themselves. The program uses Go's table; any table does. */
  type Table = char -> bool

  predicate Prints(c: char, table: Table) {
    ' ' <= c <= '~' || (c > '\U{7F}' && table(c))
  }

  /** The letter that stands for a control character. */
  function Letter(c: char): Option<char> {
    if c == '\U{7}' then Some('a')
    else if c == '\U{8}' then Some('b')
    else if c == '\U{C}' then Some('f')
    else if c == '\n' then Some('n')
    else if c == '\r' then Some('r')
    else if c == '\t' then Some('t')
    else if c == '\U{B}' then Some('v')
    else None
  }

  function Control(letter: char): Option<char> {
    if letter == 'a' then Some('\U{7}')
    else if letter == 'b' then Some('\U{8}')
    else if letter == 'f' then Some('\U{C}')
    else if letter == 'n' then Some('\n')
    else if letter == 'r' then Some('\r')
    else if letter == 't' then Some('\t')
    else if letter == 'v' then Some('\U{B}')
    else None
  }

  /** One character as `strconv.Quote` writes it. */
  function Escape(c: char, table: Table): (s: string)
    ensures s != ""
  {
    if c == '"' || c == '\\' then ['\\', c]
    else if Prints(c, table) then [c]
    else if Letter(c).Some? then ['\\', Letter(c).value]
    else if c < ' ' || c == '\U{7F}' then "\\x" + Hex(c as int, 2)
    else if c as int < 0x10000 then "\\u" + Hex(c as int, 4)
    else "\\U" + Hex(c as int, 8)
  }

  function QuoteBody(s: string, table: Table): string {
    if s == "" then "" else Escape(s[0], table) + QuoteBody(s[1..], table)
  }

  /** `strconv.Quote` */
  function Quote(s: string, table: Table): string {
    "\"" + QuoteBody(s, table) + "\""
  }

  predicate IsRune(n: nat) {
    n < 0xD800 || 0xE000 <= n < 0x110000
  }

  /** The digits of a numeric escape. */
  function Numeric(s: string, k: nat): Option<char> {
    if |s| < 2 + k then None
    else
      var n := ParseHex(s[2..2 + k]);
      if n.None? || !IsRune(n.value) || (k == 2 && n.value >= 0x80) then None else Some(n.value as char)
  }

  function OctalValue(c: char): Option<nat> {
    if '0' <= c <= '7' then Some(c as int - '0' as int) else None
  }

  function Octal(s: string): Option<char> {
    if |s| < 4 then None
    else
      var a, b, c := OctalValue(s[1]), OctalValue(s[2]), OctalValue(s[3]);
      if a.None? || b.None? || c.None? || a.value * 64 + b.value * 8 + c.value >= 0x80 then None
      else Some((a.value * 64 + b.value * 8 + c.value) as char)
  }

  /** The character an escape sequence stands for, and the sequence's length. Escapes of
      single bytes beyond ASCII are outside this model. */
  function Unescape(s: string): Option<(char, nat)>
    requires |s| > 0 && s[0] == '\\'
  {
    if |s| == 1 then None
    else if Control(s[1]).Some? then Some((Control(s[1]).value, 2))
    else if s[1] == '\\' || s[1] == '"' then Some((s[1], 2))
    else if s[1] == 'x' then (var c := Numeric(s, 2); if c.Some? then Some((c.value, 4)) else None)
    else if s[1] == 'u' then (var c := Numeric(s, 4); if c.Some? then Some((c.value, 6)) else None)
    else if s[1] == 'U' then (var c := Numeric(s, 8); if c.Some? then Some((c.value, 10)) else None)
    else if '0' <= s[1] <= '7' then (var c := Octal(s); if c.Some? then Some((c.value, 4)) else None)
    else None
  }

  /** The inside of a double-quoted string. */
  function UnquoteBody(s: string): Option<string>
    decreases |s|
  {
    if s == "" then Some("")
    else if s[0] == '"' || s[0] == '\n' then None
    else if s[0] == '\\' then
      var e := Unescape(s);
      if e.None? || e.value.1 > |s| || e.value.1 == 0 then None
      else
        var rest := UnquoteBody(s[e.value.1..]);
        if rest.None? then None else Some([e.value.0] + rest.value)
    else
      var rest := UnquoteBody(s[1..]);
      if rest.None? then None else Some([s[0]] + rest.value)
  }

  /** A numeric escape of `k` digits reads back as its character. */
  lemma NumericReads(c: char, mark: char, k: nat, rest: string)
    requires (k == 2 && mark == 'x' && c < '\U{80}') || (k == 4 && mark == 'u' && c as int < 0x10000) || (k == 8 && mark == 'U')
    ensures var s := ['\\', mark] + Hex(c as int, k) + rest; Unescape(s) == Some((c, 2 + k))
  {
    var s := ['\\', mark] + Hex(c as int, k) + rest;
    Powers();
    HexRoundTrip(c as int, k);
    assert s[2..2 + k] == Hex(c as int, k);
    hide ParseHex, Hex, Power16, Octal;
  }

  lemma EscapeReads(c: char, table: Table, rest: string)
    ensures var s := Escape(c, table) + rest;
            if s[0] == '\\' then Unescape(s) == Some((c, |Escape(c, table)|))
            else s[0] == c && c != '"' && c != '\n' && |Escape(c, table)| == 1
  {
    var e := Escape(c, table);
    if c == '"' || c == '\\' || Prints(c, table) || Letter(c).Some? {
      hide Numeric, Octal, Hex;
    } else {
      var k := if c < ' ' || c == '\U{7F}' then 2 else if c as int < 0x10000 then 4 else 8;
      var mark := if k == 2 then 'x' else if k == 4 then 'u' else 'U';
      assert e == ['\\', mark] + Hex(c as int, k);
      NumericReads(c, mark, k, rest);
      hide Unescape, Hex, Escape;
    }
  }

  lemma Powers()
    ensures Power16(2) == 0x100 && Power16(4) == 0x1_0000 && Power16(8) == 0x1_0000_0000
  {
    assert Power16(2) == 256 by { assert Power16(1) == 16; }
    assert Power16(4) == 0x10000;
    assert Power16(6) == 0x100_0000;
  }

  /** Unquoting undoes quoting, whatever the characters. */
  lemma {:induction false} QuoteRoundTrip(s: string, table: Table)
    ensures UnquoteBody(QuoteBody(s, table)) == Some(s)
  {
    if s != "" {
      var e, rest := Escape(s[0], table), QuoteBody(s[1..], table);
      EscapeReads(s[0], table, rest);
      QuoteRoundTrip(s[1..], table);
      assert (e + rest)[|e|..] == rest;
      assert [s[0]] + s[1..] == s;
    }
  }

  // --------------------------------------------------------------------- scans

  /** Where a scan is: outside quotes, or inside, just after a backslash or not. */
  datatype Scan = Outside | Inside(quote: char, escaped: bool)

  function Advance(q: Scan, c: char): Scan {
    match q
    case Outside => if c == '"' || c == '\'' then Inside(c, false) else Outside
    case Inside(quote, true) => Inside(quote, false)
    case Inside(quote, false) =>
      if c == '\\' && quote == '"' then Inside(quote, true) else if c == quote then Outside else q
  }

  function Scanned(q: Scan, s: string): Scan
    decreases |s|
  {
    if s == "" then q else Scanned(Advance(q, s[0]), s[1..])
  }

  /** `mark` never occurs outside quotes. */
  predicate Shielded(q: Scan, s: string, mark: char)
    decreases |s|
  {
    s == "" || (!(q.Outside? && s[0] == mark) && Shielded(Advance(q, s[0]), s[1..], mark))
  }

  lemma {:induction false} ScannedAppend(q: Scan, a: string, b: string)
    ensures Scanned(q, a + b) == Scanned(Scanned(q, a), b)
    decreases |a|
  {
    if a == "" {
      assert a + b == b;
    } else {
      assert (a + b)[1..] == a[1..] + b;
      ScannedAppend(Advance(q, a[0]), a[1..], b);
    }
  }

  lemma {:induction false} ShieldedAppend(q: Scan, a: string, b: string, mark: char)
    requires Shielded(q, a, mark) && Shielded(Scanned(q, a), b, mark)
    ensures Shielded(q, a + b, mark)
    decreases |a|
  {
    if a == "" {
      assert a + b == b;
    } else {
      assert (a + b)[1..] == a[1..] + b;
      ShieldedAppend(Advance(q, a[0]), a[1..], b, mark);
    }
  }

  /** Text without quotes or marks scans as nothing. */
  lemma {:induction false} PlainScan(s: string, mark: char)
    requires '"' !in s && '\'' !in s && mark !in s
    ensures Scanned(Outside, s) == Outside && Shielded(Outside, s, mark)
  {
    if s != "" {
      assert s[0] in s;
      PlainScan(s[1..], mark);
    }
  }

  const IN_STRING := Inside('"', false)

  lemma {:induction false} HexScan(s: string, mark: char)
    requires forall c :: c in s ==> c != '\\' && c != '"'
    ensures Scanned(IN_STRING, s) == IN_STRING && Shielded(IN_STRING, s, mark)
  {
    if s != "" {
      assert s[0] in s && forall c :: c in s[1..] ==> c in s;
      HexScan(s[1..], mark);
    }
  }

  lemma PairScan(c: char, mark: char)
    ensures Scanned(IN_STRING, ['\\', c]) == IN_STRING && Shielded(IN_STRING, ['\\', c], mark)
  {
    var e := ['\\', c];
    assert e[1..] == [c] && [c][1..] == "";
    assert Scanned(Inside('"', true), [c]) == IN_STRING;
  }

  /** An escaped character leaves the scan inside the string. */
  lemma EscapeScan(c: char, table: Table, mark: char)
    ensures Scanned(IN_STRING, Escape(c, table)) == IN_STRING && Shielded(IN_STRING, Escape(c, table), mark)
  {
    var e := Escape(c, table);
    if c == '"' || c == '\\' || Letter(c).Some? {
      PairScan(if c == '"' || c == '\\' then c else Letter(c).value, mark);
    } else if Prints(c, table) {
      assert e[1..] == "";
    } else {
      var k := if c < ' ' || c == '\U{7F}' then 2 else if c as int < 0x10000 then 4 else 8;
      var digits := Hex(c as int, k);
      assert e[1..][1..] == digits;
      HexDigitsOnly(c as int, k);
      HexScan(digits, mark);
    }
  }

  lemma {:induction false} HexDigitsOnly(n: nat, k: nat)
    ensures forall c :: c in Hex(n, k) ==> c != '\\' && c != '"' && c != '\n'
  {
    if k > 0 {
      HexDigitsOnly(n / 16, k - 1);
    }
  }

  lemma {:induction false} BodyScan(s: string, table: Table, mark: char)
    ensures Scanned(IN_STRING, QuoteBody(s, table)) == IN_STRING && Shielded(IN_STRING, QuoteBody(s, table), mark)
  {
    if s != "" {
      EscapeScan(s[0], table, mark);
      BodyScan(s[1..], table, mark);
      ScannedAppend(IN_STRING, Escape(s[0], table), QuoteBody(s[1..], table));
      ShieldedAppend(IN_STRING, Escape(s[0], table), QuoteBody(s[1..], table), mark);
    }
  }

  /** A quoted string hides every comment sign and comma inside it, and ends outside. */
  lemma QuoteScan(s: string, table: Table, mark: char)
    requires mark != '"' && mark != '\''
    ensures Scanned(Outside, Quote(s, table)) == Outside && Shielded(Outside, Quote(s, table), mark)
  {
    var body := QuoteBody(s, table);
    BodyScan(s, table, mark);
    assert ("\"" + body)[1..] == body;
    assert Quote(s, table) == ("\"" + body) + "\"";
    ScannedAppend(Outside, "\"" + body, "\"");
    ShieldedAppend(Outside, "\"" + body, "\"", mark);
  }

  // ------------------------------------------------------------------ integers

  const INT_MIN := -0x8000_0000_0000_0000
  const INT_MAX := 0x7FFF_FFFF_FFFF_FFFF

  predicate IsInt(n: int) {
    INT_MIN <= n <= INT_MAX
  }

  function Digits(n: nat): (s: string)
    ensures s != ""
  {
    if n < 10 then [('0' as int + n) as char] else Digits(n / 10) + [('0' as int + n % 10) as char]
  }

  function ParseDigits(s: string): Option<nat> {
    if s == "" then Some(0)
    else
      var high, c := ParseDigits(s[..|s| - 1]), s[|s| - 1];
      if high.None? || !('0' <= c <= '9') then None else Some(high.value * 10 + (c as int - '0' as int))
  }

  /** `strconv.Itoa` */
  function Itoa(n: int): string {
    if n < 0 then "-" + Digits(-n) else Digits(n)
  }

  /** `strconv.Atoi` */
  function Atoi(s: string): Option<int> {
    var signed := s != "" && (s[0] == '+' || s[0] == '-');
    var digits := if signed then s[1..] else s;
    var n := ParseDigits(digits);
    if digits == "" || n.None? then None
    else
      var magnitude: int := n.value;
      var v := if signed && s[0] == '-' then -magnitude else magnitude;
      if IsInt(v) then Some(v) else None
  }

  lemma {:induction false} DigitsRoundTrip(n: nat)
    ensures ParseDigits(Digits(n)) == Some(n)
    ensures forall c :: c in Digits(n) ==> '0' <= c <= '9'
  {
    var s := Digits(n);
    if n < 10 {
      assert s[..0] == "";
    } else {
      DigitsRoundTrip(n / 10);
      assert s[..|s| - 1] == Digits(n / 10);
    }
  }

  lemma IntRoundTrip(n: int)
    requires IsInt(n)
    ensures Atoi(Itoa(n)) == Some(n)
    ensures Itoa(n) != "" && forall c :: c in Itoa(n) ==> c == '-' || '0' <= c <= '9'
  {
    var digits := Digits(if n < 0 then -n else n);
    DigitsRoundTrip(if n < 0 then -n else n);
    assert digits[0] in digits;
    if n < 0 {
      assert Itoa(n)[1..] == digits;
    }
  }
}
