/** The configuration file: what `Write` prints, `Load` reads back, value for value. */
module ConfigFile {
  import opened Wrappers
  import opened ConfigText
  import Text

  datatype Value = Str(text: string) | Flag(on: bool) | Number(n: int) | List(items: seq<string>)

  type Settings = map<string, Value>

  type Values = map<string, string>

  // ------------------------------------------------------------------ printing

  function Join(parts: seq<string>, sep: string): string {
    if parts == [] then "" else if |parts| == 1 then parts[0] else parts[0] + sep + Join(parts[1..], sep)
  }

  function Quoted(items: seq<string>, table: Table): (q: seq<string>)
    ensures |q| == |items| && forall i :: 0 <= i < |q| ==> q[i] == Quote(items[i], table)
  {
    seq(|items|, i requires 0 <= i < |items| => Quote(items[i], table))
  }

  /** `formatValue` */
  function FormatValue(v: Value, table: Table): string {
    match v
    case Str(text) => Quote(text, table)
    case Flag(on) => if on then "true" else "false"
    case Number(n) => Itoa(n)
    case List(items) => "[" + Join(Quoted(items, table), ", ") + "]"
  }

  function Line(key: string, v: Value, table: Table): string {
    key + " = " + FormatValue(v, table)
  }

  // ------------------------------------------------------------------- parsing

  /** `stripComment`, from a scan in progress. */
  function StripFrom(q: Scan, line: string): string
    decreases |line|
  {
    if line == "" || (q.Outside? && line[0] == '#') then "" else [line[0]] + StripFrom(Advance(q, line[0]), line[1..])
  }

  /** The pieces between commas outside quotes. */
  function Pieces(q: Scan, raw: string): (parts: seq<string>)
    ensures |parts| > 0
    decreases |raw|
  {
    if raw == "" then [""]
    else
      var rest := Pieces(Advance(q, raw[0]), raw[1..]);
      if q.Outside? && raw[0] == ',' then [""] + rest else [[raw[0]] + rest[0]] + rest[1..]
  }

  /** `splitArray`: a blank last piece does not count. */
  function SplitArray(raw: string): seq<string> {
    var parts := Pieces(Outside, raw);
    if Text.Trim(parts[|parts| - 1]) == "" then parts[..|parts| - 1] else parts
  }

  /** `parseString` */
  function ParseString(raw: string): Option<string> {
    var t := Text.Trim(raw);
    if |t| >= 2 && t[0] == '"' && t[|t| - 1] == '"' then UnquoteBody(t[1..|t| - 1])
    else if |t| >= 2 && t[0] == '\'' && t[|t| - 1] == '\'' then Some(t[1..|t| - 1])
    else if t == "" || '\n' in t || '\r' in t then None
    else Some(t)
  }

  function ParseAll(parts: seq<string>): Option<seq<string>> {
    if parts == [] then Some([])
    else
      var first, rest := ParseString(Text.Trim(parts[0])), ParseAll(parts[1..]);
      if first.None? || rest.None? then None else Some([first.value] + rest.value)
  }

  // ------------------------------------------------------------------- getters

  /** `Raw`: the first of the keys that is set. */
  function Raw(values: Values, keys: seq<string>): Option<string> {
    if keys == [] then None
    else if keys[0] in values then Some(Text.Trim(values[keys[0]]))
    else Raw(values, keys[1..])
  }

  function GetString(values: Values, default: string, keys: seq<string>): string {
    var raw := Raw(values, keys);
    if raw.None? then default else ParseString(raw.value).GetOr(default)
  }

  /** `strconv.ParseBool` */
  function ParseBool(s: string): Option<bool> {
    if s in ["1", "t", "T", "true", "TRUE", "True"] then Some(true)
    else if s in ["0", "f", "F", "false", "FALSE", "False"] then Some(false)
    else None
  }

  function GetBool(values: Values, default: bool, keys: seq<string>): bool {
    var raw := Raw(values, keys);
    if raw.None? then default else ParseBool(raw.value).GetOr(default)
  }

  function GetInt(values: Values, default: int, keys: seq<string>): int {
    var raw := Raw(values, keys);
    if raw.None? then default else Atoi(raw.value).GetOr(default)
  }

  function GetStrings(values: Values, keys: seq<string>): Option<seq<string>> {
    var raw := Raw(values, keys);
    if raw.None? || |raw.value| < 2 || raw.value[0] != '[' || raw.value[|raw.value| - 1] != ']' then None
    else ParseAll(SplitArray(raw.value[1..|raw.value| - 1]))
  }

  /** The value comes back through its own getter, whatever the default. */
  ghost predicate ComesBack(values: Values, key: string, v: Value) {
    match v
    case Str(text) => forall d :: GetString(values, d, [key]) == text
    case Flag(on) => forall d :: GetBool(values, d, [key]) == on
    case Number(n) => forall d :: GetInt(values, d, [key]) == n
    case List(items) => GetStrings(values, [key]) == Some(items)
  }

  // ------------------------------------------------------------------- lines

  datatype Parsed = Parsed(section: string, values: Values)

  /** Where the first `c` is, or the length. */
  function IndexOf(s: string, c: char): (i: nat)
    ensures i <= |s| && (i < |s| ==> s[i] == c) && (i == |s| ==> c !in s)
  {
    if s == "" || s[0] == c then 0 else 1 + IndexOf(s[1..], c)
  }

  predicate AnyOf(s: string, marks: string) {
    exists c :: c in s && c in marks
  }

  function Name(section: string, key: string): string {
    section + "." + key
  }

  /** One line of the file. */
  function ParseLine(p: Parsed, line: string): Option<Parsed> {
    var text := Text.Trim(StripFrom(Outside, line));
    if text == "" then Some(p)
    else if |text| >= 2 && text[0] == '[' && text[|text| - 1] == ']' then
      var section := Text.Trim(text[1..|text| - 1]);
      if section == "agent" || section == "relay" then Some(p.(section := section)) else None
    else
      var cut := IndexOf(text, '=');
      if cut == |text| then None
      else
        var key := Text.Trim(text[..cut]);
        if key == "" || AnyOf(key, " \t\r\n") then None
        else
          var name := if p.section == "" then key else Name(p.section, key);
          Some(p.(values := p.values[name := Text.Trim(text[cut + 1..])]))
  }

  function ParseLines(p: Parsed, lines: seq<string>): Option<Parsed>
    decreases |lines|
  {
    if lines == [] then Some(p)
    else
      var next := ParseLine(p, lines[0]);
      if next.None? then None else ParseLines(next.value, lines[1..])
  }

  const MAX_LINE := 0x10_0000

  function Utf8Size(c: char): nat {
    if c < '\U{80}' then 1 else if c < '\U{800}' then 2 else if c as int < 0x10000 then 3 else 4
  }

  function ByteLength(s: string): nat {
    if s == "" then 0 else Utf8Size(s[0]) + ByteLength(s[1..])
  }

  /** The line fits the scanner's buffer. */
  predicate Fits(line: string) {
    ByteLength(line) < MAX_LINE
  }

  function DropReturn(line: string): string {
    if line != "" && line[|line| - 1] == '\r' then line[..|line| - 1] else line
  }

  function DropReturns(lines: seq<string>): (r: seq<string>)
    ensures |r| == |lines| && forall i :: 0 <= i < |r| ==> r[i] == DropReturn(lines[i])
  {
    seq(|lines|, i requires 0 <= i < |lines| => DropReturn(lines[i]))
  }

  /** `Load`, from the file's text. */
  function LoadText(text: string): Option<Values> {
    var lines := Text.Split(text, '\n');
    if exists i :: 0 <= i < |lines| && !Fits(lines[i]) then None
    else
      var p := ParseLines(Parsed("", map[]), DropReturns(lines));
      if p.None? then None else Some(p.value.values)
  }

  // --------------------------------------------------------------- what is written

  predicate KeyChar(c: char) {
    !Text.IsSpace(c) && c != '"' && c != '\'' && c != '=' && c != '#'
  }

  predicate BareKey(key: string) {
    key != "" && key[0] != '[' && forall c :: c in key ==> KeyChar(c)
  }

  const NOTICE := ["chat-with-cli ", "configuration; ", "secrets belong ", "in the ", "environment, ", "not this file"]
  const HEADER := "# " + Join(NOTICE, "")

  /** The keys are set in the section. */
  predicate AreSet(section: string, keys: seq<string>, settings: Settings) {
    forall k :: k in keys ==> Name(section, k) in settings
  }

  function KeyLines(section: string, keys: seq<string>, settings: Settings, table: Table): (lines: seq<string>)
    requires AreSet(section, keys, settings)
    ensures |lines| == |keys|
  {
    if keys == [] then [] else [Line(keys[0], settings[Name(section, keys[0])], table)] + KeyLines(section, keys[1..], settings, table)
  }

  function SectionLines(section: string, keys: seq<string>, settings: Settings, table: Table): seq<string>
    requires AreSet(section, keys, settings)
  {
    if keys == [] then [] else ["[" + section + "]"] + KeyLines(section, keys, settings, table) + [""]
  }

  function FileLines(relay: seq<string>, agent: seq<string>, settings: Settings, table: Table): seq<string>
    requires AreSet("relay", relay, settings) && AreSet("agent", agent, settings)
  {
    [HEADER, ""] + SectionLines("relay", relay, settings, table) + SectionLines("agent", agent, settings, table)
  }

  /** The keys of a section, each once, in some order. */
  ghost predicate Enumerates(section: string, keys: seq<string>, settings: Settings) {
    (forall i, j :: 0 <= i < j < |keys| ==> keys[i] != keys[j]) &&
    (forall k :: k in keys <==> Name(section, k) in settings)
  }

  /** What the writer promises to carry: bare keys of the two sections, and machine integers. */
  ghost predicate Carried(settings: Settings) {
    forall name :: name in settings ==>
      (exists key :: BareKey(key) && (name == Name("relay", key) || name == Name("agent", key))) &&
      (settings[name].Number? ==> IsInt(settings[name].n))
  }

  // -------------------------------------------------------- values scan cleanly

  lemma {:induction false} StripAppend(q: Scan, a: string, b: string)
    requires Shielded(q, a, '#')
    ensures StripFrom(q, a + b) == a + StripFrom(Scanned(q, a), b)
    decreases |a|
  {
    if a == "" {
      assert a + b == b;
    } else {
      assert (a + b)[1..] == a[1..] + b;
      StripAppend(Advance(q, a[0]), a[1..], b);
      assert [a[0]] + a[1..] == a;
    }
  }

  lemma {:induction false} PiecesAppend(q: Scan, a: string, b: string)
    requires Shielded(q, a, ',')
    ensures var rest := Pieces(Scanned(q, a), b); Pieces(q, a + b) == [a + rest[0]] + rest[1..]
    decreases |a|
  {
    if a == "" {
      assert a + b == b && "" + Pieces(q, b)[0] == Pieces(q, b)[0];
    } else {
      assert (a + b)[1..] == a[1..] + b;
      PiecesAppend(Advance(q, a[0]), a[1..], b);
      var rest := Pieces(Scanned(q, a), b);
      assert [a[0]] + (a[1..] + rest[0]) == a + rest[0];
    }
  }

  lemma OutsideMark(c: char, mark: char)
    requires c != '"' && c != '\'' && c != mark
    ensures Scanned(Outside, [c]) == Outside && Shielded(Outside, [c], mark)
  {
    assert [c][1..] == "";
  }

  lemma AppendScan(a: string, b: string, mark: char)
    requires Scanned(Outside, a) == Outside && Shielded(Outside, a, mark) && Scanned(Outside, b) == Outside && Shielded(Outside, b, mark)
    ensures Scanned(Outside, a + b) == Outside && Shielded(Outside, a + b, mark)
  {
    ScannedAppend(Outside, a, b);
    ShieldedAppend(Outside, a, b, mark);
  }

  lemma {:induction false} JoinScan(items: seq<string>, table: Table)
    ensures var s := Join(Quoted(items, table), ", "); Scanned(Outside, s) == Outside && Shielded(Outside, s, '#')
  {
    var q := Quoted(items, table);
    if |items| == 1 {
      QuoteScan(items[0], table, '#');
    } else if |items| > 1 {
      assert q[1..] == Quoted(items[1..], table);
      QuoteScan(items[0], table, '#');
      PlainScan(", ", '#');
      JoinScan(items[1..], table);
      AppendScan(q[0], ", ", '#');
      AppendScan(q[0] + ", ", Join(q[1..], ", "), '#');
    }
  }

  /** No comment sign in a printed value is outside quotes. */
  lemma ValueScan(v: Value, table: Table)
    requires v.Number? ==> IsInt(v.n)
    ensures Scanned(Outside, FormatValue(v, table)) == Outside && Shielded(Outside, FormatValue(v, table), '#')
  {
    match v {
      case Str(text) => QuoteScan(text, table, '#');
      case Flag(on) => PlainScan(FormatValue(v, table), '#');
      case Number(n) =>
        IntRoundTrip(n);
        PlainScan(Itoa(n), '#');
      case List(items) =>
        var joined := Join(Quoted(items, table), ", ");
        JoinScan(items, table);
        OutsideMark('[', '#');
        OutsideMark(']', '#');
        AppendScan("[", joined, '#');
        AppendScan("[" + joined, "]", '#');
    }
  }

  /** A printed value has no white space at either end. */
  lemma ValueTight(v: Value, table: Table)
    requires v.Number? ==> IsInt(v.n)
    ensures var s := FormatValue(v, table); s != "" && Text.Tight(s)
  {
    match v {
      case Number(n) =>
        IntRoundTrip(n);
        assert Itoa(n)[0] in Itoa(n) && Itoa(n)[|Itoa(n)| - 1] in Itoa(n);
      case Str(text) => assert Quote(text, table)[|Quote(text, table)| - 1] == '"';
      case Flag(on) => FlagTight(on);
      case List(items) => assert FormatValue(v, table)[|FormatValue(v, table)| - 1] == ']';
    }
  }

  lemma FlagTight(on: bool)
    ensures var s := if on then "true" else "false"; Text.Tight(s)
  {
    assert "true"[3] == 'e' && "false"[4] == 'e';
  }

  // ------------------------------------------------------------- lines round trip

  lemma TrimTail(s: string)
    requires s != "" && Text.Tight(s)
    ensures Text.Trim(s + " ") == s && Text.Trim(" " + s) == s
  {
    assert (s + " ")[|s|] == ' ' && (s + " ")[..|s|] == s && (s + " ")[0] == s[0];
    assert (" " + s)[1..] == s;
    assert Text.TrimRight(s) == s && Text.TrimLeft(s) == s;
  }

  lemma {:induction false} FirstEquals(key: string, rest: string)
    requires '=' !in key
    ensures IndexOf(key + "=" + rest, '=') == |key|
  {
    var s := key + "=" + rest;
    if key != "" {
      assert key[0] in key && s[1..] == key[1..] + "=" + rest;
      FirstEquals(key[1..], rest);
    }
  }

  lemma BareKeyFacts(key: string)
    requires BareKey(key)
    ensures Text.Tight(key) && '=' !in key && '"' !in key && '\'' !in key && '#' !in key && !AnyOf(key, " \t\r\n")
  {
    assert key[0] in key && key[|key| - 1] in key;
  }

  lemma LineSurvives(key: string, v: Value, table: Table)
    requires BareKey(key) && (v.Number? ==> IsInt(v.n))
    ensures var line := Line(key, v, table); Text.Trim(StripFrom(Outside, line)) == line && line[0] == key[0]
  {
    var line, value := Line(key, v, table), FormatValue(v, table);
    BareKeyFacts(key);
    ValueScan(v, table);
    ValueTight(v, table);
    PlainScan(key, '#');
    PlainScan(" = ", '#');
    AppendScan(key, " = ", '#');
    AppendScan(key + " = ", value, '#');
    StripAppend(Outside, line, "");
    assert line + "" == line;
    assert line[0] == key[0] && line[|line| - 1] == value[|value| - 1];
    Text.TrimTight(line);
  }

  /** A line that is a key, an equals sign and a value, all tight. */
  lemma AssignmentParses(p: Parsed, line: string, key: string, value: string)
    requires Text.Trim(StripFrom(Outside, line)) == line && line == (key + " ") + "=" + (" " + value)
    requires key != "" && key[0] != '[' && '=' !in key && !AnyOf(key, " \t\r\n") && p.section != ""
    requires Text.Trim(key + " ") == key && Text.Trim(" " + value) == value
    ensures ParseLine(p, line) == Some(p.(values := p.values[Name(p.section, key) := value]))
  {
    assert '=' !in key + " ";
    FirstEquals(key + " ", " " + value);
    assert line[..|key| + 1] == key + " " && line[|key| + 2..] == " " + value && line[0] == key[0];
    hide Text.Trim, StripFrom, IndexOf, AnyOf, Name;
  }

  /** A written line is read back as its key and its value's text. */
  lemma LineRoundTrip(p: Parsed, key: string, v: Value, table: Table)
    requires BareKey(key) && (v.Number? ==> IsInt(v.n)) && p.section != ""
    ensures ParseLine(p, Line(key, v, table)) == Some(p.(values := p.values[Name(p.section, key) := FormatValue(v, table)]))
  {
    var line, value := Line(key, v, table), FormatValue(v, table);
    assert line == (key + " ") + "=" + (" " + value);
    BareKeyFacts(key);
    assert key != "" && key[0] != '[';
    hide ParseLine, Line, FormatValue, BareKey, Text.Tight, Text.Trim, AnyOf;
    LineSurvives(key, v, table);
    ValueTight(v, table);
    TrimTail(key);
    TrimTail(value);
    AssignmentParses(p, line, key, value);
  }

  lemma HeaderParses(p: Parsed)
    ensures ParseLine(p, HEADER) == Some(p) && ParseLine(p, "") == Some(p)
  {
    hide Text.IsSpace;
    assert HEADER[0] == "# "[0] == '#';
  }

  lemma BracketsParse(p: Parsed, line: string, section: string)
    requires Text.Trim(StripFrom(Outside, line)) == line && line == "[" + section + "]" && Text.Trim(section) == section
    requires section == "relay" || section == "agent"
    ensures ParseLine(p, line) == Some(p.(section := section))
  {
    assert line[|line| - 1] == ']' && line[0] == '[' && line[1..|line| - 1] == section;
    hide Text.Trim, StripFrom, IndexOf, AnyOf;
  }

  lemma SectionParses(p: Parsed, section: string)
    requires section == "relay" || section == "agent"
    ensures ParseLine(p, "[" + section + "]") == Some(p.(section := section))
  {
    HeaderKept(section);
    assert section[0] in {'r', 'a'} && section[4] in {'y', 't'};
    Text.TrimTight(section);
    hide ParseLine;
    BracketsParse(p, "[" + section + "]", section);
  }

  lemma HeaderKept(section: string)
    requires section == "relay" || section == "agent"
    ensures var line := "[" + section + "]"; StripFrom(Outside, line) == line && Text.Trim(line) == line
  {
    var line := "[" + section + "]";
    PlainScan(line, '#');
    StripAppend(Outside, line, "");
    assert line + "" == line;
    hide StripFrom;
    Text.TrimTight(line);
  }

  lemma {:induction false} ParseAppend(p: Parsed, a: seq<string>, b: seq<string>)
    ensures ParseLines(p, a + b) == var q := ParseLines(p, a); if q.None? then None else ParseLines(q.value, b)
    decreases |a|
  {
    if a == [] {
      assert a + b == b;
    } else {
      assert (a + b)[1..] == a[1..] + b;
      var q := ParseLine(p, a[0]);
      if q.Some? { ParseAppend(q.value, a[1..], b); }
    }
  }

  /** The texts of a section's values, under their full names. */
  function Texts(section: string, keys: seq<string>, settings: Settings, table: Table): Values
    requires AreSet(section, keys, settings)
  {
    if keys == [] then map[] else map[Name(section, keys[0]) := FormatValue(settings[Name(section, keys[0])], table)] + Texts(section, keys[1..], settings, table)
  }

  lemma {:induction false} KeyLinesParse(p: Parsed, keys: seq<string>, settings: Settings, table: Table)
    requires AreSet(p.section, keys, settings) && p.section != "" && IntsOk(settings) && forall k :: k in keys ==> BareKey(k)
    ensures ParseLines(p, KeyLines(p.section, keys, settings, table)) == Some(p.(values := p.values + Texts(p.section, keys, settings, table)))
    decreases |keys|
  {
    hide ParseLine, FormatValue, BareKey, Name, Line, IntsOk;
    if keys == [] {
      assert p.values + map[] == p.values;
    } else {
      var name := Name(p.section, keys[0]);
      var v := settings[name];
      var text := FormatValue(v, table);
      assert keys[0] in keys && forall k :: k in keys[1..] ==> k in keys;
      if v.Number? { IntOk(settings, name); }
      LineRoundTrip(p, keys[0], v, table);
      var q := p.(values := p.values[name := text]);
      KeyLinesParse(q, keys[1..], settings, table);
      var rest := Texts(p.section, keys[1..], settings, table);
      assert p.values[name := text] + rest == p.values + (map[name := text] + rest);
    }
  }

  ghost predicate IntsOk(settings: Settings) {
    forall name :: name in settings && settings[name].Number? ==> IsInt(settings[name].n)
  }

  lemma IntOk(settings: Settings, name: string)
    requires IntsOk(settings) && name in settings && settings[name].Number?
    ensures IsInt(settings[name].n)
  {
  }

  lemma SectionLinesParse(p: Parsed, section: string, keys: seq<string>, settings: Settings, table: Table)
    requires AreSet(section, keys, settings) && (section == "relay" || section == "agent") && IntsOk(settings)
    requires forall k :: k in keys ==> BareKey(k)
    ensures var r := ParseLines(p, SectionLines(section, keys, settings, table));
            r.Some? && r.value.values == p.values + Texts(section, keys, settings, table)
  {
    if keys == [] {
      assert p.values + map[] == p.values;
    } else {
      var start := p.(section := section);
      var lines := KeyLines(section, keys, settings, table);
      SectionParses(p, section);
      KeyLinesParse(start, keys, settings, table);
      var q := ParseLines(start, lines).value;
      HeaderParses(q);
      ParseAppend(start, lines, [""]);
      ParseAppend(p, ["[" + section + "]"], lines + [""]);
      assert ["[" + section + "]"] + (lines + [""]) == SectionLines(section, keys, settings, table);
      One(p, "[" + section + "]");
      One(q, "");
    }
  }

  lemma One(p: Parsed, line: string)
    ensures ParseLines(p, [line]) == ParseLine(p, line)
  {
  }

  // --------------------------------------------------------------- the whole file

  lemma {:induction false} SplitJoin(lines: seq<string>)
    requires lines != [] && forall line :: line in lines ==> '\n' !in line
    ensures Text.Split(Join(lines, "\n"), '\n') == lines
  {
    assert lines[0] in lines;
    if |lines| == 1 {
      Text.SplitNone(lines[0], '\n');
    } else {
      assert forall line :: line in lines[1..] ==> line in lines;
      SplitJoin(lines[1..]);
      Text.SplitFirst(lines[0], '\n', Join(lines[1..], "\n"));
    }
  }

  lemma {:induction false} BodyHasNoBreak(s: string, table: Table)
    ensures '\n' !in QuoteBody(s, table)
  {
    if s != "" {
      BodyHasNoBreak(s[1..], table);
      var c := s[0];
      if !(c == '"' || c == '\\' || Prints(c, table) || Letter(c).Some?) {
        HexDigitsOnly(c as int, if c < ' ' || c == '\U{7F}' then 2 else if c as int < 0x10000 then 4 else 8);
      }
    }
  }

  lemma {:induction false} JoinHasNoBreak(items: seq<string>, table: Table)
    ensures '\n' !in Join(Quoted(items, table), ", ")
  {
    var q := Quoted(items, table);
    if |items| == 1 {
      BodyHasNoBreak(items[0], table);
    } else if |items| > 1 {
      assert q[1..] == Quoted(items[1..], table);
      BodyHasNoBreak(items[0], table);
      JoinHasNoBreak(items[1..], table);
    }
  }

  /** A written line stays one line: it has no line break, and no carriage return the reader would drop. */
  predicate OneLine(line: string) {
    '\n' !in line && DropReturn(line) == line
  }

  lemma LineIsOne(key: string, v: Value, table: Table)
    requires BareKey(key) && (v.Number? ==> IsInt(v.n))
    ensures OneLine(Line(key, v, table))
  {
    var value := FormatValue(v, table);
    match v {
      case Str(text) => BodyHasNoBreak(text, table);
      case Flag(on) =>
      case Number(n) => IntRoundTrip(n);
      case List(items) => JoinHasNoBreak(items, table);
    }
    ValueTight(v, table);
    assert Line(key, v, table)[|Line(key, v, table)| - 1] == value[|value| - 1];
  }

  lemma {:induction false} KeyLinesAreOne(section: string, keys: seq<string>, settings: Settings, table: Table)
    requires AreSet(section, keys, settings) && IntsOk(settings) && forall k :: k in keys ==> BareKey(k)
    ensures forall line :: line in KeyLines(section, keys, settings, table) ==> OneLine(line)
    decreases |keys|
  {
    hide OneLine, Line, BareKey, FormatValue, IntsOk;
    if keys != [] {
      assert keys[0] in keys && forall k :: k in keys[1..] ==> k in keys;
      if settings[Name(section, keys[0])].Number? { IntOk(settings, Name(section, keys[0])); }
      LineIsOne(keys[0], settings[Name(section, keys[0])], table);
      KeyLinesAreOne(section, keys[1..], settings, table);
    }
  }

  lemma {:induction false} JoinedPieces(parts: seq<string>)
    requires forall p :: p in parts ==> '\n' !in p && '\r' !in p
    ensures '\n' !in Join(parts, "") && '\r' !in Join(parts, "")
  {
    if |parts| == 1 {
      assert parts[0] in parts;
    } else if |parts| > 1 {
      assert parts[0] in parts && forall p :: p in parts[1..] ==> p in parts;
      JoinedPieces(parts[1..]);
    }
  }

  lemma NoticeIsOne()
    ensures OneLine(HEADER)
  {
    JoinedPieces(NOTICE);
    var t := Join(NOTICE, "");
    assert '\r' !in "# " + t && '\n' !in "# " + t;
  }

  lemma PlainLines()
    ensures OneLine(HEADER) && OneLine("") && OneLine("[relay]") && OneLine("[agent]")
  {
    NoticeIsOne();
    assert "[relay]"[6] == ']' && "[agent]"[6] == ']';
  }

  lemma SectionIsOne(section: string, keys: seq<string>, settings: Settings, table: Table)
    requires AreSet(section, keys, settings) && OneLine("[" + section + "]") && OneLine("")
    requires forall line :: line in KeyLines(section, keys, settings, table) ==> OneLine(line)
    ensures forall line :: line in SectionLines(section, keys, settings, table) ==> OneLine(line)
  {
    hide OneLine, KeyLines;
  }

  lemma FileLinesAreOne(relay: seq<string>, agent: seq<string>, settings: Settings, table: Table)
    requires AreSet("relay", relay, settings) && AreSet("agent", agent, settings) && IntsOk(settings)
    requires (forall k :: k in relay ==> BareKey(k)) && (forall k :: k in agent ==> BareKey(k))
    ensures forall line :: line in FileLines(relay, agent, settings, table) ==> OneLine(line)
  {
    hide OneLine, BareKey, IntsOk, KeyLines, SectionLines, HEADER;
    PlainLines();
    assert "[" + "relay" + "]" == "[relay]" && "[" + "agent" + "]" == "[agent]";
    KeyLinesAreOne("relay", relay, settings, table);
    SectionIsOne("relay", relay, settings, table);
    KeyLinesAreOne("agent", agent, settings, table);
    SectionIsOne("agent", agent, settings, table);
  }

  /** The text of every value, under its name. */
  function AllTexts(settings: Settings, table: Table): Values {
    map name | name in settings :: FormatValue(settings[name], table)
  }

  lemma {:induction false} TextsOf(section: string, keys: seq<string>, settings: Settings, table: Table)
    requires AreSet(section, keys, settings)
    ensures var m := Texts(section, keys, settings, table);
            forall name :: name in m <==> exists k :: k in keys && name == Name(section, k)
    ensures var m := Texts(section, keys, settings, table);
            forall name :: name in m ==> name in settings && m[name] == FormatValue(settings[name], table)
    decreases |keys|
  {
    hide FormatValue, Name;
    if keys != [] {
      assert keys[0] in keys && forall k :: k in keys[1..] ==> k in keys;
      TextsOf(section, keys[1..], settings, table);
      assert forall k :: k in keys ==> k == keys[0] || k in keys[1..];
    }
  }

  /** Every carried setting is one of the enumerated keys. */
  lemma Listed(relay: seq<string>, agent: seq<string>, settings: Settings, name: string)
    requires Enumerates("relay", relay, settings) && Enumerates("agent", agent, settings) && Carried(settings) && name in settings
    ensures (exists k :: k in relay && name == Name("relay", k)) || (exists k :: k in agent && name == Name("agent", k))
  {
    hide BareKey, IsInt, Name;
    var key :| BareKey(key) && (name == Name("relay", key) || name == Name("agent", key));
  }

  lemma AllTextsAre(relay: seq<string>, agent: seq<string>, settings: Settings, table: Table)
    requires AreSet("relay", relay, settings) && AreSet("agent", agent, settings)
    requires Enumerates("relay", relay, settings) && Enumerates("agent", agent, settings) && Carried(settings)
    ensures Texts("relay", relay, settings, table) + Texts("agent", agent, settings, table) == AllTexts(settings, table)
  {
    hide FormatValue, Texts, Carried, Enumerates, Name;
    TextsOf("relay", relay, settings, table);
    TextsOf("agent", agent, settings, table);
    var both := Texts("relay", relay, settings, table) + Texts("agent", agent, settings, table);
    forall name | name in settings ensures name in both {
      Listed(relay, agent, settings, name);
    }
    assert both.Keys == AllTexts(settings, table).Keys;
  }

  lemma KeysAreBare(section: string, keys: seq<string>, settings: Settings)
    requires (section == "relay" || section == "agent") && Enumerates(section, keys, settings) && Carried(settings)
    ensures forall k :: k in keys ==> BareKey(k)
    ensures AreSet(section, keys, settings)
  {
    hide BareKey;
    forall k | k in keys ensures BareKey(k) {
      var name := Name(section, k);
      assert name in settings;
      var key :| BareKey(key) && (name == Name("relay", key) || name == Name("agent", key));
      NamesApart(section, k, key);
    }
  }

  lemma NamesApart(section: string, k: string, key: string)
    requires section == "relay" || section == "agent"
    requires Name(section, k) == Name("relay", key) || Name(section, k) == Name("agent", key)
    ensures k == key
  {
    var name := Name(section, k);
    assert name[6..] == k && name[0] == section[0];
    assert Name("relay", key)[6..] == key && Name("agent", key)[6..] == key;
  }

  lemma FileParses(relay: seq<string>, agent: seq<string>, settings: Settings, table: Table)
    requires AreSet("relay", relay, settings) && AreSet("agent", agent, settings) && IntsOk(settings)
    requires (forall k :: k in relay ==> BareKey(k)) && (forall k :: k in agent ==> BareKey(k))
    ensures var p := ParseLines(Parsed("", map[]), FileLines(relay, agent, settings, table));
            p.Some? && p.value.values == Texts("relay", relay, settings, table) + Texts("agent", agent, settings, table)
  {
    hide BareKey, IntsOk, ParseLine, Texts, SectionLines;
    var p := Parsed("", map[]);
    HeaderParses(p);
    var first, second := SectionLines("relay", relay, settings, table), SectionLines("agent", agent, settings, table);
    SectionLinesParse(p, "relay", relay, settings, table);
    var q := ParseLines(p, first).value;
    SectionLinesParse(q, "agent", agent, settings, table);
    assert map[] + Texts("relay", relay, settings, table) == Texts("relay", relay, settings, table);
    ParseAppend(p, [HEADER, ""], first + second);
    ParseAppend(p, first, second);
    assert [HEADER, ""] + first + second == [HEADER, ""] + (first + second);
    assert [HEADER, ""][1..] == [""];
    One(p, "");
  }

  /** Reading what was written gives back the text of every value, exactly when every
      written line fits the reader's buffer; otherwise the file is refused. */
  lemma FileRoundTrip(relay: seq<string>, agent: seq<string>, settings: Settings, table: Table)
    requires Enumerates("relay", relay, settings) && Enumerates("agent", agent, settings) && Carried(settings)
    ensures AreSet("relay", relay, settings) && AreSet("agent", agent, settings)
    ensures Text.Split(Join(FileLines(relay, agent, settings, table), "\n"), '\n') == FileLines(relay, agent, settings, table)
    ensures var lines := FileLines(relay, agent, settings, table);
            LoadText(Join(lines, "\n")) ==
            if exists i :: 0 <= i < |lines| && !Fits(lines[i]) then None else Some(AllTexts(settings, table))
  {
    KeysAreBare("relay", relay, settings);
    KeysAreBare("agent", agent, settings);
    assert IntsOk(settings) by { hide BareKey; }
    var lines := FileLines(relay, agent, settings, table);
    assert lines != [];
    FileLinesAreOne(relay, agent, settings, table);
    hide BareKey, IntsOk, FileLines, Texts, AllTexts, Fits, Enumerates, Carried, ParseLines;
    SplitJoin(lines);
    assert DropReturns(lines) == lines by { assert forall i :: 0 <= i < |lines| ==> lines[i] in lines; }
    FileParses(relay, agent, settings, table);
    AllTextsAre(relay, agent, settings, table);
  }

  // ---------------------------------------------------------------- the getters

  lemma StringReads(text: string, table: Table)
    ensures ParseString(Quote(text, table)) == Some(text) && Text.Trim(Quote(text, table)) == Quote(text, table)
    ensures Quote(text, table) != "" && Text.Tight(Quote(text, table))
  {
    var s := Quote(text, table);
    ValueTight(Str(text), table);
    Text.TrimTight(s);
    QuoteRoundTrip(text, table);
    assert s[1..|s| - 1] == QuoteBody(text, table) && s[|s| - 1] == '"';
  }

  /** One item, with what follows its comma. */
  lemma ItemPiece(lead: string, item: string, table: Table, tail: string)
    requires lead == "" || lead == " "
    ensures Pieces(Outside, lead + Quote(item, table)) == [lead + Quote(item, table)]
    ensures Pieces(Outside, (lead + Quote(item, table)) + ("," + tail)) == [lead + Quote(item, table)] + Pieces(Outside, tail)
  {
    var head := lead + Quote(item, table);
    PlainScan(lead, ',');
    QuoteScan(item, table, ',');
    AppendScan(lead, Quote(item, table), ',');
    hide Quote, Shielded;
    PiecesAppend(Outside, head, "");
    assert head + "" == head;
    PiecesAppend(Outside, head, "," + tail);
    assert ("," + tail)[1..] == tail && head + "" == head;
  }

  /** The pieces of a printed list, each with the space its separator leaves before it. */
  lemma {:induction false} ListPieces(items: seq<string>, table: Table, lead: string)
    requires items != [] && (lead == "" || lead == " ")
    ensures var parts := Pieces(Outside, lead + Join(Quoted(items, table), ", "));
            |parts| == |items| && parts[0] == lead + Quote(items[0], table) &&
            forall i :: 1 <= i < |parts| ==> parts[i] == " " + Quote(items[i], table)
    decreases |items|
  {
    hide Pieces, Quote, Scanned, Shielded;
    var q := Quoted(items, table);
    if |items| == 1 {
      ItemPiece(lead, items[0], table, "");
    } else {
      var tail := " " + Join(q[1..], ", ");
      assert q[1..] == Quoted(items[1..], table);
      assert lead + Join(q, ", ") == (lead + q[0]) + ("," + tail);
      ItemPiece(lead, items[0], table, tail);
      ListPieces(items[1..], table, " ");
    }
  }

  lemma {:induction false} PiecesRead(parts: seq<string>, items: seq<string>, table: Table)
    requires |parts| == |items|
    requires forall i :: 0 <= i < |parts| ==> parts[i] == Quote(items[i], table) || parts[i] == " " + Quote(items[i], table)
    ensures ParseAll(parts) == Some(items)
    decreases |parts|
  {
    if parts != [] {
      StringReads(items[0], table);
      TrimTail(Quote(items[0], table));
      PiecesRead(parts[1..], items[1..], table);
      assert [items[0]] + items[1..] == items;
    }
  }

  lemma ListReads(items: seq<string>, table: Table)
    ensures ParseAll(SplitArray(Join(Quoted(items, table), ", "))) == Some(items)
  {
    var joined := Join(Quoted(items, table), ", ");
    hide Quote;
    if items == [] {
      assert Pieces(Outside, joined) == [""];
    } else {
      ListPieces(items, table, "");
      assert "" + joined == joined && "" + Quote(items[0], table) == Quote(items[0], table);
      var parts := Pieces(Outside, joined);
      var last := items[|items| - 1];
      StringReads(last, table);
      TrimTail(Quote(last, table));
      PiecesRead(parts, items, table);
    }
  }

  /** Every value comes back through its getter, whatever quotes, commas, backslashes,
      comment signs or line breaks its strings contain. */
  lemma ValuesComeBack(settings: Settings, table: Table, name: string)
    requires name in settings && (settings[name].Number? ==> IsInt(settings[name].n))
    ensures ComesBack(AllTexts(settings, table), name, settings[name])
  {
    var v := settings[name];
    var raw := FormatValue(v, table);
    ValueTight(v, table);
    Text.TrimTight(raw);
    assert Raw(AllTexts(settings, table), [name]) == Some(raw);
    match v {
      case Str(text) => StringReads(text, table);
      case Flag(on) =>
      case Number(n) => IntRoundTrip(n);
      case List(items) =>
        ListReads(items, table);
        assert raw[1..|raw| - 1] == Join(Quoted(items, table), ", ") && raw[|raw| - 1] == ']';
    }
  }
}
