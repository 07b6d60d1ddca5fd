/** The configuration file's reader and writer as they run: byte-by-byte scans, a line
    loop, and an in-place sort of the keys. */
module ConfigLoader {
  import opened Wrappers
  import opened ConfigText
  import opened ConfigFile
  import Text

  // ------------------------------------------------------------------- scanning

  /** The scan that the loops keep in two variables. */
  function ScanOf(quoted: Option<char>, escaped: bool): Scan {
    if quoted.None? then Outside else Inside(quoted.value, escaped)
  }

  /** `stripComment` */
  method StripComment(line: string) returns (text: string)
    ensures text == StripFrom(Outside, line)
  {
    var quoted: Option<char> := None;
    var escaped := false;
    for i := 0 to |line|
      invariant quoted.None? ==> !escaped
      invariant StripFrom(Outside, line) == line[..i] + StripFrom(ScanOf(quoted, escaped), line[i..])
    {
      var ch := line[i];
      StripNext(line, i, ScanOf(quoted, escaped));
      hide StripFrom;
      if quoted.Some? {
        if escaped {
          escaped := false;
        } else if ch == '\\' && quoted == Some('"') {
          escaped := true;
        } else if quoted == Some(ch) {
          quoted := None;
        }
      } else if ch == '"' || ch == '\'' {
        quoted := Some(ch);
      } else if ch == '#' {
        return line[..i];
      }
    }
    return line;
  }

  lemma StripNext(line: string, i: nat, q: Scan)
    requires i < |line|
    ensures line[..i] + StripFrom(q, line[i..]) ==
            if q.Outside? && line[i] == '#' then line[..i] else line[..i + 1] + StripFrom(Advance(q, line[i]), line[i + 1..])
  {
    assert line[i..][1..] == line[i + 1..] && line[..i] + [line[i]] == line[..i + 1];
  }

  /** `splitArray` */
  method SplitItems(raw: string) returns (parts: seq<string>)
    ensures parts == SplitArray(raw)
  {
    parts := [];
    var start := 0;
    var quoted: Option<char> := None;
    var escaped := false;
    JoinedStart(raw);
    JoinedLast();
    hide Pieces, Joined;
    for i := 0 to |raw|
      invariant 0 <= start <= i && (quoted.None? ==> !escaped)
      invariant Pieces(Outside, raw) == Joined(parts, raw[start..i], Pieces(ScanOf(quoted, escaped), raw[i..]))
    {
      var ch := raw[i];
      JoinedNext(parts, raw, start, i, ScanOf(quoted, escaped));
      if quoted.Some? {
        if escaped {
          escaped := false;
        } else if ch == '\\' && quoted == Some('"') {
          escaped := true;
        } else if quoted == Some(ch) {
          quoted := None;
        }
      } else if ch == '"' || ch == '\'' {
        quoted := Some(ch);
      } else if ch == ',' {
        assert raw[i + 1..i + 1] == "";
        parts := parts + [raw[start..i]];
        start := i + 1;
      }
    }
    assert raw[|raw|..] == "" && raw[start..|raw|] == raw[start..];
    assert Pieces(Outside, raw) == parts + [raw[start..]];
    if Text.Trim(raw[start..]) != "" {
      parts := parts + [raw[start..]];
    }
  }

  /** Pieces already cut, the piece being read, and the pieces of what remains. */
  ghost function Joined(done: seq<string>, current: string, rest: seq<string>): seq<string>
    requires |rest| > 0
  {
    done + [current + rest[0]] + rest[1..]
  }

  lemma JoinedStart(raw: string)
    ensures raw[0..] == raw && raw[0..0] == "" && Joined([], "", Pieces(Outside, raw)) == Pieces(Outside, raw)
  {
    var p := Pieces(Outside, raw);
    assert "" + p[0] == p[0] && [p[0]] + p[1..] == p;
  }

  lemma JoinedCut(done: seq<string>, current: string, rest: seq<string>)
    requires |rest| > 0
    ensures Joined(done, current, [""] + rest) == Joined(done + [current], "", rest)
  {
    assert current + "" == current && "" + rest[0] == rest[0] && ([""] + rest)[1..] == rest;
    assert done + [current] + rest == done + [current] + ([rest[0]] + rest[1..]);
  }

  /** One character read: a comma outside quotes ends the piece, anything else extends it. */
  lemma JoinedNext(done: seq<string>, raw: string, start: nat, i: nat, q: Scan)
    requires start <= i < |raw|
    ensures var rest := Pieces(Advance(q, raw[i]), raw[i + 1..]);
            Joined(done, raw[start..i], Pieces(q, raw[i..])) ==
            if q.Outside? && raw[i] == ',' then Joined(done + [raw[start..i]], "", rest) else Joined(done, raw[start..i + 1], rest)
  {
    var rest := Pieces(Advance(q, raw[i]), raw[i + 1..]);
    assert raw[i..][1..] == raw[i + 1..] && raw[start..i] + ([raw[i]] + rest[0]) == raw[start..i + 1] + rest[0];
    JoinedCut(done, raw[start..i], rest);
  }

  lemma JoinedLast()
    ensures forall done: seq<string>, current: string, q: Scan :: Joined(done, current, Pieces(q, "")) == done + [current]
  {
    forall done: seq<string>, current: string, q: Scan ensures Joined(done, current, Pieces(q, "")) == done + [current] {
      assert current + "" == current;
    }
  }

  /** The list getter, piece by piece. */
  method Strings(values: Values, keys: seq<string>) returns (items: Option<seq<string>>)
    ensures items == GetStrings(values, keys)
  {
    var raw := Raw(values, keys);
    if raw.None? || |raw.value| < 2 || raw.value[0] != '[' || raw.value[|raw.value| - 1] != ']' {
      return None;
    }
    var parts := SplitItems(raw.value[1..|raw.value| - 1]);
    items := ParseItems(parts);
  }

  method ParseItems(parts: seq<string>) returns (items: Option<seq<string>>)
    ensures items == ParseAll(parts)
  {
    hide ParseString, Text.Trim;
    var read: seq<string> := [];
    ghost var all := ParseAll(parts);
    assert parts[0..] == parts && (all.Some? ==> [] + all.value == all.value);
    for i := 0 to |parts|
      invariant ParseAll(parts) == Prepend(read, ParseAll(parts[i..]))
    {
      assert parts[i..][1..] == parts[i + 1..];
      var item := ParseString(Text.Trim(parts[i]));
      if item.None? {
        return None;
      }
      ghost var rest := ParseAll(parts[i + 1..]);
      assert rest.Some? ==> read + ([item.value] + rest.value) == (read + [item.value]) + rest.value;
      read := read + [item.value];
    }
    assert parts[|parts|..] == [] && read + [] == read;
    return Some(read);
  }

  ghost function Prepend(read: seq<string>, rest: Option<seq<string>>): Option<seq<string>> {
    if rest.None? then None else Some(read + rest.value)
  }

  // -------------------------------------------------------------------- loading

  /** `Load`, line by line. */
  method Load(text: string) returns (values: Option<Values>)
    ensures values == LoadText(text)
  {
    hide ParseLine, Fits;
    var lines := Text.Split(text, '\n');
    ghost var clean := DropReturns(lines);
    var p := Parsed("", map[]);
    for i := 0 to |lines|
      invariant forall j :: 0 <= j < i ==> Fits(lines[j])
      invariant ParseLines(Parsed("", map[]), clean) == ParseLines(p, clean[i..])
    {
      assert clean[i..][1..] == clean[i + 1..];
      if !Fits(lines[i]) {
        return None;
      }
      var next := ParseLine(p, DropReturn(lines[i]));
      if next.None? {
        return None;
      }
      p := next.value;
    }
    return Some(p.values);
  }

  // -------------------------------------------------------------------- sorting

  /** Go's order on strings. */
  predicate Before(a: string, b: string) {
    b != "" && (a == "" || a[0] < b[0] || (a[0] == b[0] && Before(a[1..], b[1..])))
  }

  lemma {:induction false} NotBoth(a: string, b: string)
    ensures !(Before(a, b) && Before(b, a))
  {
    if a != "" && b != "" {
      NotBoth(a[1..], b[1..]);
    }
  }

  lemma {:induction false} NotBeforeTransitive(a: string, b: string, c: string)
    requires !Before(b, a) && !Before(c, b)
    ensures !Before(c, a)
  {
    if a != "" && b != "" && c != "" && a[0] == b[0] == c[0] {
      NotBeforeTransitive(a[1..], b[1..], c[1..]);
    }
  }

  /** Each key is no later than the next. */
  ghost predicate InOrder(keys: seq<string>) {
    forall i :: 0 < i < |keys| ==> !Before(keys[i], keys[i - 1])
  }

  /** So each is no later than any after it. */
  lemma {:induction false} OrderedThroughout(keys: seq<string>, i: nat, j: nat)
    requires InOrder(keys) && i <= j < |keys|
    ensures i < j ==> !Before(keys[j], keys[i])
  {
    if i + 1 < j {
      OrderedThroughout(keys, i, j - 1);
      NotBeforeTransitive(keys[i], keys[j - 1], keys[j]);
    }
  }

  /** Each of the first `n` keys is no later than the next. */
  ghost predicate OrderedTo(keys: seq<string>, n: int) {
    forall k :: 0 < k < n && k < |keys| ==> !Before(keys[k], keys[k - 1])
  }

  /** The same, except perhaps at `j`, whose neighbours are in order without it. */
  ghost predicate OrderedBut(keys: seq<string>, n: int, j: int) {
    (forall k :: 0 < k < n && k < |keys| && k != j ==> !Before(keys[k], keys[k - 1])) &&
    (0 < j && j + 1 < n && j + 1 < |keys| ==> !Before(keys[j + 1], keys[j - 1]))
  }

  function Swapped(keys: seq<string>, j: int): seq<string>
    requires 0 < j < |keys|
  {
    keys[j := keys[j - 1]][j - 1 := keys[j]]
  }

  lemma SwapStep(keys: seq<string>, n: int, j: int)
    requires 0 < j < n <= |keys| && OrderedBut(keys, n, j) && Before(keys[j], keys[j - 1])
    ensures OrderedBut(Swapped(keys, j), n, j - 1) && multiset(Swapped(keys, j)) == multiset(keys)
  {
    NotBoth(keys[j], keys[j - 1]);
    hide Before;
  }

  /** `sortStrings`: insertion by swapping neighbours, in place. */
  method SortStrings(a: array<string>)
    modifies a
    ensures InOrder(a[..]) && multiset(a[..]) == multiset(old(a[..]))
  {
    hide Before;
    for i := 0 to a.Length
      invariant OrderedTo(a[..], i)
      invariant multiset(a[..]) == multiset(old(a[..]))
    {
      var j := i;
      while j > 0 && Before(a[j], a[j - 1])
        invariant 0 <= j <= i
        invariant OrderedBut(a[..], i + 1, j)
        invariant multiset(a[..]) == multiset(old(a[..]))
      {
        ghost var keys := a[..];
        hide OrderedBut;
        SwapStep(keys, i + 1, j);
        a[j], a[j - 1] := a[j - 1], a[j];
        assert a[..] == Swapped(keys, j);
        j := j - 1;
      }
    }
  }

  /** Sorting distinct keys loses and repeats none. */
  lemma SortedEnumerates(section: string, before: seq<string>, after: seq<string>, settings: Settings)
    requires Enumerates(section, before, settings) && multiset(after) == multiset(before)
    ensures Enumerates(section, after, settings)
  {
    hide Name;
    forall k ensures k in after <==> k in before {
      assert k in multiset(after) <==> k in multiset(before);
    }
    DistinctCounts(before);
    forall i, j | 0 <= i < j < |after| ensures after[i] != after[j] {
      if after[i] == after[j] {
        TwiceCounts(after, i, j);
      }
    }
  }

  lemma {:induction false} DistinctCounts(s: seq<string>)
    requires forall i, j :: 0 <= i < j < |s| ==> s[i] != s[j]
    ensures forall x :: multiset(s)[x] <= 1
  {
    if s != [] {
      var init := s[..|s| - 1];
      DistinctCounts(init);
      assert s == init + [s[|s| - 1]];
      assert s[|s| - 1] !in init;
      assert s[|s| - 1] !in multiset(init);
    }
  }

  lemma TwiceCounts(s: seq<string>, i: nat, j: nat)
    requires i < j < |s| && s[i] == s[j]
    ensures multiset(s)[s[i]] >= 2
  {
    assert s == s[..j] + s[j..];
    assert s[i] in s[..j] && s[j..][0] == s[j];
    assert s[i] in multiset(s[..j]) && s[i] in multiset(s[j..]);
  }

  // -------------------------------------------------------------------- writing

  /** The section's keys, collected from the map in whatever order and then sorted. */
  method SectionKeys(section: string, settings: Settings) returns (keys: seq<string>)
    ensures Enumerates(section, keys, settings) && InOrder(keys)
  {
    keys := [];
    var prefix := section + ".";
    var todo := settings.Keys;
    while todo != {}
      invariant todo <= settings.Keys
      invariant forall i, j :: 0 <= i < j < |keys| ==> keys[i] != keys[j]
      invariant forall k :: k in keys <==> Name(section, k) in settings && Name(section, k) !in todo
      decreases |todo|
    {
      var name :| name in todo;
      ghost var before := todo;
      if prefix <= name {
        assert Name(section, name[|prefix|..]) == name;
        keys := keys + [name[|prefix|..]];
      }
      todo := todo - {name};
      forall k ensures k in keys <==> Name(section, k) in settings && Name(section, k) !in todo {
        if Name(section, k) == name {
          assert prefix <= name && name[|prefix|..] == k;
        }
      }
    }
    var a := new string[|keys|](i requires 0 <= i < |keys| => keys[i]);
    assert a[..] == keys;
    ghost var collected := keys;
    SortStrings(a);
    SortedEnumerates(section, collected, a[..], settings);
    keys := a[..];
  }

  ghost predicate WrittenWith(text: string, relay: seq<string>, agent: seq<string>, settings: Settings, table: Table) {
    Enumerates("relay", relay, settings) && InOrder(relay) && Enumerates("agent", agent, settings) && InOrder(agent) &&
    AreSet("relay", relay, settings) && AreSet("agent", agent, settings) &&
    text == Join(FileLines(relay, agent, settings, table), "\n")
  }

  /** The text is the header and the two sections, each with all its keys in order. */
  ghost predicate Written(text: string, settings: Settings, table: Table) {
    exists relay, agent :: WrittenWith(text, relay, agent, settings, table)
  }

  /** `Write`, up to the file's text: the two sections, each sorted by key. */
  method Write(settings: Settings, table: Table) returns (text: string)
    ensures Written(text, settings, table)
  {
    hide Before, Name;
    var lines := [HEADER, ""];
    var relay := SectionKeys("relay", settings);
    var relayLines := WriteSection("relay", relay, settings, table);
    var agent := SectionKeys("agent", settings);
    var agentLines := WriteSection("agent", agent, settings, table);
    lines := lines + relayLines + agentLines;
    text := Join(lines, "\n");
    assert WrittenWith(text, relay, agent, settings, table);
  }

  method WriteSection(section: string, keys: seq<string>, settings: Settings, table: Table) returns (lines: seq<string>)
    requires AreSet(section, keys, settings)
    ensures lines == SectionLines(section, keys, settings, table)
  {
    hide Name, Line;
    lines := [];
    if keys == [] {
      return;
    }
    lines := lines + ["[" + section + "]"];
    ghost var all := KeyLines(section, keys, settings, table);
    for i := 0 to |keys|
      invariant AreSet(section, keys[i..], settings)
      invariant ["[" + section + "]"] + all == lines + KeyLines(section, keys[i..], settings, table)
    {
      assert keys[i] in keys && keys[i..][1..] == keys[i + 1..];
      ghost var next := Line(keys[i], settings[Name(section, keys[i])], table);
      assert lines + ([next] + KeyLines(section, keys[i + 1..], settings, table)) == (lines + [next]) + KeyLines(section, keys[i + 1..], settings, table);
      lines := lines + [Line(keys[i], settings[Name(section, keys[i])], table)];
    }
    lines := lines + [""];
  }

  // ----------------------------------------------------------------- round trip

  /** Configuration round trip: what `Write` prints loads again exactly when every line of
      it fits, and then gives every value back through its own getter. */
  lemma ConfigRoundTrip(text: string, settings: Settings, table: Table, name: string)
    requires Written(text, settings, table) && Carried(settings) && name in settings
    ensures LoadText(text).Some? == forall line :: line in Text.Split(text, '\n') ==> Fits(line)
    ensures LoadText(text).Some? ==> ComesBack(LoadText(text).value, name, settings[name])
  {
    assert settings[name].Number? ==> IsInt(settings[name].n) by { hide BareKey; }
    var relay, agent :| WrittenWith(text, relay, agent, settings, table);
    hide Carried, Enumerates, LoadText, FileLines, Fits, ComesBack, InOrder;
    FileRoundTrip(relay, agent, settings, table);
    ValuesComeBack(settings, table, name);
  }

  lemma {:induction false} Trichotomy(a: string, b: string)
    ensures a == b || Before(a, b) || Before(b, a)
  {
    if a != "" && b != "" && a[0] == b[0] {
      Trichotomy(a[1..], b[1..]);
      assert a == [a[0]] + a[1..] && b == [b[0]] + b[1..];
    }
  }

  /** There is one way to put a set of keys in order. */
  lemma {:induction false} OneOrder(a: seq<string>, b: seq<string>)
    requires InOrder(a) && InOrder(b) && forall k :: k in a <==> k in b
    requires (forall i, j :: 0 <= i < j < |a| ==> a[i] != a[j]) && (forall i, j :: 0 <= i < j < |b| ==> b[i] != b[j])
    ensures a == b
    decreases |a|
  {
    if a == [] || b == [] {
      NoneIn(a, b);
      NoneIn(b, a);
    } else {
      FirstIsLeast(a, b[0]);
      FirstIsLeast(b, a[0]);
      Trichotomy(a[0], b[0]);
      hide Before;
      RestAlike(a, b);
      OneOrder(a[1..], b[1..]);
      assert a == [a[0]] + a[1..] && b == [b[0]] + b[1..];
    }
  }

  lemma NoneIn(a: seq<string>, b: seq<string>)
    requires forall k :: k in a ==> k in b
    ensures b == [] ==> a == []
  {
    if a != [] { assert a[0] in b; }
  }

  lemma FirstIsLeast(keys: seq<string>, k: string)
    requires InOrder(keys) && k in keys
    ensures !Before(k, keys[0])
  {
    var j :| 0 <= j < |keys| && keys[j] == k;
    if j == 0 { NotBoth(k, k); } else { OrderedThroughout(keys, 0, j); }
  }

  lemma RestAlike(a: seq<string>, b: seq<string>)
    requires a != [] && b != [] && a[0] == b[0] && forall k :: k in a <==> k in b
    requires (forall i, j :: 0 <= i < j < |a| ==> a[i] != a[j]) && (forall i, j :: 0 <= i < j < |b| ==> b[i] != b[j])
    ensures forall k :: k in a[1..] <==> k in b[1..]
  {
    forall k | k in a[1..] ensures k in b[1..] {
      assert k in a && k != a[0];
    }
    forall k | k in b[1..] ensures k in a[1..] {
      assert k in b && k != b[0];
    }
  }

  /** The file does not depend on the order in which the map yields its keys. */
  lemma WrittenOnce(a: string, b: string, settings: Settings, table: Table)
    requires Written(a, settings, table) && Written(b, settings, table)
    ensures a == b
  {
    var relay, agent :| WrittenWith(a, relay, agent, settings, table);
    var relay', agent' :| WrittenWith(b, relay', agent', settings, table);
    hide InOrder, FileLines, AreSet, Name;
    OneOrder(relay, relay');
    OneOrder(agent, agent');
  }
}
