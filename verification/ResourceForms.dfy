/** Which URLs and scopes mean what: every text a client may write for a protected resource or a
    scope, told by its characters, beside the one text that the server stores. */
module ResourceForms {
  import opened Wrappers
  import opened RelayState
  import opened RelayInvariant
  import opened Resources
  import Text

  // ----------------------------------------------------------------- addresses

  predicate Slashes(s: string) {
    forall i :: 0 <= i < |s| ==> s[i] == '/'
  }

  /** The same letters, upper or lower case. */
  predicate SameLetters(a: string, b: string) {
    |a| == |b| && forall i :: 0 <= i < |a| ==> Text.LowerChar(a[i]) == Text.LowerChar(b[i])
  }

  /** The path between its outer slashes names the resource. */
  predicate Names(path: string, resource: Resource) {
    if resource.AccountMcp? then path == "mcp"
    else
      var kind := KindSegment(resource) + "/";
      match resource.device
      case Named(name) => Text.DeviceName(name) && path == kind + name
      case Immutable(id) =>
        kind + "id/" <= path &&
        var raw := path[|kind| + 3..];
        '/' !in raw && NormalizeDeviceId(raw) == Some(id)
  }

  ghost predicate Designates(base: Origin, u: Url, resource: Resource) {
    u.query == "" && u.fragment == "" && SameLetters(u.scheme, base.scheme) && SameLetters(u.host, base.host) &&
    exists before, path, behind :: u.path == before + path + behind && Slashes(before) && Slashes(behind) && Names(path, resource)
  }

  /** A URL designates a resource exactly when it is of this Relay's scheme and host, has neither
      query nor fragment, and its path, whatever slashes are around it, names the resource. */
  lemma ResourceExactly(base: Origin, u: Url, resource: Resource)
    ensures ResourceParts(base, u) == Some(resource) <==> Designates(base, u, resource)
  {
    hide NormalizeDeviceId, Text.DeviceName, TrimSlashes, Slashes, Text.Split;
    SameLower(u.scheme, base.scheme);
    SameLower(u.host, base.host);
    PathExactly(TrimSlashes(u.path), resource);
    var before, behind := TrimmedSlashes(u.path);
    hide Names, PathResource;
    if ResourceParts(base, u) == Some(resource) {
      assert u.path == before + TrimSlashes(u.path) + behind && Names(TrimSlashes(u.path), resource);
    }
    if Designates(base, u, resource) {
      var b, path, e :| u.path == b + path + e && Slashes(b) && Slashes(e) && Names(path, resource);
      NamesSolid(path, resource);
      TrimsTo(b, path, e);
      assert TrimSlashes(u.path) == path;
    }
    hide SameLetters;
  }

  lemma SameLower(a: string, b: string)
    ensures Text.Lower(a) == Text.Lower(b) <==> SameLetters(a, b)
  {
    var x, y := Text.Lower(a), Text.Lower(b);
    if SameLetters(a, b) { assert x == y; }
    if x == y {
      assert |x| == |a| && |y| == |b|;
      forall i | 0 <= i < |a| ensures Text.LowerChar(a[i]) == Text.LowerChar(b[i]) { assert x[i] == y[i]; }
    }
  }

  lemma {:induction false} TrimmedSlashes(s: string) returns (before: string, behind: string)
    ensures s == before + TrimSlashes(s) + behind && Slashes(before) && Slashes(behind)
    decreases |s|
  {
    if s != "" && s[0] == '/' {
      before, behind := TrimmedSlashes(s[1..]);
      before := "/" + before;
      assert s == "/" + s[1..];
    } else if s != "" && s[|s| - 1] == '/' {
      before, behind := TrimmedSlashes(s[..|s| - 1]);
      behind := behind + "/";
      assert s == s[..|s| - 1] + "/";
    } else {
      before, behind := "", "";
    }
  }

  lemma {:induction false} TrimsTo(before: string, path: string, behind: string)
    requires Slashes(before) && Slashes(behind) && path != "" && path[0] != '/' && path[|path| - 1] != '/'
    ensures TrimSlashes(before + path + behind) == path
    decreases |before| + |behind|
  {
    var s := before + path + behind;
    if before != "" {
      assert before[0] == '/' && Slashes(before[1..]) && s[1..] == before[1..] + path + behind;
      TrimsTo(before[1..], path, behind);
    } else if behind != "" {
      assert s[0] == path[0] && s[|s| - 1] == behind[|behind| - 1];
      assert s[..|s| - 1] == before + path + behind[..|behind| - 1];
      assert Slashes(behind[..|behind| - 1]);
      TrimsTo(before, path, behind[..|behind| - 1]);
    } else {
      assert s == path;
    }
  }

  /** What is between the outer slashes neither begins nor ends with one. */
  lemma NamesSolid(path: string, resource: Resource)
    requires Names(path, resource)
    ensures path != "" && path[0] != '/' && path[|path| - 1] != '/'
  {
    if resource.AccountMcp? {
    } else {
      var kind := KindSegment(resource) + "/";
      assert path[0] == kind[0];
      match resource.device {
        case Named(name) =>
          assert path[|path| - 1] == name[|name| - 1] && name[|name| - 1] in name;
        case Immutable(id) =>
          var raw := path[|kind| + 3..];
          assert raw != "" by { if raw == "" { NoId(); } }
          assert path[|path| - 1] == raw[|raw| - 1] && raw[|raw| - 1] in raw;
      }
    }
  }

  lemma NoId()
    ensures NormalizeDeviceId("").None?
  {
    assert Text.Trim("") == "";
  }

  lemma PathExactly(path: string, resource: Resource)
    ensures PathResource(path) == Some(resource) <==> Names(path, resource)
  {
    if Names(path, resource) { NamedParts(path, resource); }
    if PathResource(path) == Some(resource) && path != "mcp" { PartsNamed(path, resource); }
  }

  lemma NamedParts(path: string, resource: Resource)
    requires Names(path, resource)
    ensures PathResource(path) == Some(resource)
  {
    hide NormalizeDeviceId;
    if !resource.AccountMcp? {
      var kind := KindSegment(resource);
      assert '/' !in kind;
      match resource.device {
        case Named(name) =>
          assert '/' !in name;
          Text.SplitFirst(kind, '/', name);
          Text.SplitNone(name, '/');
          assert kind + ['/'] + name == path;
          assert Text.Split(path, '/') == [kind, name];
        case Immutable(id) =>
          var raw := path[|kind| + 4..];
          Text.SplitFirst(kind, '/', "id/" + raw);
          Text.SplitFirst("id", '/', raw);
          Text.SplitNone(raw, '/');
          assert "id" + ['/'] + raw == "id/" + raw;
          assert kind + ['/'] + ("id/" + raw) == path;
          assert Text.Split(path, '/') == [kind, "id", raw];
      }
      hide Text.Split, Text.DeviceName;
    }
  }

  lemma PartsNamed(path: string, resource: Resource)
    requires PathResource(path) == Some(resource) && path != "mcp"
    ensures Names(path, resource)
  {
    var parts := Text.Split(path, '/');
    SplitJoins(path, '/');
    hide Text.Split, NormalizeDeviceId, Text.DeviceName;
    var kind := parts[0];
    assert KindSegment(resource) == kind;
    if |parts| == 2 {
      assert parts[1..][0] == parts[1] && Joined(parts[1..], '/') == parts[1];
      assert path == kind + "/" + parts[1];
    } else {
      assert parts[1..][0] == parts[1] && parts[1..][1..] == [parts[2]] && Joined([parts[2]], '/') == parts[2];
      assert Joined(parts[1..], '/') == parts[1] + ['/'] + parts[2];
      assert path == kind + "/id/" + parts[2];
      assert path[|kind| + 4..] == parts[2] && kind + "/" + "id/" == path[..|kind| + 4];
    }
  }

  function Joined(parts: seq<string>, sep: char): string
    requires |parts| > 0
  {
    if |parts| == 1 then parts[0] else parts[0] + [sep] + Joined(parts[1..], sep)
  }

  /** Splitting loses nothing, and leaves no separator in any part. */
  lemma {:induction false} SplitJoins(s: string, sep: char)
    ensures Joined(Text.Split(s, sep), sep) == s
    ensures forall i :: 0 <= i < |Text.Split(s, sep)| ==> sep !in Text.Split(s, sep)[i]
  {
    if s != "" {
      SplitJoins(s[1..], sep);
      var rest, parts := Text.Split(s[1..], sep), Text.Split(s, sep);
      assert s == [s[0]] + s[1..];
      if s[0] == sep {
        assert parts[1..] == rest;
      } else {
        assert parts[1..] == rest[1..];
      }
    }
  }

  // -------------------------------------------------------------------- scopes

  /** From `i` on stand `n` characters without white space, with white space or an end of the text on either side. */
  predicate WordAt(s: string, i: nat, n: nat) {
    0 < n && i + n <= |s| && (forall k :: i <= k < i + n ==> !Text.IsSpace(s[k])) &&
    (i > 0 ==> Text.IsSpace(s[i - 1])) && (i + n < |s| ==> Text.IsSpace(s[i + n]))
  }

  ghost predicate HasWord(s: string, w: string) {
    exists i: nat :: WordAt(s, i, |w|) && s[i..i + |w|] == w
  }

  /** The fields of a text are exactly its words. */
  lemma {:induction false} FieldsExactly(s: string, w: string)
    ensures w in Fields(s) <==> HasWord(s, w)
    decreases |s|
  {
    hide Text.IsSpace;
    if s != "" {
      if Text.IsSpace(s[0]) {
        FieldsExactly(s[1..], w);
        AfterSpace(s, w);
      } else {
        var n := WordLength(s);
        FirstWord(s);
        FieldsExactly(s[n..], w);
        AfterWord(s, w);
      }
    }
  }

  lemma AfterSpace(s: string, w: string)
    requires s != "" && Text.IsSpace(s[0])
    ensures HasWord(s, w) <==> HasWord(s[1..], w)
  {
    hide Text.IsSpace;
    if HasWord(s, w) {
      var i: nat :| WordAt(s, i, |w|) && s[i..i + |w|] == w;
      Moved(s, 1, i - 1, |w|);
    }
    if HasWord(s[1..], w) {
      var i: nat :| WordAt(s[1..], i, |w|) && s[1..][i..i + |w|] == w;
      Moved(s, 1, i, |w|);
    }
  }

  /** A word is one in what follows a word's end just as in the whole. */
  lemma Moved(s: string, m: nat, i: nat, n: nat)
    requires m <= |s| && i + n <= |s| - m
    requires i > 0 || (m > 0 && Text.IsSpace(s[m - 1]))
    ensures WordAt(s[m..], i, n) <==> WordAt(s, m + i, n)
    ensures s[m..][i..i + n] == s[m + i..m + i + n]
  {
    hide Text.IsSpace;
    if WordAt(s[m..], i, n) {
      forall k | m + i <= k < m + i + n ensures !Text.IsSpace(s[k]) { assert s[k] == s[m..][k - m]; }
    }
  }

  /** The first word ends at white space or at the end. */
  lemma {:induction false} FirstWord(s: string)
    ensures forall i :: 0 <= i < WordLength(s) ==> !Text.IsSpace(s[i])
    ensures WordLength(s) == |s| || Text.IsSpace(s[WordLength(s)])
  {
    if s != "" && !Text.IsSpace(s[0]) {
      FirstWord(s[1..]);
      forall i | 0 <= i < WordLength(s) ensures !Text.IsSpace(s[i]) {
        if i > 0 { assert s[i] == s[1..][i - 1]; }
      }
    }
  }

  lemma AfterWord(s: string, w: string)
    requires s != "" && !Text.IsSpace(s[0])
    ensures HasWord(s, w) <==> w == s[..WordLength(s)] || HasWord(s[WordLength(s)..], w)
  {
    var n := WordLength(s);
    FirstWord(s);
    hide Text.IsSpace, WordLength;
    FirstOrLater(s, n, w);
    LaterToo(s, n, w);
    hide HasWord;
  }

  lemma FirstOrLater(s: string, n: nat, w: string)
    requires WordAt(s, 0, n)
    ensures HasWord(s, w) ==> w == s[..n] || HasWord(s[n..], w)
  {
    hide Text.IsSpace;
    if HasWord(s, w) {
      var i: nat :| WordAt(s, i, |w|) && s[i..i + |w|] == w;
      WordsPlace(s, n, i, |w|);
      if i > 0 { Later(s, n, i, w); }
    }
  }

  lemma Later(s: string, n: nat, i: nat, w: string)
    requires n <= |s| && n < i && WordAt(s, i, |w|) && s[i..i + |w|] == w
    ensures HasWord(s[n..], w)
  {
    hide Text.IsSpace;
    Moved(s, n, i - n, |w|);
  }

  lemma LaterToo(s: string, n: nat, w: string)
    requires WordAt(s, 0, n)
    ensures HasWord(s[n..], w) || w == s[..n] ==> HasWord(s, w)
  {
    hide Text.IsSpace;
    assert s[0..0 + n] == s[..n];
    if HasWord(s[n..], w) {
      var i: nat :| WordAt(s[n..], i, |w|) && s[n..][i..i + |w|] == w;
      assert i > 0;
      hide WordAt;
      Moved(s, n, i, |w|);
    }
  }

  /** A word is the first or stands behind it. */
  lemma WordsPlace(s: string, n: nat, i: nat, m: nat)
    requires WordAt(s, 0, n) && WordAt(s, i, m)
    ensures if i == 0 then m == n else n < i
  {
    hide Text.IsSpace;
  }

  /** A scope is accepted for a kind of access exactly when it has no words but the kind's own and
      `offline_access`, and the kind's own among them unless it has none at all; it stands for
      refreshing exactly when it asks for it or has no words. */
  lemma ScopeExactly(raw: string, kind: Kind)
    ensures var scope, own, offline := NormalizeScope(raw, kind), if kind.AgentKind? then "agent:connect" else "mcp", "offline_access";
            if forall w :: !HasWord(raw, w) then scope == Some(Scope(kind, true))
            else if HasWord(raw, own) && forall w :: HasWord(raw, w) ==> w == own || w == offline then scope == Some(Scope(kind, HasWord(raw, offline)))
            else scope.None?
  {
    forall w ensures w in Fields(raw) <==> HasWord(raw, w) { FieldsExactly(raw, w); }
    hide Fields, HasWord;
    assert Fields(raw) != [] ==> Fields(raw)[0] in Fields(raw);
    assert RequiredScope(kind) == if kind.AgentKind? then "agent:connect" else "mcp";
  }
}
