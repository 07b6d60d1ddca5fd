/** Canonical forms: device routes, protected-resource URLs and scopes.

    A URL is what `url.Parse` makes of its text. */
module Resources {
  import opened Wrappers
  import opened RelayState
  import opened RelayInvariant
  import Text

  datatype Origin = Origin(scheme: string, host: string)

  datatype Url = Url(scheme: string, host: string, path: string, query: string, fragment: string)

  // ------------------------------------------------------------------- routes

  function NormalizeDeviceId(raw: string): (id: Option<string>)
    ensures id.Some? ==> Text.DeviceId(id.value)
  {
    var t := Text.Lower(Text.Trim(raw));
    if Text.DeviceId(t) then Some(t) else None
  }

  function CanonicalRoute(raw: string): (r: Option<Route>)
    ensures r.Some? ==> RouteOk(r.value)
  {
    var t := Text.Trim(raw);
    if "id/" <= t then
      var id := NormalizeDeviceId(t[3..]);
      if id.Some? then Some(Immutable(id.value)) else None
    else if Text.DeviceName(t) then Some(Named(t)) else None
  }

  function RouteText(r: Route): string {
    match r
    case Named(name) => name
    case Immutable(id) => "id/" + id
  }

  lemma TightName(s: string)
    requires s != "" && forall c :: c in s ==> Text.NameChar(c) || c == '/'
    ensures Text.Tight(s)
  {
    assert s[0] in s && s[|s| - 1] in s;
  }

  lemma HexIsStable(id: string)
    requires Text.DeviceId(id)
    ensures NormalizeDeviceId(id) == Some(id)
  {
    TightName(id);
    Text.TrimTight(id);
    Text.LowerStable(id);
  }

  /** The text of a valid route is canonical: reading it back gives the same route. */
  lemma RouteRoundTrip(r: Route)
    requires RouteOk(r)
    ensures CanonicalRoute(RouteText(r)) == Some(r)
  {
    var t := RouteText(r);
    TightName(t);
    Text.TrimTight(t);
    if r.Immutable? {
      assert t[3..] == r.id;
      HexIsStable(r.id);
    } else {
      assert |t| > 2 ==> t[2] != '/' by { if |t| > 2 { assert t[2] in t; } }
    }
  }

  // ---------------------------------------------------------------- resources

  function TrimSlashes(s: string): string
    decreases |s|
  {
    if s != "" && s[0] == '/' then TrimSlashes(s[1..])
    else if s != "" && s[|s| - 1] == '/' then TrimSlashes(s[..|s| - 1])
    else s
  }

  function DeviceResource(kind: string, r: Route): Resource {
    if kind == "agent" then Agent(r) else Mcp(r)
  }

  /** What a path without outer slashes designates. */
  function PathResource(path: string): (resource: Option<Resource>)
    ensures resource.Some? ==> ResourceOk(resource.value)
  {
    if path == "mcp" then Some(AccountMcp)
    else
      var parts := Text.Split(path, '/');
      if |parts| < 2 || |parts| > 3 || (parts[0] != "mcp" && parts[0] != "agent") then None
      else if |parts| == 2 then
        if Text.DeviceName(parts[1]) then Some(DeviceResource(parts[0], Named(parts[1]))) else None
      else
        var id := NormalizeDeviceId(parts[2]);
        if parts[1] != "id" || id.None? then None else Some(DeviceResource(parts[0], Immutable(id.value)))
  }

  /** `resourceParts`: what a URL designates on this Relay, if anything. */
  function ResourceParts(base: Origin, u: Url): (parts: Option<Resource>)
    ensures parts.Some? ==> ResourceOk(parts.value)
  {
    if u.query != "" || u.fragment != "" || Text.Lower(u.scheme) != Text.Lower(base.scheme) ||
       Text.Lower(u.host) != Text.Lower(base.host) then None
    else PathResource(TrimSlashes(u.path))
  }

  function KindSegment(resource: Resource): string {
    if resource.Agent? then "agent" else "mcp"
  }

  /** The one URL the server stores for a resource. */
  function ResourceUrl(base: Origin, resource: Resource): Url {
    Url(base.scheme, base.host,
        if resource.AccountMcp? then "/mcp" else "/" + KindSegment(resource) + "/" + RouteText(resource.device), "", "")
  }

  function DevicePath(kind: string, r: Route): string {
    kind + "/" + RouteText(r)
  }

  lemma PathParts(kind: string, r: Route)
    requires RouteOk(r) && kind in {"mcp", "agent"}
    ensures Text.Split(DevicePath(kind, r), '/') == if r.Named? then [kind, r.name] else [kind, "id", r.id]
  {
    Text.SplitFirst(kind, '/', RouteText(r));
    match r {
      case Named(name) =>
        Text.SplitNone(name, '/');
      case Immutable(id) =>
        Text.SplitFirst("id", '/', id);
        Text.SplitNone(id, '/');
        assert "id" + ['/'] + id == RouteText(r);
    }
    assert kind + ['/'] + RouteText(r) == DevicePath(kind, r);
  }

  lemma PathTrims(kind: string, r: Route)
    requires RouteOk(r) && kind in {"mcp", "agent"}
    ensures TrimSlashes("/" + DevicePath(kind, r)) == DevicePath(kind, r) != "mcp"
  {
    var p, t := DevicePath(kind, r), RouteText(r);
    assert ("/" + p)[1..] == p && p[|kind|] == '/' && p[|p| - 1] == t[|t| - 1] && p[0] == kind[0];
    match r {
      case Named(name) => assert t[|t| - 1] in name;
      case Immutable(id) => assert t[|t| - 1] == id[31] && id[31] in id;
    }
  }

  lemma AccountRoundTrip(base: Origin)
    ensures ResourceParts(base, ResourceUrl(base, AccountMcp)) == Some(AccountMcp)
  {
    hide Text.Lower, Text.Split, Text.DeviceName, NormalizeDeviceId;
    assert TrimSlashes("/mcp") == TrimSlashes("mcp") == "mcp" by { assert "/mcp"[1..] == "mcp"; }
  }

  /** The stored URL of a valid resource designates that resource. */
  lemma ResourceRoundTrip(base: Origin, resource: Resource)
    requires ResourceOk(resource)
    ensures ResourceParts(base, ResourceUrl(base, resource)) == Some(resource)
  {
    hide TrimSlashes, Text.Split, Text.Lower, Text.DeviceName, Text.DeviceId, NormalizeDeviceId, DevicePath, RouteText;
    if resource.AccountMcp? {
      AccountRoundTrip(base);
    } else {
      var r, kind := resource.device, KindSegment(resource);
      PathShape(base, resource);
      PathTrims(kind, r);
      PathParts(kind, r);
      if r.Immutable? {
        HexIsStable(r.id);
      }
    }
  }

  lemma PathShape(base: Origin, resource: Resource)
    requires HasDevice(resource)
    ensures ResourceUrl(base, resource).path == "/" + DevicePath(KindSegment(resource), resource.device)
  {
  }

  // ------------------------------------------------------------------- scopes

  function WordLength(s: string): (n: nat)
    ensures n <= |s|
    ensures s != "" && !Text.IsSpace(s[0]) ==> n > 0
  {
    if s == "" || Text.IsSpace(s[0]) then 0 else 1 + WordLength(s[1..])
  }

  /** `strings.Fields` */
  function Fields(s: string): seq<string>
    decreases |s|
  {
    if s == "" then []
    else if Text.IsSpace(s[0]) then Fields(s[1..])
    else [s[..WordLength(s)]] + Fields(s[WordLength(s)..])
  }

  function RequiredScope(kind: Kind): string {
    if kind.AgentKind? then "agent:connect" else "mcp"
  }

  const OFFLINE := "offline_access"

  /** `normalizeScope` */
  function NormalizeScope(raw: string, kind: Kind): Option<Scope> {
    var fields := Fields(raw);
    if fields == [] then Some(Scope(kind, true))
    else if exists f :: f in fields && f != RequiredScope(kind) && f != OFFLINE then None
    else if RequiredScope(kind) !in fields then None
    else Some(Scope(kind, OFFLINE in fields))
  }

  function ScopeText(scope: Scope): string {
    RequiredScope(scope.kind) + if scope.offline then " " + OFFLINE else ""
  }

  lemma {:induction false} OneWord(w: string, rest: string)
    requires forall c :: c in w ==> !Text.IsSpace(c)
    requires rest != "" ==> Text.IsSpace(rest[0])
    ensures WordLength(w + rest) == |w|
  {
    if w == "" {
      assert w + rest == rest;
    } else {
      OneWord(w[1..], rest);
      assert (w + rest)[1..] == w[1..] + rest && w[0] in w;
    }
  }

  lemma FieldsOfWord(w: string, rest: string)
    requires w != "" && forall c :: c in w ==> !Text.IsSpace(c)
    requires rest != "" ==> Text.IsSpace(rest[0])
    ensures Fields(w + rest) == [w] + Fields(rest)
  {
    OneWord(w, rest);
    assert w[0] in w && (w + rest)[..|w|] == w && (w + rest)[|w|..] == rest;
  }

  lemma FieldsOfNothing()
    ensures Fields("") == []
  {
  }

  lemma FieldsAfterSpace(s: string)
    ensures Fields(" " + s) == Fields(s)
  {
    assert (" " + s)[1..] == s;
  }

  lemma Solid(kind: Kind)
    ensures forall c :: c in RequiredScope(kind) ==> !Text.IsSpace(c)
    ensures forall c :: c in OFFLINE ==> !Text.IsSpace(c)
  {
  }

  lemma FieldsOfScope(scope: Scope)
    ensures Fields(ScopeText(scope)) == [RequiredScope(scope.kind)] + if scope.offline then [OFFLINE] else []
  {
    hide Fields, Text.IsSpace;
    var required, offline := RequiredScope(scope.kind), OFFLINE;
    Solid(scope.kind);
    FieldsOfNothing();
    if scope.offline {
      FieldsOfWord(offline, "");
      assert offline + "" == offline;
      FieldsAfterSpace(offline);
      assert Text.IsSpace(' ') by { SpaceIsSpace(); }
      FieldsOfWord(required, " " + offline);
      assert required + (" " + offline) == ScopeText(scope);
    } else {
      FieldsOfWord(required, "");
      assert required + "" == ScopeText(scope);
    }
  }

  lemma SpaceIsSpace()
    ensures Text.IsSpace(' ')
  {
  }

  /** The stored text of a scope normalizes to that scope. */
  lemma ScopeRoundTrip(scope: Scope)
    ensures NormalizeScope(ScopeText(scope), scope.kind) == Some(scope)
  {
    FieldsOfScope(scope);
    hide Fields, ScopeText;
    assert RequiredScope(scope.kind) != OFFLINE by { assert |RequiredScope(scope.kind)| != |OFFLINE|; }
  }
}
