/** A login from beginning to end: a process in which an account and a client are good, or the
    client can be registered, comes to serve a new credential. */
module RelayLogin {
  import opened Wrappers
  import opened RelayState
  import opened RelayOps
  import opened RelayInvariant
  import opened RelayRequests
  import opened RelaySafety
  import opened RelayTokens
  import opened RelaySteps
  import opened RelayRuns
  import opened Resources
  import opened StateFile

  // ------------------------------------------------------------ request by request

  /** A client that acts for itself, not for a device. */
  predicate Unbound(c: Client) {
    c.deviceKey == NoKey && !c.keyVerified && c.deviceId == ""
  }

  /** The account may authorize the client for its own endpoint. */
  predicate Welcomes(s: State, now: int, u: string, c: string, redirect: string) {
    !s.switches.kill && s.switches.mcp && u != "" && ActiveUser(s.reg, u) && ClientMatches(s.reg, c) &&
    redirect in s.reg.clients[c].redirects && Unbound(s.reg.clients[c]) && !StaleClient(s.reg.clients[c], now)
  }

  const VERIFIER := "verifier-verifier-verifier-verifier-verifier"

  function Wanted(c: string, redirect: string): AuthRequest {
    AuthRequest(c, redirect, Scope(McpKind, false), AccountMcp, VERIFIER, "", false)
  }

  function Asked(c: string, redirect: string, now: int): Pending {
    Pending(c, redirect, Scope(McpKind, false), AccountMcp, VERIFIER, "", now + PENDING_LIFETIME, 0, "")
  }

  lemma CleanupWelcomes(s: State, now: int, u: string, c: string, redirect: string)
    requires Welcomes(s, now, u, c, redirect)
    ensures Welcomes(Cleanup(s, now), now, u, c, redirect) && Cleanup(s, now).switches == s.switches
    ensures s.grants.pending == map[] ==> Cleanup(s, now).grants.pending == map[]
  {
    hide LiveTokens, LiveCodes, LiveSessions, LiveInvites;
  }

  lemma Registers(s: State, now: int, id: string, redirect: string)
    requires s.switches.dcr && |s.reg.clients| < MAX_CLIENTS && id != "" && id !in s.reg.clients
    requires !s.switches.kill && s.switches.mcp && exists u :: u != "" && ActiveUser(s.reg, u)
    ensures var e := Effects(s, Config(false, false, false, ""), false, now, Register(id, Registration([redirect], false, NoKey), ""));
            e.Commit? && !e.recovery && e.attempt.grants.pending == Cleanup(s, now).grants.pending &&
            forall u :: u != "" && ActiveUser(s.reg, u) ==> Welcomes(e.attempt, now, u, id, redirect)
  {
    ClientsShrink(s, now);
    CleanupSame(s, now);
    CleanedKill(s, now);
    hide Cleanup, RevokeClients, Progress;
  }

  lemma ClientsShrink(s: State, now: int)
    ensures |Cleanup(s, now).reg.clients| <= |s.reg.clients|
  {
    hide CleanGrants, LiveSessions, LiveInvites;
    Smaller(Cleanup(s, now).reg.clients, s.reg.clients);
  }

  lemma {:induction false} Smaller<V>(a: map<string, V>, b: map<string, V>)
    requires a.Keys <= b.Keys
    ensures |a| <= |b|
    decreases |a|
  {
    if a != map[] {
      var k :| k in a;
      assert a == (a - {k})[k := a[k]] && b == (b - {k})[k := b[k]];
      Smaller(a - {k}, b - {k});
    }
  }

  lemma Begins(s: State, cfg: Config, now: int, request: string, u: string, c: string, redirect: string)
    requires Welcomes(s, now, u, c, redirect) && s.grants.pending == map[]
    ensures var e := Effects(s, cfg, false, now, Begin(request, Wanted(c, redirect)));
            e.Quiet? && Welcomes(e.next, now, u, c, redirect) && e.next.grants.pending == map[request := Asked(c, redirect, now)]
  {
    CleanupWelcomes(s, now, u, c, redirect);
    hide Cleanup;
    var a := Wanted(c, redirect);
    var t := Cleanup(s, now);
    assert (set k | k in t.grants.pending && t.grants.pending[k].ip == a.ip) == {};
    assert MayAskFor(t.reg, cfg, a);
  }

  lemma Allows(s: State, cfg: Config, now: int, request: string, u: string, c: string, redirect: string, code: string)
    requires Welcomes(s, now, u, c, redirect) && request in s.grants.pending && s.grants.pending[request] == Asked(c, redirect, now)
    ensures var e := Effects(s, cfg, false, now, Allow(request, u, code));
            e.Commit? && !e.recovery && Welcomes(e.attempt, now, u, c, redirect) && ApprovedClient(e.attempt.reg, c) &&
            code in e.attempt.grants.codes && e.attempt.grants.codes[code] == Code(Asked(c, redirect, now).(user := u), now + CODE_LIFETIME)
  {
    assert AuthorizeResource(s, false, u, c, AccountMcp) == Success(s.reg);
    hide AuthorizeResource;
  }

  function Redeeming(c: string, redirect: string, code: string): CodeRequest {
    CodeRequest(code, c, redirect, None, VERIFIER)
  }

  lemma Redeems(s: State, cfg: Config, now: int, u: string, c: string, redirect: string, code: string, f: Fresh)
    requires Welcomes(s, now, u, c, redirect) && ApprovedClient(s.reg, c) && f.access !in s.grants.access && f.refresh !in s.grants.refresh
    requires code in s.grants.codes && s.grants.codes[code] == Code(Asked(c, redirect, now).(user := u), now + CODE_LIFETIME)
    ensures var e := Effects(s, cfg, false, now, Redeem(Redeeming(c, redirect, code), f));
            e.Commit? && !e.recovery && Verifies(e.attempt, false, f.access, AccountMcp, McpKind)
  {
    var q := Redeeming(c, redirect, code);
    assert q.code == code;
    hide *;
    var e := Effects(s, cfg, false, now, Redeem(q, f));
    MayRedeem(s, now, u, c, redirect, code);
    Committed(s, cfg, now, q, f);
    RedeemYields(s, cfg, false, now, q, f, e.attempt);
    CleanupWelcomes(s, now, u, c, redirect);
    CleanupKeepsClient(s, now, c);
    GoodGrant(Cleanup(s, now), e.attempt, now, u, c, redirect, f, s.grants.codes[code].grant);
  }

  lemma MayRedeem(s: State, now: int, u: string, c: string, redirect: string, code: string)
    requires Welcomes(s, now, u, c, redirect) && ApprovedClient(s.reg, c)
    requires code in s.grants.codes && s.grants.codes[code] == Code(Asked(c, redirect, now).(user := u), now + CODE_LIFETIME)
    ensures Redeemable(s, false, now, Redeeming(c, redirect, code))
  {
    hide PkceMatches, VERIFIER;
    VerifierMatches();
  }

  lemma VerifierMatches()
    ensures PkceMatches(VERIFIER, VERIFIER)
  {
  }

  lemma Committed(s: State, cfg: Config, now: int, q: CodeRequest, f: Fresh)
    requires Redeemable(s, false, now, q)
    ensures var e, t := Effects(s, cfg, false, now, Redeem(q, f)), Cleanup(s, now);
            e.Commit? && !e.recovery && e.attempt.reg == t.reg && e.attempt.switches == t.switches && Outcome(e, e.attempt)
  {
    RedeemableCleaned(s, false, now, q);
    hide Cleanup, Redeemable;
  }

  lemma GoodGrant(s: State, t: State, now: int, u: string, c: string, redirect: string, f: Fresh, p: Pending)
    requires Welcomes(s, now, u, c, redirect) && ApprovedClient(s.reg, c) && t.reg == s.reg && t.switches == s.switches
    requires Grants1(s.grants, t.grants, f, p) && p == Asked(c, redirect, now).(user := u)
    ensures Verifies(t, false, f.access, AccountMcp, McpKind)
  {
  }

  // ---------------------------------------------------------------- as a run

  /** The request is served and, if it is one that saves, saved. */
  lemma Serves(base: Origin, r: Relay, now: int, q: Request)
    requires Sound(r) && r.up && !r.fault && WellFormed(q) && Draws(q, r.drawn)
    ensures var ev, e := Serve(now, q, Saved), Effects(r.st, r.cfg, false, now, q);
            Allowed(r, ev) && (r.disk.file.Some? ==> Writable(r.disk.file.value)) &&
            var n := Next(base, r, ev);
            Sound(n) && n.up && !n.fault && n.drawn == r.drawn + Names(q) && n.cfg == r.cfg && n.st == if e.Commit? then e.attempt else e.next
  {
    hide SoundState, SoundDisk, Writable, Effects, WellFormed, Draws, Names, NewlyCommitted, NewLineage, FileDurable, ImageOf, DiskAfter;
    if r.disk.file.Some? { SoundWritable(base, r); }
    NextSound(base, r, Serve(now, q, Saved));
  }

  /** A request that can be part of a login. */
  predicate LogsIn(ev: Event) {
    ev.Serve? && !Releases(ev.request)
  }

  /** From here some requests lead to a credential that works. */
  ghost predicate Reopens(base: Origin, r: Relay) {
    exists evs, t: Relay, key :: Reaches(base, r, evs, t) && (forall ev :: ev in evs ==> LogsIn(ev)) &&
                                 t.up && Verifies(t.st, t.fault, key, AccountMcp, McpKind)
  }

  lemma ReopensSooner(base: Origin, r: Relay, ev: Event)
    requires Allowed(r, ev) && LogsIn(ev) && (r.disk.file.Some? ==> Writable(r.disk.file.value)) && Reopens(base, Next(base, r, ev))
    ensures Reopens(base, r)
  {
    hide Allowed, LogsIn, Writable, Next, Reaches, Verifies;
    var evs, t: Relay, key :| Reaches(base, Next(base, r, ev), evs, t) && (forall e :: e in evs ==> LogsIn(e)) &&
                              t.up && Verifies(t.st, t.fault, key, AccountMcp, McpKind);
    ReachesMore(base, r, ev, evs, t);
    assert forall e :: e in [ev] + evs ==> LogsIn(e);
  }

  lemma ReopensNow(base: Origin, r: Relay, key: string)
    requires r.up && Verifies(r.st, r.fault, key, AccountMcp, McpKind)
    ensures Reopens(base, r)
  {
    hide Verifies, LogsIn;
    assert Reaches(base, r, [], r);
  }

  /** The requests of a login are well formed and may be sent, with a new name. */
  lemma RegisterReady(drawn: set<string>, now: int, id: string)
    requires id != "" && id !in drawn
    ensures var q := Register(id, Registration(["https://client"], false, NoKey), "");
            WellFormed(q) && Draws(q, drawn) && LogsIn(Serve(now, q, Saved))
  {
  }

  lemma BeginReady(drawn: set<string>, now: int, request: string, c: string, redirect: string)
    requires request != "" && request !in drawn
    ensures var q := Begin(request, Wanted(c, redirect)); WellFormed(q) && Draws(q, drawn) && LogsIn(Serve(now, q, Saved))
  {
  }

  lemma AllowReady(drawn: set<string>, now: int, request: string, u: string, code: string)
    requires code != "" && code !in drawn
    ensures var q := Allow(request, u, code); WellFormed(q) && Draws(q, drawn) && LogsIn(Serve(now, q, Saved))
  {
  }

  lemma RedeemReady(drawn: set<string>, now: int, c: CodeRequest, n: string)
    requires n != "" && n !in drawn
    ensures var q := Redeem(c, Fresh(n, n, n)); WellFormed(q) && Draws(q, drawn) && LogsIn(Serve(now, q, Saved))
  {
  }

  /** The last step: the code is redeemed. */
  lemma RedeemReopens(base: Origin, r: Relay, now: int, u: string, c: string, redirect: string, code: string)
    requires Sound(r) && r.up && !r.fault && Welcomes(r.st, now, u, c, redirect) && ApprovedClient(r.st.reg, c)
    requires code in r.st.grants.codes && r.st.grants.codes[code] == Code(Asked(c, redirect, now).(user := u), now + CODE_LIFETIME)
    ensures Reopens(base, r)
  {
    hide *;
    var n := FreshName(r.drawn + r.st.grants.access.Keys + r.st.grants.refresh.Keys);
    var f := Fresh(n, n, n);
    var q := Redeem(Redeeming(c, redirect, code), f);
    RedeemReady(r.drawn, now, Redeeming(c, redirect, code), n);
    Redeems(r.st, r.cfg, now, u, c, redirect, code, f);
    Serves(base, r, now, q);
    ReopensNow(base, Next(base, r, Serve(now, q, Saved)), n);
    ReopensSooner(base, r, Serve(now, q, Saved));
  }

  lemma AllowReopens(base: Origin, r: Relay, now: int, request: string, u: string, c: string, redirect: string)
    requires Sound(r) && r.up && !r.fault && Welcomes(r.st, now, u, c, redirect)
    requires request in r.st.grants.pending && r.st.grants.pending[request] == Asked(c, redirect, now)
    ensures Reopens(base, r)
  {
    hide *;
    var code := FreshName(r.drawn);
    var q := Allow(request, u, code);
    AllowReady(r.drawn, now, request, u, code);
    Allows(r.st, r.cfg, now, request, u, c, redirect, code);
    Serves(base, r, now, q);
    RedeemReopens(base, Next(base, r, Serve(now, q, Saved)), now, u, c, redirect, code);
    ReopensSooner(base, r, Serve(now, q, Saved));
  }

  /** Where an account and a client are good and no request is pending, a login succeeds. */
  lemma LoginReopens(base: Origin, r: Relay, now: int, u: string, c: string, redirect: string)
    requires Sound(r) && r.up && !r.fault && Welcomes(r.st, now, u, c, redirect) && r.st.grants.pending == map[]
    ensures Reopens(base, r)
  {
    hide *;
    var request := FreshName(r.drawn);
    var q := Begin(request, Wanted(c, redirect));
    BeginReady(r.drawn, now, request, c, redirect);
    Begins(r.st, r.cfg, now, request, u, c, redirect);
    Serves(base, r, now, q);
    AllowReopens(base, Next(base, r, Serve(now, q, Saved)), now, request, u, c, redirect);
    ReopensSooner(base, r, Serve(now, q, Saved));
  }

  /** Where there is no client, one is registered first. */
  lemma NewClientReopens(base: Origin, r: Relay, now: int, u: string)
    requires Sound(r) && r.up && !r.fault && r.st.grants.pending == map[] && u != "" && ActiveUser(r.st.reg, u)
    requires !r.st.switches.kill && r.st.switches.mcp && r.st.switches.dcr && |r.st.reg.clients| < MAX_CLIENTS
    ensures Reopens(base, r)
  {
    hide *;
    var id := FreshName(r.drawn + r.st.reg.clients.Keys);
    var q := Register(id, Registration(["https://client"], false, NoKey), "");
    RegisterReady(r.drawn, now, id);
    RegistersHere(r.st, r.cfg, now, id, u);
    Serves(base, r, now, q);
    LoginReopens(base, Next(base, r, Serve(now, q, Saved)), now, u, id, "https://client");
    ReopensSooner(base, r, Serve(now, q, Saved));
  }

  lemma RegistersHere(s: State, cfg: Config, now: int, id: string, u: string)
    requires s.switches.dcr && |s.reg.clients| < MAX_CLIENTS && id != "" && id !in s.reg.clients
    requires !s.switches.kill && s.switches.mcp && u != "" && ActiveUser(s.reg, u) && s.grants.pending == map[]
    ensures var e := Effects(s, cfg, false, now, Register(id, Registration(["https://client"], false, NoKey), ""));
            e.Commit? && e.attempt.grants.pending == map[] && Welcomes(e.attempt, now, u, id, "https://client")
  {
    Registers(s, now, id, "https://client");
    NoRequests(s, now);
    hide RegisterClient, Welcomes, ActiveUser, Cleanup;
  }

  lemma NoRequests(s: State, now: int)
    requires s.grants.pending == map[]
    ensures Cleanup(s, now).grants.pending == map[]
  {
    hide LiveTokens, LiveCodes, LiveSessions, LiveInvites, FreshClients;
  }
}
