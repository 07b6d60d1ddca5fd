/** Tokens and codes across one request: refresh rotation, replay, what an exchange
    issues and to whom, and which random names a request brings along. */
module RelayTokens {
  import opened Wrappers
  import opened RelayState
  import opened RelayOps
  import opened RelayInvariant
  import opened RelayRequests
  import opened RelaySafety

  /** A family has at most one live refresh token. Tokens older than families share the empty one. */
  ghost predicate OneLive(refresh: map<string, Token>) {
    forall j, k :: j in refresh && k in refresh && refresh[j].family == refresh[k].family != "" ==> j == k
  }

  ghost predicate Known(m: map<string, Token>, drawn: set<string>) {
    forall k :: k in m ==> k in drawn && (m[k].family == "" || m[k].family in drawn)
  }

  /** Rotation is intact, and every token and family bears a name that was drawn. */
  ghost predicate Rotates(g: Grants, drawn: set<string>) {
    OneLive(g.refresh) && g.refresh.Keys !! g.refreshUsed.Keys &&
    Known(g.access, drawn) && Known(g.refresh, drawn) && Known(g.refreshUsed, drawn)
  }

  /** The names a request draws at random. */
  function Names(q: Request): set<string> {
    match q
    case Register(id, _, _) => {id}
    case Begin(request, _) => {request}
    case Allow(_, _, code) => {code}
    case Join(_, account, _, code, session) => {account.id, code, session}
    case Redeem(_, f) => {f.access, f.refresh, f.family}
    case Rotate(_, f) => {f.access, f.refresh, f.family}
    case Login(_, handle) => {handle}
    case Reauth(_, _, renewed) => {renewed}
    case IssueInvite(_, handle) => {handle}
    case FirstRun(_, _, id, _, _) => {id}
    case Manage(_, a) => if a.CreateAccount? then {a.id} else {}
    case _ => {}
  }

  predicate Draws(q: Request, drawn: set<string>) {
    Names(q) !! drawn && "" !in Names(q)
  }

  // ---------------------------------------------------------------- rotation

  lemma FewerTokensRotate(a: Grants, b: Grants, drawn: set<string>, more: set<string>)
    requires SubTokens(a, b) && Rotates(b, drawn) && drawn <= more
    ensures Rotates(a, more)
  {
  }

  lemma IssuedRotate(g: Grants, f: Fresh, client: string, u: string, resource: Resource, scope: Scope, family: string, now: int,
                     drawn: set<string>, more: set<string>)
    requires Rotates(g, drawn) && f.refresh !in g.refreshUsed && drawn + {f.access, f.refresh, f.family} <= more
    requires family == "" || family in more
    requires family != "" ==> forall k :: k in g.refresh ==> g.refresh[k].family != family
    ensures Rotates(Issue(g, f, client, u, resource, scope, family, now), more)
  {
  }

  lemma RedeemRotates(c: State, fault: bool, now: int, q: CodeRequest, f: Fresh, t: State, drawn: set<string>)
    requires Rotates(c.grants, drawn) && {f.access, f.refresh, f.family} !! drawn && f.family != ""
    requires Outcome(RedeemCode(c, fault, now, q, f), t)
    ensures Rotates(t.grants, drawn + {f.access, f.refresh, f.family})
  {
    var more := drawn + {f.access, f.refresh, f.family};
    hide OwnedByUser, CodeBound, Issue;
    if q.code in c.grants.codes {
      var p := c.grants.codes[q.code].grant;
      var g := c.grants.(codes := c.grants.codes - {q.code});
      IssuedRotate(g, f, p.client, p.user, p.resource, p.scope, f.family, now, drawn, more);
      var issued := Issue(g, f, p.client, p.user, p.resource, p.scope, f.family, now);
      FewerTokensRotate(issued.(access := issued.access - {f.access}, refresh := issued.refresh - {f.refresh}), issued, more, more);
    }
    FewerTokensRotate(c.grants, c.grants, drawn, more);
  }

  /** The used key moves from live to used, with its family settled. */
  function Moved(g: Grants, key: string, kept: Token): Grants {
    g.(refresh := g.refresh - {key}, refreshUsed := g.refreshUsed[key := kept])
  }

  lemma MovedRotates(g: Grants, key: string, kept: Token, drawn: set<string>, more: set<string>)
    requires Rotates(g, drawn) && key in g.refresh && drawn <= more && kept.family in more
    requires kept.family == g.refresh[key].family || kept.family !in drawn
    ensures Rotates(Moved(g, key, kept), more)
    ensures forall k :: k in Moved(g, key, kept).refresh ==> Moved(g, key, kept).refresh[k].family != kept.family || kept.family == ""
    ensures Rotates(g.(refresh := g.refresh[key := kept]), more)
  {
  }

  lemma RotateRotates(c: State, fault: bool, now: int, q: RefreshRequest, f: Fresh, t: State, drawn: set<string>)
    requires Rotates(c.grants, drawn) && {f.access, f.refresh, f.family} !! drawn && f.family != ""
    requires Outcome(RotateToken(c, fault, now, q, f), t)
    ensures Rotates(t.grants, drawn + {f.access, f.refresh, f.family})
  {
    var more := drawn + {f.access, f.refresh, f.family};
    if SubTokens(t.grants, c.grants) {
      FewerTokensRotate(t.grants, c.grants, drawn, more);
    } else {
      var live := c.grants.refresh[q.key];
      var kept := live.(family := if live.family == "" then f.family else live.family);
      var g := Moved(c.grants, q.key, kept);
      var issued := Issue(g, f, live.client, live.user, live.resource, live.scope, kept.family, now);
      assert t.grants == issued || SubTokens(t.grants, c.grants.(refresh := c.grants.refresh[q.key := kept])) by {
        RotateShape(c, fault, now, q, f, t);
      }
      assert f.refresh !in g.refreshUsed;
      hide RotateToken, RevokeFamily, Outcome, Issue;
      MovedRotates(c.grants, q.key, kept, drawn, drawn + {f.family});
      IssuedRotate(g, f, live.client, live.user, live.resource, live.scope, kept.family, now, drawn + {f.family}, more);
      if t.grants != issued {
        FewerTokensRotate(t.grants, c.grants.(refresh := c.grants.refresh[q.key := kept]), drawn + {f.family}, more);
      }
    }
  }

  /** The four ways a refresh can end. */
  lemma RotateShape(c: State, fault: bool, now: int, q: RefreshRequest, f: Fresh, t: State)
    requires Outcome(RotateToken(c, fault, now, q, f), t)
    ensures SubGrants(t.grants, c.grants) ||
            (Presents(c.grants, q) &&
             var live := c.grants.refresh[q.key];
             var kept := live.(family := if live.family == "" then f.family else live.family);
             t.grants == Issue(Moved(c.grants, q.key, kept), f, live.client, live.user, live.resource, live.scope, kept.family, now) ||
             SubTokens(t.grants, c.grants.(refresh := c.grants.refresh[q.key := kept])))
  {
    hide RevokeFamily, OwnedByUser;
  }

  lemma ExchangeRotates(s: State, cfg: Config, fault: bool, now: int, q: Request, t: State, drawn: set<string>)
    requires Rotates(s.grants, drawn) && Draws(q, drawn) && IsExchange(q) && Outcome(Effects(s, cfg, fault, now, q), t)
    ensures Rotates(t.grants, drawn + Names(q))
  {
    var c := Cleanup(s, now);
    assert SubTokens(c.grants, s.grants) by { CleanupShrinks(s.reg, s.grants, now); }
    hide Rotates, Cleanup, RedeemCode, RotateToken, SubTokens, Outcome;
    FewerTokensRotate(c.grants, s.grants, drawn, drawn);
    match q {
      case Redeem(r, f) => RedeemRotates(c, fault, now, r, f, t, drawn);
      case Rotate(r, f) => RotateRotates(c, fault, now, r, f, t, drawn);
    }
  }

  /** No request leaves a family with two live refresh tokens, or a token both live and used. */
  lemma RequestRotates(s: State, cfg: Config, fault: bool, now: int, q: Request, t: State, drawn: set<string>)
    requires Rotates(s.grants, drawn) && Draws(q, drawn) && Outcome(Effects(s, cfg, fault, now, q), t)
    ensures Rotates(t.grants, drawn + Names(q))
  {
    hide *;
    if IsExchange(q) {
      ExchangeRotates(s, cfg, fault, now, q, t, drawn);
    } else {
      OnlyExchangesIssue(s, cfg, fault, now, q, t);
      FewerTokensRotate(t.grants, s.grants, drawn, drawn + Names(q));
    }
  }

  // ------------------------------------------------------------------- replay

  /** Nothing is left of the family, live or used. */
  ghost predicate Extinct(g: Grants, family: string) {
    (forall k :: k in g.access ==> g.access[k].family != family) &&
    (forall k :: k in g.refresh ==> g.refresh[k].family != family) &&
    (forall k :: k in g.refreshUsed ==> g.refreshUsed[k].family != family)
  }

  /** `b` is `a` without the tokens of one family. */
  ghost predicate LosesFamily(a: map<string, Token>, b: map<string, Token>, family: string) {
    Sub(b, a) && forall k :: k in a ==> (k in b <==> a[k].family != family)
  }

  lemma ReplayedHere(c: State, fault: bool, now: int, q: RefreshRequest, f: Fresh, t: State)
    requires !Presents(c.grants, q) && Replays(c.grants, q) && Outcome(RotateToken(c, fault, now, q, f), t)
    ensures t == c.(grants := RevokeFamily(c.grants, c.grants.refreshUsed[q.key].family))
  {
    hide RevokeFamily;
  }

  lemma RevokedFamily(g: Grants, family: string)
    requires family != ""
    ensures var r := RevokeFamily(g, family);
            Extinct(r, family) && LosesFamily(g.access, r.access, family) && LosesFamily(g.refresh, r.refresh, family) &&
            LosesFamily(g.refreshUsed, r.refreshUsed, family)
  {
  }

  lemma CleanedUsed(s: State, now: int, key: string)
    requires key in s.grants.refreshUsed && TokenLive(s.reg, s.grants.refreshUsed[key], now)
    ensures var m := Cleanup(s, now).grants.refreshUsed; key in m && m[key] == s.grants.refreshUsed[key]
  {
    hide TokenLive, LivePendings, LiveCodes, FreshClients, LiveSessions, LiveInvites;
  }

  /** A used token still on record that is presented again takes its whole family with it and
      nothing else, even when the save fails. */
  lemma ReplayRevokes(s: State, cfg: Config, fault: bool, now: int, q: RefreshRequest, f: Fresh, t: State, drawn: set<string>)
    requires Rotates(s.grants, drawn)
    requires Replays(s.grants, q) && TokenLive(s.reg, s.grants.refreshUsed[q.key], now)
    requires Outcome(Effects(s, cfg, fault, now, Rotate(q, f)), t)
    ensures var family, c := s.grants.refreshUsed[q.key].family, Cleanup(s, now);
            if family == "" then t == c
            else Extinct(t.grants, family) && LosesFamily(c.grants.access, t.grants.access, family) &&
                 LosesFamily(c.grants.refresh, t.grants.refresh, family) && LosesFamily(c.grants.refreshUsed, t.grants.refreshUsed, family)
  {
    var c, family := Cleanup(s, now), s.grants.refreshUsed[q.key].family;
    CleanedUsed(s, now, q.key);
    assert q.key !in c.grants.refresh by { CleanupShrinks(s.reg, s.grants, now); assert q.key !in s.grants.refresh; }
    hide Cleanup, RotateToken, Extinct, LosesFamily, Rotates, Outcome, TokenLive;
    ReplayedHere(c, fault, now, q, f, t);
    if family != "" {
      RevokedFamily(c.grants, family);
    }
  }

  /** A used token that clean-up has dropped from the record is nobody's token: presenting it does nothing. */
  lemma ReplayIgnored(s: State, cfg: Config, fault: bool, now: int, q: RefreshRequest, f: Fresh, t: State, drawn: set<string>)
    requires Rotates(s.grants, drawn)
    requires Replays(s.grants, q) && !TokenLive(s.reg, s.grants.refreshUsed[q.key], now)
    requires Outcome(Effects(s, cfg, fault, now, Rotate(q, f)), t)
    ensures t == Cleanup(s, now)
  {
    var c := Cleanup(s, now);
    assert q.key !in s.grants.refresh;
    CleanedTokens(s, now, q.key);
    DroppedUsed(s, now, q.key);
    hide Cleanup, TokenLive, Rotates;
  }

  lemma DroppedUsed(s: State, now: int, key: string)
    requires key in s.grants.refreshUsed && !TokenLive(s.reg, s.grants.refreshUsed[key], now)
    ensures key !in Cleanup(s, now).grants.refreshUsed
  {
    hide TokenLive, LivePendings, LiveCodes, FreshClients, LiveSessions, LiveInvites;
  }

  /** All tokens of the family stand for one client, one account and one resource. */
  ghost predicate FamilyShares(g: Grants, t: Token) {
    SharesIn(g.access, t) && SharesIn(g.refresh, t) && SharesIn(g.refreshUsed, t)
  }

  ghost predicate SharesIn(m: map<string, Token>, t: Token) {
    forall k :: k in m && m[k].family == t.family ==> m[k].client == t.client && m[k].user == t.user && m[k].resource == t.resource
  }

  /** Nothing is left of the family once clean-up has passed, if what they share is no longer good. */
  lemma UselessFamily(s: State, now: int, t: Token)
    requires FamilyShares(s.grants, t) && !(ApprovedClient(s.reg, t.client) && Intact(s.reg, t.user, t.resource))
    ensures Extinct(Cleanup(s, now).grants, t.family)
  {
    hide ApprovedClient, Intact, LivePendings, LiveCodes, FreshClients, LiveSessions, LiveInvites;
  }

  /** Exactly when a replay ends a family of which something was left: while the presented
      token has not passed its own expiry. Later nothing happens, although the family may
      live on in tokens issued after it. */
  lemma ReplayExactly(s: State, cfg: Config, fault: bool, now: int, q: RefreshRequest, f: Fresh, t: State, drawn: set<string>)
    requires Rotates(s.grants, drawn) && Replays(s.grants, q) && Outcome(Effects(s, cfg, fault, now, Rotate(q, f)), t)
    requires s.grants.refreshUsed[q.key].family != "" && FamilyShares(s.grants, s.grants.refreshUsed[q.key])
    ensures var used := s.grants.refreshUsed[q.key];
            Extinct(t.grants, used.family) <==> now < used.expires || Extinct(Cleanup(s, now).grants, used.family)
  {
    var used := s.grants.refreshUsed[q.key];
    var live := TokenLive(s.reg, used, now);
    assert live == (now < used.expires && ApprovedClient(s.reg, used.client) && Intact(s.reg, used.user, used.resource));
    hide Cleanup, TokenLive, Rotates, Extinct, LosesFamily, Outcome, Effects, FamilyShares, ApprovedClient, Intact;
    if live {
      ReplayRevokes(s, cfg, fault, now, q, f, t, drawn);
    } else {
      ReplayIgnored(s, cfg, fault, now, q, f, t, drawn);
      if now < used.expires {
        UselessFamily(s, now, used);
      }
    }
  }

  /** And it does live on: each rotation gives the successor a life of its own, so between the
      expiry of the rotated token and that of its successor a replay of the former leaves the
      latter good. */
  lemma LateReplayLeavesFamily(s: State, cfg: Config, fault: bool, early: int, q: RefreshRequest, f: Fresh, drawn: set<string>,
                               now: int, g: Fresh, t: State)
    requires Rotates(s.grants, drawn) && Draws(Rotate(q, f), drawn)
    requires Rotatable(s, fault, early, q) && s.grants.refresh[q.key].family != ""
    requires s.grants.refresh[q.key].expires <= now < early + REFRESH_LIFETIME
    ensures var e := Effects(s, cfg, fault, early, Rotate(q, f));
            e.Commit? && Replays(e.attempt.grants, q) &&
            (Outcome(Effects(e.attempt, cfg, fault, now, Rotate(q, g)), t) ==>
               f.refresh in t.grants.refresh && t.grants.refresh[f.refresh].family == s.grants.refresh[q.key].family)
  {
    var e, live := Effects(s, cfg, fault, early, Rotate(q, f)), s.grants.refresh[q.key];
    assert f.refresh != q.key by { assert q.key in drawn; }
    RotatedNext(s, cfg, fault, early, q, f);
    if Outcome(Effects(e.attempt, cfg, fault, now, Rotate(q, g)), t) {
      var next := e.attempt.grants.refresh[f.refresh];
      assert TokenLive(e.attempt.reg, next, now);
      assert Rotates(e.attempt.grants, drawn + Names(Rotate(q, f))) by {
        hide Effects, Rotates, Draws;
        RequestRotates(s, cfg, fault, early, Rotate(q, f), e.attempt, drawn);
      }
      assert !TokenLive(e.attempt.reg, e.attempt.grants.refreshUsed[q.key], now);
      hide Effects, Rotates, Draws, Rotatable, TokenLive, Outcome, Cleanup;
      ReplayIgnored(e.attempt, cfg, fault, now, q, g, t, drawn + Names(Rotate(q, f)));
      CleanedTokens(e.attempt, now, f.refresh);
    }
  }

  /** What a rotation that is saved leaves of the presented token and of its successor. */
  lemma RotatedNext(s: State, cfg: Config, fault: bool, early: int, q: RefreshRequest, f: Fresh)
    requires Rotatable(s, fault, early, q) && s.grants.refresh[q.key].family != "" && f.refresh != q.key
    ensures var e, live := Effects(s, cfg, fault, early, Rotate(q, f)), s.grants.refresh[q.key];
            e.Commit? && e.attempt.reg.users == s.reg.users && e.attempt.reg.devices == s.reg.devices && e.attempt.reg.records == s.reg.records &&
            ApprovedClient(e.attempt.reg, live.client) && Intact(e.attempt.reg, live.user, live.resource) &&
            q.key in e.attempt.grants.refreshUsed && e.attempt.grants.refreshUsed[q.key] == live &&
            f.refresh in e.attempt.grants.refresh &&
            e.attempt.grants.refresh[f.refresh] == Token(live.client, live.user, live.resource, live.scope, live.family, early + REFRESH_LIFETIME)
  {
    var c, live := Cleanup(s, early), s.grants.refresh[q.key];
    RotatableCleaned(s, fault, early, q);
    CleanupKeepsClient(s, early, live.client);
    assert c.reg == s.reg.(clients := c.reg.clients) by { hide CleanGrants, LiveSessions, LiveInvites, FreshClients; }
    hide Cleanup, OwnedByUser, ApprovedClient;
  }

  lemma ExtinctShrinks(a: Grants, b: Grants, family: string)
    requires SubTokens(a, b) && Extinct(b, family)
    ensures Extinct(a, family)
  {
  }

  lemma RedeemLeavesExtinct(c: State, fault: bool, now: int, q: CodeRequest, f: Fresh, t: State, family: string)
    requires Extinct(c.grants, family) && f.family != family && Outcome(RedeemCode(c, fault, now, q, f), t)
    ensures Extinct(t.grants, family)
  {
    hide OwnedByUser, CodeBound;
  }

  lemma RotateLeavesExtinct(c: State, fault: bool, now: int, q: RefreshRequest, f: Fresh, t: State, family: string)
    requires Extinct(c.grants, family) && f.family != family && family != "" && Outcome(RotateToken(c, fault, now, q, f), t)
    ensures Extinct(t.grants, family)
  {
    hide OwnedByUser, RevokeFamily, Replays;
    if SubTokens(t.grants, c.grants) {
      ExtinctShrinks(t.grants, c.grants, family);
    } else {
      RotateShape(c, fault, now, q, f, t);
    }
  }

  lemma ExchangeLeavesExtinct(s: State, cfg: Config, fault: bool, now: int, q: Request, t: State, drawn: set<string>, family: string)
    requires Extinct(s.grants, family) && family in drawn && family != "" && Draws(q, drawn) && IsExchange(q)
    requires Outcome(Effects(s, cfg, fault, now, q), t)
    ensures Extinct(t.grants, family)
  {
    var c := Cleanup(s, now);
    assert SubTokens(c.grants, s.grants) by { CleanupShrinks(s.reg, s.grants, now); }
    hide Extinct, Cleanup, RedeemCode, RotateToken, SubTokens, Outcome;
    ExtinctShrinks(c.grants, s.grants, family);
    match q {
      case Redeem(r, f) => RedeemLeavesExtinct(c, fault, now, r, f, t, family);
      case Rotate(r, f) => RotateLeavesExtinct(c, fault, now, r, f, t, family);
    }
  }

  /** A revoked family never comes back: no request can make a token of it again. */
  lemma StaysExtinct(s: State, cfg: Config, fault: bool, now: int, q: Request, t: State, drawn: set<string>, family: string)
    requires Extinct(s.grants, family) && family in drawn && family != "" && Draws(q, drawn)
    requires Outcome(Effects(s, cfg, fault, now, q), t)
    ensures Extinct(t.grants, family)
  {
    hide *;
    if IsExchange(q) {
      ExchangeLeavesExtinct(s, cfg, fault, now, q, t, drawn, family);
    } else {
      OnlyExchangesIssue(s, cfg, fault, now, q, t);
      ExtinctShrinks(t.grants, s.grants, family);
    }
  }

  // -------------------------------------------------------------- code exchange

  /** The token carries exactly what the user authorized. */
  predicate Carries(t: Token, p: Pending) {
    t.client == p.client && t.user == p.user && t.resource == p.resource && t.scope == p.scope
  }

  /** Who may redeem a code: its own client, at the registered redirect, with the
      verifier the challenge was made from, while the account and device are still good. */
  predicate Redeemable(s: State, fault: bool, now: int, q: CodeRequest) {
    q.code in s.grants.codes && now <= s.grants.codes[q.code].expires &&
    var p := s.grants.codes[q.code].grant;
    p.client == q.client && p.redirect == q.redirect && PkceMatches(q.verifier, p.challenge) &&
    (q.resource.None? || q.resource == Some(p.resource)) &&
    ApprovedClient(s.reg, p.client) && Intact(s.reg, p.user, p.resource) &&
    OwnedByUser(s, fault, p.user, p.resource, KindOf(p.resource))
  }

  lemma CleanupKeepsClient(s: State, now: int, id: string)
    ensures ApprovedClient(Cleanup(s, now).reg, id) == ApprovedClient(s.reg, id)
    ensures ApprovedClient(s.reg, id) ==> !StaleClientId(s.reg, id, now)
  {
    hide CleanGrants, LiveSessions, LiveInvites;
  }

  lemma CleanupKeepsOwnership(s: State, now: int, fault: bool, u: string, resource: Resource)
    ensures OwnedByUser(Cleanup(s, now), fault, u, resource, KindOf(resource)) == OwnedByUser(s, fault, u, resource, KindOf(resource))
  {
    hide CleanGrants, FreshClients, LiveSessions, LiveInvites;
  }

  lemma CleanedCodes(s: State, now: int, code: string)
    ensures var m := Cleanup(s, now).grants.codes;
            (code in m ==> code in s.grants.codes && m[code] == s.grants.codes[code] && CodeLive(s.reg, m[code], now)) &&
            (code in s.grants.codes && CodeLive(s.reg, s.grants.codes[code], now) && ApprovedClient(s.reg, s.grants.codes[code].grant.client)
             ==> code in m)
  {
    hide CodeLive, LiveTokens, LivePendings, FreshClients, LiveSessions, LiveInvites;
  }

  /** `b` is `a` with one more token. */
  ghost predicate Gains(a: map<string, Token>, b: map<string, Token>, key: string) {
    key !in a && key in b && b - {key} == a
  }

  /** What the exchange made out of `p`: one access and one refresh token, in a family of their own. */
  ghost predicate Grants1(c: Grants, t: Grants, f: Fresh, p: Pending) {
    Gains(c.access, t.access, f.access) && Gains(c.refresh, t.refresh, f.refresh) && t.refreshUsed == c.refreshUsed &&
    Carries(t.access[f.access], p) && t.access[f.access].family == f.family &&
    Carries(t.refresh[f.refresh], p) && t.refresh[f.refresh].family == f.family
  }

  predicate Bound(c: State, fault: bool, q: CodeRequest) {
    q.code in c.grants.codes && CodeBound(c.reg, c.grants.codes[q.code], q) &&
    var p := c.grants.codes[q.code].grant; OwnedByUser(c, fault, p.user, p.resource, KindOf(p.resource))
  }

  lemma RedeemCases(c: State, fault: bool, now: int, q: CodeRequest, f: Fresh, t: State)
    requires Outcome(RedeemCode(c, fault, now, q, f), t)
    ensures q.code !in t.grants.codes
    ensures var e := RedeemCode(c, fault, now, q, f);
            e.Commit? == Bound(c, fault, q) && (e.Quiet? ==> SubGrants(t.grants, c.grants)) &&
            (e.Commit? ==> e.onFailure.grants == c.grants.(codes := c.grants.codes - {q.code}) || f.access in c.grants.access || f.refresh in c.grants.refresh)
    ensures var e := RedeemCode(c, fault, now, q, f);
            e.Commit? && f.access !in c.grants.access && f.refresh !in c.grants.refresh ==>
              Grants1(c.grants, e.attempt.grants, f, c.grants.codes[q.code].grant)
  {
    if q.code in c.grants.codes {
      var p := c.grants.codes[q.code].grant;
      SpentOwnership(c, q.code, fault, p.user, p.resource);
    }
    hide OwnedByUser, CodeBound;
  }

  lemma RedeemableCleaned(s: State, fault: bool, now: int, q: CodeRequest)
    ensures Bound(Cleanup(s, now), fault, q) == Redeemable(s, fault, now, q)
    ensures q.code in Cleanup(s, now).grants.codes ==> q.code in s.grants.codes && Cleanup(s, now).grants.codes[q.code] == s.grants.codes[q.code]
  {
    CleanedCodes(s, now, q.code);
    if q.code in s.grants.codes {
      var p := s.grants.codes[q.code].grant;
      CleanupKeepsClient(s, now, p.client);
      CleanupKeepsOwnership(s, now, fault, p.user, p.resource);
    }
    hide Cleanup, PkceMatches, OwnedByUser, Intact, ApprovedClient;
  }

  /** A code is gone after any attempt; only one that may be redeemed makes anything new. */
  lemma RedeemSpends(s: State, cfg: Config, fault: bool, now: int, q: CodeRequest, f: Fresh, t: State)
    requires Outcome(Effects(s, cfg, fault, now, Redeem(q, f)), t)
    ensures q.code !in t.grants.codes
    ensures var e := Effects(s, cfg, fault, now, Redeem(q, f));
            e.Commit? == Redeemable(s, fault, now, q) && (e.Quiet? ==> SubGrants(t.grants, s.grants))
  {
    var c := Cleanup(s, now);
    assert SubGrants(c.grants, s.grants) by { CleanupShrinks(s.reg, s.grants, now); }
    hide Cleanup, RedeemCode, Redeemable, Bound, Grants1, Outcome;
    RedeemableCleaned(s, fault, now, q);
    RedeemCases(c, fault, now, q, f, t);
    if RedeemCode(c, fault, now, q, f).Quiet? {
      SubGrantsTransitive(t.grants, c.grants, s.grants);
    }
  }

  /** A code is spent by whoever presents it. It yields tokens only to the party it was
      made for, and then exactly one access and one refresh token that carry the
      authorization, in a family of their own; a failed save yields none. */
  lemma RedeemYields(s: State, cfg: Config, fault: bool, now: int, q: CodeRequest, f: Fresh, t: State)
    requires Outcome(Effects(s, cfg, fault, now, Redeem(q, f)), t)
    requires f.access !in s.grants.access && f.refresh !in s.grants.refresh
    ensures q.code !in t.grants.codes
    ensures var c, e := Cleanup(s, now).grants, Effects(s, cfg, fault, now, Redeem(q, f));
            e.Commit? == Redeemable(s, fault, now, q) && (e.Quiet? ==> SubGrants(t.grants, s.grants)) &&
            (e.Commit? ==> e.onFailure.grants == c.(codes := c.codes - {q.code}) &&
                           Grants1(c, e.attempt.grants, f, s.grants.codes[q.code].grant))
  {
    var c := Cleanup(s, now);
    assert SubGrants(c.grants, s.grants) by { CleanupShrinks(s.reg, s.grants, now); }
    assert f.access !in c.grants.access && f.refresh !in c.grants.refresh;
    hide Cleanup, RedeemCode, Redeemable, OwnedByUser, CodeBound, Grants1, Outcome;
    RedeemableCleaned(s, fault, now, q);
    RedeemSpends(s, cfg, fault, now, q, f, t);
    RedeemCases(c, fault, now, q, f, t);
  }

  lemma SubGrantsTransitive(a: Grants, b: Grants, c: Grants)
    requires SubGrants(a, b) && SubGrants(b, c)
    ensures SubGrants(a, c)
  {
  }

  lemma SpentOwnership(c: State, code: string, fault: bool, u: string, resource: Resource)
    ensures OwnedByUser(c.(grants := c.grants.(codes := c.grants.codes - {code})), fault, u, resource, KindOf(resource)) ==
            OwnedByUser(c, fault, u, resource, KindOf(resource))
  {
  }

  /** Who may rotate a refresh token: its own client, while client, account and device are still good. */
  predicate Rotatable(s: State, fault: bool, now: int, q: RefreshRequest) {
    Presents(s.grants, q) &&
    var live := s.grants.refresh[q.key];
    TokenLive(s.reg, live, now) && OwnedByUser(s, fault, live.user, live.resource, KindOf(live.resource))
  }

  lemma CleanedTokens(s: State, now: int, key: string)
    ensures var m := Cleanup(s, now).grants.refresh;
            (key in m ==> key in s.grants.refresh && m[key] == s.grants.refresh[key] && TokenLive(s.reg, m[key], now)) &&
            (key in s.grants.refresh && TokenLive(s.reg, s.grants.refresh[key], now) ==> key in m)
  {
    hide TokenLive, LivePendings, LiveCodes, FreshClients, LiveSessions, LiveInvites;
  }

  /** What a rotation made out of the live token: its successors, and itself among the used. */
  ghost predicate Rotated(c: Grants, t: Grants, key: string, f: Fresh, kept: Token) {
    Gains(c.access, t.access, f.access) && Gains(c.refresh - {key}, t.refresh, f.refresh) &&
    key !in t.refresh && t.refreshUsed == c.refreshUsed[key := kept] &&
    SameGrant(t.access[f.access], kept) && t.access[f.access].family == kept.family &&
    SameGrant(t.refresh[f.refresh], kept) && t.refresh[f.refresh].family == kept.family
  }

  predicate Able(c: State, fault: bool, q: RefreshRequest) {
    Presents(c.grants, q) &&
    var live := c.grants.refresh[q.key];
    ApprovedClient(c.reg, live.client) && OwnedByUser(c, fault, live.user, live.resource, KindOf(live.resource))
  }

  lemma RotateRefused(c: State, fault: bool, now: int, q: RefreshRequest, f: Fresh, t: State)
    requires Outcome(RotateToken(c, fault, now, q, f), t) && !Able(c, fault, q)
    ensures SubGrants(t.grants, c.grants)
  {
    hide OwnedByUser, ApprovedClient, RevokeFamily;
  }

  /** Undoing an insertion and a removal. */
  lemma Undone<V>(m: map<string, V>, key: string, added: string, kept: V)
    requires key in m && added !in m
    ensures (m - {key})[added := kept] - {added} == m - {key}
    ensures (m - {key})[key := kept] == m[key := kept]
    ensures m[added := kept] - {added} == m
  {
  }

  lemma RotateHappens(c: State, fault: bool, now: int, q: RefreshRequest, f: Fresh)
    requires Able(c, fault, q)
    requires f.access !in c.grants.access && f.refresh !in c.grants.refresh && q.key !in c.grants.refreshUsed
    ensures var e, live := RotateToken(c, fault, now, q, f), c.grants.refresh[q.key];
            var kept := live.(family := if live.family == "" then f.family else live.family);
            e.Commit? && e.onFailure.grants == c.grants.(refresh := c.grants.refresh[q.key := kept]) &&
            Rotated(c.grants, e.attempt.grants, q.key, f, kept)
  {
    hide OwnedByUser, ApprovedClient, RevokeFamily;
    var live := c.grants.refresh[q.key];
    var kept := live.(family := if live.family == "" then f.family else live.family);
    var access := Token(live.client, live.user, live.resource, live.scope, kept.family, now + ACCESS_LIFETIME);
    var refresh := access.(expires := now + REFRESH_LIFETIME);
    Undone(c.grants.refresh, q.key, f.refresh, refresh);
    Undone(c.grants.refresh, q.key, f.refresh, kept);
    assert c.grants.access[f.access := access] - {f.access} == c.grants.access;
    assert c.grants.refreshUsed[q.key := kept] - {q.key} == c.grants.refreshUsed;
  }

  lemma RotatableCleaned(s: State, fault: bool, now: int, q: RefreshRequest)
    ensures var c := Cleanup(s, now);
            Able(c, fault, q) == Rotatable(s, fault, now, q)
    ensures q.key in Cleanup(s, now).grants.refresh ==> q.key in s.grants.refresh && Cleanup(s, now).grants.refresh[q.key] == s.grants.refresh[q.key]
  {
    CleanedTokens(s, now, q.key);
    if q.key in s.grants.refresh {
      var live := s.grants.refresh[q.key];
      CleanupKeepsClient(s, now, live.client);
      CleanupKeepsOwnership(s, now, fault, live.user, live.resource);
    }
    hide Cleanup, OwnedByUser, Intact, ApprovedClient;
  }

  /** A refresh that may not happen only ever takes tokens away. */
  lemma UnrotatableYieldsNothing(s: State, cfg: Config, fault: bool, now: int, q: RefreshRequest, f: Fresh, t: State)
    requires Outcome(Effects(s, cfg, fault, now, Rotate(q, f)), t) && !Rotatable(s, fault, now, q)
    ensures SubGrants(t.grants, s.grants)
  {
    var c := Cleanup(s, now);
    assert SubGrants(c.grants, s.grants) by { CleanupShrinks(s.reg, s.grants, now); }
    hide Cleanup, RotateToken, Rotatable, Able, Outcome;
    RotatableCleaned(s, fault, now, q);
    RotateRefused(c, fault, now, q, f, t);
    SubGrantsTransitive(t.grants, c.grants, s.grants);
  }

  /** A refresh that is saved retires the presented token and issues one access and one
      refresh token with the same client, user, resource and scope, in the same family;
      one that is not saved leaves the presented token live and issues nothing. */
  lemma RotateYields(s: State, cfg: Config, fault: bool, now: int, q: RefreshRequest, f: Fresh)
    requires Rotatable(s, fault, now, q)
    requires f.access !in s.grants.access && f.refresh !in s.grants.refresh && q.key !in s.grants.refreshUsed
    ensures var c, e, live := Cleanup(s, now).grants, Effects(s, cfg, fault, now, Rotate(q, f)), s.grants.refresh[q.key];
            var kept := live.(family := if live.family == "" then f.family else live.family);
            e.Commit? && e.onFailure.grants == c.(refresh := c.refresh[q.key := kept]) && Rotated(c, e.attempt.grants, q.key, f, kept)
  {
    var c := Cleanup(s, now);
    assert SubGrants(c.grants, s.grants) by { CleanupShrinks(s.reg, s.grants, now); }
    assert f.access !in c.grants.access && f.refresh !in c.grants.refresh && q.key !in c.grants.refreshUsed;
    hide Cleanup, RotateToken, Rotatable, Able, Rotated;
    RotatableCleaned(s, fault, now, q);
    RotateHappens(c, fault, now, q, f);
  }

  // -------------------------------------------------------------------- names

  lemma CommitNames(s: State, fault: bool, now: int, request: string, u: string, code: string)
    requires CommitAuthorization(s, fault, now, request, u, code).Success?
    ensures var t := CommitAuthorization(s, fault, now, request, u, code).value;
            t.reg.clients.Keys == s.reg.clients.Keys && t.reg.users == s.reg.users &&
            t.grants.codes.Keys == s.grants.codes.Keys + {code} &&
            (forall k :: k in s.grants.codes && k != code ==> t.grants.codes[k] == s.grants.codes[k]) &&
            request in s.grants.pending && t.grants.codes[code].grant == s.grants.pending[request].(user := u)
  {
    hide ValidateDeviceKey, EnsureRecord, BindKey, RoutesOf;
  }
}
