/** Where every token comes from: over any run each token carries exactly one committed
    authorization, and each authorization code gives rise to at most one family of tokens. */
module RelayProvenance {
  import opened Wrappers
  import opened RelayState
  import opened RelayOps
  import opened RelayInvariant
  import opened RelayRequests
  import opened RelaySafety
  import opened RelayTokens
  import opened RelaySteps
  import opened RelayRuns
  import opened Resources
  import opened StateFile
  import opened RelayFamilies

  /** The token's family came from a code, and the token carries what the user committed to under that code. */
  predicate Traced(t: Token, committed: map<string, Pending>, lineage: map<string, string>) {
    t.family in lineage && lineage[t.family] in committed && Carries(t, committed[lineage[t.family]])
  }

  ghost predicate AllTraced(m: map<string, Token>, committed: map<string, Pending>, lineage: map<string, string>) {
    forall k :: k in m ==> Traced(m[k], committed, lineage)
  }

  ghost predicate TokensTraced(g: Grants, committed: map<string, Pending>, lineage: map<string, string>) {
    AllTraced(g.access, committed, lineage) && AllTraced(g.refresh, committed, lineage) && AllTraced(g.refreshUsed, committed, lineage)
  }

  /** A code in circulation stands for its committed authorization and has no family yet. */
  ghost predicate CodesTraced(codes: map<string, Code>, committed: map<string, Pending>, lineage: map<string, string>) {
    forall k :: k in codes ==> k in committed && committed[k] == codes[k].grant && forall f :: f in lineage ==> lineage[f] != k
  }

  /** No two families come from one code. */
  ghost predicate OneFamilyPerCode(lineage: map<string, string>) {
    forall f, g :: f in lineage && g in lineage && lineage[f] == lineage[g] ==> f == g
  }

  ghost predicate LedgerDrawn(committed: map<string, Pending>, lineage: map<string, string>, drawn: set<string>) {
    committed.Keys <= drawn && lineage.Keys <= drawn && "" !in lineage
  }

  ghost predicate Ledger(committed: map<string, Pending>, lineage: map<string, string>, drawn: set<string>) {
    LedgerDrawn(committed, lineage, drawn) && OneFamilyPerCode(lineage)
  }

  ghost predicate Provenance(r: Relay) {
    Ledger(r.committed, r.lineage, r.drawn) && TokensTraced(r.st.grants, r.committed, r.lineage) &&
    CodesTraced(r.st.grants.codes, r.committed, r.lineage) &&
    DiskTraced(r.disk, r.committed, r.lineage)
  }

  /** So are the tokens of every file a start may find. */
  ghost predicate DiskTraced(d: Disk, committed: map<string, Pending>, lineage: map<string, string>) {
    forall f :: f in Files(d) && f.Some? ==> TokensTraced(ImageGrants(f.value), committed, lineage)
  }

  // -------------------------------------------------------------- the ledger

  /** The ledger only grows. */
  ghost predicate Grows(c: map<string, Pending>, l: map<string, string>, c': map<string, Pending>, l': map<string, string>) {
    Sub(c, c') && Sub(l, l')
  }

  lemma GrownTraced(m: map<string, Token>, c: map<string, Pending>, l: map<string, string>, c': map<string, Pending>, l': map<string, string>)
    requires AllTraced(m, c, l) && Grows(c, l, c', l')
    ensures AllTraced(m, c', l')
  {
    hide Carries;
  }

  lemma GrownTokens(g: Grants, c: map<string, Pending>, l: map<string, string>, c': map<string, Pending>, l': map<string, string>)
    requires TokensTraced(g, c, l) && Grows(c, l, c', l')
    ensures TokensTraced(g, c', l')
  {
    hide AllTraced, Grows;
    GrownTraced(g.access, c, l, c', l');
    GrownTraced(g.refresh, c, l, c', l');
    GrownTraced(g.refreshUsed, c, l, c', l');
  }

  lemma FewerTraced(a: Grants, b: Grants, c: map<string, Pending>, l: map<string, string>)
    requires SubTokens(a, b) && TokensTraced(b, c, l)
    ensures TokensTraced(a, c, l)
  {
    hide Traced;
  }

  lemma SameGrants(c: map<string, Pending>, l: map<string, string>)
    ensures Grows(c, l, c, l)
  {
  }

  // ------------------------------------------------------------ one exchange

  /** One more traced token. */
  lemma GainTraced(a: map<string, Token>, b: map<string, Token>, key: string, c: map<string, Pending>, l: map<string, string>)
    requires Gains(a, b, key) && AllTraced(a, c, l) && Traced(b[key], c, l)
    ensures AllTraced(b, c, l)
  {
    forall k | k in b ensures Traced(b[k], c, l) {
      assert k != key ==> k in b - {key};
    }
  }

  /** The tokens a code yields are traced to it. */
  lemma RedeemedTraced(c: Grants, t: Grants, f: Fresh, p: Pending, committed: map<string, Pending>, lineage: map<string, string>)
    requires TokensTraced(c, committed, lineage) && Grants1(c, t, f, p)
    requires f.family in lineage && lineage[f.family] in committed && committed[lineage[f.family]] == p
    ensures TokensTraced(t, committed, lineage)
  {
    hide AllTraced, Gains;
    GainTraced(c.access, t.access, f.access, committed, lineage);
    GainTraced(c.refresh, t.refresh, f.refresh, committed, lineage);
  }

  lemma SettledToken(m: map<string, Token>, key: string, kept: Token, c: map<string, Pending>, l: map<string, string>)
    requires AllTraced(m, c, l) && Traced(kept, c, l)
    ensures AllTraced(m[key := kept], c, l) && AllTraced(m - {key}, c, l)
  {
    hide Traced;
  }

  /** The tokens a rotation yields are traced to the code the rotated one came from. */
  lemma RotatedTraced(c: Grants, t: Grants, key: string, f: Fresh, kept: Token, committed: map<string, Pending>, lineage: map<string, string>)
    requires TokensTraced(c, committed, lineage) && Rotated(c, t, key, f, kept) && Traced(kept, committed, lineage)
    ensures TokensTraced(t, committed, lineage)
    ensures TokensTraced(c.(refresh := c.refresh[key := kept]), committed, lineage)
  {
    hide AllTraced, Gains;
    SettledToken(c.refresh, key, kept, committed, lineage);
    SettledToken(c.refreshUsed, key, kept, committed, lineage);
    GainTraced(c.access, t.access, f.access, committed, lineage);
    GainTraced(c.refresh - {key}, t.refresh, f.refresh, committed, lineage);
  }

  // ------------------------------------------------------------- one request

  /** After the request, the new ledger traces both of its outcomes. */
  ghost predicate BothTraced(r: Relay, q: Request, e: Effect) {
    var c, l := NewlyCommitted(r, e, q), NewLineage(r, e, q);
    Grows(r.committed, r.lineage, c, l) && Ledger(c, l, r.drawn + Names(q)) &&
    TokensTraced(Unsaved(e).grants, c, l) && CodesTraced(Unsaved(e).grants.codes, c, l) &&
    (e.Commit? ==> TokensTraced(e.attempt.grants, c, l) && CodesTraced(e.attempt.grants.codes, c, l))
  }

  lemma FewerCodes(a: map<string, Code>, b: map<string, Code>, c: map<string, Pending>, l: map<string, string>)
    requires Sub(a, b) && CodesTraced(b, c, l)
    ensures CodesTraced(a, c, l)
  {
  }

  lemma MoreNames(c: map<string, Pending>, l: map<string, string>, drawn: set<string>, more: set<string>)
    requires Ledger(c, l, drawn) && drawn <= more
    ensures Ledger(c, l, more)
  {
    hide OneFamilyPerCode;
  }

  lemma NewFamily(c: map<string, Pending>, l: map<string, string>, drawn: set<string>, more: set<string>, family: string, code: string)
    requires Ledger(c, l, drawn) && drawn + {family} <= more && family !in drawn && family != ""
    requires forall f :: f in l ==> l[f] != code
    ensures Ledger(c, l[family := code], more) && Grows(c, l, c, l[family := code])
  {
  }

  lemma SpentCodes(codes: map<string, Code>, c: map<string, Pending>, l: map<string, string>, family: string, code: string, left: map<string, Code>)
    requires CodesTraced(codes, c, l) && family !in l && Sub(left, codes) && code !in left
    ensures CodesTraced(left, c, l[family := code])
  {
  }

  lemma RedeemTraced(r: Relay, now: int, cq: CodeRequest, f: Fresh)
    requires Provenance(r) && Rotates(r.st.grants, r.drawn) && Draws(Redeem(cq, f), r.drawn)
    ensures BothTraced(r, Redeem(cq, f), Effects(r.st, r.cfg, r.fault, now, Redeem(cq, f)))
  {
    var q := Redeem(cq, f);
    var e, s := Effects(r.st, r.cfg, r.fault, now, q), r.st;
    var c := Cleanup(s, now).grants;
    var more := r.drawn + Names(q);
    assert f.access !in s.grants.access && f.refresh !in s.grants.refresh && f.family !in r.drawn && f.family != "" && f.family !in r.lineage;
    hide Effects, Cleanup, Rotates, TokensTraced, CodesTraced, Ledger, Grows, Grants1, Redeemable, Outcome;
    assert Outcome(e, Unsaved(e)) && (e.Commit? ==> Outcome(e, e.attempt)) by { OutcomesOf(e); }
    RedeemYields(s, r.cfg, r.fault, now, cq, f, Unsaved(e));
    BystandersRegistry(s, r.cfg, r.fault, now, q, Unsaved(e));
    SameGrants(r.committed, r.lineage);
    MoreNames(r.committed, r.lineage, r.drawn, more);
    if e.Quiet? {
      SubGrantsTokens(e.next.grants, s.grants);
      FewerTraced(e.next.grants, s.grants, r.committed, r.lineage);
      FewerCodes(e.next.grants.codes, s.grants.codes, r.committed, r.lineage);
    } else {
      RedeemYields(s, r.cfg, r.fault, now, cq, f, e.attempt);
      BystandersRegistry(s, r.cfg, r.fault, now, q, e.attempt);
      assert cq.code in s.grants.codes by { assert Redeemable(s, r.fault, now, cq); RedeemableHasCode(s, r.fault, now, cq); }
      CleanedTokensShrink(s, now);
      RedeemCommitTokens(s.grants, c, e.attempt.grants, e.onFailure.grants, cq, f, r.committed, r.lineage, r.drawn, more);
    }
  }

  lemma RedeemableHasCode(s: State, fault: bool, now: int, q: CodeRequest)
    requires Redeemable(s, fault, now, q)
    ensures q.code in s.grants.codes
  {
  }

  lemma OutcomesOf(e: Effect)
    ensures Outcome(e, Unsaved(e)) && (e.Commit? ==> Outcome(e, e.attempt))
  {
  }

  lemma SubGrantsTokens(a: Grants, b: Grants)
    requires SubGrants(a, b)
    ensures SubTokens(a, b)
  {
  }

  lemma SameTokensTraced(a: Grants, b: Grants, c: map<string, Pending>, l: map<string, string>)
    requires a.access == b.access && a.refresh == b.refresh && a.refreshUsed == b.refreshUsed && TokensTraced(b, c, l)
    ensures TokensTraced(a, c, l)
  {
  }

  lemma LiveCode(codes: map<string, Code>, c: map<string, Pending>, l: map<string, string>, code: string)
    requires CodesTraced(codes, c, l) && code in codes
    ensures code in c && c[code] == codes[code].grant && forall f :: f in l ==> l[f] != code
  {
  }

  /** The cleaned grants, the attempt and the rolled-back state are all traced once the family is entered. */
  lemma RedeemCommitTokens(g: Grants, c: Grants, attempt: Grants, left: Grants, cq: CodeRequest, f: Fresh,
                           committed: map<string, Pending>, lineage: map<string, string>, drawn: set<string>, more: set<string>)
    requires Ledger(committed, lineage, drawn) && TokensTraced(g, committed, lineage) && CodesTraced(g.codes, committed, lineage)
    requires cq.code in g.codes && f.family !in drawn && f.family != "" && drawn + {f.family} <= more && f.family !in lineage
    requires SubTokens(c, g) && Grants1(c, attempt, f, g.codes[cq.code].grant)
    requires left == c.(codes := c.codes - {cq.code})
    requires cq.code !in attempt.codes && Sub(attempt.codes, g.codes) && Sub(left.codes, g.codes)
    ensures var l := lineage[f.family := cq.code];
            Grows(committed, lineage, committed, l) && Ledger(committed, l, more) &&
            TokensTraced(attempt, committed, l) && TokensTraced(left, committed, l) &&
            CodesTraced(attempt.codes, committed, l) && CodesTraced(left.codes, committed, l)
  {
    var l := lineage[f.family := cq.code];
    assert cq.code !in left.codes;
    hide TokensTraced, CodesTraced, Ledger, Grows, Grants1, SubTokens;
    LiveCode(g.codes, committed, lineage, cq.code);
    NewFamily(committed, lineage, drawn, more, f.family, cq.code);
    GrownTokens(g, committed, lineage, committed, l);
    FewerTraced(c, g, committed, l);
    SameTokensTraced(left, c, committed, l);
    RedeemedTraced(c, attempt, f, g.codes[cq.code].grant, committed, l);
    SpentCodes(g.codes, committed, lineage, f.family, cq.code, attempt.codes);
    SpentCodes(g.codes, committed, lineage, f.family, cq.code, left.codes);
  }

  lemma RotateTraced(r: Relay, now: int, rq: RefreshRequest, f: Fresh)
    requires Provenance(r) && Rotates(r.st.grants, r.drawn) && Draws(Rotate(rq, f), r.drawn)
    ensures BothTraced(r, Rotate(rq, f), Effects(r.st, r.cfg, r.fault, now, Rotate(rq, f)))
  {
    var q := Rotate(rq, f);
    var e, s := Effects(r.st, r.cfg, r.fault, now, q), r.st;
    var c := Cleanup(s, now).grants;
    assert f.access !in s.grants.access && f.refresh !in s.grants.refresh;
    assert rq.key in s.grants.refresh ==> Traced(s.grants.refresh[rq.key], r.committed, r.lineage) && s.grants.refresh[rq.key].family != "" &&
                                          rq.key !in s.grants.refreshUsed;
    hide Effects, Cleanup, Rotates, TokensTraced, CodesTraced, Ledger, Grows, Rotated, TokenLive, OwnedByUser, Outcome, Traced;
    OutcomesOf(e);
    BystandersRegistry(s, r.cfg, r.fault, now, q, Unsaved(e));
    FewerCodes(Unsaved(e).grants.codes, s.grants.codes, r.committed, r.lineage);
    if e.Commit? {
      BystandersRegistry(s, r.cfg, r.fault, now, q, e.attempt);
      FewerCodes(e.attempt.grants.codes, s.grants.codes, r.committed, r.lineage);
    }
    SameGrants(r.committed, r.lineage);
    MoreNames(r.committed, r.lineage, r.drawn, r.drawn + Names(q));
    if Rotatable(s, r.fault, now, rq) {
      var kept := s.grants.refresh[rq.key];
      RotateYields(s, r.cfg, r.fault, now, rq, f);
      CleanedTokensShrink(s, now);
      FewerTraced(c, s.grants, r.committed, r.lineage);
      RotatedTraced(c, e.attempt.grants, rq.key, f, kept, r.committed, r.lineage);
    } else {
      NotRotatedTraced(r, now, rq, f, Unsaved(e));
      if e.Commit? { NotRotatedTraced(r, now, rq, f, e.attempt); }
    }
  }

  lemma NotRotatedTraced(r: Relay, now: int, rq: RefreshRequest, f: Fresh, t: State)
    requires TokensTraced(r.st.grants, r.committed, r.lineage) && !Rotatable(r.st, r.fault, now, rq)
    requires Outcome(Effects(r.st, r.cfg, r.fault, now, Rotate(rq, f)), t)
    ensures TokensTraced(t.grants, r.committed, r.lineage)
  {
    hide Effects, TokensTraced, Rotatable, Outcome;
    UnrotatableYieldsNothing(r.st, r.cfg, r.fault, now, rq, f, t);
    SubGrantsTokens(t.grants, r.st.grants);
    FewerTraced(t.grants, r.st.grants, r.committed, r.lineage);
  }

  // ----------------------------------------------------------- other requests

  lemma OtherTokens(r: Relay, now: int, q: Request, t: State)
    requires TokensTraced(r.st.grants, r.committed, r.lineage) && !IsExchange(q)
    requires Outcome(Effects(r.st, r.cfg, r.fault, now, q), t)
    ensures TokensTraced(t.grants, r.committed, r.lineage)
  {
    hide Effects, TokensTraced, Outcome;
    OnlyExchangesIssue(r.st, r.cfg, r.fault, now, q, t);
    FewerTraced(t.grants, r.st.grants, r.committed, r.lineage);
  }

  lemma EnteredCode(codes: map<string, Code>, c: map<string, Pending>, l: map<string, string>, drawn: set<string>, code: string,
                    next: map<string, Code>, c': map<string, Pending>)
    requires Ledger(c, l, drawn) && code !in drawn && CodesTraced(codes, c, l) && (forall f :: f in l ==> l[f] in drawn)
    requires forall k :: k in next ==> (k in codes && next[k] == codes[k]) || k == code
    requires c' == if code in next then c[code := next[code].grant] else c
    ensures CodesTraced(next, c', l) && Grows(c, l, c', l) && (forall k :: k in codes ==> k != code)
  {
  }

  /** Entering a code in the ledger keeps everything traced. */
  lemma EnteredTraced(g: Grants, next: Grants, left: Grants, c: map<string, Pending>, l: map<string, string>, drawn: set<string>,
                      code: string, c': map<string, Pending>, more: set<string>)
    requires Ledger(c, l, drawn) && code !in drawn && drawn + {code} <= more && (forall f :: f in l ==> l[f] in drawn)
    requires CodesTraced(g.codes, c, l) && TokensTraced(next, c, l) && TokensTraced(left, c, l) && Sub(left.codes, g.codes)
    requires forall k :: k in next.codes ==> (k in g.codes && next.codes[k] == g.codes[k]) || k == code
    requires c' == if code in next.codes then c[code := next.codes[code].grant] else c
    ensures Grows(c, l, c', l) && Ledger(c', l, more)
    ensures TokensTraced(next, c', l) && TokensTraced(left, c', l) && CodesTraced(next.codes, c', l) && CodesTraced(left.codes, c', l)
  {
    assert c'.Keys <= c.Keys + {code};
    hide Ledger, CodesTraced, TokensTraced, Grows;
    EnteredCode(g.codes, c, l, drawn, code, next.codes, c');
    GrownTokens(next, c, l, c', l);
    GrownTokens(left, c, l, c', l);
    GrownCodes(left.codes, g.codes, c, l, c', code);
    MoreNames(c, l, drawn, more);
    EnteredLedger(c, l, more, c', code);
  }

  lemma EntersCode(r: Relay, e: Effect, q: Request)
    requires (q.Allow? || q.Join?) && e.Commit?
    ensures NewlyCommitted(r, e, q) ==
            if q.code in e.attempt.grants.codes then r.committed[q.code := e.attempt.grants.codes[q.code].grant] else r.committed
    ensures NewLineage(r, e, q) == r.lineage
  {
  }

  /** A request that grants an authorization enters its code in the ledger. */
  lemma GrantingTraced(r: Relay, now: int, q: Request)
    requires Provenance(r) && Inv(r.st) && NamesDrawn(r.st.reg.clients, r.st.reg.users, r.drawn) && Draws(q, r.drawn) && (q.Allow? || q.Join?)
    requires forall f :: f in r.lineage ==> r.lineage[f] in r.drawn
    ensures BothTraced(r, q, Effects(r.st, r.cfg, r.fault, now, q))
  {
    var e := Effects(r.st, r.cfg, r.fault, now, q);
    assert q.code !in r.drawn && r.drawn + {q.code} <= r.drawn + Names(q);
    UnsavedGrant(r.st, r.cfg, r.fault, now, q);
    NewIdsAreNew(r.st.reg, q, r.drawn);
    hide Inv, Effects, TokensTraced, CodesTraced, Ledger, Outcome, Effected, Names, Draws, NewIds, NamesDrawn, Grows;
    OutcomesOf(e);
    OtherTokens(r, now, q, Unsaved(e));
    if e.Commit? {
      OtherTokens(r, now, q, e.attempt);
      RequestEffected(r.st, r.cfg, r.fault, now, q, e.attempt);
      OnlyItsCode(r.st, e.attempt, q);
      EntersCode(r, e, q);
      hide NewlyCommitted, NewLineage;
      EnteredTraced(r.st.grants, e.attempt.grants, Unsaved(e).grants, r.committed, r.lineage, r.drawn, q.code, NewlyCommitted(r, e, q),
                    r.drawn + Names(q));
    } else {
      SameGrants(r.committed, r.lineage);
      MoreNames(r.committed, r.lineage, r.drawn, r.drawn + Names(q));
      FewerCodes(Unsaved(e).grants.codes, r.st.grants.codes, r.committed, r.lineage);
    }
  }

  lemma OnlyItsCode(s: State, t: State, q: Request)
    requires Effected(s, t, q) && (q.Allow? || q.Join?)
    ensures forall k :: k in t.grants.codes ==> (k in s.grants.codes && t.grants.codes[k] == s.grants.codes[k]) || k == q.code
  {
    hide Progress;
  }

  lemma EnteredLedger(c: map<string, Pending>, l: map<string, string>, drawn: set<string>, c': map<string, Pending>, code: string)
    requires Ledger(c, l, drawn) && code in drawn && c'.Keys <= c.Keys + {code}
    ensures Ledger(c', l, drawn)
  {
    hide OneFamilyPerCode;
  }

  lemma GrownCodes(a: map<string, Code>, b: map<string, Code>, c: map<string, Pending>, l: map<string, string>, c': map<string, Pending>, code: string)
    requires Sub(a, b) && CodesTraced(b, c, l) && Grows(c, l, c', l)
    ensures CodesTraced(a, c', l)
  {
  }

  lemma UnsavedGrant(s: State, cfg: Config, fault: bool, now: int, q: Request)
    requires q.Allow? || q.Join?
    ensures Sub(Unsaved(Effects(s, cfg, fault, now, q)).grants.codes, s.grants.codes)
  {
    hide CommitAuthorization, NormalizeUsername, RegistrationOpen, ConsumeInvite;
  }

  lemma PlainTraced(r: Relay, now: int, q: Request)
    requires Provenance(r) && Inv(r.st) && NamesDrawn(r.st.reg.clients, r.st.reg.users, r.drawn) && Draws(q, r.drawn)
    requires !IsExchange(q) && !q.Allow? && !q.Join?
    ensures BothTraced(r, q, Effects(r.st, r.cfg, r.fault, now, q))
  {
    var e := Effects(r.st, r.cfg, r.fault, now, q);
    NewIdsAreNew(r.st.reg, q, r.drawn);
    hide Inv, Effects, TokensTraced, CodesTraced, Ledger, Outcome, Names, Draws, NewIds, NamesDrawn, Grows;
    OutcomesOf(e);
    SameGrants(r.committed, r.lineage);
    MoreNames(r.committed, r.lineage, r.drawn, r.drawn + Names(q));
    PlainOutcome(r, now, q, Unsaved(e));
    if e.Commit? { PlainOutcome(r, now, q, e.attempt); }
  }

  lemma PlainOutcome(r: Relay, now: int, q: Request, t: State)
    requires Inv(r.st) && NewIds(r.st.reg, q) && !IsExchange(q) && !q.Allow? && !q.Join?
    requires TokensTraced(r.st.grants, r.committed, r.lineage) && CodesTraced(r.st.grants.codes, r.committed, r.lineage)
    requires Outcome(Effects(r.st, r.cfg, r.fault, now, q), t)
    ensures TokensTraced(t.grants, r.committed, r.lineage) && CodesTraced(t.grants.codes, r.committed, r.lineage)
  {
    hide Inv, Effects, TokensTraced, CodesTraced, Outcome, Progress, NewIds, Names;
    OtherTokens(r, now, q, t);
    RequestEffected(r.st, r.cfg, r.fault, now, q, t);
    FewerCodes(t.grants.codes, r.st.grants.codes, r.committed, r.lineage);
  }

  // -------------------------------------------------------------------- runs

  /** Codes that have a family were drawn. */
  ghost predicate LineageDrawn(r: Relay) {
    forall f :: f in r.lineage ==> r.lineage[f] in r.committed
  }

  lemma RequestTraced(r: Relay, now: int, q: Request)
    requires Provenance(r) && LineageDrawn(r) && SoundState(r.st, r.drawn) && Rotates(r.st.grants, r.drawn) && Draws(q, r.drawn)
    ensures BothTraced(r, q, Effects(r.st, r.cfg, r.fault, now, q))
  {
    assert forall f :: f in r.lineage ==> r.lineage[f] in r.drawn;
    hide Inv, Rotates, Provenance, Draws, BothTraced, Effects;
    match q {
      case Redeem(cq, f) => RedeemTraced(r, now, cq, f);
      case Rotate(rq, f) => RotateTraced(r, now, rq, f);
      case Allow(_, _, _) => GrantingTraced(r, now, q);
      case Join(_, _, _, _, _) => GrantingTraced(r, now, q);
      case _ => PlainTraced(r, now, q);
    }
  }

  lemma SettleTraced(r: Relay, e: Effect, o: SaveOutcome, c: map<string, Pending>, l: map<string, string>, drawn: set<string>)
    requires Provenance(r) && Grows(r.committed, r.lineage, c, l) && Ledger(c, l, drawn)
    requires TokensTraced(Unsaved(e).grants, c, l) && CodesTraced(Unsaved(e).grants.codes, c, l)
    requires e.Commit? ==> TokensTraced(e.attempt.grants, c, l) && CodesTraced(e.attempt.grants.codes, c, l)
    ensures Provenance(Settle(r, e, o).(committed := c, lineage := l, drawn := drawn))
  {
    hide TokensTraced, CodesTraced, Ledger, Grows, Files, DiskAfter;
    GrownDisk(r.disk, r.committed, r.lineage, c, l);
    if e.Commit? {
      var saved := ImageOf(if r.fault then Stopped(e.attempt) else e.attempt);
      SameTokensTraced(ImageGrants(saved), e.attempt.grants, c, l);
      FilesAfter(r.disk, saved, o);
    }
  }

  lemma GrownDisk(d: Disk, c: map<string, Pending>, l: map<string, string>, c': map<string, Pending>, l': map<string, string>)
    requires DiskTraced(d, c, l) && Grows(c, l, c', l')
    ensures DiskTraced(d, c', l')
  {
    hide TokensTraced, Grows, Files;
    forall f | f in Files(d) && f.Some? ensures TokensTraced(ImageGrants(f.value), c', l') {
      GrownTokens(ImageGrants(f.value), c, l, c', l');
    }
  }

  lemma LineageGrows(r: Relay, now: int, q: Request)
    requires Provenance(r) && LineageDrawn(r) && SoundState(r.st, r.drawn) && Rotates(r.st.grants, r.drawn) && Draws(q, r.drawn)
    ensures var e := Effects(r.st, r.cfg, r.fault, now, q);
            forall f :: f in NewLineage(r, e, q) ==> NewLineage(r, e, q)[f] in NewlyCommitted(r, e, q)
  {
    if q.Redeem? {
      var e := Effects(r.st, r.cfg, r.fault, now, q);
      hide Inv, Rotates, Effects, Redeemable, Grants1, TokensTraced, Ledger;
      if e.Commit? {
        assert q.tokens.access !in r.st.grants.access && q.tokens.refresh !in r.st.grants.refresh by { DrawnTokens(r.st.grants, r.drawn, q.tokens); }
        RedeemYields(r.st, r.cfg, r.fault, now, q.codeRequest, q.tokens, e.attempt);
        RedeemableHasCode(r.st, r.fault, now, q.codeRequest);
      }
    }
  }

  lemma DrawnTokens(g: Grants, drawn: set<string>, f: Fresh)
    requires Rotates(g, drawn) && {f.access, f.refresh, f.family} !! drawn
    ensures f.access !in g.access && f.refresh !in g.refresh
  {
  }

  lemma ServeTraced(r: Relay, now: int, q: Request, o: SaveOutcome)
    requires Provenance(r) && LineageDrawn(r) && SoundState(r.st, r.drawn) && Rotates(r.st.grants, r.drawn) && Draws(q, r.drawn)
    ensures Provenance(ServeRequest(r, now, q, o)) && LineageDrawn(ServeRequest(r, now, q, o))
  {
    var e := Effects(r.st, r.cfg, r.fault, now, q);
    hide SoundState, Rotates, Provenance, Draws, Effects, TokensTraced, CodesTraced, Ledger, Grows, NewlyCommitted, NewLineage, Names, Settle;
    RequestTraced(r, now, q);
    SettleTraced(r, e, o, NewlyCommitted(r, e, q), NewLineage(r, e, q), r.drawn + Names(q));
    LineageGrows(r, now, q);
  }

  lemma LoadedTraced(i: Image, b: Boot, now: int, c: map<string, Pending>, l: map<string, string>)
    requires UsersAccepted(i.users) && TokensTraced(ImageGrants(i), c, l)
    ensures TokensTraced(Cleanup(Loaded(i, b), now).grants, c, l) && Cleanup(Loaded(i, b), now).grants.codes == map[]
  {
    CleanupCodes(Loaded(i, b), now);
    hide TokensTraced, Cleanup, UsersAccepted, EnsureAll, IndexOf, Adopt;
    LoadedParts(i, b);
    CleanedTokensShrink(Loaded(i, b), now);
    FewerTraced(Cleanup(Loaded(i, b), now).grants, ImageGrants(i), c, l);
  }

  lemma CleanupCodes(s: State, now: int)
    ensures Sub(Cleanup(s, now).grants.codes, s.grants.codes)
    ensures s.grants.codes == map[] ==> Cleanup(s, now).grants.codes == map[]
  {
    CleanupShrinks(s.reg, s.grants, now);
  }

  lemma FirstAccountTraced(r: Relay, down: Relay, b: Boot)
    requires Provenance(r) && Provenance(down.(disk := r.disk)) && r.committed == down.committed && r.lineage == down.lineage && r.drawn == down.drawn
    ensures Provenance(FirstAccount(r, down, b))
    ensures FirstAccount(r, down, b).committed == r.committed && FirstAccount(r, down, b).lineage == r.lineage && FirstAccount(r, down, b).drawn == r.drawn
  {
    var s := AwaitSetup(r.st, b.setupToken);
    assert s.grants == r.st.grants;
    FirstAccountCases(r, down, b);
    hide CreateUser, FirstAccount, Settle, TokensTraced, CodesTraced, Ledger, DiskTraced, AwaitSetup;
    if b.owner.Some? && CreateUser(s.reg, b.cfg.ownerUsername, b.owner.value, b.ownerId, true).Some? {
      var reg := CreateUser(s.reg, b.cfg.ownerUsername, b.owner.value, b.ownerId, true).value;
      var e := Commit(s.(reg := reg), s, false);
      SameGrants(r.committed, r.lineage);
      SettleTraced(r, e, b.second, r.committed, r.lineage, r.drawn);
      SettleDrawn(r, e, b.second);
    }
  }

  lemma ReadTraced(r: Relay, b: Boot)
    requires Provenance(r) && r.disk.file.Some? && UsersAccepted(r.disk.file.value.users)
    ensures Provenance(Read(r, b))
    ensures var t := Read(r, b); t.committed == r.committed && t.lineage == r.lineage && t.drawn == r.drawn
  {
    var i := r.disk.file.value;
    assert TokensTraced(ImageGrants(i), r.committed, r.lineage) by { assert r.disk.file in Files(r.disk); }
    var begun := r.(up := true, cfg := b.cfg, fault := r.disk.mark.Dirty?);
    var s := Cleanup(Loaded(i, b), b.now);
    var e := Commit(s, s, false);
    assert CodesTraced(map[], r.committed, r.lineage);
    hide UsersAccepted, Cleanup, Loaded, Settle, TokensTraced, CodesTraced, Ledger, DiskTraced;
    LoadedTraced(i, b, b.now, r.committed, r.lineage);
    SameGrants(r.committed, r.lineage);
    SettleTraced(begun.(st := s), e, b.first, r.committed, r.lineage, r.drawn);
    SettleDrawn(begun.(st := s), e, b.first);
  }

  lemma BlankTraced(r: Relay, b: Boot)
    requires Provenance(r)
    ensures Provenance(r.(up := true, cfg := b.cfg, fault := r.disk.mark.Dirty?, st := Blank(b)))
  {
    assert TokensTraced(Blank(b).grants, r.committed, r.lineage) && CodesTraced(Blank(b).grants.codes, r.committed, r.lineage);
    hide Blank, TokensTraced, CodesTraced, Ledger, DiskTraced;
  }

  lemma DownTraced(r: Relay, t: Relay)
    requires Provenance(r) && Provenance(t) && t.committed == r.committed && t.lineage == r.lineage && t.drawn == r.drawn
    ensures Provenance(r.(up := false).(disk := t.disk))
  {
    hide TokensTraced, CodesTraced, Ledger, DiskTraced;
  }

  lemma StartTraced(base: Origin, r: Relay, b: Boot)
    requires Sound(r) && Provenance(r) && (r.disk.file.Some? ==> Writable(r.disk.file.value))
    ensures Provenance(Start(base, r, b))
    ensures var t := Start(base, r, b); t.committed == r.committed && t.lineage == r.lineage && t.drawn == r.drawn
  {
    StartCases(base, r, b) by { hide Sound, Provenance, Writable; }
    var down := r.(up := false);
    assert down == down.(disk := r.disk);
    hide Sound, Start, Read, FirstAccount, Writable, Provenance, Blank, UsersAccepted;
    DownTraced(r, r);
    if r.disk.file.None? {
      var begun := r.(up := true, cfg := b.cfg, fault := r.disk.mark.Dirty?, st := Blank(b));
      BlankTraced(r, b);
      DownTraced(r, begun);
      FirstAccountTraced(begun, down, b);
    } else {
      ReadTraced(r, b);
      DownTraced(r, Read(r, b));
      FirstAccountTraced(Read(r, b), down, b);
    }
  }

  lemma NextTraced(base: Origin, r: Relay, ev: Event)
    requires Sound(r) && Rotates(r.st.grants, r.drawn) && Provenance(r) && LineageDrawn(r)
    requires Allowed(r, ev) && (r.disk.file.Some? ==> Writable(r.disk.file.value))
    ensures Provenance(Next(base, r, ev)) && LineageDrawn(Next(base, r, ev))
  {
    hide SoundState, SoundDisk, Rotates, Writable, ServeRequest, Start, WellFormed, Draws, TokensTraced, CodesTraced, Ledger, Files, Findable, FileDurable;
    match ev {
      case Serve(now, q, o) => ServeTraced(r, now, q, o);
      case Restart(b) =>
        StartTraced(base, r, b);
        MoreNames(r.committed, r.lineage, r.drawn, r.drawn + {b.ownerId});
      case LosePower(x) => LostPowerFiles(r.disk, x);
    }
  }

  /** From a beginning whose tokens are traced and whose rotation is intact, every run keeps them traced. */
  lemma {:induction false} RunsAreTraced(base: Origin, r: Relay, evs: seq<Event>, t: Relay)
    requires Sound(r) && RotatesEverywhere(r) && Provenance(r) && LineageDrawn(r) && Reaches(base, r, evs, t)
    ensures Provenance(t) && LineageDrawn(t) && RotatesEverywhere(t)
    decreases |evs|
  {
    if evs != [] {
      assert Rotates(r.st.grants, r.drawn);
      hide Sound, Next, Allowed, Writable, Provenance, LineageDrawn, RotatesEverywhere, Rotates;
      NextSound(base, r, evs[0]);
      NextTraced(base, r, evs[0]);
      NextRotates(base, r, evs[0]);
      RunsAreTraced(base, Next(base, r, evs[0]), evs[1..], t);
    }
  }

  /** Token provenance: over any run from an empty disk, every token in memory or in a
      file a start may find carries exactly the client, user, resource and scope of one
      committed authorization, and no code ever gave rise to more than one family. */
  lemma EveryTokenIsTraced(base: Origin, evs: seq<Event>, t: Relay)
    requires Reaches(base, Unborn, evs, t)
    ensures TokensTraced(t.st.grants, t.committed, t.lineage) && DiskTraced(t.disk, t.committed, t.lineage)
    ensures OneFamilyPerCode(t.lineage)
  {
    UnbornIsSound();
    UnbornRotates();
    hide Sound, Reaches, TokensTraced, DiskTraced, RotatesEverywhere;
    assert Provenance(Unborn) && LineageDrawn(Unborn) by { UnbornTraced(); }
    RunsAreTraced(base, Unborn, evs, t);
  }

  lemma TracedShare(g: Grants, c: map<string, Pending>, l: map<string, string>, drawn: set<string>, key: string)
    requires TokensTraced(g, c, l) && Ledger(c, l, drawn) && key in g.refreshUsed
    ensures g.refreshUsed[key].family != "" && FamilyShares(g, g.refreshUsed[key])
  {
    assert Traced(g.refreshUsed[key], c, l);
  }

  /** So all tokens of a family stand for one client, one account and one resource, and rotation
      is intact: what `ReplayIsFinal` asks for holds in every run from an empty disk. */
  lemma FamiliesShare(base: Origin, evs: seq<Event>, t: Relay, key: string)
    requires Reaches(base, Unborn, evs, t) && key in t.st.grants.refreshUsed
    ensures Sound(t) && Rotates(t.st.grants, t.drawn)
    ensures t.st.grants.refreshUsed[key].family != "" && FamilyShares(t.st.grants, t.st.grants.refreshUsed[key])
  {
    UnbornIsSound();
    UnbornRotates();
    UnbornTraced();
    hide Sound, Reaches, TokensTraced, DiskTraced, CodesTraced, Ledger, FamilyShares, Rotates, RotatesOnDisk, LineageDrawn;
    RunsAreTraced(base, Unborn, evs, t);
    RunsAreSound(base, Unborn, evs, t);
    TracedShare(t.st.grants, t.committed, t.lineage, t.drawn, key);
  }

  lemma UnbornTraced()
    ensures Provenance(Unborn) && LineageDrawn(Unborn)
  {
  }

  // ---------------------------------------------------------- single-use codes

  lemma SpentStep(base: Origin, r: Relay, ev: Event, code: string)
    requires Sound(r) && Allowed(r, ev) && (r.disk.file.Some? ==> Writable(r.disk.file.value))
    requires code in r.drawn && code !in r.st.grants.codes
    ensures code in Next(base, r, ev).drawn && code !in Next(base, r, ev).st.grants.codes
  {
    hide SoundState, SoundDisk, Writable, Start, WellFormed, Draws, NewlyCommitted, NewLineage, Effects, Names, FileDurable;
    match ev {
      case Serve(now, q, o) => SpentServe(r, now, q, o, code);
      case Restart(b) => StartCodes(base, r, b, code);
      case LosePower(_) =>
    }
  }

  lemma SpentOutcome(s: State, t: State, q: Request, code: string)
    requires Effected(s, t, q) && code !in Names(q) && code !in s.grants.codes
    ensures code !in t.grants.codes
  {
    hide Progress;
  }

  lemma SettleSpent(r: Relay, e: Effect, o: SaveOutcome, code: string)
    requires code !in Unsaved(e).grants.codes && (e.Commit? ==> code !in e.attempt.grants.codes)
    ensures code !in Settle(r, e, o).st.grants.codes
  {
  }

  lemma SpentServe(r: Relay, now: int, q: Request, o: SaveOutcome, code: string)
    requires SoundState(r.st, r.drawn) && Draws(q, r.drawn) && code in r.drawn && code !in r.st.grants.codes
    ensures code !in ServeRequest(r, now, q, o).st.grants.codes
  {
    var e := Effects(r.st, r.cfg, r.fault, now, q);
    hide Inv, Effects, Effected, NewlyCommitted, NewLineage, NewIds, Outcome, Names, Settle;
    NewIdsAreNew(r.st.reg, q, r.drawn);
    OutcomesOf(e);
    RequestEffected(r.st, r.cfg, r.fault, now, q, Unsaved(e));
    SpentOutcome(r.st, Unsaved(e), q, code);
    if e.Commit? {
      RequestEffected(r.st, r.cfg, r.fault, now, q, e.attempt);
      SpentOutcome(r.st, e.attempt, q, code);
    }
    SettleSpent(r, e, o, code);
  }

  lemma StartCodes(base: Origin, r: Relay, b: Boot, code: string)
    requires code !in r.st.grants.codes && (r.disk.file.Some? ==> Writable(r.disk.file.value))
    ensures code !in Start(base, r, b).st.grants.codes && Start(base, r, b).drawn == r.drawn
  {
    var down := r.(up := false);
    var begun := r.(up := true, cfg := b.cfg, fault := r.disk.mark.Dirty?);
    hide Canonicalize, Encode, UsersAccepted, FirstAccount, Writable, Cleanup, Loaded;
    if r.disk.file.None? {
      FirstAccountCodes(begun.(st := Blank(b)), down, b, code);
    } else {
      var i := Canonicalize(base, Encode(base, r.disk.file.value));
      if i.Some? && UsersAccepted(i.value.users) {
        var s := Cleanup(Loaded(i.value, b), b.now);
        CleanupCodes(Loaded(i.value, b), b.now);
        LoadedCodes(i.value, b);
        var t := if begun.fault then begun.(st := s) else Settle(begun.(st := s), Commit(s, s, false), b.first);
        FirstAccountCodes(t, down, b, code);
      }
    }
  }

  lemma LoadedCodes(i: Image, b: Boot)
    requires UsersAccepted(i.users)
    ensures Loaded(i, b).grants.codes == map[]
  {
    hide UsersAccepted, EnsureAll, IndexOf, Adopt;
  }

  lemma FirstAccountCodes(r: Relay, down: Relay, b: Boot, code: string)
    requires code !in r.st.grants.codes && code !in down.st.grants.codes && r.drawn == down.drawn
    ensures code !in FirstAccount(r, down, b).st.grants.codes && FirstAccount(r, down, b).drawn == r.drawn
  {
    hide CreateUser, FirstAccount;
    FirstAccountCases(r, down, b);
  }

  lemma {:induction false} SpentForever(base: Origin, r: Relay, evs: seq<Event>, t: Relay, code: string)
    requires Sound(r) && Reaches(base, r, evs, t) && code in r.drawn && code !in r.st.grants.codes
    ensures code !in t.st.grants.codes
    decreases |evs|
  {
    hide Sound, Next, Allowed, Writable;
    if evs != [] {
      NextSound(base, r, evs[0]);
      SpentStep(base, r, evs[0], code);
      SpentForever(base, Next(base, r, evs[0]), evs[1..], t, code);
    }
  }

  /** An authorization code works at most once: after any attempt to redeem it, whatever
      became of that attempt, no later attempt yields a token, in this process or another. */
  lemma CodesWorkOnce(base: Origin, r: Relay, now: int, q: CodeRequest, f: Fresh, o: SaveOutcome, evs: seq<Event>, t: Relay,
                      later: int, again: CodeRequest, g: Fresh)
    requires Sound(r) && q.code in r.drawn && Reaches(base, r, [Serve(now, Redeem(q, f), o)] + evs, t)
    requires again.code == q.code
    ensures var e := Effects(t.st, t.cfg, t.fault, later, Redeem(again, g)); e.Quiet? && SubGrants(e.next.grants, t.st.grants)
  {
    var ev := Serve(now, Redeem(q, f), o);
    assert ([ev] + evs)[0] == ev && ([ev] + evs)[1..] == evs;
    assert Allowed(r, ev) && (r.disk.file.Some? ==> Writable(r.disk.file.value)) && Reaches(base, Next(base, r, ev), evs, t) by {
      hide Sound, ServeRequest, Writable, Draws;
    }
    RedeemedIsGone(base, r, ev) by { hide Reaches, Sound, Writable; }
    hide Reaches, Next, Writable, Sound, ServeRequest, Draws;
    NextSound(base, r, ev);
    SpentForever(base, Next(base, r, ev), evs, t, q.code);
    SpentYieldsNothing(t, later, again, g);
  }

  lemma RedeemedIsGone(base: Origin, r: Relay, ev: Event)
    requires ev.Serve? && ev.request.Redeem? && ev.request.codeRequest.code in r.drawn && (r.disk.file.Some? ==> Writable(r.disk.file.value))
    ensures var code, n := ev.request.codeRequest.code, Next(base, r, ev); code !in n.st.grants.codes && code in n.drawn
  {
    var Serve(now, q, o) := ev;
    var e := Effects(r.st, r.cfg, r.fault, now, q);
    hide Effects, NewlyCommitted, NewLineage, Outcome, Redeemable, FileDurable, Settle, Writable;
    OutcomesOf(e);
    RedeemSpends(r.st, r.cfg, r.fault, now, q.codeRequest, q.tokens, Unsaved(e));
    if e.Commit? { RedeemSpends(r.st, r.cfg, r.fault, now, q.codeRequest, q.tokens, e.attempt); }
    SettleSpent(r, e, o, q.codeRequest.code);
    SettleDrawn(r, e, o);
  }

  lemma SpentYieldsNothing(t: Relay, now: int, q: CodeRequest, f: Fresh)
    requires q.code !in t.st.grants.codes
    ensures var e := Effects(t.st, t.cfg, t.fault, now, Redeem(q, f)); e.Quiet? && SubGrants(e.next.grants, t.st.grants)
  {
    var e := Effects(t.st, t.cfg, t.fault, now, Redeem(q, f));
    assert !Redeemable(t.st, t.fault, now, q);
    hide Effects, Outcome, Redeemable, SubGrants;
    OutcomesOf(e);
    RedeemSpends(t.st, t.cfg, t.fault, now, q, f, Unsaved(e));
  }
}
