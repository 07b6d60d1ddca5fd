/** Traffic quotas: 64-bit accounting that stays within 2^50, activation codes that are
    worth exactly their quota once, and failed saves that change nothing. */
module Usage {
  import opened Wrappers

  newtype int64 = x: int | -0x8000_0000_0000_0000 <= x < 0x8000_0000_0000_0000

  const MAX_QUOTA: int64 := 0x4_0000_0000_0000
  const DEFAULT_QUOTA: int64 := 0x640_0000
  const CODE_LIFETIME: int64 := 365 * 24 * 3600
  const MAX_CODES := 4096

  datatype Record = Record(quota: int64, used: int64)

  datatype Code = Code(created: int64, expires: int64, quota: int64, uses: int64)

  /** The accounting state: what each account may use and has used, and codes not yet redeemed. */
  datatype Book = Book(usage: map<string, Record>, codes: map<string, Code>, dirty: bool)

  predicate RecordOk(r: Record) {
    0 <= r.quota <= MAX_QUOTA && 0 <= r.used <= MAX_QUOTA
  }

  predicate CodeOk(c: Code) {
    0 < c.quota <= MAX_QUOTA && 0 < c.uses && 0 < c.created && 0 < c.expires
  }

  predicate Bounded(b: Book) {
    (forall u :: u in b.usage ==> RecordOk(b.usage[u])) && (forall k :: k in b.codes ==> CodeOk(b.codes[k]))
  }

  predicate QuotaOk(q: int64) {
    0 < q <= MAX_QUOTA
  }

  // --------------------------------------------------------------- operations

  /** `ensureUsageRecordLocked` */
  function Ensure(b: Book, default: int64, u: string): Book {
    if u in b.usage then b
    else b.(usage := b.usage[u := Record(if default <= 0 then DEFAULT_QUOTA else default, 0)], dirty := true)
  }

  /** `grantQuotaLocked`: a grant that would pass the maximum is refused after the record is made. */
  function Grant(b: Book, default: int64, u: string, active: bool, quota: int64): (r: (Book, bool))
    requires Bounded(b) && default <= MAX_QUOTA
  {
    if !QuotaOk(quota) || !active then (b, false)
    else
      var e := Ensure(b, default, u);
      if e.usage[u].quota > MAX_QUOTA - quota then (e, false)
      else (e.(usage := e.usage[u := e.usage[u].(quota := e.usage[u].quota + quota)], dirty := true), true)
  }

  /** `recordUsageBytesLocked`: the count saturates at the maximum. */
  function Meter(b: Book, default: int64, u: string, active: bool, bytes: int64): Book
    requires Bounded(b) && default <= MAX_QUOTA
  {
    if bytes <= 0 || !active then b
    else
      var e := Ensure(b, default, u);
      var r := e.usage[u];
      e.(usage := e.usage[u := r.(used := if bytes > MAX_QUOTA - r.used then MAX_QUOTA else r.used + bytes)], dirty := true)
  }

  /** `activationCodeLocked` */
  function Create(b: Book, key: string, quota: int64, now: int64): (r: (Book, bool))
    requires 0 < now <= 0x7FFF_FFFF_FFFF_FFFF - CODE_LIFETIME
  {
    if !QuotaOk(quota) || |b.codes| >= MAX_CODES then (b, false)
    else (b.(codes := b.codes[key := Code(now, now + CODE_LIFETIME, quota, 1)], dirty := true), true)
  }

  /** `redeemActivationCodeLocked` */
  function Redeem(b: Book, default: int64, key: string, u: string, active: bool, now: int64): (r: (Book, bool))
    requires Bounded(b) && default <= MAX_QUOTA
  {
    if key !in b.codes || b.codes[key].expires <= now || b.codes[key].uses <= 0 then (b, false)
    else
      var c := b.codes[key];
      var (g, ok) := Grant(b, default, u, active, c.quota);
      if !ok then (g, false)
      else (g.(codes := if c.uses - 1 <= 0 then g.codes - {key} else g.codes[key := c.(uses := c.uses - 1)]), true)
  }

  /** The part of `cleanupLocked` that drops spent and expired codes. */
  function Clean(b: Book, now: int64): Book {
    var kept := map k | k in b.codes && !(b.codes[k].expires <= now || b.codes[k].uses <= 0) :: b.codes[k];
    b.(codes := kept, dirty := b.dirty || kept != b.codes)
  }

  /** `saveUsageOrRollbackLocked` */
  function Save(before: Book, changed: Book, ok: bool, saved: bool): Book {
    if !ok then changed else if saved then changed.(dirty := false) else before
  }

  // ------------------------------------------------------------------ the class

  /** The accounting part of the server, updated in place under its mutex. */
  class Accounts {
    var usage: map<string, Record>
    var codes: map<string, Code>
    var dirty: bool
    var metering: bool
    var default: int64

    function View(): Book
      reads this
    {
      Book(usage, codes, dirty)
    }

    predicate Valid()
      reads this
    {
      Bounded(View()) && default <= MAX_QUOTA
    }

    method EnsureRecord(u: string) returns (record: Record)
      requires Valid()
      modifies this`usage, this`dirty
      ensures Valid() && View() == Ensure(old(View()), default, u) && u in usage && record == usage[u]
    {
      if u in usage {
        return usage[u];
      }
      var quota := default;
      if quota <= 0 {
        quota := DEFAULT_QUOTA;
      }
      record := Record(quota, 0);
      usage := usage[u := record];
      dirty := true;
    }

    method GrantQuota(u: string, active: bool, quota: int64) returns (ok: bool)
      requires Valid()
      modifies this`usage, this`dirty
      ensures Valid() && (View(), ok) == Grant(old(View()), default, u, active, quota)
    {
      if quota <= 0 || quota > MAX_QUOTA || !active {
        return false;
      }
      var record := EnsureRecord(u);
      if record.quota > MAX_QUOTA - quota {
        return false;
      }
      record := record.(quota := record.quota + quota);
      usage := usage[u := record];
      dirty := true;
      return true;
    }

    method RecordBytes(u: string, active: bool, bytes: int64)
      requires Valid()
      modifies this`usage, this`dirty
      ensures Valid() && View() == if metering then Meter(old(View()), default, u, active, bytes) else old(View())
      ensures metering && bytes > 0 && active ==>
                UsedOf(View(), u) == Saturated(UsedOf(old(View()), u) + bytes as int) && usage - {u} == old(usage) - {u} && codes == old(codes)
      ensures !(metering && bytes > 0 && active) ==> View() == old(View())
    {
      if !metering || bytes <= 0 || !active {
        return;
      }
      MeterCounts(View(), default, u, active, bytes);
      var record := EnsureRecord(u);
      if bytes > MAX_QUOTA - record.used {
        record := record.(used := MAX_QUOTA);
      } else {
        record := record.(used := record.used + bytes);
      }
      usage := usage[u := record];
      dirty := true;
    }

    method CreateCode(key: string, quota: int64, now: int64) returns (ok: bool)
      requires Valid() && 0 < now <= 0x7FFF_FFFF_FFFF_FFFF - CODE_LIFETIME
      modifies this`codes, this`dirty
      ensures Valid() && (View(), ok) == Create(old(View()), key, quota, now)
    {
      if quota <= 0 || quota > MAX_QUOTA || |codes| >= MAX_CODES {
        return false;
      }
      codes := codes[key := Code(now, now + CODE_LIFETIME, quota, 1)];
      dirty := true;
      return true;
    }

    method RedeemCode(key: string, u: string, active: bool, now: int64) returns (ok: bool)
      requires Valid()
      modifies this`usage, this`codes, this`dirty
      ensures Valid() && (View(), ok) == Redeem(old(View()), default, key, u, active, now)
    {
      if key !in codes {
        return false;
      }
      var record := codes[key];
      if record.expires <= now || record.uses <= 0 {
        return false;
      }
      ok := GrantQuota(u, active, record.quota);
      if !ok {
        return;
      }
      record := record.(uses := record.uses - 1);
      if record.uses <= 0 {
        codes := codes - {key};
      } else {
        codes := codes[key := record];
      }
    }

    /** `checkpointUsageLocked`; `saved` is what the disk answers. */
    method Checkpoint(saved: bool) returns (ok: bool)
      modifies this`dirty
      ensures ok == (!old(dirty) || saved) && dirty == (old(dirty) && !saved)
    {
      if !dirty {
        return true;
      }
      if !saved {
        return false;
      }
      dirty := false;
      return true;
    }

    method SaveOrRollback(snapshot: Book, saved: bool) returns (ok: bool)
      modifies this`usage, this`codes, this`dirty
      ensures ok == saved && View() == Save(snapshot, old(View()), true, saved)
    {
      dirty := true;
      ok := Checkpoint(saved);
      if !ok {
        usage, codes, dirty := snapshot.usage, snapshot.codes, snapshot.dirty;
      }
    }

    /** The account page's redemption: change, then save or put everything back. */
    method HandleRedeem(key: string, u: string, active: bool, now: int64, saved: bool) returns (ok: bool)
      requires Valid()
      modifies this`usage, this`codes, this`dirty
      ensures Valid()
      ensures var (changed, done) := Redeem(old(View()), default, key, u, active, now);
              View() == Save(old(View()), changed, done, saved) && ok == (done && saved)
      ensures !saved && Redeem(old(View()), default, key, u, active, now).1 ==> View() == old(View())
    {
      var snapshot := View();
      ok := RedeemCode(key, u, active, now);
      if ok {
        ok := SaveOrRollback(snapshot, saved);
      }
    }

    /** The administrator's grant: the account's quota grows by exactly `quota` and is on disk,
        or the grant was good and the disk was not, and nothing changed, or the grant was refused
        and no quota grew. */
    method HandleGrant(u: string, active: bool, quota: int64, saved: bool) returns (ok: bool)
      requires Valid()
      modifies this`usage, this`codes, this`dirty
      ensures Valid()
      ensures var (changed, done) := Grant(old(View()), default, u, active, quota);
              View() == Save(old(View()), changed, done, saved) && ok == (done && saved)
      ensures ok ==> Worth(View()) == Worth(old(View())) + Opening(old(View()), default, u) + quota as int && !dirty
      ensures !saved && Grant(old(View()), default, u, active, quota).1 ==> View() == old(View())
      ensures !ok ==> codes == old(codes) && (forall v :: v in old(usage) ==> v in usage && usage[v] == old(usage)[v])
    {
      var snapshot := View();
      GrantWorth(snapshot, default, u, active, quota);
      ok := GrantQuota(u, active, quota);
      if ok {
        WorthIgnoresDirty(View());
        ok := SaveOrRollback(snapshot, saved);
      }
    }

    /** The administrator's new activation code: one code more, worth its quota and on disk,
        or nothing changed. */
    method HandleCreate(key: string, quota: int64, now: int64, saved: bool) returns (ok: bool)
      requires Valid() && 0 < now <= 0x7FFF_FFFF_FFFF_FFFF - CODE_LIFETIME
      modifies this`usage, this`codes, this`dirty
      ensures Valid()
      ensures var (changed, done) := Create(old(View()), key, quota, now);
              View() == Save(old(View()), changed, done, saved) && ok == (done && saved)
      ensures ok && key !in old(codes) ==> Worth(View()) == Worth(old(View())) + quota as int && codes.Keys == old(codes).Keys + {key}
      ensures !ok ==> View() == old(View())
    {
      var snapshot := View();
      ok := CreateCode(key, quota, now);
      if ok {
        if key !in snapshot.codes {
          CreateSaved(snapshot, key, quota, now, true);
        }
        ok := SaveOrRollback(snapshot, saved);
      }
    }
  }

  // --------------------------------------------------------------------- totals

  ghost function Total(m: map<string, int>): int {
    if m == map[] then 0 else var k :| k in m; m[k] + Total(m - {k})
  }

  lemma {:induction false} TotalWithout(m: map<string, int>, k: string)
    requires k in m
    ensures Total(m) == m[k] + Total(m - {k})
    decreases |m|
  {
    var j :| j in m && Total(m) == m[j] + Total(m - {j});
    if j != k {
      TotalWithout(m - {j}, k);
      TotalWithout(m - {k}, j);
      assert m - {j} - {k} == m - {k} - {j};
    }
  }

  lemma TotalWith(m: map<string, int>, k: string, v: int)
    ensures Total(m[k := v]) == Total(m - {k}) + v
  {
    TotalWithout(m[k := v], k);
    assert m[k := v] - {k} == m - {k};
  }

  function Quotas(usage: map<string, Record>): map<string, int> {
    map u | u in usage :: usage[u].quota as int
  }

  /** What a code is still worth. */
  function CodeWorth(c: Code): int {
    c.quota as int * c.uses as int
  }

  function Worths(codes: map<string, Code>): map<string, int> {
    map k | k in codes :: CodeWorth(codes[k])
  }

  /** All quota there is: granted to accounts, or waiting in codes. */
  ghost function Worth(b: Book): int {
    Total(Quotas(b.usage)) + Total(Worths(b.codes))
  }

  lemma QuotaSet(b: Book, u: string, r: Record)
    ensures Total(Quotas(b.usage[u := r])) == Total(Quotas(b.usage)) + r.quota as int - if u in b.usage then b.usage[u].quota as int else 0
  {
    assert Quotas(b.usage[u := r]) == Quotas(b.usage)[u := r.quota as int];
    TotalWith(Quotas(b.usage), u, r.quota as int);
    if u in b.usage {
      TotalWithout(Quotas(b.usage), u);
    } else {
      assert Quotas(b.usage) - {u} == Quotas(b.usage);
    }
  }

  lemma CodeSet(b: Book, k: string, c: Code)
    ensures Total(Worths(b.codes[k := c])) == Total(Worths(b.codes)) + CodeWorth(c) - if k in b.codes then CodeWorth(b.codes[k]) else 0
  {
    assert Worths(b.codes[k := c]) == Worths(b.codes)[k := CodeWorth(c)];
    TotalWith(Worths(b.codes), k, CodeWorth(c));
    if k in b.codes {
      TotalWithout(Worths(b.codes), k);
    } else {
      assert Worths(b.codes) - {k} == Worths(b.codes);
    }
  }

  lemma CodeGone(b: Book, k: string)
    requires k in b.codes
    ensures Total(Worths(b.codes - {k})) == Total(Worths(b.codes)) - CodeWorth(b.codes[k])
  {
    TotalWithout(Worths(b.codes), k);
    assert Worths(b.codes - {k}) == Worths(b.codes) - {k};
  }

  /** What a new account's record adds. */
  function Opening(b: Book, default: int64, u: string): int {
    if u in b.usage then 0 else if default <= 0 then DEFAULT_QUOTA as int else default as int
  }

  lemma EnsureWorth(b: Book, default: int64, u: string)
    ensures Worth(Ensure(b, default, u)) == Worth(b) + Opening(b, default, u)
  {
    if u !in b.usage {
      QuotaSet(b, u, Ensure(b, default, u).usage[u]);
    }
  }

  /** A grant adds its quota, no more and no less. */
  lemma GrantWorth(b: Book, default: int64, u: string, active: bool, quota: int64)
    requires Bounded(b) && default <= MAX_QUOTA
    ensures var (g, ok) := Grant(b, default, u, active, quota);
            Bounded(g) && g.codes == b.codes &&
            Worth(g) == Worth(b) + (if QuotaOk(quota) && active then Opening(b, default, u) else 0) + if ok then quota as int else 0
  {
    if QuotaOk(quota) && active {
      var e := Ensure(b, default, u);
      EnsureWorth(b, default, u);
      if e.usage[u].quota <= MAX_QUOTA - quota {
        QuotaSet(e, u, e.usage[u].(quota := e.usage[u].quota + quota));
      }
    }
  }

  /** Redeeming a code moves one use's worth to the account: nothing is created or lost
      beyond opening the account's record, and a code with one use is gone. */
  lemma RedeemConserves(b: Book, default: int64, key: string, u: string, active: bool, now: int64)
    requires Bounded(b) && default <= MAX_QUOTA
    ensures var (r, ok) := Redeem(b, default, key, u, active, now);
            Bounded(r) && (ok ==> key in b.codes && (b.codes[key].uses == 1 ==> key !in r.codes) && Worth(r) == Worth(b) + Opening(b, default, u))
    ensures var (r, ok) := Redeem(b, default, key, u, active, now);
            !ok ==> r.codes == b.codes && (Worth(r) == Worth(b) || Worth(r) == Worth(b) + Opening(b, default, u))
  {
    if key in b.codes {
      var c := b.codes[key];
      GrantWorth(b, default, u, active, c.quota);
      var g := Grant(b, default, u, active, c.quota).0;
      CodeGone(g, key);
      CodeSet(g, key, c.(uses := c.uses - 1));
      OneUse(c);
      hide Grant, Opening, CodeWorth;
    }
  }

  lemma OneUse(c: Code)
    requires 0 < c.uses
    ensures CodeWorth(c.(uses := c.uses - 1)) == CodeWorth(c) - c.quota as int
    ensures c.uses == 1 ==> CodeWorth(c) == c.quota as int
  {
  }

  lemma MeterKeeps(b: Book, default: int64, u: string, active: bool, bytes: int64)
    requires Bounded(b) && default <= MAX_QUOTA
    ensures var m := Meter(b, default, u, active, bytes);
            Bounded(m) && m.codes == b.codes && Worth(m) == Worth(b) + if bytes > 0 && active then Opening(b, default, u) else 0
  {
    if bytes > 0 && active {
      var e := Ensure(b, default, u);
      EnsureWorth(b, default, u);
      QuotaSet(e, u, Meter(b, default, u, active, bytes).usage[u]);
    }
  }

  // -------------------------------------------------- what each operation does

  /** What an account has used: nothing before it has a record. */
  function UsedOf(b: Book, u: string): int {
    if u in b.usage then b.usage[u].used as int else 0
  }

  /** What an account may use, once it has a record. */
  function QuotaOf(b: Book, default: int64, u: string): int {
    if u in b.usage then b.usage[u].quota as int else if default <= 0 then DEFAULT_QUOTA as int else default as int
  }

  /** Counts stop at 2^50. */
  function Saturated(n: int): int {
    if n > 0x4_0000_0000_0000 then 0x4_0000_0000_0000 else n
  }

  /** Metering adds the bytes to what was used before, up to 2^50, and touches nothing else. */
  lemma MeterCounts(b: Book, default: int64, u: string, active: bool, bytes: int64)
    requires Bounded(b) && default <= MAX_QUOTA
    ensures var m := Meter(b, default, u, active, bytes);
            if bytes > 0 && active then
              u in m.usage && UsedOf(m, u) == Saturated(UsedOf(b, u) + bytes as int) && m.usage[u].quota as int == QuotaOf(b, default, u) &&
              m.usage - {u} == b.usage - {u} && m.codes == b.codes && m.dirty
            else m == b
  {
  }

  /** A grant happens exactly for a quota within bounds, to an active account with room for it; it
      raises that account's quota by exactly so much and touches nothing else. A refused one
      changes no quota and no count. */
  lemma GrantExactly(b: Book, default: int64, u: string, active: bool, quota: int64)
    requires Bounded(b) && default <= MAX_QUOTA
    ensures var (g, ok) := Grant(b, default, u, active, quota);
            ok <==> 0 < quota <= 0x4_0000_0000_0000 && active && QuotaOf(b, default, u) + quota as int <= 0x4_0000_0000_0000
    ensures var (g, ok) := Grant(b, default, u, active, quota);
            (ok ==> u in g.usage && g.usage[u].quota as int == QuotaOf(b, default, u) + quota as int && UsedOf(g, u) == UsedOf(b, u) && g.dirty) &&
            g.usage - {u} == b.usage - {u} && g.codes == b.codes && (!ok && u in b.usage ==> g == b)
  {
  }

  /** A code is made exactly for a quota within bounds while there is room for one; it has one use and lasts a year. */
  lemma CreateExactly(b: Book, key: string, quota: int64, now: int64)
    requires 0 < now <= 0x7FFF_FFFF_FFFF_FFFF - CODE_LIFETIME
    ensures var (c, ok) := Create(b, key, quota, now);
            (ok <==> 0 < quota <= 0x4_0000_0000_0000 && |b.codes| < 4096) &&
            if ok then c == b.(codes := b.codes[key := Code(now, now + 31536000, quota, 1)], dirty := true) else c == b
  {
  }

  /** A code is redeemed exactly when it is there, has not expired, has a use left and its quota may
      be granted; one use goes, the account gains the quota, and no other code or account changes. */
  lemma RedeemExactly(b: Book, default: int64, key: string, u: string, active: bool, now: int64)
    requires Bounded(b) && default <= MAX_QUOTA
    ensures var (r, ok) := Redeem(b, default, key, u, active, now);
            ok <==> key in b.codes && now < b.codes[key].expires && b.codes[key].uses > 0 && active &&
                    QuotaOf(b, default, u) + b.codes[key].quota as int <= 0x4_0000_0000_0000
    ensures var (r, ok) := Redeem(b, default, key, u, active, now);
            r.usage - {u} == b.usage - {u} && r.codes - {key} == b.codes - {key} &&
            (ok ==> u in r.usage && r.usage[u].quota as int == QuotaOf(b, default, u) + b.codes[key].quota as int && UsedOf(r, u) == UsedOf(b, u) &&
                    (key in r.codes <==> b.codes[key].uses > 1) && (key in r.codes ==> r.codes[key] == b.codes[key].(uses := b.codes[key].uses - 1))) &&
            (!ok ==> r.codes == b.codes)
  {
    if key in b.codes {
      GrantExactly(b, default, u, active, b.codes[key].quota);
      hide Grant, QuotaOf, UsedOf;
    }
  }

  /** A code that was made can be redeemed: by any active account with room, for a year, once. */
  lemma CreatedIsRedeemable(b: Book, default: int64, key: string, quota: int64, now: int64, u: string, later: int64)
    requires Bounded(b) && default <= MAX_QUOTA && 0 < now <= 0x7FFF_FFFF_FFFF_FFFF - CODE_LIFETIME && Create(b, key, quota, now).1
    requires later < now + 31536000 && QuotaOf(b, default, u) + quota as int <= 0x4_0000_0000_0000
    ensures var c := Create(b, key, quota, now).0;
            Bounded(c) && var (r, ok) := Redeem(c, default, key, u, true, later);
            ok && u in r.usage && r.usage[u].quota as int == QuotaOf(b, default, u) + quota as int && Bounded(r) &&
            forall v, active, again :: !Redeem(r, default, key, v, active, again).1
  {
    var c := Create(b, key, quota, now).0;
    assert Bounded(c);
    RedeemExactly(c, default, key, u, true, later);
    RedeemConserves(c, default, key, u, true, later);
    hide Grant, Worth;
  }

  /** Clean-up drops exactly the codes that are spent or expired. */
  lemma CleanExactly(b: Book, now: int64, key: string)
    ensures var c := Clean(b, now);
            c.usage == b.usage && (key in c.codes <==> key in b.codes && now < b.codes[key].expires && b.codes[key].uses > 0) &&
            (key in c.codes ==> c.codes[key] == b.codes[key])
  {
  }

  // ----------------------------------------------------------------- whole runs

  /** What can happen to the accounts, each with what the disk answers. `Drop` is the
      deletion of an account, `Open` the opening of a record without any grant. */
  datatype Step =
    | Granting(user: string, active: bool, quota: int64, saved: bool)
    | Metering(user: string, active: bool, bytes: int64)
    | Creating(key: string, quota: int64, now: int64, saved: bool)
    | Redeeming(key: string, user: string, active: bool, now: int64, saved: bool)
    | Cleaning(now: int64)
    | Checkpointing(saved: bool)
    | Open(user: string)
    | Drop(user: string)

  /** The book, with a history: quota ever created, quota that ran out or was deleted,
      codes ever drawn, and the codes redeemed, in order. */
  datatype Ledger = Ledger(book: Book, minted: int, burned: int, drawn: set<string>, redeemed: seq<string>)

  predicate Allowed(l: Ledger, step: Step) {
    step.Creating? ==> step.key !in l.drawn && 0 < step.now <= 0x7FFF_FFFF_FFFF_FFFF - CODE_LIFETIME
  }

  predicate Single(b: Book) {
    forall k :: k in b.codes ==> b.codes[k].uses == 1
  }

  /** Quotas are bounded, what exists is what was created less what is gone, and no code is ever redeemed twice. */
  ghost predicate Kept(l: Ledger, default: int64) {
    Bounded(l.book) && default <= MAX_QUOTA && Worth(l.book) + l.burned == l.minted && OnceEach(l)
  }

  ghost predicate OnceEach(l: Ledger) {
    l.book.codes.Keys <= l.drawn && Single(l.book) &&
    (forall i :: 0 <= i < |l.redeemed| ==> l.redeemed[i] in l.drawn && l.redeemed[i] !in l.book.codes) &&
    (forall i, j :: 0 <= i < j < |l.redeemed| ==> l.redeemed[i] != l.redeemed[j])
  }

  /** What the opening of a record has added, if one was opened and kept. */
  function Opened(b: Book, n: Book, default: int64, u: string): int {
    if u in n.usage then Opening(b, default, u) else 0
  }

  function Expired(b: Book, now: int64): map<string, Code> {
    map k | k in b.codes && (b.codes[k].expires <= now || b.codes[k].uses <= 0) :: b.codes[k]
  }

  ghost function Next(l: Ledger, default: int64, step: Step): Ledger
    requires Bounded(l.book) && default <= MAX_QUOTA && Allowed(l, step)
  {
    var b := l.book;
    match step
    case Granting(u, active, quota, saved) =>
      var (g, ok) := Grant(b, default, u, active, quota);
      var n := Save(b, g, ok, saved);
      l.(book := n, minted := l.minted + Opened(b, n, default, u) + if ok && saved then quota as int else 0)
    case Metering(u, active, bytes) =>
      var n := Meter(b, default, u, active, bytes);
      l.(book := n, minted := l.minted + Opened(b, n, default, u))
    case Creating(key, quota, now, saved) =>
      var (c, ok) := Create(b, key, quota, now);
      l.(book := Save(b, c, ok, saved), minted := l.minted + (if ok && saved then quota as int else 0), drawn := l.drawn + {key})
    case Redeeming(key, u, active, now, saved) =>
      var (r, ok) := Redeem(b, default, key, u, active, now);
      var n := Save(b, r, ok, saved);
      l.(book := n, minted := l.minted + Opened(b, n, default, u), redeemed := if ok && saved then l.redeemed + [key] else l.redeemed)
    case Cleaning(now) => l.(book := Clean(b, now), burned := l.burned + Total(Worths(Expired(b, now))))
    case Checkpointing(saved) => l.(book := b.(dirty := b.dirty && !saved))
    case Open(u) => l.(book := Ensure(b, default, u), minted := l.minted + Opening(b, default, u))
    case Drop(u) =>
      l.(book := b.(usage := b.usage - {u}, dirty := true), burned := l.burned + if u in b.usage then b.usage[u].quota as int else 0)
  }

  lemma DropWorth(b: Book, u: string)
    ensures Worth(b.(usage := b.usage - {u}, dirty := true)) == Worth(b) - if u in b.usage then b.usage[u].quota as int else 0
  {
    if u in b.usage {
      TotalWithout(Quotas(b.usage), u);
      assert Quotas(b.usage - {u}) == Quotas(b.usage) - {u};
    } else {
      assert b.usage - {u} == b.usage;
    }
  }

  lemma TakenOut(a: map<string, int>, b: map<string, int>, k: string)
    requires a.Keys !! b.Keys && k in b
    ensures (a + b) - {k} == a + (b - {k}) && (a + b)[k] == b[k] && a.Keys !! (b - {k}).Keys && |b - {k}| < |b|
  {
    var whole, rest := (a + b) - {k}, a + (b - {k});
    assert whole.Keys == rest.Keys;
    assert b == (b - {k})[k := b[k]];
  }

  lemma {:induction false} TotalSplit(a: map<string, int>, b: map<string, int>)
    requires a.Keys !! b.Keys
    ensures Total(a + b) == Total(a) + Total(b)
    decreases |b|
  {
    if b == map[] {
      assert a + b == a;
    } else {
      var k :| k in b;
      TakenOut(a, b, k);
      hide Total;
      TotalWithout(b, k);
      TotalWithout(a + b, k);
      TotalSplit(a, b - {k});
    }
  }

  lemma CleanWorth(b: Book, now: int64)
    ensures Worth(Clean(b, now)) == Worth(b) - Total(Worths(Expired(b, now)))
  {
    var kept, gone := Worths(Clean(b, now).codes), Worths(Expired(b, now));
    hide Total, CodeWorth;
    assert kept + gone == Worths(b.codes);
    TotalSplit(kept, gone);
  }

  lemma RedeemTouches(b: Book, default: int64, key: string, u: string, active: bool, now: int64)
    requires Bounded(b) && default <= MAX_QUOTA
    ensures var (r, ok) := Redeem(b, default, key, u, active, now);
            r.codes.Keys <= b.codes.Keys && (Single(b) ==> Single(r)) && (u !in r.usage ==> r == b) && (u in b.usage && !ok ==> r == b)
    ensures var (r, ok) := Redeem(b, default, key, u, active, now);
            u in r.usage && u !in b.usage && !ok ==> Worth(r) == Worth(b) + Opening(b, default, u)
  {
    EnsureWorth(b, default, u);
  }

  lemma GrantTouches(b: Book, default: int64, u: string, active: bool, quota: int64)
    requires Bounded(b) && default <= MAX_QUOTA
    ensures var (g, ok) := Grant(b, default, u, active, quota);
            (u !in g.usage ==> g == b) && (u in g.usage && u !in b.usage ==> QuotaOk(quota) && active) && (ok ==> QuotaOk(quota) && active)
  {
  }

  lemma GrantSaved(b: Book, default: int64, u: string, active: bool, quota: int64, saved: bool)
    requires Bounded(b) && default <= MAX_QUOTA
    ensures var (g, ok) := Grant(b, default, u, active, quota);
            var n := Save(b, g, ok, saved);
            Bounded(n) && Worth(n) == Worth(b) + Opened(b, n, default, u) + if ok && saved then quota as int else 0
  {
    GrantWorth(b, default, u, active, quota);
    GrantTouches(b, default, u, active, quota);
    var g := Grant(b, default, u, active, quota).0;
    WorthIgnoresDirty(g);
    hide Grant, Worth;
  }

  lemma RedeemSaved(b: Book, default: int64, key: string, u: string, active: bool, now: int64, saved: bool)
    requires Bounded(b) && default <= MAX_QUOTA
    ensures var (r, ok) := Redeem(b, default, key, u, active, now);
            var n := Save(b, r, ok, saved);
            Bounded(n) && Worth(n) == Worth(b) + Opened(b, n, default, u)
  {
    RedeemConserves(b, default, key, u, active, now);
    RedeemTouches(b, default, key, u, active, now);
    var r := Redeem(b, default, key, u, active, now).0;
    WorthIgnoresDirty(r);
    hide Redeem, Worth;
  }

  lemma CreateSaved(b: Book, key: string, quota: int64, now: int64, saved: bool)
    requires Bounded(b) && key !in b.codes && 0 < now <= 0x7FFF_FFFF_FFFF_FFFF - CODE_LIFETIME
    ensures var (c, ok) := Create(b, key, quota, now);
            var n := Save(b, c, ok, saved);
            Bounded(n) && Worth(n) == Worth(b) + if ok && saved then quota as int else 0
  {
    CodeSet(b, key, Code(now, now + CODE_LIFETIME, quota, 1));
  }

  lemma OthersKeep(b: Book, default: int64, u: string, now: int64, saved: bool)
    requires Bounded(b) && default <= MAX_QUOTA
    ensures Bounded(Clean(b, now)) && Bounded(Ensure(b, default, u)) && Bounded(b.(usage := b.usage - {u}, dirty := true))
    ensures Bounded(b.(dirty := b.dirty && !saved)) && Worth(b.(dirty := b.dirty && !saved)) == Worth(b)
  {
  }

  lemma MeterOpens(b: Book, default: int64, u: string, active: bool, bytes: int64)
    requires Bounded(b) && default <= MAX_QUOTA
    ensures Opened(b, Meter(b, default, u, active, bytes), default, u) == if bytes > 0 && active then Opening(b, default, u) else 0
  {
  }

  lemma WorthWhole(l: Ledger, default: int64, step: Step)
    requires Kept(l, default) && Allowed(l, step)
    ensures var n := Next(l, default, step); Bounded(n.book) && Worth(n.book) + n.burned == n.minted
  {
    var b := l.book;
    assert step.Creating? ==> step.key !in b.codes;
    hide Grant, Redeem, Meter, Create, Clean, Ensure, Save, Worth, Opened, Opening, Expired, OnceEach, Bounded;
    match step {
      case Granting(u, active, quota, saved) => GrantSaved(b, default, u, active, quota, saved);
      case Metering(u, active, bytes) =>
        MeterKeeps(b, default, u, active, bytes);
        MeterOpens(b, default, u, active, bytes);
      case Creating(key, quota, now, saved) => CreateSaved(b, key, quota, now, saved);
      case Redeeming(key, u, active, now, saved) => RedeemSaved(b, default, key, u, active, now, saved);
      case Cleaning(now) =>
        CleanWorth(b, now);
        OthersKeep(b, default, "", now, false);
      case Checkpointing(saved) => OthersKeep(b, default, "", 0, saved);
      case Open(u) =>
        EnsureWorth(b, default, u);
        OthersKeep(b, default, u, 0, false);
      case Drop(u) =>
        DropWorth(b, u);
        OthersKeep(b, default, u, 0, false);
    }
  }

  lemma WorthIgnoresDirty(b: Book)
    ensures Worth(b.(dirty := false)) == Worth(b) && Bounded(b.(dirty := false)) == Bounded(b)
  {
  }

  lemma StillOnce(l: Ledger, default: int64, step: Step)
    requires Bounded(l.book) && default <= MAX_QUOTA && OnceEach(l) && Allowed(l, step)
    ensures OnceEach(Next(l, default, step))
  {
    var b := l.book;
    match step {
      case Granting(u, active, quota, saved) => GrantWorth(b, default, u, active, quota);
      case Metering(u, active, bytes) => MeterKeeps(b, default, u, active, bytes);
      case Redeeming(key, u, active, now, saved) =>
        RedeemConserves(b, default, key, u, active, now);
        RedeemTouches(b, default, key, u, active, now);
        hide Redeem, Worth;
      case _ =>
    }
  }

  ghost predicate Runs(l: Ledger, default: int64, steps: seq<Step>, t: Ledger)
    decreases |steps|
  {
    if steps == [] then l == t
    else Kept(l, default) && Allowed(l, steps[0]) && Runs(Next(l, default, steps[0]), default, steps[1..], t)
  }

  /** Accounting over any run of grants, redemptions, metering, clean-ups and failed saves:
      every quota and count stays within 0..2^50, all quota that exists is what was ever
      created less what expired or was deleted, and no code is redeemed twice. */
  lemma {:induction false} AccountsBalance(l: Ledger, default: int64, steps: seq<Step>, t: Ledger)
    requires Kept(l, default) && Runs(l, default, steps, t)
    ensures Kept(t, default)
    decreases |steps|
  {
    if steps != [] {
      WorthWhole(l, default, steps[0]);
      StillOnce(l, default, steps[0]);
      hide Next, Kept;
      assert Kept(Next(l, default, steps[0]), default) by { KeptParts(l, Next(l, default, steps[0]), default); }
      AccountsBalance(Next(l, default, steps[0]), default, steps[1..], t);
    }
  }

  lemma KeptParts(l: Ledger, n: Ledger, default: int64)
    requires Kept(l, default) && Bounded(n.book) && Worth(n.book) + n.burned == n.minted && OnceEach(n)
    ensures Kept(n, default)
  {
  }

  lemma FromNothing(default: int64, steps: seq<Step>, t: Ledger)
    requires default <= MAX_QUOTA && Runs(Ledger(Book(map[], map[], false), 0, 0, {}, []), default, steps, t)
    ensures Bounded(t.book) && Worth(t.book) == t.minted - t.burned
    ensures forall i, j :: 0 <= i < j < |t.redeemed| ==> t.redeemed[i] != t.redeemed[j]
  {
    var l := Ledger(Book(map[], map[], false), 0, 0, {}, []);
    assert Quotas(l.book.usage) == map[] && Worths(l.book.codes) == map[];
    AccountsBalance(l, default, steps, t);
  }

  /** The bytes metered for an account since its record was opened, `n` of them before these steps. */
  function Metered(n: int, steps: seq<Step>, u: string): int
    decreases |steps|
  {
    if steps == [] then n
    else
      var more :=
        match steps[0]
        case Metering(v, active, bytes) => if v == u && active && bytes > 0 then n + bytes as int else n
        case Drop(v) => if v == u then 0 else n
        case _ => n;
      Metered(more, steps[1..], u)
  }

  lemma StepMetered(l: Ledger, default: int64, step: Step, u: string)
    requires Bounded(l.book) && default <= MAX_QUOTA && Allowed(l, step)
    ensures var was, after := UsedOf(l.book, u), UsedOf(Next(l, default, step).book, u);
            match step
            case Metering(v, active, bytes) => after == if v == u && active && bytes > 0 then Saturated(was + bytes as int) else was
            case Drop(v) => after == if v == u then 0 else was
            case _ => after == was
  {
    var b := l.book;
    match step {
      case Granting(v, active, quota, saved) =>
        GrantExactly(b, default, v, active, quota);
        GrantCounts(b, default, v, active, quota, u);
      case Metering(v, active, bytes) =>
        MeterCounts(b, default, v, active, bytes);
        SameElsewhere(b, Meter(b, default, v, active, bytes), v, u);
      case Redeeming(key, v, active, now, saved) => RedeemCounts(b, default, key, v, active, now, u);
      case _ =>
    }
  }

  lemma SameElsewhere(b: Book, n: Book, v: string, u: string)
    requires n.usage - {v} == b.usage - {v}
    ensures u != v ==> UsedOf(n, u) == UsedOf(b, u)
  {
    assert u in (n.usage - {v}) <==> u in (b.usage - {v});
    if u != v && u in b.usage {
      assert (n.usage - {v})[u] == (b.usage - {v})[u];
    }
  }

  lemma GrantCounts(b: Book, default: int64, v: string, active: bool, quota: int64, u: string)
    requires Bounded(b) && default <= MAX_QUOTA
    ensures UsedOf(Grant(b, default, v, active, quota).0, u) == UsedOf(b, u)
  {
  }

  lemma RedeemCounts(b: Book, default: int64, key: string, v: string, active: bool, now: int64, u: string)
    requires Bounded(b) && default <= MAX_QUOTA
    ensures UsedOf(Redeem(b, default, key, v, active, now).0, u) == UsedOf(b, u)
  {
    if key in b.codes {
      GrantCounts(b, default, v, active, b.codes[key].quota, u);
      hide Grant;
    }
  }

  /** Over any run an account's count is the sum of the bytes metered for it since its record was
      opened, up to 2^50, whatever is granted, redeemed or rolled back meanwhile. */
  lemma {:induction false} CountIsTheSum(l: Ledger, default: int64, steps: seq<Step>, t: Ledger, u: string, n: int)
    requires Kept(l, default) && Runs(l, default, steps, t) && n >= 0 && UsedOf(l.book, u) == Saturated(n)
    ensures UsedOf(t.book, u) == Saturated(Metered(n, steps, u))
    decreases |steps|
  {
    if steps != [] {
      var m := Next(l, default, steps[0]);
      StepMetered(l, default, steps[0], u) by { hide Next; }
      var more :=
        match steps[0]
        case Metering(v, active, bytes) => if v == u && active && bytes > 0 then n + bytes as int else n
        case Drop(v) => if v == u then 0 else n
        case _ => n;
      assert UsedOf(m.book, u) == Saturated(more) by { hide Next, Kept; }
      WorthWhole(l, default, steps[0]);
      StillOnce(l, default, steps[0]);
      hide Next, Kept, UsedOf, Saturated;
      assert Kept(m, default) by { KeptParts(l, m, default); }
      CountIsTheSum(m, default, steps[1..], t, u, more);
    }
  }

  // ------------------------------------------------------------------ reloading

  /** `validateUsageState`: None refuses the file; records of unknown accounts are dropped. */
  function Validate(usage: map<string, Record>, codes: map<string, Code>, users: set<string>): Option<Book> {
    if (exists u :: u in usage && !RecordOk(usage[u])) || (exists k :: k in codes && !(CodeOk(codes[k]) && codes[k].uses <= 1)) then None
    else
      var kept := map u | u in usage && u in users :: usage[u];
      Some(Book(kept, codes, kept != usage))
  }

  /** What the server writes after any run, it accepts again, and keeps for every account that still exists. */
  lemma WrittenIsAccepted(t: Ledger, default: int64, users: set<string>)
    requires Kept(t, default)
    ensures var v := Validate(t.book.usage, t.book.codes, users);
            v.Some? && v.value.codes == t.book.codes && Bounded(v.value) &&
            (forall u :: u in t.book.usage && u in users ==> u in v.value.usage && v.value.usage[u] == t.book.usage[u]) &&
            (t.book.usage.Keys <= users ==> v.value.usage == t.book.usage && !v.value.dirty)
  {
    if t.book.usage.Keys <= users {
      assert (map u | u in t.book.usage && u in users :: t.book.usage[u]) == t.book.usage;
    }
  }

  // ------------------------------------------------------------------- restarts

  /** What the accounts write while a step is carried out, if they write at all. */
  function Written(b: Book, default: int64, step: Step): Option<Book>
    requires Bounded(b) && default <= MAX_QUOTA
    requires step.Creating? ==> 0 < step.now <= 0x7FFF_FFFF_FFFF_FFFF - CODE_LIFETIME
  {
    match step
    case Granting(u, active, quota, _) => Sent(Grant(b, default, u, active, quota))
    case Creating(key, quota, now, _) => Sent(Create(b, key, quota, now))
    case Redeeming(key, u, active, now, _) => Sent(Redeem(b, default, key, u, active, now))
    case Checkpointing(_) => Sent((b, b.dirty))
    case _ => None
  }

  function Sent(change: (Book, bool)): Option<Book> {
    if change.1 then Some(change.0) else None
  }

  predicate Saved(step: Step) {
    match step
    case Granting(_, _, _, saved) => saved
    case Creating(_, _, _, saved) => saved
    case Redeeming(_, _, _, _, saved) => saved
    case Checkpointing(saved) => saved
    case _ => false
  }

  /** The accounts and the files a start may find. A write that succeeded has synced the file and
      its directory, so only that file is left; one that failed may or may not have come through. */
  datatype Life = Life(ledger: Ledger, files: set<Book>)

  /** A step in the process, or the process gone at any moment and a start on some file. */
  datatype Event = Do(step: Step) | Restart(file: Book, users: set<string>)

  ghost predicate CanHappen(x: Life, default: int64, e: Event) {
    match e
    case Do(step) => Bounded(x.ledger.book) && default <= MAX_QUOTA && Allowed(x.ledger, step)
    case Restart(file, users) => file in x.files && Validate(file.usage, file.codes, users).Some?
  }

  ghost function After(x: Life, default: int64, e: Event): Life
    requires CanHappen(x, default, e)
  {
    match e
    case Do(step) =>
      var w := Written(x.ledger.book, default, step);
      Life(Next(x.ledger, default, step), if w.None? then x.files else if Saved(step) then {w.value} else x.files + {w.value})
    case Restart(file, users) => x.(ledger := x.ledger.(book := Validate(file.usage, file.codes, users).value))
  }

  /** In the process and in every file a start may find: codes were drawn, have one use, and none that was redeemed is there. */
  ghost predicate Whole(x: Life, default: int64) {
    default <= MAX_QUOTA && Bounded(x.ledger.book) && OnceEach(x.ledger) &&
    forall f :: f in x.files ==> Bounded(f) && OnceEach(x.ledger.(book := f))
  }

  ghost predicate Lives(x: Life, default: int64, events: seq<Event>, t: Life)
    decreases |events|
  {
    if events == [] then x == t
    else CanHappen(x, default, events[0]) && Lives(After(x, default, events[0]), default, events[1..], t)
  }

  /** The steps written out: what the file gets is what the step leaves in memory if it is saved. */
  lemma WrittenWhole(l: Ledger, default: int64, step: Step)
    requires Bounded(l.book) && default <= MAX_QUOTA && OnceEach(l) && Allowed(l, step)
    ensures var w := Written(l.book, default, step); var n := Next(l, default, step);
            w.Some? ==> Bounded(w.value) && w.value.codes.Keys <= n.drawn && Single(w.value) &&
                        (Saved(step) ==> w.value.codes == n.book.codes) && (!Saved(step) ==> n.redeemed == l.redeemed) &&
                        w.value.codes.Keys <= l.book.codes.Keys + (n.drawn - l.drawn)
    ensures Bounded(Next(l, default, step).book) && l.drawn <= Next(l, default, step).drawn
    ensures Written(l.book, default, step).None? ==> Next(l, default, step).redeemed == l.redeemed
  {
    var b := l.book;
    match step {
      case Granting(u, active, quota, saved) =>
        GrantWorth(b, default, u, active, quota);
        hide Grant, Worth;
      case Metering(u, active, bytes) =>
        MeterKeeps(b, default, u, active, bytes);
        hide Meter, Worth;
      case Redeeming(key, u, active, now, saved) =>
        RedeemConserves(b, default, key, u, active, now);
        RedeemTouches(b, default, key, u, active, now);
        hide Redeem, Worth;
      case _ => hide Worth;
    }
  }

  lemma DoWhole(x: Life, default: int64, step: Step)
    requires Whole(x, default) && CanHappen(x, default, Do(step))
    ensures Whole(After(x, default, Do(step)), default)
  {
    var w, n, y := Written(x.ledger.book, default, step), Next(x.ledger, default, step), After(x, default, Do(step));
    WrittenWhole(x.ledger, default, step);
    StillOnce(x.ledger, default, step);
    hide Next, Written, Bounded;
    forall f | f in y.files ensures Bounded(f) && OnceEach(n.(book := f)) {
      if f in x.files && !(w.Some? && Saved(step)) {
        assert OnceEach(x.ledger.(book := f));
      }
    }
  }

  lemma RestartWhole(x: Life, default: int64, file: Book, users: set<string>)
    requires Whole(x, default) && file in x.files
    ensures CanHappen(x, default, Restart(file, users)) && Whole(After(x, default, Restart(file, users)), default)
  {
    assert OnceEach(x.ledger.(book := file));
  }

  /** No code is redeemed twice, whatever is saved, lost or written without an answer and
      whichever file each start finds; and every such start is accepted. */
  lemma {:induction false} NeverTwice(x: Life, default: int64, events: seq<Event>, t: Life, file: Book, users: set<string>)
    requires Whole(x, default) && Lives(x, default, events, t)
    ensures Whole(t, default) && (file in t.files ==> CanHappen(t, default, Restart(file, users)))
    ensures forall i, j :: 0 <= i < j < |t.ledger.redeemed| ==> t.ledger.redeemed[i] != t.ledger.redeemed[j]
    decreases |events|
  {
    if events == [] {
      if file in t.files {
        RestartWhole(t, default, file, users);
      }
    } else {
      match events[0] {
        case Do(step) => DoWhole(x, default, step);
        case Restart(f, us) => RestartWhole(x, default, f, us);
      }
      NeverTwice(After(x, default, events[0]), default, events[1..], t, file, users);
    }
  }
}
