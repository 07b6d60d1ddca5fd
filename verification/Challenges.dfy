/** One-time challenges: issued with an expiry under a MAC, accepted at most once, and
    remembered, by their text, only until they expire. Registration, authorization and Agent connections
    each keep such a table, by device or by client. */
module Challenges {
  import opened Wrappers
  import opened Base64
  import Text

  /** What a challenge is: a payload and its MAC. */
  datatype Challenge = Challenge(payload: Bytes, mac: Bytes)

  /** What the MAC attests: whom the challenge was issued to and when it expires. */
  datatype Ticket = Ticket(bucket: string, expires: int)

  /** MAC verification, on the decoded bytes. */
  type Attest = Challenge -> Option<Ticket>

  const PART := 32

  /** `issue…Challenge`: the text that is handed out. */
  function Spell(c: Challenge): string {
    Encode(c.payload) + "." + Encode(c.mac)
  }

  /** The challenge a text stands for: two parts around one dot, each 32 bytes once decoded. */
  function Open(text: string): Option<Challenge> {
    var parts := Text.Split(text, '.');
    if |parts| != 2 || Decode(parts[0]).None? || Decode(parts[1]).None? then None
    else if |Decode(parts[0]).value| != PART || |Decode(parts[1]).value| != PART then None
    else Some(Challenge(Decode(parts[0]).value, Decode(parts[1]).value))
  }

  /** The text is the one that was handed out for what it stands for. */
  predicate Canonical(text: string) {
    Open(text).Some? && Spell(Open(text).value) == text
  }

  type Table = map<string, map<string, int>>

  const LIFETIME := 30
  const SKEW := 5
  const MAX_BUCKET := 64

  function BucketOf(t: Table, bucket: string): map<string, int> {
    if bucket in t then t[bucket] else map[]
  }

  function Unexpired(m: map<string, int>, now: int): (kept: map<string, int>)
    ensures |kept| <= |m|
  {
    var kept := map k | k in m && now < m[k] :: m[k];
    Fewer(kept.Keys, m.Keys);
    SizeIsKeys(kept);
    SizeIsKeys(m);
    kept
  }

  lemma SizeIsKeys(m: map<string, int>)
    ensures |m| == |m.Keys|
  {
  }

  lemma {:induction false} Fewer(a: set<string>, b: set<string>)
    requires a <= b
    ensures |a| <= |b|
  {
    if x :| x in a {
      Fewer(a - {x}, b - {x});
    }
  }

  /** `validate…Challenge`: the challenge is genuine, for this bucket, unexpired, and not from too far ahead. */
  predicate Valid(attest: Attest, bucket: string, text: string, now: int) {
    TicketOf(attest, text).Some? &&
    TicketOf(attest, text).value.bucket == bucket && now < TicketOf(attest, text).value.expires <= now + LIFETIME + SKEW
  }

  function TicketOf(attest: Attest, text: string): Option<Ticket> {
    if Open(text).None? then None else attest(Open(text).value)
  }

  /** What `…ChallengeAvailableLocked` finds after its purge. */
  predicate Available(t: Table, bucket: string, text: string, now: int) {
    var b := Unexpired(BucketOf(t, bucket), now);
    text !in b && |b| < MAX_BUCKET
  }

  function Purge(t: Table, bucket: string, now: int): Table {
    if bucket in t then t[bucket := Unexpired(t[bucket], now)] else t
  }

  /** `consume…ChallengeLocked` */
  function Consume(t: Table, bucket: string, text: string, expires: int, now: int): Table {
    var p := Purge(t, bucket, now);
    if Available(t, bucket, text, now) then p[bucket := BucketOf(p, bucket)[text := expires]] else p
  }

  // ------------------------------------------------------------------ the class

  class Consumed {
    var buckets: Table

    constructor ()
      ensures buckets == map[]
    {
      buckets := map[];
    }

    /** The purging loop: entries are deleted while the bucket is read. */
    method Sweep(bucket: string, now: int)
      requires bucket in buckets
      modifies this
      ensures buckets == Purge(old(buckets), bucket, now)
    {
      var kept := buckets[bucket];
      ghost var whole := buckets[bucket];
      var todo := kept.Keys;
      while todo != {}
        invariant todo <= whole.Keys
        invariant kept == map k | k in whole && (k in todo || now < whole[k]) :: whole[k]
        decreases |todo|
      {
        var k :| k in todo;
        if kept[k] <= now {
          kept := kept - {k};
        }
        todo := todo - {k};
      }
      buckets := buckets[bucket := kept];
      assert kept == Unexpired(whole, now);
    }

    /** `…ChallengeAvailableLocked` */
    method AvailableLocked(bucket: string, text: string, now: int) returns (ok: bool)
      modifies this
      ensures ok == Available(old(buckets), bucket, text, now) && buckets == Purge(old(buckets), bucket, now)
    {
      if bucket !in buckets {
        assert Unexpired(map[], now) == map[];
        return true;
      }
      Sweep(bucket, now);
      ok := text !in buckets[bucket] && |buckets[bucket]| < MAX_BUCKET;
    }

    /** `consume…ChallengeLocked` */
    method ConsumeLocked(bucket: string, text: string, expires: int, now: int) returns (ok: bool)
      modifies this
      ensures ok == Available(old(buckets), bucket, text, now) && buckets == Consume(old(buckets), bucket, text, expires, now)
    {
      ok := AvailableLocked(bucket, text, now);
      if ok {
        var entries := if bucket in buckets then buckets[bucket] else map[];
        buckets := buckets[bucket := entries[text := expires]];
      }
    }

    /** A request that presents a challenge, at one reading of the clock. */
    method Present(attest: Attest, bucket: string, text: string, now: int) returns (accepted: bool)
      modifies this
      ensures accepted == Accepts(attest, old(buckets), Request.Present(bucket, text, now))
      ensures buckets == After(attest, old(buckets), Request.Present(bucket, text, now))
    {
      if !Valid(attest, bucket, text, now) {
        return false;
      }
      accepted := ConsumeLocked(bucket, text, TicketOf(attest, text).value.expires, now);
    }
  }

  // ------------------------------------------------------------------------ runs

  /** A request presents a challenge, or only looks whether it is still available and then fails for another reason. */
  datatype Request = Present(bucket: string, text: string, now: int) | Look(bucket: string, text: string, now: int)

  predicate Accepts(attest: Attest, t: Table, q: Request) {
    q.Present? && Valid(attest, q.bucket, q.text, q.now) && Available(t, q.bucket, q.text, q.now)
  }

  function After(attest: Attest, t: Table, q: Request): Table {
    if !Valid(attest, q.bucket, q.text, q.now) then t
    else if q.Look? then Purge(t, q.bucket, q.now)
    else Consume(t, q.bucket, q.text, TicketOf(attest, q.text).value.expires, q.now)
  }

  /** The table after all requests, oldest first. */
  function Final(attest: Attest, qs: seq<Request>): Table {
    if qs == [] then map[] else After(attest, Final(attest, qs[..|qs| - 1]), qs[|qs| - 1])
  }

  predicate AcceptedAt(attest: Attest, qs: seq<Request>, i: nat)
    requires i < |qs|
  {
    Accepts(attest, Final(attest, qs[..i]), qs[i])
  }

  ghost predicate Monotone(qs: seq<Request>) {
    forall i, j :: 0 <= i <= j < |qs| ==> qs[i].now <= qs[j].now
  }

  ghost predicate Small(t: Table) {
    forall b :: b in t ==> |t[b]| <= MAX_BUCKET
  }

  /** Every accepted challenge is still in its bucket under its expiry, or has expired. */
  ghost predicate Remembered(attest: Attest, t: Table, text: string, now: int) {
    TicketOf(attest, text).Some? &&
    var k := TicketOf(attest, text).value;
    k.expires <= now || (text in BucketOf(t, k.bucket) && BucketOf(t, k.bucket)[text] == k.expires)
  }

  lemma AfterRemembers(attest: Attest, t: Table, q: Request, text: string, before: int)
    requires Remembered(attest, t, text, before) && before <= q.now
    ensures Remembered(attest, After(attest, t, q), text, q.now)
  {
  }

  lemma AcceptedIsRemembered(attest: Attest, t: Table, q: Request)
    requires Accepts(attest, t, q)
    ensures Remembered(attest, After(attest, t, q), q.text, q.now)
  {
  }

  lemma RememberedIsRefused(attest: Attest, t: Table, q: Request, before: int)
    requires Remembered(attest, t, q.text, before) && before <= q.now
    ensures !Accepts(attest, t, q)
  {
  }

  lemma {:induction false} StaysRemembered(attest: Attest, qs: seq<Request>, i: nat, j: nat)
    requires Monotone(qs) && i < j <= |qs| && AcceptedAt(attest, qs, i)
    ensures Remembered(attest, Final(attest, qs[..j]), qs[i].text, qs[j - 1].now)
    decreases j
  {
    assert qs[..j][..j - 1] == qs[..j - 1] && qs[..j][j - 1] == qs[j - 1];
    assert Final(attest, qs[..j]) == After(attest, Final(attest, qs[..j - 1]), qs[j - 1]);
    hide After, Accepts, Remembered, Final;
    if i == j - 1 {
      AcceptedIsRemembered(attest, Final(attest, qs[..i]), qs[i]);
    } else {
      StaysRemembered(attest, qs, i, j - 1);
      AfterRemembers(attest, Final(attest, qs[..j - 1]), qs[j - 1], qs[i].text, qs[j - 2].now);
    }
  }

  /** Over any run whose clock does not go back, a text is accepted at most once, although the
      record of it is dropped when it expires. */
  lemma AcceptedOnce(attest: Attest, qs: seq<Request>, i: nat, j: nat)
    requires Monotone(qs) && i < j < |qs| && AcceptedAt(attest, qs, i) && AcceptedAt(attest, qs, j)
    ensures qs[i].text != qs[j].text
  {
    StaysRemembered(attest, qs, i, j);
    if qs[i].text == qs[j].text {
      RememberedIsRefused(attest, Final(attest, qs[..j]), qs[j], qs[j - 1].now);
    }
  }

  /** Exactly when a presented text is accepted: its two parts decode to 32 bytes each, the MAC is
      right for this very bucket, the expiry lies ahead, by at most 35 seconds, the text is not among
      the bucket's records that have not expired, and there are fewer than 64 of those. */
  lemma AcceptedExactly(attest: Attest, t: Table, bucket: string, text: string, now: int)
    ensures Accepts(attest, t, Request.Present(bucket, text, now)) <==>
              Open(text).Some? && attest(Open(text).value).Some? &&
              var k := attest(Open(text).value).value;
              k.bucket == bucket && now < k.expires && k.expires <= now + 35 &&
              (bucket in t ==> !(text in t[bucket] && now < t[bucket][text]) && |map k | k in t[bucket] && now < t[bucket][k] :: t[bucket][k]| < 64)
  {
    if bucket !in t {
      assert Unexpired(map[], now) == map[];
    }
  }

  /** So a challenge is accepted at most once in every such run in which it is only presented
      as it was handed out. */
  lemma ChallengeAcceptedOnce(attest: Attest, qs: seq<Request>, i: nat, j: nat)
    requires Monotone(qs) && i < j < |qs| && Canonical(qs[i].text) && Canonical(qs[j].text) && Open(qs[i].text) == Open(qs[j].text)
    ensures !(AcceptedAt(attest, qs, i) && AcceptedAt(attest, qs, j))
  {
    if AcceptedAt(attest, qs, i) && AcceptedAt(attest, qs, j) {
      AcceptedOnce(attest, qs, i, j);
    }
  }

  // ------------------------------------------------------------ other spellings

  /** Neither text is on record, and the bucket has room for both. */
  predicate RoomForTwo(t: Table, bucket: string, text: string, other: string, now: int) {
    var b := Unexpired(BucketOf(t, bucket), now);
    text !in b && other !in b && |b| + 1 < MAX_BUCKET
  }

  /** The record is kept by text, so of two presentations of one good challenge both are
      accepted exactly when they are spelled differently, even at one reading of the clock. */
  lemma AcceptedPerSpelling(attest: Attest, t: Table, bucket: string, text: string, other: string, now: int)
    requires Valid(attest, bucket, text, now) && Open(other) == Open(text) && RoomForTwo(t, bucket, text, other, now)
    ensures Accepts(attest, t, Present(bucket, text, now))
    ensures Accepts(attest, After(attest, t, Present(bucket, text, now)), Present(bucket, other, now)) <==> other != text
  {
    var b := Unexpired(BucketOf(t, bucket), now);
    var expires := TicketOf(attest, text).value.expires;
    assert Unexpired(b, now) == b;
    assert BucketOf(Purge(t, bucket, now), bucket) == b;
    assert BucketOf(After(attest, t, Present(bucket, text, now)), bucket) == b[text := expires];
    assert Unexpired(b[text := expires], now) == b[text := expires] && |b[text := expires]| == |b| + 1;
  }

  /** The challenge with `spare` in the spare bits of its last character. */
  function SpellAs(c: Challenge, spare: nat): string
    requires |c.mac| == PART && spare < 4
  {
    Encode(c.payload) + "." + EncodeAs(c.mac, spare)
  }

  /** Every challenge has another spelling: the last character of either part has bits to spare. */
  lemma HasOtherSpelling(c: Challenge)
    requires |c.payload| == PART && |c.mac| == PART
    ensures Open(Spell(c)) == Some(c) && Canonical(Spell(c))
    ensures SpellAs(c, 1) != Spell(c) && Open(SpellAs(c, 1)) == Some(c) && !Canonical(SpellAs(c, 1))
  {
    hide *;
    Respelled(c, 0);
    Respelled(c, 1);
    SpelledPlainly(c);
    SpareTells(c);
  }

  lemma SpelledPlainly(c: Challenge)
    requires |c.mac| == PART
    ensures SpellAs(c, 0) == Spell(c)
    ensures forall text :: Canonical(text) <==> Open(text).Some? && Spell(Open(text).value) == text
  {
    EncodedPlainly(c.mac);
    hide Open, EncodeAs, Encode;
  }

  lemma SpareTells(c: Challenge)
    requires |c.mac| == PART
    ensures SpellAs(c, 1) != SpellAs(c, 0)
  {
    SpareShows(c.mac);
    hide EncodeAs, Encode;
    SameFront(Encode(c.payload) + ".", EncodeAs(c.mac, 1), EncodeAs(c.mac, 0));
  }

  lemma SameFront(front: string, a: string, b: string)
    requires a != b
    ensures front + a != front + b
  {
    assert (front + a)[|front|..] == a && (front + b)[|front|..] == b;
  }

  lemma Respelled(c: Challenge, spare: nat)
    requires |c.payload| == PART && |c.mac| == PART && spare < 4
    ensures Open(SpellAs(c, spare)) == Some(c)
  {
    var p, m := Encode(c.payload), EncodeAs(c.mac, spare);
    EncodedPlainly(c.payload);
    DecodesAs(c.payload, 0);
    DecodesAs(c.mac, spare);
    AlphabetOnly(c.payload, 0);
    AlphabetOnly(c.mac, spare);
    assert '.' !in p && '.' !in m;
    Text.SplitFirst(p, '.', m);
    Text.SplitNone(m, '.');
    assert p + ['.'] + m == p + "." + m;
  }

  /** Hence no issued challenge is accepted at most once by every run: in time and with room
      to record it, each has two texts that are accepted one after the other. */
  lemma EveryChallengeTwice(attest: Attest, t: Table, c: Challenge, now: int)
    requires |c.payload| == PART && |c.mac| == PART && attest(c).Some?
    requires var k := attest(c).value;
             now < k.expires <= now + LIFETIME + SKEW && BucketOf(t, k.bucket) == map[]
    ensures var bucket := attest(c).value.bucket;
            Open(SpellAs(c, 1)) == Open(Spell(c)) == Some(c) && Accepts(attest, t, Present(bucket, Spell(c), now)) &&
            Accepts(attest, After(attest, t, Present(bucket, Spell(c), now)), Present(bucket, SpellAs(c, 1), now))
  {
    var bucket := attest(c).value.bucket;
    HasOtherSpelling(c);
    assert Unexpired(map[], now) == map[];
    AcceptedPerSpelling(attest, t, bucket, Spell(c), SpellAs(c, 1), now) by { hide Open, Spell, SpellAs; }
  }

  lemma AfterSmall(attest: Attest, t: Table, q: Request)
    requires Small(t)
    ensures Small(After(attest, t, q))
  {
    var b := Unexpired(BucketOf(t, q.bucket), q.now);
  }

  /** No bucket ever holds more than 64 entries. */
  lemma {:induction false} BucketsStaySmall(attest: Attest, qs: seq<Request>)
    ensures Small(Final(attest, qs))
  {
    if qs != [] {
      BucketsStaySmall(attest, qs[..|qs| - 1]);
      AfterSmall(attest, Final(attest, qs[..|qs| - 1]), qs[|qs| - 1]);
    }
  }

  /** The clock proviso is needed: once any genuine request at or past a challenge's expiry has
      purged the record of it, any earlier reading at which it is valid accepts it again. */
  lemma ClockMatters(attest: Attest, t: Table, bucket: string, text: string, first: int, past: Request, back: int)
    requires Accepts(attest, t, Present(bucket, text, first)) && Valid(attest, bucket, text, back)
    requires past.bucket == bucket && Valid(attest, bucket, past.text, past.now) && TicketOf(attest, text).value.expires <= past.now
    requires var u := After(attest, After(attest, t, Present(bucket, text, first)), past); |Unexpired(BucketOf(u, bucket), back)| < MAX_BUCKET
    ensures back < past.now
    ensures Accepts(attest, After(attest, After(attest, t, Present(bucket, text, first)), past), Present(bucket, text, back))
  {
    var expires := TicketOf(attest, text).value.expires;
    var s := After(attest, t, Present(bucket, text, first));
    assert BucketOf(s, bucket)[text] == expires;
    assert text !in Unexpired(BucketOf(s, bucket), past.now) && past.text != text;
    assert text !in BucketOf(Purge(s, bucket, past.now), bucket);
    assert text !in BucketOf(After(attest, s, past), bucket);
  }
}
