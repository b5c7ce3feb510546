/** RedisIdWorker: the current second and a daily counter packed into one 64-bit id. */
module IdWorker {

  type Prefix = string
  type Date = string

  const BEGIN_TIMESTAMP := 1767225600
  const HALF := 0x1_0000_0000
  const WORD := 0x1_0000_0000_0000_0000

  // ---------- 64-bit words ----------

  /** The bitwise or of two words. */
  function Or(a: nat, b: nat): nat
    decreases a + b
  {
    if a == 0 then b else if b == 0 then a
    else 2 * Or(a / 2, b / 2) + (if a % 2 + b % 2 > 0 then 1 else 0)
  }

  function Pow2(k: nat): (p: nat)
    ensures p > 0
  {
    if k == 0 then 1 else 2 * Pow2(k - 1)
  }

  lemma {:induction false} Pow2Sum(a: nat, b: nat)
    ensures Pow2(a + b) == Pow2(a) * Pow2(b)
  {
    if b > 0 {
      Pow2Sum(a, b - 1);
      assert Pow2(a) * (2 * Pow2(b - 1)) == 2 * (Pow2(a) * Pow2(b - 1));
    }
  }

  lemma Pow2Of32()
    ensures Pow2(32) == HALF && Pow2(33) == 2 * HALF
  {
    assert Pow2(1) == 2 && Pow2(2) == 4;
    Pow2Sum(2, 2);
    Pow2Sum(4, 4);
    Pow2Sum(8, 8);
    Pow2Sum(16, 16);
  }

  /** Shifting left by 32 drops the upper half. */
  function Shifted(t: int): nat { t * HALF % WORD }

  function Signed(word: nat): int { if word < WORD / 2 then word else word - WORD }

  /** timeStamp << 32 | count, as a long. */
  function Pack(timeStamp: int, count: nat): int { Signed(Or(Shifted(timeStamp), count)) }

  /** Words that do not touch: the or is the sum. */
  lemma {:induction false} OrOfDisjoint(q: nat, b: nat, k: nat)
    requires b < Pow2(k)
    ensures Or(q * Pow2(k), b) == q * Pow2(k) + b
    decreases k
  {
    if k > 0 && q != 0 && b != 0 {
      var half := q * Pow2(k - 1);
      assert q * Pow2(k) == 2 * half;
      OrOfDisjoint(q, b / 2, k - 1);
      OrByHalves(half, b);
    }
  }

  lemma OrByHalves(half: nat, b: nat)
    requires half > 0 && b > 0 && Or(half, b / 2) == half + b / 2
    ensures Or(2 * half, b) == 2 * half + b
  {
    assert 2 * half / 2 == half && 2 * half % 2 == 0;
  }

  lemma ShiftedIs(t: int)
    ensures Shifted(t) == t % HALF * HALF
  {
    assert t == t / HALF * HALF + t % HALF;
    assert t * HALF == t / HALF * WORD + t % HALF * HALF;
  }

  /** As long as the count fits into the lower half, the halves do not touch. */
  lemma PackIs(timeStamp: int, count: nat)
    requires count < HALF
    ensures Pack(timeStamp, count) == Signed(timeStamp % HALF * HALF + count)
  {
    ShiftedIs(timeStamp);
    Pow2Of32();
    OrOfDisjoint(timeStamp % HALF, count, 32);
  }

  // ---------- What an id tells ----------

  /** Timestamps that the upper half of an id can tell apart. */
  predicate InWindow(timeStamp: int) { -HALF / 2 <= timeStamp < HALF / 2 }

  /** Second and count can be read back from an id made after the begin timestamp. */
  lemma PackDecodes(timeStamp: int, count: nat)
    requires 0 <= timeStamp < HALF / 2 && count < HALF
    ensures var id := Pack(timeStamp, count);
            id >= 0 && id / HALF == timeStamp && id % HALF == count
  {
    PackIs(timeStamp, count);
  }

  /** Ids are ordered by second, then by count. */
  lemma PackOrders(s: int, c: nat, t: int, d: nat)
    requires 0 <= s < HALF / 2 && 0 <= t < HALF / 2 && c < HALF && d < HALF
    ensures Pack(s, c) < Pack(t, d) <==> s < t || (s == t && c < d)
  {
    PackIs(s, c);
    PackIs(t, d);
    assert Pack(s, c) == s * HALF + c && Pack(t, d) == t * HALF + d;
  }

  /** Two ids are the same exactly if the counts are, and the seconds up to a multiple of 2^32. */
  lemma SameIdIff(s: int, c: nat, t: int, d: nat)
    requires c < HALF && d < HALF
    ensures Pack(s, c) == Pack(t, d) <==> c == d && s % HALF == t % HALF
  {
    PackIs(s, c);
    PackIs(t, d);
  }

  lemma WindowTellsApart(s: int, t: int)
    requires InWindow(s) && InWindow(t) && s % HALF == t % HALF
    ensures s == t
  {
  }

  lemma OrWithHalf(q: nat)
    ensures Or(2 * q * HALF, HALF) == 2 * q * HALF + HALF
  {
    Pow2Of32();
    OrOfDisjoint(q, HALF, 33);
    Doubled(q);
  }

  lemma Doubled(q: nat)
    ensures q * (2 * HALF) == 2 * q * HALF
  {
  }

  lemma ShiftedSmall(t: int)
    requires 0 <= t < HALF
    ensures Shifted(t) == t * HALF
  {
    ShiftedIs(t);
  }

  /** With 2^32 ids in a day the count runs into the second: the id is that of the next second, with count 0. */
  lemma TooManyInADay(q: nat)
    requires 2 * q < HALF / 2
    ensures Pack(2 * q, HALF) == Pack(2 * q + 1, 0)
  {
    ShiftedSmall(2 * q);
    ShiftedSmall(2 * q + 1);
    OrWithHalf(q);
    assert Or(Shifted(2 * q + 1), 0) == Shifted(2 * q + 1);
  }

  // ---------- The worker ----------

  /** An id that has been given out. */
  datatype Issue = Issue(prefix: Prefix, second: int, count: nat) {
    function Id(): int { Pack(second - BEGIN_TIMESTAMP, count) }
  }

  function Counter(counters: map<(Prefix, Date), nat>, prefix: Prefix, date: Date): nat {
    if (prefix, date) in counters then counters[(prefix, date)] else 0
  }

  predicate CanPack(i: Issue) { InWindow(i.second - BEGIN_TIMESTAMP) && i.count < HALF }

  /** The same id means the same second and the same count. */
  lemma SameIdSameIssue(i: Issue, j: Issue)
    requires CanPack(i) && CanPack(j) && i.Id() == j.Id()
    ensures i.second == j.second && i.count == j.count
  {
    SameIdIff(i.second - BEGIN_TIMESTAMP, i.count, j.second - BEGIN_TIMESTAMP, j.count);
    WindowTellsApart(i.second - BEGIN_TIMESTAMP, j.second - BEGIN_TIMESTAMP);
  }

  ghost predicate AllDifferent(issued: seq<Issue>) {
    forall i, j | 0 <= i < j < |issued| && issued[i].prefix == issued[j].prefix :: issued[i].Id() != issued[j].Id()
  }

  /** No id is newer than its day's counter. */
  ghost predicate AllCounted(issued: seq<Issue>, counters: map<(Prefix, Date), nat>, dateOf: int -> Date) {
    forall i | 0 <= i < |issued| :: CanPack(issued[i])
           && issued[i].count <= Counter(counters, issued[i].prefix, dateOf(issued[i].second))
  }

  /** A count above the day's counter, whatever the clock shows, makes an id that the prefix does not have. */
  lemma NewIdIsNew(issued: seq<Issue>, counters: map<(Prefix, Date), nat>, dateOf: int -> Date, next: Issue)
    requires AllCounted(issued, counters, dateOf) && CanPack(next)
    requires Counter(counters, next.prefix, dateOf(next.second)) < next.count
    ensures forall i | 0 <= i < |issued| && issued[i].prefix == next.prefix :: issued[i].Id() != next.Id()
  {
    forall i | 0 <= i < |issued| && issued[i].prefix == next.prefix ensures issued[i].Id() != next.Id() {
      if issued[i].Id() == next.Id() {
        SameIdSameIssue(issued[i], next);
        assert false;
      }
    }
  }

  class RedisIdWorker {
    var counters: map<(Prefix, Date), nat>
    ghost var issued: seq<Issue>

    ghost predicate Valid(dateOf: int -> Date)
      reads this
    {
      AllDifferent(issued) && AllCounted(issued, counters, dateOf)
    }

    method Increment(prefix: Prefix, date: Date) returns (count: nat)
      modifies `counters
      ensures count == Counter(old(counters), prefix, date) + 1
      ensures counters == old(counters)[(prefix, date) := count]
    {
      count := Counter(counters, prefix, date) + 1;
      counters := counters[(prefix, date) := count];
    }

    /**
     nextId at any second the clock may show, earlier ones included; the date is the one of that second.  As long
     as fewer than 2^32 ids are given out for a prefix on one date, no id of a prefix is given out twice.
     */
    method NextId(prefix: Prefix, second: int, dateOf: int -> Date) returns (id: int)
      requires Valid(dateOf) && InWindow(second - BEGIN_TIMESTAMP)
      requires Counter(counters, prefix, dateOf(second)) < HALF - 1
      modifies this
      ensures Valid(dateOf)
      ensures issued == old(issued) + [Issue(prefix, second, Counter(old(counters), prefix, dateOf(second)) + 1)]
      ensures id == issued[|old(issued)|].Id()
      ensures forall i | 0 <= i < |old(issued)| && old(issued)[i].prefix == prefix :: old(issued)[i].Id() != id
    {
      ghost var before := counters;
      var timeStamp := second - BEGIN_TIMESTAMP;
      var count := Increment(prefix, dateOf(second));
      id := Pack(timeStamp, count);
      NewIdIsNew(issued, before, dateOf, Issue(prefix, second, count));
      issued := issued + [Issue(prefix, second, count)];
    }
  }

  // ---------- Whole runs ----------

  /** The calls of one run, at whatever seconds; how often the prefix has been asked for on the date before call i. */
  datatype Call = Call(prefix: Prefix, second: int)

  function Before(calls: seq<Call>, dateOf: int -> Date, prefix: Prefix, date: Date): nat {
    if calls == [] then 0
    else
      var c := calls[|calls| - 1];
      Before(calls[..|calls| - 1], dateOf, prefix, date)
          + (if c.prefix == prefix && dateOf(c.second) == date then 1 else 0)
  }

  function IdOfCall(calls: seq<Call>, dateOf: int -> Date, i: nat): int
    requires i < |calls|
  {
    Pack(calls[i].second - BEGIN_TIMESTAMP, Before(calls[..i], dateOf, calls[i].prefix, dateOf(calls[i].second)) + 1)
  }

  lemma {:induction false} CountsGrow(calls: seq<Call>, dateOf: int -> Date, i: nat, j: nat)
    requires i < j <= |calls|
    ensures Before(calls[..i], dateOf, calls[i].prefix, dateOf(calls[i].second)) <
            Before(calls[..j], dateOf, calls[i].prefix, dateOf(calls[i].second))
    decreases j
  {
    assert calls[..j][..j - 1] == calls[..j - 1];
    if i < j - 1 {
      CountsGrow(calls, dateOf, i, j - 1);
    }
  }

  /** Under any clock, ids of a prefix never repeat: the limits are those of the two halves of an id. */
  lemma IdsNeverRepeat(calls: seq<Call>, dateOf: int -> Date, i: nat, j: nat)
    requires i < j < |calls| && calls[i].prefix == calls[j].prefix
    requires forall k | 0 <= k < |calls| :: InWindow(calls[k].second - BEGIN_TIMESTAMP)
    requires forall k | 0 <= k < |calls| ::
             Before(calls[..k], dateOf, calls[k].prefix, dateOf(calls[k].second)) < HALF - 1
    ensures IdOfCall(calls, dateOf, i) != IdOfCall(calls, dateOf, j)
  {
    var a := Issue(calls[i].prefix, calls[i].second,
        Before(calls[..i], dateOf, calls[i].prefix, dateOf(calls[i].second)) + 1);
    var b := Issue(calls[j].prefix, calls[j].second,
        Before(calls[..j], dateOf, calls[j].prefix, dateOf(calls[j].second)) + 1);
    CountsGrow(calls, dateOf, i, j);
    if a.Id() == b.Id() {
      SameIdSameIssue(a, b);
      assert false;
    }
  }
}
