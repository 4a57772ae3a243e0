/** The fold of the totals map into a coin subtotal, a note subtotal and a
    grand total (src/hooks/useTotalsCalculation.tsx). Every amount is a
    whole number of agorot, so the program's `toFixed(2)` rounding leaves
    each one as it is. */
module TotalsCalculation {
  import opened CashTypes

  /** Ten shekels: a denomination up to this value is a coin, above it a note. */
  const CoinLimit: int := 1000

  predicate IsCoinValue(agorot: int) {
    agorot <= CoinLimit
  }

  /** Which of the sums an entry is being added to. `AllTally` sums every
      entry, whatever its side; it is the reference the two subtotals are
      checked against. */
  datatype Tally = CoinTally | NoteTally | AllTally

  predicate InTally(agorot: int, t: Tally) {
    match t
    case CoinTally => IsCoinValue(agorot)
    case NoteTally => !IsCoinValue(agorot)
    case AllTally => true
  }

  /** What one entry is worth, recomputed from its key and its count (its
      stored `total` is never read); None when the entry is skipped: a key
      that is not a number, a count that is NaN, a negative count. An absent
      count reads as 0. */
  function Contribution(k: Key, e: LineEntry): (r: Option<int>)
    ensures r.None? <==> k.NonNumeric? || e.count.NaN? || (e.count.Num? && e.count.n < 0)
    ensures r.Some? && e.count.Num? ==> r.value == k.agorot * e.count.n
    ensures k.Numeric? && e.count.Missing? ==> r == Some(0)
    ensures r.Some? && k.agorot >= 0 ==> r.value >= 0
  {
    if k.NonNumeric? then None
    else match e.count
      case NaN => None
      case Missing => Some(0)
      case Num(n) => if n < 0 then None else Some(k.agorot * n)
  }

  /** The amount an entry adds to tally `t`. */
  function Part(k: Key, e: LineEntry, t: Tally): int {
    match Contribution(k, e)
    case None => 0
    case Some(v) => if InTally(k.agorot, t) then v else 0
  }

  /** The sum of `Part` over the whole map, in no particular order. */
  ghost function Subtotal(m: Totals, t: Tally): int
    decreases |m|
  {
    if m == map[] then 0
    else
      var k :| k in m;
      assert |m.Keys - {k}| == |m.Keys| - 1;
      Part(k, m[k], t) + Subtotal(m - {k}, t)
  }

  ghost function CoinTotalOf(m: Totals): int { Subtotal(m, CoinTally) }
  ghost function NoteTotalOf(m: Totals): int { Subtotal(m, NoteTally) }
  ghost function GrandTotalOf(m: Totals): int { CoinTotalOf(m) + NoteTotalOf(m) }

  /** The sum does not depend on which key is taken first: any key can be
      split off. */
  lemma {:induction false} SubtotalRemove(m: Totals, k: Key, t: Tally)
    requires k in m
    ensures Subtotal(m, t) == Part(k, m[k], t) + Subtotal(m - {k}, t)
    decreases |m|
  {
    var j :| j in m && Subtotal(m, t) == Part(j, m[j], t) + Subtotal(m - {j}, t);
    if j != k {
      assert |m.Keys - {j}| == |m.Keys| - 1;
      assert |m.Keys - {k}| == |m.Keys| - 1;
      SubtotalRemove(m - {j}, k, t);
      SubtotalRemove(m - {k}, j, t);
      assert m - {j} - {k} == m - {k} - {j};
    }
  }

  /** Setting one key changes the sum by that key's old and new parts only. */
  lemma SubtotalUpdate(m: Totals, k: Key, e: LineEntry, t: Tally)
    ensures Subtotal(m[k := e], t) == Part(k, e, t) + Subtotal(m - {k}, t)
  {
    SubtotalRemove(m[k := e], k, t);
    assert m[k := e] - {k} == m - {k};
  }

  /** An empty map sums to 0 on every side. */
  lemma EmptyTotalsAreZero()
    ensures CoinTotalOf(map[]) == 0 && NoteTotalOf(map[]) == 0 && GrandTotalOf(map[]) == 0
  {
  }

  /** The coin and note subtotals together account for every entry once. */
  lemma {:induction false} GrandTotalIsSumOfAll(m: Totals)
    ensures GrandTotalOf(m) == Subtotal(m, AllTally)
    decreases |m|
  {
    if m != map[] {
      var k :| k in m;
      assert |m.Keys - {k}| == |m.Keys| - 1;
      SubtotalRemove(m, k, CoinTally);
      SubtotalRemove(m, k, NoteTally);
      SubtotalRemove(m, k, AllTally);
      GrandTotalIsSumOfAll(m - {k});
    }
  }

  /** The coin side only: the map cut down to its coin keys. */
  function CoinLines(m: Totals): (r: Totals)
    ensures forall k :: k in r <==> k in m && k.Numeric? && IsCoinValue(k.agorot)
    ensures forall k :: k in r ==> r[k] == m[k]
  {
    map k | k in m && k.Numeric? && IsCoinValue(k.agorot) :: m[k]
  }

  /** The coin subtotal is the plain sum of value times count over the
      entries whose key is a coin. */
  lemma {:induction false} CoinTotalIsSumOverCoinKeys(m: Totals)
    ensures CoinTotalOf(m) == Subtotal(CoinLines(m), AllTally)
    decreases |m|
  {
    if m != map[] {
      var k :| k in m;
      assert |m.Keys - {k}| == |m.Keys| - 1;
      SubtotalRemove(m, k, CoinTally);
      CoinTotalIsSumOverCoinKeys(m - {k});
      if k in CoinLines(m) {
        SubtotalRemove(CoinLines(m), k, AllTally);
        assert CoinLines(m) - {k} == CoinLines(m - {k});
      } else {
        assert CoinLines(m) == CoinLines(m - {k});
      }
    }
  }

  /** An entry that is skipped (key not a number, count NaN or negative)
      adds nothing: the map sums as if the key were not there. */
  lemma SkippedEntryIgnored(m: Totals, k: Key, t: Tally)
    requires k in m
    requires k.NonNumeric? || m[k].count.NaN? || (m[k].count.Num? && m[k].count.n < 0)
    ensures Subtotal(m, t) == Subtotal(m - {k}, t)
  {
    SubtotalRemove(m, k, t);
  }

  /** A key holding `{count: 0}` sums the same as no entry for that key. */
  lemma ZeroCountIgnored(m: Totals, k: Key, total: int, t: Tally)
    ensures Subtotal(m[k := LineEntry(Num(0), total)], t) == Subtotal(m - {k}, t)
  {
    SubtotalUpdate(m, k, LineEntry(Num(0), total), t);
  }

  /** Two maps with the same keys and the same counts have the same sums,
      whatever their stored `total` fields say. */
  lemma {:induction false} StoredTotalIgnored(m1: Totals, m2: Totals, t: Tally)
    requires m1.Keys == m2.Keys
    requires forall k :: k in m1 ==> m1[k].count == m2[k].count
    ensures Subtotal(m1, t) == Subtotal(m2, t)
    decreases |m1|
  {
    if m1 != map[] {
      var k :| k in m1;
      assert |m1.Keys - {k}| == |m1.Keys| - 1;
      SubtotalRemove(m1, k, t);
      SubtotalRemove(m2, k, t);
      StoredTotalIgnored(m1 - {k}, m2 - {k}, t);
    }
  }

  /** With no negative denomination key, no sum is negative. */
  lemma {:induction false} SubtotalNonNegative(m: Totals, t: Tally)
    requires forall k :: k in m && k.Numeric? ==> k.agorot >= 0
    ensures Subtotal(m, t) >= 0
    decreases |m|
  {
    if m != map[] {
      var k :| k in m;
      assert |m.Keys - {k}| == |m.Keys| - 1;
      SubtotalRemove(m, k, t);
      SubtotalNonNegative(m - {k}, t);
    }
  }

  /** The coin section lists only coins and the note section only notes, so
      the fold's split matches the two sections on screen. */
  lemma SectionsMatchSplit()
    ensures forall c :: c in Coins ==> IsCoinValue(c)
    ensures forall n :: n in Notes ==> !IsCoinValue(n)
  {
  }

  /** The effect body: one pass over the entries, adding each one's
      recomputed amount to the coin or the note sum. */
  method CalculateTotals(totals: Totals) returns (coinTotal: int, noteTotal: int, grandTotal: int)
    ensures coinTotal == CoinTotalOf(totals)
    ensures noteTotal == NoteTotalOf(totals)
    ensures grandTotal == coinTotal + noteTotal
  {
    var coinsSum := 0;
    var notesSum := 0;
    var rest := totals;
    while rest != map[]
      invariant coinsSum + Subtotal(rest, CoinTally) == Subtotal(totals, CoinTally)
      invariant notesSum + Subtotal(rest, NoteTally) == Subtotal(totals, NoteTally)
      decreases |rest|
    {
      var key :| key in rest;
      var entry := rest[key];
      SubtotalRemove(rest, key, CoinTally);
      SubtotalRemove(rest, key, NoteTally);
      assert |rest.Keys - {key}| == |rest.Keys| - 1;
      rest := rest - {key};
      if key.NonNumeric? {
        continue;
      }
      var denomValue := key.agorot;
      var count := match entry.count case Num(n) => n case _ => 0;
      if entry.count.NaN? || count < 0 {
        continue;
      }
      var denomTotal := denomValue * count;
      if denomValue <= CoinLimit {
        coinsSum := coinsSum + denomTotal;
      } else {
        notesSum := notesSum + denomTotal;
      }
    }
    coinTotal := coinsSum;
    noteTotal := notesSum;
    grandTotal := coinsSum + notesSum;
  }
}
