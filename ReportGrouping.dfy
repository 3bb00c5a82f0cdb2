/**
 * The sales report: transactions are bucketed by the local day, the week
 * starting on Monday, or the month they fall in; each bucket becomes one
 * record with its label, total and count, and the records are sorted by
 * label, descending.
 *
 * Time is the transaction's nanosecond timestamp. The local time zone is a
 * fixed offset from UTC in milliseconds (`offsetMs`, positive east of UTC).
 * A calendar date is a day number, days since 1970-01-01. Turning a date
 * into label text is the caller-supplied `formatDate(granularity, day)`, standing
 * for the date formatting of the report (weekday and date for a day, "Week
 * of" and the date for a week, month and year for a month).
 */
module ReportGrouping {
  import opened Backend
  import Seqs
  import Sorting
  import Text

  datatype Granularity = Daily | Weekly | Monthly

  /** One line of the report. */
  datatype ReportPeriod = ReportPeriod(period: string, total: int, transactionCount: int)

  /** A civil (proleptic Gregorian) date. */
  datatype Date = Date(year: int, month: int, day: int)


  // ---------------------------------------------------------------------------
  // Clock and calendar
  // ---------------------------------------------------------------------------

  /** The millisecond instant of a nanosecond timestamp; the fraction is dropped toward zero, as a `Date` does. */
  function InstantMillis(timestamp: int): int
  {
    if timestamp >= 0 then timestamp / 1_000_000 else -((-timestamp) / 1_000_000)
  }

  /** The instant is the timestamp's millisecond count with the fraction dropped toward zero. */
  lemma {:induction false} InstantMillisTruncates(timestamp: int)
    ensures var r := InstantMillis(timestamp);
      && (timestamp >= 0 ==> r * 1_000_000 <= timestamp < (r + 1) * 1_000_000)
      && (timestamp < 0 ==> (r - 1) * 1_000_000 < timestamp <= r * 1_000_000)
  {
  }

  /** The local calendar day an instant falls on (the start of that day is `startOfDay`). */
  function LocalDay(millis: int, offsetMs: int): int
  {
    (millis + offsetMs) / 86_400_000
  }

  /** The local day is the one whose 24 hours of local time contain the instant. */
  lemma {:induction false} LocalDayContains(millis: int, offsetMs: int)
    ensures var r := LocalDay(millis, offsetMs);
      r * 86_400_000 <= millis + offsetMs < (r + 1) * 86_400_000
  {
  }

  /** The day of the week, 0 for Sunday to 6 for Saturday; 1970-01-01 was a Thursday. */
  function Weekday(day: int): (r: int)
    ensures 0 <= r < 7
  {
    (day + 4) % 7
  }

  /** `startOfWeek(date, { weekStartsOn: 1 })`: the Monday on or before `day`. */
  function WeekStart(day: int): int
  {
    day - (day + 3) % 7
  }

  /** The week start is a Monday no more than six days before `day`. */
  lemma {:induction false} WeekStartIsMonday(day: int)
    ensures var r := WeekStart(day);
      r <= day < r + 7 && Weekday(r) == 1
  {
    var back := (day + 3) % 7;
    assert day + 3 == 7 * ((day + 3) / 7) + back;
  }

  /** The civil date of a day number. */
  function CivilFromDays(days: int): Date
  {
    var z := days + 719468;
    var era := z / 146097;
    var doe := z - era * 146097;
    var yoe := (doe - doe / 1460 + doe / 36524 - doe / 146096) / 365;
    var doy := doe - (365 * yoe + yoe / 4 - yoe / 100);
    var mp := (5 * doy + 2) / 153;
    var d := doy - (153 * mp + 2) / 5 + 1;
    var m := if mp < 10 then mp + 3 else mp - 9;
    Date(yoe + era * 400 + (if m <= 2 then 1 else 0), m, d)
  }

  /** The day number of a civil date. */
  function DaysFromCivil(year: int, month: int, day: int): int
  {
    var y := if month <= 2 then year - 1 else year;
    var era := y / 400;
    var yoe := y - era * 400;
    var mp := if month > 2 then month - 3 else month + 9;
    var doy := (153 * mp + 2) / 5 + day - 1;
    var doe := yoe * 365 + yoe / 4 - yoe / 100 + doy;
    era * 146097 + doe - 719468
  }

  /** `startOfMonth`: the first day of the month `day` is in. */
  function MonthStart(day: int): int
  {
    var date := CivilFromDays(day);
    DaysFromCivil(date.year, date.month, 1)
  }

  /** 2024-01-07 is day 19729 and the month containing it starts on day 19723, 2024-01-01. */
  lemma {:induction false} MonthStartExample()
    ensures CivilFromDays(19729) == Date(2024, 1, 7)
    ensures MonthStart(19729) == 19723
  {
    assert 739197 / 146097 == 5;
    assert 8712 / 1460 == 5 && 8712 / 36524 == 0 && 8712 / 146096 == 0;
    assert 8707 / 365 == 23;
    assert 23 / 4 == 5 && 23 / 100 == 0;
    assert 1562 / 153 == 10 && 1532 / 5 == 306;
    assert CivilFromDays(19729) == Date(2024, 1, 7);
    assert 2023 / 400 == 5;
  }

  /**
   * The bucket of a transaction: the first day of its local day, week or
   * month. It stands for the key text ('yyyy-MM-dd' or 'yyyy-MM'), which
   * names that first day.
   */
  function PeriodKey(period: Granularity, timestamp: int, offsetMs: int): int
  {
    var day := LocalDay(InstantMillis(timestamp), offsetMs);
    match period
    case Daily => day
    case Weekly => WeekStart(day)
    case Monthly => MonthStart(day)
  }

  /** The weekly key is the Monday on or before the transaction's local day, so it is at most six days back. */
  lemma {:induction false} WeeklyKeyIsMonday(timestamp: int, offsetMs: int)
    ensures var day := LocalDay(InstantMillis(timestamp), offsetMs);
      var key := PeriodKey(Weekly, timestamp, offsetMs);
      Weekday(key) == 1 && key <= day && day - key < 7
  {
    WeekStartIsMonday(LocalDay(InstantMillis(timestamp), offsetMs));
  }

  /** Two transactions share a weekly key exactly when their local days fall in the same Monday-to-Sunday week. */
  lemma {:induction false} SameWeekIffSameMonday(d1: int, d2: int)
    ensures WeekStart(d1) == WeekStart(d2) <==> (WeekStart(d1) <= d2 < WeekStart(d1) + 7)
  {
    WeekStartIsMonday(d1);
    WeekStartIsMonday(d2);
  }

  /**
   * The date a key's label shows. The key text names a date, is read back as
   * midnight UTC of that date, and is formatted in local time.
   */
  function ParsedKeyDay(key: int, offsetMs: int): int
  {
    LocalDay(key * 86_400_000, offsetMs)
  }

  // ---------------------------------------------------------------------------
  // Specification of the report, for any key function
  // ---------------------------------------------------------------------------

  /** The key function of a report: `PeriodKey` of each transaction's timestamp. */
  function KeyFn(period: Granularity, offsetMs: int): Transaction -> int
  {
    (t: Transaction) => PeriodKey(period, t.timestamp, offsetMs)
  }

  /** The label of a key, as the source formats it. */
  function LabelFn(period: Granularity, offsetMs: int, formatDate: (Granularity, int) -> string): int -> string
  {
    (key: int) => formatDate(period, ParsedKeyDay(key, offsetMs))
  }

  /** The keys of the transactions, each once, in order of first occurrence (the insertion order of a `Map`). */
  function Keys(txs: seq<Transaction>, keyOf: Transaction -> int): (r: seq<int>)
    ensures forall i, j :: 0 <= i < j < |r| ==> r[i] != r[j]
  {
    if txs == [] then []
    else
      var front := Keys(txs[..|txs| - 1], keyOf);
      var key := keyOf(txs[|txs| - 1]);
      if key in front then front else front + [key]
  }

  /** The sum of `weight` over the transactions whose key is `key`. */
  function Tally(txs: seq<Transaction>, keyOf: Transaction -> int, key: int, weight: Transaction -> int): int
  {
    if txs == [] then 0
    else
      var last := txs[|txs| - 1];
      Tally(txs[..|txs| - 1], keyOf, key, weight) + (if keyOf(last) == key then weight(last) else 0)
  }

  /** `Number(transaction.totalAmount)`. */
  function Amount(t: Transaction): int
  {
    t.totalAmount
  }

  /** Each transaction counts once. */
  function One(t: Transaction): int
  {
    1
  }

  /** The running total and count of one key. */
  datatype Bucket = Bucket(total: int, count: int)

  /** The map the first loop builds: the bucket of each key after all of `txs`. */
  function Buckets(txs: seq<Transaction>, keyOf: Transaction -> int): map<int, Bucket>
  {
    if txs == [] then map[]
    else
      var groups := Buckets(txs[..|txs| - 1], keyOf);
      var last := txs[|txs| - 1];
      var key := keyOf(last);
      var existing := if key in groups then groups[key] else Bucket(0, 0);
      groups[key := Bucket(existing.total + last.totalAmount, existing.count + 1)]
  }

  /** The report line of one key, before sorting. */
  function RecordOf(txs: seq<Transaction>, keyOf: Transaction -> int, labelOf: int -> string, key: int): ReportPeriod
  {
    ReportPeriod(labelOf(key), Tally(txs, keyOf, key, Amount), Tally(txs, keyOf, key, One))
  }

  /** The report lines of `keys`, in that order. */
  function Records(txs: seq<Transaction>, keyOf: Transaction -> int, labelOf: int -> string, keys: seq<int>): (r: seq<ReportPeriod>)
    ensures |r| == |keys|
    ensures forall i :: 0 <= i < |keys| ==> r[i] == RecordOf(txs, keyOf, labelOf, keys[i])
  {
    if keys == [] then []
    else [RecordOf(txs, keyOf, labelOf, keys[0])] + Records(txs, keyOf, labelOf, keys[1..])
  }

  /** `a` may precede `b`: `b.period.localeCompare(a.period)` is not positive. */
  function LaterLabelFirst(a: ReportPeriod, b: ReportPeriod): bool
  {
    Text.LexLe(b.period, a.period)
  }

  /** The report the source computes. */
  function Report(txs: seq<Transaction>, period: Granularity, offsetMs: int, formatDate: (Granularity, int) -> string): seq<ReportPeriod>
  {
    var keyOf := KeyFn(period, offsetMs);
    Sorting.Sort(Records(txs, keyOf, LabelFn(period, offsetMs, formatDate), Keys(txs, keyOf)), LaterLabelFirst)
  }

  // ---------------------------------------------------------------------------
  // The grouping loops
  // ---------------------------------------------------------------------------

  /**
   * `groupTransactionsByPeriod`: accumulates total and count per key in a map
   * whose key order is kept beside it, emits one line per key, and sorts the
   * lines by label, descending.
   */
  method GroupTransactionsByPeriod(transactions: seq<Transaction>, period: Granularity, offsetMs: int,
                                   formatDate: (Granularity, int) -> string)
    returns (result: seq<ReportPeriod>)
    ensures result == Report(transactions, period, offsetMs, formatDate)
    ensures transactions == [] ==> result == []
  {
    var keyOf := KeyFn(period, offsetMs);
    var labelOf := LabelFn(period, offsetMs, formatDate);
    var groups, order := Accumulate(transactions, keyOf);
    BucketsKeys(transactions, keyOf);

    var lines: seq<ReportPeriod> := [];
    var j := 0;
    while j < |order|
      invariant 0 <= j <= |order|
      invariant lines == Records(transactions, keyOf, labelOf, order[..j])
    {
      var key := order[j];
      RecordsStep(transactions, keyOf, labelOf, groups, order, j);
      var value := groups[key];
      lines := lines + [ReportPeriod(labelOf(key), value.total, value.count)];
      j := j + 1;
    }
    assert order[..j] == order;
    result := Sorting.Sort(lines, LaterLabelFirst);
  }

  /** One more key's bucket, read from the map, extends the lines by that key's line. */
  lemma RecordsStep(txs: seq<Transaction>, keyOf: Transaction -> int, labelOf: int -> string,
                    groups: map<int, Bucket>, order: seq<int>, j: int)
    requires groups == Buckets(txs, keyOf) && order == Keys(txs, keyOf) && 0 <= j < |order|
    ensures order[j] in groups
    ensures Records(txs, keyOf, labelOf, order[..j + 1]) ==
            Records(txs, keyOf, labelOf, order[..j]) + [ReportPeriod(labelOf(order[j]), groups[order[j]].total, groups[order[j]].count)]
  {
    var key := order[j];
    BucketsKeys(txs, keyOf);
    BucketsTally(txs, keyOf, key);
    assert order[..j + 1] == order[..j] + [key];
    RecordsAppend(txs, keyOf, labelOf, order[..j], [key]);
  }

  /** The first loop: one map entry per key holding the key's total and count, and the keys in insertion order. */
  method Accumulate(transactions: seq<Transaction>, keyOf: Transaction -> int)
    returns (groups: map<int, Bucket>, order: seq<int>)
    ensures order == Keys(transactions, keyOf)
    ensures groups == Buckets(transactions, keyOf)
  {
    groups, order := map[], [];
    var i := 0;
    while i < |transactions|
      invariant 0 <= i <= |transactions|
      invariant order == Keys(transactions[..i], keyOf)
      invariant groups == Buckets(transactions[..i], keyOf)
    {
      var transaction := transactions[i];
      assert transactions[..i + 1][..i] == transactions[..i];
      var key := keyOf(transaction);
      BucketsKeys(transactions[..i], keyOf);
      var existing := if key in groups then groups[key] else Bucket(0, 0);
      if key !in groups {
        order := order + [key];
      }
      groups := groups[key := Bucket(existing.total + transaction.totalAmount, existing.count + 1)];
      i := i + 1;
    }
    assert transactions[..i] == transactions;
  }

  // ---------------------------------------------------------------------------
  // What the loops' specification means
  // ---------------------------------------------------------------------------

  /** The map holds a bucket for exactly the keys met. */
  lemma {:induction false} BucketsKeys(txs: seq<Transaction>, keyOf: Transaction -> int)
    ensures forall k :: k in Buckets(txs, keyOf) <==> k in Keys(txs, keyOf)
  {
    if txs != [] {
      BucketsKeys(txs[..|txs| - 1], keyOf);
    }
  }

  /** A key no transaction has tallies to zero. */
  lemma {:induction false} TallyOutsideKeys(txs: seq<Transaction>, keyOf: Transaction -> int, key: int, weight: Transaction -> int)
    requires key !in Keys(txs, keyOf)
    ensures Tally(txs, keyOf, key, weight) == 0
  {
    if txs != [] {
      TallyOutsideKeys(txs[..|txs| - 1], keyOf, key, weight);
    }
  }

  /** Each bucket holds the total amount and the number of the transactions with its key. */
  lemma {:induction false} BucketsTally(txs: seq<Transaction>, keyOf: Transaction -> int, k: int)
    requires k in Buckets(txs, keyOf)
    ensures Buckets(txs, keyOf)[k] == Bucket(Tally(txs, keyOf, k, Amount), Tally(txs, keyOf, k, One))
  {
    var front := txs[..|txs| - 1];
    var key := keyOf(txs[|txs| - 1]);
    if k in Buckets(front, keyOf) {
      BucketsTally(front, keyOf, k);
    } else if k == key {
      BucketsKeys(front, keyOf);
      TallyOutsideKeys(front, keyOf, k, Amount);
      TallyOutsideKeys(front, keyOf, k, One);
    }
  }

  lemma {:induction false} RecordsAppend(txs: seq<Transaction>, keyOf: Transaction -> int, labelOf: int -> string,
                                         a: seq<int>, b: seq<int>)
    ensures Records(txs, keyOf, labelOf, a + b) == Records(txs, keyOf, labelOf, a) + Records(txs, keyOf, labelOf, b)
  {
  }

  // ---------------------------------------------------------------------------
  // Facts about the report
  // ---------------------------------------------------------------------------

  /** A key is met exactly when some transaction has it. */
  lemma {:induction false} KeysMembers(txs: seq<Transaction>, keyOf: Transaction -> int, k: int)
    ensures k in Keys(txs, keyOf) <==> exists i :: 0 <= i < |txs| && keyOf(txs[i]) == k
  {
    if txs != [] {
      var front := txs[..|txs| - 1];
      KeysMembers(front, keyOf, k);
      if k in Keys(front, keyOf) {
        var i :| 0 <= i < |front| && keyOf(front[i]) == k;
        assert txs[i] == front[i];
      }
      if exists i :: 0 <= i < |txs| && keyOf(txs[i]) == k {
        var i :| 0 <= i < |txs| && keyOf(txs[i]) == k;
        if i < |front| {
          assert front[i] == txs[i];
        }
      }
    }
  }

  /** The position of the first transaction whose key is `key`, or `|txs|` when there is none. */
  function FirstWithKey(txs: seq<Transaction>, keyOf: Transaction -> int, key: int): (r: nat)
    ensures r <= |txs|
    ensures r < |txs| ==> keyOf(txs[r]) == key
    ensures forall q :: 0 <= q < r ==> keyOf(txs[q]) != key
  {
    if txs == [] then 0
    else if keyOf(txs[0]) == key then 0
    else 1 + FirstWithKey(txs[1..], keyOf, key)
  }

  /** A position holding `key` with no earlier one holding it is the first position with `key`. */
  lemma FirstWithKeyAt(txs: seq<Transaction>, keyOf: Transaction -> int, key: int, p: int)
    requires 0 <= p < |txs| && keyOf(txs[p]) == key
    requires forall q :: 0 <= q < p ==> keyOf(txs[q]) != key
    ensures FirstWithKey(txs, keyOf, key) == p
  {
  }

  /** Appending a transaction does not move the first occurrence of a key already met. */
  lemma FirstWithKeySnoc(txs: seq<Transaction>, keyOf: Transaction -> int, key: int)
    requires txs != [] && FirstWithKey(txs[..|txs| - 1], keyOf, key) < |txs| - 1
    ensures FirstWithKey(txs, keyOf, key) == FirstWithKey(txs[..|txs| - 1], keyOf, key)
  {
    var front := txs[..|txs| - 1];
    var p := FirstWithKey(front, keyOf, key);
    assert forall q :: 0 <= q <= p ==> txs[q] == front[q];
    FirstWithKeyAt(txs, keyOf, key, p);
  }

  /**
   * The keys are listed in order of first occurrence, the insertion order of
   * the `Map`: of two listed keys, the earlier one was met first.
   */
  lemma {:induction false} KeysInFirstOccurrenceOrder(txs: seq<Transaction>, keyOf: Transaction -> int, i: int, j: int)
    requires 0 <= i < j < |Keys(txs, keyOf)|
    ensures FirstWithKey(txs, keyOf, Keys(txs, keyOf)[i]) < FirstWithKey(txs, keyOf, Keys(txs, keyOf)[j])
  {
    var front := txs[..|txs| - 1];
    var fk := Keys(front, keyOf);
    var ki := Keys(txs, keyOf)[i];
    var kj := Keys(txs, keyOf)[j];
    assert ki == fk[i];
    KeyMetInFront(txs, keyOf, ki);
    FirstWithKeySnoc(txs, keyOf, ki);
    if j < |fk| {
      assert kj == fk[j];
      KeysInFirstOccurrenceOrder(front, keyOf, i, j);
      KeyMetInFront(txs, keyOf, kj);
      FirstWithKeySnoc(txs, keyOf, kj);
    } else {
      assert kj == keyOf(txs[|txs| - 1]) && kj !in fk;
      KeysMembers(front, keyOf, kj);
      assert forall q :: 0 <= q < |front| ==> keyOf(txs[q]) != kj by {
        assert forall q :: 0 <= q < |front| ==> txs[q] == front[q];
      }
      FirstWithKeyAt(txs, keyOf, kj, |txs| - 1);
    }
  }

  /** A key listed for the transactions before the last one is first met before the last one. */
  lemma KeyMetInFront(txs: seq<Transaction>, keyOf: Transaction -> int, key: int)
    requires txs != [] && key in Keys(txs[..|txs| - 1], keyOf)
    ensures FirstWithKey(txs[..|txs| - 1], keyOf, key) < |txs| - 1
  {
    var front := txs[..|txs| - 1];
    KeysMembers(front, keyOf, key);
    var p :| 0 <= p < |front| && keyOf(front[p]) == key;
    assert FirstWithKey(front, keyOf, key) <= p;
  }

  /** Selects the transactions whose key is `key`. */
  function HasKey(keyOf: Transaction -> int, key: int): Transaction -> bool
  {
    (t: Transaction) => keyOf(t) == key
  }

  /** A bucket tallies exactly the transactions whose key is its own: two transactions share a line iff their keys are equal. */
  lemma {:induction false} TallyIsSumOfBucket(txs: seq<Transaction>, keyOf: Transaction -> int, key: int, weight: Transaction -> int)
    ensures Tally(txs, keyOf, key, weight) == Seqs.SumBy(Seqs.Filter(txs, HasKey(keyOf, key)), weight)
  {
    if txs != [] {
      var front, last := txs[..|txs| - 1], txs[|txs| - 1];
      TallyIsSumOfBucket(front, keyOf, key, weight);
      assert txs == front + [last];
      Seqs.FilterAppend(front, [last], HasKey(keyOf, key));
      Seqs.SumByAppend(Seqs.Filter(front, HasKey(keyOf, key)), Seqs.Filter([last], HasKey(keyOf, key)), weight);
      assert [last][1..] == [];
    }
  }

  /** Every key met counts at least one transaction. */
  lemma {:induction false} MetKeyCountsOne(txs: seq<Transaction>, keyOf: Transaction -> int, key: int)
    requires key in Keys(txs, keyOf)
    ensures Tally(txs, keyOf, key, One) >= 1
  {
    var front := txs[..|txs| - 1];
    if key in Keys(front, keyOf) {
      MetKeyCountsOne(front, keyOf, key);
    } else {
      TallyOutsideKeys(front, keyOf, key, One);
    }
  }

  /** The sum of the tallies of `keys`. */
  function SumTallies(txs: seq<Transaction>, keyOf: Transaction -> int, keys: seq<int>, weight: Transaction -> int): int
  {
    if keys == [] then 0 else Tally(txs, keyOf, keys[0], weight) + SumTallies(txs, keyOf, keys[1..], weight)
  }

  lemma {:induction false} SumTalliesEmpty(keyOf: Transaction -> int, keys: seq<int>, weight: Transaction -> int)
    ensures SumTallies([], keyOf, keys, weight) == 0
  {
    if keys != [] {
      SumTalliesEmpty(keyOf, keys[1..], weight);
    }
  }

  /** One more transaction adds its weight to the tallies of distinct keys once if its key is among them. */
  lemma {:induction false} SumTalliesSnoc(txs: seq<Transaction>, t: Transaction, keyOf: Transaction -> int, keys: seq<int>, weight: Transaction -> int)
    requires Seqs.Distinct(keys)
    ensures SumTallies(txs + [t], keyOf, keys, weight) ==
            SumTallies(txs, keyOf, keys, weight) + (if keyOf(t) in keys then weight(t) else 0)
  {
    var all := txs + [t];
    assert all[..|all| - 1] == txs;
    if keys != [] {
      SumTalliesSnoc(txs, t, keyOf, keys[1..], weight);
      assert keys == [keys[0]] + keys[1..];
      if keyOf(t) == keys[0] {
        assert forall j :: 0 <= j < |keys[1..]| ==> keys[1..][j] == keys[j + 1];
        assert keyOf(t) !in keys[1..];
      }
    }
  }

  /** Over distinct keys covering every transaction, the tallies add up to the whole sum. */
  lemma {:induction false} SumTalliesOfAllKeys(txs: seq<Transaction>, keyOf: Transaction -> int, keys: seq<int>, weight: Transaction -> int)
    requires Seqs.Distinct(keys)
    requires forall i :: 0 <= i < |txs| ==> keyOf(txs[i]) in keys
    ensures SumTallies(txs, keyOf, keys, weight) == Seqs.SumBy(txs, weight)
  {
    if txs == [] {
      SumTalliesEmpty(keyOf, keys, weight);
    } else {
      var front, last := txs[..|txs| - 1], txs[|txs| - 1];
      assert txs == front + [last];
      SumTalliesOfAllKeys(front, keyOf, keys, weight);
      SumTalliesSnoc(front, last, keyOf, keys, weight);
      Seqs.SumByAppend(front, [last], weight);
      assert [last][1..] == [];
    }
  }

  function TotalOf(r: ReportPeriod): int
  {
    r.total
  }

  function CountOf(r: ReportPeriod): int
  {
    r.transactionCount
  }

  lemma {:induction false} RecordsSums(txs: seq<Transaction>, keyOf: Transaction -> int, labelOf: int -> string, keys: seq<int>)
    ensures Seqs.SumBy(Records(txs, keyOf, labelOf, keys), TotalOf) == SumTallies(txs, keyOf, keys, Amount)
    ensures Seqs.SumBy(Records(txs, keyOf, labelOf, keys), CountOf) == SumTallies(txs, keyOf, keys, One)
  {
    if keys != [] {
      RecordsSums(txs, keyOf, labelOf, keys[1..]);
      var r := Records(txs, keyOf, labelOf, keys);
      assert r[1..] == Records(txs, keyOf, labelOf, keys[1..]);
    }
  }

  lemma {:induction false} SumOfOnes(txs: seq<Transaction>)
    ensures Seqs.SumBy(txs, One) == |txs|
  {
    if txs != [] {
      SumOfOnes(txs[1..]);
    }
  }

  /** The totals of the lines add up to the sum of all amounts, and the counts to the number of transactions. */
  lemma {:induction false} ReportAddsUp(txs: seq<Transaction>, period: Granularity, offsetMs: int, formatDate: (Granularity, int) -> string)
    ensures Seqs.SumBy(Report(txs, period, offsetMs, formatDate), TotalOf) == Seqs.SumBy(txs, Amount)
    ensures Seqs.SumBy(Report(txs, period, offsetMs, formatDate), CountOf) == |txs|
  {
    var keyOf := KeyFn(period, offsetMs);
    var keys := Keys(txs, keyOf);
    var records := Records(txs, keyOf, LabelFn(period, offsetMs, formatDate), keys);
    var report := Report(txs, period, offsetMs, formatDate);
    Seqs.SumByPermutation(report, records, TotalOf);
    Seqs.SumByPermutation(report, records, CountOf);
    RecordsSums(txs, keyOf, LabelFn(period, offsetMs, formatDate), keys);
    forall i | 0 <= i < |txs| ensures keyOf(txs[i]) in keys {
      KeysMembers(txs, keyOf, keyOf(txs[i]));
    }
    SumTalliesOfAllKeys(txs, keyOf, keys, Amount);
    SumTalliesOfAllKeys(txs, keyOf, keys, One);
    SumOfOnes(txs);
  }

  /**
   * The report has one line per distinct key, in some order: the line of key
   * `k` carries the total and number of exactly the transactions with key
   * `k`, and no line is empty.
   */
  lemma {:induction false} ReportOneLinePerKey(txs: seq<Transaction>, period: Granularity, offsetMs: int, formatDate: (Granularity, int) -> string)
    ensures var keyOf := KeyFn(period, offsetMs);
      var keys := Keys(txs, keyOf);
      && Seqs.Distinct(keys)
      && |Report(txs, period, offsetMs, formatDate)| == |keys|
      && multiset(Report(txs, period, offsetMs, formatDate)) ==
         multiset(Records(txs, keyOf, LabelFn(period, offsetMs, formatDate), keys))
      && forall r :: r in Report(txs, period, offsetMs, formatDate) ==> r.transactionCount >= 1
  {
    var keyOf := KeyFn(period, offsetMs);
    var keys := Keys(txs, keyOf);
    var records := Records(txs, keyOf, LabelFn(period, offsetMs, formatDate), keys);
    forall r | r in Report(txs, period, offsetMs, formatDate) ensures r.transactionCount >= 1 {
      assert r in multiset(records);
      var i :| 0 <= i < |records| && records[i] == r;
      MetKeyCountsOne(txs, keyOf, keys[i]);
    }
  }

  /** The lines come out in descending order of their labels. */
  lemma {:induction false} ReportSortedByLabel(txs: seq<Transaction>, period: Granularity, offsetMs: int, formatDate: (Granularity, int) -> string)
    ensures Sorting.Sorted(Report(txs, period, offsetMs, formatDate), LaterLabelFirst)
  {
    var keyOf := KeyFn(period, offsetMs);
    var records := Records(txs, keyOf, LabelFn(period, offsetMs, formatDate), Keys(txs, keyOf));
    forall i, j | 0 <= i < |records| && 0 <= j < |records|
      ensures LaterLabelFirst(records[i], records[j]) || LaterLabelFirst(records[j], records[i])
    {
      Text.LexLeTotal(records[i].period, records[j].period);
    }
    forall i, j, k | 0 <= i < |records| && 0 <= j < |records| && 0 <= k < |records| &&
                     LaterLabelFirst(records[i], records[j]) && LaterLabelFirst(records[j], records[k])
      ensures LaterLabelFirst(records[i], records[k])
    {
      Text.LexLeTransitive(records[k].period, records[j].period, records[i].period);
    }
    Sorting.SortSorted(records, LaterLabelFirst);
  }

  // ---------------------------------------------------------------------------
  // The label order is not the time order
  // ---------------------------------------------------------------------------

  /** A sale of 10 000 at midnight UTC of `day`. */
  function SaleAt(day: int): Transaction
  {
    Transaction(0, 10000, "Tunai", 10000, day * 86_400_000_000_000, 0, [])
  }

  /**
   * With daily labels such as "Sunday, Jan 07, 2024" the descending label
   * order puts Sunday 2024-01-07 (day 19729) before the later Monday
   * 2024-01-08 (day 19730): the report is not most recent first.
   */
  lemma {:induction false} LabelOrderIsNotRecency(formatDate: (Granularity, int) -> string)
    requires formatDate(Daily, 19729) == "Sunday, Jan 07, 2024"
    requires formatDate(Daily, 19730) == "Monday, Jan 08, 2024"
    ensures var report := Report([SaleAt(19729), SaleAt(19730)], Daily, 0, formatDate);
      |report| == 2 && report[0].period == "Sunday, Jan 07, 2024" && report[1].period == "Monday, Jan 08, 2024"
  {
    var txs := [SaleAt(19729), SaleAt(19730)];
    var keyOf := KeyFn(Daily, 0);
    assert 1704585600000000000 / 1_000_000 == 1704585600000 && 1704585600000 / 86_400_000 == 19729;
    assert 1704672000000000000 / 1_000_000 == 1704672000000 && 1704672000000 / 86_400_000 == 19730;
    assert keyOf(txs[0]) == 19729 && keyOf(txs[1]) == 19730;
    assert txs[..1] == [SaleAt(19729)] && txs[..1][..0] == [];
    assert Keys(txs, keyOf) == [19729, 19730];
    assert ParsedKeyDay(19729, 0) == 19729 && ParsedKeyDay(19730, 0) == 19730;
    var records := Records(txs, keyOf, LabelFn(Daily, 0, formatDate), [19729, 19730]);
    assert records[0].period == "Sunday, Jan 07, 2024" && records[1].period == "Monday, Jan 08, 2024";
    assert LaterLabelFirst(records[0], records[1]);
    assert records[1..][1..] == [];
    assert Sorting.Sort(records, LaterLabelFirst) == [records[0], records[1]];
  }

  /** `a` may precede `b` when its period starts no earlier. */
  function LaterKeyFirst(a: (int, ReportPeriod), b: (int, ReportPeriod)): bool
  {
    a.0 >= b.0
  }

  /** The date a key names, read back as local midnight of that date (`new Date(year, month - 1, day)`). */
  function LocalMidnight(key: int, offsetMs: int): int
  {
    key * 86_400_000 - offsetMs
  }

  /** Read back as local midnight, a key's label shows the key's own date whatever the time zone. */
  lemma {:induction false} LocalMidnightRoundTrip(key: int, offsetMs: int)
    ensures LocalDay(LocalMidnight(key, offsetMs), offsetMs) == key
  {
    assert LocalMidnight(key, offsetMs) + offsetMs == key * 86_400_000;
  }

  /** The label of a key, formatting the key's own date. */
  function KeyLabelFn(period: Granularity, offsetMs: int, formatDate: (Granularity, int) -> string): int -> string
  {
    (key: int) => formatDate(period, LocalDay(LocalMidnight(key, offsetMs), offsetMs))
  }

  /** The report lines of `keys`, each paired with its key. */
  function KeyedRecords(txs: seq<Transaction>, keyOf: Transaction -> int, labelOf: int -> string, keys: seq<int>): (r: seq<(int, ReportPeriod)>)
    ensures |r| == |keys|
    ensures forall i :: 0 <= i < |keys| ==> r[i] == (keys[i], RecordOf(txs, keyOf, labelOf, keys[i]))
  {
    if keys == [] then []
    else [(keys[0], RecordOf(txs, keyOf, labelOf, keys[0]))] + KeyedRecords(txs, keyOf, labelOf, keys[1..])
  }

  /** The lines of keyed lines, in order. */
  function Lines(keyed: seq<(int, ReportPeriod)>): (r: seq<ReportPeriod>)
    ensures |r| == |keyed|
    ensures forall i :: 0 <= i < |keyed| ==> r[i] == keyed[i].1
  {
    if keyed == [] then [] else [keyed[0].1] + Lines(keyed[1..])
  }

  /** The keyed lines of the report in the intended order: latest period first. */
  function KeyedRecentFirst(txs: seq<Transaction>, period: Granularity, offsetMs: int, formatDate: (Granularity, int) -> string): seq<(int, ReportPeriod)>
  {
    var keyOf := KeyFn(period, offsetMs);
    Sorting.Sort(KeyedRecords(txs, keyOf, KeyLabelFn(period, offsetMs, formatDate), Keys(txs, keyOf)), LaterKeyFirst)
  }

  /** The report with the intended order and labels: one line per period, most recent first. */
  function ReportRecentFirst(txs: seq<Transaction>, period: Granularity, offsetMs: int, formatDate: (Granularity, int) -> string): seq<ReportPeriod>
  {
    Lines(KeyedRecentFirst(txs, period, offsetMs, formatDate))
  }

  /** In the intended report the periods strictly decrease: most recent first, each once. */
  lemma {:induction false} RecentFirstDecreasing(txs: seq<Transaction>, period: Granularity, offsetMs: int, formatDate: (Granularity, int) -> string)
    ensures var keyed := KeyedRecentFirst(txs, period, offsetMs, formatDate);
      forall i, j :: 0 <= i < j < |keyed| ==> keyed[i].0 > keyed[j].0
  {
    var keyOf := KeyFn(period, offsetMs);
    var keys := Keys(txs, keyOf);
    var unsorted := KeyedRecords(txs, keyOf, KeyLabelFn(period, offsetMs, formatDate), keys);
    assert forall a, b :: 0 <= a < b < |unsorted| ==> unsorted[a].0 != unsorted[b].0 by {
      forall a, b | 0 <= a < b < |unsorted| ensures unsorted[a].0 != unsorted[b].0 {
        assert unsorted[a].0 == keys[a] && unsorted[b].0 == keys[b];
      }
    }
    SortedLatestFirst(unsorted);
    assert KeyedRecentFirst(txs, period, offsetMs, formatDate) == Sorting.Sort(unsorted, LaterKeyFirst);
  }

  /** Lines with distinct keys, sorted latest first, come out with strictly decreasing keys. */
  lemma SortedLatestFirst(unsorted: seq<(int, ReportPeriod)>)
    requires forall a, b :: 0 <= a < b < |unsorted| ==> unsorted[a].0 != unsorted[b].0
    ensures var keyed := Sorting.Sort(unsorted, LaterKeyFirst);
      forall i, j :: 0 <= i < j < |keyed| ==> keyed[i].0 > keyed[j].0
  {
    var keyed := Sorting.Sort(unsorted, LaterKeyFirst);
    assert Seqs.Distinct(unsorted);
    Seqs.PermutationKeepsDistinct(unsorted, keyed);
    Sorting.SortSorted(unsorted, LaterKeyFirst);
    forall x | x in keyed ensures x in unsorted {
      assert x in multiset(keyed);
    }
    DistinctKeysKept(keyed, unsorted);
  }

  /**
   * Distinct lines taken from lines with distinct keys have distinct keys;
   * sorted latest first, their keys then strictly decrease.
   */
  lemma DistinctKeysKept(keyed: seq<(int, ReportPeriod)>, unsorted: seq<(int, ReportPeriod)>)
    requires Seqs.Distinct(keyed) && Sorting.Sorted(keyed, LaterKeyFirst)
    requires forall x :: x in keyed ==> x in unsorted
    requires forall a, b :: 0 <= a < b < |unsorted| ==> unsorted[a].0 != unsorted[b].0
    ensures forall i, j :: 0 <= i < j < |keyed| ==> keyed[i].0 > keyed[j].0
  {
    forall i, j | 0 <= i < j < |keyed| ensures keyed[i].0 > keyed[j].0 {
      assert LaterKeyFirst(keyed[i], keyed[j]);
      assert keyed[i] in unsorted && keyed[j] in unsorted;
      var a :| 0 <= a < |unsorted| && unsorted[a] == keyed[i];
      var b :| 0 <= b < |unsorted| && unsorted[b] == keyed[j];
    }
  }

  /**
   * In the intended report there is one line per period, holding that
   * period's total and count and labelled with the period's own first day.
   */
  lemma {:induction false} RecentFirstLines(txs: seq<Transaction>, period: Granularity, offsetMs: int, formatDate: (Granularity, int) -> string)
    ensures var keyed := KeyedRecentFirst(txs, period, offsetMs, formatDate);
      var report := ReportRecentFirst(txs, period, offsetMs, formatDate);
      var keyOf := KeyFn(period, offsetMs);
      && |report| == |Keys(txs, keyOf)|
      && forall i :: 0 <= i < |keyed| ==>
           keyed[i].0 in Keys(txs, keyOf) &&
           report[i] == ReportPeriod(formatDate(period, keyed[i].0),
                                     Tally(txs, keyOf, keyed[i].0, Amount), Tally(txs, keyOf, keyed[i].0, One))
  {
    var keyOf := KeyFn(period, offsetMs);
    var keys := Keys(txs, keyOf);
    var labelOf := KeyLabelFn(period, offsetMs, formatDate);
    var unsorted := KeyedRecords(txs, keyOf, labelOf, keys);
    var keyed := KeyedRecentFirst(txs, period, offsetMs, formatDate);
    forall i | 0 <= i < |keyed|
      ensures keyed[i].0 in keys
      ensures keyed[i].1 == ReportPeriod(formatDate(period, keyed[i].0),
                                         Tally(txs, keyOf, keyed[i].0, Amount), Tally(txs, keyOf, keyed[i].0, One))
    {
      assert keyed[i] in multiset(unsorted);
      var k :| 0 <= k < |unsorted| && unsorted[k] == keyed[i];
      LocalMidnightRoundTrip(keys[k], offsetMs);
    }
  }

  /** On the sales of 2024-01-07 and 2024-01-08 the intended report lists Monday the 8th first. */
  lemma {:induction false} RecentFirstExample(formatDate: (Granularity, int) -> string)
    requires formatDate(Daily, 19729) == "Sunday, Jan 07, 2024"
    requires formatDate(Daily, 19730) == "Monday, Jan 08, 2024"
    ensures var report := ReportRecentFirst([SaleAt(19729), SaleAt(19730)], Daily, 0, formatDate);
      |report| == 2 && report[0].period == "Monday, Jan 08, 2024" && report[1].period == "Sunday, Jan 07, 2024"
  {
    var txs := [SaleAt(19729), SaleAt(19730)];
    ExampleKeys();
    RecentFirstDecreasing(txs, Daily, 0, formatDate);
    RecentFirstLines(txs, Daily, 0, formatDate);
    var keyed := KeyedRecentFirst(txs, Daily, 0, formatDate);
    assert |keyed| == 2;
    assert keyed[0].0 in [19729, 19730] && keyed[1].0 in [19729, 19730];
  }

  /** The two sales of the example fall on two days, the 7th first. */
  lemma ExampleKeys()
    ensures Keys([SaleAt(19729), SaleAt(19730)], KeyFn(Daily, 0)) == [19729, 19730]
  {
    var txs := [SaleAt(19729), SaleAt(19730)];
    var keyOf := KeyFn(Daily, 0);
    assert 1704585600000000000 / 1_000_000 == 1704585600000 && 1704585600000 / 86_400_000 == 19729;
    assert 1704672000000000000 / 1_000_000 == 1704672000000 && 1704672000000 / 86_400_000 == 19730;
    assert keyOf(txs[0]) == 19729 && keyOf(txs[1]) == 19730;
    assert txs[..1] == [SaleAt(19729)] && txs[..1][..0] == [];
  }

  // ---------------------------------------------------------------------------
  // A key's label can show the day before
  // ---------------------------------------------------------------------------

  /**
   * West of UTC the key text, read back as midnight UTC, lands on the evening
   * before in local time: the label shows the day before the key's date
   * (for a month, the last day of the month before).
   */
  lemma {:induction false} ParsedKeyDayWestOfUtc(key: int, offsetMs: int)
    requires -86_400_000 < offsetMs < 0
    ensures ParsedKeyDay(key, offsetMs) == key - 1
  {
    LocalDayContains(key * 86_400_000, offsetMs);
  }

  /** At UTC and east of it the label shows the key's own date. */
  lemma {:induction false} ParsedKeyDayEastOfUtc(key: int, offsetMs: int)
    requires 0 <= offsetMs < 86_400_000
    ensures ParsedKeyDay(key, offsetMs) == key
  {
    LocalDayContains(key * 86_400_000, offsetMs);
  }
}
