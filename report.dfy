/**
 * `generate_report` (app.py:434-518): the summary of a run's transactions,
 * the per-pattern, per-city and per-payment-method breakdowns, and the last
 * hundred transactions.
 */
module Report {
  import opened Wrappers
  import opened Numeric
  import opened Domain

  /** The three dictionaries the report groups transactions into. */
  datatype Dimension = ByCity | ByPaymentMethod | ByPattern

  /** A transaction's key in each dictionary: `location["city"]`, `payment_method` or `fraud_pattern`. */
  function KeyOf(d: Dimension, t: Transaction): string
  {
    match d
    case ByCity => t.location.city
    case ByPaymentMethod => t.paymentMethod
    case ByPattern => if t.fraudPattern.Some? then t.fraudPattern.value else ""
  }

  /**
   * One entry of a statistics dictionary: `{"total", "fraud", "amount"}`
   * under its key. The pattern dictionaries `pattern_counts` and
   * `pattern_amounts` share their keys and are one entry each here.
   */
  datatype Bucket = Bucket(key: string, total: nat, fraud: nat, amount: real)

  /** The entry a new key starts from. */
  function Empty(key: string): Bucket
  {
    Bucket(key, 0, 0, 0.0)
  }

  /** One more transaction counted in an entry. */
  function Bump(b: Bucket, t: Transaction): Bucket
  {
    Bucket(b.key, b.total + 1, if IsFraud(t) then b.fraud + 1 else b.fraud, b.amount + t.amount)
  }

  /** Counting `t` under `key` in a dictionary whose entries are kept in insertion order. */
  function Insert(rows: seq<Bucket>, key: string, t: Transaction): seq<Bucket>
  {
    if |rows| == 0 then [Bump(Empty(key), t)]
    else if rows[0].key == key then [Bump(rows[0], t)] + rows[1..]
    else [rows[0]] + Insert(rows[1..], key, t)
  }

  /** The dictionary the report's loop builds over `txs`, one transaction after the other. */
  function Grouped(txs: seq<Transaction>, d: Dimension): seq<Bucket>
  {
    if |txs| == 0 then []
    else Insert(Grouped(txs[..|txs| - 1], d), KeyOf(d, txs[|txs| - 1]), txs[|txs| - 1])
  }

  /** `[t for t in txs if t.fraud_pattern]`. */
  function Fraudulent(txs: seq<Transaction>): (fs: seq<Transaction>)
    ensures |fs| <= |txs|
  {
    if |txs| == 0 then []
    else Fraudulent(txs[..|txs| - 1]) + (if IsFraud(txs[|txs| - 1]) then [txs[|txs| - 1]] else [])
  }

  /** `[t for t in txs if not t.fraud_pattern]`. */
  function Normal(txs: seq<Transaction>): (ns: seq<Transaction>)
    ensures |ns| <= |txs|
  {
    if |txs| == 0 then []
    else Normal(txs[..|txs| - 1]) + (if IsFraud(txs[|txs| - 1]) then [] else [txs[|txs| - 1]])
  }

  /** `sum(t.amount for t in txs)`. */
  function TotalAmount(txs: seq<Transaction>): real
  {
    if |txs| == 0 then 0.0 else TotalAmount(txs[..|txs| - 1]) + txs[|txs| - 1].amount
  }

  /** How many transactions of `txs` have `key` in dictionary `d`. */
  function KeyCount(txs: seq<Transaction>, d: Dimension, key: string): nat
  {
    if |txs| == 0 then 0
    else KeyCount(txs[..|txs| - 1], d, key) + (if KeyOf(d, txs[|txs| - 1]) == key then 1 else 0)
  }

  /** How many fraudulent transactions of `txs` have `key` in dictionary `d`. */
  function KeyFraud(txs: seq<Transaction>, d: Dimension, key: string): nat
  {
    if |txs| == 0 then 0
    else KeyFraud(txs[..|txs| - 1], d, key) + (if KeyOf(d, txs[|txs| - 1]) == key && IsFraud(txs[|txs| - 1]) then 1 else 0)
  }

  /** The amount of the transactions of `txs` that have `key` in dictionary `d`. */
  function KeyAmount(txs: seq<Transaction>, d: Dimension, key: string): real
  {
    if |txs| == 0 then 0.0
    else KeyAmount(txs[..|txs| - 1], d, key) + (if KeyOf(d, txs[|txs| - 1]) == key then txs[|txs| - 1].amount else 0.0)
  }

  /** Reference definition of the entry of `key`: counted directly over the transactions. */
  function Entry(txs: seq<Transaction>, d: Dimension, key: string): Bucket
  {
    Bucket(key, KeyCount(txs, d, key), KeyFraud(txs, d, key), KeyAmount(txs, d, key))
  }

  /** The keys of a dictionary. */
  function Keys(rows: seq<Bucket>): set<string>
  {
    set j | 0 <= j < |rows| :: rows[j].key
  }

  /** The keys occurring among the transactions: `set(t.location["city"] for t in txs)` and the like. */
  function Occurring(txs: seq<Transaction>, d: Dimension): set<string>
  {
    set k | 0 <= k < |txs| :: KeyOf(d, txs[k])
  }

  /** A dictionary has each key once. */
  predicate KeysDistinct(rows: seq<Bucket>)
  {
    forall i, j | 0 <= i < j < |rows| :: rows[i].key != rows[j].key
  }

  /** The entries' `total` counts added up. */
  function SumTotals(rows: seq<Bucket>): nat
  {
    if |rows| == 0 then 0 else rows[0].total + SumTotals(rows[1..])
  }

  /** The entries' `fraud` counts added up. */
  function SumFraud(rows: seq<Bucket>): nat
  {
    if |rows| == 0 then 0 else rows[0].fraud + SumFraud(rows[1..])
  }

  /**
   * A dictionary built over `txs`: each key once, exactly the keys occurring,
   * and each key's entry counting exactly the transactions with that key.
   */
  ghost predicate Faithful(rows: seq<Bucket>, txs: seq<Transaction>, d: Dimension)
  {
    KeysDistinct(rows) && Keys(rows) == Occurring(txs, d) &&
    forall j | 0 <= j < |rows| :: rows[j] == Entry(txs, d, rows[j].key)
  }

  /** The lookup index of the loop's dictionary: `index[k]` is the position of key `k`. */
  ghost predicate Indexed(rows: seq<Bucket>, index: map<string, nat>)
  {
    (forall j | 0 <= j < |rows| :: rows[j].key in index && index[rows[j].key] == j) &&
    (forall k | k in index :: index[k] < |rows| && rows[index[k]].key == k)
  }

  /**
   * One update of a statistics dictionary: `if key not in stats` adds an
   * empty entry, then the transaction is counted in the entry of `key`.
   */
  method Count(rows: seq<Bucket>, index: map<string, nat>, key: string, t: Transaction)
    returns (rows': seq<Bucket>, index': map<string, nat>)
    requires Indexed(rows, index)
    ensures rows' == Insert(rows, key, t) && Indexed(rows', index')
  {
    if key in index {
      var j := index[key];
      IndexedKnown(rows, index, key, t);
      rows', index' := rows[j := Bump(rows[j], t)], index;
    } else {
      IndexedFresh(rows, index, key, t);
      rows', index' := rows + [Bump(Empty(key), t)], index[key := |rows|];
    }
  }

  /**
   * One of the report's counting loops (app.py:444-471): for each
   * transaction, adds an empty entry under its key if the key is new, then
   * counts the transaction in that entry.
   */
  method Tally(txs: seq<Transaction>, d: Dimension) returns (rows: seq<Bucket>)
    ensures rows == Grouped(txs, d)
  {
    rows := [];
    var index: map<string, nat> := map[];
    var i := 0;
    while i < |txs|
      invariant 0 <= i <= |txs|
      invariant rows == Grouped(txs[..i], d)
      invariant Indexed(rows, index)
    {
      GroupedStep(txs, i, d);
      rows, index := Count(rows, index, KeyOf(d, txs[i]), txs[i]);
      i := i + 1;
    }
    assert txs[..i] == txs;
  }

  /** One row of `location_analysis` or `payment_method_analysis`. */
  datatype Breakdown = Breakdown(key: string, totalTransactions: nat, fraudTransactions: nat, fraudRate: real, totalAmount: real)

  /** The row of an entry: its counts, `fraud / total` (0 for no transactions) and the amount to the cent. */
  function RowOf(b: Bucket): (r: Breakdown)
    ensures r.key == b.key && r.totalTransactions == b.total && r.fraudTransactions == b.fraud
    ensures r.totalAmount == Round2(b.amount)
    ensures b.total > 0 ==> r.fraudRate * (b.total as real) == b.fraud as real
    ensures b.total == 0 ==> r.fraudRate == 0.0
  {
    Breakdown(b.key, b.total, b.fraud, if b.total > 0 then b.fraud as real / b.total as real else 0.0, Round2(b.amount))
  }

  /** The rows of a dictionary, in its order. */
  function Breakdowns(rows: seq<Bucket>): (rs: seq<Breakdown>)
    ensures |rs| == |rows| && forall j | 0 <= j < |rows| :: rs[j] == RowOf(rows[j])
  {
    if |rows| == 0 then [] else [RowOf(rows[0])] + Breakdowns(rows[1..])
  }

  /** The rows' `total_transactions` added up. */
  function RowTotals(rs: seq<Breakdown>): nat
  {
    if |rs| == 0 then 0 else rs[0].totalTransactions + RowTotals(rs[1..])
  }

  /** One key of `pattern_analysis`: its count and its amount to the cent. */
  datatype PatternRow = PatternRow(pattern: string, count: nat, amount: real)

  /** The pattern rows of the pattern dictionary, in its order. */
  function PatternRows(rows: seq<Bucket>): (ps: seq<PatternRow>)
    ensures |ps| == |rows|
    ensures forall j | 0 <= j < |rows| :: ps[j] == PatternRow(rows[j].key, rows[j].total, Round2(rows[j].amount))
  {
    if |rows| == 0 then [] else [PatternRow(rows[0].key, rows[0].total, Round2(rows[0].amount))] + PatternRows(rows[1..])
  }

  /** The pattern counts added up. */
  function PatternTotal(ps: seq<PatternRow>): nat
  {
    if |ps| == 0 then 0 else ps[0].count + PatternTotal(ps[1..])
  }

  /** `[t.risk_score for t in txs if t.risk_score]`: the non-zero risk scores. */
  function RiskScores(txs: seq<Transaction>): (rs: seq<real>)
    ensures |rs| <= |txs|
  {
    if |txs| == 0 then []
    else RiskScores(txs[..|txs| - 1]) + (if txs[|txs| - 1].riskScore != 0.0 then [txs[|txs| - 1].riskScore] else [])
  }

  /** `sum` of a list of reals. */
  function Sum(xs: seq<real>): real
  {
    if |xs| == 0 then 0.0 else Sum(xs[..|xs| - 1]) + xs[|xs| - 1]
  }

  /** The `summary` dictionary. */
  datatype Summary = Summary(
    totalTransactions: nat,
    fraudulentTransactions: nat,
    normalTransactions: nat,
    fraudRate: real,
    totalAmount: real,
    fraudAmount: real,
    fraudAmountPercentage: real,
    averageRiskScore: real,
    uniqueUsers: nat,
    uniqueMerchants: nat,
    uniqueDevices: nat,
    uniqueLocations: nat)

  /** A successful report. */
  datatype Analysis = Analysis(
    summary: Summary,
    patterns: seq<PatternRow>,
    locations: seq<Breakdown>,
    paymentMethods: seq<Breakdown>,
    recent: seq<Transaction>)

  /** The error message of a report over no transactions. */
  const NoTransactions := "No transactions to report"

  /** The summary of a non-empty list of transactions, for a run with `userCount` users (app.py:480-493). */
  function SummaryOf(txs: seq<Transaction>, userCount: nat): Summary
    requires |txs| > 0
  {
    var fraud := Fraudulent(txs);
    var total := TotalAmount(txs);
    var fraudAmount := TotalAmount(fraud);
    var scores := RiskScores(txs);
    Summary(
      |txs|, |fraud|, |Normal(txs)|,
      |fraud| as real / |txs| as real,
      Round2(total), Round2(fraudAmount),
      if total > 0.0 then fraudAmount / total * 100.0 else 0.0,
      Round3(if |scores| > 0 then Sum(scores) / |scores| as real else 0.0),
      userCount,
      |set k | 0 <= k < |txs| :: txs[k].merchantId|,
      |set k | 0 <= k < |txs| :: txs[k].deviceFingerprint|,
      |Occurring(txs, ByCity)|)
  }

  /** `self.transactions[-100:]`: the last hundred transactions, or all of them. */
  function Recent(txs: seq<Transaction>): (r: seq<Transaction>)
    ensures |r| == MinInt(100, |txs|) && r == txs[|txs| - |r|..]
  {
    if |txs| <= 100 then txs else txs[|txs| - 100..]
  }

  /**
   * `generate_report` over `txs` with `userCount` users: the error for an
   * empty list; otherwise the summary, the per-pattern dictionary counted
   * over the fraudulent transactions, the per-city and per-payment-method
   * dictionaries counted over all of them, and the last hundred.
   */
  method GenerateReport(txs: seq<Transaction>, userCount: nat) returns (r: Result<Analysis, string>)
    ensures r.Failure? <==> |txs| == 0
    ensures r.Failure? ==> r.error == NoTransactions
    ensures r.Success? ==> r.value.summary == SummaryOf(txs, userCount) && r.value.recent == Recent(txs)
    ensures r.Success? ==> r.value.patterns == PatternRows(Grouped(Fraudulent(txs), ByPattern))
    ensures r.Success? ==> r.value.locations == Breakdowns(Grouped(txs, ByCity))
    ensures r.Success? ==> r.value.paymentMethods == Breakdowns(Grouped(txs, ByPaymentMethod))
  {
    if |txs| == 0 {
      return Failure(NoTransactions);
    }
    var fraud := Fraudulent(txs);
    var patterns := Tally(fraud, ByPattern);
    var cities := Tally(txs, ByCity);
    var methods := Tally(txs, ByPaymentMethod);
    r := Success(Analysis(SummaryOf(txs, userCount), PatternRows(patterns), Breakdowns(cities), Breakdowns(methods), Recent(txs)));
  }

  // Lemmas about the dictionaries

  /** Counting a key at position `j`, where it first occurs, bumps entry `j` and keeps the rest. */
  lemma {:induction false} InsertAt(rows: seq<Bucket>, j: nat, key: string, t: Transaction)
    requires j < |rows| && rows[j].key == key && forall i | 0 <= i < j :: rows[i].key != key
    ensures Insert(rows, key, t) == rows[j := Bump(rows[j], t)]
  {
    if j > 0 {
      InsertAt(rows[1..], j - 1, key, t);
    }
  }

  /** Counting a new key appends its entry. */
  lemma {:induction false} InsertAbsent(rows: seq<Bucket>, key: string, t: Transaction)
    requires forall i | 0 <= i < |rows| :: rows[i].key != key
    ensures Insert(rows, key, t) == rows + [Bump(Empty(key), t)]
  {
    if |rows| > 0 {
      InsertAbsent(rows[1..], key, t);
    }
  }

  /** One more step of the dictionary's fold. */
  lemma GroupedStep(txs: seq<Transaction>, i: nat, d: Dimension)
    requires i < |txs|
    ensures Grouped(txs[..i + 1], d) == Insert(Grouped(txs[..i], d), KeyOf(d, txs[i]), txs[i])
  {
    assert txs[..i + 1][..i] == txs[..i];
  }

  /** Counting a key the index knows bumps its entry in place, and the index stays right. */
  lemma IndexedKnown(rows: seq<Bucket>, index: map<string, nat>, key: string, t: Transaction)
    requires Indexed(rows, index) && key in index
    ensures index[key] < |rows|
    ensures Insert(rows, key, t) == rows[index[key] := Bump(rows[index[key]], t)]
    ensures Indexed(rows[index[key] := Bump(rows[index[key]], t)], index)
  {
    var j := index[key];
    assert forall i | 0 <= i < j :: rows[i].key != key by {
      forall i | 0 <= i < j
        ensures rows[i].key != key
      {
        assert index[rows[i].key] == i;
      }
    }
    InsertAt(rows, j, key, t);
  }

  /** Counting a key the index does not know appends its entry, and the index records it. */
  lemma IndexedFresh(rows: seq<Bucket>, index: map<string, nat>, key: string, t: Transaction)
    requires Indexed(rows, index) && key !in index
    ensures Insert(rows, key, t) == rows + [Bump(Empty(key), t)]
    ensures Indexed(rows + [Bump(Empty(key), t)], index[key := |rows|])
  {
    assert forall i | 0 <= i < |rows| :: rows[i].key != key by {
      forall i | 0 <= i < |rows|
        ensures rows[i].key != key
      {
        assert rows[i].key in index;
      }
    }
    InsertAbsent(rows, key, t);
  }

  /** Counting one transaction adds one to the totals and its fraud flag to the fraud counts. */
  lemma {:induction false} InsertSums(rows: seq<Bucket>, key: string, t: Transaction)
    ensures SumTotals(Insert(rows, key, t)) == SumTotals(rows) + 1
    ensures SumFraud(Insert(rows, key, t)) == SumFraud(rows) + (if IsFraud(t) then 1 else 0)
  {
    if |rows| > 0 && rows[0].key != key {
      InsertSums(rows[1..], key, t);
      assert Insert(rows, key, t)[1..] == Insert(rows[1..], key, t);
    } else if |rows| > 0 {
      assert Insert(rows, key, t)[1..] == rows[1..];
    }
  }

  /** The reference entry of a key, one transaction later. */
  lemma EntrySnoc(txs: seq<Transaction>, t: Transaction, d: Dimension, key: string)
    ensures Entry(txs + [t], d, key) == if KeyOf(d, t) == key then Bump(Entry(txs, d, key), t) else Entry(txs, d, key)
  {
    assert (txs + [t])[..|txs|] == txs;
  }

  /** A key no transaction has has an empty reference entry. */
  lemma {:induction false} EntryNone(txs: seq<Transaction>, d: Dimension, key: string)
    requires key !in Occurring(txs, d)
    ensures Entry(txs, d, key) == Empty(key)
  {
    if |txs| > 0 {
      var n := |txs| - 1;
      assert KeyOf(d, txs[n]) in Occurring(txs, d);
      assert Occurring(txs[..n], d) <= Occurring(txs, d) by {
        forall k | 0 <= k < n
          ensures KeyOf(d, txs[..n][k]) in Occurring(txs, d)
        {
          assert txs[..n][k] == txs[k];
        }
      }
      EntryNone(txs[..n], d, key);
    }
  }

  /** The keys occurring, one transaction later. */
  lemma OccurringSnoc(txs: seq<Transaction>, t: Transaction, d: Dimension)
    ensures Occurring(txs + [t], d) == Occurring(txs, d) + {KeyOf(d, t)}
  {
    var s := txs + [t];
    forall key | key in Occurring(s, d)
      ensures key in Occurring(txs, d) + {KeyOf(d, t)}
    {
      var k :| 0 <= k < |s| && KeyOf(d, s[k]) == key;
      if k < |txs| {
        assert s[k] == txs[k];
      }
    }
    forall key | key in Occurring(txs, d)
      ensures key in Occurring(s, d)
    {
      var k :| 0 <= k < |txs| && KeyOf(d, txs[k]) == key;
      assert s[k] == txs[k];
    }
    assert s[|txs|] == t;
  }

  /** Counting a transaction whose key has entry `j` keeps the dictionary faithful. */
  lemma InsertKnown(rows: seq<Bucket>, txs: seq<Transaction>, t: Transaction, d: Dimension, j: nat)
    requires Faithful(rows, txs, d) && j < |rows| && rows[j].key == KeyOf(d, t)
    ensures Faithful(Insert(rows, KeyOf(d, t), t), txs + [t], d)
  {
    var key := KeyOf(d, t);
    InsertAt(rows, j, key, t);
    var rows' := rows[j := Bump(rows[j], t)];
    OccurringSnoc(txs, t, d);
    assert Keys(rows') == Keys(rows) by {
      forall i | 0 <= i < |rows|
        ensures rows'[i].key == rows[i].key
      {
      }
    }
    forall i | 0 <= i < |rows'|
      ensures rows'[i] == Entry(txs + [t], d, rows'[i].key)
    {
      EntrySnoc(txs, t, d, rows[i].key);
    }
  }

  /** Counting a transaction with a new key keeps the dictionary faithful. */
  lemma InsertFresh(rows: seq<Bucket>, txs: seq<Transaction>, t: Transaction, d: Dimension)
    requires Faithful(rows, txs, d) && KeyOf(d, t) !in Keys(rows)
    ensures Faithful(Insert(rows, KeyOf(d, t), t), txs + [t], d)
  {
    var key := KeyOf(d, t);
    assert forall i | 0 <= i < |rows| :: rows[i].key != key by {
      forall i | 0 <= i < |rows|
        ensures rows[i].key != key
      {
        assert rows[i].key in Keys(rows);
      }
    }
    InsertAbsent(rows, key, t);
    var rows' := rows + [Bump(Empty(key), t)];
    OccurringSnoc(txs, t, d);
    EntryNone(txs, d, key);
    assert Keys(rows') == Keys(rows) + {key} by {
      forall k | k in Keys(rows')
        ensures k in Keys(rows) + {key}
      {
        var i :| 0 <= i < |rows'| && rows'[i].key == k;
        if i < |rows| {
          assert rows'[i] == rows[i];
        }
      }
      forall k | k in Keys(rows)
        ensures k in Keys(rows')
      {
        var i :| 0 <= i < |rows| && rows[i].key == k;
        assert rows'[i] == rows[i];
      }
      assert rows'[|rows|].key == key;
    }
    forall i | 0 <= i < |rows'|
      ensures rows'[i] == Entry(txs + [t], d, rows'[i].key)
    {
      if i < |rows| {
        assert rows'[i] == rows[i];
        EntrySnoc(txs, t, d, rows[i].key);
      } else {
        EntrySnoc(txs, t, d, key);
      }
    }
  }

  /** The dictionary built over any list of transactions is faithful to it. */
  lemma {:induction false} GroupedFaithful(txs: seq<Transaction>, d: Dimension)
    ensures Faithful(Grouped(txs, d), txs, d)
  {
    if |txs| == 0 {
      assert Occurring(txs, d) == {};
    } else {
      var n := |txs| - 1;
      var rows, t := Grouped(txs[..n], d), txs[n];
      GroupedFaithful(txs[..n], d);
      assert txs[..n] + [t] == txs;
      if KeyOf(d, t) in Keys(rows) {
        var j :| 0 <= j < |rows| && rows[j].key == KeyOf(d, t);
        InsertKnown(rows, txs[..n], t, d, j);
      } else {
        InsertFresh(rows, txs[..n], t, d);
      }
    }
  }

  /** The fraud counts and normal counts of a list split it. */
  lemma {:induction false} SplitCounts(txs: seq<Transaction>)
    ensures |Fraudulent(txs)| + |Normal(txs)| == |txs|
  {
    if |txs| > 0 {
      SplitCounts(txs[..|txs| - 1]);
    }
  }

  /**
   * The split keeps exactly the transactions it should: the fraudulent list
   * holds the input's transactions with a non-empty label and the normal list
   * the others, and every input transaction lands in the list its label
   * selects.
   */
  lemma {:induction false} SplitMembers(txs: seq<Transaction>)
    ensures forall t | t in Fraudulent(txs) :: t in txs && IsFraud(t)
    ensures forall t | t in Normal(txs) :: t in txs && !IsFraud(t)
    ensures forall t | t in txs :: (IsFraud(t) ==> t in Fraudulent(txs)) && (!IsFraud(t) ==> t in Normal(txs))
  {
    if |txs| > 0 {
      var n := |txs| - 1;
      SplitMembers(txs[..n]);
      assert txs == txs[..n] + [txs[n]];
    }
  }

  /** The totals of the dictionary over `txs` add up to `|txs|`, and its fraud counts to the fraud count. */
  lemma {:induction false} GroupedSums(txs: seq<Transaction>, d: Dimension)
    ensures SumTotals(Grouped(txs, d)) == |txs|
    ensures SumFraud(Grouped(txs, d)) == |Fraudulent(txs)|
  {
    if |txs| > 0 {
      var n := |txs| - 1;
      GroupedSums(txs[..n], d);
      InsertSums(Grouped(txs[..n], d), KeyOf(d, txs[n]), txs[n]);
    }
  }

  /** A dictionary with distinct keys has as many keys as entries. */
  lemma {:induction false} KeysCount(rows: seq<Bucket>)
    requires KeysDistinct(rows)
    ensures |Keys(rows)| == |rows|
  {
    if |rows| > 0 {
      var n := |rows| - 1;
      var init := rows[..n];
      assert KeysDistinct(init) by {
        forall i, j | 0 <= i < j < n
          ensures init[i].key != init[j].key
        {
          assert init[i] == rows[i] && init[j] == rows[j];
        }
      }
      KeysCount(init);
      assert Keys(rows) == Keys(init) + {rows[n].key} by {
        forall k | k in Keys(rows)
          ensures k in Keys(init) + {rows[n].key}
        {
          var i :| 0 <= i < |rows| && rows[i].key == k;
          if i < n {
            assert init[i] == rows[i];
          }
        }
        forall k | k in Keys(init)
          ensures k in Keys(rows)
        {
          var i :| 0 <= i < n && init[i].key == k;
          assert init[i] == rows[i];
        }
      }
      assert rows[n].key !in Keys(init) by {
        forall i | 0 <= i < n
          ensures init[i].key != rows[n].key
        {
          assert init[i] == rows[i];
        }
      }
    }
  }

  /** A key's fraud count never exceeds its count, and a key that occurs counts at least one transaction. */
  lemma {:induction false} EntryBounds(txs: seq<Transaction>, d: Dimension, key: string)
    ensures KeyFraud(txs, d, key) <= KeyCount(txs, d, key)
    ensures key in Occurring(txs, d) ==> KeyCount(txs, d, key) >= 1
  {
    if |txs| > 0 {
      var n := |txs| - 1;
      EntryBounds(txs[..n], d, key);
      if key in Occurring(txs, d) && KeyOf(d, txs[n]) != key {
        var k :| 0 <= k < |txs| && KeyOf(d, txs[k]) == key;
        assert txs[..n][k] == txs[k];
      }
    }
  }

  /**
   * A statistics dictionary over `txs` (app.py:444-471): each key once,
   * exactly the keys occurring, as many entries as distinct keys; each entry
   * counts the transactions with its key (at least one), how many of them are
   * fraudulent (no more than the total) and their amount; the totals add up
   * to the number of transactions and the fraud counts to the fraud count.
   */
  lemma GroupedFacts(txs: seq<Transaction>, d: Dimension)
    ensures KeysDistinct(Grouped(txs, d)) && Keys(Grouped(txs, d)) == Occurring(txs, d)
    ensures |Grouped(txs, d)| == |Occurring(txs, d)|
    ensures forall j | 0 <= j < |Grouped(txs, d)| :: Grouped(txs, d)[j] == Entry(txs, d, Grouped(txs, d)[j].key)
    ensures forall j | 0 <= j < |Grouped(txs, d)| :: 1 <= Grouped(txs, d)[j].total && Grouped(txs, d)[j].fraud <= Grouped(txs, d)[j].total
    ensures SumTotals(Grouped(txs, d)) == |txs| && SumFraud(Grouped(txs, d)) == |Fraudulent(txs)|
  {
    var rows := Grouped(txs, d);
    GroupedFaithful(txs, d);
    KeysCount(rows);
    GroupedSums(txs, d);
    forall j | 0 <= j < |rows|
      ensures 1 <= rows[j].total && rows[j].fraud <= rows[j].total
    {
      assert rows[j].key in Keys(rows);
      EntryBounds(txs, d, rows[j].key);
    }
  }

  /** The rows of a dictionary add up to its totals. */
  lemma {:induction false} RowTotalsOf(rows: seq<Bucket>)
    ensures RowTotals(Breakdowns(rows)) == SumTotals(rows)
  {
    if |rows| > 0 {
      RowTotalsOf(rows[1..]);
      assert Breakdowns(rows)[1..] == Breakdowns(rows[1..]);
    }
  }

  /** The pattern rows of a dictionary add up to its totals. */
  lemma {:induction false} PatternTotalOf(rows: seq<Bucket>)
    ensures PatternTotal(PatternRows(rows)) == SumTotals(rows)
  {
    if |rows| > 0 {
      PatternTotalOf(rows[1..]);
      assert PatternRows(rows)[1..] == PatternRows(rows[1..]);
    }
  }

  // Lemmas about the report

  /**
   * The summary's counts (app.py:439-441, 480-483, 490): the fraudulent and
   * normal counts split the total by whether `fraud_pattern` is set and
   * non-empty, the fraud rate is the fraudulent count over the total, and
   * `unique_users` is the number of users.
   */
  lemma SummaryCounts(txs: seq<Transaction>, userCount: nat)
    requires |txs| > 0
    ensures SummaryOf(txs, userCount).totalTransactions == |txs|
    ensures SummaryOf(txs, userCount).fraudulentTransactions == |Fraudulent(txs)|
    ensures SummaryOf(txs, userCount).fraudulentTransactions + SummaryOf(txs, userCount).normalTransactions == |txs|
    ensures SummaryOf(txs, userCount).fraudRate ==
            SummaryOf(txs, userCount).fraudulentTransactions as real / SummaryOf(txs, userCount).totalTransactions as real
    ensures SummaryOf(txs, userCount).uniqueUsers == userCount
  {
    SplitCounts(txs);
  }

  /** The summary's `unique_locations` is the number of rows of the location analysis (app.py:493). */
  lemma SummaryLocations(txs: seq<Transaction>, userCount: nat)
    requires |txs| > 0
    ensures SummaryOf(txs, userCount).uniqueLocations == |Breakdowns(Grouped(txs, ByCity))|
  {
    GroupedFacts(txs, ByCity);
  }

  /**
   * The location and payment method analyses (app.py:452-471, 495-517): the
   * keys are exactly the cities (payment methods) occurring, each once; each
   * row counts the transactions with its key, at least one, and the
   * fraudulent ones among them, no more than the total; the rows' totals add
   * up to the number of transactions.
   */
  lemma BreakdownFacts(txs: seq<Transaction>, d: Dimension)
    ensures var rs := Breakdowns(Grouped(txs, d));
      (forall i, j | 0 <= i < j < |rs| :: rs[i].key != rs[j].key) &&
      (set j | 0 <= j < |rs| :: rs[j].key) == Occurring(txs, d) &&
      (forall j | 0 <= j < |rs| :: rs[j].totalTransactions == KeyCount(txs, d, rs[j].key) &&
                                   rs[j].fraudTransactions == KeyFraud(txs, d, rs[j].key) &&
                                   1 <= rs[j].totalTransactions && rs[j].fraudTransactions <= rs[j].totalTransactions) &&
      RowTotals(rs) == |txs|
  {
    var rows := Grouped(txs, d);
    GroupedFacts(txs, d);
    RowTotalsOf(rows);
    var rs := Breakdowns(rows);
    assert (set j | 0 <= j < |rs| :: rs[j].key) == Keys(rows) by {
      forall k | k in Keys(rows)
        ensures k in (set j | 0 <= j < |rs| :: rs[j].key)
      {
        var i :| 0 <= i < |rows| && rows[i].key == k;
        assert rs[i].key == k;
      }
    }
  }

  /**
   * The pattern analysis (app.py:444-449): one row per pattern label
   * occurring among the fraudulent transactions, each once, each counting
   * the fraudulent transactions with that label; the counts add up to the
   * number of fraudulent transactions.
   */
  lemma PatternFacts(txs: seq<Transaction>)
    ensures var ps := PatternRows(Grouped(Fraudulent(txs), ByPattern));
      (forall i, j | 0 <= i < j < |ps| :: ps[i].pattern != ps[j].pattern) &&
      (set j | 0 <= j < |ps| :: ps[j].pattern) == Occurring(Fraudulent(txs), ByPattern) &&
      (forall j | 0 <= j < |ps| :: ps[j].count == KeyCount(Fraudulent(txs), ByPattern, ps[j].pattern) && ps[j].count >= 1) &&
      PatternTotal(ps) == |Fraudulent(txs)|
  {
    var fraud := Fraudulent(txs);
    var rows := Grouped(fraud, ByPattern);
    GroupedFacts(fraud, ByPattern);
    PatternTotalOf(rows);
    var ps := PatternRows(rows);
    assert (set j | 0 <= j < |ps| :: ps[j].pattern) == Keys(rows) by {
      forall k | k in Keys(rows)
        ensures k in (set j | 0 <= j < |ps| :: ps[j].pattern)
      {
        var i :| 0 <= i < |rows| && rows[i].key == k;
        assert ps[i].pattern == k;
      }
    }
  }

  /** The pattern table never has the empty label as a key: its keys are the labels of fraudulent transactions. */
  lemma PatternLabels(txs: seq<Transaction>)
    ensures var ps := PatternRows(Grouped(Fraudulent(txs), ByPattern));
      forall j | 0 <= j < |ps| :: ps[j].pattern != "" && exists t | t in txs :: t.fraudPattern == Some(ps[j].pattern)
  {
    var fraud := Fraudulent(txs);
    var ps := PatternRows(Grouped(fraud, ByPattern));
    PatternFacts(txs);
    SplitMembers(txs);
    forall j | 0 <= j < |ps|
      ensures ps[j].pattern != "" && exists t | t in txs :: t.fraudPattern == Some(ps[j].pattern)
    {
      assert ps[j].pattern in Occurring(fraud, ByPattern);
      var k :| 0 <= k < |fraud| && KeyOf(ByPattern, fraud[k]) == ps[j].pattern;
      assert fraud[k] in fraud;
    }
  }
}
