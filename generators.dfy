/**
 * Transaction generators: `generate_normal_transaction` (app.py:168-201) and
 * the five attack generators (app.py:203-357). Each generator reads the pools
 * and one user and returns a list of transactions; none changes the simulator.
 */
module Generators {
  import opened Wrappers
  import opened Numeric
  import opened Domain
  import opened Pools
  import opened Users

  /**
   * The random choices behind one transaction: the uuid and the Faker IPv4
   * string, a drawn amount (`uniform` or the Gaussian), the `randint` time
   * step, and the positions chosen among merchants, categories, payment
   * methods, locations, currencies and devices, the `random()` roll, a
   * fresh device fingerprint's draw and the drawn risk score. Each generator
   * uses the fields it needs.
   */
  datatype ItemDraw = ItemDraw(
    transactionId: string,
    ipAddress: string,
    amount: real,
    step: int,
    merchantIdx: nat,
    categoryIdx: nat,
    paymentIdx: nat,
    locationIdx: nat,
    currencyIdx: nat,
    deviceIdx: nat,
    roll: real,
    device: DeviceDraw,
    riskScore: real)

  /**
   * The random choices behind one batch: its base time `datetime.utcnow()`
   * in seconds, the position of the batch's device among the user's devices,
   * the `random.sample` positions (of locations or of merchant keys), and one
   * item draw per transaction.
   */
  datatype BatchDraw = BatchDraw(now: int, deviceIdx: nat, sample: seq<nat>, items: seq<ItemDraw>)

  const Seconds: int := 1
  const Minutes: int := 60
  const Hours: int := 3600

  const Currencies: seq<string> := ["USD", "EUR", "GBP", "NGN", "KES", "GHS", "ZAR"]

  /** The label a generator writes into `fraud_pattern`: the pattern's string value. */
  function Label(p: FraudPattern): Option<string>
  {
    Some(Value(p))
  }

  /** Every transaction of `txs` belongs to `userId` and carries `expected`. */
  predicate Labelled(txs: seq<Transaction>, userId: string, expected: Option<string>)
  {
    forall k | 0 <= k < |txs| :: txs[k].userId == userId && txs[k].fraudPattern == expected && txs[k].isSynthetic
  }

  /** Every transaction of `txs` uses `device`. */
  predicate OneDevice(txs: seq<Transaction>, device: string)
  {
    forall k | 0 <= k < |txs| :: txs[k].deviceFingerprint == device
  }

  /** Every transaction of `txs` happens at `home`. */
  predicate AtHome(txs: seq<Transaction>, home: Location)
  {
    forall k | 0 <= k < |txs| :: txs[k].location == home
  }

  // ---------------------------------------------------------------------------
  // Normal transactions
  // ---------------------------------------------------------------------------

  /** The ranges of the draws `generate_normal_transaction` makes. */
  predicate NormalDrawOk(p: Pools, u: User, d: ItemDraw)
  {
    d.merchantIdx < |u.preferredMerchants| &&
    d.deviceIdx < |u.devices| &&
    0.0 <= d.roll < 1.0 &&
    d.locationIdx < |p.locations| &&
    d.paymentIdx < |u.paymentMethods| &&
    d.currencyIdx < |Currencies| &&
    0.1 <= d.riskScore <= 0.3
  }

  /**
   * `generate_normal_transaction`: a preferred merchant and its category, one
   * of the user's devices, the drawn amount rounded to cents but at least 1.0,
   * the home location when the roll is below 0.8, no fraud label.
   */
  function NormalTransaction(p: Pools, u: User, now: int, d: ItemDraw): (t: Transaction)
    requires ValidPools(p) && ValidUser(p, u) && NormalDrawOk(p, u, d)
    ensures t.userId == u.userId && t.isSynthetic && t.timestamp == now
    ensures t.fraudPattern == None && !IsFraud(t)
    ensures t.amount >= 1.0 && (Round2(d.amount) >= 1.0 ==> t.amount == Round2(d.amount))
    ensures 0.1 <= t.riskScore <= 0.3
    ensures t.merchantId in u.preferredMerchants && t.merchantId in p.merchants
    ensures t.merchantCategory == p.merchants[t.merchantId].category
    ensures t.deviceFingerprint in u.devices && t.paymentMethod in u.paymentMethods
    ensures t.currency in Currencies
    ensures t.location in p.locations && (d.roll < 0.8 ==> t.location == u.home)
  {
    var merchantId := u.preferredMerchants[d.merchantIdx];
    var rounded := Round2(d.amount);
    var amount := if 1.0 >= rounded then 1.0 else rounded;
    var location := if d.roll < 0.8 then u.home else p.locations[d.locationIdx];
    Transaction(d.transactionId, u.userId, amount, Currencies[d.currencyIdx], merchantId,
                p.merchants[merchantId].category, now, u.devices[d.deviceIdx], d.ipAddress,
                location, u.paymentMethods[d.paymentIdx], true, None, d.riskScore)
  }

  // ---------------------------------------------------------------------------
  // Rapid fire
  // ---------------------------------------------------------------------------

  const RapidFireCategories: seq<string> := ["online", "retail", "grocery"]

  predicate RapidFireDrawOk(p: Pools, u: User, d: ItemDraw)
  {
    1.0 <= d.amount <= 15.0 && 1 <= d.step <= 5 &&
    d.merchantIdx < |p.merchantIds| && d.categoryIdx < |RapidFireCategories| &&
    d.paymentIdx < |u.paymentMethods| && 0.7 <= d.riskScore <= 0.9
  }

  /** Step `i` of `generate_rapid_fire_attack`. */
  function RapidFireItem(p: Pools, u: User, device: string, now: int, i: nat, d: ItemDraw): (t: Transaction)
    requires ValidPools(p) && RapidFireDrawOk(p, u, d)
    ensures t.userId == u.userId && t.fraudPattern == Label(RapidFire) && t.isSynthetic
    ensures t.deviceFingerprint == device && t.location == u.home && t.currency == "USD"
    ensures 1.0 <= t.amount <= 15.0 && 0.7 <= t.riskScore <= 0.9
    ensures t.merchantId in p.merchants && t.merchantCategory in RapidFireCategories
    ensures t.paymentMethod in u.paymentMethods
    ensures t.timestamp == now + i * d.step * Seconds
  {
    Transaction(d.transactionId, u.userId, d.amount, "USD", p.merchantIds[d.merchantIdx],
                RapidFireCategories[d.categoryIdx], now + i * d.step * Seconds, device, d.ipAddress,
                u.home, u.paymentMethods[d.paymentIdx], true, Label(RapidFire), d.riskScore)
  }

  /** `generate_rapid_fire_attack`: `count` small purchases at home from one of the user's devices. */
  method RapidFireAttack(p: Pools, u: User, count: nat, bd: BatchDraw) returns (txs: seq<Transaction>)
    requires ValidPools(p) && ValidUser(p, u)
    requires bd.deviceIdx < |u.devices|
    requires |bd.items| == count && forall k | 0 <= k < count :: RapidFireDrawOk(p, u, bd.items[k])
    ensures |txs| == count
    ensures forall k | 0 <= k < count :: txs[k] == RapidFireItem(p, u, u.devices[bd.deviceIdx], bd.now, k, bd.items[k])
    ensures Labelled(txs, u.userId, Label(RapidFire))
    ensures OneDevice(txs, u.devices[bd.deviceIdx]) && AtHome(txs, u.home)
  {
    var device := u.devices[bd.deviceIdx];
    txs := [];
    var i := 0;
    while i < count
      invariant 0 <= i <= count && |txs| == i
      invariant forall k | 0 <= k < i :: txs[k] == RapidFireItem(p, u, device, bd.now, k, bd.items[k])
    {
      var t := RapidFireItem(p, u, device, bd.now, i, bd.items[i]);
      txs := txs + [t];
      i := i + 1;
    }
  }

  // ---------------------------------------------------------------------------
  // Geographic hopping
  // ---------------------------------------------------------------------------

  const GeoHoppingCategories: seq<string> := ["hotel", "restaurant", "gas_station"]

  predicate GeoHoppingDrawOk(p: Pools, u: User, d: ItemDraw)
  {
    50.0 <= d.amount <= 500.0 && 5 <= d.step <= 30 &&
    d.merchantIdx < |p.merchantIds| && d.categoryIdx < |GeoHoppingCategories| &&
    d.paymentIdx < |u.paymentMethods| && 0.8 <= d.riskScore <= 0.95
  }

  /** Step `i` of `generate_geographic_hopping`, at the `i`-th sampled location. */
  function GeoHoppingItem(p: Pools, u: User, device: string, now: int, i: nat, location: Location, d: ItemDraw): (t: Transaction)
    requires ValidPools(p) && GeoHoppingDrawOk(p, u, d)
    ensures t.userId == u.userId && t.fraudPattern == Label(GeographicHopping) && t.isSynthetic
    ensures t.deviceFingerprint == device && t.location == location && t.currency == "USD"
    ensures 50.0 <= t.amount <= 500.0 && 0.8 <= t.riskScore <= 0.95
    ensures t.merchantId in p.merchants && t.merchantCategory in GeoHoppingCategories
    ensures t.paymentMethod in u.paymentMethods
    ensures t.timestamp == now + i * d.step * Minutes
  {
    Transaction(d.transactionId, u.userId, d.amount, "USD", p.merchantIds[d.merchantIdx],
                GeoHoppingCategories[d.categoryIdx], now + i * d.step * Minutes, device, d.ipAddress,
                location, u.paymentMethods[d.paymentIdx], true, Label(GeographicHopping), d.riskScore)
  }

  /**
   * `generate_geographic_hopping`: `min(count, 30)` purchases, one per sampled
   * location, so no two in the same city.
   */
  method GeographicHoppingAttack(p: Pools, u: User, count: nat, bd: BatchDraw) returns (txs: seq<Transaction>)
    requires ValidPools(p) && ValidUser(p, u)
    requires bd.deviceIdx < |u.devices|
    requires |bd.sample| == MinInt(count, |p.locations|) && IsSample(bd.sample, |p.locations|)
    requires |bd.items| == |bd.sample| && forall k | 0 <= k < |bd.items| :: GeoHoppingDrawOk(p, u, bd.items[k])
    ensures |txs| == MinInt(count, |p.locations|)
    ensures forall k | 0 <= k < |txs| ::
      txs[k] == GeoHoppingItem(p, u, u.devices[bd.deviceIdx], bd.now, k, p.locations[bd.sample[k]], bd.items[k])
    ensures forall a, b | 0 <= a < b < |txs| :: txs[a].location.city != txs[b].location.city
    ensures Labelled(txs, u.userId, Label(GeographicHopping))
    ensures OneDevice(txs, u.devices[bd.deviceIdx])
  {
    var device := u.devices[bd.deviceIdx];
    var locations := seq(|bd.sample|, k requires 0 <= k < |bd.sample| => p.locations[bd.sample[k]]);
    txs := [];
    var i := 0;
    while i < |locations|
      invariant 0 <= i <= |locations| && |txs| == i
      invariant forall k | 0 <= k < i :: txs[k] == GeoHoppingItem(p, u, device, bd.now, k, locations[k], bd.items[k])
    {
      var t := GeoHoppingItem(p, u, device, bd.now, i, locations[i], bd.items[i]);
      txs := txs + [t];
      i := i + 1;
    }
    forall a, b | 0 <= a < b < |txs|
      ensures txs[a].location.city != txs[b].location.city
    {
      assert txs[a].location == p.locations[bd.sample[a]] && txs[b].location == p.locations[bd.sample[b]];
    }
  }

  // ---------------------------------------------------------------------------
  // Device spoofing
  // ---------------------------------------------------------------------------

  const DeviceSpoofingCategories: seq<string> := ["online", "retail", "electronics"]

  predicate DeviceSpoofingDrawOk(p: Pools, u: User, d: ItemDraw)
  {
    100.0 <= d.amount <= 1000.0 && 10 <= d.step <= 60 &&
    d.merchantIdx < |p.merchantIds| && d.categoryIdx < |DeviceSpoofingCategories| &&
    d.locationIdx < |p.locations| && DeviceDrawOk(d.device) &&
    d.paymentIdx < |u.paymentMethods| && 0.6 <= d.riskScore <= 0.85
  }

  /** Step `i` of `generate_device_spoofing`: a freshly generated fingerprint and a random location. */
  function DeviceSpoofingItem(p: Pools, u: User, now: int, i: nat, d: ItemDraw): (t: Transaction)
    requires ValidPools(p) && DeviceSpoofingDrawOk(p, u, d)
    ensures t.userId == u.userId && t.fraudPattern == Label(DeviceSpoofing) && t.isSynthetic
    ensures t.deviceFingerprint == Fingerprint(d.device) && t.location in p.locations && t.currency == "USD"
    ensures 100.0 <= t.amount <= 1000.0 && 0.6 <= t.riskScore <= 0.85
    ensures t.merchantId in p.merchants && t.merchantCategory in DeviceSpoofingCategories
    ensures t.paymentMethod in u.paymentMethods
    ensures t.timestamp == now + i * d.step * Minutes
  {
    Transaction(d.transactionId, u.userId, d.amount, "USD", p.merchantIds[d.merchantIdx],
                DeviceSpoofingCategories[d.categoryIdx], now + i * d.step * Minutes, Fingerprint(d.device),
                d.ipAddress, p.locations[d.locationIdx], u.paymentMethods[d.paymentIdx], true,
                Label(DeviceSpoofing), d.riskScore)
  }

  /** `generate_device_spoofing`: `count` purchases, each from a newly generated fingerprint. */
  method DeviceSpoofingAttack(p: Pools, u: User, count: nat, bd: BatchDraw) returns (txs: seq<Transaction>)
    requires ValidPools(p) && ValidUser(p, u)
    requires |bd.items| == count && forall k | 0 <= k < count :: DeviceSpoofingDrawOk(p, u, bd.items[k])
    ensures |txs| == count
    ensures forall k | 0 <= k < count :: txs[k] == DeviceSpoofingItem(p, u, bd.now, k, bd.items[k])
    ensures Labelled(txs, u.userId, Label(DeviceSpoofing))
  {
    txs := [];
    var i := 0;
    while i < count
      invariant 0 <= i <= count && |txs| == i
      invariant forall k | 0 <= k < i :: txs[k] == DeviceSpoofingItem(p, u, bd.now, k, bd.items[k])
    {
      var t := DeviceSpoofingItem(p, u, bd.now, i, bd.items[i]);
      txs := txs + [t];
      i := i + 1;
    }
  }

  // ---------------------------------------------------------------------------
  // Amount escalation
  // ---------------------------------------------------------------------------

  const AmountEscalationCategories: seq<string> := ["retail", "electronics", "luxury"]

  predicate AmountEscalationDrawOk(p: Pools, u: User, d: ItemDraw)
  {
    1 <= d.step <= 6 &&
    d.merchantIdx < |p.merchantIds| && d.categoryIdx < |AmountEscalationCategories| &&
    d.paymentIdx < |u.paymentMethods|
  }

  /** `min(0.95, 0.4 + i * 0.1)`, the risk score of step `i`. */
  function EscalationRisk(i: nat): (r: real)
    ensures 0.4 <= r <= 0.95
    ensures r <= 0.4 + 0.1 * i as real
  {
    MinReal(0.95, 0.4 + 0.1 * i as real)
  }

  /** `round(base_amount * 1.5 ** i, 2)`, the amount of step `i`. */
  function EscalationAmount(avg: real, i: nat): (a: real)
    requires avg >= 0.0
    ensures a >= avg - 0.005
  {
    PowAtLeastOne(1.5, i);
    MulAtLeast(Pow(1.5, i), avg, avg);
    Round2(avg * Pow(1.5, i))
  }

  /** Step `i` of `generate_amount_escalation`: the average times `1.5 ** i`, rounded to cents. */
  function AmountEscalationItem(p: Pools, u: User, device: string, now: int, i: nat, d: ItemDraw): (t: Transaction)
    requires ValidPools(p) && u.averageAmount >= 0.0 && AmountEscalationDrawOk(p, u, d)
    ensures t.userId == u.userId && t.fraudPattern == Label(AmountEscalation) && t.isSynthetic
    ensures t.deviceFingerprint == device && t.location == u.home && t.currency == "USD"
    ensures t.amount == EscalationAmount(u.averageAmount, i) && t.riskScore == EscalationRisk(i)
    ensures t.merchantId in p.merchants && t.merchantCategory in AmountEscalationCategories
    ensures t.paymentMethod in u.paymentMethods
    ensures t.timestamp == now + i * d.step * Hours
  {
    Transaction(d.transactionId, u.userId, EscalationAmount(u.averageAmount, i), "USD",
                p.merchantIds[d.merchantIdx], AmountEscalationCategories[d.categoryIdx],
                now + i * d.step * Hours, device, d.ipAddress, u.home, u.paymentMethods[d.paymentIdx],
                true, Label(AmountEscalation), EscalationRisk(i))
  }

  /** `generate_amount_escalation`: `count` purchases at home whose amounts grow by half each step. */
  method AmountEscalationAttack(p: Pools, u: User, count: nat, bd: BatchDraw) returns (txs: seq<Transaction>)
    requires ValidPools(p) && ValidUser(p, u)
    requires bd.deviceIdx < |u.devices|
    requires |bd.items| == count && forall k | 0 <= k < count :: AmountEscalationDrawOk(p, u, bd.items[k])
    ensures |txs| == count
    ensures forall k | 0 <= k < count :: txs[k] == AmountEscalationItem(p, u, u.devices[bd.deviceIdx], bd.now, k, bd.items[k])
    ensures Labelled(txs, u.userId, Label(AmountEscalation))
    ensures OneDevice(txs, u.devices[bd.deviceIdx]) && AtHome(txs, u.home)
  {
    var device := u.devices[bd.deviceIdx];
    txs := [];
    var i := 0;
    while i < count
      invariant 0 <= i <= count && |txs| == i
      invariant forall k | 0 <= k < i :: txs[k] == AmountEscalationItem(p, u, device, bd.now, k, bd.items[k])
    {
      var t := AmountEscalationItem(p, u, device, bd.now, i, bd.items[i]);
      txs := txs + [t];
      i := i + 1;
    }
  }

  /**
   * With an average of at least 10, each escalation step is strictly larger
   * than the one before, even after rounding to cents.
   */
  lemma EscalationAmountsIncrease(avg: real, i: nat)
    requires avg >= 10.0
    ensures EscalationAmount(avg, i) < EscalationAmount(avg, i + 1)
  {
    var x := Pow(1.5, i);
    PowAtLeastOne(1.5, i);
    MulAtLeast(x, avg, 10.0);
    assert avg * Pow(1.5, i + 1) == avg * x + 0.5 * (avg * x);
    Round2Separates(avg * x, avg * Pow(1.5, i + 1));
  }

  /** The escalation risk never decreases from one step to the next, and stops at 0.95 from step 6 on. */
  lemma EscalationRiskMonotone(i: nat, j: nat)
    requires i <= j
    ensures EscalationRisk(i) <= EscalationRisk(j)
    ensures j >= 6 ==> EscalationRisk(j) == 0.95
  {
    assert i as real <= j as real;
  }

  /** The amounts of an escalation batch increase strictly along the batch. */
  lemma EscalationBatchIncreasing(avg: real, txs: seq<Transaction>)
    requires avg >= 10.0
    requires forall k | 0 <= k < |txs| :: txs[k].amount == EscalationAmount(avg, k)
    ensures forall k | 0 <= k < |txs| - 1 :: txs[k].amount < txs[k + 1].amount
  {
    forall k | 0 <= k < |txs| - 1
      ensures txs[k].amount < txs[k + 1].amount
    {
      EscalationAmountsIncrease(avg, k);
    }
  }

  // ---------------------------------------------------------------------------
  // Merchant cycling
  // ---------------------------------------------------------------------------

  predicate MerchantCyclingDrawOk(p: Pools, u: User, d: ItemDraw)
  {
    20.0 <= d.amount <= 200.0 && 2 <= d.step <= 8 &&
    d.paymentIdx < |u.paymentMethods| && 0.5 <= d.riskScore <= 0.8
  }

  /** Step `i` of `generate_merchant_cycling`, at the `i`-th sampled merchant and with its category. */
  function MerchantCyclingItem(p: Pools, u: User, device: string, now: int, i: nat, merchantId: string, d: ItemDraw): (t: Transaction)
    requires ValidPools(p) && merchantId in p.merchants && MerchantCyclingDrawOk(p, u, d)
    ensures t.userId == u.userId && t.fraudPattern == Label(MerchantCycling) && t.isSynthetic
    ensures t.deviceFingerprint == device && t.location == u.home && t.currency == "USD"
    ensures 20.0 <= t.amount <= 200.0 && 0.5 <= t.riskScore <= 0.8
    ensures t.merchantId == merchantId && t.merchantCategory == p.merchants[merchantId].category
    ensures t.paymentMethod in u.paymentMethods
    ensures t.timestamp == now + i * d.step * Minutes
  {
    Transaction(d.transactionId, u.userId, d.amount, "USD", merchantId, p.merchants[merchantId].category,
                now + i * d.step * Minutes, device, d.ipAddress, u.home, u.paymentMethods[d.paymentIdx],
                true, Label(MerchantCycling), d.riskScore)
  }

  /**
   * `generate_merchant_cycling`: `min(count, 1000)` purchases, one per sampled
   * merchant key, so no merchant twice.
   */
  method MerchantCyclingAttack(p: Pools, u: User, count: nat, bd: BatchDraw) returns (txs: seq<Transaction>)
    requires ValidPools(p) && ValidUser(p, u)
    requires bd.deviceIdx < |u.devices|
    requires |bd.sample| == MinInt(count, |p.merchantIds|) && IsSample(bd.sample, |p.merchantIds|)
    requires |bd.items| == |bd.sample| && forall k | 0 <= k < |bd.items| :: MerchantCyclingDrawOk(p, u, bd.items[k])
    ensures |txs| == MinInt(count, |p.merchantIds|)
    ensures forall k | 0 <= k < |txs| ::
      txs[k] == MerchantCyclingItem(p, u, u.devices[bd.deviceIdx], bd.now, k, p.merchantIds[bd.sample[k]], bd.items[k])
    ensures forall a, b | 0 <= a < b < |txs| :: txs[a].merchantId != txs[b].merchantId
    ensures Labelled(txs, u.userId, Label(MerchantCycling))
    ensures OneDevice(txs, u.devices[bd.deviceIdx]) && AtHome(txs, u.home)
  {
    var device := u.devices[bd.deviceIdx];
    var merchants := seq(|bd.sample|, k requires 0 <= k < |bd.sample| => p.merchantIds[bd.sample[k]]);
    txs := [];
    var i := 0;
    while i < |merchants|
      invariant 0 <= i <= |merchants| && |txs| == i
      invariant forall k | 0 <= k < i :: txs[k] == MerchantCyclingItem(p, u, device, bd.now, k, merchants[k], bd.items[k])
    {
      var t := MerchantCyclingItem(p, u, device, bd.now, i, merchants[i], bd.items[i]);
      txs := txs + [t];
      i := i + 1;
    }
  }
}
