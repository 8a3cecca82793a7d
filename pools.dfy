/**
 * Entity pools: device fingerprints, merchants and the location table, and the
 * country rules for payment methods and merchant categories.
 */
module Pools {
  import opened Wrappers
  import opened Domain
  import opened Identifiers
  import opened Dictionaries

  // ---------------------------------------------------------------------------
  // Device fingerprints
  // ---------------------------------------------------------------------------

  const Browsers: seq<string> := ["Chrome", "Firefox", "Safari", "Edge", "Opera", "UC Browser", "Samsung Internet"]
  const OperatingSystems: seq<string> := ["Windows", "MacOS", "Linux", "iOS", "Android", "KaiOS", "Ubuntu Touch"]

  predicate IsHexDigit(c: char)
  {
    '0' <= c <= '9' || 'a' <= c <= 'f'
  }

  /** The random choices behind one fingerprint: a browser, an OS and the first 8 hex digits of a uuid4. */
  datatype DeviceDraw = DeviceDraw(browser: nat, os: nat, hex: string)

  predicate DeviceDrawOk(d: DeviceDraw)
  {
    d.browser < |Browsers| && d.os < |OperatingSystems| && |d.hex| == 8 &&
    forall i | 0 <= i < |d.hex| :: IsHexDigit(d.hex[i])
  }

  /** `_generate_device_fingerprint`: `browser_os_hex`. */
  function Fingerprint(d: DeviceDraw): (f: string)
    requires DeviceDrawOk(d)
    ensures |f| == |Browsers[d.browser]| + |OperatingSystems[d.os]| + 10
  {
    Browsers[d.browser] + "_" + OperatingSystems[d.os] + "_" + d.hex
  }

  /** The part of `s` before its first underscore (all of `s` if it has none). */
  function BeforeUnderscore(s: string): string
  {
    if |s| == 0 || s[0] == '_' then [] else [s[0]] + BeforeUnderscore(s[1..])
  }

  /** The part of `s` after its first underscore (empty if it has none). */
  function AfterUnderscore(s: string): string
  {
    if |s| == 0 then [] else if s[0] == '_' then s[1..] else AfterUnderscore(s[1..])
  }

  /** Splits a fingerprint back into browser, OS and suffix at its first two underscores. */
  function SplitFingerprint(f: string): (string, string, string)
  {
    (BeforeUnderscore(f), BeforeUnderscore(AfterUnderscore(f)), AfterUnderscore(AfterUnderscore(f)))
  }

  lemma {:induction false} SplitAtUnderscore(a: string, rest: string)
    requires '_' !in a
    ensures BeforeUnderscore(a + "_" + rest) == a
    ensures AfterUnderscore(a + "_" + rest) == rest
  {
    if |a| > 0 {
      assert (a + "_" + rest)[1..] == a[1..] + "_" + rest;
      SplitAtUnderscore(a[1..], rest);
    }
  }

  /** A fingerprint determines the browser, the OS and the suffix it was made from. */
  lemma FingerprintRoundTrip(d: DeviceDraw)
    requires DeviceDrawOk(d)
    ensures SplitFingerprint(Fingerprint(d)) == (Browsers[d.browser], OperatingSystems[d.os], d.hex)
  {
    var b, o := Browsers[d.browser], OperatingSystems[d.os];
    assert '_' !in b;
    assert '_' !in o;
    assert b + "_" + o + "_" + d.hex == b + "_" + (o + "_" + d.hex);
    SplitAtUnderscore(b, o + "_" + d.hex);
    SplitAtUnderscore(o, d.hex);
  }

  // ---------------------------------------------------------------------------
  // Country rules
  // ---------------------------------------------------------------------------

  const MerchantCategories: seq<string> := [
    "grocery", "gas_station", "restaurant", "retail", "online",
    "pharmacy", "hotel", "airline", "entertainment", "subscription",
    "utility", "electronics", "jewelry", "automotive", "healthcare",
    "education", "transport", "banking", "insurance", "real_estate", "beauty"
  ]

  const MobileMoneyAgent: string := "mobile_money_agent"

  /** Countries whose merchants draw from the list widened with mobile-money agents. */
  const AgentCountries: seq<string> := ["Ghana", "Kenya", "Tanzania", "Uganda", "Rwanda", "Ivory Coast", "Ethiopia", "Nigeria"]

  /** The list a merchant's category is chosen from, given the merchant's country. */
  function CategoryChoices(country: string): seq<string>
  {
    if country in AgentCountries then MerchantCategories + [MobileMoneyAgent, MobileMoneyAgent, MobileMoneyAgent, MobileMoneyAgent, MobileMoneyAgent]
    else MerchantCategories
  }

  /**
   * The 21 regular categories always come first; agent countries add five
   * `mobile_money_agent` entries (a weight of 5 in 26), other countries none.
   */
  lemma CategoryChoicesRule(country: string)
    ensures |CategoryChoices(country)| >= 21 && CategoryChoices(country)[..21] == MerchantCategories
    ensures country in AgentCountries <==> |CategoryChoices(country)| == 26
    ensures country !in AgentCountries <==> |CategoryChoices(country)| == 21
    ensures forall i | 21 <= i < |CategoryChoices(country)| :: CategoryChoices(country)[i] == MobileMoneyAgent
  {
  }

  /** Mobile-money agents are not among the 21 regular categories. */
  lemma AgentNotRegular()
    ensures MobileMoneyAgent !in MerchantCategories
  {
  }

  const BaseMethods: seq<string> := ["credit_card", "debit_card", "digital_wallet"]

  /** Countries whose users also get mobile money and bank transfer. */
  const MobileMoneyCountries: seq<string> := ["Nigeria", "Kenya", "Ghana", "Tanzania", "Uganda", "Rwanda", "Ivory Coast", "Ethiopia", "South Africa"]

  /** `_get_payment_methods_for_location`. */
  function PaymentMethodsFor(location: Location): seq<string>
  {
    if location.country in MobileMoneyCountries then BaseMethods + ["mobile_money", "bank_transfer"]
    else BaseMethods
  }

  /**
   * Every user gets the three base methods, in order; users of the nine
   * mobile-money countries, and only they, also get mobile money and bank transfer.
   */
  lemma PaymentMethodsRule(location: Location)
    ensures |PaymentMethodsFor(location)| >= 3 && PaymentMethodsFor(location)[..3] == BaseMethods
    ensures location.country in MobileMoneyCountries <==> |PaymentMethodsFor(location)| == 5
    ensures location.country !in MobileMoneyCountries <==> |PaymentMethodsFor(location)| == 3
    ensures location.country in MobileMoneyCountries <==> "mobile_money" in PaymentMethodsFor(location)
    ensures location.country in MobileMoneyCountries <==> "bank_transfer" in PaymentMethodsFor(location)
    ensures location.country in MobileMoneyCountries ==> PaymentMethodsFor(location)[3..] == ["mobile_money", "bank_transfer"]
  {
  }

  // ---------------------------------------------------------------------------
  // Merchants and the pools
  // ---------------------------------------------------------------------------

  const RiskLevels: seq<string> := ["low", "medium", "high"]

  datatype Merchant = Merchant(name: string, category: string, riskLevel: string, location: Location)

  /** The random choices behind one merchant. */
  datatype MerchantDraw = MerchantDraw(locationIdx: nat, categoryIdx: nat, riskIdx: nat, name: string)

  /** The draw picks a location of `locations`, a category of that country's list and a risk level. */
  predicate MerchantDrawOk(locations: seq<Location>, d: MerchantDraw)
  {
    d.locationIdx < |locations| &&
    d.categoryIdx < |CategoryChoices(locations[d.locationIdx].country)| &&
    d.riskIdx < |RiskLevels|
  }

  predicate ValidMerchant(locations: seq<Location>, m: Merchant)
  {
    m.location in locations &&
    m.category in CategoryChoices(m.location.country) &&
    m.riskLevel in RiskLevels
  }

  /** One iteration of the merchant loop (app.py:113-127). */
  function BuildMerchant(locations: seq<Location>, d: MerchantDraw): (m: Merchant)
    requires MerchantDrawOk(locations, d)
    ensures ValidMerchant(locations, m)
    ensures m.category == MobileMoneyAgent ==> m.location.country in AgentCountries
    ensures m.location == locations[d.locationIdx] && m.name == d.name
  {
    var location := locations[d.locationIdx];
    var category := CategoryChoices(location.country)[d.categoryIdx];
    AgentNotRegular();
    Merchant(d.name, category, RiskLevels[d.riskIdx], location)
  }

  const DevicePoolSize: nat := 10000
  const MerchantPoolSize: nat := 1000

  /**
   * The pools owned by the simulator for its lifetime: `device_pool`,
   * `locations`, and `merchants` with its key order `merchantIds`
   * (`list(self.merchants.keys())`).
   */
  datatype Pools = Pools(devicePool: seq<string>, locations: seq<Location>, merchantIds: seq<string>, merchants: map<string, Merchant>)

  /**
   * What the rest of the simulator relies on: 10000 devices, 30 locations with
   * distinct cities, 1000 distinct merchant keys in insertion order, and a
   * merchant dictionary whose keys are exactly those, each merchant located
   * in one of the pool's locations.
   */
  ghost predicate ValidPools(p: Pools)
  {
    |p.devicePool| == DevicePoolSize &&
    |p.locations| == 30 &&
    (forall i, j | 0 <= i < j < |p.locations| :: p.locations[i].city != p.locations[j].city) &&
    |p.merchantIds| == MerchantPoolSize &&
    (forall i, j | 0 <= i < j < |p.merchantIds| :: p.merchantIds[i] != p.merchantIds[j]) &&
    (forall id :: id in p.merchants <==> id in p.merchantIds) &&
    (forall id | id in p.merchants :: p.merchants[id].location in p.locations)
  }

  /** The keys the merchant loop has inserted after `n` iterations, in insertion order. */
  function MerchantKeys(n: nat): (keys: seq<string>)
    requires n <= 1000
    ensures |keys| == n
  {
    if n == 0 then [] else MerchantKeys(n - 1) + [MerchantId(n - 1)]
  }

  lemma {:induction false} MerchantKeysAt(n: nat)
    requires n <= 1000
    ensures forall j | 0 <= j < n :: MerchantKeys(n)[j] == MerchantId(j)
  {
    if n > 0 {
      MerchantKeysAt(n - 1);
    }
  }

  /** The merchant loop of `_initialize_data_pools` (app.py:112-127): keys `merchant_0000` .. `merchant_0999`. */
  method BuildMerchantPool(locations: seq<Location>, merchantDraws: seq<MerchantDraw>) returns (ids: seq<string>, merchants: map<string, Merchant>)
    requires |merchantDraws| == MerchantPoolSize && forall i | 0 <= i < |merchantDraws| :: MerchantDrawOk(locations, merchantDraws[i])
    ensures ids == MerchantKeys(|merchantDraws|)
    ensures merchants == Zip(ids, BuiltMerchants(locations, merchantDraws))
    ensures forall i, j | 0 <= i < j < |ids| :: ids[i] != ids[j]
    ensures forall id :: id in merchants <==> id in ids
    ensures forall id | id in merchants :: merchants[id].location in locations
    ensures forall i | 0 <= i < |merchantDraws| ::
      ids[i] == MerchantId(i) && merchants[MerchantId(i)] == BuildMerchant(locations, merchantDraws[i])
  {
    ghost var built := BuiltMerchants(locations, merchantDraws);
    ids := [];
    merchants := map[];
    var i := 0;
    while i < |merchantDraws|
      invariant 0 <= i <= |merchantDraws|
      invariant ids == MerchantKeys(i)
      invariant merchants == Zip(ids, built[..i])
    {
      var merchantId := MerchantId(i);
      var merchant := BuildMerchant(locations, merchantDraws[i]);
      KeyedStep(built, i);
      merchants := merchants[merchantId := merchant];
      ids := ids + [merchantId];
      i := i + 1;
    }
    assert built[..i] == built;
    KeyedPoolFacts(built);
    BuiltMerchantsLocated(locations, merchantDraws);
    MerchantsLocated(locations, built);
  }

  /** One iteration of the keyed loop stores `vals[i]` under `merchant_<i>`. */
  lemma KeyedStep<V>(vals: seq<V>, i: nat)
    requires i < |vals| && i < MerchantPoolSize
    ensures Zip(MerchantKeys(i + 1), vals[..i + 1]) == Zip(MerchantKeys(i), vals[..i])[MerchantId(i) := vals[i]]
  {
    assert vals[..i + 1] == vals[..i] + [vals[i]];
    ZipSnoc(MerchantKeys(i), vals[..i], MerchantId(i), vals[i]);
  }

  /** The merchant each iteration of the loop builds. */
  function BuiltMerchants(locations: seq<Location>, ds: seq<MerchantDraw>): (ms: seq<Merchant>)
    requires forall i | 0 <= i < |ds| :: MerchantDrawOk(locations, ds[i])
    ensures |ms| == |ds|
  {
    seq(|ds|, i requires 0 <= i < |ds| => BuildMerchant(locations, ds[i]))
  }

  /** The loop never inserts the same key twice. */
  lemma MerchantKeysDistinct(n: nat)
    requires n <= MerchantPoolSize
    ensures forall i, j | 0 <= i < j < n :: MerchantKeys(n)[i] != MerchantKeys(n)[j]
  {
    var ids := MerchantKeys(n);
    MerchantKeysAt(n);
    forall a, b | 0 <= a < b < n
      ensures ids[a] != ids[b]
    {
      MerchantIdDistinct(a, b);
    }
  }

  /** `_initialize_data_pools`: the 10000 devices, the location table and the 1000 merchants. */
  method InitializeDataPools(deviceDraws: seq<DeviceDraw>, merchantDraws: seq<MerchantDraw>) returns (p: Pools)
    requires |deviceDraws| == DevicePoolSize && forall i | 0 <= i < |deviceDraws| :: DeviceDrawOk(deviceDraws[i])
    requires |merchantDraws| == MerchantPoolSize && forall i | 0 <= i < |merchantDraws| :: MerchantDrawOk(LocationTable, merchantDraws[i])
    ensures ValidPools(p)
    ensures p.locations == LocationTable
    ensures p.devicePool == DevicePool(deviceDraws)
    ensures forall i | 0 <= i < |merchantDraws| ::
      p.merchantIds[i] == MerchantId(i) && p.merchants[MerchantId(i)] == BuildMerchant(LocationTable, merchantDraws[i])
  {
    LocationTableDistinct();
    var devicePool := DevicePool(deviceDraws);
    p := AssemblePools(LocationTable, devicePool, merchantDraws);
  }

  /** The device pool: one fingerprint per draw, in order. */
  function DevicePool(deviceDraws: seq<DeviceDraw>): (pool: seq<string>)
    requires forall i | 0 <= i < |deviceDraws| :: DeviceDrawOk(deviceDraws[i])
    ensures |pool| == |deviceDraws|
  {
    seq(|deviceDraws|, i requires 0 <= i < |deviceDraws| => Fingerprint(deviceDraws[i]))
  }

  /** Every device of the pool splits back into its draw's browser, OS and 8-hex suffix. */
  lemma DevicePoolFormat(deviceDraws: seq<DeviceDraw>)
    requires forall i | 0 <= i < |deviceDraws| :: DeviceDrawOk(deviceDraws[i])
    ensures forall i | 0 <= i < |deviceDraws| ::
      var d := deviceDraws[i];
      SplitFingerprint(DevicePool(deviceDraws)[i]) == (Browsers[d.browser], OperatingSystems[d.os], d.hex) &&
      |d.hex| == 8 && forall k | 0 <= k < 8 :: IsHexDigit(d.hex[k])
  {
    forall i | 0 <= i < |deviceDraws|
      ensures SplitFingerprint(DevicePool(deviceDraws)[i]) == (Browsers[deviceDraws[i].browser], OperatingSystems[deviceDraws[i].os], deviceDraws[i].hex)
    {
      FingerprintRoundTrip(deviceDraws[i]);
    }
  }

  /** The merchant loop and the record of the pools, for a given location table and device pool. */
  method AssemblePools(locations: seq<Location>, devicePool: seq<string>, merchantDraws: seq<MerchantDraw>) returns (p: Pools)
    requires |locations| == 30 && forall i, j | 0 <= i < j < |locations| :: locations[i].city != locations[j].city
    requires |devicePool| == DevicePoolSize
    requires |merchantDraws| == MerchantPoolSize && forall i | 0 <= i < |merchantDraws| :: MerchantDrawOk(locations, merchantDraws[i])
    ensures ValidPools(p)
    ensures p.locations == locations && p.devicePool == devicePool
    ensures forall i | 0 <= i < |merchantDraws| ::
      p.merchantIds[i] == MerchantId(i) && p.merchants[MerchantId(i)] == BuildMerchant(locations, merchantDraws[i])
  {
    var ids, merchants := BuildMerchantPool(locations, merchantDraws);
    p := Pools(devicePool, locations, ids, merchants);
  }

  /**
   * What `n` iterations of the keyed loop leave behind: distinct keys
   * `merchant_0000` .. in order, a dictionary with exactly those keys, each
   * holding its own iteration's value, and no value from anywhere else.
   */
  lemma KeyedPoolFacts<V>(vals: seq<V>)
    requires |vals| <= MerchantPoolSize
    ensures forall i, j | 0 <= i < j < |vals| :: MerchantKeys(|vals|)[i] != MerchantKeys(|vals|)[j]
    ensures forall id :: id in Zip(MerchantKeys(|vals|), vals) <==> id in MerchantKeys(|vals|)
    ensures forall id | id in Zip(MerchantKeys(|vals|), vals) :: Zip(MerchantKeys(|vals|), vals)[id] in vals
    ensures forall i | 0 <= i < |vals| ::
      MerchantKeys(|vals|)[i] == MerchantId(i) && Zip(MerchantKeys(|vals|), vals)[MerchantId(i)] == vals[i]
  {
    var n := |vals|;
    var keys := MerchantKeys(n);
    MerchantKeysAt(n);
    MerchantKeysDistinct(n);
    assert Distinct(keys);
    ZipKeys(keys, vals);
    ZipValues(keys, vals);
    ZipRange(keys, vals);
  }

  /** Every merchant the loop builds is located in one of the pool's locations. */
  lemma BuiltMerchantsLocated(locations: seq<Location>, ds: seq<MerchantDraw>)
    requires forall i | 0 <= i < |ds| :: MerchantDrawOk(locations, ds[i])
    ensures forall m | m in BuiltMerchants(locations, ds) :: m.location in locations
  {
  }

  /** A dictionary built from located merchants holds only located merchants. */
  lemma MerchantsLocated(locations: seq<Location>, built: seq<Merchant>)
    requires |built| <= MerchantPoolSize
    requires forall m | m in built :: m.location in locations
    ensures forall id | id in Zip(MerchantKeys(|built|), built) :: Zip(MerchantKeys(|built|), built)[id].location in locations
  {
    ZipRange(MerchantKeys(|built|), built);
  }
}
