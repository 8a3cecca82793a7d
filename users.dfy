/** Synthetic users: `_generate_user` (app.py:146-166) and the field bounds it applies. */
module Users {
  import opened Domain
  import opened Pools

  /**
   * A user profile. `home` is one of the pool's locations; `devices` and
   * `preferredMerchants` are samples of the device pool and of the merchant keys.
   */
  datatype User = User(
    userId: string,
    name: string,
    email: string,
    phone: string,
    home: Location,
    accountAgeDays: int,
    averageAmount: real,
    preferredMerchants: seq<string>,
    riskProfile: string,
    devices: seq<string>,
    paymentMethods: seq<string>)

  /**
   * The random choices behind one user: the uuid and the Faker strings, the
   * home location's index, the account age, the average amount, the sampled
   * positions of merchant keys and of devices, and the risk profile's index.
   */
  datatype UserDraw = UserDraw(
    userId: string,
    name: string,
    email: string,
    phone: string,
    homeIdx: nat,
    accountAgeDays: int,
    averageAmount: real,
    merchantSample: seq<nat>,
    riskIdx: nat,
    deviceSample: seq<nat>)

  /** `random.sample` positions: pairwise distinct and below `bound`. */
  predicate IsSample(s: seq<nat>, bound: nat)
  {
    (forall i | 0 <= i < |s| :: s[i] < bound) &&
    (forall i, j | 0 <= i < j < |s| :: s[i] != s[j])
  }

  /** The ranges of `randint(30, 1095)`, `uniform(10, 1000)`, `randint(5, 20)`, `randint(1, 5)` and of the choices. */
  predicate UserDrawOk(p: Pools, d: UserDraw)
  {
    d.homeIdx < |p.locations| &&
    30 <= d.accountAgeDays <= 1095 &&
    10.0 <= d.averageAmount <= 1000.0 &&
    5 <= |d.merchantSample| <= 20 && IsSample(d.merchantSample, |p.merchantIds|) &&
    d.riskIdx < |RiskLevels| &&
    1 <= |d.deviceSample| <= 5 && IsSample(d.deviceSample, |p.devicePool|)
  }

  /**
   * What every generator relies on about a user: a home in the pool, at least
   * one preferred merchant, all of them keys of the merchant dictionary, at
   * least one device and one payment method, and an average of at least 10.
   */
  predicate ValidUser(p: Pools, u: User)
  {
    u.home in p.locations &&
    |u.preferredMerchants| >= 1 &&
    (forall k | 0 <= k < |u.preferredMerchants| :: u.preferredMerchants[k] in p.merchants) &&
    |u.devices| >= 1 &&
    |u.paymentMethods| >= 1 &&
    u.averageAmount >= 10.0
  }

  /** The user record `_generate_user` builds from its draws; `BuildUserFacts` gives its fields. */
  function BuildUser(p: Pools, d: UserDraw): (u: User)
    requires ValidPools(p) && UserDrawOk(p, d)
    ensures u.userId == d.userId && ValidUser(p, u)
  {
    var home := p.locations[d.homeIdx];
    var merchants := seq(|d.merchantSample|, k requires 0 <= k < |d.merchantSample| => p.merchantIds[d.merchantSample[k]]);
    var devices := seq(|d.deviceSample|, k requires 0 <= k < |d.deviceSample| => p.devicePool[d.deviceSample[k]]);
    PaymentMethodsRule(home);
    User(d.userId, d.name, d.email, d.phone, home, d.accountAgeDays, d.averageAmount,
         merchants, RiskLevels[d.riskIdx], devices, PaymentMethodsFor(home))
  }

  /**
   * A generated user has the drawn id and home, an account age in
   * [30, 1095], an average in [10, 1000], 5 to 20 distinct preferred
   * merchants taken from the merchant keys, 1 to 5 devices taken from the
   * pool, a risk profile among the risk levels and the payment methods of the
   * home country.
   */
  lemma BuildUserFacts(p: Pools, d: UserDraw)
    requires ValidPools(p) && UserDrawOk(p, d)
    ensures BuildUser(p, d).userId == d.userId && BuildUser(p, d).home == p.locations[d.homeIdx]
    ensures 30 <= BuildUser(p, d).accountAgeDays <= 1095 && 10.0 <= BuildUser(p, d).averageAmount <= 1000.0
    ensures 5 <= |BuildUser(p, d).preferredMerchants| <= 20 && |BuildUser(p, d).preferredMerchants| == |d.merchantSample|
    ensures forall k | 0 <= k < |d.merchantSample| :: BuildUser(p, d).preferredMerchants[k] == p.merchantIds[d.merchantSample[k]]
    ensures forall i, j | 0 <= i < j < |d.merchantSample| :: BuildUser(p, d).preferredMerchants[i] != BuildUser(p, d).preferredMerchants[j]
    ensures 1 <= |BuildUser(p, d).devices| <= 5 && |BuildUser(p, d).devices| == |d.deviceSample|
    ensures forall k | 0 <= k < |d.deviceSample| :: BuildUser(p, d).devices[k] == p.devicePool[d.deviceSample[k]]
    ensures BuildUser(p, d).riskProfile in RiskLevels
    ensures BuildUser(p, d).paymentMethods == PaymentMethodsFor(BuildUser(p, d).home)
  {
  }

  /** `max(50, transactions_per_hour // 10)`: the number of users a run creates. */
  function NumUsers(transactionsPerHour: nat): (n: nat)
    ensures n >= 50 && n >= transactionsPerHour / 10
    ensures n == 50 || n == transactionsPerHour / 10
  {
    if transactionsPerHour / 10 >= 50 then transactionsPerHour / 10 else 50
  }

  /** The identifiers of a list of draws, in order. */
  function DrawIds(ds: seq<UserDraw>): (ids: seq<string>)
    ensures |ids| == |ds| && forall k | 0 <= k < |ds| :: ids[k] == ds[k].userId
  {
    seq(|ds|, k requires 0 <= k < |ds| => ds[k].userId)
  }
}
