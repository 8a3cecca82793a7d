/** The simulator's value types: fraud patterns, locations and transactions. */
module Domain {
  import opened Wrappers

  /** `FraudPattern` (app.py:22-30), in declaration order. */
  datatype FraudPattern =
    | RapidFire
    | GeographicHopping
    | DeviceSpoofing
    | AmountEscalation
    | MerchantCycling
    | VelocityAttack
    | AccountTakeover
    | MixedPatterns

  /** The enum member's string value. */
  function Value(p: FraudPattern): string
  {
    match p
    case RapidFire => "rapid_fire"
    case GeographicHopping => "geographic_hopping"
    case DeviceSpoofing => "device_spoofing"
    case AmountEscalation => "amount_escalation"
    case MerchantCycling => "merchant_cycling"
    case VelocityAttack => "velocity_attack"
    case AccountTakeover => "account_takeover"
    case MixedPatterns => "mixed_patterns"
  }

  /** `FraudPattern(s)`: the member whose value is `s`, or None where Python raises ValueError. */
  function Parse(s: string): (r: Option<FraudPattern>)
    ensures r.Some? ==> Value(r.value) == s
  {
    if s == "rapid_fire" then Some(RapidFire)
    else if s == "geographic_hopping" then Some(GeographicHopping)
    else if s == "device_spoofing" then Some(DeviceSpoofing)
    else if s == "amount_escalation" then Some(AmountEscalation)
    else if s == "merchant_cycling" then Some(MerchantCycling)
    else if s == "velocity_attack" then Some(VelocityAttack)
    else if s == "account_takeover" then Some(AccountTakeover)
    else if s == "mixed_patterns" then Some(MixedPatterns)
    else None
  }

  /** Every member's value parses back to that member. */
  lemma ParseValue(p: FraudPattern)
    ensures Parse(Value(p)) == Some(p)
  {
  }

  /** `[pattern.value for pattern in FraudPattern]`. */
  const AllValues: seq<string> := [
    "rapid_fire", "geographic_hopping", "device_spoofing", "amount_escalation",
    "merchant_cycling", "velocity_attack", "account_takeover", "mixed_patterns"
  ]

  /** `[p for p in FraudPattern if p != FraudPattern.MIXED_PATTERNS]`. */
  const NonMixed: seq<FraudPattern> := [
    RapidFire, GeographicHopping, DeviceSpoofing, AmountEscalation,
    MerchantCycling, VelocityAttack, AccountTakeover
  ]

  /** A location of the pool: its city and country (coordinates and time zone are not modelled). */
  datatype Location = Location(city: string, country: string)

  /** The 30 locations of the pool, in table order. */
  const LocationTable: seq<Location> := [
    Location("Lagos", "Nigeria"),
    Location("Cairo", "Egypt"),
    Location("Kinshasa", "DRC"),
    Location("Johannesburg", "South Africa"),
    Location("Nairobi", "Kenya"),
    Location("Casablanca", "Morocco"),
    Location("Addis Ababa", "Ethiopia"),
    Location("Dar es Salaam", "Tanzania"),
    Location("Accra", "Ghana"),
    Location("Abidjan", "Ivory Coast"),
    Location("New York", "US"),
    Location("London", "UK"),
    Location("Tokyo", "Japan"),
    Location("Sydney", "Australia"),
    Location("Berlin", "Germany"),
    Location("Singapore", "Singapore"),
    Location("Dubai", "UAE"),
    Location("São Paulo", "Brazil"),
    Location("Mumbai", "India"),
    Location("Mexico City", "Mexico"),
    Location("Moscow", "Russia"),
    Location("Paris", "France"),
    Location("Bangkok", "Thailand"),
    Location("Seoul", "South Korea"),
    Location("Jakarta", "Indonesia"),
    Location("Istanbul", "Turkey"),
    Location("Buenos Aires", "Argentina"),
    Location("Toronto", "Canada"),
    Location("Hong Kong", "Hong Kong"),
    Location("Madrid", "Spain")
  ]

  /** No two entries of the table share a city. */
  lemma LocationTableDistinct()
    ensures |LocationTable| == 30
    ensures forall i, j | 0 <= i < j < |LocationTable| :: LocationTable[i].city != LocationTable[j].city
  {
    CitiesDistinctFirstHalf();
    CitiesDistinctSecondHalf();
    CitiesDistinctAcrossHalves();
  }

  lemma CitiesDistinctFirstHalf()
    ensures forall i, j | 0 <= i < j < 15 :: LocationTable[i].city != LocationTable[j].city
  {
  }

  lemma CitiesDistinctSecondHalf()
    ensures forall i, j | 15 <= i < j < 30 :: LocationTable[i].city != LocationTable[j].city
  {
  }

  lemma CitiesDistinctAcrossHalves()
    ensures forall i, j | 0 <= i < 15 <= j < 30 :: LocationTable[i].city != LocationTable[j].city
  {
  }

  /**
   * `Transaction` (app.py:32-47). The timestamp is an offset in seconds from a
   * fixed origin instead of an ISO string; the risk score is always set by the
   * generators, so it is a plain real.
   */
  datatype Transaction = Transaction(
    transactionId: string,
    userId: string,
    amount: real,
    currency: string,
    merchantId: string,
    merchantCategory: string,
    timestamp: int,
    deviceFingerprint: string,
    ipAddress: string,
    location: Location,
    paymentMethod: string,
    isSynthetic: bool,
    fraudPattern: Option<string>,
    riskScore: real)

  /** Python truthiness of `t.fraud_pattern`: set and not the empty string. */
  predicate IsFraud(t: Transaction)
  {
    t.fraudPattern.Some? && t.fraudPattern.value != ""
  }
}
