/**
 * Choosing and running an attack for one fraudulent unit of a run
 * (app.py:393-414): the pattern list, the pattern drawn from it, the
 * generator and the batch size range each pattern gets.
 */
module Dispatch {
  import opened Wrappers
  import opened Numeric
  import opened Domain
  import opened Pools
  import opened Users
  import opened Generators

  /**
   * Why a run's thread dies: `FraudPattern(name)` raising ValueError for a
   * name that is not a pattern value, or `random.choice([])` raising IndexError.
   */
  datatype RunError = UnknownPattern(name: string) | EmptyChoice

  /** The configured names, `[pattern.value for pattern in FraudPattern]` when none are given. */
  function PatternNames(configured: Option<seq<string>>): (names: seq<string>)
    ensures configured.Some? ==> names == configured.value
    ensures configured.None? ==> |names| == 8 && forall p: FraudPattern :: Value(p) in names
  {
    match configured
    case Some(names) => names
    case None => AllValues
  }

  /** `[FraudPattern(p) for p in names]`: fails on the first name that is not a value. */
  function ParseAll(names: seq<string>): (r: Result<seq<FraudPattern>, RunError>)
    ensures r.Success? ==> |r.value| == |names| && forall k | 0 <= k < |names| :: Value(r.value[k]) == names[k]
    ensures r.Failure? ==> exists k | 0 <= k < |names| :: Parse(names[k]).None? && r.error == UnknownPattern(names[k])
    ensures r.Success? <==> forall k | 0 <= k < |names| :: Parse(names[k]).Some?
  {
    if |names| == 0 then Success([])
    else match Parse(names[0])
      case None => Failure(UnknownPattern(names[0]))
      case Some(first) =>
        var rest := ParseAll(names[1..]);
        if rest.Failure? then
          assert forall k | 0 <= k < |names| - 1 :: names[1..][k] == names[k + 1];
          rest
        else
          assert forall k | 0 <= k < |names| - 1 :: names[1..][k] == names[k + 1];
          Success([first] + rest.value)
  }

  /** The patterns a fraudulent unit draws from (app.py:396-399). */
  function PatternChoices(names: seq<string>): Result<seq<FraudPattern>, RunError>
  {
    if Value(MixedPatterns) in names then Success(NonMixed) else ParseAll(names)
  }

  /** `random.choice(choices)` with the drawn position; IndexError on an empty list. */
  function Choose(choices: seq<FraudPattern>, idx: nat): (r: Result<FraudPattern, RunError>)
    requires |choices| == 0 || idx < |choices|
    ensures r.Failure? <==> |choices| == 0
    ensures r.Failure? ==> r.error == EmptyChoice
    ensures r.Success? ==> r.value in choices
  {
    if |choices| == 0 then Failure(EmptyChoice) else Success(choices[idx])
  }

  /** The generator each pattern dispatches to: velocity attack, account takeover and mixed fall through to rapid fire. */
  function Generator(p: FraudPattern): (g: FraudPattern)
    ensures p in {RapidFire, GeographicHopping, DeviceSpoofing, AmountEscalation, MerchantCycling} ==> g == p
    ensures p !in {RapidFire, GeographicHopping, DeviceSpoofing, AmountEscalation, MerchantCycling} ==> g == RapidFire
  {
    match p
    case GeographicHopping => GeographicHopping
    case DeviceSpoofing => DeviceSpoofing
    case AmountEscalation => AmountEscalation
    case MerchantCycling => MerchantCycling
    case _ => RapidFire
  }

  /** The `randint` bounds of the batch size for each pattern (app.py:402-412). */
  function CountRange(p: FraudPattern): (range: (nat, nat))
    ensures 3 <= range.0 <= range.1 <= 15
  {
    match p
    case GeographicHopping => (3, 7)
    case DeviceSpoofing => (4, 10)
    case AmountEscalation => (4, 8)
    case MerchantCycling => (6, 12)
    case _ => (5, 15)
  }

  /** The draws of a batch are those the pattern's generator expects for `count` transactions. */
  predicate BatchDrawOk(p: Pools, u: User, pattern: FraudPattern, count: nat, bd: BatchDraw)
  {
    var g := Generator(pattern);
    CountRange(pattern).0 <= count <= CountRange(pattern).1 &&
    if g == GeographicHopping then
      bd.deviceIdx < |u.devices| &&
      |bd.sample| == MinInt(count, |p.locations|) && IsSample(bd.sample, |p.locations|) &&
      |bd.items| == |bd.sample| && (forall k | 0 <= k < |bd.items| :: GeoHoppingDrawOk(p, u, bd.items[k]))
    else if g == DeviceSpoofing then
      |bd.items| == count && (forall k | 0 <= k < count :: DeviceSpoofingDrawOk(p, u, bd.items[k]))
    else if g == AmountEscalation then
      bd.deviceIdx < |u.devices| &&
      |bd.items| == count && (forall k | 0 <= k < count :: AmountEscalationDrawOk(p, u, bd.items[k]))
    else if g == MerchantCycling then
      bd.deviceIdx < |u.devices| &&
      |bd.sample| == MinInt(count, |p.merchantIds|) && IsSample(bd.sample, |p.merchantIds|) &&
      |bd.items| == |bd.sample| && (forall k | 0 <= k < |bd.items| :: MerchantCyclingDrawOk(p, u, bd.items[k]))
    else
      bd.deviceIdx < |u.devices| &&
      |bd.items| == count && (forall k | 0 <= k < count :: RapidFireDrawOk(p, u, bd.items[k]))
  }

  /**
   * The `if pattern == ...` chain of a fraudulent unit: runs the pattern's
   * generator. The batch has exactly `count` transactions, all of the user and
   * labelled with the generator's pattern.
   */
  method GenerateBatch(p: Pools, u: User, pattern: FraudPattern, count: nat, bd: BatchDraw) returns (txs: seq<Transaction>)
    requires ValidPools(p) && ValidUser(p, u)
    requires BatchDrawOk(p, u, pattern, count, bd)
    ensures |txs| == count && CountRange(pattern).0 <= |txs| <= CountRange(pattern).1
    ensures Labelled(txs, u.userId, Label(Generator(pattern)))
    ensures forall k | 0 <= k < |txs| :: IsFraud(txs[k])
  {
    var g := Generator(pattern);
    if g == GeographicHopping {
      txs := GeographicHoppingAttack(p, u, count, bd);
    } else if g == DeviceSpoofing {
      txs := DeviceSpoofingAttack(p, u, count, bd);
    } else if g == AmountEscalation {
      txs := AmountEscalationAttack(p, u, count, bd);
    } else if g == MerchantCycling {
      txs := MerchantCyclingAttack(p, u, count, bd);
    } else {
      txs := RapidFireAttack(p, u, count, bd);
    }
  }

  /** A pattern's value is never the empty string, so every labelled transaction counts as fraud. */
  lemma LabelIsFraud(p: FraudPattern, t: Transaction)
    requires t.fraudPattern == Label(p)
    ensures IsFraud(t)
  {
  }

  /** Parsing the values of a list of patterns gives the list back. */
  lemma {:induction false} ParseAllValues(names: seq<string>, ps: seq<FraudPattern>)
    requires |names| == |ps| && forall k | 0 <= k < |ps| :: names[k] == Value(ps[k])
    ensures ParseAll(names) == Success(ps)
  {
    if |ps| > 0 {
      ParseValue(ps[0]);
      ParseAllValues(names[1..], ps[1..]);
      assert ps == [ps[0]] + ps[1..];
    }
  }

  /**
   * Mixed is never drawn: with `mixed_patterns` configured the choices are
   * the seven other members, and without it no parsed name is mixed.
   */
  lemma ChoicesNeverMixed(names: seq<string>)
    requires PatternChoices(names).Success?
    ensures MixedPatterns !in PatternChoices(names).value
  {
    if Value(MixedPatterns) !in names {
      var cs := ParseAll(names).value;
      forall k | 0 <= k < |cs|
        ensures cs[k] != MixedPatterns
      {
        assert Value(cs[k]) == names[k];
      }
    }
  }

  /**
   * With `mixed_patterns` among the names (as in the default list), all seven
   * other members are candidates, including velocity attack and account
   * takeover, which both run the rapid-fire generator.
   */
  lemma MixedExpandsToSeven(names: seq<string>)
    requires Value(MixedPatterns) in names
    ensures PatternChoices(names) == Success(NonMixed) && |NonMixed| == 7
    ensures forall p: FraudPattern :: p != MixedPatterns <==> p in NonMixed
    ensures Generator(VelocityAttack) == RapidFire && Generator(AccountTakeover) == RapidFire
  {
  }

  /** With no configured list every unit draws from the seven non-mixed members. */
  lemma DefaultChoices()
    ensures PatternChoices(PatternNames(None)) == Success(NonMixed)
  {
    assert AllValues[7] == Value(MixedPatterns);
  }

  /** An empty configured list leaves nothing to choose from, so the first fraudulent unit fails. */
  lemma EmptyListFails(idx: nat)
    ensures PatternChoices(PatternNames(Some([]))) == Success([])
    ensures Choose(PatternChoices(PatternNames(Some([]))).value, idx) == Failure(EmptyChoice)
  {
  }

  /** A single configured pattern other than mixed is drawn every time. */
  lemma SinglePatternChosen(p: FraudPattern)
    requires p != MixedPatterns
    ensures PatternChoices([Value(p)]) == Success([p])
    ensures Choose(PatternChoices([Value(p)]).value, 0) == Success(p)
  {
    ParseValue(p);
    ParseValue(MixedPatterns);
    assert Value(MixedPatterns) !in [Value(p)];
    ParseAllValues([Value(p)], [p]);
  }
}
