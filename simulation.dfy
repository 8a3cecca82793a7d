/**
 * The simulator object and its session transitions: construction, user
 * creation, `run_simulation` (app.py:359-432), `stop_simulation`
 * (app.py:520-522), the start guard of the run route (app.py:542-543) and the
 * clear route (app.py:588-592).
 */
module Simulation {
  import opened Wrappers
  import opened Numeric
  import opened Domain
  import opened Identifiers
  import opened Dictionaries
  import opened Pools
  import opened Users
  import opened Generators
  import opened Dispatch
  import opened Report

  /**
   * The random choices behind one unit of the inner loop: the position of the
   * user in `user_ids`, the `random()` roll compared with the fraud rate, the
   * position of the pattern among the choices, the `randint` batch size, the
   * batch's draws, and the time and draws of a normal transaction.
   */
  datatype UnitDraw = UnitDraw(userIdx: nat, roll: real, patternIdx: nat, count: nat, batch: BatchDraw, now: int, normal: ItemDraw)

  /** How a run ends: the loops finish (possibly after a stop), or an exception ends the thread. */
  datatype RunOutcome = Completed | Failed(error: RunError)

  /** The candidate patterns of a run with the given `fraud_patterns` argument. */
  function Choices(configured: Option<seq<string>>): Result<seq<FraudPattern>, RunError>
  {
    PatternChoices(PatternNames(configured))
  }

  /** All draws of a list respect their ranges. */
  predicate UserDrawsOk(p: Pools, userDraws: seq<UserDraw>)
  {
    forall k | 0 <= k < |userDraws| :: UserDrawOk(p, userDraws[k])
  }

  /** The profiles `_generate_user` builds from a list of draws, in order. */
  function BuiltUsers(p: Pools, ds: seq<UserDraw>): (us: seq<User>)
    requires ValidPools(p) && UserDrawsOk(p, ds)
    ensures |us| == |ds|
  {
    seq(|ds|, k requires 0 <= k < |ds| => BuildUser(p, ds[k]))
  }

  /** The dictionary `self.users` after `_generate_user` has run once per draw. */
  function UsersMap(p: Pools, ds: seq<UserDraw>): map<string, User>
    requires ValidPools(p) && UserDrawsOk(p, ds)
  {
    Zip(DrawIds(ds), BuiltUsers(p, ds))
  }

  /** The user a unit picks: `random.choice(user_ids)`. */
  function UnitUser(p: Pools, userDraws: seq<UserDraw>, ud: UnitDraw): User
    requires ValidPools(p) && UserDrawsOk(p, userDraws) && ud.userIdx < |userDraws|
  {
    BuildUser(p, userDraws[ud.userIdx])
  }

  /**
   * The draws of one unit fit the branch it takes for user `u`, given the
   * run's pattern choices: a normal transaction of the user, or the drawn
   * pattern's batch.
   */
  ghost predicate UnitReady(p: Pools, u: User, choices: Result<seq<FraudPattern>, RunError>, fraudRate: real, ud: UnitDraw)
  {
    ValidUser(p, u) &&
    (ud.roll >= fraudRate ==> NormalDrawOk(p, u, ud.normal)) &&
    (ud.roll < fraudRate && choices.Success? && |choices.value| > 0 ==>
      ud.patternIdx < |choices.value| && BatchDrawOk(p, u, choices.value[ud.patternIdx], ud.count, ud.batch))
  }

  /** The draws of one unit: a position in `user_ids`, a roll in [0, 1), and draws that fit the picked user. */
  ghost predicate UnitDrawOk(p: Pools, userDraws: seq<UserDraw>, choices: Result<seq<FraudPattern>, RunError>, fraudRate: real, ud: UnitDraw)
    requires ValidPools(p) && UserDrawsOk(p, userDraws)
  {
    ud.userIdx < |userDraws| && 0.0 <= ud.roll < 1.0 &&
    UnitReady(p, UnitUser(p, userDraws, ud), choices, fraudRate, ud)
  }

  /**
   * What one completed unit of user `userId` appended: for a roll below the
   * fraud rate, a whole batch of the drawn pattern whose size lies in that
   * pattern's range, every element of the user and labelled with the
   * pattern's generator; otherwise a single unlabelled transaction of the
   * user.
   */
  ghost predicate Appended(userId: string, choices: Result<seq<FraudPattern>, RunError>, fraudRate: real, ud: UnitDraw, out: seq<Transaction>)
  {
    if ud.roll < fraudRate then
      choices.Success? && ud.patternIdx < |choices.value| &&
      var pattern := choices.value[ud.patternIdx];
      CountRange(pattern).0 <= |out| <= CountRange(pattern).1 &&
      Labelled(out, userId, Label(Generator(pattern)))
    else
      |out| == 1 && Labelled(out, userId, None)
  }

  /** What one completed unit appended, for the run's user ids `ids`. */
  ghost predicate UnitOutput(ids: seq<string>, choices: Result<seq<FraudPattern>, RunError>, fraudRate: real, ud: UnitDraw, out: seq<Transaction>)
  {
    ud.userIdx < |ids| && Appended(ids[ud.userIdx], choices, fraudRate, ud, out)
  }

  /** The transactions of the units in order: `extend` and `append` onto one list. */
  function Flatten(batches: seq<seq<Transaction>>): seq<Transaction>
  {
    if |batches| == 0 then [] else Flatten(batches[..|batches| - 1]) + batches[|batches| - 1]
  }

  /** `min(k / total * 100, 100)`, the progress after the `k`-th unit. */
  function ProgressAt(k: nat, total: nat): (r: real)
    requires total > 0
    ensures 0.0 <= r <= 100.0
    ensures k == 0 ==> r == 0.0
    ensures k >= total ==> r == 100.0
  {
    RatioAtLeastOne(k as real, total as real);
    MinReal(k as real / total as real * 100.0, 100.0)
  }

  /** Whether the other thread has called `stop_simulation` once `processed` units are done. */
  predicate StopRequested(stopAfter: Option<nat>, processed: nat)
  {
    stopAfter.Some? && processed >= stopAfter.value
  }

  /** The draws of a run fit the pools, and each unit's draws fit its branch. */
  ghost predicate UnitsOk(p: Pools, userDraws: seq<UserDraw>, choices: Result<seq<FraudPattern>, RunError>, fraudRate: real, units: seq<UnitDraw>)
    decreases |units|
  {
    ValidPools(p) && UserDrawsOk(p, userDraws) &&
    (|units| == 0 ||
     (UnitsOk(p, userDraws, choices, fraudRate, units[..|units| - 1]) &&
      UnitDrawOk(p, userDraws, choices, fraudRate, units[|units| - 1])))
  }

  /** `self.users` and `user_ids` after the user loop: one profile per draw, under pairwise distinct ids. */
  ghost predicate Stored(p: Pools, users: map<string, User>, userDraws: seq<UserDraw>, ids: seq<string>)
    requires ValidPools(p) && UserDrawsOk(p, userDraws)
  {
    users == UsersMap(p, userDraws) && ids == DrawIds(userDraws) && Distinct(ids)
  }

  /** The user unit `ud` picks is stored under its id, and the unit's draws fit that user. */
  ghost predicate UnitPicks(p: Pools, users: map<string, User>, ids: seq<string>, choices: Result<seq<FraudPattern>, RunError>,
                            fraudRate: real, ud: UnitDraw)
  {
    ud.userIdx < |ids| && ids[ud.userIdx] in users && users[ids[ud.userIdx]].userId == ids[ud.userIdx] &&
    UnitReady(p, users[ids[ud.userIdx]], choices, fraudRate, ud)
  }

  /** Every unit of the run picks a stored user its draws fit. */
  ghost predicate UnitsReady(p: Pools, users: map<string, User>, ids: seq<string>, choices: Result<seq<FraudPattern>, RunError>,
                             fraudRate: real, units: seq<UnitDraw>)
    decreases |units|
  {
    |units| == 0 ||
    (UnitsReady(p, users, ids, choices, fraudRate, units[..|units| - 1]) &&
     UnitPicks(p, users, ids, choices, fraudRate, units[|units| - 1]))
  }

  /** The units done so far: one output per unit, in order, each what its unit appends. */
  ghost predicate Done(ids: seq<string>, choices: Result<seq<FraudPattern>, RunError>, fraudRate: real, units: seq<UnitDraw>,
                       batches: seq<seq<Transaction>>)
    decreases |batches|
  {
    |batches| <= |units| &&
    (|batches| == 0 ||
     (Done(ids, choices, fraudRate, units, batches[..|batches| - 1]) &&
      UnitOutput(ids, choices, fraudRate, units[|batches| - 1], batches[|batches| - 1])))
  }

  class Simulator {
    /** `device_pool`, `locations` and `merchants`: built once, never changed. */
    const pools: Pools
    var transactions: seq<Transaction>
    var users: map<string, User>
    var running: bool
    var progress: real

    ghost predicate Valid()
      reads this
    {
      ValidPools(pools) && forall id | id in users :: ValidUser(pools, users[id])
    }

    /** `__init__`: empty state and the pools of `_initialize_data_pools`. */
    constructor(deviceDraws: seq<DeviceDraw>, merchantDraws: seq<MerchantDraw>)
      requires |deviceDraws| == DevicePoolSize && forall i | 0 <= i < |deviceDraws| :: DeviceDrawOk(deviceDraws[i])
      requires |merchantDraws| == MerchantPoolSize && forall i | 0 <= i < |merchantDraws| :: MerchantDrawOk(LocationTable, merchantDraws[i])
      ensures Valid()
      ensures pools.locations == LocationTable && pools.devicePool == DevicePool(deviceDraws)
      ensures forall i | 0 <= i < |merchantDraws| ::
        pools.merchantIds[i] == MerchantId(i) && pools.merchants[MerchantId(i)] == BuildMerchant(LocationTable, merchantDraws[i])
      ensures transactions == [] && users == map[] && !running && progress == 0.0
    {
      var p := InitializeDataPools(deviceDraws, merchantDraws);
      pools := p;
      transactions := [];
      users := map[];
      running := false;
      progress := 0.0;
    }

    /** `_generate_user`: builds a profile and stores it under its id. */
    method GenerateUser(d: UserDraw) returns (u: User)
      requires Valid() && UserDrawOk(pools, d)
      modifies this
      ensures Valid()
      ensures u == BuildUser(pools, d) && users == old(users)[d.userId := u]
      ensures transactions == old(transactions) && running == old(running) && progress == old(progress)
    {
      u := BuildUser(pools, d);
      users := users[d.userId := u];
    }

    /** `stop_simulation`: clears the running flag and nothing else. */
    method StopSimulation()
      modifies this
      ensures !running
      ensures transactions == old(transactions) && users == old(users) && progress == old(progress)
    {
      running := false;
    }

    /** `generate_report` over the simulator's transactions, with `len(self.users)` as the user count. */
    method GenerateReport() returns (r: Result<Analysis, string>)
      ensures r.Failure? <==> transactions == []
      ensures r.Failure? ==> r.error == NoTransactions
      ensures r.Success? ==> r.value.summary == SummaryOf(transactions, |users|) && r.value.recent == Recent(transactions)
      ensures r.Success? ==> r.value.patterns == PatternRows(Grouped(Fraudulent(transactions), ByPattern))
      ensures r.Success? ==> r.value.locations == Breakdowns(Grouped(transactions, ByCity))
      ensures r.Success? ==> r.value.paymentMethods == Breakdowns(Grouped(transactions, ByPaymentMethod))
    {
      r := Report.GenerateReport(transactions, |users|);
    }

    /** The clear route: empties transactions and users and resets progress, leaving the running flag alone. */
    method ClearData()
      requires Valid()
      modifies this
      ensures Valid()
      ensures transactions == [] && users == map[] && progress == 0.0 && running == old(running)
    {
      transactions := [];
      users := map[];
      progress := 0.0;
    }

    /** The user loop of `run_simulation` (app.py:370-373): fresh users, one per draw, and their ids in insertion order. */
    method CreateUsers(userDraws: seq<UserDraw>) returns (ids: seq<string>)
      requires Valid() && UserDrawsOk(pools, userDraws)
      modifies this
      ensures Valid()
      ensures users == UsersMap(pools, userDraws) && ids == DrawIds(userDraws)
      ensures transactions == old(transactions) && running == old(running) && progress == old(progress)
    {
      users := map[];
      ids := [];
      ghost var allIds, built := DrawIds(userDraws), BuiltUsers(pools, userDraws);
      var i := 0;
      while i < |userDraws|
        invariant 0 <= i <= |userDraws| && Valid()
        invariant ids == allIds[..i] && users == Zip(ids, built[..i])
        invariant transactions == old(transactions) && running == old(running) && progress == old(progress)
      {
        var u := GenerateUser(userDraws[i]);
        assert u == built[i] && u.userId == allIds[i];
        SliceStep(allIds, i);
        SliceStep(built, i);
        ZipSnoc(ids, built[..i], u.userId, u);
        ids := ids + [u.userId];
        i := i + 1;
      }
      assert allIds[..i] == allIds && built[..i] == built;
    }

    /**
     * The fraudulent branch of a unit (app.py:393-413): the pattern choices,
     * the drawn pattern and its generator's batch. Fails where building the
     * choices or choosing from them raises.
     */
    method FraudBatch(u: User, configured: Option<seq<string>>, fraudRate: real, ud: UnitDraw) returns (r: Result<seq<Transaction>, RunError>)
      requires ValidPools(pools) && ud.roll < fraudRate && UnitReady(pools, u, Choices(configured), fraudRate, ud)
      ensures r.Success? ==> Appended(u.userId, Choices(configured), fraudRate, ud, r.value)
      ensures r.Failure? <==> Choices(configured).Failure? || Choices(configured).value == []
      ensures r.Failure? && Choices(configured).Failure? ==> r.error == Choices(configured).error
      ensures r.Failure? && Choices(configured).Success? ==> r.error == EmptyChoice
    {
      var choices := PatternChoices(PatternNames(configured));
      if choices.Failure? {
        return Failure(choices.error);
      }
      var picked := Choose(choices.value, ud.patternIdx);
      if picked.Failure? {
        return Failure(picked.error);
      }
      var batch := GenerateBatch(pools, u, picked.value, ud.count, ud.batch);
      r := Success(batch);
    }

    /**
     * One unit of the inner loop (app.py:391-422) for the picked user `u`:
     * rolls for fraud, appends one normal transaction or one batch, and
     * updates the progress. Fails, changing nothing, where the pattern choice
     * raises.
     */
    method RunUnit(u: User, configured: Option<seq<string>>, fraudRate: real, ud: UnitDraw, processed: nat, total: nat)
      returns (result: Result<(), RunError>, ghost out: seq<Transaction>)
      requires Valid() && UnitReady(pools, u, Choices(configured), fraudRate, ud)
      requires processed < total
      modifies this
      ensures users == old(users) && running == old(running)
      ensures result.Success? ==> Appended(u.userId, Choices(configured), fraudRate, ud, out) &&
                                  transactions == old(transactions) + out && progress == ProgressAt(processed + 1, total)
      ensures result.Success? && ud.roll >= fraudRate ==> out == [NormalTransaction(pools, u, ud.now, ud.normal)]
      ensures result.Failure? ==> ud.roll < fraudRate && (Choices(configured).Failure? || Choices(configured).value == []) &&
                                  transactions == old(transactions) && progress == old(progress)
    {
      if ud.roll < fraudRate {
        var batch := FraudBatch(u, configured, fraudRate, ud);
        if batch.Failure? {
          return Failure(batch.error), [];
        }
        transactions := transactions + batch.value;
        out := batch.value;
      } else {
        var t := NormalTransaction(pools, u, ud.now, ud.normal);
        transactions := transactions + [t];
        out := [t];
      }
      progress := ProgressAt(processed + 1, total);
      result := Success(());
    }

    /** Clears the flag when the other thread's `stop_simulation` has happened by now. */
    method PollStop(stopAfter: Option<nat>, processed: nat)
      modifies this
      ensures running == (old(running) && !StopRequested(stopAfter, processed))
      ensures transactions == old(transactions) && users == old(users) && progress == old(progress)
    {
      if StopRequested(stopAfter, processed) {
        StopSimulation();
      }
    }

    /**
     * Unit `processed` of the run (app.py:391-422): looks up the user the
     * unit picked and runs the unit for them, extending the run state by one
     * batch.
     */
    method RunStep(total: nat, ids: seq<string>, configured: Option<seq<string>>,
                   fraudRate: real, units: seq<UnitDraw>, processed: nat, ghost batches0: seq<seq<Transaction>>)
      returns (result: Result<(), RunError>, ghost batches: seq<seq<Transaction>>)
      requires Valid() && UnitsReady(pools, users, ids, Choices(configured), fraudRate, units)
      requires Done(ids, Choices(configured), fraudRate, units, batches0) && |batches0| == processed && transactions == Flatten(batches0)
      requires processed < total == |units|
      modifies this
      ensures Valid() && users == old(users) && running == old(running)
      ensures result.Success? ==> Done(ids, Choices(configured), fraudRate, units, batches) && |batches| == processed + 1 &&
                                  transactions == Flatten(batches) && progress == ProgressAt(processed + 1, total)
      ensures result.Failure? ==> units[processed].roll < fraudRate && (Choices(configured).Failure? || Choices(configured).value == []) &&
                                  batches == batches0 && transactions == old(transactions) && progress == old(progress)
    {
      var ud := units[processed];
      UnitsReadyAt(pools, users, ids, Choices(configured), fraudRate, units, processed);
      var u := users[ids[ud.userIdx]];
      ghost var out;
      result, out := RunUnit(u, configured, fraudRate, ud, processed, total);
      batches := batches0;
      if result.Success? {
        DoneStep(ids, Choices(configured), fraudRate, units, batches0, out);
        FlattenAppend(batches0, out);
        batches := batches0 + [out];
      }
    }

    /**
     * The inner loop of `run_simulation` (app.py:388-425) for one hour: from
     * unit `processed0`, runs up to `perHour` units, checking the flag before
     * each; stops early on a cleared flag or an exception.
     */
    method RunHour(perHour: nat, total: nat, ids: seq<string>, configured: Option<seq<string>>,
                   fraudRate: real, units: seq<UnitDraw>, stopAfter: Option<nat>, processed0: nat, ghost batches0: seq<seq<Transaction>>)
      returns (failure: Option<RunError>, processed: nat, ghost batches: seq<seq<Transaction>>)
      requires Valid() && UnitsReady(pools, users, ids, Choices(configured), fraudRate, units)
      requires Done(ids, Choices(configured), fraudRate, units, batches0) && |batches0| == processed0 && transactions == Flatten(batches0)
      requires running && (stopAfter.Some? ==> processed0 <= stopAfter.value)
      requires processed0 + perHour <= total && total == |units| && (total > 0 ==> progress == ProgressAt(processed0, total))
      modifies this
      ensures Valid() && users == old(users)
      ensures Done(ids, Choices(configured), fraudRate, units, batches) && |batches| == processed && transactions == Flatten(batches)
      ensures total > 0 ==> progress == ProgressAt(processed, total)
      ensures stopAfter.Some? ==> processed <= stopAfter.value
      ensures !running ==> stopAfter.Some? && processed == stopAfter.value
      ensures processed0 <= processed <= processed0 + perHour
      ensures failure.None? && running ==> processed == processed0 + perHour
      ensures failure.Some? ==> running && processed < total && units[processed].roll < fraudRate
      ensures failure.Some? ==> Choices(configured).Failure? || Choices(configured).value == []
    {
      processed, batches := processed0, batches0;
      failure := None;
      var idx := 0;
      while idx < perHour
        invariant 0 <= idx <= perHour && processed == processed0 + idx
        invariant Valid() && users == old(users)
        invariant Done(ids, Choices(configured), fraudRate, units, batches) && |batches| == processed && transactions == Flatten(batches)
        invariant total > 0 ==> progress == ProgressAt(processed, total)
        invariant stopAfter.Some? ==> processed <= stopAfter.value
        invariant !running ==> stopAfter.Some? && processed == stopAfter.value
      {
        PollStop(stopAfter, processed);
        if !running {
          break;
        }
        var result;
        result, batches := RunStep(total, ids, configured, fraudRate, units, processed, batches);
        if result.Failure? {
          failure := Some(result.error);
          return;
        }
        processed := processed + 1;
        idx := idx + 1;
      }
    }

    /**
     * The hour loop of `run_simulation` (app.py:382-425): runs hours until
     * all are done, the flag is cleared or a unit fails.
     */
    method RunHours(hours: nat, perHour: nat, ids: seq<string>, configured: Option<seq<string>>,
                    fraudRate: real, units: seq<UnitDraw>, stopAfter: Option<nat>)
      returns (failure: Option<RunError>, processed: nat, ghost batches: seq<seq<Transaction>>)
      requires Valid() && UnitsReady(pools, users, ids, Choices(configured), fraudRate, units)
      requires |units| == hours * perHour && running && progress == 0.0 && transactions == []
      modifies this
      ensures Valid() && users == old(users)
      ensures Done(ids, Choices(configured), fraudRate, units, batches) && |batches| == processed && transactions == Flatten(batches)
      ensures hours * perHour > 0 ==> progress == ProgressAt(processed, hours * perHour)
      ensures stopAfter.Some? ==> processed <= stopAfter.value
      ensures failure.None? ==> processed == if stopAfter.Some? then MinInt(stopAfter.value, hours * perHour) else hours * perHour
      ensures failure.Some? ==> running && processed < hours * perHour && units[processed].roll < fraudRate
      ensures failure.Some? ==> Choices(configured).Failure? || Choices(configured).value == []
    {
      var total := hours * perHour;
      processed := 0;
      batches := [];
      failure := None;
      var hour := 0;
      while hour < hours
        invariant 0 <= hour <= hours
        invariant Valid() && users == old(users)
        invariant Done(ids, Choices(configured), fraudRate, units, batches) && |batches| == processed && transactions == Flatten(batches)
        invariant total > 0 ==> progress == ProgressAt(processed, total)
        invariant stopAfter.Some? ==> processed <= stopAfter.value
        invariant !running ==> stopAfter.Some? && processed == stopAfter.value
        invariant processed <= hour * perHour && (running ==> processed == hour * perHour)
        invariant failure.None?
      {
        PollStop(stopAfter, processed);
        if !running {
          break;
        }
        MulMonotone(hour + 1, hours, perHour);
        failure, processed, batches := RunHour(perHour, total, ids, configured, fraudRate, units, stopAfter, processed, batches);
        if failure.Some? {
          return;
        }
        hour := hour + 1;
      }
      MulMonotone(hour, hours, perHour);
    }

    /**
     * `run_simulation`. `stopAfter` is when the other thread stops the run, as
     * the number of units done by then. The run empties the transactions,
     * creates `max(50, tph // 10)` users, runs units until all
     * `hours * tph` are done or the flag is cleared, and ends with the flag
     * off and progress 100; an exception leaves the flag on and the progress
     * of the units done.
     */
    method RunSimulation(hours: nat, perHour: nat, configured: Option<seq<string>>, fraudRate: real,
                         userDraws: seq<UserDraw>, units: seq<UnitDraw>, stopAfter: Option<nat>)
      returns (outcome: RunOutcome, processed: nat, ghost batches: seq<seq<Transaction>>)
      requires Valid()
      requires |userDraws| == NumUsers(perHour) && UserDrawsOk(pools, userDraws) && Distinct(DrawIds(userDraws))
      requires |units| == hours * perHour && UnitsOk(pools, userDraws, Choices(configured), fraudRate, units)
      modifies this
      ensures Valid()
      ensures users == UsersMap(pools, userDraws) && |users| == NumUsers(perHour)
      ensures Done(DrawIds(userDraws), Choices(configured), fraudRate, units, batches)
      ensures |batches| == processed && transactions == Flatten(batches)
      ensures stopAfter.Some? ==> processed <= stopAfter.value
      ensures outcome.Completed? ==> !running && progress == 100.0
      ensures outcome.Completed? ==> processed == if stopAfter.Some? then MinInt(stopAfter.value, hours * perHour) else hours * perHour
      ensures outcome.Failed? ==> running && processed < hours * perHour && units[processed].roll < fraudRate
      ensures outcome.Failed? ==> progress == ProgressAt(processed, hours * perHour)
      ensures outcome.Failed? ==> Choices(configured).Failure? || Choices(configured).value == []
    {
      running := true;
      progress := 0.0;
      transactions := [];
      var ids := CreateUsers(userDraws);
      UsersMapLookup(pools, userDraws);
      assert Stored(pools, users, userDraws, ids);
      UnitsReadyFrom(pools, users, userDraws, ids, Choices(configured), fraudRate, units);
      var failure;
      failure, processed, batches := RunHours(hours, perHour, ids, configured, fraudRate, units, stopAfter);
      if failure.Some? {
        outcome := Failed(failure.value);
        return;
      }
      outcome := Completed;
      running := false;
      progress := 100.0;
    }

    /**
     * The run route's guard: a request while a run is in progress is refused
     * and changes nothing; otherwise the run starts with the request's
     * pattern list (empty when the request has none).
     */
    method StartRun(hours: nat, perHour: nat, patterns: seq<string>, fraudRate: real,
                    userDraws: seq<UserDraw>, units: seq<UnitDraw>, stopAfter: Option<nat>)
      returns (accepted: bool, outcome: Option<RunOutcome>, processed: nat, ghost batches: seq<seq<Transaction>>)
      requires Valid()
      requires |userDraws| == NumUsers(perHour) && UserDrawsOk(pools, userDraws) && Distinct(DrawIds(userDraws))
      requires |units| == hours * perHour && UnitsOk(pools, userDraws, Choices(Some(patterns)), fraudRate, units)
      modifies this
      ensures Valid()
      ensures accepted <==> !old(running)
      ensures !accepted ==> outcome.None? && processed == 0 && batches == [] &&
                            transactions == old(transactions) && users == old(users) &&
                            running == old(running) && progress == old(progress)
      ensures accepted ==> outcome.Some? && users == UsersMap(pools, userDraws)
      ensures accepted ==> Done(DrawIds(userDraws), Choices(Some(patterns)), fraudRate, units, batches) &&
                           |batches| == processed && transactions == Flatten(batches)
      ensures accepted && stopAfter.Some? ==> processed <= stopAfter.value
      ensures accepted && outcome == Some(Completed) ==> !running && progress == 100.0
      ensures accepted && outcome == Some(Completed) ==>
                processed == if stopAfter.Some? then MinInt(stopAfter.value, hours * perHour) else hours * perHour
      ensures accepted && outcome.Some? && outcome.value.Failed? ==>
                running && processed < hours * perHour && progress == ProgressAt(processed, hours * perHour)
    {
      if running {
        return false, None, 0, [];
      }
      var o;
      o, processed, batches := RunSimulation(hours, perHour, Some(patterns), fraudRate, userDraws, units, stopAfter);
      accepted, outcome := true, Some(o);
    }
  }

  lemma MulMonotone(a: nat, b: nat, c: nat)
    requires a <= b
    ensures a * c <= b * c && (a - 1) * c + c == a * c
  {
  }

  /** Appending one unit's output to the flattened list. */
  lemma FlattenAppend(batches: seq<seq<Transaction>>, out: seq<Transaction>)
    ensures Flatten(batches + [out]) == Flatten(batches) + out
  {
    assert (batches + [out])[..|batches|] == batches;
  }

  /** The user a unit picks from `user_ids` is the stored profile its draws were made for. */
  lemma PickedUser(p: Pools, users: map<string, User>, userDraws: seq<UserDraw>, ids: seq<string>,
                   choices: Result<seq<FraudPattern>, RunError>, fraudRate: real, units: seq<UnitDraw>, k: nat)
    requires UnitsOk(p, userDraws, choices, fraudRate, units) && Stored(p, users, userDraws, ids) && k < |units|
    ensures units[k].userIdx < |ids| && ids[units[k].userIdx] in users
    ensures users[ids[units[k].userIdx]].userId == ids[units[k].userIdx]
    ensures UnitReady(p, users[ids[units[k].userIdx]], choices, fraudRate, units[k])
  {
    UnitsOkAt(p, userDraws, choices, fraudRate, units, k);
    UsersMapLookup(p, userDraws);
  }

  /** Once the users are stored, every unit picks a stored user its draws fit. */
  lemma {:induction false} UnitsReadyFrom(p: Pools, users: map<string, User>, userDraws: seq<UserDraw>, ids: seq<string>,
                                          choices: Result<seq<FraudPattern>, RunError>, fraudRate: real, units: seq<UnitDraw>)
    requires UnitsOk(p, userDraws, choices, fraudRate, units) && Stored(p, users, userDraws, ids)
    ensures UnitsReady(p, users, ids, choices, fraudRate, units)
    decreases |units|
  {
    if |units| > 0 {
      var n := |units| - 1;
      UnitsReadyFrom(p, users, userDraws, ids, choices, fraudRate, units[..n]);
      PickedUser(p, users, userDraws, ids, choices, fraudRate, units, n);
    }
  }

  /** The unit at position `k` of a ready run picks a stored user its draws fit. */
  lemma {:induction false} UnitsReadyAt(p: Pools, users: map<string, User>, ids: seq<string>, choices: Result<seq<FraudPattern>, RunError>,
                                        fraudRate: real, units: seq<UnitDraw>, k: nat)
    requires UnitsReady(p, users, ids, choices, fraudRate, units) && k < |units|
    ensures UnitPicks(p, users, ids, choices, fraudRate, units[k])
    decreases |units|
  {
    var n := |units| - 1;
    if k < n {
      UnitsReadyAt(p, users, ids, choices, fraudRate, units[..n], k);
      assert units[..n][k] == units[k];
    }
  }


  /** Under `UnitsOk`, the draws of unit `k` fit its branch. */
  lemma {:induction false} UnitsOkAt(p: Pools, userDraws: seq<UserDraw>, choices: Result<seq<FraudPattern>, RunError>, fraudRate: real,
                                     units: seq<UnitDraw>, k: nat)
    requires UnitsOk(p, userDraws, choices, fraudRate, units) && k < |units|
    ensures UnitDrawOk(p, userDraws, choices, fraudRate, units[k])
    decreases |units|
  {
    var n := |units| - 1;
    if k < n {
      UnitsOkAt(p, userDraws, choices, fraudRate, units[..n], k);
      assert units[..n][k] == units[k];
    }
  }

  /** One more unit done: its output goes after the earlier ones. */
  lemma DoneStep(ids: seq<string>, choices: Result<seq<FraudPattern>, RunError>, fraudRate: real, units: seq<UnitDraw>,
                 batches: seq<seq<Transaction>>, out: seq<Transaction>)
    requires Done(ids, choices, fraudRate, units, batches) && |batches| < |units|
    requires UnitOutput(ids, choices, fraudRate, units[|batches|], out)
    ensures Done(ids, choices, fraudRate, units, batches + [out])
  {
    assert (batches + [out])[..|batches|] == batches;
  }

  /**
   * Transaction counts of a run: every transaction belongs to one of the
   * run's users and the list is at least as long as the number of units
   * done; when no unit rolled below the fraud rate (a fraud rate of 0, say),
   * there is exactly one unlabelled transaction per unit.
   */
  lemma {:induction false} DoneCounts(ids: seq<string>, choices: Result<seq<FraudPattern>, RunError>, fraudRate: real, units: seq<UnitDraw>,
                                      batches: seq<seq<Transaction>>)
    requires Done(ids, choices, fraudRate, units, batches)
    ensures |Flatten(batches)| >= |batches|
    ensures forall k | 0 <= k < |Flatten(batches)| :: Flatten(batches)[k].userId in ids
    ensures (forall k | 0 <= k < |batches| :: units[k].roll >= fraudRate) ==>
              |Flatten(batches)| == |batches| && forall k | 0 <= k < |Flatten(batches)| :: !IsFraud(Flatten(batches)[k])
    decreases |batches|
  {
    if |batches| > 0 {
      var n := |batches| - 1;
      var init, last := batches[..n], batches[n];
      DoneCounts(ids, choices, fraudRate, units, init);
      var ud := units[n];
      assert |last| >= 1 by {
        if ud.roll < fraudRate {
          assert CountRange(choices.value[ud.patternIdx]).0 >= 3;
        }
      }
      forall k | 0 <= k < |last|
        ensures last[k].userId in ids
      {
        assert last[k].userId == ids[ud.userIdx];
      }
      assert Flatten(batches) == Flatten(init) + last;
    }
  }

  /**
   * With a fraud rate of 0 every roll in [0, 1) takes the normal branch, so
   * the units done left exactly one unlabelled transaction each; a completed
   * run without a stop thus holds `hours * tph` normal transactions.
   */
  lemma NoFraudRun(p: Pools, userDraws: seq<UserDraw>, ids: seq<string>, choices: Result<seq<FraudPattern>, RunError>,
                   units: seq<UnitDraw>, batches: seq<seq<Transaction>>)
    requires UnitsOk(p, userDraws, choices, 0.0, units) && Done(ids, choices, 0.0, units, batches)
    ensures |Flatten(batches)| == |batches| && forall k | 0 <= k < |Flatten(batches)| :: !IsFraud(Flatten(batches)[k])
  {
    forall k | 0 <= k < |batches|
      ensures units[k].roll >= 0.0
    {
      UnitsOkAt(p, userDraws, choices, 0.0, units, k);
    }
    DoneCounts(ids, choices, 0.0, units, batches);
  }

  /**
   * With a fraud rate of 1 every roll takes the fraudulent branch, so when a
   * single pattern is configured every transaction of the run carries the
   * label of that pattern's generator (rapid fire for velocity attack and
   * account takeover).
   */
  lemma {:induction false} SinglePatternRun(p: Pools, userDraws: seq<UserDraw>, ids: seq<string>, pattern: FraudPattern,
                                            fraudRate: real, units: seq<UnitDraw>, batches: seq<seq<Transaction>>)
    requires fraudRate >= 1.0
    requires UnitsOk(p, userDraws, Success([pattern]), fraudRate, units) && Done(ids, Success([pattern]), fraudRate, units, batches)
    ensures forall k | 0 <= k < |Flatten(batches)| :: Flatten(batches)[k].fraudPattern == Label(Generator(pattern))
    decreases |batches|
  {
    if |batches| > 0 {
      var n := |batches| - 1;
      var init, last := batches[..n], batches[n];
      SinglePatternRun(p, userDraws, ids, pattern, fraudRate, units, init);
      UnitsOkAt(p, userDraws, Success([pattern]), fraudRate, units, n);
      assert Labelled(last, ids[units[n].userIdx], Label(Generator(pattern)));
      assert Flatten(batches) == Flatten(init) + last;
    }
  }

  /** The progress never goes down as units complete. */
  lemma ProgressMonotone(j: nat, k: nat, total: nat)
    requires total > 0 && j <= k
    ensures ProgressAt(j, total) <= ProgressAt(k, total)
  {
    RatioMonotone(j as real, k as real, total as real);
  }

  /** A prefix one longer is the prefix and the next element. */
  lemma SliceStep<T>(s: seq<T>, i: nat)
    requires i < |s|
    ensures s[..i + 1] == s[..i] + [s[i]]
  {
  }

  /** With distinct ids, the run stores exactly one user per draw, each under its own id. */
  lemma UsersMapLookup(p: Pools, ds: seq<UserDraw>)
    requires ValidPools(p) && UserDrawsOk(p, ds) && Distinct(DrawIds(ds))
    ensures forall k | 0 <= k < |ds| :: ds[k].userId in UsersMap(p, ds) && UsersMap(p, ds)[ds[k].userId] == BuildUser(p, ds[k])
    ensures forall id :: id in UsersMap(p, ds) <==> id in DrawIds(ds)
    ensures |UsersMap(p, ds)| == |ds|
  {
    ZipKeys(DrawIds(ds), BuiltUsers(p, ds));
    ZipValues(DrawIds(ds), BuiltUsers(p, ds));
  }
}
