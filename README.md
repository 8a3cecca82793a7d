# Synthetic fraud simulator, modelled in Dafny

This project models `SyntheticFraudSimulator` from `app.py`. The simulator
produces a labelled stream of synthetic payment transactions for testing
fraud detectors. It has four parts:

- **Entity pools** (`pools.dfy`, `identifiers.dfy`, `domain.dfy`):
  - 10,000 device fingerprints `browser_os_hex`;
  - the fixed table of 30 cities;
  - 1000 merchants `merchant_0000` … `merchant_0999`. Their category list gets five extra `mobile_money_agent` entries in eight African countries;
  - the payment-method rule by country.
- **Users** (`users.dfy`): `_generate_user` and the bounds it applies to each field.
- **Pattern generators** (`generators.dfy`): the normal transaction and the five attack batches. Each attack is a loop that builds a list of transactions.
- **Simulation driver** (`dispatch.dfy`, `simulation.dfy`):
  - a `Simulator` class whose fields are `transactions`, `users`, `running` and `progress`;
  - `run_simulation` as two nested loops that check the running flag before each hour and each unit;
  - pattern dispatch with the per-pattern batch-size ranges;
  - `stop_simulation`, the start guard of the run route and the clear route.
- **Report engine** (`report.dfy`):
  - `generate_report`, with the empty-list error;
  - the split into fraudulent and normal transactions;
  - the per-pattern, per-city and per-payment-method counters. Each is built by an imperative tally loop and proved equal to a pure grouping function;
  - the summary;
  - the last 100 transactions.

Abstractions:

- Every random draw (`random.choice`, `randint`, `uniform`, `sample`, `random()`, the numpy Gaussian, uuid, Faker strings) is a field of a caller-supplied draw record. Each record comes with a predicate that states the draw's range. `DeviceDraw`, `MerchantDraw`, `UserDraw`, `ItemDraw`, `BatchDraw` and `UnitDraw` are these records.
- A timestamp is an integer number of seconds. The per-batch `now` is also a draw.
- Amounts are reals. `round(x, 2)` and `round(x, 3)` are `Round2` and `Round3`: half-up rounding on exact reals.
- The other thread calling `stop_simulation` is the parameter `stopAfter`. It is the number of units done by the time the flag is cleared.
- The two exceptions a run can raise end the run with a `Failed` outcome:
  - `FraudPattern(name)` on an unknown name (a ValueError);
  - `random.choice([])` on an empty pattern list (an IndexError).

Behaviours of the code worth noting:

- `mixed_patterns` expands to the seven other members. Velocity attack and account takeover dispatch to the rapid-fire generator, so their batches are labelled `rapid_fire` (`Dispatch.MixedExpandsToSeven`, `Simulation.SinglePatternRun`).
- After a stop, the run still ends with `running` false and progress forced to 100 (app.py:430-431).
- The run route's default pattern list is `[]`. With it, the first fraudulent unit raises (`Dispatch.EmptyListFails`).
- A raised exception ends the thread before line 430. `running` stays true, so the start guard refuses every later run until `stop_simulation` clears the flag (`Simulation.Simulator.StartRun`, `Simulation.Simulator.StopSimulation`).
- `unique_users` is `len(self.users)` (`Report.SummaryCounts`).
- The code neither keeps spoofed fingerprints apart from the device pool nor orders timestamps, so the model claims neither.

## Model

| member | source | states |
|---|---|---|
| Numeric.Round2 | app.py:177 | `round(x, 2)` is within half a cent of `x` |
| Numeric.Round3 | app.py:489 | `round(x, 3)` is within half a thousandth of `x` |
| Domain.Parse | app.py:22-30 | a name parses only to the pattern whose value it is |
| Domain.ParseValue | app.py:22-30 | every pattern's value parses back to that pattern |
| Domain.LocationTableDistinct | app.py:71-102 | the location table has 30 entries with pairwise distinct cities |
| Identifiers.Pad4RoundTrip | app.py:113 | the four-digit zero padding of `merchant_{i:04d}` reads back as `i` |
| Identifiers.MerchantIdDistinct | app.py:112-113 | distinct indices give distinct merchant ids |
| Identifiers.MerchantIdFresh | app.py:112-113 | the id of merchant `i` is not among the ids of merchants before it |
| Pools.Fingerprint | app.py:129-134 | a fingerprint is the browser, the OS and the 8-hex suffix joined by two underscores |
| Pools.FingerprintRoundTrip | app.py:134 | splitting a fingerprint at its underscores gives back the browser, the OS and the suffix |
| Pools.CategoryChoicesRule | app.py:105-120 | the 21 base categories come first; five `mobile_money_agent` entries follow if and only if the country is one of the eight listed |
| Pools.AgentNotRegular | app.py:105-118 | `mobile_money_agent` is not one of the 21 base categories |
| Pools.PaymentMethodsRule | app.py:136-144 | the 3 base methods come first; `mobile_money` and `bank_transfer` follow if and only if the country is one of the nine listed, and otherwise there are exactly 3 |
| Pools.BuildMerchant | app.py:113-127 | a merchant has a drawn location from the table, a category from its country's list (an agent only in an agent country) and a risk tier |
| Pools.BuildMerchantPool | app.py:112-127 | the loop fills the dictionary with merchant `i` under `merchant_{i:04d}`, keys in insertion order; the keys are pairwise distinct and exactly the dictionary's keys, and every merchant sits at one of the given locations |
| Pools.MerchantKeysDistinct | app.py:112-113 | the 1000 merchant keys are pairwise distinct |
| Dictionaries.ZipKeys | app.py:112-127 | the keys of a dictionary filled by an insertion loop are exactly the inserted keys |
| Dictionaries.ZipValues | app.py:370-375 | with distinct keys, each key finds the value inserted with it, and there is one entry per key |
| Dictionaries.ZipRange | app.py:112-127 | every value of such a dictionary is one of the inserted values |
| Pools.KeyedPoolFacts | app.py:112-127 | the dictionary's keys are exactly the generated ids, and each id maps to its merchant |
| Pools.BuiltMerchantsLocated | app.py:114-127 | every merchant sits at one of the table's locations |
| Pools.DevicePoolFormat | app.py:66-68 | device `i` of the pool splits back into the `i`-th draw's browser, OS and 8-hex-digit suffix |
| Pools.AssemblePools | app.py:62-127 | the pools hold the given locations and devices and the built merchant dictionary, and are valid |
| Pools.InitializeDataPools | app.py:62-127 | the pools hold 10,000 fingerprints, the 30-city table and 1000 merchants keyed `merchant_0000`…; together they satisfy what every generator relies on |
| Users.BuildUser | app.py:146-166 | the profile has the drawn id and satisfies the user invariant: a home in the pool, at least one merchant, device and payment method, and an average of at least 10 |
| Users.BuildUserFacts | app.py:148-162 | age in [30, 1095], average in [10, 1000], 5–20 distinct preferred merchants from the merchant keys, 1–5 devices from the pool, a risk level, the home country's payment methods |
| Users.NumUsers | app.py:370 | a run creates `max(50, tph // 10)` users |
| Generators.NormalTransaction | app.py:168-202 | amount ≥ 1 (the rounded draw when that is ≥ 1); no pattern, so not fraud; risk in [0.1, 0.3]; a preferred merchant with that merchant's category; a user device and payment method; a listed currency; home location when the roll is below 0.8 |
| Generators.RapidFireItem | app.py:215-229 | step `i`: amount in [1, 15], risk in [0.7, 0.9], the batch device, home location, USD, categories online/retail/grocery, offset `i * r` seconds |
| Generators.RapidFireAttack | app.py:204-232 | exactly `count` items, item `k` being step `k`; all of the user, labelled `rapid_fire`, on one device of the user, at home |
| Generators.GeoHoppingItem | app.py:246-260 | step `i` at the given location: amount in [50, 500], risk in [0.8, 0.95], the batch device, categories hotel/restaurant/gas_station, offset `i * r` minutes |
| Generators.GeographicHoppingAttack | app.py:234-263 | `min(count, len(locations))` items at the sampled locations, with pairwise distinct cities; all of the user, labelled `geographic_hopping`, on one device |
| Generators.DeviceSpoofingItem | app.py:275-289 | step `i`: a fresh fingerprint, a pool location, amount in [100, 1000], risk in [0.6, 0.85], offset `i * r` minutes |
| Generators.DeviceSpoofingAttack | app.py:265-292 | exactly `count` items, item `k` being step `k`; all of the user and labelled `device_spoofing` |
| Generators.EscalationRisk | app.py:321 | `min(0.95, 0.4 + 0.1 i)` lies in [0.4, 0.95] |
| Generators.EscalationAmount | app.py:301-311 | `round(avg * 1.5^i, 2)` is at least the average, less half a cent |
| Generators.AmountEscalationItem | app.py:303-323 | step `i` has exactly that amount and risk, at home, on the batch device, offset `i * r` hours |
| Generators.AmountEscalationAttack | app.py:294-325 | exactly `count` items, item `k` being step `k`; all of the user, labelled `amount_escalation`, on one device, at home |
| Generators.EscalationAmountsIncrease | app.py:304-311 | for an average of at least 10, each step's amount is strictly above the previous one |
| Generators.EscalationRiskMonotone | app.py:321 | the risk never decreases with the step and is capped at 0.95 from step 6 |
| Generators.EscalationBatchIncreasing | app.py:303-311 | the amounts of an escalation batch are strictly increasing |
| Generators.MerchantCyclingItem | app.py:340-354 | step `i` at the given merchant with that merchant's category: amount in [20, 200], risk in [0.5, 0.8], offset `i * r` minutes |
| Generators.MerchantCyclingAttack | app.py:327-357 | `min(count, len(merchants))` items at pairwise distinct sampled merchants; all of the user, labelled `merchant_cycling`, on one device, at home |
| Dispatch.PatternNames | app.py:377-378 | the configured list, or the eight values when none is given |
| Dispatch.ParseAll | app.py:399 | succeeds if and only if every name is a pattern value, giving the patterns in order; otherwise fails naming a bad name |
| Dispatch.Choose | app.py:397-399 | fails if and only if the list is empty; otherwise picks a member |
| Dispatch.Generator | app.py:401-412 | the five concrete patterns dispatch to their own generator, and the other three to rapid fire |
| Dispatch.CountRange | app.py:401-412 | every batch-size range lies inside [3, 15] |
| Dispatch.GenerateBatch | app.py:401-412 | the batch has `count` items within the pattern's range, all of the user, labelled with the generator's pattern, all fraud |
| Dispatch.LabelIsFraud | app.py:440 | a pattern's label is non-empty, so a labelled transaction counts as fraudulent |
| Dispatch.ParseAllValues | app.py:399 | parsing the values of a pattern list gives the list back |
| Dispatch.ChoicesNeverMixed | app.py:396-399 | `mixed_patterns` itself is never chosen |
| Dispatch.MixedExpandsToSeven | app.py:396-397 | with `mixed_patterns` configured, the choices are exactly the seven other members, and velocity attack and account takeover run rapid fire |
| Dispatch.DefaultChoices | app.py:377-378 | without a configured list, units choose among the seven non-mixed members |
| Dispatch.EmptyListFails | app.py:399 | an empty configured list makes the first fraudulent unit fail with the empty-choice error |
| Dispatch.SinglePatternChosen | app.py:399 | a single configured non-mixed pattern is always the one chosen |
| Simulation.ProgressAt | app.py:421-422 | progress lies in [0, 100]; it is 0 before any unit and 100 once all are done |
| Simulation.ProgressMonotone | app.py:421-422 | progress never decreases as units complete |
| Simulation.Simulator.constructor | app.py:50-60 | empty transactions and users, not running, progress 0; the pools hold the location table, one fingerprint per device draw, and under `merchant_{i:04d}` the merchant built from the `i`-th merchant draw |
| Simulation.Simulator.GenerateUser | app.py:146-166 | stores the built profile under its id; nothing else changes |
| Simulation.Simulator.StopSimulation | app.py:520-522 | clears the running flag; nothing else changes |
| Simulation.Simulator.GenerateReport | app.py:434-518 | the report of the simulator's transactions, with the user count `len(self.users)` |
| Simulation.Simulator.ClearData | app.py:588-592 | empties transactions and users and resets progress to 0; the running flag is left alone |
| Simulation.Simulator.CreateUsers | app.py:370-375 | `users` becomes the dictionary of the built profiles, and the ids come back in insertion order |
| Simulation.Simulator.FraudBatch | app.py:393-414 | the batch of the drawn pattern; fails if and only if the choices cannot be built or are empty, with the matching error |
| Simulation.Simulator.RunUnit | app.py:391-422 | appends one normal transaction or one whole batch of the picked user and sets progress; on failure nothing changes |
| Simulation.Simulator.PollStop | app.py:383-390 | the flag is cleared once the other thread's stop has happened; nothing else changes |
| Simulation.Simulator.RunStep | app.py:391-422 | unit `k` extends the run's record of units by its output, keeping `transactions` the concatenation of the outputs |
| Simulation.Simulator.RunHour | app.py:388-425 | runs up to `tph` units, checking the flag before each; stops on a cleared flag or a failure; the progress is that of the units done |
| Simulation.Simulator.RunHours | app.py:382-425 | without a failure, runs all `hours * tph` units, or exactly `stopAfter` units if that is fewer; a failure leaves the flag on at a fraudulent unit |
| Simulation.Simulator.RunSimulation | app.py:359-432 | empties the transactions; creates `max(50, tph // 10)` users; each unit done appended its output; the number done never exceeds the stop point; completion (after a stop too) leaves the flag off and progress 100; a failure leaves the flag on |
| Simulation.Simulator.StartRun | app.py:542-558 | a start while running is refused and changes nothing; otherwise the run goes ahead with the request's list: the users are built, each unit done appended its output to `transactions`, no more units run than the stop point allows, completion leaves the flag off with progress 100, and a failure leaves it on |
| Simulation.DoneCounts | app.py:401-418 | every transaction belongs to a run user, and there is at least one per unit; if no unit took the fraud branch, there is exactly one per unit and none is fraud |
| Simulation.NoFraudRun | app.py:394-418 | with fraud rate 0, each unit leaves exactly one non-fraud transaction |
| Simulation.SinglePatternRun | app.py:394-414 | with fraud rate 1 and one configured pattern, every transaction carries the label of that pattern's generator |
| Simulation.UsersMapLookup | app.py:370-375 | with distinct ids, each draw's profile is stored under its id, and the dictionary has one entry per draw |
| Report.Fraudulent | app.py:440 | the fraudulent list has at most as many transactions as the input |
| Report.Normal | app.py:441 | the normal list has at most as many transactions as the input |
| Report.SplitMembers | app.py:440-441 | the fraudulent list holds exactly the input's transactions with a non-empty label, and the normal list exactly the others |
| Report.Count | app.py:455-460 | one dictionary update through the key index, equal to inserting into the ordered bucket list |
| Report.Tally | app.py:444-471 | the counting loop produces exactly the grouping of the list by the dimension |
| Report.RowOf | app.py:500-505 | a breakdown row keeps the totals; its fraud rate times the total is the fraud count (0 for no transactions); the amount is rounded to cents |
| Report.Breakdowns | app.py:499-516 | one row per bucket, in the dictionary's order |
| Report.PatternRows | app.py:495-498 | one row per pattern with its count and rounded amount |
| Report.Recent | app.py:517 | the last `min(100, n)` transactions, in their original order |
| Report.GenerateReport | app.py:434-518 | errors if and only if there are no transactions; otherwise the summary, pattern, city and payment-method tables and the recent list |
| Report.GroupedFaithful | app.py:444-471 | the grouping has distinct keys, exactly the occurring values, and each bucket holds that key's count, fraud count and amount |
| Report.SplitCounts | app.py:439-441 | fraudulent plus normal is the total |
| Report.GroupedSums | app.py:452-471 | bucket totals sum to the list length, and fraud counts to the fraudulent count |
| Report.EntryBounds | app.py:457-460 | a key's fraud count never exceeds its total, and an occurring key has a total of at least 1 |
| Report.GroupedFacts | app.py:444-471 | the grouping facts together, with one bucket per occurring value |
| Report.SummaryCounts | app.py:439-490 | total = n; the fraudulent count is that of the split; fraud + normal = n; fraud rate = fraud / total; `unique_users` is the given user count |
| Report.SummaryLocations | app.py:493 | `unique_locations` equals the number of rows of the city table |
| Report.BreakdownFacts | app.py:452-516 | city and payment-method rows: distinct keys that are exactly the occurring values, per-key counts with fraud ≤ total, totals summing to n |
| Report.PatternFacts | app.py:444-498 | pattern rows: distinct patterns occurring among the fraudulent transactions, counts of at least 1 summing to the fraudulent count |
| Report.PatternLabels | app.py:444-449 | no pattern row has the empty label, and each row's pattern is the label of some input transaction |

## Left out

- The Flask layer (routing, JSON, templates, request parsing) is left out. Only the start guard and the clear route are modelled, as state transitions.
- Threads, `time.sleep` and the daemon flag are left out. The concurrent stop is modelled by `stopAfter`, which makes the flag checks see the stop at a chosen unit. Real interleaving is not modelled.
- Faker, uuid, `uuid4().hex[:8]` and the numpy Gaussian are foreign random producers. Their results are opaque strings or reals inside the draw records.
- `progress_callback` and logging are left out. They are output only.
- `datetime.utcnow`, `timedelta` and `isoformat` strings are left out. Timestamps are integer seconds from a per-batch base.
- The coordinates and time zones of the location table are left out. They are static data that no operation reads.
- Floating-point arithmetic is left out:
  - `Round2` and `Round3` round half up on exact reals, while Python rounds binary floats half to even;
  - sums and ratios are exact.
- The merchants' and users' risk tiers and the user's name, email and phone are carried as drawn values only.
- Users.BuildUser: its own contract states only the id and the user invariant. The field bounds are stated by `Users.BuildUserFacts`.
- Report.Fraudulent: its own contract states only a length bound. Its members are stated by `Report.SplitMembers`, and its relation to the rest of the report by `Report.SplitCounts`, `Report.GroupedSums` and `Report.SummaryCounts`.
- Report.Normal: its own contract states only a length bound. Its members are stated by `Report.SplitMembers` and its count by `Report.SplitCounts`.
- Generators.EscalationAmount: its own contract states only a lower bound. The exact amount of each step is stated by `Generators.AmountEscalationItem`, and the growth by `Generators.EscalationAmountsIncrease`.
- Simulation.Simulator.RunSimulation: the run requires the drawn user ids to be pairwise distinct. uuid4 makes a collision only improbable, and the model does not capture the smaller user dictionary a collision would give.
- Default arguments are not modelled: every operation takes all its arguments explicitly. The generators' default counts (10, 5, 8, 6 and 12), the defaults of `run_simulation` (24 hours, 100 per hour, rate 0.15) and those of the run route (1, 100, `[]`, 0.15; app.py:537-540) are the caller's to pass.
- Simulation.Simulator.RunSimulation: the hour and per-hour counts are `nat`. In Python a negative count gives an empty loop that still creates 50 users; the model does not take negative counts.
- `SummaryOf` gives the fraud-amount percentage and the average risk score on reals. No property beyond their definitions is proved about them.
