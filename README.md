# Gear-vibration optimizer and its MQTT peers, in Dafny

This project models five parts of a gear test-rig controller:

- **The Top-1-of-3 adaptive optimizer** (`RL/Control/control_test.py`). It measures three candidate offsets around the current position, scores them, chooses one, adapts its step sizes and moves by a low-pass filter.
  - Scoring is either a compressed, normalised vibration index (continuous mode) or a weighted rank sum (rank mode).
  - The optimizer comes twice: as functions of its state (`OptimizerSpec`, with `Scoring`, `Stats` and `Selection`), and as a class whose methods update their fields in place (`Optimizer.Top1of3`). Each method is proved to reach the state the functions compute.
- **The A-client** (`RL/test_RL_network.py`). It drives the optimizer over MQTT and keeps a table of pending point queries.
  - The table is resolved by result messages. A retry loop re-publishes one request id.
  - The client also handles start/stop commands, merges settings and runs a stop-checking loop around `iterate()`.
  - It is modelled by `AClientSpec` (functions of the client state) and `AClient.RLMqttClient` (the class).
- **The B-client** (`RL/simulated_b_client.py`). It answers point commands with a result or error message and keeps a busy flag. It is modelled by `BClient`, including the round trip from its result message to the A-client's feature dictionary.
- **The nested configuration** (`RL/config_manager.py`). It offers a path lookup and a path assignment that creates missing levels. It is modelled by `Config`.
- **The interference analyzer's arithmetic** (`analysis/gear_interference_analyzer.py`). It is modelled by `Interference` and covers:
  - the half-open distance bands;
  - the point counts;
  - the two severity scores and the severity level;
  - the large-overlap cascade;
  - the box overlap.

## Modelling choices

- **Numbers.** Floating point numbers are `real`.
- **Logarithms.** `math.log1p` and `np.log` are a parameter `ln: real -> real`. Lemmas that need it assume only `ln(1) == 0` and strict monotonicity (`Scoring.IsLn`).
- **Best reward.** `best_reward` starts at minus infinity, written `ExtReal.NegInf`.
- **Exceptions.** Python exceptions are `Result` values of the error kinds the code raises: `KeyError`, `IndexError`, `TypeError`, `ValueError`, `ConnectionError`, `TimeoutError`. Errors travel by `:-`.
- **The measurement function.** `run_fn` is an oracle `run(n, p)`: the n-th reading overall, taken at point `p`. The optimizer records the points it was called at (`probes`).
- **MQTT.**
  - Publishing appends a `Publish(topic, payload, retain)` to a ghost `outbox`.
  - An inbound message is a method call.
  - A timed wait is an oracle: `deliver(attempt)` lists the result payloads that arrive during one attempt's wait.
  - `inbound(i)` lists the messages handled before iteration `i` of the stop-checking loop.
  - `late` lists the messages handled after that loop returns and before the session reads the stop flag, such as a STOP that arrives during the last iteration.
- **JSON.** Payloads are JSON values (`Json.Json`). A missing key read with `.get` is `JNull`.

Where the code and its own comments or documentation disagree, the model follows the code:

- In `run_with_stop_check` the improvement test at `RL/test_RL_network.py:470` compares the best reward returned by `iterate()` with itself. With a non-negative epsilon it never holds, so the counter rises once more after every completed iteration (`AfterIterateCountsAgain`, `StopLoopCounterNeverZero`).
- The end message's `best_position` is the optimizer's last position, not the position of the best reward. `run_with_stop_check` returns the current `x`/`y`.
- Missing required feature keys are filled with 0.0, not rejected.
- An `error` result message never resolves a waiting query. The waiter times out instead.
- An exception inside `iterate()` ends the stop-checking loop quietly. The session then goes on to the final measurement and the `end` message.

## Model

| member | source | states |
|---|---|---|
| Scoring.Winsor | RL/Control/control_test.py:81-84 | with both bounds given (lo ≤ hi) the result lies in [lo, hi]; a value already inside the given bounds, or with no bounds, is returned unchanged |
| Scoring.Log1pCompress | RL/Control/control_test.py:86-87 | a negative input is compressed as 0, a non-negative one by log1p itself |
| Scoring.Log1pCompressNonNeg | RL/Control/control_test.py:86-87 | log1p_compress is ≥ 0, and is 0 for every non-positive input |
| Scoring.Log1pCompressMonotone | RL/Control/control_test.py:86-87 | log1p_compress is monotone |
| Scoring.MaxAxis | RL/Control/control_test.py:89-90 | defined exactly when the _x, _y and _z keys are all present (KeyError otherwise); the result is one of the three values and at least each of them |
| Scoring.StepCost | RL/Control/control_test.py:92-94 | the squared move distance is ≥ 0 and is 0 for a candidate at the previous position |
| Scoring.UnsafeIff | RL/Control/control_test.py:96-99 | with the six channels present, unsafe iff some Time_rms channel is strictly above time_rms_max or some Time_crestfactor channel strictly above time_cf_max; equality is safe |
| Scoring.Unsafe | RL/Control/control_test.py:96-99 | with the six channels present it always answers; a missing Time_rms channel raises KeyError, and KeyError is the only failure |
| Scoring.UnsafeNeedsRmsAxes | RL/Control/control_test.py:89-99 | a reading that lacks any one of the three Time_rms channels raises KeyError before any comparison |
| Scoring.Components | RL/Control/control_test.py:110-126 | the only failure is KeyError |
| Scoring.ComponentsDefinedIff | RL/Control/control_test.py:110-117 | the components are defined iff the required keys and the three channels of the five metrics are present |
| Scoring.ComponentsBounds | RL/Control/control_test.py:119-126 | every component is ≥ 0; skewness and kurtosis, winsorised to [0, 100] first, are at most log1p(100) |
| Scoring.CompositeIndexA | RL/Control/control_test.py:128-130 | defined iff the components are, and then equal to minus the weighted sum of the five components |
| Scoring.RewardFromFeats | RL/Control/control_test.py:132-134 | defined iff the components are, and then exactly the composite index (the negated CVI) plus the move penalty; RewardFormula writes it out for the optimizer's penalty |
| Scoring.RewardFormula | RL/Control/control_test.py:128-134 | the reward of a safe candidate written out: −(w_trms·trms_n + … + w_fkurt·fkurt_n) + lambda_move·((cx−px)² + (cy−py)²) |
| Scoring.WeightedSumMonotone | RL/Control/control_test.py:130 | with non-negative weights the CVI is monotone in each component |
| Scoring.NormaliseMonotone | RL/Control/control_test.py:119-122 | dividing by max(ref, 1e-12) is monotone |
| Scoring.WinsorMonotone | RL/Control/control_test.py:81-84 | winsor with ordered bounds is monotone |
| Scoring.MaxAxisMonotone | RL/Control/control_test.py:89-90 | a reading at least as large on every channel has a maximum at least as large |
| Scoring.RewardMonotone | RL/Control/control_test.py:110-134 | with non-negative weights, a reading larger on every channel scores no higher (more vibration, less reward) |
| Stats.Insert | RL/Control/control_test.py:106 | insertion into a sorted list keeps it sorted and adds exactly the element (multiset) |
| Stats.SortAsc | RL/Control/control_test.py:106 | the sort `statistics.median` applies is sorted and a permutation of its input |
| Stats.Median | RL/Control/control_test.py:106 | `statistics.median`: the middle of the sorted values, or the mean of the two middle ones; MedianWithin, MedianOddIsElement and MedianSingleton state its properties |
| Stats.MedianWithin | RL/Control/control_test.py:106 | the median lies within any bounds every value satisfies |
| Stats.MedianOddIsElement | RL/Control/control_test.py:106 | with an odd count the median is one of the values |
| Stats.MedianSingleton | RL/Control/control_test.py:106 | the median of one value is that value |
| Stats.Column | RL/Control/control_test.py:106 | `[b[k] for b in batch]`: one entry per reading, the reading's value of k |
| Stats.PerKeyMedian | RL/Control/control_test.py:101-107 | an empty batch raises IndexError on `batch[0]`; defined iff every key of the first reading is in every reading (KeyError otherwise); the output has exactly the first reading's keys |
| Stats.MedianMap | RL/Control/control_test.py:103-107 | the median dictionary has exactly the keys of the first reading |
| Stats.PerKeyMedianSingleton | RL/Control/control_test.py:101-107 | the per-key median of one reading is that reading |
| Stats.ColumnSingleton | RL/Control/control_test.py:106 | the column of a single reading has that reading's value as median |
| Stats.PerKeyMedianWithin | RL/Control/control_test.py:101-107 | each median value lies between bounds that hold for that key in every reading |
| Stats.MedianMapExt | RL/Control/control_test.py:103-107 | any dictionary over the first reading's keys holding each column's median is the median map |
| Stats.ColumnOf | RL/Control/control_test.py:106 | the comprehension loop returns the column exactly when every reading has the key |
| Stats.MedianFeats | RL/Control/control_test.py:101-107 | the dictionary-filling loop computes the per-key median, with the same errors |
| Selection.ArgMaxFirst | RL/Control/control_test.py:274 | `max(idxs, key=…)`: a largest key, and the first position among equals |
| Selection.ArgMinFirst | RL/Control/control_test.py:265 | `min(idxs, key=…)`: a smallest key, and the first position among equals |
| Selection.Rank | RL/Control/control_test.py:151-152 | the `argsort().argsort()` rank: how many entries come before, ties ordered by index; RankBound, RankMonotone, RankDistinct and RankStrictMin state its properties |
| Selection.RankBound | RL/Control/control_test.py:151-152 | `argsort().argsort()` ranks lie in [0, n) |
| Selection.RankMonotone | RL/Control/control_test.py:151-152 | a strictly smaller entry has a strictly smaller rank |
| Selection.RankDistinct | RL/Control/control_test.py:151-152 | distinct positions get distinct ranks, ties included |
| Selection.RankStrictMin | RL/Control/control_test.py:151-152 | a strictly smallest entry has rank 0 |
| Selection.RankPermutation3 | RL/Control/control_test.py:151-157 | over three candidates each column's ranks are exactly {0, 1, 2}, unsafe candidates included |
| Selection.AllComponents | RL/Control/control_test.py:147 | defined iff every candidate's components are, one per candidate; otherwise KeyError |
| Selection.RankAggregate | RL/Control/control_test.py:137-160 | defined iff every candidate's components are, and then the rank score of every candidate; otherwise KeyError |
| Selection.RankScores | RL/Control/control_test.py:153-159 | one rank score per candidate, entry i being the weighted rank sum of candidate i |
| Selection.RankScore | RL/Control/control_test.py:153-159 | the weighted sum of a candidate's five column ranks; RankScoreBounds, RankScoreStrictBest and RankScoreDominance state its properties |
| Selection.RankCompsBound | RL/Control/control_test.py:153-157 | over at most three candidates every rank lies in [0, 2] |
| Selection.RankScoreBounds | RL/Control/control_test.py:158-159 | with non-negative weights a rank score lies in [0, 2·Σw] |
| Selection.RankScoreStrictBest | RL/Control/control_test.py:151-159 | a candidate strictly smallest on all five components scores 0 |
| Selection.RankScoreStrictGap | RL/Control/control_test.py:151-159 | with non-negative weights every other candidate then scores at least the sum of the weights |
| Selection.RankScoreDominance | RL/Control/control_test.py:151-159 | a candidate strictly better on all five components than another scores no higher |
| Selection.SafeIdxs | RL/Control/control_test.py:255 | the safe indices, ascending, all and only the candidates not flagged unsafe |
| Selection.Tied | RL/Control/control_test.py:269 | exactly the safe indices whose score is within 1e-9 of the best |
| Selection.RankWinner | RL/Control/control_test.py:261-271 | a safe index within tolerance of the minimum score; without tie-breaking the first minimum; with it no tied safe index has a larger reward |
| Selection.TiedList | RL/Control/control_test.py:268-270 | the tied list is never empty and, when it has one element, is the first minimum itself |
| Selection.TieBreakIsBest | RL/Control/control_test.py:269-271 | the reward maximum of the tied list beats every tied safe index |
| Selection.RewardWinner | RL/Control/control_test.py:274 | a safe index with the largest reward, and the lowest such index |
| Selection.RankWinnerNoTies | RL/Control/control_test.py:265 | without tie-breaking the winner has the smallest score and is the lowest index among equal scores |
| Selection.StrictBestWins | RL/Control/control_test.py:261-271 | a safe candidate strictly best on all five components is the rank-mode winner, with or without tie-breaking, once the weights are non-negative and sum to at least the 1e-9 tolerance |
| OptimizerSpec.Clip | RL/Control/control_test.py:195-198 | with ordered limits the result is inside them; a coordinate already inside is unchanged |
| OptimizerSpec.Candidates | RL/Control/control_test.py:188-214 | three candidates, each inside ordered limits |
| OptimizerSpec.Measure | RL/Control/control_test.py:200-209 | `_measure_feats`: calls only at the given point, at most K of them, earlier calls kept |
| OptimizerSpec.CandidatesUnclipped | RL/Control/control_test.py:188-193 | inside wide enough limits the candidates are pos + (sx, 0), pos + (−0.5·sx, 0.866·sy), pos + (−0.5·sx, −0.866·sy) |
| OptimizerSpec.MeasureLoop | RL/Control/control_test.py:200-209 | only appends calls at the candidate point, and at most K − (readings so far) of them |
| OptimizerSpec.Finish | RL/Control/control_test.py:208-209 | a finished batch is never flagged unsafe |
| OptimizerSpec.MeasureNoCalls | RL/Control/control_test.py:203-208 | with K ≤ 0 no call is made and `_median_feats([])` raises IndexError |
| OptimizerSpec.MeasureSingle | RL/Control/control_test.py:208 | K = 1 with a safe reading returns that reading unchanged, after one call |
| OptimizerSpec.MeasureUnsafeIsReading | RL/Control/control_test.py:204-206 | an unsafe result is the latest reading itself, which is unsafe |
| OptimizerSpec.MeasureSafeUsesAllCalls | RL/Control/control_test.py:203-209 | a safe result comes after exactly K calls, each safe |
| OptimizerSpec.MeasureCand | RL/Control/control_test.py:221-231 | measures only at the candidate; an unsafe candidate has reward −1e9, a safe one the reward of its reading with the move penalty |
| OptimizerSpec.RoundLoop | RL/Control/control_test.py:221-231 | the three candidates are measured in order, each by the rule above; probes only at candidates |
| OptimizerSpec.Flags | RL/Control/control_test.py:223 | the unsafe flags, one per candidate |
| OptimizerSpec.Rewards | RL/Control/control_test.py:226-231 | the rewards, one per candidate |
| OptimizerSpec.FeatsOf | RL/Control/control_test.py:224 | the feature dictionaries, one per candidate |
| OptimizerSpec.Choose | RL/Control/control_test.py:255-274 | the winner is a safe candidate; only rank mode can fail, with KeyError |
| OptimizerSpec.Decide | RL/Control/control_test.py:233-298 | deciding makes no measurement |
| OptimizerSpec.Adapt | RL/Control/control_test.py:283-291 | the adaptation touches neither the position nor the recorded calls, and the counter is either reset or one higher |
| OptimizerSpec.Iterate | RL/Control/control_test.py:211-298 | `iterate()`: the round of measurements, then the decision; the Iterate* lemmas state its properties |
| OptimizerSpec.RunLoop | RL/Control/control_test.py:300-319 | at most max_iters iterations, one history entry per completed iteration numbered from 1; none at all once the counter has reached patience, and every entry but the last has a counter below patience, the last the final counter; a normal end means patience reached or max_iters done, returning the final position and best reward |
| OptimizerSpec.Run | RL/Control/control_test.py:300-319 | `run()` from iteration 0: at most max_iters history entries, none when the counter starts at patience, and a normal end returns the final position and best reward |
| OptimizerSpec.RunLoopInvariants | RL/Control/control_test.py:300-319 | a step that keeps the sigma bounds and never lowers the best reward keeps both over the whole run |
| OptimizerSpec.ShrinkValid | RL/Control/control_test.py:247-248 | shrinking keeps sigmas within [min, max] and never grows them |
| OptimizerSpec.GrowValid | RL/Control/control_test.py:286-287 | growing keeps sigmas within [min, max] and never shrinks them |
| OptimizerSpec.DecideStepsValid | RL/Control/control_test.py:246-291 | given 0 ≤ sig_min ≤ sig ≤ sig_max and down_scale ≤ 1 ≤ up_scale, a decision keeps those bounds |
| OptimizerSpec.IterateStepsValid | RL/Control/control_test.py:211-298 | so does every iteration, including one that raises |
| OptimizerSpec.AdaptBestMonotone | RL/Control/control_test.py:283-291 | with epsilon ≥ 0 the adaptation never lowers best_reward |
| OptimizerSpec.DecideBestMonotone | RL/Control/control_test.py:246-291 | neither does a decision |
| OptimizerSpec.IterateBestMonotone | RL/Control/control_test.py:211-298 | nor an iteration |
| OptimizerSpec.DecideReturnsState | RL/Control/control_test.py:294-298 | what a decision returns is the new position and best reward, and the counter stays non-negative |
| OptimizerSpec.IterateReturnsState | RL/Control/control_test.py:211-298 | the same for a whole iteration |
| OptimizerSpec.DecideAllUnsafe | RL/Control/control_test.py:246-252 | all unsafe: position and best_reward unchanged, both sigmas shrunk, counter + 1, no winner |
| OptimizerSpec.IterateAllUnsafe | RL/Control/control_test.py:246-252 | the same for the iteration whose three candidates were all unsafe |
| OptimizerSpec.DecideCounter | RL/Control/control_test.py:283-291 | with a winner: counter reset and best := r_best exactly when r_best > best + epsilon; otherwise counter + 1 and best unchanged |
| OptimizerSpec.DecideMove | RL/Control/control_test.py:294-296 | with a winner the new position is clip((1 − α)·pos + α·winner) |
| OptimizerSpec.ChooseRewardWinner | RL/Control/control_test.py:274 | continuous mode picks the safe candidate with the largest reward, the first on ties |
| OptimizerSpec.ChooseRankStrictBest | RL/Control/control_test.py:255-271 | in rank mode a safe candidate strictly best on all five components is chosen, given non-negative weights summing to at least 1e-9 |
| OptimizerSpec.DecideKeepsInsideLimits | RL/Control/control_test.py:294-296 | a position inside the limits stays inside |
| OptimizerSpec.IterateKeepsInsideLimits | RL/Control/control_test.py:211-298 | the same over an iteration |
| OptimizerSpec.IterateProbesInsideLimits | RL/Control/control_test.py:212-222 | every point the measurement function is called at is inside the limits |
| OptimizerSpec.IterateErrorKeeps | RL/Control/control_test.py:246-274 | an iteration that raises leaves position, best_reward and counter as they were, and the sigmas unchanged or shrunk once |
| OptimizerSpec.RunInvariants | RL/Control/control_test.py:300-319 | over `run()` the sigmas stay within bounds and best_reward never drops |
| Optimizer.Top1of3.constructor | RL/Control/control_test.py:164-186 | the start position is taken unclipped, best_reward is −∞, counter 0, history empty |
| Optimizer.Top1of3.MeasureFeatsAt | RL/Control/control_test.py:200-209 | the measuring loop reaches the state and result of the measurement function, changing only probes |
| Optimizer.Top1of3.MeasureCandidate | RL/Control/control_test.py:221-231 | one pass of the candidate loop, as specified |
| Optimizer.Top1of3.Decide | RL/Control/control_test.py:233-298 | the in-place decision reaches the specified new state and result |
| Optimizer.Top1of3.AdaptSteps | RL/Control/control_test.py:283-291 | the in-place adaptation reaches the specified state |
| Optimizer.Top1of3.Iterate | RL/Control/control_test.py:211-298 | `iterate()` updates x, y, sigmas, best_reward and counter as OptimizerSpec.Iterate computes |
| Optimizer.Top1of3.Run | RL/Control/control_test.py:300-319 | `run()` reaches the state, history and result of RunLoop |
| AClientSpec.MergeKeys | RL/test_RL_network.py:183-185 | a key is in the result iff it was in the settings or is a listed key in the data; listed keys present in the data take the data's value, all others keep theirs |
| AClientSpec.MergeSettingsIdempotent | RL/test_RL_network.py:179-186 | applying the same data twice equals applying it once |
| AClientSpec.MergeSettingsOthers | RL/test_RL_network.py:181-185 | a key outside the eight setting keys keeps its entry or its absence |
| AClientSpec.Dispatch | RL/test_RL_network.py:109-177 | one message keeps is_running and the table's keys, only appends to the outbox, and starts a run only when none is running |
| AClientSpec.Resolve | RL/test_RL_network.py:160-177 | the table keeps its keys; a non-empty string req_id that is pending gets the payload stored and its event set, anything else leaves the table unchanged |
| AClientSpec.ResolveOverwrites | RL/test_RL_network.py:169-174 | a second result for the same pending id before it is collected overwrites the first |
| AClientSpec.DeliverAll | RL/test_RL_network.py:160-177 | deliveries never add or remove table entries |
| AClientSpec.DeliverAllSets | RL/test_RL_network.py:160-177 | an unset entry becomes set iff some delivered message is a result_feature_set carrying its id; its stored payload is then such a message |
| AClientSpec.DispatchAll | RL/test_RL_network.py:109-177 | handling messages in order keeps is_running and the table's keys, and only appends to the outbox |
| AClientSpec.DispatchPendingKeys | RL/test_RL_network.py:109-177 | no handler adds a table entry; only the result branch touches the table |
| AClientSpec.DispatchIgnoresErrors | RL/test_RL_network.py:159-160 | an `error` result message changes nothing |
| AClientSpec.DispatchStart | RL/test_RL_network.py:124-142 | START while running publishes the "running" status and starts nothing; otherwise stop_requested := False and a run starts |
| AClientSpec.DispatchStop | RL/test_RL_network.py:145-157 | STOP always sets stop_requested and publishes "stopping" only while running |
| AClientSpec.WaitLoop | RL/test_RL_network.py:251-272 | the req_id entry is removed; every publish is the same command; a timeout comes after exactly retries + 1 publishes, a success after 1 to retries + 1; other state is untouched (WaitLoopStopsAtFirstAnswer ties success and timeout to the answers delivered) |
| AClientSpec.SendShape | RL/test_RL_network.py:234-272 | disconnected: Ok(None) and nothing published; connected: only identical commands with the one req_id, at most retries + 1, exactly that many on TimeoutError; a fresh id leaves the table's key set as before (SendStopsAtFirstAnswer states when it succeeds) |
| AClientSpec.WaitLoopStopsAtFirstAnswer | RL/test_RL_network.py:251-272 | an Ok result comes at the first attempt whose results answer the query, after exactly one publish per attempt up to it; a TimeoutError means no attempt up to retries was answered |
| AClientSpec.SendStopsAtFirstAnswer | RL/test_RL_network.py:234-272 | connected: success at the first answered attempt after that attempt + 1 publishes; TimeoutError only when none of the retries + 1 attempts was answered |
| AClientSpec.WaitLoopCollects | RL/test_RL_network.py:260-265 | a collected payload is a result_feature_set message carrying the query's own req_id |
| AClientSpec.SendSpec | RL/test_RL_network.py:229-272 | disconnected: Ok(None) with nothing changed; otherwise is_running and the settings are untouched (SendShape states the rest) |
| AClientSpec.ZipDict | RL/test_RL_network.py:209 | zip-dict has exactly the listed names as keys |
| AClientSpec.ZipDictDistinct | RL/test_RL_network.py:209 | with distinct names each name maps to the value at its own position |
| AClientSpec.WithDefaults | RL/test_RL_network.py:213-218 | every required key present; original entries kept; added entries are required keys mapped to 0.0 |
| AClientSpec.Strings | RL/test_RL_network.py:201 | the names are defined iff every item is a string, item by item |
| AClientSpec.Numbers | RL/test_RL_network.py:202 | the values are defined iff every item is a number, item by item |
| AClientSpec.ParseResult | RL/test_RL_network.py:199-223 | a result has all required keys; no result or no features/values raises ValueError, and so do lists of different lengths; features or values that are not lists raise TypeError; failures are ValueError or TypeError only |
| AClientSpec.RunControlSpec | RL/test_RL_network.py:188-227 | disconnected: ConnectionError with nothing changed; otherwise is_running and the settings are untouched (RunControlShape states the rest) |
| AClientSpec.RunControlShape | RL/test_RL_network.py:188-227 | disconnected: ConnectionError, nothing published; connected: 1 to 4 identical commands, and a result carries every required key |
| AClientSpec.AfterIterateCountsAgain | RL/test_RL_network.py:459-475 | since iterate() returns its own best_reward, with epsilon ≥ 0 the test fails and the counter rises by one more |
| AClientSpec.StopLoop | RL/test_RL_network.py:451-487 | at most max_iters entries appended to the history, earlier ones kept; is_running untouched |
| AClientSpec.StopLoopClient | RL/test_RL_network.py:451-487 | the loop only appends to the outbox |
| AClientSpec.StopLoopChecksFirst | RL/test_RL_network.py:452-455 | a stop request seen at the top of an iteration ends the loop before iterate() runs |
| AClientSpec.StopLoopSwallowsErrors | RL/test_RL_network.py:458-485 | an exception in iterate() ends the loop with the state it left, without propagating |
| AClientSpec.StopLoopCounterNeverZero | RL/test_RL_network.py:459-481 | with epsilon ≥ 0, once the counter is at least 1 it stays at least 1 for the rest of the loop, whatever iterate() does to it |
| AClientSpec.ReadParams | RL/test_RL_network.py:294-330 | the only failures are KeyError and TypeError; on success the start point is the configured start_x, start_y |
| AClientSpec.SessionBody | RL/test_RL_network.py:283-441 | the try block keeps is_running (SessionBodyShape states the rest) |
| AClientSpec.SessionEnd | RL/test_RL_network.py:361-418 | after the loop: the stop flag and is_running as found, and one or two messages appended to the outbox |
| AClientSpec.Session | RL/test_RL_network.py:274-444 | a session leaves is_running as it found it (SessionShape states the rest) |
| AClientSpec.SessionBodyShape | RL/test_RL_network.py:283-441 | the try block keeps is_running and the earlier outbox, publishes something, and a stopped run ends with the `stopped` end message and status |
| AClientSpec.SessionShape | RL/test_RL_network.py:274-444 | a session publishes "running" first and always clears is_running; when it started (parameters read, first measurement taken) and a stop request is pending at the end, its last two messages are the `stopped` end message and status |
| AClientSpec.SessionWhileRunning | RL/test_RL_network.py:276-278 | a session started while one runs changes nothing |
| AClientSpec.StopStaysRequested | RL/test_RL_network.py:124-157 | while a run is on, no message clears a raised stop flag |
| AClientSpec.StopAmongMessages | RL/test_RL_network.py:145-157 | a STOP among the messages handled while a run is on leaves the flag raised |
| AClientSpec.SessionLateStop | RL/test_RL_network.py:358-380 | a STOP that arrives after the loop's last stop check still ends a started session with the `stopped` end message and status |
| AClient.RLMqttClient.constructor | RL/test_RL_network.py:35-57 | not connected, empty table, not running, no stop request, the eight default settings, nothing published |
| AClient.RLMqttClient.OnConnect | RL/test_RL_network.py:77-102 | on rc 0: connected and the retained "idle" status published; else nothing changes |
| AClient.RLMqttClient.OnDisconnect | RL/test_RL_network.py:104-107 | only the connected flag is cleared |
| AClient.RLMqttClient.Disconnect | RL/test_RL_network.py:505-516 | when connected the offline status is published; else nothing |
| AClient.RLMqttClient.UpdateSettings | RL/test_RL_network.py:179-186 | the settings loop reaches MergeSettings, nothing else changes |
| AClient.RLMqttClient.OnMessage | RL/test_RL_network.py:109-177 | the handler reaches the dispatch state; the result says whether a run thread starts |
| AClient.RLMqttClient.OnMessages | RL/test_RL_network.py:109-177 | a sequence of messages reaches DispatchAll |
| AClient.RLMqttClient.OnResults | RL/test_RL_network.py:160-177 | result deliveries change only the table, as DeliverAll |
| AClient.RLMqttClient.SendPointAndWait | RL/test_RL_network.py:229-272 | the retry loop reaches SendSpec's state and result |
| AClient.RLMqttClient.FillDefaults | RL/test_RL_network.py:213-218 | the filling loop computes WithDefaults |
| AClient.RLMqttClient.RunControl | RL/test_RL_network.py:188-227 | reaches RunControlSpec's state and result |
| AClient.RLMqttClient.RecordIteration | RL/test_RL_network.py:459-475 | the position, best_reward and counter update after one iterate(), and one history entry appended |
| AClient.RLMqttClient.RunWithStopCheck | RL/test_RL_network.py:446-489 | the client, the optimizer and its history reach StopLoop's state; returns the current position and best_reward |
| AClient.RLMqttClient.RunRLOptimization | RL/test_RL_network.py:274-444 | the session reaches Session's state, including the messages handled after the loop |
| AClient.RLMqttClient.FinishSession | RL/test_RL_network.py:358-418 | the late messages, the stop check, the reading after and the end message reach SessionEnd |
| BClient.HandleCommand | RL/simulated_b_client.py:144-173 | busy: nothing; a job starts only when idle, sets busy, carries the command's non-null req_id and formattable x, y |
| BClient.MalformedCommandBlocks | RL/simulated_b_client.py:150-160 | a command whose point is an object but which lacks req_id, x or y starts nothing and leaves busy set, so a later command is dropped too |
| BClient.StuckIffLacksField | RL/simulated_b_client.py:150-160 | an idle client is left busy with nothing started exactly when the command lacks req_id, x or y |
| BClient.WellFormedCommandStarts | RL/simulated_b_client.py:150-169 | a well-formed A-client command while idle starts exactly its measurement |
| BClient.Report | RL/simulated_b_client.py:198-229 | published on the result topic, not retained, echoing the req_id; `result_feature_set` iff the measurement succeeded, `error` iff it failed |
| BClient.DispatchOnlyCommands | RL/simulated_b_client.py:118-124 | anything but a move_point command changes nothing and starts nothing |
| BClient.Dispatch | RL/simulated_b_client.py:109-124 | `on_message` publishes nothing and keeps the connection flag; a job starts only from a point command while idle, and sets busy |
| BClient.Finish | RL/simulated_b_client.py:231-232 | after a measurement, success or failure, the report is appended to the outbox and busy is cleared |
| BClient.DictOf | RL/simulated_b_client.py:182-191 | the measured dictionary has exactly the entries' keys |
| BClient.ZipRebuilds | RL/simulated_b_client.py:190-191 | zipping the features and values lists rebuilds the measured dictionary |
| BClient.DictOfDistinct | RL/simulated_b_client.py:190-191 | with distinct feature names each name maps to its own measured value |
| BClient.ResultRoundTrip | RL/simulated_b_client.py:189-203 | the A-client parses a B result into the measured dictionary with defaults filled in |
| BClient.ReportResolves | RL/simulated_b_client.py:198-229 | a success report resolves the pending query it answers; an error report changes nothing |
| BClient.InitialSettingsMerge | RL/simulated_b_client.py:126-141 | the A-client takes over all eight announced settings (22, −28, 17, 27, −33, −23, 0.0008, 0.0008), and not the B-client's sender tag |
| BClient.SimulatedBClient.constructor | RL/simulated_b_client.py:42-49 | not connected, not busy, nothing published |
| BClient.SimulatedBClient.OnConnect | RL/simulated_b_client.py:74-102 | on rc 0: connected, retained "ready" status, then the retained initial settings; else nothing changes |
| BClient.SimulatedBClient.OnDisconnect | RL/simulated_b_client.py:104-107 | only the connected flag is cleared |
| BClient.SimulatedBClient.HandlePointCommand | RL/simulated_b_client.py:144-173 | the flag changes as HandleCommand says, nothing is published |
| BClient.SimulatedBClient.OnMessage | RL/simulated_b_client.py:109-124 | reaches Dispatch's state and job |
| BClient.SimulatedBClient.ProcessPointMeasurement | RL/simulated_b_client.py:175-232 | publishes the report and clears busy, as Finish |
| Config.SetPath | RL/config_manager.py:71-84 | an empty path raises IndexError, a non-dictionary on the path TypeError; success gives a dictionary; on a dictionary a one-key path, or a path whose first key is new, always succeeds |
| Config.Lookup | RL/config_manager.py:63-69 | a non-None answer for a non-empty path means the first key is present in a dictionary (LookupEmpty, LookupStops and SetThenGet state the rest) |
| Config.LookupEmpty | RL/config_manager.py:63-69 | get() with no keys returns the whole configuration |
| Config.LookupStops | RL/config_manager.py:64-68 | a lookup answers None as soon as a level is not a dictionary or lacks the key |
| Config.SetThenGet | RL/config_manager.py:79-84 | after set(*keys, value=v), get(*keys) is v and deeper paths read inside v |
| Config.SetKeepsSiblings | RL/config_manager.py:79-84 | a path leaving the set path anywhere reads the same before and after |
| Config.DefaultThresholdsOrdered | RL/config_manager.py:95-101 | the default thresholds are severe 2.0, medium 1.0, mild 0.5, contact 2.0, near 5.0, so mild < medium < severe and contact < near contact |
| Config.DefaultSections | RL/config_manager.py:88-113 | the default has a gear section and no position or visualization section |
| Config.ConfigManager.constructor | RL/config_manager.py:15-42 | the loaded configuration, or the default when the file is missing or malformed |
| Config.ConfigManager.Get | RL/config_manager.py:53-69 | the cursor loop computes Lookup |
| Config.ConfigManager.Set | RL/config_manager.py:71-84 | the walk-and-write loops reach SetPath's configuration, or leave it unchanged on error |
| Config.ConfigManager.GetGearParams | RL/config_manager.py:116-118 | the single-key lookup of gear_parameters |
| Config.ConfigManager.GetPositionParams | RL/config_manager.py:120-122 | the single-key lookup of position_parameters |
| Config.ConfigManager.GetAnalysisParams | RL/config_manager.py:124-126 | the single-key lookup of analysis_parameters |
| Config.ConfigManager.GetVibrationParams | RL/config_manager.py:128-130 | the single-key lookup of vibration_parameters |
| Config.ConfigManager.GetVisualizationParams | RL/config_manager.py:132-134 | the single-key lookup of visualization_parameters |
| Interference.ThresholdOr | analysis/gear_interference_analyzer.py:21-26 | an absent threshold gives the fallback; only a present non-number fails |
| Interference.AnalyzerThresholds | analysis/gear_interference_analyzer.py:16-26 | fails only with TypeError, and only succeeds on a configuration whose analysis section is a dictionary |
| Interference.DefaultConfigThresholds | analysis/gear_interference_analyzer.py:16-26 | the analyzer on the default configuration uses 2.0, 1.0, 0.5, 2.0, 5.0, which satisfy severe ≥ medium ≥ mild ≥ 0 ≤ contact ≤ near |
| Interference.FallbackThresholds | analysis/gear_interference_analyzer.py:21-26 | without a thresholds section the fallbacks 3.0, 1.5, 0.75, 3.0, 7.5 apply, and are ordered too |
| Interference.AdjustedSign | analysis/gear_interference_analyzer.py:340-345 | d·(1 + max(alignment, 0)) keeps the sign of d, and is zero iff d is |
| Interference.GapIsNoOverlap | analysis/gear_interference_analyzer.py:340-369 | a point with d ≥ 0 is never in the severe, medium or mild band |
| Interference.InBand | analysis/gear_interference_analyzer.py:349-391 | with ordered thresholds every band lies below the near-contact width, and the severe, medium and mild bands below zero |
| Interference.BandsPartition | analysis/gear_interference_analyzer.py:349-391 | with ordered thresholds the bands are pairwise disjoint, and a distance is in some band iff it is below the near-contact width |
| Interference.Select | analysis/gear_interference_analyzer.py:356-391 | the masked samples: ascending indices, each in the band, and every sample in the band |
| Interference.AdjustAll | analysis/gear_interference_analyzer.py:344-345 | one adjusted distance per sample |
| Interference.Classify | analysis/gear_interference_analyzer.py:331-393 | exactly the ten point keys severe/medium/mild/contact/near for both gears |
| Interference.SelectDisjoint | analysis/gear_interference_analyzer.py:356-391 | with ordered thresholds no sample is in two bands' selections |
| Interference.ClassifyCoversPinion | analysis/gear_interference_analyzer.py:356-391 | a pinion sample is in one of the five pinion sets iff its adjusted distance is below the near-contact width |
| Interference.CountKeyInjective | analysis/gear_interference_analyzer.py:530-531 | distinct point keys give distinct count keys |
| Interference.EnhancedStatistics | analysis/gear_interference_analyzer.py:522-556 | one `<key>_count` per point set with its size; total interference = the six severe/medium/mild sizes; total contact = the two contact sizes; all five metrics (overlap ratio, directional score, minimum and average minimum distance, overlap volume) copied; KeyError iff one of the eight counted point sets or a metric is missing, the near-contact sets being counted only when present |
| Interference.SimpleSeverityScore | analysis/gear_interference_analyzer.py:693-726 | 0 without results; otherwise in [0, 100] |
| Interference.SimpleSeverityMonotone | analysis/gear_interference_analyzer.py:706-726 | the score is monotone in every count |
| Interference.WeightedCount | analysis/gear_interference_analyzer.py:706-726 | fails only with KeyError; succeeds only with the eight counts present, and is 0 exactly when they all are |
| Interference.DetectLargeOverlap | analysis/gear_interference_analyzer.py:395-475 | the first matching distance criterion names the severity; mild (or normal) is not major unless the box ratio exceeds 0.5, which forces major with ratio max(criterion ratio, box ratio) |
| Interference.Cascade | analysis/gear_interference_analyzer.py:414-437 | an overlap is major exactly when it is named critical enclosure, severe or medium, and its ratio lies in [0, 0.8] |
| Interference.BoxRatioBounds | analysis/gear_interference_analyzer.py:446-455 | the box overlap ratio is 0 for non-overlapping boxes and in (0, 1] otherwise |
| Interference.VolumeOverlapOf | analysis/gear_interference_analyzer.py:276-294 | boxes disjoint on any axis give volume and ratio 0; overlapping boxes a positive volume |
| Interference.LevelMonotone | analysis/gear_interference_analyzer.py:800-817 | a higher score never gets a milder level |
| Interference.LevelOf | analysis/gear_interference_analyzer.py:800-817 | critical exactly from 80 on, normal exactly below 10 |
| Interference.OverlapBonus | analysis/gear_interference_analyzer.py:745-760 | the bonus is one of 0, 10, 20, 30, 40 and non-zero only for a present major overlap |
| Interference.CalculateSeverity | analysis/gear_interference_analyzer.py:728-830 | the score is the sum of the factors clamped to [0, 100]; the level is the first of 80/60/40/25/10 it reaches; each factor is its formula over the counts read (density, severe share, volume, directional, distance bonus); it succeeds with supplied statistics and, without them, exactly when the counted point sets and the metrics are present, failing only with KeyError |
| Interference.CountsRead | analysis/gear_interference_analyzer.py:732-737 | the total and the severe count are those of the supplied statistics, or the point-set sizes when the analyzer computes them |
| Interference.DistanceBonus | analysis/gear_interference_analyzer.py:787-797 | in [0, 15]; 0 unless the closest distance is below 5 (an absent one is infinite), 15 for a distance ≤ 0 |
| Interference.SeverityFactorBounds | analysis/gear_interference_analyzer.py:762-777 | with at most as many severe points as interference points the severe factor lies in [0, 30] and the density term in [0, 35] |
| Interference.SeverityFactorsFromCounts | analysis/gear_interference_analyzer.py:762-777 | with counts the analyzer computes itself, the severe factor lies in [0, 30] and the density term in [0, 35] |

## Left out

- MQTT plumbing (client set-up, subscriptions, connect and loop, `main`), JSON encoding and decoding, timestamps and logging. A payload that fails to decode is an inbound message without a body.
- `send_start_signal` and `send_stop_signal` of the B-client, which are only used by its interactive main program.
- Threads, events and locks. A thread that `on_message` starts is the `startRun`/`job` result of the handler. A timed wait is an oracle of the messages that arrive during it.
- Inside a session the optimizer's measurement calls are the oracle `measure`. The point commands they publish and the table entries they create are not replayed in the session's outbox.
- The identifier `uuid4()` is a parameter `reqId`.
- `str(e)` in the error status. The model writes the error kind's name.
- Floating point. All arithmetic is on reals. `-inf` in the end message is written as `null`.
- AClientSpec.ParseResult: a `features` or `values` field that is not a list, a feature name that is not a string and a value that is not a number are each a TypeError at once. Python's `len` and `zip` accept any sized iterable, such as a string or a dictionary, and build the dictionary anyway or fail later.
- AClientSpec.Resolve: a truthy `req_id` that is not a string (a list or a dictionary) is ignored. Python's `_pending.get(req_id)` raises TypeError out of `on_message` for an unhashable one.
- A JSON payload that decodes to something other than an object is not modelled: the model's payloads are objects, while `data.get` raises AttributeError in both clients' `on_message`.
- AClientSpec.ReadParams: a setting that is not a number ends the session at once with an error status (TypeError). Python does not check the settings' types: a string limit fails inside `iterate()`, where the stop-checking loop swallows it; a string start point fails at a log line after the first point command; a bool is taken as 0 or 1.
- Selection.Rank: ranks of equal entries follow the entries' order, first index first. numpy's default `argsort` does not promise any order for ties, so with tied components the rank-mode winner may differ from the model's. RankBound, RankMonotone, RankStrictMin, RankPermutation3, StrictBestWins and ChooseRankStrictBest do not depend on the order of ties.
- BClient.ResultPayload: the `measurement_time` field, the duration of the measurement, is not part of the result message.
- Messages handled between the session's stop check and its end (during the final reading) are handled like any other, but their interleaving with the session's own publications is not modelled.
- The visualization call after a completed session, and all plotting.
- Config file loading and saving, `print_config` and `get_config`. The constructor takes the parsed file as an `Option`.
- The nested dictionaries are values, so aliasing between a returned sub-dictionary and the configuration is not modelled.
- Scoring.StepCost: states only ≥ 0 and zero at the previous position, not the converse.
- Interference.AnalyzerThresholds: a missing analysis section and a thresholds entry that is not a dictionary are both TypeError. Python raises AttributeError. A threshold that is present but not a number is rejected when read, while Python would store it and fail later.
- Interference.CalculateSeverity: the bounds of the severe factor and the density term hold only when the severe count does not exceed the total (SeverityFactorBounds), as for statistics the analyzer computed itself (SeverityFactorsFromCounts). Supplied statistics are taken as given. The description strings are not modelled.
- Interference.DetectLargeOverlap: the centre distance and the two radii are inputs. Their computation from the meshes is geometry. The printed report is not modelled.
- The analyzer's mesh queries are not modelled: nearest-point distances, alignments, directional scores, sampling, convex hulls, area and volume estimates. Their results are inputs.
- The exception path of `_calculate_volume_overlap`. Mesh volumes are `Option` inputs.
- The older `_classify_interference_points`, which the analyzer no longer calls.
