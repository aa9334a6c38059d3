# Battery doctrine option generator — a Dafny model

This project models the option-generation core of the OMIN battery doctrine
service. Given an air threat (type, count, range, speed, time to impact,
target priority), the battery's roster of available air-defence systems and
the operational constraints, the engine does the following:

- sorts the roster into premium (at least 400,000 per shot), moderate
  (30,000 up to that) and economical tiers;
- picks drone, mobile-group and helicopter sub-lists from the economical tier;
- runs the six doctrine templates in catalogue order: immediate premium
  engagement, drone-first, three-layer defence, minimal response,
  EW plus kinetic against FPV drones, and coordination with brigade;
- for every template whose trigger fires, computes a cost, a success
  estimate and the systems used, and emits one option per template that
  yields parameters.

An external ranking service scores the rendered option texts. Its answer is
merged back onto the options and each score is banded into HIGH, MEDIUM or
LOW. The HTTP front end converts a JSON request into the doctrine's models
through string lookups with fallbacks.

Modules, in dependency order:

- `Wrappers` (wrappers.dfy): `Option` and `Result`.
- `Numeric` (numeric.dfy): integer min and max, Python's `int()` truncation,
  the percentage conversion `int(p * 100)`, and the "at least one of two
  stages succeeds" combination.
- `Domain` (domain.dfy): the enumerations with their display values, the
  threat with its derived time to impact, the roster entry and the
  constraints.
- `Estimator` (estimator.dfy): the system specification table and the
  success-rate estimator (base probability × range factor × weather factor).
- `Situation` (situation.dfy): the missile summary, the tier categorisation,
  and the stable cost sort it relies on.
- `Calculators` (calculators.dfy): the six parameter calculators. Two of them
  are written as imperative methods (`ComputeMultiLayer` with its padding
  loop, `ComputeMinimal` with its step-by-step accumulation), each proved
  equal to its specification function.
- `Catalog` (catalog.dfy): the template catalogue, its triggers, the
  parameter dispatch and the option-generation loop.
- `Ranking` (ranking.dfy): merging the ranking service's answer onto the
  options.
- `Api` (api.dfy): the request records and their declared bounds, the
  lookups, and the request-to-model conversion.

Python floats are modelled as exact reals. Python's `int()` on a
non-negative float is `Numeric.TruncToInt`. The rendered option text is a
parameter (`Catalog.Renderer`), because the engine only compares those
texts for equality and passes them on.

## Model

| member | source | states |
|---|---|---|
| Domain.NewThreatInput | doctrine_service_multilayer.py:68-82 | Construction fails exactly when no time to impact is given and speed is zero (the division by zero). Otherwise every field is kept; a given time to impact is kept as is; a derived one satisfies time × speed = range × 60, and is non-negative for a non-negative range and positive speed. |
| Domain.ValuesAreDistinct | doctrine_service_multilayer.py:33-65 | Within each enumeration, distinct members have distinct display values. |
| Estimator.SystemSpec | doctrine_service_multilayer.py:127-187 | The table lists every system class except ZU-23-2 and Bukovel EW. Every listed base probability is in (0, 0.95] and every optimal range is positive. |
| Estimator.RangeFactor | doctrine_service_multilayer.py:429-433 | Beyond the optimal range the factor is in [0.6, 1); at or inside it, the factor is in [0.85, 1]. |
| Estimator.WeatherFactor | doctrine_service_multilayer.py:436-438 | The factor is 1 or 0.3, and it is 0.3 exactly for a helicopter in heavy clouds, rain or fog. |
| Estimator.SuccessRate | doctrine_service_multilayer.py:418-440 | The estimate lies in [0, 0.95]; a class missing from the table gets the 0.75 default. |
| Estimator.WeatherOnlyDegradesHelicopter | doctrine_service_multilayer.py:434-440 | Weather changes the estimate only for the helicopter in adverse weather, and then scales the nominal estimate by 0.3. |
| Estimator.RangeFactorJumpsAtOptimal | doctrine_service_multilayer.py:429-433 | The factor at exactly the optimal range is 0.85, which is below the factor just beyond it. |
| Estimator.SuccessRateNotMonotoneAtOptimal | doctrine_service_multilayer.py:422-440 | For every tabled system, the estimate at the optimal range is below the estimate at any range up to 30% farther. |
| Situation.TiersPartitionTotal | doctrine_service_multilayer.py:449-459 | The premium, moderate and economical missile sums add up to the roster's total. |
| Situation.Summarize | doctrine_service_multilayer.py:449-459 | The summary's three tier sums add up to its total; it keeps the roster; its type set holds exactly the types present in the roster. |
| Situation.SystemValues | doctrine_service_multilayer.py:688 | The "systems used" list has one display value per system, in order. |
| Situation.SortByCost | doctrine_service_multilayer.py:502-507 | The result is a permutation of the input and is ordered by cost per shot, either ascending or descending. |
| Situation.InsertKeepsSorted | doctrine_service_multilayer.py:502-507 | Inserting into a cost-ordered list keeps it ordered. |
| Situation.FirstBestIndex | doctrine_service_multilayer.py:502-507 | The result is none exactly when no entry qualifies. Otherwise it is a qualifying entry that is at least as good as every qualifying entry and strictly better than every earlier one. |
| Situation.FilterSortCommute | doctrine_service_multilayer.py:506-512 | Selecting a sub-class from a stably sorted list equals sorting that sub-class. |
| Situation.SortedHeadIsFirstBest | doctrine_service_multilayer.py:502-507 | The head of a stably sorted tier is the roster's first entry with the best cost in that tier. |
| Situation.Categorize | doctrine_service_multilayer.py:501-512 | Each of the six lists holds exactly the roster entries of its tier or economical class. |
| Situation.PremiumHead | doctrine_service_multilayer.py:502-503 | The first premium entry is the roster's first entry with the highest premium cost. |
| Situation.EconomicalHead | doctrine_service_multilayer.py:506-507 | The first economical entry is the roster's first entry with the lowest economical cost. |
| Situation.ModerateHead | doctrine_service_multilayer.py:504-505 | The first moderate entry has the highest moderate cost, and every earlier moderate entry is cheaper. |
| Situation.EconomicalClass | doctrine_service_multilayer.py:510-512 | Each economical sub-list equals that class's economical entries sorted cheapest first. |
| Situation.DroneHead | doctrine_service_multilayer.py:510 | The first drone entry is an economical interceptor drone with the lowest cost among them, and every earlier one costs more (the first among equally priced ones). |
| Situation.MobileGroupHead | doctrine_service_multilayer.py:511 | The first mobile-group entry is an economical mobile group with the lowest cost among them, and every earlier one costs more (the first among equally priced ones). |
| Situation.HelicopterCount | doctrine_service_multilayer.py:512 | The helicopter list is as long as the roster's economical helicopter entries. |
| Calculators.ImmediateParams | doctrine_service_multilayer.py:514-536 | Declines exactly when there is no premium system. Otherwise it uses the dearest premium system and allocates min(threat count, stock), keeping the rest in reserve. Cost = price × allocation; success = the percentage of that system's estimate at the threat's current range (≤ 95); one system used. |
| Calculators.ImmediateDeclines | doctrine_service_multilayer.py:514-516 | Immediate engagement declines exactly when every system costs under 400,000 per shot. |
| Calculators.ImmediatePrimary | doctrine_service_multilayer.py:502-533 | With a premium system on the roster, the chosen system is the roster's first dearest one, and the allocation and cost follow from it. |
| Calculators.DroneFirstParams | doctrine_service_multilayer.py:538-580 | Declines exactly when there is no economical drone or no moderate system. Drones = min(max(2, n), stock), missiles = min(max(2, n // 2), stock). Reported cost = both stages' costs. The drone estimate is taken at 70% of the range, the missile one at 40%; the combined success is the percentage of their union 1 − (1 − p_d)(1 − p_m), at least the drone stage's and at most 100. |
| Calculators.DroneFirstOnRoster | doctrine_service_multilayer.py:538-549 | Drone-first applies exactly when the roster has an economical drone and a moderate system. The drone is the roster's first cheapest economical drone and the backup its first dearest moderate system; the counts are taken from their stocks. |
| Calculators.LayeredParams | doctrine_service_multilayer.py:600-644 | Layers engage at 50%, 35% and 20% of the range with counts min(max(2, n), stock), min(max(1, n // 2), stock) and min(max(1, n // 3), stock), each costed and estimated at its range. Cumulative success is the percentage of 1 − (1 − p1)(1 − p2)(1 − p3), at most 100 and at least each layer's. Minimum cost = layer 1, expected = layers 1+2, maximum = all three. |
| Calculators.MultiLayerParams | doctrine_service_multilayer.py:582-594 | Declines exactly when fewer than two tiers are present. |
| Calculators.ComputeMultiLayer | doctrine_service_multilayer.py:582-644 | The padding loop computes exactly the multi-layer parameters. |
| Calculators.MultiLayerPadsSecond | doctrine_service_multilayer.py:596-600 | With two tiers present, the third layer repeats the second. |
| Calculators.MultiLayerOrder | doctrine_service_multilayer.py:586-591 | With all three tiers present, the layers are the cheapest economical, the dearest moderate and the dearest premium system. |
| Calculators.MultiLayerCostBounds | doctrine_service_multilayer.py:618-641 | On a roster with non-negative prices and stocks: minimum cost ≤ expected cost ≤ maximum cost. |
| Calculators.PadToThree | doctrine_service_multilayer.py:596-598 | At least three layers, the candidates first, padded with the last candidate. |
| Calculators.CandidatesFromRoster | doctrine_service_multilayer.py:586-591 | Every layer candidate is a roster entry. |
| Calculators.Take3 | doctrine_service_multilayer.py:688 | The first min(3, length) entries of the list. |
| Calculators.MinimalResult | doctrine_service_multilayer.py:647-689 | Reports the class counts, with helicopters counted only in "Nominal" weather. Acceptable losses = max(1, int(n × (1 − p))), hence between 1 and n. Success is the percentage of the combined chance; the first three light systems are used. |
| Calculators.LossesBounded | doctrine_service_multilayer.py:676 | The expected losses never exceed the raid size. |
| Calculators.MobileChance | doctrine_service_multilayer.py:658-664 | The first mobile group's estimate at 2 km, in [0, 0.95]; 0 without a mobile group. |
| Calculators.DroneChance | doctrine_service_multilayer.py:666-672 | The first drone's estimate at 60% of the range, in [0, 0.95]; 0 without a drone. |
| Calculators.MinimalChance | doctrine_service_multilayer.py:656-674 | The mobile chance alone without a drone, otherwise the union of the mobile and drone chances; a probability at least as large as each part. |
| Calculators.MinimalParams | doctrine_service_multilayer.py:646-689 | Declines exactly when there is neither a mobile group nor a drone. Cost = mobile units + drone units used. Success is at least each part's percentage and at most 100. |
| Calculators.ComputeMinimal | doctrine_service_multilayer.py:646-689 | The accumulation code computes exactly the minimal-response parameters. |
| Calculators.MinimalDeclines | doctrine_service_multilayer.py:651-652 | Minimal response declines exactly when the roster has no economical mobile group and no economical drone. |
| Calculators.MinimalHelicopters | doctrine_service_multilayer.py:649 | The helicopter count is the roster's economical helicopters in "Nominal" weather, else 0. |
| Calculators.MinimalSystemsUsed | doctrine_service_multilayer.py:688 | At most three systems are used, each a mobile group, an interceptor drone or a helicopter. |
| Calculators.MinimalCostUsesEconomicalOnly | doctrine_service_multilayer.py:655-669 | The cost is paid only for the roster's first cheapest economical mobile group and first cheapest economical drone, or for neither when there is none. |
| Calculators.EwPlusKineticParams | doctrine_service_multilayer.py:691-720 | Declines exactly when there is neither a moderate nor an economical system. The kinetic system is the first moderate, else the first economical; count = max(2, n // 2), not capped by stock; cost = kinetic cost. EW at 75%; the kinetic estimate is taken at half the range and the combined success is the percentage of its union with 0.75, in [75, 100]. The backup is the first economical system, else the kinetic one; Bukovel plus the kinetic system are used. |
| Calculators.EwDeclinesOnlyOnAllPremium | doctrine_service_multilayer.py:692-694 | EW plus kinetic declines exactly when every system is premium. |
| Calculators.CoordinationAsWritten | doctrine_service_multilayer.py:722-739 | Fails with an index error exactly when all three tiers are empty. |
| Calculators.CoordinationFailsOnEmptyRoster | doctrine_service_multilayer.py:722-725 | As written, coordination fails exactly on the empty roster. |
| Calculators.CoordinationParams | doctrine_service_multilayer.py:722-739 | Declines exactly when all tiers are empty. Otherwise it plans one round of the cheapest available tier's first system, with a fixed 70% and the total missile count. |
| Calculators.CoordinationCorrection | doctrine_service_multilayer.py:722-739 | Wherever the as-written calculator succeeds the corrected one agrees; where it fails, the corrected one declines. |
| Catalog.TemplatesIndexed | doctrine_service_multilayer.py:199-415 | The catalogue lists all six templates, each at its own index. |
| Catalog.NamesDistinct | doctrine_service_multilayer.py:199-415 | The template identifiers are distinct. |
| Catalog.CalculateParameters | doctrine_service_multilayer.py:494-741 | The dispatch computes exactly the calculator selected by the template, with the corrected coordination calculator (see Findings). |
| Catalog.OptionFor | doctrine_service_multilayer.py:477-489 | An option carries its template, title, parameters, rendered text, cost, success and systems. |
| Catalog.Outcome | doctrine_service_multilayer.py:464-476 | A template yields parameters exactly when it fires, and then they are the dispatched calculator's. |
| Catalog.GenerateOptions | doctrine_service_multilayer.py:443-491 | The generation loop computes exactly the specified option list, using the corrected coordination calculator (see Findings). |
| Catalog.OptionsOfOrdered | doctrine_service_multilayer.py:464-489 | Options come out at most one per template, in strictly increasing catalogue order. |
| Catalog.OptionsOfFaithful | doctrine_service_multilayer.py:464-489 | Every option is built from its template's outcome. |
| Catalog.OptionsOfComplete | doctrine_service_multilayer.py:464-489 | Every template with an outcome appears among the options. |
| Catalog.GeneratedOptionsOrdered | doctrine_service_multilayer.py:443-491 | At most six options, in strictly increasing catalogue order. |
| Catalog.GeneratedOptionsFaithful | doctrine_service_multilayer.py:443-491 | Every generated option's template fires, and its figures are that template's calculated parameters. |
| Catalog.GeneratedOptionsComplete | doctrine_service_multilayer.py:443-491 | Every template that fires appears among the generated options. |
| Catalog.GeneratedOptionsExactly | doctrine_service_multilayer.py:443-491 | A template appears among the options if and only if it fires. |
| Catalog.NameTriggersNeverFire | doctrine_service_multilayer.py:232-345 | The drone-first and EW triggers never fire, because they look for member names among display values. |
| Catalog.NoDroneFirstOrEwOption | doctrine_service_multilayer.py:443-491 | No generated option is drone-first or EW plus kinetic. |
| Catalog.CoordinationTrigger | doctrine_service_multilayer.py:381 | Coordination triggers exactly when the total missile stock (the sum of the three tier sums) is below twice the raid, or more than one follow-on wave is expected. |
| Catalog.EmptyRosterCrashesAsWritten | doctrine_service_multilayer.py:722-725 | With an empty roster and at least one threat, coordination triggers, and its as-written calculator fails. |
| Catalog.CoordinationOptionPresent | doctrine_service_multilayer.py:722-739 | The coordination option is produced exactly when its trigger fires and the roster is not empty. |
| Ranking.LevelOf | doctrine_service_multilayer.py:927 | HIGH exactly above 0.80, MEDIUM exactly in (0.70, 0.80], LOW exactly at or below 0.70. |
| Ranking.LevelMonotone | doctrine_service_multilayer.py:927 | A higher score never gets a lower level. |
| Ranking.FirstMatch | doctrine_service_multilayer.py:912-916 | Returns the first option whose description equals the text, and none exactly when no option has it. |
| Ranking.NatToString | doctrine_service_multilayer.py:921 | The placeholder title's number is the decimal numeral of the rank: digits only, denoting the rank, with no leading zero. |
| Ranking.Entry | doctrine_service_multilayer.py:918-928 | A matched entry copies the option's title, identifier, cost, success and systems. Otherwise the entry gets "Option k", "unknown", zeros and no systems. Rank, score, text and level are always set. |
| Ranking.CombineResults | doctrine_service_multilayer.py:904-930 | One entry per ranked item, numbered from 1 in ranking order, each built from the first matching option. |
| Ranking.EntryMatchesHonestly | doctrine_service_multilayer.py:912-928 | An entry is "unknown" exactly when no option has its text; a matched entry comes from an option with that text. |
| Api.ConvertThreatType | omin_api.py:110-120 | "FPV" maps to FPV; the other four keys map to the member with that value; every string outside the six keys maps to unknown. |
| Api.ThreatTypeRoundTrip | omin_api.py:110-120 | Each threat type other than FPV comes back from its own value; FPV's own value falls back to unknown. |
| Api.ConvertSystemType | omin_api.py:122-136 | Returns the system with that display value, or ZU-23-2 when no system has it. |
| Api.SystemTypeRoundTrip | omin_api.py:122-136 | Every system type comes back from its own display value. |
| Api.ConvertTargetPriority | omin_api.py:138-146 | Returns the priority with that display value, or medium when none has it. |
| Api.TargetPriorityRoundTrip | omin_api.py:138-146 | Every priority comes back from its own display value. |
| Api.ConvertSystem | omin_api.py:165-179 | A roster entry keeps every request field and converts its type through the lookup. |
| Api.ConvertSystems | omin_api.py:165-179 | The converted roster has the request's length, and entry i is request entry i converted. |
| Api.ConvertConstraints | omin_api.py:182-189 | The constraints keep every request field. |
| Api.ApiToDoctrineModels | omin_api.py:148-191 | Conversion fails exactly when the threat has no time to impact and zero speed. Otherwise the threat is converted, the roster keeps its length and order entry by entry, and the constraints are copied. |
| Api.ValidRequestRosterNonNegative | omin_api.py:58-69 | A request within the declared bounds yields a roster with non-negative prices and stocks. |
| Api.ValidRequestCanDivideByZero | omin_api.py:47-56 | The declared bounds allow speed zero without a time to impact, so a valid request can reach the division by zero. |

## Left out

- The ranking service call (`_query_arbiter`) and the query text built for it (`_build_battery_query`) are left out, as network I/O. Its answer (`top`, a list of text and score) is an input of `Ranking.CombineResults`.
- `process_battery_situation` is left out: it sequences generation, the network call and the merge, and adds timing and console output.
- The validation scenario, the FastAPI application and its endpoints (root, health, templates, specs, scenario) and pydantic's request validation are left out. The declared field bounds are the predicates `Api.ValidThreat`, `Api.ValidSystem` and `Api.ValidRequest`.
- Option texts are not rendered. Template text formatting and `option_id` numbering are left out; the text is the `Catalog.Renderer` parameter, since the engine only compares texts for equality.
- Floating-point rounding is not modelled. Floats are exact reals, so a result that IEEE arithmetic would round across an integer boundary in `int(p * 100)` may differ.
- Estimator.SuccessRate: every calculator passes the threat type but not the weather (the default "Nominal" applies), and the threat type does not affect the estimate. The model keeps both parameters as the source has them.
- Roster fields the core never reads (the unit count, the effective range, which only the left-out query builder prints, reload and setup time, status, weather dependence, visual requirement, the per-entry success rate) are carried but not used. The same goes for the constraint flags for limited ammunition, friendly forces and civilian areas, and the commander context.
- Dispatch on an unknown template identifier string (the final `return None`) is left out: the catalogue is a closed datatype.
- Catalog.Trigger: the drone-first and EW triggers are modelled as written. They compare member names with display values and never fire (`Catalog.NameTriggersNeverFire`). The calculators behind them are still modelled and proved.
- Catalog.GenerateOptions and Catalog.CalculateParameters: both dispatch the coordination template to the corrected `Calculators.CoordinationParams`. The source raises IndexError instead when the roster is empty and the coordination trigger fires (see Findings); `Catalog.EmptyRosterCrashesAsWritten` states that as-written behaviour.
- Estimator.RangeFactor: the factor jumps from 0.85 at the optimal range to nearly 1.0 just beyond it, so the estimate does not fall monotonically with range. The model follows the code (`Estimator.RangeFactorJumpsAtOptimal`).

## Findings

| source | as written | input that shows it | evidently intended | confidence | as-written member | corrected member |
|---|---|---|---|---|---|---|
| doctrine_service_multilayer.py:722-725 | The coordination calculator takes the first entry of the first non-empty tier list with `or`. When all three lists are empty it indexes an empty list and raises IndexError; its `None` guard is never reached. | An empty roster with a threat count of 1: the trigger fires (0 < 2) and generation raises. | Decline (no coordination option) when the roster is empty. | not executed | Calculators.CoordinationAsWritten, Catalog.EmptyRosterCrashesAsWritten | Calculators.CoordinationParams |
