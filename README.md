# Risk assessment core of a mission risk workbench, in Dafny

The system is a desktop workbench for assessing the risk of a mission. It has
four parts:

- Records: missions, indicator categories, indicators, indicator values, risk
  events and FMEA items live in a SQLite database.
- Models: a registry of evaluation models works over those records. The models are
  - the risk matrix (likelihood × severity);
  - FMEA (severity × occurrence × detection = RPN);
  - one-at-a-time sensitivity analysis;
  - fault tree analysis (FTA) with memoised probability propagation, node
    contributions and one-at-a-time sensitivity;
  - an AHP weighted score with fuzzy improvements;
  - Monte Carlo simulation of the risk matrix, FMEA and AHP scores.
- Pipelines: the data acquisition pipeline imports indicator values, risk events
  and FMEA items from CSV text and reports how complete a mission's data is. The
  risk identification pipeline buckets indicators by distribution type, fuses
  indicator values by rule and assembles a mission's risk dataset.
- Import: readers for Excel and CSV sheets turn rows into records. A batch importer
  writes those records to the database.

This project models that core as Dafny modules, one per source file:

| module | source file | form |
|---|---|---|
| `ModelBase` | `app/models/base.py` | parameter validation as a loop method against a specification function; the registry as a class |
| `RiskTypes` | `app/models/types.py` | level thresholds and the result records' JSON shapes, as functions and lemmas |
| `RiskMatrix` | `app/models/risk_matrix.py` | the scoring loop as methods proved equal to specification folds |
| `Fmea` | `app/models/fmea.py` | the same, for RPN |
| `Sensitivity` | `app/models/sensitivity.py` | the ±1 perturbation loops as methods over the scoring folds |
| `Fta` | `app/models/fta.py` | a `FaultTree` class with a memo table; the recursion has a recursion-limit fuel |
| `Ahp` | `app/models/ahp_improved.py` | pure functions over the dataset JSON and the stored records |
| `MonteCarlo` | `app/models/monte_carlo.py` | sampling loops as methods, with draws passed in as a stream |
| `RiskIdentification` | `app/pipeline/risk_identification.py` | bucketing, fusion and dataset assembly as loop methods proved equal to specification functions over the stored records |
| `DataAcquisition` | `app/pipeline/data_acquisition.py` | the three CSV imports as database methods proved equal to specification folds over the rows; the completeness report |
| `ExcelImport` | `app/utils/excel_import.py` (lines 106-424) | a row parser per sheet; an `ExcelImporter` class that collects items and errors |
| `BatchImport` | `app/utils/excel_import.py` (lines 427-624) | batch writes to the database, with duplicate-name and missing-mission handling |

Four shared modules support them:

| module | role |
|---|---|
| `Common` | Option and JSON values, sums and counts, a stable descending sort, Python's prefix slice |
| `Records` | the record types of `app/db/dao.py` |
| `RecordStore` | the tables and the row-id policy of the DAO, and a `Database` class whose methods insert and update rows |
| `PyText` | `str.strip()`, `int(str)` and `int(float)` as the import code uses them |

Transcendental functions are parameters: a `Transcendentals` record carries `exp`,
`sqrt`, `log` and `pi`, with the few facts the proofs need. Random numbers are
parameters as well: the Monte Carlo methods take a stream of draws.

Two places where the model follows the code closely:

- The mean and spread of a discrete distribution fall back to uniform
  probabilities only when the values and the probabilities differ in length. A
  list of probabilities that does not sum to one is used as given; it is not
  treated as missing (`app/pipeline/risk_identification.py:307-314`).
- The risk identification pipeline reads the first stored value of a
  mission/indicator pair when it fuses values
  (`app/pipeline/risk_identification.py:111`, through `app/db/dao.py:366-373`) and
  the last one when it assembles the dataset
  (`app/pipeline/risk_identification.py:178`). Both are modelled as written.

The model also follows the code where the code looks wrong. Fault tree sensitivity
analysis perturbs and restores `probability if probability else 0.01`, so a basic
event stored as 0.0 is left at 0.01. The model runs the analysis as written, and a
corrected variant is proved beside it; see Findings.

## Model

| member | source | states |
|---|---|---|
| RiskTypes.FromScore | app/models/types.py:18-27 | the level is Low exactly for scores up to 4, Medium for 5-9, High for 10-16 and Extreme from 17 |
| RiskTypes.FromScoreBoundaries | app/models/types.py:18-27 | the level changes exactly between 4/5, 9/10 and 16/17 |
| RiskTypes.FromScoreMonotone | app/models/types.py:18-27 | a higher score never gives a lower level |
| RiskTypes.FromRpn | app/models/types.py:49-58 | the FMEA level is Low exactly up to 100, Medium for 101-300, High for 301-600 and Extreme above |
| RiskTypes.FromRpnBoundaries | app/models/types.py:49-58 | the level changes exactly between 100/101, 300/301 and 600/601 |
| RiskTypes.FromRpnMonotone | app/models/types.py:49-58 | a higher RPN never gives a lower level |
| RiskTypes.Bump | app/models/risk_matrix.py:143 | incrementing a level's count raises that count by one and leaves the other levels' counts alone |
| RiskTypes.TallyLevelsMeaning | app/models/risk_matrix.py:141-143 | each level's count is the number of results with that level, and the counts add up to the number of results |
| RiskTypes.EventJsonShape | app/models/types.py:100-115 | an event's JSON object has the full key list under `events` and the shorter one under `top_n`, and carries the event's id and score |
| RiskTypes.RiskMatrixToDictShape | app/models/types.py:98-121 | the dict has the seven keys in order, one entry per event and per top-n event, and the total risk |
| RiskTypes.FmeaItemJsonShape | app/models/types.py:152-165 | an item's JSON object has the full key list or the top-n list, and carries the id and the RPN |
| RiskTypes.FmeaToDictShape | app/models/types.py:150-169 | the dict has its five keys in order, one entry per item and per top-n item, and the total RPN |
| RiskTypes.SensitivityToDictShape | app/models/types.py:255-275 | the dict has its five keys in order and one entry per factor and per top-n factor |
| RiskTypes.McSummaryToDictShape | app/models/types.py:210-232 | the dict has its five keys, one entry per event statistic, and the whole histogram |
| RiskTypes.EvaluationToDictKeys | app/models/types.py:298-326 | the dict starts with the six base keys and has each optional section's key exactly when that section is present (truthy) |
| ModelBase.NumberParam | app/models/base.py:149 | a value is a number exactly when it is an int, a bool or a float, and then it stands for its numeric value |
| ModelBase.CheckSpecAccepts | app/models/base.py:139-158 | an int spec accepts ints and bools within the bounds; a float spec accepts any number within the bounds; an enum spec accepts the listed strings; str and bool specs accept anything |
| ModelBase.ValidateParams | app/models/base.py:124-160 | the loop reports the first failing spec in schema order, and succeeds exactly when every supplied value passes its spec |
| ModelBase.FirstViolationIsFirst | app/models/base.py:131-160 | no error exactly when every supplied value is accepted; an error comes from a supplied value, and every earlier spec accepts its value |
| ModelBase.DefaultParamsKeys | app/models/base.py:162-164 | the defaults have one key for each spec name |
| ModelBase.DefaultParamsValues | app/models/base.py:162-164 | each name maps to the default of the last spec with that name |
| ModelBase.FilterCategory | app/models/base.py:214-216 | the filter keeps exactly the models of the given category |
| ModelBase.ModelRegistry.constructor | app/models/base.py:187-191 | a new registry is empty |
| ModelBase.ModelRegistry.Register | app/models/base.py:193-195 | the id now maps to the model; a new id goes to the end of the order, and a re-registered id keeps its place |
| ModelBase.ModelRegistry.Unregister | app/models/base.py:197-200 | the id is gone and every other id is unchanged; a present id is cut out of the listing order at its one position, the other ids keeping theirs; an absent id changes nothing |
| ModelBase.ModelRegistry.Get | app/models/base.py:202-204 | the lookup finds a model exactly when its id is registered |
| ModelBase.ModelRegistry.All | app/models/base.py:206-208 | the models in registration order, each under its own id |
| ModelBase.ModelRegistry.ModelIds | app/models/base.py:210-212 | exactly the registered ids, one per model |
| ModelBase.ModelRegistry.ModelsByCategory | app/models/base.py:214-216 | exactly the registered models of the category |
| ModelBase.ModelRegistry.ListModels | app/models/base.py:222-232 | one listing per registered id, holding its name, description and category |
| ModelBase.RegisterModel | app/models/base.py:238-249 | the decorated model is registered and all other ids are unchanged; a new id is appended to the listing order, a known one keeps its place |
| Common.Clamp | app/models/sensitivity.py:135-140 | the clamped value lies within the bounds, and a value already within them is unchanged |
| Common.SortDescFacts | app/models/risk_matrix.py:123 | `sorted(..., reverse=True)` yields a permutation of its input in descending key order |
| Common.SortDescStable | app/models/risk_matrix.py:123 | the sort is stable: elements with equal keys keep their input order |
| Common.PySlice | app/models/risk_matrix.py:124 | `s[:stop]` is a prefix of `s`, of length `min(stop, len(s))` for a non-negative stop, and the whole of `s` when there is no bound |
| Common.PrefixLen | app/models/risk_matrix.py:124 | a negative stop drops that many elements from the end, and a non-negative one keeps at most that many |
| Common.SortedSliceFacts | app/models/risk_matrix.py:123-124 | the top-n list is sorted and drawn from the input |
| Common.SetField | app/models/monte_carlo.py:513-514 | `d[k] = v` makes `k` map to `v` and leaves every other key alone |
| RecordStore.NextId | app/db/dao.py:173-179 | a new row id is positive and above every id already in the table |
| RecordStore.FreshKeepsDistinct | app/db/dao.py:173-179 | a new row id keeps the table's ids distinct |
| RecordStore.FirstIndex | app/db/dao.py:366-373 | `fetchone` without `ORDER BY` returns the first matching row, and nothing exactly when no row matches |
| RecordStore.ReplaceValue | app/db/dao.py:339-345 | `UPDATE … WHERE id=?` overwrites every row with that id and leaves the others alone |
| RecordStore.MissionById | app/db/dao.py:194-198 | a mission is found exactly when a row has the id, and the one found has it |
| RecordStore.IndicatorById | app/db/dao.py:277-285 | an indicator is found exactly when a row has the id, and the one found has it |
| RecordStore.IndicatorByName | app/db/dao.py:317-326 | an indicator is found exactly when a row has the name, and the one found has it |
| RecordStore.ValueFor | app/db/dao.py:366-373 | a value is found exactly when a row belongs to the mission/indicator pair, and the one found does |
| RecordStore.ValuesOf | app/db/dao.py:362-364 | exactly the values of the mission |
| RecordStore.InsertedIndicatorFound | app/db/dao.py:251-259 | an inserted indicator is found by its new id |
| RecordStore.Database.constructor | app/db/dao.py:163-168 | a new database has empty tables |
| RecordStore.Database.CreateMission | app/db/dao.py:173-179 | the mission is appended under the next id, that id is returned, and no other table changes |
| RecordStore.Database.CreateCategory | app/db/dao.py:212-218 | the category is appended under the next id, that id is returned, and no other table changes |
| RecordStore.Database.CreateIndicator | app/db/dao.py:251-259 | the indicator is appended under the next id, that id is returned, and no other table changes |
| RecordStore.Database.CreateValue | app/db/dao.py:331-337 | the value is appended under the next id, that id is returned, and no other table changes |
| RecordStore.Database.UpdateValue | app/db/dao.py:339-345 | the value replaces the rows with its id, and no other table changes |
| RecordStore.Database.CreateEvent | app/db/dao.py:383-389 | the event is appended under the next id, that id is returned, and no other table changes |
| RecordStore.Database.CreateFmeaItem | app/db/dao.py:430-436 | the item is appended under the next id, that id is returned, and no other table changes |
| PyText.StripStartFacts | app/utils/excel_import.py:143 | `lstrip` drops exactly the leading white space |
| PyText.StripEndFacts | app/utils/excel_import.py:143 | `rstrip` drops exactly the trailing white space |
| PyText.StripEnds | app/utils/excel_import.py:143 | the stripped text neither begins nor ends with white space |
| PyText.StripNoSpace | app/utils/excel_import.py:143 | text without surrounding white space is unchanged |
| PyText.StripIdempotent | app/utils/excel_import.py:143 | stripping twice is stripping once |
| PyText.ParseInt | app/pipeline/data_acquisition.py:66 | `int(s)` succeeds only on text that is not blank |
| PyText.ParseIntRoundTrip | app/pipeline/data_acquisition.py:66 | the decimal text of any integer reads back as that integer |
| PyText.Trunc | app/utils/excel_import.py:311-312 | `int(x)` truncates toward zero: the result's magnitude is the whole part of the float's |
| PyText.TruncWhole | app/utils/excel_import.py:311-312 | a whole float truncates to itself |
| PyText.TruncRange | app/utils/excel_import.py:311-320 | for whole bounds of at least one, a truncated float is within them exactly when the float is below the upper bound plus one and at least the lower bound |
| RiskMatrix.RiskLevelOf | app/models/risk_matrix.py:183-185 | the level name is "Low" exactly for scores up to 4 and "Extreme" exactly from 17 |
| RiskMatrix.CellIndex | app/models/risk_matrix.py:132-134 | `row[v - 1]` on a list of five finds position `v - 1` for 1..5, counts from the end for -4..0, and raises for anything else |
| RiskMatrix.GridDefined | app/models/risk_matrix.py:131-134 | the 5×5 grid is built exactly when every event's L and S index a list of five |
| RiskMatrix.GridCounts | app/models/risk_matrix.py:128-134 | cell (i, j) counts the events filed there, and the cells add up to the number of events |
| RiskMatrix.FindCell | app/models/risk_matrix.py:135-138 | the position of the first entry with the key, or the end when there is none |
| RiskMatrix.FileIdFacts | app/models/risk_matrix.py:135-138 | filing an id keeps the keys distinct, appends the id under its key only, and adds a new key at the end |
| RiskMatrix.CellsMeaning | app/models/risk_matrix.py:129-138 | each "L_S" key appears once and lists, in event order, the ids of exactly the events with that L and S; every event's key is present |
| RiskMatrix.GridAgreesWithCells | app/models/risk_matrix.py:128-138 | with every L and S in 1..5, each grid cell equals the number of ids filed under its key |
| RiskMatrix.Run | app/models/risk_matrix.py:57-180 | the run returns what the specification `Assess` gives for the mission, the parameters and the stored events |
| RiskMatrix.ScoreAll | app/models/risk_matrix.py:107-120 | one result per event, in event order, each scored as L × S and given its level |
| RiskMatrix.BuildMatrix | app/models/risk_matrix.py:128-138 | the loop succeeds exactly when the grid is defined, and then yields the grid and the cell lists |
| RiskMatrix.CountLevels | app/models/risk_matrix.py:141-143 | the counts are the tally of the results' levels |
| RiskMatrix.TotalRisk | app/models/risk_matrix.py:146 | the total is the sum of the scores |
| RiskMatrix.GridPrefixNone | app/models/risk_matrix.py:131-134 | once an index raises, the whole loop raises |
| RiskMatrix.AssessEdgeCases | app/models/risk_matrix.py:67-104 | no mission id fails with the missing-id error; no events gives empty lists, a zero grid and zero totals |
| RiskMatrix.AssessFailure | app/models/risk_matrix.py:76-180 | with a mission and events, the run fails exactly when `top_n` cannot bound a slice or some event's L or S raises on indexing |
| RiskMatrix.AssessScores | app/models/risk_matrix.py:107-120 | a successful run scores each event, in order, as L × S with its level |
| RiskMatrix.AssessGrid | app/models/risk_matrix.py:128-134 | a successful run counts each event once in the grid, under its own cell |
| RiskMatrix.AssessTotals | app/models/risk_matrix.py:141-146 | a successful run counts each event once by level, the counts add up to the number of events, and the total is the sum of the scores |
| RiskMatrix.AssessMean | app/models/risk_matrix.py:147 | the mean times the number of events is the total |
| RiskMatrix.AssessTop | app/models/risk_matrix.py:122-124 | the top-n list is a prefix of a stable descending sort of the results by score, of length `min(top_n, n)` |
| RiskMatrix.RecommendationsExampleCount | app/models/risk_matrix.py:195-239 | at most three example lines per level are listed: `min(3, count)` for Extreme and for High |
| RiskMatrix.RecommendationsExamplesFromEvents | app/models/risk_matrix.py:208-232 | each example line shows an event of the run, at the level it is listed under |
| RiskMatrix.RecommendationsGoodState | app/models/risk_matrix.py:234-238 | the good-state lines appear exactly when the run has no Extreme and no High event |
| Fmea.RpnLevelOf | app/models/fmea.py:167-169 | the level name is "Low" exactly up to 100 and "Extreme" exactly from 601 |
| Fmea.Run | app/models/fmea.py:57-164 | the run returns what the specification `Assess` gives for the mission, the parameters and the stored items |
| Fmea.ScoreAll | app/models/fmea.py:104-120 | one result per item, in item order, each scored as S × O × D and given its level |
| Fmea.CountLevels | app/models/fmea.py:127-129 | the counts are the tally of the results' levels |
| Fmea.TotalRpn | app/models/fmea.py:132 | the total is the sum of the RPNs |
| Fmea.AssessCases | app/models/fmea.py:67-164 | no mission id fails with the missing-id error; no items gives empty lists and zero totals; with items, only a `top_n` that cannot bound a slice fails |
| Fmea.AssessScores | app/models/fmea.py:104-120 | a successful run scores each item, in order, as S × O × D with its level |
| Fmea.AssessTotals | app/models/fmea.py:127-132 | a successful run counts each item once by level and totals the RPNs |
| Fmea.AssessMean | app/models/fmea.py:133 | the mean times the number of items is the total |
| Fmea.AssessTop | app/models/fmea.py:122-124 | the top-n list is a prefix of a stable descending sort of the results by RPN, of length `min(top_n, n)` |
| Fmea.BlockCounts | app/models/fmea.py:188-212 | a level's block lists `min(3, count)` examples of its own level and none of another |
| Fmea.RecommendationsExampleCount | app/models/fmea.py:185-212 | at most three examples are listed for each of Extreme and High: `min(3, count)` |
| Fmea.RecommendationsODCount | app/models/fmea.py:214-226 | as many items are listed for O ≥ 7 as min(2, the count of such items among the top-n), and likewise for D ≥ 7 |
| Fmea.RecommendationsGoodState | app/models/fmea.py:228-230 | the good-state lines appear exactly when no item is Extreme or High |
| Fmea.BlocksHaveNoGoodState | app/models/fmea.py:188-226 | no line before the closing lines is a good-state line |
| Sensitivity.Run | app/models/sensitivity.py:62-100 | the run returns what the specification `Assess` gives for the parameters and the mission's events and items |
| Sensitivity.RunRiskMatrix | app/models/sensitivity.py:102-189 | the analysis equals the specification `RiskMatrixSensitivity` of the events |
| Sensitivity.SumRisk | app/models/sensitivity.py:126 | the base is the total risk of the events |
| Sensitivity.PerturbEvents | app/models/sensitivity.py:130-177 | the factors are the L and S factors of each event, in event order |
| Sensitivity.RunFmea | app/models/sensitivity.py:191-274 | the analysis equals the specification `FmeaSensitivity` of the items |
| Sensitivity.SumRpn | app/models/sensitivity.py:215 | the base is the total RPN of the items |
| Sensitivity.PerturbItems | app/models/sensitivity.py:219-262 | the factors are the O and D factors of each item, in item order |
| Sensitivity.EventFactorsLayout | app/models/sensitivity.py:130-177 | there are two factors per event: L at 2i and S at 2i+1, each carrying the event's id and the base total |
| Sensitivity.ItemFactorsLayout | app/models/sensitivity.py:219-262 | there are two factors per item: O at 2i and D at 2i+1; S is never perturbed |
| Sensitivity.RiskMatrixPerturbedTotals | app/models/sensitivity.py:134-165 | the minus and plus totals of event i are the total risk of the list with only that event's L or S moved to `max(1, v-1)` or `min(5, v+1)` |
| Sensitivity.FmeaPerturbedTotals | app/models/sensitivity.py:223-250 | the minus and plus totals of item i are the total RPN with only that item's O or D moved within 1..10 |
| Sensitivity.StepImpact | app/models/sensitivity.py:144 | moving a value in `lo..hi` (with `lo < hi`) by one step changes the product by the magnitude of the other factor |
| Sensitivity.RiskMatrixImpacts | app/models/sensitivity.py:144-167 | on the 1..5 scale, the impact of L is S and the impact of S is L, whatever the other events are |
| Sensitivity.FmeaImpacts | app/models/sensitivity.py:231-252 | on the 1..10 scale, the impact of O is \|S × D\| and the impact of D is \|S × O\| |
| Sensitivity.RiskMatrixSensitivityFacts | app/models/sensitivity.py:114-189 | the base is the total; every factor is kept in event order; the top-n list is a prefix of the stable descending sort by impact |
| Sensitivity.FmeaSensitivityFacts | app/models/sensitivity.py:203-274 | the same for the FMEA analysis |
| Sensitivity.AssessCases | app/models/sensitivity.py:72-100 | the run fails exactly when the chosen list is non-empty and `top_n` cannot bound a slice; an empty list gives base 0 and no factors |
| Fta.GateValue | app/models/fta.py:300-311 | the gate loops compute the specification `Gate`: the product for AND, one minus the product of complements otherwise |
| Fta.GateExamples | app/models/fta.py:300-311 | two children at 0.5 give 0.25 under AND, and 0.75 under OR or an unnamed gate |
| Fta.GateFacts | app/models/fta.py:300-311 | with every input in [0, 1], a gate's output is in [0, 1] and grows with each input |
| Fta.CalcKeepsMemo | app/models/fta.py:277-278 | a stored probability is never recomputed or overwritten: the memo only grows |
| Fta.CalcAgrees | app/models/fta.py:272-314 | on an acyclic tree and with a recursion limit at least the node's height, the memoised evaluation succeeds, gives the node's AND/OR probability and records it |
| Fta.CalcListAgrees | app/models/fta.py:298 | the children's probabilities, in order, are their AND/OR probabilities |
| Fta.TopProbAgrees | app/models/fta.py:259-270 | on an acyclic tree the evaluation from the top node gives its AND/OR probability |
| Fta.NodeProbInUnit | app/models/fta.py:284-314 | every node's probability is in [0, 1] when every basic event's is |
| Fta.NodeProbMonotone | app/models/fta.py:284-314 | raising one basic event's probability never lowers any node's probability |
| Fta.NodeProbCongruent | app/models/fta.py:272-314 | two trees that agree on every node's kind, gate and basic value agree on every probability |
| Fta.NodeDict | app/models/fta.py:192 | every record's id is a key of the dict; a later record with the same id replaces an earlier one |
| Fta.KeyOrderFacts | app/models/fta.py:192 | the dict's key order holds each id once, exactly the dict's keys |
| Fta.EdgeChildren | app/db/dao.py:790-792 | the children of a node are exactly the child ends of its edges |
| Fta.ChildrenMap | app/models/fta.py:195-197 | every node's id maps to its children |
| Fta.FindTop | app/db/dao.py:737-744 | no top node exactly when no record is of type TOP; otherwise the first TOP record in id order (an assumed order, see Left out) |
| Fta.BasicIds | app/models/fta.py:358 | the basic events, in dict order, are nodes of type BASIC |
| Fta.FaultTree.constructor | app/models/fta.py:192-197 | the tree holds the node dict, its key order and the children map, with an empty memo |
| Fta.FaultTree.CalcNodeProb | app/models/fta.py:272-314 | the recursion returns the specification `Calc`'s probability and leaves its memo in place; the nodes are unchanged |
| Fta.FaultTree.CalculateProbabilities | app/models/fta.py:259-270 | a fresh memo filled from the top node is the specification `Probabilities` |
| Fta.FaultTree.SensitivityAnalysis | app/models/fta.py:349-401 | the analysis is the specification `Sensitivity` as written, and on success every basic event is left holding `probability if probability else 0.01`, every other record as it was |
| Fta.FaultTree.SensitivityLoop | app/models/fta.py:369-397 | the loop over the basic events is the specification `SensLoop` as written, and leaves each visited event holding `probability if probability else 0.01` |
| Fta.FaultTree.PerturbOne | app/models/fta.py:370-397 | one pass perturbs the event down, then up, around `probability if probability else 0.01`, and stores that value back into its record |
| Fta.CorrectedIsOneAtATime | app/models/fta.py:369-397 | the corrected loop leaves the tree unchanged, and its i-th item perturbs the i-th basic event of the original tree alone |
| Fta.CorrectedSucceeds | app/models/fta.py:369-397 | the corrected loop succeeds when perturbing each basic event of the original tree does |
| Fta.AsWrittenRestores | app/models/fta.py:370-385 | the loop stores `probability if probability else 0.01` back into every basic event it visits and touches no other record |
| Fta.VariantsAgree | app/models/fta.py:369-397 | the loop as written and the corrected loop give the same items when no basic event is stored as exactly 0.0 |
| Fta.SensitivityFacts | app/models/fta.py:349-401 | no basic events give an empty list; the list is sorted by impact and holds `min(top_n, n)` items; each item is the pass of one basic event, perturbed around `probability if probability else 0.01` in the tree the earlier passes left |
| Fta.PerturbedInUnit | app/models/fta.py:373-379 | `max(0, v(1 - delta))` and `min(1, v(1 + delta))` bracket `v` inside [0, 1] |
| Fta.PerturbRanked | app/models/fta.py:372-382 | on an acyclic tree a perturbed evaluation succeeds, and perturbing down (up) never raises (lowers) the top event |
| Fta.SensitivityRanked | app/models/fta.py:349-401 | on an acyclic tree the analysis fails only on a bad delta or `top_n_sensitivity`; for a delta in [0, 1] the item of the i-th basic event brackets the top event of the tree in which the first i + 1 events hold `probability if probability else 0.01` |
| Fta.SensitivityRankedSucceeds | app/models/fta.py:349-401 | on an acyclic tree the analysis as written succeeds exactly when there are no basic events or a delta and a stop are given |
| Fta.AsWrittenPasses | app/models/fta.py:369-397 | pass i perturbs the i-th basic event in the tree the earlier passes left, and the loop ends with every visited event normalised to `probability if probability else 0.01` |
| Fta.AsWrittenEnds | app/models/fta.py:369-397 | the loop ends with every visited basic event stored as `probability if probability else 0.01` and every other record unchanged |
| Fta.AsWrittenPassAt | app/models/fta.py:370-385 | the i-th item is the i-th basic event perturbed around `probability if probability else 0.01`, in the tree where the events before it hold that value |
| Fta.NormalizedAt | app/models/fta.py:370-385 | a normalised record holds `probability if probability else 0.01` when its event was visited and is unchanged otherwise |
| Fta.NormalizedRanked | app/models/fta.py:370-385 | storing those values changes no node's kind, so a rank of the tree ranks the result and basic values stay in [0, 1] |
| Fta.AsWrittenItemBrackets | app/models/fta.py:372-382 | for a delta in [0, 1], a pass brackets the top event of the tree it evaluated, with its own event at its base value |
| Fta.SensitivityWithoutZeroBasics | app/models/fta.py:369-397 | when no basic event is stored as exactly 0.0, the analysis as written is the corrected one |
| Fta.CorrectedSensitivityFacts | app/models/fta.py:349-401 | the corrected list is sorted by impact, holds `min(top_n, n)` items, and each item perturbs one basic event of the original tree alone |
| Fta.CorrectedSensitivityRanked | app/models/fta.py:349-401 | on an acyclic tree the corrected analysis fails only on a bad delta or `top_n_sensitivity`, and for a delta in [0, 1] every item brackets the top event's probability |
| Fta.CorrectedSensitivityRankedSucceeds | app/models/fta.py:349-401 | on an acyclic tree the corrected analysis succeeds exactly when there are no basic events or a delta and a stop are given |
| Fta.AsWrittenDistortsLaterItems | app/models/fta.py:370-385 | on the example tree, the loop as written gives A an impact of 0.0055 and B an impact of 0.0545, and leaves A at 0.01 |
| Fta.CorrectedExample | app/models/fta.py:369-397 | on the same tree, the corrected loop gives A no impact and B an impact of 0.05, and leaves the tree as it was |
| Fta.Likelihood | app/models/fta.py:316-336 | the level is one per decade: 1 below 1e-5, 2 up to 1e-4, 3 up to 1e-3, 4 up to 1e-2, and 5 from 1e-2 |
| Fta.LikelihoodMonotone | app/models/fta.py:316-336 | a likelier top event never gets a lower likelihood level |
| Fta.RiskLevelName | app/models/fta.py:338-347 | "Low" up to 4, "Medium" up to 9, "High" up to 16, "Extreme" above, on a score that may be a float |
| Fta.RiskLevelNameAgrees | app/models/fta.py:338-347 | on whole scores the level is the risk matrix level of that score |
| Fta.BuildNodeResults | app/models/fta.py:228-239 | the node-results loop is the specification `NodeResults` |
| Fta.NodeResultsFacts | app/models/fta.py:228-239 | each node keeps its identity and probability; its contribution is its share of the top event when that is positive and 0 otherwise; the top node's share is 1 |
| Fta.AssessMissionCheck | app/models/fta.py:150-159 | the missing-id error is reported exactly for a missing or zero `mission_id`; no nodes gives the "无数据" placeholder |
| Fta.AssessRanked | app/models/fta.py:148-257 | on an acyclic tree the run fails only on a bad severity, delta or `top_n`, and reports the top event's AND/OR probability, in [0, 1], with the score `L × S` |
| Fta.RunFta | app/models/fta.py:148-257 | the run returns what the specification `Assess` gives for the parameters, the nodes and the edges, with the sensitivity analysis as written |
| Fta.RunTree | app/models/fta.py:211-257 | the evaluation, the levels, the node results and the sensitivity as written are the specification `AssessTree` |
| Fta.BuildResult | app/models/fta.py:215-257 | the levels of the top event and the node results are the specification `Conclude` |
| Fta.GenerateRecommendations | app/models/fta.py:404-426 | the loop over the first five sensitivity items is the specification `Recommendations` |
| Fta.RecommendationsFacts | app/models/fta.py:404-426 | the warning comes first exactly for High or Extreme; with a sensitivity list, a header, its first five items numbered from 1, and a closing line follow |
| Ahp.ParseDataset | app/models/ahp_improved.py:306-337 | a stored data set that is not a JSON object reads as no indicators |
| Ahp.ParseDatasetText | app/models/ahp_improved.py:324-333 | a value given as text is read by `float()`: text it parses gives that number, also as the default mean; text it refuses empties the whole data set |
| Ahp.ParseList | app/models/ahp_improved.py:313-333 | the list parses exactly when every entry does, one input per entry, in order |
| Ahp.ParseDatasetExamples | app/models/ahp_improved.py:306-337 | an object without indicators, a JSON array, and a list holding a bare number all read as no indicators |
| Ahp.ParseDatasetDefaults | app/models/ahp_improved.py:314-321 | an entry with only a value gets id 0, an empty name, weight 1, the value as its mean and deviation 1 |
| Ahp.ValueMapLast | app/models/ahp_improved.py:345 | the value map holds, for each indicator with values, the value of its last record |
| Ahp.ValueMapKeys | app/models/ahp_improved.py:345 | the value map's keys are exactly the indicators with a stored value |
| Ahp.GetIndicatorValues | app/models/ahp_improved.py:339-393 | the loop gives the specification `LiveInputs` of the indicators and values |
| Ahp.LiveWeights | app/models/ahp_improved.py:348-360 | with a positive total weight of the indicators that have values, the kept weights are their share of it, adding up to 1 when every value is a number; otherwise each kept weight is `1/len(indicators)` |
| Ahp.LiveListMembers | app/models/ahp_improved.py:350-391 | exactly the indicators with a numeric stored value are kept, each with its last stored value |
| Ahp.UsableIsPresent | app/models/ahp_improved.py:348-357 | when every stored value is a number, the kept weight is all of the present weight |
| Ahp.IndicatorDataChoice | app/models/ahp_improved.py:190-203 | a stored data set that does not parse gives no indicators; the live values are used only when the data set is switched off, missing or empty |
| Ahp.SigmaFloor | app/models/ahp_improved.py:225-226 | the deviation after the floor is positive |
| Ahp.PrepareAll | app/models/ahp_improved.py:216-247 | the first loop gives one prepared row per input, or raises |
| Ahp.PreparedFacts | app/models/ahp_improved.py:216-247 | each row's deviation is positive and differs from the input only below 1e-10; `z·σ = x - μ`; the correction factor is positive |
| Ahp.RiskScoreBounds | app/models/ahp_improved.py:262-267 | every normalised score is in (0, 1), and at least 1/2 in the auto direction and on the risky side of the mean |
| Ahp.ScoreToLevelFacts | app/models/ahp_improved.py:395-404 | each threshold belongs to the upper level; the level never goes down as the score grows |
| Ahp.Run | app/models/ahp_improved.py:158-186 | the run returns what the specification `Assess` gives for the mission, the parameters and the stored records |
| Ahp.RunAhp | app/models/ahp_improved.py:188-304 | the two loops give the specification `Evaluate` of the indicator data |
| Ahp.ScoreAll | app/models/ahp_improved.py:249-304 | the result of the second loop, ordered, cut to `top_n` and given its level, is the specification `Conclude` |
| Ahp.ScoreRows | app/models/ahp_improved.py:253-285 | the second loop gives each row's corrected weight, score and contribution, and the total is the sum of the contributions |
| Ahp.AssessFacts | app/models/ahp_improved.py:160-210 | a run is refused exactly for a missing or zero mission id; no indicator data gives score 0 and "Low" |
| Ahp.EvaluateSucceeds | app/models/ahp_improved.py:188-304 | the run fails exactly when there is data and the sigma ratio, `top_n`, or some mean or deviation is not of the right kind |
| Ahp.ConcludeRows | app/models/ahp_improved.py:253-285 | the rows are the prepared indicators, scored, in input order |
| Ahp.CorrectedWeightsSumToOne | app/models/ahp_improved.py:255-256 | with a positive Σ w·c the corrected weights add up to 1 |
| Ahp.FallbackWeights | app/models/ahp_improved.py:257-258 | with Σ w·c not positive every corrected weight is `w / n` |
| Ahp.SharedFactorCancels | app/models/ahp_improved.py:233-256 | when every indicator has the same correction factor, the correction cancels out and `w' = w / Σ w` |
| Ahp.ConcludeBounds | app/models/ahp_improved.py:253-271 | with non-negative weights the total score is in [0, 1], every normalised score in (0, 1), and at least 1/2 in the auto direction |
| Ahp.ContributionsBelowWeights | app/models/ahp_improved.py:270-271 | the total contribution lies between 0 and Σ w' |
| Ahp.WeightTotalAtMostOne | app/models/ahp_improved.py:255-258 | with non-negative weights and positive correction factors, Σ w' is at most 1 |
| Ahp.ConcludeTop | app/models/ahp_improved.py:287-304 | the top list is sorted by contribution, drawn from the rows and as long as `top_n` allows; the total is the sum of the contributions and the level is the total's level |
| Ahp.GenerateRecommendations | app/models/ahp_improved.py:407-435 | the loop over the first five contributors is the specification `Recommendations` |
| Ahp.RecommendationsFacts | app/models/ahp_improved.py:407-435 | one headline, then the first five contributors numbered from 1, then four measures exactly when the level is High or Extreme |
| MonteCarlo.Rng.constructor | app/models/monte_carlo.py:189-194 | a fresh generator starts its stream with no draws taken |
| MonteCarlo.Rng.Seed | app/models/monte_carlo.py:214-215 | seeding restarts the stream the seed names, with no draws taken |
| MonteCarlo.Rng.Choice | app/models/monte_carlo.py:263 | the index drawn is the stream's next pick, and one draw is used |
| MonteCarlo.Rng.Draw | app/models/monte_carlo.py:275-294 | the value is the stream's next variate of the requested distribution, and one draw is used |
| MonteCarlo.Normalized | app/models/monte_carlo.py:260-261 | one normalised probability per candidate |
| MonteCarlo.CandidatesFacts | app/models/monte_carlo.py:244-261 | the candidates are the nominal first and exactly those neighbours within [lo, hi]; the probabilities are non-negative, sum to 1 and give the nominal 1, 0.75 or 0.6 |
| MonteCarlo.PickFacts | app/models/monte_carlo.py:244-263 | a drawn value is within one of the nominal, never crosses the bound on its side, and stays inside [lo, hi] when the nominal does |
| MonteCarlo.SampleDiscrete | app/models/monte_carlo.py:244-263 | the value is the candidate the next draw picks, one draw per call |
| MonteCarlo.SampleRecord | app/models/monte_carlo.py:325-336 | a risk event samples L·S and an FMEA item S·O·D from freshly drawn factors |
| MonteCarlo.RecordSampleBounds | app/models/monte_carlo.py:325-336 | a sampled R lies in [1, 25] and a sampled RPN in [1, 1000] when the nominal factors are on their scales |
| MonteCarlo.RecordSampleAtNominal | app/models/monte_carlo.py:244-263 | when every draw picks the first candidate a record samples its nominal value |
| MonteCarlo.SampleRounds | app/models/monte_carlo.py:325-336 | the nested loops yield the specification `Rounds`: n iterations of one sample per record, with 2 or 3 draws per record per iteration |
| MonteCarlo.SamplesShape | app/models/monte_carlo.py:325-336 | each record's list has one sample per iteration and each total is the sum of that iteration's samples |
| MonteCarlo.RoundBounds | app/models/monte_carlo.py:325-336 | every sample in a round lies in its record's range |
| MonteCarlo.TotalBounds | app/models/monte_carlo.py:334-336 | a sum of n samples in [1, m] lies in [n, m·n] |
| MonteCarlo.NominalsTotal | app/models/monte_carlo.py:354-356 | the nominal samples add up to Σ L·S or Σ S·O·D |
| MonteCarlo.NominalTotals | app/models/monte_carlo.py:325-356 | when every draw picks the nominal every iteration's total is the nominal total |
| MonteCarlo.SampleBounds | app/models/monte_carlo.py:325-367 | every sample lies in [1, 25] or [1, 1000] and every total between the number of records and that many times the largest sample |
| MonteCarlo.RecordsOfKind | app/models/monte_carlo.py:308-336 | events sample L·S with two draws each, items S·O·D with three |
| MonteCarlo.CollectStats | app/models/monte_carlo.py:338-352 | the statistics loop yields one statistic per record, in record order |
| MonteCarlo.Simulation | app/models/monte_carlo.py:308-445 | the shared body of the two discrete runs is the specification `Simulate`, failing on no iterations, and uses exactly its draws |
| MonteCarlo.RunRiskMatrix | app/models/monte_carlo.py:308-375 | `run_risk_matrix` on the mission's events is `Simulate` of their L·S records, which fails on events with no iterations |
| MonteCarlo.RunFmea | app/models/monte_carlo.py:377-445 | `run_fmea` on the mission's items is `Simulate` of their S·O·D records, which fails on items with no iterations |
| MonteCarlo.AtLeastSum | app/models/monte_carlo.py:351 | the mean of the 0/1 array is the fraction of samples at or above the threshold |
| MonteCarlo.SimulateStats | app/models/monte_carlo.py:338-367 | each record's `prob_high` is the fraction of its samples at or above 10 (R) or 300 (RPN), the global one the fraction of totals at or above that threshold times the number of records, and the nominal total is Σ L·S or Σ S·O·D; no records give the empty result |
| MonteCarlo.ChoiceOf | app/models/monte_carlo.py:296-302 | a choice exists only for probabilities with a non-zero total, and then draws among the values with the normalised probabilities |
| MonteCarlo.DiscreteDraw | app/models/monte_carlo.py:296-302 | a discrete request draws among the given numeric values |
| MonteCarlo.UniformChoice | app/models/monte_carlo.py:296-302 | uniform probabilities give each value probability 1/n |
| MonteCarlo.MismatchedProbabilities | app/models/monte_carlo.py:299-300 | probabilities of another length make every value equally likely |
| MonteCarlo.SampleRequest | app/models/monte_carlo.py:265-306 | every request built is one numpy can draw from |
| MonteCarlo.TriangularDefaults | app/models/monte_carlo.py:290-294 | the defaults (0.8·v, v, 1.2·v) give a triangle exactly when v is positive |
| MonteCarlo.UnknownTypeIsNormal | app/models/monte_carlo.py:304-306 | an unknown type draws from N(v, max(1e-6, 0.1·abs(v))) whatever the parameters |
| MonteCarlo.IndicatorDraw | app/models/monte_carlo.py:503-513 | a request exists only for an indicator object with a value |
| MonteCarlo.BareIndicatorDraw | app/models/monte_carlo.py:503-513 | an indicator with a value and no distribution data is drawn from N(value, 1) |
| MonteCarlo.SampleByDistribution | app/models/monte_carlo.py:265-306 | one draw of the requested distribution |
| MonteCarlo.WeightsFacts | app/models/monte_carlo.py:547 | the weights exist exactly when every indicator's does, and are those in order |
| MonteCarlo.TermsFacts | app/models/monte_carlo.py:555-568 | the terms exist exactly when every indicator's does, and are those in order |
| MonteCarlo.TermFacts | app/models/monte_carlo.py:555-568 | a term's weight share is its weight over the total, its correction factor is positive and its z-score is 0 without `mu` |
| MonteCarlo.CalcAhpScore | app/models/monte_carlo.py:542-579 | `_calc_ahp_score` is the specification `AhpScore` |
| MonteCarlo.SumWeights | app/models/monte_carlo.py:547-549 | the weight sum, or none where a weight is not a number |
| MonteCarlo.CollectTerms | app/models/monte_carlo.py:555-568 | the first loop yields the terms and their correction sum |
| MonteCarlo.SumScores | app/models/monte_carlo.py:570-579 | the second loop yields Σ w'·σ(z) |
| MonteCarlo.CorrectedWeightsSumToOne | app/models/monte_carlo.py:570-574 | the corrected weights sum to 1 in both branches |
| MonteCarlo.AhpScoreBounds | app/models/monte_carlo.py:542-579 | with non-negative weights the score lies in [0, 1], and at 0.5 or above when no indicator has a `mu` |
| MonteCarlo.SampledRoundKeeps | app/models/monte_carlo.py:502-516 | sampling changes only the values: weights and the absence of `mu` carry over |
| MonteCarlo.SampleIndicators | app/models/monte_carlo.py:502-516 | the inner loop yields the specification `SampledRound`, one draw per indicator |
| MonteCarlo.SampleIndicator | app/models/monte_carlo.py:503-516 | the indicator with its value replaced by one draw, or none where it raises |
| MonteCarlo.AhpSamplesAt | app/models/monte_carlo.py:498-520 | sample t is the AHP score of the t-th round of drawn indicators |
| MonteCarlo.SampleScores | app/models/monte_carlo.py:498-520 | the outer loop yields the specification `AhpSamples` and uses its draws |
| MonteCarlo.AhpMc | app/models/monte_carlo.py:447-540 | an AHP result carries AHP statistics only; a missing, unparsable or non-object data set, or indicators that add up to nothing, give the zero result; a non-empty string or non-zero number for the indicators refuses, and so does a list with an unusable or zero sample count |
| MonteCarlo.RunAhpScore | app/models/monte_carlo.py:447-540 | `run_ahp_score` is the specification `AhpMc`, failing on a list of indicators with no iterations, and uses its draws |
| MonteCarlo.AhpMcProbabilities | app/models/monte_carlo.py:524-533 | `prob_high` and `prob_extreme` are the fractions of the scores at or above 0.5 and 0.75, with 0 ≤ extreme ≤ high ≤ 1 |
| MonteCarlo.AhpSampleBounds | app/models/monte_carlo.py:498-520 | every sampled score lies in [0, 1], and at 0.5 or above without `mu` |
| MonteCarlo.AhpMcOnList | app/models/monte_carlo.py:495-533 | a run on a list takes at least one iteration; the nominal score is the list's score, the histogram the sampled scores and the statistics those of the histogram |
| MonteCarlo.AhpMcBounds | app/models/monte_carlo.py:495-533 | with non-negative weights the nominal and every sampled score lie in [0, 1] |
| MonteCarlo.AhpMcWithoutMu | app/models/monte_carlo.py:495-533 | without `mu` every score is at least 0.5, so `prob_high` is 1 |
| MonteCarlo.ToDictFacts | app/models/monte_carlo.py:68-112 | the keys in order, one entry per event statistic, and a histogram of the first min(100, n) values |
| MonteCarlo.RecommendationsByKind | app/models/monte_carlo.py:582-606 | a discrete run earns only redundancy advice, an AHP run none |
| MonteCarlo.AhpOnlyAdvice | app/models/monte_carlo.py:582-606 | without global statistics the advice is the three AHP lines exactly when `prob_high` exceeds 0.2 |
| MonteCarlo.Run | app/models/monte_carlo.py:196-242 | `run` is the specification `Assess`, whose stages fail on records with no iterations, and the generator ends where the evaluation says |
| MonteCarlo.AssessRefusesMissingId | app/models/monte_carlo.py:201-207 | a run is refused for a missing mission id, and only for that |
| MonteCarlo.AssessKeys | app/models/monte_carlo.py:209-242 | a successful run returns one entry per analysis its flags switch on, in order |
| MonteCarlo.EvaluateKeys | app/models/monte_carlo.py:209-242 | the results object holds one entry per analysis switched on, in order |
| MonteCarlo.SeedReproducible | app/models/monte_carlo.py:211-215 | a seed numpy accepts makes the outcome independent of the generator's earlier state |
| MonteCarlo.NegativeSeedContinues | app/models/monte_carlo.py:214-215 | a negative seed leaves the generator's stream alone |
| MonteCarlo.BadSeedFails | app/models/monte_carlo.py:214-215 | a seed numpy refuses fails the run |
| MonteCarlo.SeedFrom | app/models/monte_carlo.py:211-215 | true exactly when seeding succeeds, and then the generator is where the seeding puts it |
| MonteCarlo.RunRiskMatrixStage | app/models/monte_carlo.py:217-219 | the risk matrix stage is the specification `RiskMatrixStage` |
| MonteCarlo.RunAnalyses | app/models/monte_carlo.py:217-227 | the three stages in order are the specification `Analyses` and use its draws |
| MonteCarlo.RunLaterAnalyses | app/models/monte_carlo.py:221-227 | the FMEA and AHP stages in order are the specification `LaterAnalyses` |
| RiskIdentification.ParseDistParams | app/pipeline/risk_identification.py:271-278 | empty or unparsable text gives the empty object, parsed text its value |
| RiskIdentification.BucketIndex | app/pipeline/risk_identification.py:61-66 | a known type names its own bucket; an empty or unknown type goes to "normal" |
| RiskIdentification.GetIndicatorsByDistribution | app/pipeline/risk_identification.py:49-81 | the loop yields the specification `ByDistribution`: every bucket, or only the one asked for |
| RiskIdentification.BucketMembers | app/pipeline/risk_identification.py:61-77 | every entry of a bucket has that bucket's type and is the information of one of the indicators |
| RiskIdentification.BucketHoldsEach | app/pipeline/risk_identification.py:63-77 | every indicator is in the bucket of its defaulted type |
| RiskIdentification.BucketsCover | app/pipeline/risk_identification.py:61-77 | the buckets together hold as many entries as there are indicators |
| RiskIdentification.GetDistributionStats | app/pipeline/risk_identification.py:83-86 | the statistics are the bucket sizes, in bucket order |
| RiskIdentification.StatsSumToCount | app/pipeline/risk_identification.py:83-86 | the counts add up to the number of indicators |
| RiskIdentification.FindIndicator | app/pipeline/risk_identification.py:110 | the indicator with that id, and none only when no indicator has it |
| RiskIdentification.FirstValue | app/pipeline/risk_identification.py:111 | a stored value of that mission and indicator, and none only when there is none |
| RiskIdentification.MaxOf | app/pipeline/risk_identification.py:146 | the maximum is one of the values and at least each of them |
| RiskIdentification.MinOf | app/pipeline/risk_identification.py:148 | the minimum is one of the values and at most each of them |
| RiskIdentification.ApplyFusionRule | app/pipeline/risk_identification.py:88-158 | the loop over the input ids yields the specification `Fusion` |
| RiskIdentification.FusionInputsFacts | app/pipeline/risk_identification.py:99-123 | every input is a listed id of a known indicator whose first value for the mission is that number |
| RiskIdentification.FuseValuesMeaning | app/pipeline/risk_identification.py:134-150 | mean, max and min give the mean, the maximum and the minimum; an unknown method gives the mean |
| RiskIdentification.UniformIsMean | app/pipeline/risk_identification.py:140-142 | the uniform weights 1/n give the mean |
| RiskIdentification.WeightedSumFallsBackToMean | app/pipeline/risk_identification.py:137-144 | weights that do not parse, are not numbers or differ in count from the inputs give the mean |
| RiskIdentification.SingleInputUnchanged | app/pipeline/risk_identification.py:134-150 | one input is its own fused value, except `weighted_sum` with one numeric weight w, which gives w·v |
| RiskIdentification.UnknownTypeMoments | app/pipeline/risk_identification.py:316-318 | categorical, unknown and empty types take (x, max(1e-6, 0.1·abs(x))) |
| RiskIdentification.NormalDefaults | app/pipeline/risk_identification.py:287-289 | a normal indicator without parameters takes the value and the default deviation |
| RiskIdentification.UniformSquare | app/pipeline/risk_identification.py:296-300 | μ = (l + h)/2 and σ² = (h − l)²/12 |
| RiskIdentification.TriangularSquare | app/pipeline/risk_identification.py:301-307 | μ = (l + m + h)/3, σ ≥ 0 and σ² = max(0, var) |
| RiskIdentification.DiscreteMean | app/pipeline/risk_identification.py:308-315 | μ = Σ v·p when the lengths agree, the mean of the values when they do not, none for no values; σ ≥ 0 |
| RiskIdentification.DiscreteKeepsProbabilities | app/pipeline/risk_identification.py:310-313 | probabilities are not normalised: value 2 with probability 0.5 gives μ = 1 |
| RiskIdentification.RecordMapLast | app/pipeline/risk_identification.py:178 | the value map holds each indicator's last stored value |
| RiskIdentification.GenerateRiskDataset | app/pipeline/risk_identification.py:160-249 | the assembly is the specification `RiskDatasetOf` |
| RiskIdentification.BuildEntries | app/pipeline/risk_identification.py:184-212 | the first loop yields the specification `Entries` |
| RiskIdentification.BuildFused | app/pipeline/risk_identification.py:215-227 | the second loop yields the specification `FusedEntries` |
| RiskIdentification.EntriesWeights | app/pipeline/risk_identification.py:182-199 | the normalised weights sum to the weight of the indicators with a value over the total |
| RiskIdentification.DatasetWeights | app/pipeline/risk_identification.py:182-199 | with a positive total the indicator weights sum to 1, otherwise each is 1 |
| RiskIdentification.EntriesFacts | app/pipeline/risk_identification.py:184-212 | each entry is an indicator with a stored value: the value's number, or 0 when it is not a number, and the value's source |
| RiskIdentification.FusedEntriesFacts | app/pipeline/risk_identification.py:218-227 | each fused entry comes from a successful rule: id −rule.id, μ = value, σ = max(1e-6, 0.1·abs(value)), weight 1/(rules + 1), type normal |
| RiskIdentification.FusedDropsEmptyRule | app/pipeline/risk_identification.py:125-132 | a rule without valid inputs adds nothing to the fused list |
| RiskIdentification.DatasetTotals | app/pipeline/risk_identification.py:229-238 | the totals are the list lengths, at most one fused entry per rule, and the distribution counts add up to all indicators |
| DataAcquisition.ImportIndicatorValuesCsv | app/pipeline/data_acquisition.py:40-126 | the import is the specification `ImportIndicatorValues` on the indicator and value tables, and changes no other table |
| DataAcquisition.ImportValueRow | app/pipeline/data_acquisition.py:65-117 | one row is one `ValueRowStep`, and the overall success flag is left alone |
| DataAcquisition.ImportValueFor | app/pipeline/data_acquisition.py:77-114 | a row whose mission exists finds or auto-creates its indicator, or is reported |
| DataAcquisition.StoreRow | app/pipeline/data_acquisition.py:94-114 | the pair's value is stored and the row counted, touching only the value table |
| DataAcquisition.StoreRowValue | app/pipeline/data_acquisition.py:94-112 | the pair's stored value is rewritten or a new one created; `updated` exactly when one existed |
| DataAcquisition.ValueForUnique | app/pipeline/data_acquisition.py:95 | with one value per (mission, indicator) pair, any match is the one the lookup finds |
| DataAcquisition.RewriteKeepsKeys | app/pipeline/data_acquisition.py:96-101 | rewriting a value under its own id and pair changes only that value and keeps ids and pairs unique |
| DataAcquisition.AppendKeepsKeys | app/pipeline/data_acquisition.py:104-112 | a fresh id for a new pair keeps ids and pairs unique |
| DataAcquisition.StoredValuesFacts | app/pipeline/data_acquisition.py:94-112 | the table grows by one exactly when the pair had no value, and afterwards the pair holds the row's value, source and time |
| DataAcquisition.ValueRowStepFacts | app/pipeline/data_acquisition.py:64-117 | one row adds one to imported plus errors, keeps ids and pairs unique, only appends indicators, and only when auto-creating |
| DataAcquisition.ValueRowsFacts | app/pipeline/data_acquisition.py:64-117 | every row counted once; the value table grows by at most the rows imported |
| DataAcquisition.IndicatorValueImportFacts | app/pipeline/data_acquisition.py:40-126 | every row counted once, plus one error for an unreadable text; success exactly when every row was imported; ids and pairs stay unique |
| DataAcquisition.ClampedEvent | app/pipeline/data_acquisition.py:162-174 | L and S land in [1, 5], values already there are kept, and the other fields are the row's |
| DataAcquisition.ImportRiskEventsCsv | app/pipeline/data_acquisition.py:128-188 | the import is the specification `ImportRiskEvents` and changes only the event table |
| DataAcquisition.ImportEventRow | app/pipeline/data_acquisition.py:148-179 | one row is one `EventRowStep` |
| DataAcquisition.AcceptedEvent | app/pipeline/data_acquisition.py:148-175 | a row creates an event exactly when it parses and its mission exists, and then the clamped event |
| DataAcquisition.AcceptedEventsSound | app/pipeline/data_acquisition.py:156-175 | every accepted event has L and S in [1, 5] and an existing mission |
| DataAcquisition.EventRowsFacts | app/pipeline/data_acquisition.py:147-179 | every row is imported or reported once; the table only grows, by the accepted rows' events in order |
| DataAcquisition.EventStepErrors | app/pipeline/data_acquisition.py:156-160 | a row only appends errors, and an unknown mission appends exactly that error |
| DataAcquisition.EventMissionMissingReported | app/pipeline/data_acquisition.py:147-160 | a row naming an unknown mission is reported with its row number, counting from 2 |
| DataAcquisition.RiskEventImportFacts | app/pipeline/data_acquisition.py:128-188 | every row counted once; success exactly when every row was imported from a readable text; only events with L and S in [1, 5] and an existing mission are added |
| DataAcquisition.ClampedItem | app/pipeline/data_acquisition.py:227-243 | S, O and D land in [1, 10], values already there are kept, and the other fields are the row's |
| DataAcquisition.ImportFmeaItemsCsv | app/pipeline/data_acquisition.py:190-257 | the import is the specification `ImportFmeaItems` and changes only the FMEA table |
| DataAcquisition.ImportFmeaRow | app/pipeline/data_acquisition.py:210-248 | one row is one `FmeaRowStep` |
| DataAcquisition.AcceptedItem | app/pipeline/data_acquisition.py:210-244 | a row creates an item exactly when it parses and its mission exists, and then the clamped item |
| DataAcquisition.AcceptedItemsSound | app/pipeline/data_acquisition.py:221-244 | every accepted item has S, O and D in [1, 10] and an existing mission |
| DataAcquisition.FmeaRowsFacts | app/pipeline/data_acquisition.py:209-248 | every row is imported or reported once; the table only grows, by the accepted items in order |
| DataAcquisition.FmeaStepErrors | app/pipeline/data_acquisition.py:221-225 | a row only appends errors, and an unknown mission appends exactly that error |
| DataAcquisition.FmeaMissionMissingReported | app/pipeline/data_acquisition.py:209-225 | a row naming an unknown mission is reported with its row number |
| DataAcquisition.FmeaImportFacts | app/pipeline/data_acquisition.py:190-257 | as for risk events, with S, O and D in [1, 10] |
| DataAcquisition.CoveredIndicators | app/pipeline/data_acquisition.py:295-296 | an indicator is covered exactly when some value of the mission names it |
| DataAcquisition.Coverage | app/pipeline/data_acquisition.py:300-305 | 100 without indicators; below 80 exactly when 5·covered < 4·total, at least 50 exactly when 2·covered ≥ total; within [0, 100] when covered ≤ total |
| DataAcquisition.MissingMissionReport | app/pipeline/data_acquisition.py:284-288 | an unknown mission gives the blank report with the single issue that it does not exist, and is not complete |
| DataAcquisition.CompletenessFacts | app/pipeline/data_acquisition.py:290-326 | for an existing mission each issue is raised exactly when its condition holds, and the mission is complete exactly when half the indicators are covered and it has a risk event |
| DataAcquisition.CoverageBounds | app/pipeline/data_acquisition.py:294-303 | when every value names an existing indicator, at most all are covered and the coverage is a percentage |
| DataAcquisition.CheckDataCompleteness | app/pipeline/data_acquisition.py:259-328 | the report is the specification `Completeness` of the tables |
| DataAcquisition.CsvTemplate | app/pipeline/data_acquisition.py:331-346 | a template exists exactly for the three kinds |
| DataAcquisition.CsvTemplateHeader | app/pipeline/data_acquisition.py:341-346 | each template is `",".join` of the columns its import reads, a newline, then its sample rows |
| DataAcquisition.ValueHeaderJoined | app/pipeline/data_acquisition.py:343 | the indicator value header is the join of the four columns read at lines 66-69 |
| DataAcquisition.EventHeaderJoined | app/pipeline/data_acquisition.py:344 | the risk event header is the join of the six columns read at lines 149-154 |
| DataAcquisition.FmeaHeaderJoined | app/pipeline/data_acquisition.py:345 | the FMEA header is the join of the nine columns read at lines 211-219 |
| DataAcquisition.ValueColumnsSuffice | app/pipeline/data_acquisition.py:66-69 | two rows that agree on the template's columns read as the same fields |
| DataAcquisition.EventColumnsSuffice | app/pipeline/data_acquisition.py:149-154 | two rows that agree on the template's columns read as the same fields |
| DataAcquisition.FmeaColumnsSuffice | app/pipeline/data_acquisition.py:211-219 | two rows that agree on the template's columns read as the same fields |
| ExcelImport.OptionalText | app/utils/excel_import.py:151 | an absent column gives the empty text |
| ExcelImport.ValidNameMeans | app/utils/excel_import.py:143-146 | a name is accepted exactly when it is neither empty nor "nan" |
| ExcelImport.ScoreOf | app/utils/excel_import.py:311-312 | a cell gives a whole score exactly when it holds a finite number, and then its truncation |
| ExcelImport.ScoreRow | app/utils/excel_import.py:310-322 | an accepted row has one score per column |
| ExcelImport.ScoreRowFacts | app/utils/excel_import.py:310-322 | scores are accepted exactly when all are whole and within [lo, hi], and then as read; a non-number refuses the row; otherwise the first score out of range names the error |
| ExcelImport.MissionRow | app/utils/excel_import.py:142-153 | a mission row is accepted exactly when its name is valid, and refused with its row number otherwise |
| ExcelImport.CategoryRow | app/utils/excel_import.py:192-203 | a category row is accepted exactly when its name is valid, and refused with its row number otherwise |
| ExcelImport.CoercedValueType | app/utils/excel_import.py:252-257 | the value type is numeric or text; numeric or text is kept; a missing column gives numeric |
| ExcelImport.IndicatorRow | app/utils/excel_import.py:242-259 | an indicator row is accepted exactly when its name is valid, always with value type numeric or text |
| ExcelImport.EventRowFacts | app/utils/excel_import.py:296-333 | a risk-event row yields a draft exactly when both names are valid and L and S are whole and in [1, 5]; otherwise the first failing check names the error |
| ExcelImport.FmeaRowFacts | app/utils/excel_import.py:370-414 | an FMEA row yields a draft exactly when both names are valid and S, O and D are whole and in [1, 10]; otherwise the first failing check names the error |
| ExcelImport.KeptStep | app/utils/excel_import.py:140-157 | one more row adds its draft or its error |
| ExcelImport.KeptHas | app/utils/excel_import.py:140-153 | every accepted row's draft is kept |
| ExcelImport.KeptFrom | app/utils/excel_import.py:140-153 | every kept draft is some accepted row's |
| ExcelImport.RefusedHas | app/utils/excel_import.py:140-157 | every refused row's error is reported |
| ExcelImport.RefusedFrom | app/utils/excel_import.py:140-157 | every reported error is some refused row's |
| ExcelImport.Screen | app/utils/excel_import.py:125-163 | with the required columns present every row gives a draft or an error |
| ExcelImport.ParseAll | app/utils/excel_import.py:140-142 | one outcome per data row, the first numbered 2 |
| ExcelImport.NumberedRefusal | app/utils/excel_import.py:140-157 | when only row i can be refused with e, e is reported exactly when row i is refused with it |
| ExcelImport.MissionImportFacts | app/utils/excel_import.py:142-146 | a mission row has an invalid name exactly when its empty-name error is reported |
| ExcelImport.MissionsNamed | app/utils/excel_import.py:112-163 | every mission returned has a valid name |
| ExcelImport.CategoryImportFacts | app/utils/excel_import.py:192-196 | a category row has an invalid name exactly when its empty-name error is reported |
| ExcelImport.CategoriesNamed | app/utils/excel_import.py:165-213 | every category returned has a valid name |
| ExcelImport.IndicatorImportFacts | app/utils/excel_import.py:242-246 | an indicator row has an invalid name exactly when its empty-name error is reported |
| ExcelImport.IndicatorsWellTyped | app/utils/excel_import.py:215-269 | every indicator returned has a valid name and value type numeric or text |
| ExcelImport.EventImportFacts | app/utils/excel_import.py:296-322 | a risk-event row without a mission name, or with whole scores out of range, is reported with its row number rather than clamped |
| ExcelImport.EventsInRange | app/utils/excel_import.py:271-343 | every risk-event draft has both names and L and S in [1, 5] |
| ExcelImport.FmeaImportFacts | app/utils/excel_import.py:370-400 | a refused FMEA row is reported with its row number, as for risk events |
| ExcelImport.FmeaItemsInRange | app/utils/excel_import.py:345-424 | every FMEA draft has both names and S, O and D in [1, 10] |
| ExcelImport.ExcelImporter.constructor | app/utils/excel_import.py:109-110 | a new importer has no errors |
| ExcelImport.ExcelImporter.Collect | app/utils/excel_import.py:140-157 | the row loop returns the accepted drafts and leaves the refused rows' errors in `errors`, both in row order |
| ExcelImport.ExcelImporter.ImportMissions | app/utils/excel_import.py:112-163 | `import_missions` is the specification `ImportedMissions`, and `errors` holds what it returns |
| ExcelImport.ExcelImporter.ImportCategories | app/utils/excel_import.py:165-213 | `import_indicator_categories` is the specification `ImportedCategories` |
| ExcelImport.ExcelImporter.ImportIndicators | app/utils/excel_import.py:215-269 | `import_indicators` is the specification `ImportedIndicators` |
| ExcelImport.ExcelImporter.ImportRiskEvents | app/utils/excel_import.py:271-343 | `import_risk_events` is the specification `ImportedEvents` |
| ExcelImport.ExcelImporter.ImportFmeaItems | app/utils/excel_import.py:345-424 | `import_fmea_items` is the specification `ImportedFmeaItems` |
| BatchImport.NameMapHas | app/utils/excel_import.py:551 | every name of the table is a key of `{m.name: m.id}` |
| BatchImport.NameMapAt | app/utils/excel_import.py:551 | a key maps to the id of the last record with that name |
| BatchImport.MissionMapFacts | app/utils/excel_import.py:550-551 | a name is a key exactly when a mission bears it, and maps to the id of the last mission so named |
| BatchImport.AddNewName | app/utils/excel_import.py:485-487 | a category with a new name adds that name and keeps the names unique |
| BatchImport.UniqueNamesCount | app/utils/excel_import.py:469 | names that are all different count as many as the records |
| BatchImport.MissionRunsFacts | app/utils/excel_import.py:446-449 | the table gains one mission per draft, in order, with the draft's fields |
| BatchImport.BatchImportMissions | app/utils/excel_import.py:436-453 | every draft is stored in order, the count is the number of drafts, and only the mission table changes |
| BatchImport.CategoryStepFacts | app/utils/excel_import.py:471-487 | one draft is created or skipped, and the names seen stay the table's names |
| BatchImport.CategoryRunsFacts | app/utils/excel_import.py:469-492 | every draft is created or skipped; the table only grows; the names seen are the old names and the drafts'; unique names stay unique |
| BatchImport.CategorySkipped | app/utils/excel_import.py:476-487 | a draft is skipped with a message exactly when its name is in the table or came earlier in the batch; otherwise its category is created |
| BatchImport.CategoryCount | app/utils/excel_import.py:469-492 | with unique names in the table the count is the number of new distinct names |
| BatchImport.BatchImportCategories | app/utils/excel_import.py:455-492 | the loop yields the specification `CategoryRuns` and changes only the category table |
| BatchImport.CreatedCategoryKnown | app/utils/excel_import.py:515-520 | creating a category for an unknown name and remembering its id keeps the name map sound |
| BatchImport.IndicatorStepFacts | app/utils/excel_import.py:509-532 | one draft adds one indicator, with no category or the map's id for its name, and only creates categories the map did not know |
| BatchImport.IndicatorRunsFacts | app/utils/excel_import.py:507-537 | the map stays sound and keeps existing ids; one indicator per draft; both tables only grow; unique names stay unique |
| BatchImport.IndicatorNewCategories | app/utils/excel_import.py:515-518 | every category the batch creates has a name not in the table and the auto-created note |
| BatchImport.IndicatorCategoryOf | app/utils/excel_import.py:512-530 | draft j's indicator has no category when the draft names none, and otherwise the final map's id for that name |
| BatchImport.BatchImportIndicators | app/utils/excel_import.py:494-537 | the loop yields the specification `IndicatorRuns`, the count is the number of drafts, and only the category and indicator tables change |
| BatchImport.ImportIndicator | app/utils/excel_import.py:509-532 | the loop body is one `IndicatorStep` |
| BatchImport.EventRunsFacts | app/utils/excel_import.py:553-577 | every draft is stored or reported; the table only grows; each message is for a draft whose mission is unknown, and every such draft has one |
| BatchImport.EventFrom | app/utils/excel_import.py:562-573 | every stored event comes from a draft whose mission is known, with that mission's id |
| BatchImport.BatchImportRiskEvents | app/utils/excel_import.py:539-579 | the loop yields the specification `EventRuns` and changes only the event table |
| BatchImport.FmeaRunsFacts | app/utils/excel_import.py:595-622 | as for risk events, keyed by failure mode |
| BatchImport.FmeaFrom | app/utils/excel_import.py:604-618 | every stored FMEA item comes from a draft whose mission is known, with that mission's id |
| BatchImport.BatchImportFmeaItems | app/utils/excel_import.py:581-624 | the loop yields the specification `FmeaRuns` and changes only the FMEA table |
| BatchImport.SheetEventStored | app/utils/excel_import.py:271-343 | an event stored from a sheet has L and S in [1, 5] and belongs to the last mission bearing its row's name |
| BatchImport.SheetFmeaItemStored | app/utils/excel_import.py:345-424 | an FMEA item stored from a sheet has S, O and D in [1, 10] and belongs to the last mission bearing its name |
| MonteCarlo.Simulate | app/models/monte_carlo.py:308-445 | no records give the empty result; it fails exactly when there are records and the sample count is not a usable number or is at most 0 or False (`np.percentile` of no samples raises); otherwise one statistic per record, one total per iteration and global statistics |
| MonteCarlo.RunFmeaStage | app/models/monte_carlo.py:221-223 | the FMEA stage is the specification `FmeaStage`, and its draws end where the AHP stage starts |
| MonteCarlo.RunAhpStage | app/models/monte_carlo.py:225-227 | the AHP stage is the specification `AhpStage` and uses its draws |

## Left out

- Rounding: every `round(x, 2)` and `round(x, 4)` of the source is left out, and values are kept exact. Floating point in general is modelled by exact reals.
- Ahp.ConcludeTop: sorts the contributors on unrounded contributions, while the source sorts on contributions rounded to 4 places. Ties that only rounding creates may therefore be ordered differently.
- numpy statistics: `np.mean`, `np.std` and `np.percentile` are the fields of a `Numpy` parameter. The only fact assumed is that the mean of a 0/1 array is its average (`MeanIsAverage`).
- numpy's random generator is a stream of draws passed in, and `np.random.seed` selects a stream through a parameter. The distributions of the draws are not modelled, only which draw each sample takes.
- `exp`, `sqrt`, `log` and π are the fields of a `Transcendentals` parameter, with the few facts the proofs use (`Sound`). The numerical values of densities, sigmoids and lognormal moments are not verified.
- `exp` is total in the model. The OverflowError `math.exp` raises on a large argument is not modelled, so `Ahp.Evaluate` (`app/models/ahp_improved.py:263-265`), `MonteCarlo.AhpScore` (`app/models/monte_carlo.py:576`) and `RiskIdentification.MuSigma` (`app/pipeline/risk_identification.py:294-295`) do not fail there.
- Fta: the interpreter's recursion limit is a `fuel` parameter. The model fails where the nesting exceeds it, while CPython's limit depends on the stack already in use.
- Persistence: `app/db/db.py` and the SQL of `app/db/dao.py` are replaced by the `RecordStore` tables. New row ids are one more than the largest id in the table; the schema file is not part of this model, so this policy is assumed.
- Three lookups are assumed to return the first matching row in id order, since SQLite gives no order without `ORDER BY`:
  - `get_by_name` (`app/db/dao.py:318`), used through `RecordStore.IndicatorByName`;
  - `get_by_mission_and_indicator` (`app/db/dao.py:366-373`), used through `RecordStore.ValueFor` and `RiskIdentification.FirstValue`;
  - `get_top_node` (`app/db/dao.py:737-744`), used through `Fta.FindTop`.
- Fta.FindTop: a mission with two TOP nodes is analysed from the first one in id order (`app/models/fta.py:200`). The source leaves that choice to SQLite.
- DAO failures: an exception raised by a `create` or `update` is not modelled. So `BatchImport.BatchImportMissions` and `BatchImport.BatchImportIndicators` always return an empty error list, and the CSV imports raise no per-row database error.
- Error and advice messages are datatypes, not the source's Chinese texts. Traceback text is left out.
- Reading files: `pd.read_csv`, `pd.read_excel` and `csv.DictReader` are left out. A sheet is given as its columns and cells, a CSV text as its rows plus a flag for unreadable text.
- `float(text)` in the CSV imports and on text values of a stored AHP data set is a `floatOf` parameter.
- ModelBase.ModelRegistry.constructor: builds a fresh, empty registry. The source's `ModelRegistry` is a process-wide singleton (`app/models/base.py:184-191`): every `ModelRegistry()` returns the same instance, so the model does not capture that two registries share their models.
- PyText.IsSpace: `str.strip()` removes ASCII white space only; Unicode white space is left out.
- PyText.ParseInt: accepts a sign and ASCII digits. Underscores between digits and non-ASCII digits, which Python's `int` also accepts, are left out.
- JSON text is given already parsed, or marked as unparsable. `json.loads` and `json.dumps` are left out. A duplicated key is read at its first occurrence in the model, while `json.loads` keeps the last.
- RiskIdentification.FusionInputsFacts: an input id that is not a JSON integer finds no indicator. SQLite's type affinity would match `"3"` or `3.0` to the id 3.
- Clocks: `datetime.now()` and today's date are parameters (`now`, `today`).
- RiskIdentification.GenerateRiskDataset: computes the dataset but does not model writing it to the database, its creation time or its note.
- `get_dataset_summary` and `get_distribution_type_name` of `app/pipeline/risk_identification.py` are not modelled. They only read back stored JSON and look up display names.
- `get_info`, `get_all_info`, `get_model` and `get_all_models` of `app/models/base.py` are left out. So are `ModelResult.to_dict` and the `get_color` helpers of `app/models/types.py`. They copy fields into dictionaries or look up display colours.
- The Excel templates and `save_template` (`app/utils/excel_import.py:17-103`) are left out: they build example sheets and write files.
- The Qt user interface, plotting, HTML reports, sample seed data and start-up code are not part of this model.

## Findings

| source | as written | input that shows it | evidently intended | confidence | as-written member | corrected member |
|---|---|---|---|---|---|---|
| app/models/fta.py:370-385 | sensitivity analysis perturbs each basic event around `probability if probability else 0.01` and restores that value, so an event stored with probability 0 is left at 0.01 for the later perturbations and afterwards | an OR gate over A = 0.0 and B = 0.5 with delta 0.1: A's impact is 0.0055 and B's 0.0545, and A is left at 0.01. Restoring the stored 0.0 alone gives 0.0055 and 0.05; perturbing around the stored 0.0 as well gives 0 and 0.05 | perturb each event around the probability it had and restore that probability afterwards | high (None and 0.0 are both falsy in Python); not executed | Fta.AsWrittenDistortsLaterItems | Fta.CorrectedExample |
