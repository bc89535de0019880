# Gas-respiration mass balance in Dafny

This project models the calculation and validation core of the gas-respiration spreadsheet tool.
A respiration test samples the headspace of a closed bottle at a series of time steps. Some rows
are "flushed": the bottle is opened and refilled, so no balance carries across them. From one
ordered table per sample the tool computes the following:

- the corrected gas composition (CH4, CO2, O2 and N2 rescaled to 100 %);
- moles in the headspace by the ideal gas law;
- the amount produced or consumed between two samplings (before[i] - after[i - 1]);
- a flush-aware cumulative total of that amount, and the same total per gram of dry matter;
- the CO2 dissolved in the water by Henry's law, its change between samplings, its running
  total and the dissolved inorganic carbon (DIC);
- two final results: total carbon per dry matter, and the O2/CO2 ratio.

Beside the calculations the core has the following:

- the Excel column-letter/index conversion (bijective base 26);
- the cell validators that list the rows of a column holding an unacceptable value;
- the class that runs those validators over every sample sheet and gathers
  `{sheet: {column: rows}}` dictionaries;
- two table helpers: fill the NaN cells of a column, and move a column next to another.

## How the model is built

- **Cells (`Series`).** A pandas float64 column is a `seq<Cell>`, where `Cell = Nan | Val(x: real)`.
  - Arithmetic on cells propagates `Nan`.
  - `flush == 0` and `flush == 1` are false for `Nan`, as in pandas.
  - Column operations such as `shift(1)`, `.at[0] = v`, the flush mask and `np.where` are small
    functions, and each one states its result row by row.
- **Frames (`Frame`).** A frame is a class, `DataFrame`, with three fields:
  - `names`, the ordered column names;
  - `columns`, a map from name to column;
  - `rows`, the number of rows.

  The operations that change a frame in place in the source are methods over this class, with
  `modifies` clauses and postconditions that state the whole new state. These are
  `set_gas_composition`, the cell-0 overwrite of `partial_pressure_carbon_dioxide`,
  `carbon_dioxide_produced_moles`, `cumulative_operation`, `fill_nan_values` and
  `replace_position_column`.
- **Pure stages.** The other stages are single vectorised expressions. They are modelled as
  functions over columns, and lemmas relate each to its physical meaning and to the worked values
  of the repository's tests.
- **Loops.** Loops stay loops:
  - the fold of `cumulative_operation`;
  - the letter/index conversions;
  - the validators' row scans;
  - the per-sheet loops of the validation class.

  Each is a method proved equal to a recursive specification function, and lemmas state what
  that function means.
- **Sample ids.** `validate_if_there_is_a_specific_string` flags the rows that are null or EQUAL
  to the given string, and the sheet check `fill_dict_indexes_as_pandas_incorrect_sample_id` runs it with each
  sheet's own sample id. So the rows filed under "incorrect sample id" are the rows that hold
  the expected id (or nothing). The model keeps this as written: `IsSpecificString` and
  `UnflaggedValues` state it, and no corrected variant is modelled.
- **Python errors.** `KeyError`, `ValueError` and `ZeroDivisionError` are values of the `Result`
  datatype. The frame methods raise them on the same inputs and in the same order as the source,
  and leave the frame in the state the source leaves it in. A stage modelled as a function of
  its columns raises only its ZeroDivisionError or row KeyError, since it is handed the columns
  and so cannot miss one (see "Left out").
- **Write, then read.** The two frame methods `carbon_dioxide_produced_moles` and
  `cumulative_operation` store their result column before they read their inputs, and so does
  the model, so an input that has the result column's name reads what was stored:
  `carbon_dioxide_produced_moles` masks by the frame as it is after the store, and the loop of
  `cumulative_operation` reads each row from the frame's columns as the loop has left them.
  The other stages that store first are modelled as functions and do not (see "Left out").

| Dafny module | source file |
|---|---|
| `Outcomes`, `Series`, `Frame` | pandas behaviour the core relies on |
| `GasCompositionCalculations` | data_frame_calculations_standard_for_gas_respiration_tests.py |
| `MolesProduced`, `CumulativeProductionGasPhase`, `CarbonInAqueousPhase`, `ResultsInterpretations` | data_frame_calculations.py |
| `NiceExcelFunction` | nice_functions.py |
| `GeneralValidationFunctions` | validation_input_data/general_validation_functions.py, validate_input_data.py |
| `SheetValidation` | validation_input_data/validate_input_data.py |
| `DataFrameProcessor` | data_frame_processor.py |

## Model

| member | source | states |
|---|---|---|
| GasCompositionCalculations.SetGasComposition | data_frame_calculations_standard_for_gas_respiration_tests.py:10-30 | the four values land in row `index`, every other cell of the frame is unchanged, missing gas columns are appended (NaN elsewhere) and `index == rows` appends a row |
| GasCompositionCalculations.AppendIfMissing | data_frame_calculations_standard_for_gas_respiration_tests.py:30 | after setting with enlargement the new column is present and no old column is lost |
| GasCompositionCalculations.SumCorrectSum | data_frame_calculations_standard_for_gas_respiration_tests.py:33-59 | per row: the raw sum of the four gases, each gas rescaled by 100 / sum, and the sum of the rescaled gases |
| GasCompositionCalculations.CorrectedSumIsHundred | data_frame_calculations_standard_for_gas_respiration_tests.py:52-59 | for a defined, nonzero raw sum the corrected gases add up to exactly 100 |
| GasCompositionCalculations.CorrectedUndefinedWithoutSum | data_frame_calculations_standard_for_gas_respiration_tests.py:49-59 | a row with an undefined gas or a zero sum gets undefined corrected values |
| GasCompositionCalculations.CorrectionKeepsHundred | data_frame_calculations_standard_for_gas_respiration_tests.py:52-55 | a row that already sums to 100 is unchanged by the correction |
| GasCompositionCalculations.CorrectionIdempotent | data_frame_calculations_standard_for_gas_respiration_tests.py:52-55 | correcting corrected values changes nothing |
| GasCompositionCalculations.RescaledSum | data_frame_calculations_standard_for_gas_respiration_tests.py:52-59 | 100/s times each part of s sums back to 100 |
| GasCompositionCalculations.SumCorrectSumExampleRow0 | test/test_data_frame_calculations_standard_for_gas_respiration_tests.py:17-43 | row (12, 33, 35, 30): sum 110, corrected 120/11, 30, 350/11, 300/11, corrected sum 100 |
| GasCompositionCalculations.SumCorrectSumExampleRow1 | test/test_data_frame_calculations_standard_for_gas_respiration_tests.py:17-43 | row (18, 17, 39, 16): sum 90, corrected 20, 170/9, 390/9, 160/9, corrected sum 100 |
| GasCompositionCalculations.SumCorrectSumExampleRow2 | test/test_data_frame_calculations_standard_for_gas_respiration_tests.py:17-43 | row (30, 10, 10, 50): sum 100 and left unchanged |
| GasCompositionCalculations.MolGasSampling | data_frame_calculations_standard_for_gas_respiration_tests.py:96-97 | ZeroDivisionError exactly when R * T is 0; otherwise one value per pressure row, defined exactly when the pressure is, with n * R * T == P * 100 * V (the ideal gas law, pressure in hPa) |
| GasCompositionCalculations.MolGasSamplingLinear | data_frame_calculations_standard_for_gas_respiration_tests.py:96-97 | the moles are linear in the pressure |
| GasCompositionCalculations.MolGasSamplingExample | test/test_data_frame_calculations_standard_for_gas_respiration_tests.py:72-83 | 1000 hPa with R = 8.314, T = 298, V = 10 gives 403.62096.. |
| GasCompositionCalculations.SpecificGasMoles | data_frame_calculations_standard_for_gas_respiration_tests.py:100-106 | species moles times 100 equal total moles times the corrected percentage; defined exactly when both inputs are |
| GasCompositionCalculations.SpecificGasMolesExample | test/test_data_frame_calculations_standard_for_gas_respiration_tests.py:85-96 | 0.1 mol at 0.5 % is 0.0005 mol (and the other two rows) |
| GasCompositionCalculations.SpeciesMolesAddUpToTotal | data_frame_calculations_standard_for_gas_respiration_tests.py:52-59 | the four species moles computed from corrected percentages add up to the total moles |
| GasCompositionCalculations.CarbonTotalMoles | data_frame_calculations_standard_for_gas_respiration_tests.py:109-111 | one row per input row; each row is CO2 + CH4, undefined as soon as one of them is |
| GasCompositionCalculations.CarbonTotalMolesExample | test/test_data_frame_calculations_standard_for_gas_respiration_tests.py:98-107 | CO2 [0.5, 0.8, 1.2] plus CH4 [0.3, 0.4, 0.5] is [0.8, 1.2, 1.7] |
| MolesProduced.ProducedMoles | data_frame_calculations.py:64-88 | row i is undefined when flush is 1 (row 0 included), the seed on row 0, otherwise before[i] - after[i - 1] |
| MolesProduced.OxygenConsumedMoles | data_frame_calculations.py:91-110 | the same with the step negated: after[i - 1] - before[i]; the seed is not negated |
| MolesProduced.ProducedMolesUndefined | data_frame_calculations.py:84-88 | a step is undefined exactly on flushed rows and on later rows with an undefined input |
| MolesProduced.OxygenIsNegatedProduction | data_frame_calculations.py:106 | oxygen consumed is production times -1 on every row after the first |
| MolesProduced.CarbonDioxideProducedMoles | data_frame_calculations.py:113-134 | ValueError and an unchanged frame when an input column is missing; otherwise the unmasked step column is stored first and the flush column is looked up in the frame after that store: missing, KeyError with the stored column kept; present (possibly the result column itself), the column becomes `ProducedMoles` masked by it |
| MolesProduced.ProducedMolesMaskedByItself | data_frame_calculations.py:130-134 | with the flush column named as the result column, exactly the rows whose own step is 1 are cleared, the seed of row 0 included |
| MolesProduced.CarbonDioxideExample | test/test_data_frame_calculations.py:61-91 | the ten-row CO2 and O2 test columns, flushed rows undefined |
| MolesProduced.TotalCarbonExample | test/test_data_frame_calculations.py:10-59 | the first rows of the total-carbon test; an undefined flush in row 0 keeps the seed |
| CumulativeProductionGasPhase.Base | data_frame_calculations.py:160-165 | the base of row i is before i, is row 0 or has flush 0, and no row strictly between has flush 0 |
| CumulativeProductionGasPhase.InitialColumn | data_frame_calculations.py:152-156 | the column stored before the loop: the seed in row 0 and NaN in every later row |
| CumulativeProductionGasPhase.CumulativeLoop | data_frame_calculations.py:158-169 | the loop with `last_non_flush_index`, reading each row's flush and step from the columns as the loop has left them, computes the recursive `Cumulative` column and warns for exactly the `UnknownFlushRows`; a missing step column raises KeyError exactly when some row has flush 0, with the column still initial |
| CumulativeProductionGasPhase.CumulativeOperation | data_frame_calculations.py:139-169 | the initial column is stored first; with fewer than two rows nothing else happens; then a missing flush column is a KeyError with the initial column kept; otherwise the loop's column is stored and its warnings returned, all computed from the frame after the first store |
| CumulativeProductionGasPhase.NoZeroFlushKeepsInitial | data_frame_calculations.py:160-167 | before the first row with flush 0 the loop has only written NaN over NaN, so the column is still the initial one |
| CumulativeProductionGasPhase.CumulativeOverOwnFlush | data_frame_calculations.py:153-169 | with the flush column named as the result column every row from 1 on reads NaN, warns and stays NaN |
| CumulativeProductionGasPhase.CumulativeOverOwnSteps | data_frame_calculations.py:153-165 | with the step column named as the result column every row from 1 on reads a NaN step and stays NaN |
| CumulativeProductionGasPhase.CumulativeRows | data_frame_calculations.py:153-169 | row 0 holds the seed whatever its flush; every later row whose flush is not 0 is undefined |
| CumulativeProductionGasPhase.UnknownFlushRowsSpec | data_frame_calculations.py:166-169 | a row is warned about exactly when it is a later row whose flush is neither 0 nor 1 |
| CumulativeProductionGasPhase.UnknownFlushRowsAscending | data_frame_calculations.py:160-169 | the warnings come in ascending row order |
| CumulativeProductionGasPhase.CumulativeClosedForm | data_frame_calculations.py:160-165 | with defined steps, an unflushed total is the seed plus the steps of all unflushed rows up to it |
| CumulativeProductionGasPhase.NonFlushSumSkips | data_frame_calculations.py:166-169 | rows without flush 0 contribute nothing to that sum |
| CumulativeProductionGasPhase.CumulativeMonotone | data_frame_calculations.py:160-165 | with non-negative steps, unflushed totals never decrease |
| CumulativeProductionGasPhase.NonFlushSumGrows | data_frame_calculations.py:160-165 | with non-negative steps the sum of steps grows with the prefix |
| CumulativeProductionGasPhase.CumulativeIgnoresFlushedSteps | data_frame_calculations.py:162-167 | the steps of flushed and unknown-flush rows are never read |
| CumulativeProductionGasPhase.CumulativeNanPropagates | data_frame_calculations.py:163-165 | an undefined step on an unflushed row makes every later unflushed total undefined |
| CumulativeProductionGasPhase.CumulativeOfProducedMoles | data_frame_calculations.py:84-165 | folding `ProducedMoles` does not depend on its seed or flush mask, only on before[i] - after[i - 1] |
| CumulativeProductionGasPhase.CumulativeExample | test/test_data_frame_calculations.py:99-111 | steps [0, 2, NaN, 4, NaN] with flush [0, 0, 1, 0, 1] give [0, 2, NaN, 6, NaN] |
| CumulativeProductionGasPhase.CarbonGasDryMassCumulative | data_frame_calculations.py:172-203 | ZeroDivisionError exactly for a zero dry mass; row 0 the seed, an unflushed row cum * molar mass * 1000 / dry mass, any other row undefined |
| CumulativeProductionGasPhase.CarbonGasDryMassIsMassPerDryWeight | data_frame_calculations.py:197-200 | a defined value times the dry mass is the carbon mass in mg |
| CumulativeProductionGasPhase.CarbonGasDryMassExample | test/test_data_frame_calculations.py:113-130 | [10..60] with flush [0,1,0,0,1,0], molar mass 12.01 and dry mass 2 give [0, NaN, 180150, 240200, NaN, 360300] |
| CarbonInAqueousPhase.ZeroFirstIfNan | data_frame_calculations.py:227-228 | an undefined pressure in row 0 becomes 0; every other cell is kept |
| CarbonInAqueousPhase.PartialPressure | data_frame_calculations.py:230-231 | each row is pressure * 100 * CO2 / 100, undefined when an input is |
| CarbonInAqueousPhase.PartialPressureCarbonDioxide | data_frame_calculations.py:208-231 | KeyError for a missing pressure column or an empty frame with the frame unchanged; otherwise row 0 of the pressure column is zeroed if NaN, then KeyError for a missing CO2 column, else the partial-pressure column is stored |
| CarbonInAqueousPhase.Concentration | data_frame_calculations.py:234-247 | each row is the partial pressure times Henry's constant |
| CarbonInAqueousPhase.AqueousMoles | data_frame_calculations.py:250-267 | each row is the concentration times the water volume in l / 1000 |
| CarbonInAqueousPhase.DissolvedMolesByHenry | data_frame_calculations.py:247-267 | dissolved moles = partial pressure * Henry's constant * water volume in m3, undefined exactly when the pressure is |
| CarbonInAqueousPhase.AqueousChainExample | test/test_data_frame_calculations.py:134-272 | 1117.44 hPa at 0.03 % gives 33.5232 Pa, 0.175326336 mol/m3, 1.7181980928e-5 mol and a DIC of 13.69737 |
| CarbonInAqueousPhase.DissolvedBetweenSteps | data_frame_calculations.py:270-292 | RowKeyError exactly for an empty frame; row 0 is before[0] - after[0], row i is before[i] - after[i - 1] |
| CarbonInAqueousPhase.DissolvedBetweenStepsExample | test/test_data_frame_calculations.py:274-297 | [10,20,30,40,53] and [5,15,20,35,44] give [5,15,15,20,18] |
| CarbonInAqueousPhase.RunningSum | data_frame_calculations.py:295-310 | an undefined row stays undefined; a defined row holds the sum of all defined rows up to it |
| CarbonInAqueousPhase.RunningSumStep | data_frame_calculations.py:310 | each defined total is the previous defined total plus the row's own value |
| CarbonInAqueousPhase.DefinedSumSkips | data_frame_calculations.py:310 | undefined rows add nothing to the running total |
| CarbonInAqueousPhase.RunningSumIsFoldWithoutFlush | data_frame_calculations.py:295-310 | with every value defined the running sum equals the flush-aware fold without flushes |
| CarbonInAqueousPhase.RunningSumExample | data_frame_calculations.py:310 | [1, NaN, 2] gives [1, NaN, 3] |
| CarbonInAqueousPhase.DissolvedInorganicCarbon | data_frame_calculations.py:313-336 | ZeroDivisionError exactly for a zero dry mass; otherwise each row is value * molar mass * 1000 / dry mass |
| ResultsInterpretations.TotalCarbonDryMatter | data_frame_calculations.py:342-370 | undefined when flush is 1 (row 0 included), the seed on row 0, otherwise gas carbon + DIC |
| ResultsInterpretations.TotalCarbonDryMatterDefined | data_frame_calculations.py:366-370 | a later row is defined exactly when it is not flushed and both inputs are, and then it is their sum |
| ResultsInterpretations.TotalCarbonDryMatterExample | test/test_data_frame_calculations.py:301-337 | all five rows of the total-carbon test: the seed under an undefined flush, gas + DIC on unflushed rows, NaN on the flushed row 3 |
| ResultsInterpretations.RatioOxygenCarbonDioxide | data_frame_calculations.py:373-403 | undefined when flush is 1, the seed on row 0, otherwise O2 / (CO2 gas + CO2 aqueous) |
| ResultsInterpretations.RatioTimesCarbonDioxide | data_frame_calculations.py:397-399 | a defined ratio times the total CO2 gives back the O2 consumed |
| ResultsInterpretations.RatioExample | test/test_data_frame_calculations.py:339-374 | the second row of the ratio test is about 6.8085 |
| NiceExcelFunction.Upper | nice_functions.py:27 | lower-case ASCII letters are shifted to upper case and every other character is kept |
| NiceExcelFunction.GetColumnIndexFromLetter | nice_functions.py:12-28 | the character loop computes `ColumnIndex`, the left fold index * 26 + digit |
| NiceExcelFunction.GetColumnLetterFromIndex | nice_functions.py:31-49 | the `divmod` loop computes `ColumnLetters` |
| NiceExcelFunction.ColumnLettersAreUpper | nice_functions.py:45-49 | every produced name consists of 'A'..'Z' only |
| NiceExcelFunction.ColumnIndexAppend | nice_functions.py:26-27 | one more character multiplies the index by 26 and adds its digit |
| NiceExcelFunction.IndexOfLetters | nice_functions.py:12-49 | index_from_letter(letter_from_index(n)) == n for every n >= 0 |
| NiceExcelFunction.LettersOfIndex | nice_functions.py:12-49 | letter_from_index(index_from_letter(s)) == s for every upper-case name |
| NiceExcelFunction.UpperIndexPositive | nice_functions.py:25-28 | a non-empty upper-case name has index at least 1 |
| NiceExcelFunction.ColumnIndexIgnoresCase | nice_functions.py:27 | names that agree after upper-casing have the same index |
| NiceExcelFunction.ColumnNamingIsBijective | nice_functions.py:12-49 | distinct indexes have distinct names and distinct upper-case names have distinct indexes |
| NiceExcelFunction.ColumnIndexExamples | test/test_nice_functions.py:7-13 | A=1, Z=26, AA=27, AB=28, BA=53, ZZ=702, and "ab" reads as 28 |
| NiceExcelFunction.ColumnLettersExamples | test/test_nice_functions.py:15-21 | 1=A, 26=Z, 27=AA, 28=AB, 53=BA, 702=ZZ, and 0 gives the empty name |
| GeneralValidationFunctions.VerdictOf | validation_input_data/general_validation_functions.py:19-22 | `True` exactly when no row was flagged, else the flagged list |
| GeneralValidationFunctions.CollectInvalidRows | validation_input_data/general_validation_functions.py:12-17 | the row scan returns `FlaggedRows`, the flagged rows plus offset in scan order |
| GeneralValidationFunctions.FlaggedRowsSpec | validation_input_data/general_validation_functions.py:14-17 | row i + offset is listed exactly when row i is flagged; entries lie in range and strictly ascend |
| GeneralValidationFunctions.AllValidIff | validation_input_data/general_validation_functions.py:19-22 | a validator answers `True` exactly when no row of the column is flagged |
| GeneralValidationFunctions.ValidateFloatOrInteger | validation_input_data/general_validation_functions.py:10-22 | flags rows that are not int/float or are null; KeyError for a missing column |
| GeneralValidationFunctions.ValidateNoSpecificNumber | validation_input_data/general_validation_functions.py:25-38 | flags rows that differ from the number or are null |
| GeneralValidationFunctions.ValidateString | validation_input_data/general_validation_functions.py:41-53 | flags rows that are not int or are null |
| GeneralValidationFunctions.ValidateSpecificString | validation_input_data/general_validation_functions.py:56-68 | flags rows that are null or EQUAL to the string (as written; see the note on sample ids below) |
| GeneralValidationFunctions.ValidateOneOfStrings | validation_input_data/general_validation_functions.py:71-84 | flags rows that are null or not among the allowed strings |
| GeneralValidationFunctions.UnflaggedValues | validation_input_data/general_validation_functions.py:10-84 | what each validator accepts: a defined int or float; a value equal to the number; an int; a defined value other than the string; exactly the allowed strings |
| GeneralValidationFunctions.FloatOrIntegerExample | validation_input_data/general_validation_functions.py:14-20 | [1, "a", NaN, None, 2.5] with offset 2 flags rows 3, 4, 5 |
| GeneralValidationFunctions.ValidateFloatOrIntegerInstance | validate_input_data.py:6-17 | the older check: the raw rows that are not int/float instances, or `True`; KeyError for a missing column |
| GeneralValidationFunctions.OlderCheckMissesOnlyNan | validate_input_data.py:11 | the newer check flags exactly the older check's rows plus the NaN rows; the older one never flags NaN |
| SheetValidation.ValidateIfAllCellsAreCorrectlyFilled.constructor | validation_input_data/validate_input_data.py:13-33 | every result field starts as None and the shared list as empty |
| SheetValidation.ValidateIfAllCellsAreCorrectlyFilled.FillNoIntOrFloat | validation_input_data/validate_input_data.py:35-52 | returns `NoIntOrFloatFindings` and stores it in its field on success; the first missing column's KeyError otherwise, field untouched |
| SheetValidation.ValidateIfAllCellsAreCorrectlyFilled.FillIncorrectSampleId | validation_input_data/validate_input_data.py:69-88 | returns `SampleIdFindings` (zip of sheets and ids); on success stores it and appends it to the shared list |
| SheetValidation.ValidateIfAllCellsAreCorrectlyFilled.FillIncorrectParallel | validation_input_data/validate_input_data.py:90-110 | returns `ParallelFindings` (zip of sheets and numbers); on success stores it and appends it to the shared list |
| SheetValidation.ValidateIfAllCellsAreCorrectlyFilled.FillIncorrectGcMethod | validation_input_data/validate_input_data.py:112-142 | returns `GcMethodFindings` with the given list or LM/HM/VHM; on success stores it and appends it to the shared list |
| SheetValidation.ValidateIfAllCellsAreCorrectlyFilled.FillNoWeightWhenFlush | validation_input_data/validate_input_data.py:164-188 | returns `NoWeightWhenFlushFindings` and stores it on success |
| SheetValidation.ValidateIfAllCellsAreCorrectlyFilled.SheetColumnFindings | validation_input_data/validate_input_data.py:41-45 | the inner loop over the columns of one sheet computes `ColumnFindings` |
| SheetValidation.ValidateIfAllCellsAreCorrectlyFilled.NoIntOrFloatAcrossSheets | validation_input_data/validate_input_data.py:37-46 | the loop over the sheets computes `NoIntOrFloatFindings` |
| SheetValidation.ValidateIfAllCellsAreCorrectlyFilled.SampleIdAcrossSheets | validation_input_data/validate_input_data.py:73-81 | the loop over the zipped sheets computes `SampleIdFindings` |
| SheetValidation.ValidateIfAllCellsAreCorrectlyFilled.ParallelAcrossSheets | validation_input_data/validate_input_data.py:94-103 | the loop over the zipped sheets computes `ParallelFindings` |
| SheetValidation.ValidateIfAllCellsAreCorrectlyFilled.GcMethodAcrossSheets | validation_input_data/validate_input_data.py:127-135 | the loop over the sheets computes `GcMethodFindings` |
| SheetValidation.ValidateIfAllCellsAreCorrectlyFilled.NoWeightWhenFlushAcrossSheets | validation_input_data/validate_input_data.py:167-181 | the loop over the sheets computes `NoWeightWhenFlushFindings` |
| SheetValidation.ValidateIfAllCellsAreCorrectlyFilled.SheetWeightFindings | validation_input_data/validate_input_data.py:171-181 | the row scan of one sheet computes `WeightFindings`: KeyError for the checked column first, then for the flush column |
| SheetValidation.CombineKeys | validation_input_data/validate_input_data.py:38-39 | a successful dictionary has a key for each visited sheet and no other |
| SheetValidation.CombineOkIff | validation_input_data/validate_input_data.py:38-45 | the dictionary fails exactly when some sheet fails |
| SheetValidation.CombineErrSticks | validation_input_data/validate_input_data.py:38-45 | the first failing sheet's error is the result |
| SheetValidation.ColumnFindingsErrSticks | validation_input_data/validate_input_data.py:41-45 | once a column of a sheet raises, the sheet's result is that first error whatever columns follow |
| SheetValidation.ColumnFindingsOkIff | validation_input_data/validate_input_data.py:41-43 | a sheet succeeds exactly when every checked column is present |
| SheetValidation.ColumnFindingsEntries | validation_input_data/validate_input_data.py:41-45 | a column has an entry exactly when it has flagged rows, the entry being those rows, and only checked columns appear |
| SheetValidation.FlushFlaggedRowsSpec | validation_input_data/validate_input_data.py:174-178 | a row is flagged exactly when its flush is 1 and its value is not a defined number; other flush values never flag |
| SheetValidation.NoIntOrFloatCoversSheets | validation_input_data/validate_input_data.py:38-39 | a successful result has a key for every sheet |
| SheetValidation.SampleIdCoversSheets | validation_input_data/validate_input_data.py:74-75 | a successful result has a key for each sheet that has a partner id, as `zip` stops at the shorter list |
| SheetValidation.ParallelCoversSheets | validation_input_data/validate_input_data.py:95-96 | a successful result has a key for each sheet that has a partner number |
| SheetValidation.GcMethodCoversSheets | validation_input_data/validate_input_data.py:128-129 | a successful result has a key for every sheet |
| SheetValidation.NoWeightWhenFlushCoversSheets | validation_input_data/validate_input_data.py:168-169 | a successful result has a key for every sheet |
| DataFrameProcessor.FillNan | data_frame_processor.py:23 | after filling no cell is NaN, NaN cells hold the value and defined cells are unchanged |
| DataFrameProcessor.FillNanIdempotent | data_frame_processor.py:23 | filling twice is filling once |
| DataFrameProcessor.FillNanValues | data_frame_processor.py:11-23 | the named column is replaced by its filled copy; KeyError and an unchanged frame when it is missing |
| DataFrameProcessor.MoveColumnFails | data_frame_processor.py:72-73 | KeyError for a missing moved column, and for a target that is missing or equal to the moved column; success exactly otherwise |
| DataFrameProcessor.MoveColumnPermutes | data_frame_processor.py:72-74 | a successful move reorders the columns without losing or duplicating one |
| DataFrameProcessor.MoveColumnAdjacent | data_frame_processor.py:72-74 | the moved column ends immediately left of the target |
| DataFrameProcessor.MoveColumnKeepsOrder | data_frame_processor.py:72-74 | the other columns keep their relative order |
| DataFrameProcessor.MoveColumnAt | data_frame_processor.py:72-74 | the moved column is inserted at the target's position in the list without it |
| DataFrameProcessor.ReplacePositionColumn | data_frame_processor.py:59-74 | on success the order is `MoveColumn` and every column's values are unchanged; a missing moved column leaves the frame unchanged; a bad target fails with the moved column already popped |
| Frame.DataFrame.Pop | data_frame_processor.py:72 | `pop` removes the column and returns its values, or raises KeyError and changes nothing |
| Frame.DataFrame.Insert | data_frame_processor.py:73-74 | `insert` places the column at the position and adds its values |

## Left out

- Workbook I/O is not modelled: excel_manager.py, the openpyxl lookups of `NiceExcelFunction`, the
  cell-colouring methods and `fill_dict_with_indexes_as_excel_when_constants_is_incorrect`. The
  sheets reach the model as values.
- `DataFrameProcessor.add_day_column` and the date and time validators and fills are not modelled,
  because they depend on date parsing.
- The statistics modules, run scripts and data classes are not modelled.
- The class fields holding the constants dictionary and the date/time results are not modelled.
- `show_process` printing is not modelled, and neither are Python warnings as output. The warning
  rows of `cumulative_operation` are returned instead.
- IEEE floating point is not modelled: values are reals and NaN is an explicit `Nan` cell. A
  division by a zero cell gives `Nan` instead of ±inf, which matters for the sum correction with a
  zero raw sum and for the ratio with a zero denominator. A scalar division by zero (dry mass,
  R * T) is Python's ZeroDivisionError.
- pandas' `cumsum` is modelled with its default NaN skipping: NaN rows stay NaN and add nothing.
- `.at[0] = v` on a column obtained by `data_frame[name]` is modelled by its intended effect:
  row 0 of the new column is set. This is the effect the repository's tests check, whatever
  pandas' copy-on-write setting does.
- The frame's row labels are 0 .. rows - 1 (a default RangeIndex). Row-label lookups such as
  `.loc[0, ...]` rely on that. GasCompositionCalculations.SetGasComposition therefore takes a row
  `index` of at most `rows`: `.loc` with a larger label would add a row with that label, leaving
  the labels no longer 0 .. rows - 1, and that case is not modelled. Duplicate column names are excluded by `DataFrame.Valid`.
- Upper-casing covers ASCII only. Python's `str.upper` on other characters is not modelled, so
  `Upper` keeps them unchanged.
- GasCompositionCalculations.SetGasComposition: requires the four gas column names to be distinct.
  pandas would assign to a repeated label in list order; that case is not modelled.
- NiceExcelFunction.GetColumnLetterFromIndex: takes a `nat`. A negative index makes the source
  loop forever, since `divmod` keeps it negative, so that case is left out.
- CumulativeProductionGasPhase.CumulativeOperation: the warnings the source emits for rows before
  a KeyError for a missing step column are not part of the Err result.
- The stages modelled as functions of their columns do not raise the KeyError the source raises
  when `data_frame[name]` names a missing column. Nor do they store the result column, because
  they return it, so an input that has the result column's name reads its original values, where
  the source reads the column it just stored. `total_carbon_produced_moles`,
  `oxygen_consumed_moles`, `carbon_dioxide_dissolved_between_time_steps_aqueous`,
  `total_carbon_dry_matter` and the ratio store before they read; for example
  `total_carbon_dry_matter` with the gas column named like the result column gives NaN from
  row 1 on in the source and gas + DIC in the model. These stages are:
  - MolesProduced: `total_carbon_produced_moles` and `oxygen_consumed_moles`;
  - ResultsInterpretations: `total_carbon_dry_matter` and the ratio;
  - GasCompositionCalculations: `sum_correct_sum`, `mol_gas_sampling`,
    `specific_gas_in_moles_before_sampling` and `carbon_total_moles`;
  - CumulativeProductionGasPhase: CarbonGasDryMassCumulative;
  - CarbonInAqueousPhase: Concentration, AqueousMoles, DissolvedBetweenSteps, RunningSum and
    DissolvedInorganicCarbon.

  `carbon_dioxide_produced_moles`, `cumulative_operation` and `partial_pressure_carbon_dioxide`
  are methods on a frame.
- CarbonInAqueousPhase.DissolvedBetweenSteps: on an empty frame it returns the row KeyError of
  `.at[0]` without a result column. The source stores the (empty) result column before raising.
- The validators compare values as `EqualsNumber` and `EqualsString` state. A bool equals the
  number 1 or 0, and a string never equals a number. Other mixed-type comparisons and
  `pd.isnull` on date-like values are not modelled.
- SheetValidation.ValidateIfAllCellsAreCorrectlyFilled.SheetWeightFindings: a flush column
  shorter than the checked column does not flag the extra rows. In one pandas frame both columns
  have the same length, and the source would raise KeyError there instead.
- The Henry's-law constant `henryeff_20` of data_classes.py is `5.23 ** -3`. That is not the
  5.23e-3 default of data_frame_calculations.py:236, and only the latter is used.
