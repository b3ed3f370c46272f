# JNA runner and QuantLib pricers: a Dafny model

This project models the pricing libraries of the repository and the Java runner
that drives them through JNA.

The Java side has two variants, `JNAexec` and `exec`.
- A **native library loader** runs the platform's export-listing tool: `dumpbin /EXPORTS` under `cmd.exe` on Windows, `nm -D` on Linux. It keeps the names it recognises, using two regular expressions for dumpbin rows and the " T " rule for nm rows.
- A **library runner** resolves the library's file name and path and opens the loader. It then runs a line-oriented command loop. Each command calls a native entry point only when that entry point is listed. Arguments are comma lists and numbers parsed from the following lines.

The C++ side consists of the pricing libraries.
- **Leg**: pricingZCL, pricingFDL and pricingFLL.
- **Bond**: bond with spread over yield and CSR spreads.
- **FxForward**: the FX forward.
- **FxForward_lsj**: the earlier FX forward, with its own bootstrap and risk-factor lists.
- **OtStock**: a stock position.

They share the following:
- **CommonUtils**: code tables from integer codes to QuantLib enumerations, YYYYMMDD dates, tenor periods, `initResult` and `processResultArray` (the compacting layout of every sensitivity buffer), the `ScopeGuard`/`FINALLY` helper and the spdlog line formatters.
- **MakeDll**: the MyMath sample library.
- **MyStruct**: the JNA mapping of the structure that the sample library prints.

QuantLib is an oracle throughout. NPVs, discount factors, cash-flow lists, year fractions, the calendar's business-day adjustment, `pow`, the stream formatters and the legacy rounding helpers are parameters of the model, with only the properties the code relies on. An example is that a curve's discount factor is 1 at its own reference date. What the model proves is what the repository's own code does with them:
- which scenario curves it builds;
- which differences it takes;
- what it writes where in the result buffers;
- how the Java runner reads those buffers back.

Doubles are modelled as exact reals. C's truncating integer division and Java's `(int)` cast of a double are written out. Behaviour that C leaves undefined (reading past an array, a null pointer) becomes a precondition. Errors the code handles (QL_FAIL caught and turned into -1, a Java exception) are values of a `Result` or `Option` type.

## Model

| member | source | states |
|---|---|---|
| NativeLoader.ExportCommand | JNAexec/src/main/java/org/jna/NativeLibraryLoader.java:33-42 | no tool exactly on an unsupported platform; `nm -D <path>` on Linux; on Windows a `cmd.exe` command ending in `dumpbin /EXPORTS "<path>"`, with stderr merged into stdout only in the JNAexec loader |
| NativeLoader.LoadFailureMessage | JNAexec/src/main/java/org/jna/NativeLibraryLoader.java:84-86 | the RuntimeException text is the fixed prefix followed by the caught exception's message |
| NativeLoader.LoadFailureMessageInjective | JNAexec/src/main/java/org/jna/NativeLibraryLoader.java:85 | two failures with messages give the same text only if they are the same failure |
| NativeLoader.UnsupportedPlatformEmpty | JNAexec/src/main/java/org/jna/NativeLibraryLoader.java:40-41 | on a platform that is neither Windows nor Linux the loader is built with an empty list and no error |
| NativeLoader.ConstructionListShape | JNAexec/src/main/java/org/jna/NativeLibraryLoader.java:47-81 | a successful construction lists at most one name per output line, and every listed name is non-empty |
| NativeLoader.VariantsAgreeOnSameOutput | exec/src/main/java/org/jna/NativeLibraryLoader.java:46-80 | the two loaders differ only in how they start the tool: given the same output they build the same list or the same error |
| NativeLoader.NativeLibraryLoader.Empty | JNAexec/src/main/java/org/jna/NativeLibraryLoader.java:23-25 | a new loader keeps its path and starts with no function names |
| NativeLoader.NativeLibraryLoader.LoadFunctionList | JNAexec/src/main/java/org/jna/NativeLibraryLoader.java:30-87 | the list grows by exactly the names the parser extracts from the tool's lines, in line order, and the tool's exception is passed on; with no tool nothing changes |
| NativeLoader.Open | exec/src/main/java/org/jna/NativeLibraryLoader.java:22-27 | assuming NativeLibrary.getInstance succeeds, the constructor succeeds exactly when listing succeeds; then a fresh loader holds exactly the listed names, otherwise the error is the listing's |
| ExportParser.IltName | JNAexec/src/main/java/org/jna/NativeLibraryLoader.java:51 | a capture of the first pattern is a non-empty run of word characters |
| ExportParser.IltNameMeaning | JNAexec/src/main/java/org/jna/NativeLibraryLoader.java:55-62 | the parser returns `name` exactly when the line matches `.*\((\w+)\).*` with the greedy prefix leaving `name` as the last parenthesised word (both directions) |
| ExportParser.IltRowRoundTrip | JNAexec/src/main/java/org/jna/NativeLibraryLoader.java:50-64 | a debug-build row `… @ILT+n(name)` followed by text without '(' yields exactly `name` |
| ExportParser.NoParenNoIlt | JNAexec/src/main/java/org/jna/NativeLibraryLoader.java:51 | a line without '(' never matches the first pattern |
| ExportParser.OrdinalSplit | JNAexec/src/main/java/org/jna/NativeLibraryLoader.java:53 | a split row is well formed column by column (ordinal, hint, RVA, name) and spells out the line |
| ExportParser.OrdinalNameSound | JNAexec/src/main/java/org/jna/NativeLibraryLoader.java:66-70 | a name from the second pattern is the name column of some well-formed row that is exactly the line |
| ExportParser.OrdinalRowRoundTrip | JNAexec/src/main/java/org/jna/NativeLibraryLoader.java:66-70 | every well-formed ordinal/hint/RVA/name row yields its own name |
| ExportParser.OrdinalRowLine | JNAexec/src/main/java/org/jna/NativeLibraryLoader.java:66-70 | a well-formed ordinal row contributes its name, except the refused names "R" and "C" |
| ExportParser.LastToken | JNAexec/src/main/java/org/jna/NativeLibraryLoader.java:74-77 | the last whitespace-separated token has no whitespace, and is non-empty whenever the trimmed line is |
| ExportParser.NmName | JNAexec/src/main/java/org/jna/NativeLibraryLoader.java:71-79 | an nm line gives a name exactly when it contains " T " and its last token does not start with '_'; the name is that token |
| ExportParser.NmRowLastToken | JNAexec/src/main/java/org/jna/NativeLibraryLoader.java:74-77 | in `addr T name` the last token is `name` |
| ExportParser.NmNameIs | JNAexec/src/main/java/org/jna/NativeLibraryLoader.java:71-79 | for a line with " T " the result is decided by the first character of its last token |
| ExportParser.NmRowRoundTrip | JNAexec/src/main/java/org/jna/NativeLibraryLoader.java:71-79 | an nm row `addr T name` yields `name` unless it starts with '_' (runtime symbols are skipped) |
| ExportParser.NmRowNotOrdinal | JNAexec/src/main/java/org/jna/NativeLibraryLoader.java:53 | an nm row never matches the ordinal pattern, so the nm rule is the one that reads it |
| ExportParser.LineNameRules | JNAexec/src/main/java/org/jna/NativeLibraryLoader.java:61-80 | the three rules are tried in order (first pattern, then second pattern, then the nm rule) and the first two refuse "R" and "C" |
| ExportParser.LineNameFallsThrough | JNAexec/src/main/java/org/jna/NativeLibraryLoader.java:71 | a line neither pattern matches is decided by the nm rule alone |
| ExportParser.LineNameNonEmpty | JNAexec/src/main/java/org/jna/NativeLibraryLoader.java:61-80 | no rule ever contributes an empty name |
| ExportParser.ParseExportsLength | JNAexec/src/main/java/org/jna/NativeLibraryLoader.java:47-81 | at most one name per line |
| ExportParser.ParseExportsAppend | JNAexec/src/main/java/org/jna/NativeLibraryLoader.java:47-81 | the names of two consecutive chunks of output are the names of each chunk, concatenated |
| ExportParser.ParseExportsStep | JNAexec/src/main/java/org/jna/NativeLibraryLoader.java:47-81 | reading one more line appends that line's name, if any |
| ExportParser.ParseExportsMembers | JNAexec/src/main/java/org/jna/NativeLibraryLoader.java:47-81 | a name is listed exactly when some output line yields it |
| ExportParser.ParseExportsNone | JNAexec/src/main/java/org/jna/NativeLibraryLoader.java:47-81 | output with no recognised line gives an empty list |
| ExportParser.ParseExportsNonEmpty | JNAexec/src/main/java/org/jna/NativeLibraryLoader.java:47-81 | every listed name is non-empty |
| ExportParser.SampleNmRow | JNAexec/src/main/java/org/jna/NativeLibraryLoader.java:71-79 | the nm row `0000000000001139 T Div` yields "Div" |
| ExportParser.SampleNmRuntimeRow | JNAexec/src/main/java/org/jna/NativeLibraryLoader.java:71-79 | the nm row for `__cxa_finalize` yields nothing |
| ExportParser.SampleIltRow | JNAexec/src/main/java/org/jna/NativeLibraryLoader.java:50 | a dumpbin debug row `… mathDiv = @ILT+290(mathDiv)` yields "mathDiv" |
| ExportParser.SampleOrdinalRow | JNAexec/src/main/java/org/jna/NativeLibraryLoader.java:52 | a dumpbin release row `3 2 00028C30 pricing` yields "pricing" |
| Text.Trim | JNAexec/src/main/java/org/jna/LibraryRunner.java:49 | String.trim: the result is a slice of the input with no blank at either end |
| Text.TrimKeepsPrintable | JNAexec/src/main/java/org/jna/LibraryRunner.java:49 | a line with a printable character never trims to the empty string |
| CodeTables.CDiv | CommonUtils/src/common.cpp:5-10 | C integer division truncates toward zero, including for negative dividends |
| CodeTables.CMod | CommonUtils/src/common.cpp:5-10 | C remainder: it takes the dividend's sign and completes the division identity |
| CodeTables.CDivHundredTwice | CommonUtils/src/common.cpp:5-10 | dropping two digits twice is dropping four, under truncation too |
| CodeTables.MakeDateFromInt | CommonUtils/src/common.cpp:5-10 | the three parts recombine to the YYYYMMDD integer; non-negative codes give two-digit month and day; negative codes give non-positive parts |
| CodeTables.DateRoundTrip | CommonUtils/src/common.cpp:5-10 | every date with a non-negative year and two-digit month and day is recovered from its YYYYMMDD integer |
| CodeTables.NegativeDateParts | CommonUtils/src/common.cpp:5-10 | a negative code is split, not refused: -20240115 gives (-2024, -1, -15) |
| CodeTables.MakeDatesVectorFromIntArray | CommonUtils/src/common.cpp:218-225 | one date per code, in order, from the first arrSize codes |
| CodeTables.MakeRatesVectorFromDoubleArray | CommonUtils/src/common.cpp:227-234 | exactly the first arrSize rates, in order |
| CodeTables.MakeCalendarFromInt | CommonUtils/src/common.cpp:13-59 | an unlisted code, and only an unlisted one, gives NullCalendar; codes 16 and 18 both give HongKong |
| CodeTables.CalendarCodeTable | CommonUtils/src/common.cpp:13-59 | every real calendar has a code that maps back to it, and the table is one-to-one apart from HongKong's second code 18 |
| CodeTables.MakeDayCounterFromInt | CommonUtils/src/common.cpp:63-86 | any code outside 0..18 falls back to Actual/365 (Fixed) |
| CodeTables.DayCounterCodes | CommonUtils/src/common.cpp:63-86 | codes 0..18 and the day counters are in one-to-one correspondence (round trip both ways) |
| CodeTables.MakeCompoundingFromInt | CommonUtils/src/common.cpp:89-98 | any code outside 0..4 falls back to Continuous |
| CodeTables.CompoundingCodes | CommonUtils/src/common.cpp:89-98 | codes 0..4 and the compounding kinds correspond one to one |
| CodeTables.MakeFrequencyFromInt | CommonUtils/src/common.cpp:101-117 | any code outside 0..11 falls back to Annual |
| CodeTables.FrequencyCodes | CommonUtils/src/common.cpp:101-117 | codes 0..11 and the frequencies correspond one to one |
| CodeTables.MakeBdcFromInt | CommonUtils/src/common.cpp:120-131 | only 0 gives ModifiedFollowing; an unknown code gives Following |
| CodeTables.BdcCodes | CommonUtils/src/common.cpp:120-131 | codes 0..6 and the business-day conventions correspond one to one |
| CodeTables.MakeScheduleGenRuleFromInt | CommonUtils/src/common.cpp:321-334 | any code outside 0..8 falls back to Backward |
| CodeTables.ScheduleGenRuleCodes | CommonUtils/src/common.cpp:321-334 | codes 0..8 and the generation rules correspond one to one |
| CodeTables.MakeVolatilityTypeFromInt | CommonUtils/src/common.cpp:147-153 | ShiftedLognormal exactly for code 0, Normal otherwise |
| CodeTables.MakeSwapTypeFromInt | CommonUtils/src/common.cpp:165-171 | Receiver exactly for code 1 |
| CodeTables.MakeOptionTypeFromInt | CommonUtils/src/common.cpp:173-179 | Put exactly for code 1 |
| CodeTables.MakeAverageTypeFromInt | CommonUtils/src/common.cpp:189-195 | Geometric exactly for code 1 |
| CodeTables.MakeRateAveragingFromInt | CommonUtils/src/common.cpp:156-162 | a value exactly for codes 0 and 1 (Compound for 1); any other code returns nothing |
| CodeTables.MakeBarrierTypeFromInt | CommonUtils/src/common.cpp:284-292 | any code outside 0..3 falls back to UpIn |
| CodeTables.BarrierTypeCodes | CommonUtils/src/common.cpp:284-292 | codes 0..3 and the barrier types correspond one to one |
| CodeTables.MakeOptionOwnerFromInt | CommonUtils/src/common.cpp:199-205 | the result is 0 or 1, and 1 exactly for code 1 |
| CodeTables.BinaryTablesAgree | CommonUtils/src/common.cpp:142-205 | makeBoolFromInt, the swap, option, average and owner tables all single out code 1; the currency table ignores its code |
| CodeTables.MakePeriodFromIntParts | CommonUtils/src/common.cpp:207-214 | letters 0, 1 and 2 select days, months and years with the given length; any other letter gives 0 days |
| CodeTables.PeriodPartsRoundTrip | CommonUtils/src/common.cpp:207-214 | every period is rebuilt from its own length and unit code |
| CodeTables.RoundedMonths | CommonUtils/src/common.cpp:296-311 | `round(days / 30.44)` in exact integers: at least one month, within half a month of days / 30.44 |
| CodeTables.RoundedMonthsNearest | CommonUtils/src/common.cpp:296-311 | the month count within half a month is unique (no tie ever occurs) |
| CodeTables.MakePeriodFromDays | CommonUtils/src/common.cpp:296-311 | under 30 days the count stays in days; otherwise the nearest month count, written in years exactly when it is a multiple of 12 |
| CodeTables.PeriodFromDaysSamples | CommonUtils/src/common.cpp:296-311 | 365 days is 1 year, 91 days is 3 months, 7 days stays 7 days |
| CodeTables.MakePeriodArrayFromTenorDaysArray | CommonUtils/src/common.cpp:313-319 | one period per tenor day count, in order; a negative count gives an empty array |
| CodeTables.MakeStrikeTypePayoff | CommonUtils/src/common.cpp:253-282 | strike types 0..6 give their payoff with the given strike; a missing second strike or cash payoff, or an unknown type, gives the QL_FAIL message instead |
| CodeTables.SuperShareCheckOrder | CommonUtils/src/common.cpp:276-278 | with both extras missing, SuperShare reports the missing second strike first |
| ResultBuffer.InitResult | CommonUtils/src/common.cpp:336-339 | the first `size` slots become 0 and every other slot is unchanged |
| ResultBuffer.OverwriteCleared | CommonUtils/src/common.cpp:336-339 | clearing a prefix and then writing over at least that prefix is the same as writing alone |
| ResultBuffer.Layout | CommonUtils/src/common.cpp:353-366 | the buffer layout: the count n, then n tenors, then n values, aligned index by index |
| ResultBuffer.LayoutFromSlots | Bond/src/bond.cpp:288-293 | writing the count, the tenors and the values slot by slot yields exactly the layout |
| ResultBuffer.WriteLayout | Bond/src/bond.cpp:284-293 | the buffer starts with the layout of the given tenors and values; every later slot is unchanged |
| ResultBuffer.FilterNonZero | CommonUtils/src/common.cpp:342-351 | the kept tenors and sensitivities are exactly those whose sensitivity is non-zero, in order |
| ResultBuffer.KeptIndices | CommonUtils/src/common.cpp:346-351 | the kept positions are increasing, all below n, carry non-zero sensitivities, and include every non-zero position |
| ResultBuffer.FilteredStep | CommonUtils/src/common.cpp:346-351 | one more position appends its tenor and sensitivity exactly when the sensitivity is non-zero |
| ResultBuffer.FilteredSensitivitiesExact | CommonUtils/src/common.cpp:346-351 | no zero is kept and every non-zero sensitivity is kept |
| ResultBuffer.KeptCount | CommonUtils/src/common.cpp:353 | the count written in slot 0 is n minus the number of zero sensitivities |
| ResultBuffer.ProcessResultArray | CommonUtils/src/common.cpp:341-367 | the buffer starts with the layout of the filtered tenors and sensitivities and is unchanged after it |
| ResultBuffer.JavaDoubleToInt | JNAexec/src/main/java/org/jna/LibraryRunner.java:266 | Java's `(int)`: always within 32-bit range, and the floor for a non-negative double in range |
| ResultBuffer.JavaDoubleToIntExact | JNAexec/src/main/java/org/jna/LibraryRunner.java:353 | a count written as a double is read back exactly |
| ResultBuffer.Wrap32 | JNAexec/src/main/java/org/jna/LibraryRunner.java:266-273 | 32-bit arithmetic wraps into range and leaves in-range values alone |
| ResultBuffer.DecodeLayout | JNAexec/src/main/java/org/jna/LibraryRunner.java:353-368 | the runner reads the layout back as exactly the tenors and values written, whatever follows in the buffer |
| ResultBuffer.ProcessedBufferRoundTrip | JNAexec/src/main/java/org/jna/LibraryRunner.java:266-273 | a buffer produced by processResultArray decodes to the filtered tenors and sensitivities |
| ResultBuffer.DecodeWrapAround | JNAexec/src/main/java/org/jna/LibraryRunner.java:266-273 | a huge negative count saturates the cast and the index arithmetic wraps, so the read fails out of bounds instead of looping |
| ResultBuffer.DecodeResultBuffer | exec/src/main/java/org/jna/LibraryRunner.java:248-256 | reading a result array is the decoding of its contents |
| CashFlows.Record | Leg/src/leg.cpp:670-688 | a coupon's record is accrual start and end, nominal, rate, pay date, amount and discount factor; a redemption's record has -1 for accrual start, accrual end and rate, and its amount as nominal |
| CashFlows.RecordRoundTrip | Leg/src/leg.cpp:670-688 | the seven fields determine the accepted flow: reading the record back gives the flow |
| CashFlows.AcceptedPrefix | Leg/src/leg.cpp:285-300 | the flows written before the loop meets a flow of the wrong kind (where it fails) |
| CashFlows.AcceptedReportable | Leg/src/leg.cpp:285-300 | every flow before the failing one has a record |
| CashFlows.RecordsSlice | Leg/src/leg.cpp:285-300 | flow k's seven-field record is the slice starting at 7k of the concatenated records |
| CashFlows.WriteCashFlows | Leg/src/leg.cpp:285-300 | slot 0 holds the number of flows, followed by the records of the accepted prefix; later slots are unchanged; success exactly when every flow was accepted |
| CashFlows.Report | Leg/src/leg.cpp:285-300 | the report's length follows the accepted prefix, and its head is the total number of flows |
| CashFlows.CashFlowRoundTrip | Leg/src/leg.cpp:654-696 | a fully written table decodes back to the flow list |
| CurveScenarios.TenorLabelsMatchPeriods | Leg/src/leg.cpp:215 | the GIRR labels 0.25..30 and the CSR labels are the year lengths of the curve periods 3M..30Y |
| CurveScenarios.BuildCurveNodes | Leg/src/leg.cpp:75-82 | pillars at the evaluation date and then the tenors; nodes are the first rate repeated as the anchor, then the rates |
| CurveScenarios.BuildSpreadCurveNodes | Bond/src/bond.cpp:122-128 | the same curve with every tenor node moved by the spread and the anchor left alone |
| CurveScenarios.SpreadCurveFromPlainCurve | Bond/src/bond.cpp:122-128 | the spread curve is the plain curve with the spread added to its tenor nodes, and a non-zero spread breaks the anchor's repetition of the first node |
| CurveScenarios.ParallelBumped | Leg/src/leg.cpp:130-135 | every node moved by the same shift |
| CurveScenarios.ShiftInverse | Leg/src/leg.cpp:130-135 | the down shift undoes the up shift |
| CurveScenarios.ParallelPairSymmetric | Leg/src/leg.cpp:128-160 | the ±size pair is centred on the base nodes and 2·size apart |
| CurveScenarios.BumpAt | Leg/src/leg.cpp:196-199 | only the chosen node moves, by exactly the bump |
| CurveScenarios.BumpAtInverse | Leg/src/leg.cpp:196-199 | bumping back restores the nodes |
| CurveScenarios.KeyRateDeltas | Leg/src/leg.cpp:196-221 | one delta per tenor node; the anchor node is never bumped alone |
| CurveScenarios.KeyRateLoop | Leg/src/leg.cpp:196-221 | the loop computes the key-rate deltas |
| CurveScenarios.GearingScenarios | Leg/src/leg.cpp:128-160 | the two NPVs are those of the up-shifted and the down-shifted curve |
| CurveScenarios.Basel2Record | Leg/src/leg.cpp:162-183 | the five-field record: delta times 1bp is the up move, duration and convexity are placed as given, and PV01 is the up move |
| CurveScenarios.PV01IsUpMove | Leg/src/leg.cpp:162-183 | PV01 is the NPV change of the +1bp scenario |
| CurveScenarios.QuadraticProfile | Leg/src/leg.cpp:162-183 | on a quadratic NPV profile, delta is the slope at the up half-step and gamma is twice the curvature |
| CurveScenarios.EffectiveMeasuresOfQuadratic | Leg/src/leg.cpp:1037-1038 | effective duration and convexity of a quadratic profile are -b/a and 2c/a |
| CurveScenarios.DotBumpAt | Leg/src/leg.cpp:196-199 | a linear pricer moves by its weight times the bump of one node |
| CurveScenarios.DotShift | Leg/src/leg.cpp:130-135 | a linear pricer moves by the shift times the sum of its weights |
| CurveScenarios.KeyRateDeltasOfLinearPricer | Leg/src/leg.cpp:196-221 | against a linear pricer each key-rate delta is its node's weight, and they sum to the parallel delta less the anchor's weight |
| CurveScenarios.ParallelMeasuresOfLinearPricer | Leg/src/leg.cpp:128-160 | against a linear pricer the parallel delta is the total weight, gamma is 0, and the curvature pair is antisymmetric |
| CurveScenarios.CsrScenario | Bond/src/bond.cpp:303-319 | a CSR scenario bumps one spread node (the first together with the anchor) |
| CurveScenarios.CsrBumpedSpreads | Bond/src/bond.cpp:303-319 | the loop builds that scenario |
| CurveScenarios.CsrDeltas | Bond/src/bond.cpp:297-340 | one CSR delta per spread tenor |
| CurveScenarios.CsrLoop | Bond/src/bond.cpp:297-340 | the loop computes the CSR deltas |
| CurveScenarios.CsrDeltasOfLinearPricer | Bond/src/bond.cpp:297-340 | against a linear pricer the first CSR delta carries the anchor's weight too, and the deltas sum to the parallel spread delta |
| PricingTerms.TenorPeriods | Leg/src/leg.cpp:71-91 | one period per tenor |
| PricingTerms.BuildLegCurve | Leg/src/leg.cpp:71-91 | the curve has n + 1 pillars and nodes: the anchor, then one per tenor |
| PricingTerms.BuildIndexCurveAsWritten | Leg/src/leg.cpp:819-830 | the index curve as written: it is built over the GIRR tenor count, not the index tenor count |
| PricingTerms.IndexCurveCorrected | Leg/src/leg.cpp:819-830 | built over the index tenor count, the index curve has one pillar per index tenor, node i + 1 carrying rate i |
| PricingTerms.ExplicitScheduleDates | Leg/src/leg.cpp:444-452 | the explicit schedule is the first start date, then every end date, in order |
| PricingTerms.ExplicitSchedulePeriods | Leg/src/leg.cpp:444-452 | n coupons give n + 1 dates, starting at the first start date, with date i + 1 the end of coupon i |
| PricingTerms.RedemptionRatio | Leg/src/leg.cpp:476-481 | the redemption is 100 exactly when notional exchange is requested, and 0 otherwise |
| PricingTerms.LegSchedule | Leg/src/leg.cpp:438-469 | with coupons given, the explicit dates; otherwise a generated schedule from issue to maturity under the coded frequency, calendar, convention and rule |
| LegPricing.LegCurve | Leg/src/leg.cpp:71-91 | n + 1 nodes: the first rate as anchor, then rate i at node i + 1 |
| LegPricing.MakeLegCurve | Leg/src/leg.cpp:71-91 | the imperative set-up builds exactly that curve |
| LegPricing.FloatingLegBond | Leg/src/leg.cpp:931-960 | a floating-rate bond on the given index, with the last and next reset rates as fixings on the first two start dates |
| LegPricing.Relinked | Leg/src/leg.cpp:1061-1068 | relinking changes the forecasting curve to the given one |
| LegPricing.UnmovedNodesGiveNpv | Leg/src/leg.cpp:1016-1045 | each way of repricing on unmoved nodes gives back the base NPV |
| LegPricing.FixedBasel2 | Leg/src/leg.cpp:162-183 | the five-field Basel 2 record |
| LegPricing.FloatingBasel2 | Leg/src/leg.cpp:1016-1045 | the five-field Basel 2 record with effective measures |
| LegPricing.GirrDeltaLayout | Leg/src/leg.cpp:196-227 | the compacted GIRR buffer is at most 21 slots |
| LegPricing.WriteFixedBasel2 | Leg/src/leg.cpp:162-183 | writes the fixed-leg Basel 2 record over the buffer's head and nothing else |
| LegPricing.WriteFloatingBasel2 | Leg/src/leg.cpp:1016-1045 | writes the floating-leg Basel 2 record and nothing else |
| LegPricing.WriteGirrDelta | Leg/src/leg.cpp:196-227 | writes the compacted key-rate deltas and nothing else |
| LegPricing.WriteCurvature | Leg/src/leg.cpp:235-266 | writes the curvature pair and nothing else |
| LegPricing.WriteCashFlowTable | Leg/src/leg.cpp:273-303 | writes the cash-flow report; returns the NPV when every flow was accepted, -1 otherwise |
| LegPricing.PricingZCL | Leg/src/leg.cpp:10-327 | an unknown calType returns -1 and writes nothing; otherwise the buffers are cleared and then hold exactly that calType's records |
| LegPricing.PricingFDL | Leg/src/leg.cpp:331-715 | the same for the fixed-rate leg, whose calType check also lets 9 through |
| LegPricing.PricingFLL | Leg/src/leg.cpp:718-1310 | the same for the floating-rate leg, including the index-curve outputs; the index curve is built as written, with pillars from the index tenor days and numberOfGirrTenors nodes after the anchor, and a discount count above the index count (a read past the index periods) is excluded |
| LegPricing.IndexCurveLosesTenors | Leg/src/leg.cpp:819-830 | with fewer discount tenors than index tenors, the index curve PricingFLL builds is a proper prefix of the curve over all index tenors: same anchor, pillars and rates up to the discount count, fewer nodes, and a different longest rate whenever those rates differ |
| LegPricing.WriteFloatingGirr | Leg/src/leg.cpp:1090-1238 | discount-curve deltas move the index curve too unless the curves are separate; index-curve deltas and curvature only for separate curves |
| BondPricing.BondSchedule | Bond/src/bond.cpp:183-214 | generated exactly when no coupons are given, from the first start date to maturity |
| BondPricing.MakeBondSchedule | Bond/src/bond.cpp:183-214 | the set-up builds that schedule |
| BondPricing.GirrCurve | Bond/src/bond.cpp:122-128 | tenor node i carries rate i plus the spread over yield; the anchor is the first rate |
| BondPricing.DiscountingCurve | Bond/src/bond.cpp:152-173 | one spread pillar and node per CSR tenor, plus the anchor |
| BondPricing.MakeDiscountingCurve | Bond/src/bond.cpp:152-173 | the two node loops build that curve |
| BondPricing.Pricing | Bond/src/bond.cpp:11-363 | calTypes other than 1 and 3 return -1 and leave the sensitivity buffers alone; 1 and 3 return the NPV, and 3 also writes the full GIRR and CSR layouts |
| FxForward.FxCurve | FxForward/src/fxForward.cpp:81-87 | the curve starts at the evaluation date with the first rate as anchor, then one node per tenor |
| FxForward.MakeFxCurve | FxForward/src/fxForward.cpp:112-118 | the loop builds that curve |
| FxForward.ForwardDiscount | FxForward/src/fxForward.cpp:148-158 | the forward factor equals the plain discount factor at the payment date, because settlement is the curve's own date |
| FxForward.LegNpv | FxForward/src/fxForward.cpp:160-164 | a leg's NPV is its notional discounted to its payment date (spot 1.0) |
| FxForward.UnmovedNodesGiveLegNpv | FxForward/src/fxForward.cpp:160-164 | repricing on unmoved nodes gives back the leg's NPV |
| FxForward.SideBasel2 | FxForward/src/fxForward.cpp:170-289 | the five-field Basel 2 record of a leg |
| FxForward.WriteSideBasel2 | FxForward/src/fxForward.cpp:170-289 | writes that record and nothing else |
| FxForward.SideTenors | FxForward/src/fxForward.cpp:335-367 | a 0.0 tenor in front exactly when the leg is not in USD, then the ten GIRR tenors |
| FxForward.SideGirr | FxForward/src/fxForward.cpp:292-372 | the basis delta in front exactly when the leg has basis risk, then one key-rate delta per node |
| FxForward.SideGirrLayout | FxForward/src/fxForward.cpp:292-372 | the compacted GIRR buffer of a leg is at most 23 slots |
| FxForward.WriteSideGirrDelta | FxForward/src/fxForward.cpp:292-372 | writes that layout and nothing else |
| FxForward.WriteFxGirr | FxForward/src/fxForward.cpp:292-509 | each leg's GIRR deltas and curvature pair; the sell leg's basis delta is taken at a date given as a parameter, which the code as written sets to the buy leg's payment date |
| FxForward.PricingFFW | FxForward/src/fxForward.cpp:10-515 | an unknown calType writes nothing (the function returns nothing); otherwise the buy and sell leg NPVs and exactly that calType's blocks, with the sell leg's basis delta discounted to the buy leg's payment date as written |
| FxForward.SellGirrLayoutAsWritten | FxForward/src/fxForward.cpp:408-445 | the sell leg's GIRR output as written, with its basis scenario at the buy leg's payment date |
| FxForward.SellBasisUsesBuyPayDate | FxForward/src/fxForward.cpp:429 | a concrete trade where the written sell basis delta differs from the sell leg's own parallel delta |
| FxForward.BasisDeltaOfLinearLeg | FxForward/src/fxForward.cpp:335-367 | the corrected basis delta is the leg's parallel delta: the anchor's weight plus the sum of the key-rate deltas |
| OtStock.StockNpv | OtStock/src/OtStock.cpp:59-67 | scenario 2 scales the amount by price / base price; any scenario other than 1 and 2 keeps the amount |
| OtStock.BetaOneIsPriceRatio | OtStock/src/OtStock.cpp:59-67 | with beta 1 the beta scenario equals the price-ratio scenario |
| OtStock.BasePriceKeepsAmount | OtStock/src/OtStock.cpp:59-67 | at the base price no scenario moves the position |
| OtStock.StockBasel2 | OtStock/src/OtStock.cpp:76-83 | the NPV as delta, and zero in the other five fields |
| OtStock.Pricing | OtStock/src/OtStock.cpp:30-99 | returns the NPV for every calType; writes the Basel 2 record for 2, the NPV for 3, and only clears the cash-flow buffer |
| LegacyFxForward.InitDayCounters | legacy_FFW_Backup/FxForward_lsj/src/fxForward.cpp:169-180 | the list is replaced by the six slots |
| LegacyFxForward.GetDayCounterByCode | legacy_FFW_Backup/FxForward_lsj/src/fxForward.cpp:443-460 | codes 0..4 select their slot; any other code selects slot 5 |
| LegacyFxForward.DayCounterLookup | legacy_FFW_Backup/FxForward_lsj/src/fxForward.cpp:443-460 | on the initialised slots the five codes give five distinct day counters, and only other codes give the empty one |
| LegacyFxForward.ValuationCashFlowOf | legacy_FFW_Backup/FxForward_lsj/src/fxForward.cpp:192-210 | the flow's year fraction is measured with the day counter its code selects |
| LegacyFxForward.SideFactors | legacy_FFW_Backup/FxForward_lsj/src/fxForward.cpp:298-316 | 11 factors with a basis vertex for a non-USD side, 10 for USD; all on that side, in vertex order, sensitivity 0 |
| LegacyFxForward.VertexFactorsPrefix | legacy_FFW_Backup/FxForward_lsj/src/fxForward.cpp:298-316 | the vertex walk after k vertices |
| LegacyFxForward.ProcessCurve | legacy_FFW_Backup/FxForward_lsj/src/fxForward.cpp:298-316 | the lambda appends exactly the side's factors |
| LegacyFxForward.SetGirrDeltaCurve | legacy_FFW_Backup/FxForward_lsj/src/fxForward.cpp:291-319 | the buy factors, then the sell factors |
| LegacyFxForward.GirrsOnSide | legacy_FFW_Backup/FxForward_lsj/src/fxForward.cpp:137-148 | the filtered factors all belong to the side |
| LegacyFxForward.SplitRecoversSides | legacy_FFW_Backup/FxForward_lsj/src/fxForward.cpp:137-148 | splitting the factor list gives back each side's own factors, in order |
| LegacyFxForward.SplitBySide | legacy_FFW_Backup/FxForward_lsj/src/fxForward.cpp:137-148 | the split loop produces each side's tenors and sensitivities, paired |
| LegacyFxForward.SideCurves | legacy_FFW_Backup/FxForward_lsj/src/fxForward.cpp:213-239 | one point per given tenor (none for a negative count), at the year fraction to that tenor |
| LegacyFxForward.InputCurveData | legacy_FFW_Backup/FxForward_lsj/src/fxForward.cpp:213-239 | the list is replaced by the buy points, then the sell points |
| LegacyFxForward.CurveDataSides | legacy_FFW_Backup/FxForward_lsj/src/fxForward.cpp:213-239 | each side of the curve list is exactly that side's points |
| LegacyFxForward.CurveFiltersAgree | legacy_FFW_Backup/FxForward_lsj/src/fxForward.cpp:463-480 | getCurveYearFrac and getCurveZeroRate have equal length, and entry i of each belongs to the same point |
| LegacyFxForward.DcRated | legacy_FFW_Backup/FxForward_lsj/src/fxForward.cpp:276-288 | a scenario keeps the number of points |
| LegacyFxForward.SetDcRate | legacy_FFW_Backup/FxForward_lsj/src/fxForward.cpp:276-288 | bumped points gain one basis point; all other points are unchanged |
| LegacyFxForward.DcRatedOtherSide | legacy_FFW_Backup/FxForward_lsj/src/fxForward.cpp:276-288 | a scenario never touches the other side |
| LegacyFxForward.BasisScenarioShiftsSide | legacy_FFW_Backup/FxForward_lsj/src/fxForward.cpp:276-288 | the basis factor shifts every point of its side by 1bp and keeps their year fractions |
| LegacyFxForward.CalDomesticNetPV | legacy_FFW_Backup/FxForward_lsj/src/fxForward.cpp:417-426 | a domestic flag other than 0 or 1 gives 0 |
| LegacyFxForward.NetPvMirror | legacy_FFW_Backup/FxForward_lsj/src/fxForward.cpp:417-426 | swapping the legs and the domestic flag negates the net PV |
| LegacyFxForward.FxSensitivityOfForeignLeg | legacy_FFW_Backup/FxForward_lsj/src/fxForward.cpp:429-433 | the FX sensitivity is the foreign leg's domestic value times the bump, signed by its side |
| LegacyFxForward.GirrSensitivityOfSlope | legacy_FFW_Backup/FxForward_lsj/src/fxForward.cpp:436-440 | the GIRR sensitivity recovers the NPV slope per unit rate |
| LegacyFxForward.Sensitize | legacy_FFW_Backup/FxForward_lsj/src/fxForward.cpp:261-273 | filling in a sensitivity keeps the factor's side and vertex |
| LegacyFxForward.Sensitized | legacy_FFW_Backup/FxForward_lsj/src/fxForward.cpp:261-273 | one sensitised factor per factor |
| LegacyFxForward.SensitizedKeepsSides | legacy_FFW_Backup/FxForward_lsj/src/fxForward.cpp:261-273 | splitting before or after filling in the sensitivities gives the same lists |
| LegacyFxForward.ScenarioMovesOwnLegOnly | legacy_FFW_Backup/FxForward_lsj/src/fxForward.cpp:261-273 | a factor's scenario leaves the other leg's PV as it was |
| LegacyFxForward.GirrLoop | legacy_FFW_Backup/FxForward_lsj/src/fxForward.cpp:120-128 | each factor is revalued on freshly rebuilt curves against the reported net PV |
| LegacyFxForward.SideLayout | legacy_FFW_Backup/FxForward_lsj/src/fxForward.cpp:150-153 | a side's compacted buffer is at most 2n + 1 slots |
| LegacyFxForward.WriteGirrDeltas | legacy_FFW_Backup/FxForward_lsj/src/fxForward.cpp:120-153 | each side's buffer holds the compacted layout of that side's sensitised factors |
| LegacyFxForward.NetPvRecord | legacy_FFW_Backup/FxForward_lsj/src/fxForward.cpp:98-109 | the net PV rounded to 10 decimals, then, for calType 2 and 3, the rounded FX sensitivity |
| LegacyFxForward.LegacyGirrs | legacy_FFW_Backup/FxForward_lsj/src/fxForward.cpp:120-128 | at most 22 factors |
| LegacyFxForward.PriceValid | legacy_FFW_Backup/FxForward_lsj/src/fxForward.cpp:79-153 | what a valid calType writes, built from the initialised day counters |
| LegacyFxForward.Pricing | legacy_FFW_Backup/FxForward_lsj/src/fxForward.cpp:10-161 | an unknown calType leaves the buffers alone; otherwise the net PV record, and for calType 3 the GIRR deltas |
| LegacyFxForward.SideOutputsUseOwnFactors | legacy_FFW_Backup/FxForward_lsj/src/fxForward.cpp:137-153 | each side's output is built from that side's own factors, in vertex order, each with its own scenario's sensitivity |
| MyMath.MathSum | MakeDll/MyMath.c:6-8 | subtracting either operand from the sum gives back the other |
| MyMath.MathSub | MakeDll/MyMath.c:10-12 | adding b back gives a |
| MyMath.MathMul | MakeDll/MyMath.c:14-16 | the product is zero exactly when a factor is zero |
| MyMath.MathDiv | MakeDll/MyMath.c:18-26 | for a non-zero divisor the quotient times the divisor is the dividend; a zero divisor gives 0 |
| MyMath.ArithmeticInverses | MakeDll/MyMath.c:6-26 | subtraction undoes addition and division undoes multiplication; dividing by 0 gives 0 |
| MyMath.TimesTen | MakeDll/MyMath.c:94-96 | the updated array keeps its length |
| MyMath.TimesTenInverse | MakeDll/MyMath.c:94-96 | dividing the updated prefix by ten restores the array |
| MyMath.UpdateDoubleArr | MakeDll/MyMath.c:85-102 | the first aSize elements become ten times larger; the rest are unchanged |
| MyMath.DoubleCell.constructor | MakeDll/MyMath.c:29 | the cell holds the double that printType receives by pointer |
| MyMath.PrintType | MakeDll/MyMath.c:29-71 | the pointed-to double is incremented by one |
| MyMath.PrintStruct | MakeDll/MyMath.c:73-82 | one line for the position name, a header, one line per bucket, then the BSDT, tenor and value lines |
| MyStructMapping.StringBlock.constructor | exec/src/main/java/org/jna/MyStruct.java:31 | a new block of the given size, still empty |
| MyStructMapping.StringBlock.SetString | exec/src/main/java/org/jna/MyStruct.java:32 | the block holds the string |
| MyStructMapping.PointerBlock.constructor | exec/src/main/java/org/jna/MyStruct.java:36 | pointerSize × count bytes, with no pointer written |
| MyStructMapping.PointerBlock.SetPointer | exec/src/main/java/org/jna/MyStruct.java:38 | the pointer is stored in the slot of its offset and no other slot changes |
| MyStructMapping.OffsetSlot | exec/src/main/java/org/jna/MyStruct.java:38 | offset i × pointerSize is aligned and addresses slot i |
| MyStructMapping.AllocateStrings | exec/src/main/java/org/jna/MyStruct.java:29-33 | one fresh block per name, of length + 1 bytes, holding that name |
| MyStructMapping.FillPointers | exec/src/main/java/org/jna/MyStruct.java:36-39 | a fresh pointer block whose slot i addresses block i |
| MyStructMapping.FieldNameInjective | exec/src/main/java/org/jna/MyStruct.java:46-48 | distinct fields have distinct names |
| MyStructMapping.GetFieldOrder | exec/src/main/java/org/jna/MyStruct.java:46-48 | the names of the native members, in the native order |
| MyStructMapping.FieldOrderIsPermutation | exec/src/main/java/org/jna/MyStruct.java:14-48 | the layout order names every declared field once, but is not the declaration order |
| MyStructMapping.MyStruct.FieldImages | exec/src/main/java/org/jna/MyStruct.java:41 | each field's value at its layout position |
| MyStructMapping.MyStruct.Write | exec/src/main/java/org/jna/MyStruct.java:41 | native memory receives the field images; the fields are unchanged |
| MyStructMapping.MyStruct.constructor | exec/src/main/java/org/jna/MyStruct.java:21-42 | scalars copied; bucket i points to a fresh block holding name i; then written to native memory |
| MyStructMapping.MyStruct.NativeView | exec/src/main/java/org/jna/MyStruct.java:29-39 | the native side sees bucketSize names through the pointers |
| MyStructMapping.CreateError | exec/src/main/java/org/jna/MyStruct.java:21-42 | no error exactly when 0 < bucketSize ≤ number of names; the zero-size allocation error exactly for size 0 |
| MyStructMapping.Create | exec/src/main/java/org/jna/MyStruct.java:21-42 | a negative size fails at the array, a size past the names fails at the first missing name, size 0 fails at the allocation; otherwise the struct holds those names |
| LibraryRunner.LibraryFileName | JNAexec/src/main/java/org/jna/LibraryRunner.java:20-30 | none exactly on an unsupported platform; otherwise the configured name followed by ".dll" on Windows or ".so" on Linux |
| LibraryRunner.LibraryFileNameInjective | JNAexec/src/main/java/org/jna/LibraryRunner.java:20-30 | different names give different files |
| LibraryRunner.LibraryPath | JNAexec/src/main/java/org/jna/LibraryRunner.java:36-42 | the path ends with the file name |
| LibraryRunner.LibraryPathVariants | exec/src/main/java/org/jna/LibraryRunner.java:34-38 | the two runners agree when a directory is configured and differ only otherwise |
| LibraryRunner.LibraryPathDirectory | JNAexec/src/main/java/org/jna/LibraryRunner.java:36-42 | the configured directory is recovered from the path |
| LibraryRunner.StripLeadingDashes | JNAexec/src/main/java/org/jna/LibraryRunner.java:56-61 | the input without its leading dashes: a suffix, preceded only by '-', not itself starting with '-' |
| LibraryRunner.StripDashPrefix | JNAexec/src/main/java/org/jna/LibraryRunner.java:56-61 | stripping undoes one prefixed dash |
| LibraryRunner.Route | JNAexec/src/main/java/org/jna/LibraryRunner.java:46-124 | "-exit" exactly ends; a recognised command is its own text; a native command fires only if its symbol is listed; the pricing commands need their library; bond and KIS pricing only in JNAexec |
| LibraryRunner.MissingExportFallsThrough | JNAexec/src/main/java/org/jna/LibraryRunner.java:123 | a command whose symbol is not listed falls to the warning |
| LibraryRunner.ListAndHelpCallNothing | JNAexec/src/main/java/org/jna/LibraryRunner.java:56-68 | "-list" and "-help" always work and call nothing native |
| LibraryRunner.BondPricingOnlyInJnaExec | JNAexec/src/main/java/org/jna/LibraryRunner.java:109-112 | a bond library's "-pricing" runs in JNAexec and only warns in exec |
| LibraryRunner.MathGateChecksDivOnly | JNAexec/src/main/java/org/jna/LibraryRunner.java:89-93 | "-Sum" is dispatched when only "Div" is listed |
| LibraryRunner.IndexOf | JNAexec/src/main/java/org/jna/LibraryRunner.java:56-61 | List.indexOf: the first position of the element, or -1 exactly when it is absent |
| LibraryRunner.ListLines | JNAexec/src/main/java/org/jna/LibraryRunner.java:56-61 | one numbered line per listed name, in order |
| LibraryRunner.ListNumbering | JNAexec/src/main/java/org/jna/LibraryRunner.java:56-61 | a unique name shows its own position, and a repeated name shows its first position |
| LibraryRunner.SplitAll | JNAexec/src/main/java/org/jna/LibraryRunner.java:140-165 | at least one piece, none containing a comma |
| LibraryRunner.DropTrailingEmpty | JNAexec/src/main/java/org/jna/LibraryRunner.java:140-165 | a prefix of the pieces that drops exactly the empty pieces at the end |
| LibraryRunner.CommaList | JNAexec/src/main/java/org/jna/LibraryRunner.java:140-165 | an empty line gives no elements; the elements have no comma and the last one is non-empty |
| LibraryRunner.SplitAllJoin | JNAexec/src/main/java/org/jna/LibraryRunner.java:140-165 | joining the pieces with commas gives the line back |
| LibraryRunner.JoinSplitAll | JNAexec/src/main/java/org/jna/LibraryRunner.java:140-165 | splitting joined comma-free pieces gives them back |
| LibraryRunner.CommaListRoundTrip | JNAexec/src/main/java/org/jna/LibraryRunner.java:140-165 | a comma list round-trips with its line when the line does not end in a comma, and with its pieces when the last piece is non-empty |
| LibraryRunner.ParseAll | JNAexec/src/main/java/org/jna/LibraryRunner.java:140-165 | every element is parsed, or the parse fails exactly when some element fails |
| LibraryRunner.PrintTypeArguments | JNAexec/src/main/java/org/jna/LibraryRunner.java:140-165 | four comma lists and a double that defaults to 0 on an empty line; fails exactly when a number does not parse |
| LibraryRunner.PrintStructArguments | JNAexec/src/main/java/org/jna/LibraryRunner.java:167-189 | an empty line takes its field's default; the bucket count is the list's length; fails exactly when a given number does not parse |
| LibraryRunner.PrintStructDefaults | JNAexec/src/main/java/org/jna/LibraryRunner.java:170-186 | five empty lines give the documented defaults, whose bucket count of 0 is the case MyStruct rejects |
| LibraryRunner.ArgumentCount | JNAexec/src/main/java/org/jna/LibraryRunner.java:126-138 | only native commands read argument lines |
| LibraryRunner.Handle | JNAexec/src/main/java/org/jna/LibraryRunner.java:126-138 | the call made is gated by the command's symbol; an arithmetic call happens exactly when both numbers parse |
| LibraryRunner.TrimAll | JNAexec/src/main/java/org/jna/LibraryRunner.java:49 | every input line trimmed, in order |
| LibraryRunner.StepAt | JNAexec/src/main/java/org/jna/LibraryRunner.java:46-124 | one pass: it stops on "-exit" exactly; at end of input it throws; a pass that goes on advances, and any call it makes is listed and returned normally |
| LibraryRunner.StepFor | JNAexec/src/main/java/org/jna/LibraryRunner.java:46-124 | the pass after routing: it exits exactly on Exit; a call is gated by its command's symbol; a printStruct call whose MyStruct cannot be built throws instead, so every printStruct call made has a non-empty bucket; a native call that fails throws, so every call made returned |
| LibraryRunner.EmptyBucketThrows | JNAexec/src/main/java/org/jna/NativeLibraryLoader.java:121-129 | "-printStruct" with five blank lines ends the loop in an exception, because the empty default bucket is refused by MyStruct's constructor outside the try block |
| LibraryRunner.SessionCallsAreListed | JNAexec/src/main/java/org/jna/LibraryRunner.java:46-124 | every call of a session is listed and returned normally, at most one per line |
| LibraryRunner.FailedCallEndsSession | JNAexec/src/main/java/org/jna/NativeLibraryLoader.java:91-97 | a native call that fails ends the loop at once in an exception, with no call recorded |
| LibraryRunner.SessionExit | JNAexec/src/main/java/org/jna/LibraryRunner.java:51-54 | lines after "-exit" are never read; a session without "-exit" ends in an exception |
| LibraryRunner.SessionStep | JNAexec/src/main/java/org/jna/LibraryRunner.java:46-124 | a session is one pass followed by the rest |
| LibraryRunner.RunCommands | JNAexec/src/main/java/org/jna/LibraryRunner.java:46-124 | the loop's calls and its ending are the session over the loader's list, which stops at the first exception, a refused MyStruct or a failing native call included |
| LibraryRunner.RunNativeLibrary | JNAexec/src/main/java/org/jna/LibraryRunner.java:15-42 | no configuration stops early; an unsupported platform returns; otherwise the loader is opened and the session runs on its list |
| Logger.TypeName | CommonUtils/src/logger.hpp:114-125 | one of the listed names, and "unknown_type" exactly for types outside the list |
| Logger.TypeNameQualifiers | CommonUtils/src/logger.hpp:116 | const, volatile and references are stripped; `char*` and `std::string` are unknown and only `const char*` is named |
| Logger.VarLineParts | CommonUtils/src/logger.hpp:129-134 | the line is the type name, the variable name, " = ", the value and ";" |
| Logger.LastNonzero | CommonUtils/src/logger.hpp:150 | the last non-zero index, with only zeros after it; none exactly for an all-zero array |
| Logger.LastNonzeroUnique | CommonUtils/src/logger.hpp:150 | a non-zero element with only zeros after it is the last non-zero |
| Logger.LogFloatArrayLine | CommonUtils/src/logger.hpp:149-185 | the loop builds the floating-array line |
| Logger.AllZeroPrintsNotAvailable | CommonUtils/src/logger.hpp:150-155 | an all-zero array prints "N/A" |
| Logger.NonzeroLastPrintsAll | CommonUtils/src/logger.hpp:166-171 | an array that ends in a non-zero prints every element |
| Logger.OneTrailingZeroPrintsAll | CommonUtils/src/logger.hpp:177-178 | one trailing zero is printed as itself |
| Logger.LongZeroRunsCompress | CommonUtils/src/logger.hpp:179-181 | two or more trailing zeros print as "0, ... , 0" whatever their number |
| Logger.ArrayHeader | CommonUtils/src/logger.hpp:193-197 | textual arrays omit the type name; all others show it |
| Logger.LogPlainArrayLine | CommonUtils/src/logger.hpp:193-205 | every element, comma-separated, under the header |
| Logger.FileName | CommonUtils/src/logger.hpp:56 | the last path component: a suffix of the path, free of separators, preceded by one |
| Logger.FileNameOfPath | CommonUtils/src/logger.hpp:56 | a directory, a separator and a name give the name |
| Logger.InfoMessageShape | CommonUtils/src/logger.hpp:51-62 | an info line is "[file:line] body" |
| Logger.Bracketed | CommonUtils/src/logger.hpp:56 | location and body are recovered from the info line |
| Logger.ErrorMessageShape | CommonUtils/src/logger.hpp:74-85 | an error line is "body (file:line)" |
| Logger.Parenthesized | CommonUtils/src/logger.hpp:79 | body and location are recovered from the error line |
| BondLogger.LogArrayLine | Bond/src/logger.h:18-32 | the label, ": ", then every element, comma-separated |
| BondLogger.LogVectorLine | Bond/src/logger.h:34-36 | the vector form is the array form on its elements |
| BondLogger.ArrayLineLayout | Bond/src/logger.h:24-30 | an empty array gives just the label; the length adds up; the line ends with the last element |
| LoggerData.ToYyyymmdd | CommonUtils/src/logger_data.hpp:37-42 | all digits, and exactly eight of them when the year has at most four digits |
| LoggerData.YyyymmddRoundTrip | CommonUtils/src/logger_data.hpp:37-42 | makeDateFromInt of the printed number gives the date back |
| LoggerData.LogCouponSchedule | CommonUtils/src/logger_data.hpp:45-60 | start, end and payment texts of every period, then the framed log lines |
| LoggerData.SchedulePeriods | CommonUtils/src/logger_data.hpp:45-53 | n dates give n - 1 periods: start i, end i + 1, payment on the adjusted date i + 1 |
| LoggerData.PeriodsChain | CommonUtils/src/logger_data.hpp:45-53 | each period ends where the next one starts |
| LoggerData.ShortSchedules | CommonUtils/src/logger_data.hpp:45-53 | zero or one date logs empty lists |
| ScopeGuards.ScopeGuard.constructor | CommonUtils/src/common.hpp:73 | a new guard is active and has run nothing |
| ScopeGuards.ScopeGuard.Dismiss | CommonUtils/src/common.hpp:75 | the guard becomes inactive and runs nothing |
| ScopeGuards.ScopeGuard.Destroy | CommonUtils/src/common.hpp:74 | the function runs once exactly when the guard is still active |
| ScopeGuards.GuardLifetime | CommonUtils/src/common.hpp:71-80 | the cleanup runs exactly once when never dismissed, and never otherwise |
| ScopeGuards.FinallyGuardName | CommonUtils/src/common.hpp:82-84 | the variable name starts with "_guard_" |
| ScopeGuards.FinallyNamesDistinct | CommonUtils/src/common.hpp:82-84 | FINALLY on two lines declares two distinct guards |

## Left out

- NativeLibraryLoader's `call*` methods and `NativeLibrary.getInstance`: these are foreign calls. The model keeps the symbol gate that the runner checks before each call, and whether a call returns is a parameter (`callReturns`).
- The runner's console (Scanner, System.out) and the warning text. A session is modelled as a list of input lines, and its result is the list of calls made and how it ended.
- The fixed-input pricing calls of the runner (the constant trade data the pricing commands pass): the model records the call, not its arguments. This includes the KIS `0.2w` literal at JNAexec/src/main/java/org/jna/LibraryRunner.java:382.
- Exception kinds: a parse failure, the end of input, a MyStruct the constructor refuses and a native call that fails (the RuntimeException every `call*` method rethrows) merge into one "thrown" outcome.
- The pricingFLL case where the discount tenor count is larger than the index tenor count: the index curve loop then reads past the index periods, which is undefined, so LegPricing.PricingFLL excludes it by a precondition.
- OtStock.StockNpv, OtStock.Pricing: require a non-zero base price for the price-ratio scenarios (scenCalcu 1 and 2), where the code's division by zero gives an IEEE infinity or NaN that exact reals cannot express.
- IEEE floating point: doubles are exact reals. Rounding, NaN and the infinities are not modelled. MyMath.MathDiv relies on this: with exact reals a quotient times the divisor is the dividend.
- QuantLib: pricing engines, curves, schedules, day counters and calendars are oracles. The exceptions QuantLib throws (QL_REQUIRE, an empty DayCounter) are not modelled. Only the pricers' own QL_FAIL paths are.
- LegPricing.PricingZCL, LegPricing.PricingFDL, LegPricing.PricingFLL, BondPricing.Pricing and FxForward.PricingFFW: arguments that the code reads but that do not reach the outputs are not modelled. These are the log flags, the day-count bases, the risk weights that are never read, and the unused spot rate 1288.
- BondPricing.Pricing: it requires all ten GIRR tenors and all five CSR tenors, because the code writes the full tenor lists whatever counts it is given.
- OtStock.Pricing: the catch block's -999 is not modelled. Exact arithmetic cannot throw, so the path cannot be reached.
- LegacyFxForward: the bootstrap (legacy_FFW_Backup/FxForward_lsj/src/fxForward.cpp:321-365), valuate (367-395), linterp (399-414) and roundToDecimals (482-485) are oracles.
- Logging sinks: spdlog's timestamps, levels and output files are not modelled. Neither is the catch fallback of infoWithLine and errorWithLine, because computing a file name from a path cannot fail here.
- Logger.FileName: Windows root names (a drive letter with no separator after it) are not treated specially.
- Logger.LastNonzero: find_last_nonzero is given by its contract, because its source is not part of this model.
- Logger: the CommonUtils vector overload of logArrayLine is not modelled separately. It forwards to the array form in the same way that BondLogger.LogVectorLine does.
- ScopeGuards: the guard's function is abstracted to a run count. The destruction order of several guards in one scope is not modelled.
- MyStructMapping: native widths (`size_t` against `int`), struct padding, one byte per character and the never-freed allocations are not modelled.
- freeArray (CommonUtils/src/common.cpp:369-373): it only releases memory.
- qDateToString (CommonUtils/src/common.cpp:376-380) and Bond's copy, which has no return statement (Bond/src/bond.cpp:505-507): these are debug formatting.
- The printAllData, printAllInputData and printAllOutputData logging helpers: these are log output only.
- MyMath.PrintType and MyMath.PrintStruct: the console text that printf writes for the arrays is not modelled. The model keeps the pointer update and the struct's lines.

## Findings

| source | as written | input that shows it | evidently intended | confidence | as-written member | corrected member |
|---|---|---|---|---|---|---|
| Leg/src/leg.cpp:827 | The index curve of pricingFLL is built over the GIRR tenor count. | 10 discount tenors and 12 index tenors: the curve stops at the tenth index tenor and ends at a different rate. | The index curve is built over the index tenor count. | not executed | LegPricing.IndexCurveLosesTenors | PricingTerms.IndexCurveCorrected |
| FxForward/src/fxForward.cpp:429 | The sell leg's basis scenario discounts to the buy leg's payment date. | A non-USD sell leg paid after 1 year, in a forward whose buy leg pays after 2 years: the basis delta is not the sell leg's own parallel delta. | The sell leg's own payment date. | not executed | FxForward.SellBasisUsesBuyPayDate | FxForward.BasisDeltaOfLinearLeg |
