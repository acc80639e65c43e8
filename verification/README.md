# Pool and spa water analysis — a Dafny model

This project models the analysis engine of the bungalow pool-monitoring
application: the range table, the three-tier classifier, the Langelier
Saturation Index (LSI) pipeline with its step-function factor tables, the
per-parameter message tables, the worst-of aggregation used by the bungalow
picker and by the results panel, and the per-bungalow store that a submit
updates.

Files and modules:

- `types.dfy` — `PoolTypes`: `Status` with its severity order, `Readings`
  (all seven fields, including `flow`), closed `Interval`s, `Range` with an
  optional acceptable band, `AnalysisResult`, `BungalowState`.
- `constants.dfy` — `Constants`: the range table `RangeFor` over the enum
  `Param` and the per-status style table.
- `classifier.dfy` — `Classifier`: `GetStatus` and the icon tag of a status.
- `lsi.dfy` — `LsiIndex`: the breakpoint tables, the table scan (as a loop and as
  a recursive reference), the TDS factor, rounding to two decimals, the index.
- `messages.dfy` — `Messages`: the message tables. Each table selects an
  `Advice`, and `Messages.Text` gives its wording exactly as shown.
- `analyzer.dfy` — `PoolAnalyzer`: `AnalyzeReadings`, eight results in fixed order.
- `selector.dfy` — `BungalowSelector`: `GetOverallStatus` and the picker buttons.
- `results_display.dfy` — `ResultsDisplay`: the inline aggregation, the summary card and the cards.
- `app.dfy` — `App`: initialisation of the 20 bungalows, submit, and the results projection.

Modelling choices:

- Numbers are exact `real`s. `Round2` rounds half away from zero, which is
  what `toFixed(2)` does on an exactly represented value; the model assumes
  exact decimal inputs.
- Range keys are the enum `Param`, so an unknown key cannot be asked for.
- An `AnalysisResult` carries the number before formatting (`value`; for
  the LSI, the rounded index) and the ideal `Interval` instead of the
  formatted strings (chlorine and pH are shown with `toFixed(2)`), and an `Icon` tag instead of an icon element.
- The default readings in `App.tsx` have no `flow` field although the
  readings type requires one. The model requires all seven fields. The
  value that stands in for the missing default is a parameter of
  `App.InitializeBungalows`, and nothing is claimed about it.
- The picker reads `bungalowResults[id - 1]`; an id past the end of the list
  reads nothing (JavaScript's `undefined`), which the picker treats like a
  bungalow without results. `BungalowSelector.ResultsOf` models that as `None`.

## Model

| member | source | states |
|---|---|---|
| `Constants.RangeFor` | constants.ts:9-18 | Every ideal band has lo ≤ hi, every acceptable band contains its ideal band, and only pH and calcium hardness lack an acceptable band. |
| `Constants.LsiBandsSymmetric` | constants.ts:16 | The LSI ideal and acceptable bands are symmetric about zero. |
| `Constants.TdsBandsShareLowerBound` | constants.ts:15 | The TDS ideal and acceptable bands share the lower bound 400. |
| `Constants.StatusStylesDistinct` | constants.ts:20-36 | The style table gives each of the three statuses its own style. |
| `Classifier.GetStatus` | services/poolAnalyzer.ts:28-36 | Ideal iff the value is in the closed ideal band. Acceptable iff it is not Ideal, an acceptable band exists and the value is in it. Never Acceptable without an acceptable band. On a well-formed range, ActionRequired iff the value is below or above the outer band. |
| `Classifier.IconDistinguishesStatus` | services/poolAnalyzer.ts:39-48 | The icon tag is a function of the status alone, and distinct statuses get distinct icons. |
| `Classifier.NoAcceptableTier` | constants.ts:11-13 | pH and calcium hardness are never Acceptable. |
| `Classifier.TdsTiers` | constants.ts:15 | TDS is Acceptable exactly on (1500, 2000], and every TDS below 400 is ActionRequired. |
| `Classifier.LsiStatusSymmetric` | constants.ts:16 | An index and its negation get the same LSI status. |
| `Classifier.ChlorineBoundaries` | services/poolAnalyzer.ts:28-36 | Chlorine 2.0 is Ideal, 1.0 and 10.0 are Acceptable, 0.99 and 10.01 are ActionRequired. |
| `LsiIndex.Factor` | services/poolAnalyzer.ts:54-64 | The factor is 0 when the table is empty or the value is below the first threshold. |
| `LsiIndex.GetFactor` | services/poolAnalyzer.ts:54-64 | The loop with its early exit returns the same factor as the recursive scan `Factor`. It returns 0 below the first threshold, and on an ascending table the factor of the last breakpoint whose threshold is ≤ v. |
| `LsiIndex.FactorOfSegment` | services/poolAnalyzer.ts:50-64 | On an ascending table, when threshold(k) ≤ v and v is below threshold(k+1) or k is last, the factor is factor(k): the factor of the largest threshold not above v. |
| `LsiIndex.FactorAtOrAboveLast` | services/poolAnalyzer.ts:54-64 | On an ascending table, a value at or above the last threshold gets the last factor. |
| `LsiIndex.FactorMonotone` | services/poolAnalyzer.ts:54-64 | When factors rise with thresholds and start at zero or above, a larger value never gets a smaller factor. |
| `LsiIndex.TempTableOrdered` | services/poolAnalyzer.ts:185 | The temperature table is ascending in thresholds and in factors, and its first factor is not negative. |
| `LsiIndex.CalciumTableOrdered` | services/poolAnalyzer.ts:186 | The calcium table is ascending in thresholds and in factors, and its first factor is not negative. |
| `LsiIndex.AlkalinityTableOrdered` | services/poolAnalyzer.ts:187 | The alkalinity table is ascending in thresholds and in factors, and its first factor is not negative. |
| `LsiIndex.TdsFactor` | services/poolAnalyzer.ts:192 | The TDS factor is 12.1 iff TDS < 1000, and 12.2 otherwise. |
| `LsiIndex.Round2` | services/poolAnalyzer.ts:194 | The result has two decimals and lies within 0.005 of the input. A tie at 0.005 goes away from zero. |
| `LsiIndex.Round2Fixes` | services/poolAnalyzer.ts:194 | A value that already has two decimals is unchanged by rounding. |
| `LsiIndex.Round2Odd` | services/poolAnalyzer.ts:194 | Rounding commutes with negation. |
| `LsiIndex.Round2Ties` | services/poolAnalyzer.ts:194 | 0.125 rounds to 0.13 and −0.125 rounds to −0.13. |
| `LsiIndex.LsiRaw` | services/poolAnalyzer.ts:185-194 | Because each factor lies between 0 and its table's last factor, the unrounded index lies between pH − 12.2 and pH + 0.9 + 2.5 + 2.6 − 12.1. |
| `LsiIndex.LsiValue` | services/poolAnalyzer.ts:189-194 | The displayed index has two decimals and lies within 0.005 of pH + the three factors − the TDS factor. |
| `LsiIndex.LsiRawMonotone` | services/poolAnalyzer.ts:185-194 | With pH and TDS fixed, raising temperature, calcium hardness or alkalinity never lowers the unrounded index. |
| `Messages.DirectionalMessage` | services/poolAnalyzer.ts:69-80 | For five distinct messages on a well-formed range, the ideal message is chosen iff the status is Ideal, the acceptable message iff Acceptable, the low remedy iff the value is below the outer band, the high remedy iff above it. The fallback is never chosen. |
| `Messages.ChlorineMessage` | services/poolAnalyzer.ts:69-80 | Critically low iff < 1.0 ppm, too high iff > 10.0 ppm, optimal iff in [2.0, 5.0], acceptable iff in [1.0, 2.0) or (5.0, 10.0]. The "Adjust chlorine" message is never chosen. |
| `Messages.FlowMessage` | services/poolAnalyzer.ts:112-123 | Low iff < 30 GPM, high iff > 90 GPM, optimal iff in [40, 80], acceptable iff in [30, 40) or (80, 90]. The "Adjust flow rate" message is never chosen. |
| `Messages.AlkalinityMessage` | services/poolAnalyzer.ts:133-144 | Low iff < 60 ppm, high iff > 180 ppm, buffering iff in [80, 120], acceptable iff in [60, 80) or (120, 180]. The "Adjust to stabilize" message is never chosen. |
| `Messages.PhMessage` | services/poolAnalyzer.ts:97 | The "Adjust pH" text appears iff pH is outside [7.2, 7.8]. Otherwise the "balanced" text appears. |
| `Messages.TemperatureMessage` | services/poolAnalyzer.ts:108 | The "exceeds 104°F" text appears iff the temperature is below 70 or above 104, so low temperatures get it too. |
| `Messages.CalciumMessage` | services/poolAnalyzer.ts:155-163 | Low iff < 200 ppm, high iff > 400 ppm, protective iff in [200, 400]. The "Adjust to prevent" message is never chosen. |
| `Messages.TdsMessage` | services/poolAnalyzer.ts:180 | The "High TDS" text appears iff TDS is below 400 or above 2000, so low TDS gets it too. |
| `Messages.LsiMessage` | services/poolAnalyzer.ts:197-202 | Corrosive iff the index is < −0.3, scaling iff > 0.3, balanced iff the index is Ideal. |
| `Messages.DirectionBlindMessages` | services/poolAnalyzer.ts:101-202 | 60°F gets the over-limit text and 300 ppm TDS the high-TDS text. An index of 0.4 is Acceptable but gets the scaling text, and −0.4 is Acceptable but gets the corrosive text. |
| `PoolAnalyzer.AnalyzeReadings` | services/poolAnalyzer.ts:66-215 | Exactly eight results in the order Chlorine, pH, Temperature, Flow Rate, Total Alkalinity, Calcium Hardness, TDS, LSI. Each result has its own name, value and ideal band, and a status from `GetStatus` of that value against its own range. Its message is the wording of its parameter's table entry, and its icon is the icon of its status. |
| `PoolAnalyzer.ResultVerdict` | services/poolAnalyzer.ts:29-47 | A parameter's verdict is ActionRequired iff its value lies outside the widest band its range allows, and it shows the cross icon iff that is so. |
| `PoolAnalyzer.AnalysisNeedsAction` | services/poolAnalyzer.ts:66-215 | The analysis aggregates to ActionRequired iff at least one of the eight judged values lies outside its parameter's widest band. |
| `PoolAnalyzer.MessageFor` | services/poolAnalyzer.ts:69-202 | No finite value selects one of the initial "Adjust …" messages of chlorine, flow, alkalinity or calcium hardness. |
| `PoolAnalyzer.ResultNamesDistinct` | services/poolAnalyzer.ts:66-215 | The eight result names are pairwise distinct, so they can serve as card keys. |
| `PoolAnalyzer.WorkedExample` | services/poolAnalyzer.ts:185-211 | pH 7.5, 85°F, 300 ppm calcium, 100 ppm alkalinity and 1000 ppm TDS give factors 0.7, 2.1 and 2.0 and a TDS factor of 12.2. The index is 0.1, the status Ideal and the message "balanced". |
| `PoolAnalyzer.ClassifiedAfterRounding` | services/poolAnalyzer.ts:194-196 | A raw index of 0.304 would be Acceptable, but it rounds to 0.3, which is Ideal. |
| `BungalowSelector.GetOverallStatus` | components/BungalowSelector.tsx:6-18 | No results give Ideal, and so does an empty list. Otherwise the result is the most severe status present: it is at least as severe as every result and is the status of one of them. |
| `BungalowSelector.OverallIsFold` | components/BungalowSelector.tsx:6-18 | The three-way test equals a left fold taking the maximum severity. |
| `BungalowSelector.OverallPermutationInvariant` | components/BungalowSelector.tsx:6-18 | Lists that are permutations of each other aggregate to the same status. |
| `BungalowSelector.StatusColor` | components/BungalowSelector.tsx:42-46 | The dot is green, yellow or red exactly when the status's card border is the green, yellow or red shade. |
| `BungalowSelector.ResultsOf` | components/BungalowSelector.tsx:38 | Button id reads position id − 1 of the list, and nothing past its end. |
| `BungalowSelector.Buttons` | components/BungalowSelector.tsx:37-60 | One button per id 1..count. Only the selected id is marked. The dot is hidden iff the button's results are null, and otherwise has the colour of their aggregate. |
| `ResultsDisplay.OverallStatus` | components/ResultsDisplay.tsx:29-33 | The panel's inline aggregation agrees with `GetOverallStatus` on every list. |
| `ResultsDisplay.Summary` | components/ResultsDisplay.tsx:11-26 | The card keeps its status and style. The "Action Required" heading, the "outside" text and the warning icon appear exactly for ActionRequired; every other status gets the "Good" heading, the "within" text and the check icon. |
| `ResultsDisplay.Render` | components/ResultsDisplay.tsx:21-50 | The summary's status is the panel's aggregate of the results. The "outside of our quality standards" text, the "Action Required" heading and the warning icon appear iff some result is ActionRequired; otherwise the "within" text, the "Overall Status: Good" heading and the check icon appear. There is one card per result in input order, keyed by parameter name. |
| `ResultsDisplay.GoodSummariesAlike` | components/ResultsDisplay.tsx:11-38 | Overall Acceptable and overall Ideal show the same heading, text and icon, and differ only in style. |
| `App.InitializeBungalows` | App.tsx:24-34 | The store holds exactly the keys 1..20. Every entry has null results, an empty attendant name and the default readings. |
| `App.Submit` | App.tsx:41-47 | The selected entry is replaced in full by the readings, the attendant name and `AnalyzeReadings` of those readings as its results. The key set only gains the selected id, and every other entry is unchanged. |
| `App.SubmitKeepsValid` | App.tsx:41-47 | A submit for an id in 1..20 keeps the key set exactly 1..20. |
| `App.SubmitKeepsCoherent` | App.tsx:41-47 | After a submit, every entry is still fresh or holds the analysis of its own readings. |
| `App.AllBungalowResults` | App.tsx:50 | The projection has length 20, and position i holds the results of bungalow i + 1. |
| `App.SubmitChangesOnePosition` | App.tsx:41-50 | After a submit, the projection changes only at position selected − 1, which then holds the new analysis. |
| `App.ButtonsShowOwnBungalow` | App.tsx:50 | Button id shows the dot of bungalow id's own results. |

## Left out

- Icon elements and SVG markup: the model keeps only the icon tag of a status.
- Number formatting: `toFixed`, template literals and unit suffixes in `value` and `idealRange`. Results carry the numbers they format.
- LsiIndex.Round2: rounds exact reals. It does not model double-precision effects of `toFixed(2)` near a .005 tie, such as 1.005, whose nearest double lies just below the tie and so rounds down. Nor does it model the double-precision sum of pH, the three factors and the TDS factor: with pH 7.705 and the default other readings the exact sum is 0.305, which the model rounds to 0.31 (Acceptable, "scaling"), while the sum in doubles falls just below 0.305 and shows 0.30 (Ideal, "balanced").
- NaN and missing fields. All seven readings are finite reals. The default readings in `App.tsx` have no `flow`. Were `analyzeReadings` called with them, every flow comparison would be against `undefined` and false, giving ActionRequired with the "Adjust flow rate" message, which no finite value reaches. The form's flow input is required, so a normal submit does not get there.
- App.InitializeBungalows: the default readings in `App.tsx` omit `flow`, so there is no default flow to state. The stand-in value is a parameter and nothing is claimed about it.
- React state, memoisation and event handling in `App.tsx`: only the pure map transformation is modelled.
- The form (`ReadingsForm.tsx`), the averages report, the charts, the print view, the header and the splash screen: these are input handling, floating-point averaging and rendering.
