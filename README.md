# Carbon-footprint estimator, modelled in Dafny

This project models the emission estimator behind the `/api/estimate`
endpoint of the CarbonFootprintEstimation application
(`app/api/estimate/route.ts`). A request gives eight values: operating
hours, energy (kWh), material (kg), waste (kg), output (units), transport
distance (km), business sector and transport mode. The endpoint returns five
things:

- the emission estimate (`computeEmission`): five components, each a
  quantity times a per-unit factor, scaled by sector weights; their sum is
  discounted once by an output-dependent efficiency factor with a floor of
  0.7;
- the breakdown (`generatePieData`): the five components *before* the
  discount, each rounded to two decimals;
- a six-month projection (`generateBarData`): the estimate times the
  sector's seasonal multipliers, rounded to whole numbers;
- four efficiency scores (the `metrics` object);
- recommendations (`generateRecommendations`): four threshold rules
  evaluated in a fixed order, then an unconditional renewable-energy record.

Modules, one per part of the route file:

- `Wrappers` (`wrappers.dfy`): `Option`. `None` stands for a value that
  JavaScript computes as `undefined`, `NaN` or an infinity. The JSON
  response carries such a value as `null`.
- `JsMath` (`js_math.dfy`): `Math.round`, and rounding to two decimals.
- `Factors` (`factors.dfy`): the constant tables as maps over their listed
  keys, and the three kinds of lookup the route performs.
- `Estimator` (`estimator.dfy`): the input record, the components, the
  efficiency factor, the estimate and the breakdown.
- `Projection` (`projection.dfy`): the monthly projection.
- `Metrics` (`metrics.dfy`): the four scores.
- `Advisor` (`advisor.dfy`): the recommendation rules. The method
  `GenerateRecommendations` appends records step by step, as the source
  does. It is proved equal to `Advice`, a filter over the ordered rule list.
  The properties are proved about `Advice`.
- `Route` (`route.dfy`): request-field defaulting and the assembled
  response.

Numbers are exact reals, not IEEE-754 doubles. JavaScript's `Math.round(x)`
is modelled as `Floor(x + 1/2)`, so halves round towards +infinity.

The model keeps two quirks of the code:

- **Bike is charged as truck.** The transport lookup is
  `table[mode] || truck`. Bike's factor 0.0 is falsy, so "bike" costs truck's
  0.21 per km in the estimate and in the breakdown (`Factors.FactorOrTruck`,
  `Route.BikeChargedAsTruck`).
- **Two lookups have no fallback.** The transport score and the
  alternative-transport saving index the table directly. For an unlisted mode
  both are `NaN` (`None` here).

One might expect an unrecognised transport mode to be treated exactly like
"truck", as an unrecognised sector is treated like "Manufacturing"
(`Route.UnknownSectorRespondsAsManufacturing`). The code does not do this.
The estimate, breakdown, projection, the other three scores and the
recommendations' categories, titles and impacts all agree with "truck". But
the transport score is `null` instead of 0, and the transport saving is
`null` too (`Route.UnknownTransportDiffersFromTruck`).

The request body is whatever `req.json()` parses. A JSON `null` makes the
destructuring throw, so the request fails. Any other non-object value (a
number, a string, an array) has none of the eight fields, so every field
takes its default (`Route.FieldsOf`, `Route.Post`).

Two divisions in the scores can divide by zero. These are `energy / (output + 1)`
and `waste / (material + 1)`, at output = -1 or material = -1. The result
is then an infinity or `NaN`, which the model represents as `None`.

## Model

| member | source | states |
|---|---|---|
| `JsMath.Round` | app/api/estimate/route.ts:104 | `Math.round`: the result lies in (x − ½, x + ½], so a half rounds up |
| `JsMath.RoundTo2` | app/api/estimate/route.ts:77-81 | `Math.round(x*100)/100` is within half a cent of x |
| `JsMath.RoundTo2HasTwoDecimals` | app/api/estimate/route.ts:77-81 | `Math.round(x*100)/100` has at most two decimals |
| `JsMath.RoundUnique` | app/api/estimate/route.ts:104 | any integer in (x − ½, x + ½] is `Math.round(x)`, so Round's bounds determine it |
| `JsMath.RoundMonotone` | app/api/estimate/route.ts:104 | rounding preserves order |
| `Factors.SectorWeights` | app/api/estimate/route.ts:19-40 | a listed sector gets its row; any other gets Manufacturing's (1, 1, 1); every weight is in (0, 1.2] |
| `Factors.FactorOrTruck` | app/api/estimate/route.ts:8-41 | an unlisted mode and "bike" both get 0.21; every other listed mode gets its own factor; the factor is in [0.04, 0.21] |
| `Factors.DirectFactor` | app/api/estimate/route.ts:223 | the lookup without fallback is defined exactly for the six listed modes; bike gives 0.0 |
| `Factors.SeasonalPattern` | app/api/estimate/route.ts:90-100 | six multipliers, each in [0.9, 1.3]; a listed sector gets its own row; an unlisted sector gets Manufacturing's pattern |
| `Factors.SectorTablesAgree` | app/api/estimate/route.ts:90-98 | the weight table and the seasonal table list the same sectors |
| `Estimator.ComponentSigns` | app/api/estimate/route.ts:43-49 | each component has the sign of its quantity (energy, material, hours, distance, waste) |
| `Estimator.EfficiencyFactor` | app/api/estimate/route.ts:52 | never below 0.7; exactly 0.7 for output ≥ 1000; exactly 1 − 0.3·output/1000 below; at most 1 for output ≥ 0 |
| `Estimator.Estimate` | app/api/estimate/route.ts:40-54 | the estimate is non-negative when energy, material, hours, distance and waste are |
| `Estimator.EstimateBetweenDiscountBounds` | app/api/estimate/route.ts:52-54 | with non-negative quantities and output, the estimate is between 70% and 100% of the components' sum |
| `Estimator.EfficiencyNonIncreasing` | app/api/estimate/route.ts:51-52 | more output never raises the efficiency factor |
| `Estimator.MoreOutputNeverRaisesEstimate` | app/api/estimate/route.ts:51-54 | for a non-negative components' sum, more output never raises the estimate |
| `Estimator.BreakdownRounds` | app/api/estimate/route.ts:76-82 | for any components, each rounded entry is its component to within 0.005, has two decimals, and keeps a non-negative sign |
| `Estimator.BreakdownSum` | app/api/estimate/route.ts:76-82 | for any components, the rounded entries sum to the components' total to within 0.025 |
| `Estimator.PieData` | app/api/estimate/route.ts:76-82 | five entries named Energy, Materials, Operations, Transport, Waste in that order |
| `Estimator.PieSlicesAreRoundedComponents` | app/api/estimate/route.ts:67-82 | each entry is its undiscounted component to within 0.005, has two decimals, and is non-negative when the component is |
| `Estimator.PieSumMatchesUndiscountedEstimate` | app/api/estimate/route.ts:54-82 | the breakdown sums to estimate / efficiency factor, to within 0.025 |
| `Estimator.UnknownSectorIsManufacturing` | app/api/estimate/route.ts:40-67 | an unlisted sector gives the estimate and breakdown of "Manufacturing" |
| `Estimator.TransportFallsBackToTruck` | app/api/estimate/route.ts:41-73 | an unlisted mode and "bike" are charged distance × 0.21, the same estimate and breakdown as "truck" |
| `Estimator.DefaultScenario` | app/api/estimate/route.ts:182-194 | default inputs give components 820, 5, 2, 42, 0.75 (sum 869.75), efficiency 0.97, estimate 843.6575, and that breakdown |
| `Projection.MonthBar` | app/api/estimate/route.ts:102-105 | month i is labelled with its name and is within ½ of prediction × pattern[i] |
| `Projection.BarData` | app/api/estimate/route.ts:86-105 | six entries labelled Jan…Jun; entry i is within ½ of prediction × pattern[i] |
| `Projection.ProjectionBounds` | app/api/estimate/route.ts:102-105 | for a non-negative prediction every month is ≥ 0 and between 0.9 and 1.3 times the prediction, up to rounding |
| `Projection.UnknownSectorProjectsAsManufacturing` | app/api/estimate/route.ts:100 | an unlisted sector projects exactly as "Manufacturing" |
| `Projection.PatternNeverFalls` | app/api/estimate/route.ts:90-100 | every pattern except Retail's and Healthcare's is non-decreasing from January to June (this includes an unlisted sector's) |
| `Projection.MonthBarsInOrder` | app/api/estimate/route.ts:102-105 | a month with a larger multiplier never gets a smaller rounded figure, for a non-negative prediction |
| `Projection.RisingSectorsNeverFall` | app/api/estimate/route.ts:90-105 | for every sector except Retail and Healthcare, listed or not, a non-negative prediction never falls from month to month |
| `Projection.RetailExample` | app/api/estimate/route.ts:92-104 | Retail at 1000 projects to 1200, 1000, 900, 950, 1000, 1100 |
| `Metrics.EnergyEfficiency` | app/api/estimate/route.ts:221 | undefined exactly when output = −1; at most 100 for non-negative energy and output |
| `Metrics.MaterialEfficiency` | app/api/estimate/route.ts:222 | undefined exactly when material = −1; at most 100 for non-negative waste and material; in [0, 100] when 0 ≤ waste ≤ material |
| `Metrics.TransportEfficiency` | app/api/estimate/route.ts:223 | undefined exactly for an unlisted mode; otherwise in [0, 100] |
| `Metrics.OverallScore` | app/api/estimate/route.ts:224 | at most 100 for a non-negative prediction; in [0, 100] for a prediction up to 2000 |
| `Metrics.TransportScores` | app/api/estimate/route.ts:223 | truck 0, car 14, train 81, airplane 29, bike 100, ship 57 |
| `Advisor.Triggered` | app/api/estimate/route.ts:120-166 | the conditional rules add at most one record each |
| `Advisor.GenerateRecommendations` | app/api/estimate/route.ts:109-178 | the step-by-step pushes give `Advice`: 1 to 5 records ending with the renewable-energy record; `prediction` plays no part |
| `Advisor.Record` | app/api/estimate/route.ts:124-174 | each rule's record carries that rule's title |
| `Advisor.Guarded` | app/api/estimate/route.ts:123-164 | one rule pushes at most one record |
| `Advisor.TriggeredSnoc` | app/api/estimate/route.ts:120-166 | evaluating one more rule appends its record exactly when its trigger holds |
| `Advisor.RuleFilterUnfolded` | app/api/estimate/route.ts:120-166 | the rule filter equals the four guarded pushes in source order |
| `Advisor.TriggeredAgree` | app/api/estimate/route.ts:120-166 | inputs on which every rule fires alike and builds the same record get the same records |
| `Advisor.TriggeredAgreeUpToSaving` | app/api/estimate/route.ts:120-166 | inputs on which every rule fires alike and builds the same record apart from the saving get the same records apart from the savings |
| `Advisor.TitleRankOfTitle` | app/api/estimate/route.ts:126-170 | each rule's title identifies the rule's place in the evaluation order |
| `Advisor.TitleInjective` | app/api/estimate/route.ts:126-170 | two rules have the same title exactly when they are the same rule |
| `Advisor.ConditionalRule` | app/api/estimate/route.ts:120-166 | the conditional rules are all the rules except the renewable one |
| `Advisor.TriggeredComesFromFiringRule` | app/api/estimate/route.ts:120-166 | every conditional record belongs to a rule whose trigger holds |
| `Advisor.FiringRuleIsTriggered` | app/api/estimate/route.ts:120-166 | every rule whose trigger holds contributes its record |
| `Advisor.TriggeredOrdered` | app/api/estimate/route.ts:120-166 | rules in evaluation order produce records in that order |
| `Advisor.TriggeredRanksAbove` | app/api/estimate/route.ts:120-166 | rules ranked above a bound only produce records whose titles rank above it |
| `Advisor.TriggeredRanksBelowRenewable` | app/api/estimate/route.ts:120-166 | the conditional rules' records all rank below the renewable record |
| `Advisor.TriggeredSavesNonNegative` | app/api/estimate/route.ts:120-166 | no conditional rule's record has a negative saving |
| `Advisor.AdviceShape` | app/api/estimate/route.ts:168-177 | between 1 and 5 records; the last is "Switch to Renewable Energy", high impact, saving round(energy × 0.82 × 0.7) |
| `Advisor.PresentIffFires` | app/api/estimate/route.ts:120-166 | a conditional rule's title is in the advice exactly when its trigger holds |
| `Advisor.FiresThenPresent` | app/api/estimate/route.ts:120-166 | a conditional rule whose trigger holds has its title in the advice |
| `Advisor.PresentThenFires` | app/api/estimate/route.ts:120-166 | a conditional rule's title appears in the advice only if its trigger holds |
| `Advisor.AdviceTriggers` | app/api/estimate/route.ts:123-158 | energy record iff energy > 800; waste iff waste > 40; transport iff distance > 150 and mode is neither train nor bike; operations iff hours > 40 and sector is not IT/Software |
| `Advisor.AdviceOrdered` | app/api/estimate/route.ts:120-177 | titles rank strictly increasing in the order energy, waste, transport, operations, renewable; no title repeats |
| `Advisor.AdviceSavingsNonNegative` | app/api/estimate/route.ts:129-174 | no conditional record has a negative saving; the renewable saving is non-negative when energy is |
| `Advisor.FiringRecordSavesNonNegative` | app/api/estimate/route.ts:145-153 | a conditional rule that fires has a non-negative or undefined saving (transport: every mode it fires for is at least train's 0.04) |
| `Advisor.TransportSavingUndefinedForUnlistedMode` | app/api/estimate/route.ts:145-154 | when the transport rule fires, its record is present and its saving is undefined exactly for an unlisted mode; for an unlisted mode the record is (transport, "Consider Alternative Transport", high, no saving) |
| `Advisor.AdviceIgnoresMaterialAndOutput` | app/api/estimate/route.ts:109-119 | material and output do not affect the advice |
| `Advisor.AdviceSeesOnlyWhetherSectorIsSoftware` | app/api/estimate/route.ts:158 | the sector affects the advice only through being "IT/Software" or not |
| `Advisor.RenewableSeesOnlyEnergy` | app/api/estimate/route.ts:168-174 | the renewable record depends on energy alone |
| `Advisor.AdviceForUnlistedModeAsTruck` | app/api/estimate/route.ts:145-154 | an unlisted mode gets as many records as "truck", equal record by record apart from the saving |
| `Metrics.UnlistedModeScores` | app/api/estimate/route.ts:220-225 | an unlisted mode has no transport score where "truck" has 0; the other three scores are the same |
| `Route.WithDefaults` | app/api/estimate/route.ts:182-191 | a present field is used as given; an absent one takes its default (40, 1000, 500, 50, 100, 200, "Manufacturing", "truck") |
| `Route.FullBodyKeepsEveryField` | app/api/estimate/route.ts:182-191 | a body carrying every field is evaluated on exactly those values |
| `Route.FieldsOf` | app/api/estimate/route.ts:181-191 | a JSON `null` body has no fields (the destructuring throws); a non-object body has none of the fields; an object has its own |
| `Route.NonObjectIsEmptyRequest` | app/api/estimate/route.ts:181-191 | a non-object body is evaluated as the empty object, on the default inputs |
| `Route.Post` | app/api/estimate/route.ts:180-226 | the request fails exactly for a `null` body; otherwise the response is the evaluation of the defaulted inputs: 5 breakdown entries, 6 months, 1 to 5 recommendations |
| `Route.DefaultBars` | app/api/estimate/route.ts:100-105 | the default estimate projects to 844, 886, 928, 970, 1012, 1055 |
| `Route.DefaultAdvice` | app/api/estimate/route.ts:120-177 | the default inputs get the energy, waste, transport and renewable records with savings 246, 0, 34, 574 (hours of exactly 40 does not trigger) |
| `Route.DefaultScores` | app/api/estimate/route.ts:220-225 | the default inputs score 1, 90, 0 and 58 |
| `Route.EmptyRequest` | app/api/estimate/route.ts:182-226 | the empty request gives 843.6575, breakdown 820/5/2/42/0.75, months 844…1055, four recommendations (savings 246, 0, 34, 574) and scores 1, 90, 0, 58 |
| `Route.UnknownSectorRespondsAsManufacturing` | app/api/estimate/route.ts:194-224 | an unlisted sector gives exactly the "Manufacturing" response |
| `Route.UnknownTransportDiffersFromTruck` | app/api/estimate/route.ts:194-224 | an unlisted mode matches "truck" in estimate, breakdown, projection and the other three scores, and record by record in the recommendations apart from the saving; its transport score is undefined (truck's is 0); when the transport rule fires, its saving is undefined |
| `Route.UnknownTransportFiguresAsTruck` | app/api/estimate/route.ts:194-225 | the estimate, breakdown, projection and scores part of the row above |
| `Route.UnknownTransportAdviceAsTruck` | app/api/estimate/route.ts:196-209 | the recommendations part of the row above |
| `Route.BikeChargedAsTruck` | app/api/estimate/route.ts:194-224 | "bike" has truck's estimate and breakdown, a transport score of 100, and never the transport recommendation |

## Left out

- Recommendation descriptions (`route.ts` lines 127, 138, 149, 162, 172): display text with no behaviour of its own. Four of them interpolate input values or rounded amounts; the one at line 162 is a fixed sentence. Category, title, impact and saving are modelled.
- JavaScript coercion of present but non-numeric fields, including a field whose value is JSON `null`, which does not trigger a destructuring default. (A body that is `null` itself, or not an object, is modelled.) Also out: prototype-chain keys such as "toString" in the table lookups. Both are language artefacts with no specified behaviour. The model's numeric fields are reals and its keys are strings.
- IEEE-754 exactness: all arithmetic is on exact reals. For example, `Math.round(x*100)/100` is an exact two-decimal value here, and sums associate exactly.
- HTTP plumbing in `POST` (`req.json()`, `NextResponse.json`) and the 800 ms delay: I/O and timing with no effect on the computed values.
- `components/dashboard.tsx` and `components/ui/chart.tsx`: the React user interface, the fetch call and the export download are presentation and I/O.
