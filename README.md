# Customer churn predictor — a Dafny model of its core

The system is a churn dashboard built on Convex. It has a document store holding four tables:
customers, churn predictions, retention campaigns and (not modelled) customer interactions. It also has server
functions that load customers from CSV rows, score churn risk (an external language model, with a fixed rule
table as fallback), compute statistics, and create and update retention campaigns. Two browser components are
modelled as well: one parses an uploaded CSV file, the other filters the customer list.

The model is split into modules that follow the program's files:

- `Wrappers`, `Seqs` (Seqs.dfy): `Option`/`Result`, and sequence helpers. These are filter, count, take, min and
  subsequence. The file also holds `FindUnique`, which models a
  lookup through an index followed by `.unique()`: no match, the single match, or more than one (which throws).
- `JsValues` (JsValues.dfy): the JavaScript values a CSV row can hold (`undefined`, `null`, booleans,
  numbers as `real`, strings). Alongside them are the built-ins the core relies on: truthiness, `||`, `trim`, `toLowerCase` (ASCII letters only),
  `includes`, `endsWith`, `split`, `Number(string)`, `parseFloat` and the decimal printing of a natural number.
- `Schema` (Schema.dfy): the store's documents (`Customer`, `ChurnPrediction`, `RetentionCampaign`). It also has the
  `Database` class, whose fields are the tables and which the mutations update in place, and the unique-lookup helpers.
- `ChurnPrediction` (convex/churnPrediction.ts): the rule-based fallback scorer as an imperative method
  proved against a declarative rule table. It also has the prediction history insert, the risk patch of a customer and
  `predictChurnForCustomer` with the model's reply as a parameter.
- `CsvUpload` (convex/csvUpload.ts): value coercions, header-alias resolution, the per-row normalisation
  and the upload loop with its success and error counters.
- `CsvUploadComponent` (src/components/CsvUpload.tsx): line splitting, field cleaning, numeric cells,
  the header-width filter, the two rejection cases, and the two upload handlers.
- `Customers` (convex/customers.ts): sample data, statistics, search and `updateCustomer`.
- `RetentionCampaigns` (convex/retentionCampaigns.ts): campaign creation, active campaigns, pattern
  analysis (histograms, most common value, averages), the fallback offers, the recommendation action's
  guard and `updateCampaignStatus`.
- `CustomerListComponent` (src/components/CustomerList.tsx): the client-side list filter and the
  button that clears it.

Other modelling choices:

- A JavaScript number is a mathematical `real`.
- The clock is a `now: nat` parameter, read once per call.
- The language-model calls are `Option` parameters: `None` stands for a failed call, an unparsable reply or one the
  code discards.
- The full-text search index is a parameter holding its hits in relevance order.
- Reading a picked file (`file.text()`) and fetching the training file give an `Option<string>`, `None` when
  they fail. Whether the upload mutation throws is a `bool` parameter.

## Model

| member | source | states |
|---|---|---|
| ChurnPrediction.CalculateFallbackPrediction | convex/churnPrediction.ts:142-198 | the imperative scorer (five rule blocks updating a running score and two lists) returns exactly the assessment the declarative rule table defines |
| ChurnPrediction.PushIf | convex/churnPrediction.ts:148-184 | one rule block takes a state that accounts for the first k rules to one that accounts for the first k+1 (score is the weight sum, lists are the rules' texts) |
| ChurnPrediction.PushRule | convex/churnPrediction.ts:148-184 | a firing rule adds its points to the score and appends its factor and recommendation; a rule that does not fire changes nothing |
| ChurnPrediction.FallbackOfTracks | convex/churnPrediction.ts:186-196 | once every rule is accounted for, capping at 95, bucketing and cutting both lists to three gives the fallback assessment with confidence 75 |
| ChurnPrediction.TotalWeightAppend | convex/churnPrediction.ts:148-184 | the score of two groups of fired rules is the sum of their scores |
| ChurnPrediction.WeightStep | convex/churnPrediction.ts:148-184 | each rule of the table adds its own points to the score exactly when its condition holds |
| ChurnPrediction.RuleScoreClosedForm | convex/churnPrediction.ts:148-184 | the score is the tenure points (30 below 6 months, 20 from 6 to 12, else 0), plus 25 for month-to-month, 15 for electronic check, 20 for charges above 80 and 10 for a senior |
| ChurnPrediction.TenureRulesExclusive | convex/churnPrediction.ts:148-156 | the tenure if / else-if gives at most one of the two tenure rules, and which one is determined by the tenure band |
| ChurnPrediction.RiskLevelFor | convex/churnPrediction.ts:187-189 | High exactly above 60, Medium exactly in (30, 60], Low exactly at or below 30 |
| ChurnPrediction.ProbabilityBounds | convex/churnPrediction.ts:186 | the probability is min(score, 95), so it lies in [0, 95]; the uncapped score never exceeds 100 |
| ChurnPrediction.RiskLevelOfFallback | convex/churnPrediction.ts:186-189 | the fallback's risk level agrees with its probability by the three thresholds |
| ChurnPrediction.FallbackListsAligned | convex/churnPrediction.ts:194-196 | both lists have length min(fired rules, 3) and their i-th entries come from the i-th fired rule; the confidence is 75 |
| ChurnPrediction.ScoreMonotoneInFiredRules | convex/churnPrediction.ts:148-186 | if every rule firing for one profile also fires for another, the second has at least the score and probability of the first |
| ChurnPrediction.ProbabilityMonotone | convex/churnPrediction.ts:148-186 | shorter tenure, higher charges, month-to-month, electronic check or being senior never lowers the probability |
| ChurnPrediction.EveryRuleFiring | convex/churnPrediction.ts:148-196 | a profile firing all five possible rules scores 100, is capped to 95 and High, and keeps only the first three factors and recommendations |
| ChurnPrediction.SavePrediction | convex/churnPrediction.ts:217-237 | one history row is appended with the assessment and the current time; earlier rows are untouched |
| ChurnPrediction.WithRiskChangesOnlyRisk | convex/churnPrediction.ts:251-257 | the risk patch sets churnProbability, riskLevel and lastUpdated and leaves every other field as it was |
| ChurnPrediction.UpdateCustomerRisk | convex/churnPrediction.ts:239-259 | the unique customer with the id is patched in place; an absent id changes nothing and succeeds; a duplicated id fails and changes nothing |
| ChurnPrediction.PredictChurnForCustomer | convex/churnPrediction.ts:30-140 | unknown customer: an error and no change; with a model reply: the reply is saved and copied to the customer; without one: the fallback assessment is saved and the customer is left as it was |
| CsvUpload.ToBooleanTruthy | convex/csvUpload.ts:25-33 | a value read as true is always truthy |
| CsvUpload.BooleanWordIgnoresCaseAndPadding | convex/csvUpload.ts:29 | the word compared by toBoolean is the same after lower-casing the input or padding it with whitespace |
| CsvUpload.ToBooleanOfSameWord | convex/csvUpload.ts:28-31 | two strings with the same lower-cased trimmed word coerce to the same boolean |
| CsvUpload.ToBooleanIgnoresCaseAndPadding | convex/csvUpload.ts:25-33 | toBoolean of a string is insensitive to its case and to surrounding whitespace |
| CsvUpload.ParseFloatOfNumeral | convex/csvUpload.ts:38 | parseFloat of the decimal numeral of k is k |
| CsvUpload.ToNumberRoundTrip | convex/csvUpload.ts:36-40 | a numeral string coerces to its value and a number coerces to itself, whatever the default |
| CsvUpload.ToStringValueNonEmpty | convex/csvUpload.ts:43-46 | with a non-empty default the result is never empty, and a non-empty string is kept |
| CsvUpload.ToStringValueOfNumeral | convex/csvUpload.ts:43-46 | a whole number made from a numeral cell comes back from toString as the same numeral, 0 included |
| CsvUpload.AnyTrueIff | convex/csvUpload.ts:53-55 | an `a \|\| b \|\| …` chain of toBoolean over header aliases is true exactly when some alias column reads as true |
| CsvUpload.BooleanAliasesUnordered | convex/csvUpload.ts:53-55 | reordering the alias list does not change a boolean field |
| CsvUpload.SyntheticIdInjective | convex/csvUpload.ts:51 | within one upload, generated ids for different success counts differ |
| CsvUpload.ResolveCustomerId | convex/csvUpload.ts:51 | the id is the first truthy among customerID, customerId and customer_id, else the generated CUST_<time>_<successCount> |
| CsvUpload.DefaultsOfUnrecognisedRow | convex/csvUpload.ts:50-73 | a row none of whose columns is one `normalizedCustomer` reads (a CSV whose headers are all unknown) becomes a customer with every default: generated id, gender Unknown, all flags false, zero numbers, every service "No", Month-to-month, Electronic check, not assessed |
| CsvUpload.DefaultsOfEmptyRow | convex/csvUpload.ts:50-73 | the empty row is such a row and gets the same defaults |
| CsvUpload.UnsetFlags | convex/csvUpload.ts:53-71 | no boolean alias chain is true on a row that has none of its aliases |
| CsvUpload.UnsetService | convex/csvUpload.ts:58-65 | a service field is "No" on a row that has none of its three columns |
| CsvUpload.NumericIdRejected | convex/csvUpload.ts:51-80 | a non-zero number in the customerID column is not a string, so the insert is rejected |
| CsvUpload.IdAndGenderFallbacks | convex/csvUpload.ts:51-75 | with no id and no gender the row is inserted with the generated id and gender Unknown, Senior (age at least 65) or Adult |
| CsvUpload.LoadStep | convex/csvUpload.ts:22-81 | the upload over the first i+1 rows is one more loop iteration after the upload over the first i |
| CsvUpload.LoadCounts | convex/csvUpload.ts:19-79 | the success count is the number of inserted customers and success plus error counts equal the number of rows |
| CsvUpload.LoadedFromRows | convex/csvUpload.ts:22-81 | every inserted customer is the normalisation of some input row |
| CsvUpload.NamedByPosition | convex/csvUpload.ts:51-76 | when a normaliser names a customer by the success count, the i-th inserted customer gets name i |
| CsvUpload.NormalizeWithoutId | convex/csvUpload.ts:51 | a row with no id column that is accepted gets the generated id |
| CsvUpload.StepWithoutId | convex/csvUpload.ts:51 | for a row with no id, the loop step is the same as with the generated-id normaliser |
| CsvUpload.LoadWithoutIds | convex/csvUpload.ts:22-81 | when no row has an id, the upload equals the generated-id upload |
| CsvUpload.SynthesizedIds | convex/csvUpload.ts:51-76 | when no row has an id, the i-th inserted customer is CUST_<time>_i, so the generated ids are pairwise distinct |
| CsvUpload.UploadCsvData | convex/csvUpload.ts:8-90 | the old customers are deleted; the new table, both counters and the processed total are those of the loop over the rows |
| CsvUploadComponent.NonBlankLinesProperties | src/components/CsvUpload.tsx:28 | the kept lines are exactly the pieces between newlines that are not blank after trimming, in order and as many as there are (a repeated line is kept each time), with no newline inside |
| CsvUploadComponent.CleanFieldProperties | src/components/CsvUpload.tsx:36-40 | cleaned fields contain no quote and no comma; each is an in-order subsequence of its trimmed comma-separated piece as long as that piece's non-quote characters, so it is exactly the piece with its quotes removed |
| CsvUploadComponent.TrimIsInfix | src/components/CsvUpload.tsx:36-40 | trimming only drops characters |
| CsvUploadComponent.CellOfNumeral | src/components/CsvUpload.tsx:47-49 | a decimal numeral becomes its number |
| CsvUploadComponent.CellOfBlank | src/components/CsvUpload.tsx:47-49 | a non-empty all-whitespace value becomes the number 0, as Number does |
| CsvUploadComponent.CellOfWord | src/components/CsvUpload.tsx:47-50 | a value starting with a letter stays a string |
| CsvUploadComponent.TrimEndKeepsFirst | src/components/CsvUpload.tsx:47 | trimming the end of a string that starts with a non-space keeps its first character |
| CsvUploadComponent.RowOfKeys | src/components/CsvUpload.tsx:43-52 | the row object's keys are exactly the header names |
| CsvUploadComponent.RowOfLastColumn | src/components/CsvUpload.tsx:43-52 | a header's value is the cell of its last column: a later duplicate header overwrites an earlier one |
| CsvUploadComponent.DataLinesEmpty | src/components/CsvUpload.tsx:39-60 | no row is kept exactly when no data line has the header's width |
| CsvUploadComponent.ParseErrors | src/components/CsvUpload.tsx:30-60 | fewer than two non-blank lines is the first rejection, and two or more lines none of width-matching data is the second, both if-and-only-if |
| CsvUploadComponent.AcceptedRowsProperties | src/components/CsvUpload.tsx:39-55 | the kept lines are the width-matching data lines in order; the i-th row is built from the i-th kept line |
| CsvUploadComponent.ParseRows | src/components/CsvUpload.tsx:28-62 | an accepted file has a header line and between 1 and (lines − 1) rows, built from the data lines under the first line's headers |
| CsvUploadComponent.AcceptedRowsSnoc | src/components/CsvUpload.tsx:39-55 | one more data line adds its row at the end exactly when its width matches |
| CsvUploadComponent.BuildRow | src/components/CsvUpload.tsx:42-53 | the forEach over the headers builds exactly the row object of the line |
| CsvUploadComponent.AcceptRows | src/components/CsvUpload.tsx:38-55 | the loop over the data lines collects exactly the accepted rows |
| CsvUploadComponent.ParseCustomers | src/components/CsvUpload.tsx:28-60 | the imperative parse returns exactly the declarative parse result, errors included |
| CsvUploadComponent.IsCsvFileNameIgnoresCase | src/components/CsvUpload.tsx:20 | the ".csv" test ignores the case of the file name |
| CsvUploadComponent.HandleFiles | src/components/CsvUpload.tsx:16-74 | no file, a non-CSV name, a failed read, a rejected parse and an upload call that throws each leave the customers unchanged with their own outcome; otherwise the store holds the upload's customers and the outcome its counts |
| CsvUploadComponent.HandleLoadTrainingData | src/components/CsvUpload.tsx:102-158 | a failed fetch, a rejected parse and an upload call that throws leave the customers unchanged; otherwise the fetched text is uploaded as for a picked file |
| CsvUploadComponent.ParseAndUpload | src/components/CsvUpload.tsx:28-62 | the shared parse-then-upload step: a rejection or a throwing upload call changes nothing, acceptance replaces the customers with the upload's |
| CustomerListComponent.FilteredIsSubsequence | src/components/CustomerList.tsx:15-23 | the listed customers keep their order and are exactly those that pass the search, risk and churn filters |
| CustomerListComponent.ClearedFiltersKeepAll | src/components/CustomerList.tsx:15-103 | after clearing, every customer is listed in order |
| CustomerListComponent.SearchIgnoresCase | src/components/CustomerList.tsx:16 | the search ignores the case of ASCII letters in the term, and matches exactly when the lower-cased term occurs in the lower-cased id |
| CustomerListComponent.RiskFilterKeepsLevel | src/components/CustomerList.tsx:17 | a non-empty risk filter keeps exactly the customers with that level |
| CustomerListComponent.ChurnFilterCases | src/components/CustomerList.tsx:18-20 | "churned" keeps the churned, "active" the others, any other non-empty value nobody |
| CustomerListComponent.UnknownChurnFilterListsNobody | src/components/CustomerList.tsx:18-20 | an unknown churn filter value empties the list |
| Customers.RateBounds | convex/customers.ts:255-281 | a rate is 0 for an empty group, lies in [0, 100], is 0 with no churned and 100 when all churned |
| Customers.StatisticsTotals | convex/customers.ts:252-255 | total, churned and active counts partition the customers and the churn rate lies in [0, 100] |
| Customers.RiskDistribution | convex/customers.ts:258-260 | the three risk counts are the numbers of customers at each level; with the unassessed ones they add up to the total |
| Customers.ContractStatsBounds | convex/customers.ts:263-283 | each contract group counts its customers, its churned never exceed its total, and its rate lies in [0, 100] |
| Customers.ContractGroupsWithinTotal | convex/customers.ts:263-266 | the three contract groups together never exceed the total |
| Customers.SampleCustomersDistinct | convex/customers.ts:19-212 | there are eight sample customers with pairwise distinct ids, none of them assessed |
| Customers.SampleCustomersFindable | convex/customers.ts:19-212 | each sample customer is found, uniquely, at its own position |
| Customers.GenerateSampleData | convex/customers.ts:7-220 | the customers table is replaced by the eight sample customers and 8 is returned |
| Customers.PatchedChangesOnlySupplied | convex/customers.ts:368-371 | each supplied field is overwritten, each omitted one kept, lastUpdated set, and nothing else changes |
| Customers.PatchedIdempotent | convex/customers.ts:368-371 | applying the same patch twice is the same as once |
| Customers.EmptyUpdateOnlyTouches | convex/customers.ts:368-371 | an update with no fields only refreshes lastUpdated |
| Customers.UpdateCustomer | convex/customers.ts:345-380 | the unique customer is patched in place and a re-prediction for it is scheduled; an absent or duplicated id fails and changes nothing |
| Customers.UpdateKeepsCustomerFindable | convex/customers.ts:359-371 | after the patch the customer is still found, uniquely, at the same position, holding the patched record |
| Customers.SearchCustomers | convex/customers.ts:300-343 | at most 50 results; with a search term they are the first min(hits, 50) hits of the search index in its order |
| Customers.SearchWithoutTerm | convex/customers.ts:326-341 | without a term the result is the first min(matches, 50) customers passing the risk/churned/active filter, in table order |
| RetentionCampaigns.NewCampaignProperties | convex/retentionCampaigns.ts:24-46 | the campaign starts now, ends durationDays × 86 400 000 ms later, is active with no success rate, and targets the number of customers at its risk level |
| RetentionCampaigns.TargetedCountIsSnapshot | convex/retentionCampaigns.ts:30-33 | the targeted count is additive over the customers, so customers added later are not counted |
| RetentionCampaigns.CreateCampaign | convex/retentionCampaigns.ts:12-50 | one campaign is appended and its id CAMP_<time> and targeted count are returned |
| RetentionCampaigns.ActiveCampaignsMembers | convex/retentionCampaigns.ts:62-78 | the active campaigns are exactly those flagged active whose window contains now, in table order |
| RetentionCampaigns.TallyStep | convex/retentionCampaigns.ts:160-173 | one counting step keeps the histogram well formed and records the value |
| RetentionCampaigns.Tally | convex/retentionCampaigns.ts:160-173 | the histogram is well formed and non-empty for a non-empty input |
| RetentionCampaigns.TallyCounts | convex/retentionCampaigns.ts:160-173 | the histogram has a key exactly for each value that occurs, counting its occurrences |
| RetentionCampaigns.SumOverSnoc | convex/retentionCampaigns.ts:160-173 | summing counts over one more key adds that key's count |
| RetentionCampaigns.SumOverAgree | convex/retentionCampaigns.ts:160-173 | sums over keys depend only on those keys' counts |
| RetentionCampaigns.SumOverBump | convex/retentionCampaigns.ts:160-173 | bumping one count raises the sum by one exactly when that key is listed |
| RetentionCampaigns.SumAfterStep | convex/retentionCampaigns.ts:160-173 | one counting step raises the total count by one |
| RetentionCampaigns.TallyTotal | convex/retentionCampaigns.ts:160-173 | the counts of a histogram add up to the number of values |
| RetentionCampaigns.ModeIndex | convex/retentionCampaigns.ts:178-183 | the chosen key has the largest count, and every later key has a strictly smaller one (ties go to the later key) |
| RetentionCampaigns.ModeTieGoesToLater | convex/retentionCampaigns.ts:178-183 | when the last two keys tie at the maximum the last one wins, since the comparison is strict |
| RetentionCampaigns.SumBounds | convex/retentionCampaigns.ts:157-158 | a sum of values within [lo, hi] lies between n·lo and n·hi |
| RetentionCampaigns.MeanBounds | convex/retentionCampaigns.ts:157-158 | an average of values within [lo, hi] lies within [lo, hi] |
| RetentionCampaigns.InternetHistogramCountsEveryone | convex/retentionCampaigns.ts:170-184 | the internet-service histogram counts each customer once and has a key exactly per service that occurs |
| RetentionCampaigns.ModeOfTally | convex/retentionCampaigns.ts:178-183 | the most common value occurs in the input and no value occurs more often |
| RetentionCampaigns.ModeBeats | convex/retentionCampaigns.ts:178-183 | no value of the input occurs more often than the chosen mode |
| RetentionCampaigns.ModeIsLargest | convex/retentionCampaigns.ts:178-183 | the mode is a key of the histogram whose count is at least every other count |
| RetentionCampaigns.MostCommonIsMode | convex/retentionCampaigns.ts:160-183 | the most common contract and the most common payment method occur among the customers and none occurs more often |
| RetentionCampaigns.FallbackOffersShape | convex/retentionCampaigns.ts:188-234 | High gives two offers (25% and 15%), Medium two, any other level one with no discount; effectiveness is always within 1..10 |
| RetentionCampaigns.GenerateFallbackRecommendations | convex/retentionCampaigns.ts:188-234 | the pushes build exactly the offers of the level |
| RetentionCampaigns.EmptySegmentGuard | convex/retentionCampaigns.ts:80-154 | an empty segment gives no offers and count 0 exactly; otherwise the count is the segment size, patterns are analysed, and the offers are the model's or else the fallback's |
| RetentionCampaigns.WithStatusChangesOnlyStatus | convex/retentionCampaigns.ts:265-268 | the patch sets isActive and successRate and nothing else |
| RetentionCampaigns.UpdateCampaignStatus | convex/retentionCampaigns.ts:246-272 | the unique campaign is patched in place; an absent or duplicated id fails and changes nothing |
| RetentionCampaigns.UpdateKeepsCampaignFindable | convex/retentionCampaigns.ts:256-268 | after the patch the campaign is still found, uniquely, at the same position |
| Schema.FindCustomerAfterPatch | convex/schema.ts:6-36 | replacing the found customer by a record with the same id keeps the lookup result |
| Schema.ClearCustomers | convex/csvUpload.ts:14-17 | deleting every customer leaves the table empty |
| Seqs.FindUnique | convex/customers.ts:359-362 | the lookup reports absence exactly when no record matches, the one position when a single record matches, and ambiguity otherwise |
| JsValues.Includes | src/components/CustomerList.tsx:16 | `includes` holds exactly when the needle occurs at some position |
| JsValues.LowerCaseIdempotent | src/components/CustomerList.tsx:16 | lower-casing twice is lower-casing once |
| JsValues.TrimPadding | convex/csvUpload.ts:29 | trim removes a whitespace character at either end |
| JsValues.JoinSplit | src/components/CsvUpload.tsx:28 | splitting on a separator and joining back gives the original text |
| JsValues.Split | src/components/CsvUpload.tsx:28-40 | split gives at least one piece and no piece contains the separator |
| JsValues.StringToNumberOfNatToString | src/components/CsvUpload.tsx:47-48 | Number of the decimal numeral of n is n |
| JsValues.NatToStringInjective | convex/csvUpload.ts:51 | different natural numbers print differently |
| JsValues.ParseFloat | convex/csvUpload.ts:38 | parseFloat of a non-number parses the value's string form |

## Left out

- Authentication (`getAuthUserId` checks): every function is modelled as called by a signed-in user.
- Language-model calls: their replies are `Option` parameters. Prompt construction, JSON extraction and reply
  validation are not modelled.
- `predictChurnForAllCustomers`: the fan-out over every customer is left out. The scheduler call in
  `updateCustomer` is recorded only as the id appended to `scheduledPredictions`.
- `Customers.SearchCustomers`: the full-text index's ranking is not modelled; its hits are a parameter.
- Rounding (`Math.round`) of the overall churn rate and of the two averages in pattern analysis is not modelled. Numbers are
  exact reals; floating point is not modelled.
- The clock is read once per call. Every record inserted in one call therefore gets the same `lastUpdated`
  (in the source, `Date.now()` may advance between the eight sample inserts).
- UI state, toasts, drag and drop and the loading flag are left out. The `catch` arms of both handlers are
  the `Failed` outcome with the customers unchanged: a failed mutation does not commit. Why the mutation
  throws (no signed-in user, a store failure) is not modelled; it is a flag.
- JsValues.LowerCase: folds only the ASCII letters A to Z and keeps the length. JavaScript's `toLowerCase`
  folds every Unicode letter and can change the length. The `.csv` name test and `toBoolean` compare with ASCII
  words only and are not affected.
- CustomerListComponent.SearchIgnoresCase: case is ignored only for ASCII letters, because of the `LowerCase`
  model above. For the id "ÉCOLE-1" and the term "école" the source lists the customer and the model does not.
- RetentionCampaigns.Tally: keys named like members of `Object.prototype` are treated as ordinary keys. This applies
  to `Tally`, `Mode` and `Analyze`, and to `CsvUploadComponent.RowOf` and `RowOfKeys`. In the source, a segment value
  such as "valueOf", "toString" or "constructor" first reads the inherited function. Its count then becomes a
  string, and the comparisons in the mode `reduce` involve NaN. A "__proto__" value is not stored as a key. A
  segment whose values are all "__proto__" makes `Object.keys({}).reduce` throw. A "__proto__" CSV header is
  dropped by the source and kept by `RowOf`.
- Rows that are not flat objects of strings, numbers, booleans, null or undefined are left out.
- `Number` and `parseFloat` support decimal literals only: exponent notation, hexadecimal literals and
  `Infinity` are not modelled.
- The order of `Object.keys`: keys are taken in first-insertion order. JavaScript lists integer-like keys first,
  and that ordering is not modelled.
- Read-only queries that only return a table or index range are not modelled: `getAllCustomers` (ordered by
  creation time, descending), `getCustomerById`, `getLatestPredictions`, `getPredictionsByRisk` and
  `getAllCampaigns`. `getCustomersByRiskLevel` is `RetentionCampaigns.Segment`, with no lemma of its own.
- The `customerInteractions` table is not used by the core and is not modelled.
- Store insert validation is modelled only for the two fields whose type can go wrong (a non-string id or gender).
- `RetentionCampaigns.UpdateCampaignStatus`: an omitted `successRate` is modelled as setting the field to
  absent (`None`), as a Convex patch with an undefined value does.
