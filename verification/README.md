# RiskEval credit-risk core in Dafny

RiskEval scores customers' credit risk:

- A customer fills in a six-section form in the browser (CustomerDashboard.jsx).
- The browser turns the string-valued form into a number-valued feature record and sends it for scoring.
- A scoring server aligns the uploaded table with the columns the classifier was trained on. It then returns one risk label (P1..P4) per row.
- The browser reduces the labels to a single risk level, a credit score, a category and a success rate, and the results page (Results.jsx) shows colour, text, suggestions and credit-factor bars for that level.
- Banks sign up through a four-step onboarding wizard (BankDashboard.jsx).

There are two scoring servers:

- backend/main.py coerces every column to a number, builds equality-based one-hot columns, and fills and projects to a fixed list of 56 feature names;
- ml_model/api.py splits off PROSPECTID, maps EDUCATION to an ordinal, expands four categorical columns with `get_dummies`, and aligns to the booster's own feature names.

The model has one module per concern:

| module | file | models |
|---|---|---|
| `Options` | options.dfy | Option/Result values and map lookup |
| `JsNumbers` | js_numbers.dfy | JavaScript numbers (NaN, ±Infinity, exact reals), truthiness and `Number(text)` |
| `FeatureTransform` | feature_transform.dfy | the feature transform in `handleSubmit` |
| `RiskForm` | risk_form.dfy | the form's sections, cursor and completion flags (class `CustomerForm`) |
| `Interpretation` | interpretation.dfy | majority vote, credit score, category table, success rate, submit outcome |
| `ResultsView` | results_view.dfy | the lookups of the results page |
| `BankWizard` | bank_wizard.dfy | the onboarding wizard as a guarded state machine (class `Dashboard`) |
| `Tables` | tables.dfy | the DataFrame operations both servers share |
| `ScoringServer` | scoring_server.dfy | `process_file` of backend/main.py |
| `ModelApi` | model_api.dfy | `process_file` of ml_model/api.py |

Loops in the source are methods. Each is proved equal to a specification function, and the properties are lemmas about that function. This covers:

- the `forEach` passes of `handleSubmit`;
- the column loops of the servers;
- the label decoding.

State that the source updates in place is a class with `modifies` clauses:

- the React state of the customer form;
- the React state of the bank wizard.

Non-deterministic inputs are parameters:

- the clock is `nowMs`;
- date parsing is `dateMs: string -> Option<int>`;
- each `Math.random()` draw is a real in [0, 1);
- the classifier is an uninterpreted function from a row of cells to an integer class index;
- the label encoder is a sequence of class names.

CustomerDashboard.jsx contains unresolved merge-conflict markers. The model takes the "Updated upstream" side of the `customer_since` step (lines 332-345). It takes the "Stashed changes" side of the interpretation block (lines 429-508).

## Model

| member | source | states |
|---|---|---|
| JsNumbers.NaNToZero | frontend/src/components/CustomerDashboard.jsx:349 | the result is never NaN: NaN becomes 0, and any other number is kept |
| JsNumbers.TrimStart | frontend/src/components/CustomerDashboard.jsx:348 | `Number` ignores leading white space: the result is a suffix of the text that does not start with a space |
| JsNumbers.TrimEnd | frontend/src/components/CustomerDashboard.jsx:348 | `Number` ignores trailing white space: the result is a prefix of the text that does not end with a space |
| JsNumbers.ToNumber | frontend/src/components/CustomerDashboard.jsx:348 | blank text is 0; a finite result from decimal text is exactly the decimal value of the trimmed text |
| JsNumbers.ToNumberOfNatText | frontend/src/components/CustomerDashboard.jsx:348 | round trip: `Number` of the decimal text of n is n |
| FeatureTransform.CategoryCode | frontend/src/components/CustomerDashboard.jsx:320-330 | the code is never negative; it is 0 exactly when the value is not a label of the field's table, "" and a missing field included; otherwise it is the table's code |
| FeatureTransform.Lift | frontend/src/components/CustomerDashboard.jsx:317 | the working copy has exactly the form's keys, each holding the form's text |
| FeatureTransform.EncodeFieldEffect | frontend/src/components/CustomerDashboard.jsx:329 | one round writes a non-negative code into the field, non-zero exactly when the field holds a label of its table; the keys are the old ones plus the field, and every other key is unchanged |
| FeatureTransform.EncodeCategoricals | frontend/src/components/CustomerDashboard.jsx:328-330 | the in-place loop over the four categorical keys computes `Encoded` |
| FeatureTransform.CategoricalKeysDiffer | frontend/src/components/CustomerDashboard.jsx:320-325 | the four categorical keys are MARITALSTATUS, EDUCATION, GENDER and income_segment, and they are pairwise distinct |
| FeatureTransform.EncodedUpToValues | frontend/src/components/CustomerDashboard.jsx:328-330 | after i rounds exactly the first i categorical keys hold their code, and every other key is unchanged |
| FeatureTransform.EncodeRound | frontend/src/components/CustomerDashboard.jsx:328-330 | one more round of the loop encodes one more categorical key from its own label and leaves every other key as it was |
| FeatureTransform.EncodedValues | frontend/src/components/CustomerDashboard.jsx:328-330 | after the loop each categorical key holds its table code or 0, and every other key is unchanged |
| FeatureTransform.SinceDays | frontend/src/components/CustomerDashboard.jsx:334-340 | the day count is finite or NaN; it is NaN exactly when a non-empty customer_since does not parse as a date |
| FeatureTransform.Coerce | frontend/src/components/CustomerDashboard.jsx:346-351 | categorical keys are untouched; every other key becomes a number that is not NaN |
| FeatureTransform.Coerced | frontend/src/components/CustomerDashboard.jsx:346-351 | coercion keeps the key set |
| FeatureTransform.CoerceNumbers | frontend/src/components/CustomerDashboard.jsx:346-351 | the in-place coercion loop computes `Coerced` |
| FeatureTransform.OrZero | frontend/src/components/CustomerDashboard.jsx:356-367 | `x \|\| 0`: the value when present and truthy, otherwise 0 |
| FeatureTransform.Indicator | frontend/src/components/CustomerDashboard.jsx:369-386 | the indicator is 1 exactly when the key is present and strictly equal to the expected value, otherwise 0 |
| FeatureTransform.Overlay | frontend/src/components/CustomerDashboard.jsx:354-387 | the overlay's keys are exactly the defaulted features and the one-hot features |
| FeatureTransform.Sanitized | frontend/src/components/CustomerDashboard.jsx:390-395 | sanitation keeps the keys, and afterwards every value is a number that is not NaN |
| FeatureTransform.SanitizeNumbers | frontend/src/components/CustomerDashboard.jsx:390-395 | the in-place sanitation loop computes `Sanitized` |
| FeatureTransform.ConvertCustomerSince | frontend/src/components/CustomerDashboard.jsx:334-340 | customer_since is replaced by the day count, and nothing else changes |
| FeatureTransform.TransformFormData | frontend/src/components/CustomerDashboard.jsx:310-395 | the whole imperative pipeline computes `Transform` |
| FeatureTransform.Transform | frontend/src/components/CustomerDashboard.jsx:310-395 | every value of the record sent for scoring is a number other than NaN |
| FeatureTransform.LabelCode | frontend/src/components/CustomerDashboard.jsx:320-330 | a categorical field's code is 0 exactly when its text is absent from the table |
| FeatureTransform.ProcessedValues | frontend/src/components/CustomerDashboard.jsx:317-351 | keys after steps 1-3; each categorical key holds its code; customer_since holds the day count with NaN as 0; every other key holds `Number` of its text with NaN as 0 |
| FeatureTransform.ProcessedCode | frontend/src/components/CustomerDashboard.jsx:328-351 | a categorical key still holds its table code after the coercion step |
| FeatureTransform.TransformKeysAndNumbers | frontend/src/components/CustomerDashboard.jsx:354-395 | the sent record has the form's keys plus the fixed derived keys, and every value is a number that is not NaN |
| FeatureTransform.OverlayIsSanitary | frontend/src/components/CustomerDashboard.jsx:354-395 | over a record of non-NaN numbers every overlay value already passes sanitation |
| FeatureTransform.SanitationIsIdentity | frontend/src/components/CustomerDashboard.jsx:390-395 | the final sanitation pass changes nothing |
| FeatureTransform.OverlayKeysAreNew | frontend/src/components/CustomerDashboard.jsx:354-387 | no categorical key and not customer_since is overwritten by a default or an indicator |
| FeatureTransform.TransformCategoricals | frontend/src/components/CustomerDashboard.jsx:320-330 | in the sent record each categorical key holds its table code, or 0 for an absent label |
| FeatureTransform.TransformPassThrough | frontend/src/components/CustomerDashboard.jsx:346-351 | every other form key reaches the sent record as `Number` of its text, with NaN as 0 |
| FeatureTransform.TransformCustomerSince | frontend/src/components/CustomerDashboard.jsx:334-340 | customer_since is sent as the day count, with an invalid date as 0 |
| FeatureTransform.DefaultSourcesArePlain | frontend/src/components/CustomerDashboard.jsx:356-367 | every defaulted feature reads a plain numeric field |
| FeatureTransform.DefaultsNotIndicated | frontend/src/components/CustomerDashboard.jsx:354-387 | no key is both defaulted and one-hot |
| FeatureTransform.TransformDefault | frontend/src/components/CustomerDashboard.jsx:356-367 | each defaulted feature is its source field's number, or 0 when that is falsy |
| FeatureTransform.DelinquencySource | frontend/src/components/CustomerDashboard.jsx:360 | recent_level_of_deliq is taken from max_recent_level_of_deliq |
| FeatureTransform.TransformDefaults | frontend/src/components/CustomerDashboard.jsx:356-367 | all defaulted features together, recent_level_of_deliq from max_recent_level_of_deliq |
| FeatureTransform.TransformIndicator | frontend/src/components/CustomerDashboard.jsx:369-386 | each one-hot feature is the strict-equality indicator of its source on the coerced record |
| FeatureTransform.ProductIndicatorsAlwaysZero | frontend/src/components/CustomerDashboard.jsx:375-386 | the twelve product-enquiry indicators compare a number with a string, so they are always 0 |
| FeatureTransform.MaritalCodes | frontend/src/components/CustomerDashboard.jsx:321 | the marital code is 2 exactly for "Married" and 1 exactly for "Single" |
| FeatureTransform.GenderCodes | frontend/src/components/CustomerDashboard.jsx:323 | the gender code is 2 exactly for "Female" and 1 exactly for "Male" |
| FeatureTransform.MaritalIndicators | frontend/src/components/CustomerDashboard.jsx:370-371 | MARITALSTATUS_Married is 1 exactly for "Married" and MARITALSTATUS_Single exactly for "Single", so at most one of them is 1 |
| FeatureTransform.GenderIndicators | frontend/src/components/CustomerDashboard.jsx:372-373 | GENDER_F is 1 exactly for "Female" and GENDER_M exactly for "Male", so at most one of them is 1 |
| FeatureTransform.OptionsAreNotLabels | frontend/src/components/CustomerDashboard.jsx:1553-1573 | no option of the GENDER select ("F", "M") and no option of the EDUCATION select is a label of its field's table |
| FeatureTransform.FormOptionsEncodeToZero | frontend/src/components/CustomerDashboard.jsx:321-373 | a GENDER chosen in the form is encoded as 0 and leaves GENDER_F and GENDER_M at 0; an EDUCATION chosen in the form is encoded as 0 |
| FeatureTransform.InfinityText | frontend/src/components/CustomerDashboard.jsx:348 | `Number("Infinity")` is +Infinity |
| FeatureTransform.InfinityPassesSanitation | frontend/src/components/CustomerDashboard.jsx:390-395 | a field typed as "Infinity" is sent as +Infinity: sanitation checks NaN only, not finiteness |
| RiskForm.IndexOf | frontend/src/components/CustomerDashboard.jsx:521-522 | the index is inside the six-section list, at the section's position |
| RiskForm.SectionFieldsAreFormFields | frontend/src/components/CustomerDashboard.jsx:290-297 | every section requires at least one field, and every required field is a key of the initial form |
| RiskForm.InitialFormNotFilled | frontend/src/components/CustomerDashboard.jsx:230-299 | no section of the initial, empty form counts as filled |
| RiskForm.CompletedAfterChange | frontend/src/components/CustomerDashboard.jsx:299-307 | a set flag stays set; only the active section's flag can change; it is set when the section is filled in the record before the keystroke, and nothing changes otherwise |
| RiskForm.InitialFormData | frontend/src/components/CustomerDashboard.jsx:230-284 | every form field starts present and empty |
| RiskForm.NextSection | frontend/src/components/CustomerDashboard.jsx:520-526 | one section forward, or no change on the last section |
| RiskForm.PreviousSection | frontend/src/components/CustomerDashboard.jsx:528-534 | one section back, or no change on the first section |
| RiskForm.NextPreviousRoundTrip | frontend/src/components/CustomerDashboard.jsx:520-534 | Previous undoes Next except from the last section; Next undoes Previous except from the first |
| RiskForm.NextTimesWalksTheList | frontend/src/components/CustomerDashboard.jsx:520-526 | n presses of Next from the first section reach section min(n, 5) |
| RiskForm.NoneCompletedCoversAll | frontend/src/components/CustomerDashboard.jsx:135-142 | the initial completion flags name all six sections, all false |
| RiskForm.CompletionFlags | frontend/src/components/CustomerDashboard.jsx:299-307 | a flag only goes from false to true; only the active section's flag can change; it is set iff it already was or every field of the section is non-empty in the record before the keystroke |
| RiskForm.LastKeystrokeIsNotSeen | frontend/src/components/CustomerDashboard.jsx:286-307 | typing the last missing field of a section does not complete it, because the check reads the old record |
| RiskForm.CustomerForm.constructor | frontend/src/components/CustomerDashboard.jsx:132-284 | the first section is active, no section is completed, and every field is empty |
| RiskForm.CustomerForm.HandleChange | frontend/src/components/CustomerDashboard.jsx:286-308 | the field gets the value; the flags are those computed from the old record; the active section is unchanged |
| RiskForm.CustomerForm.HandleNext | frontend/src/components/CustomerDashboard.jsx:520-526 | the cursor moves as `NextSection`, and the record and flags are unchanged |
| RiskForm.CustomerForm.HandlePrevious | frontend/src/components/CustomerDashboard.jsx:528-534 | the cursor moves as `PreviousSection`, and the record and flags are unchanged |
| Interpretation.Count | frontend/src/components/CustomerDashboard.jsx:440-443 | a label's count is at most the number of predictions, and it is positive iff the label occurs |
| Interpretation.FirstIndex | frontend/src/components/CustomerDashboard.jsx:440-443 | the first position at which the label occurs |
| Interpretation.Labels | frontend/src/components/CustomerDashboard.jsx:440-443 | the accumulator's keys are the labels that occur, each once |
| Interpretation.LabelsInFirstOccurrenceOrder | frontend/src/components/CustomerDashboard.jsx:440-443 | the accumulator's keys are in the order of first occurrence |
| Interpretation.Entries | frontend/src/components/CustomerDashboard.jsx:445 | `Object.entries` pairs each label with its count, in key order |
| Interpretation.TopIndex | frontend/src/components/CustomerDashboard.jsx:446 | the head after the stable descending sort has the largest count and comes first among the ties |
| Interpretation.MostFrequent | frontend/src/components/CustomerDashboard.jsx:445-446 | the chosen level is one of the predictions |
| Interpretation.MostFrequentIsFirstMode | frontend/src/components/CustomerDashboard.jsx:445-446 | the chosen level occurs, no label occurs more often, and among equally frequent labels it occurs first |
| Interpretation.Drawn | frontend/src/components/CustomerDashboard.jsx:452 | `Math.floor(r * (hi - lo) + lo)` lies in lo..hi-1 |
| Interpretation.Score | frontend/src/components/CustomerDashboard.jsx:449-462 | P1 740-849, P2 670-738, P3 580-668, P4 300-578, any other label 0 |
| Interpretation.CreditScores | frontend/src/components/CustomerDashboard.jsx:449-462 | one score per prediction, each drawn for its own label |
| Interpretation.SumBounds | frontend/src/components/CustomerDashboard.jsx:464 | the sum of n scores in lo..hi lies in n*lo..n*hi |
| Interpretation.RoundedMeanBounds | frontend/src/components/CustomerDashboard.jsx:464 | the rounded mean of scores in lo..hi lies in lo..hi |
| Interpretation.CreditScore | frontend/src/components/CustomerDashboard.jsx:464 | the credit score lies in 0..849 |
| Interpretation.CreditScoreRange | frontend/src/components/CustomerDashboard.jsx:449-464 | when every prediction is the same known level, the credit score lies in that level's range |
| Interpretation.Assess | frontend/src/components/CustomerDashboard.jsx:467-492 | eligible exactly for P1 and P2 |
| Interpretation.AssessmentTable | frontend/src/components/CustomerDashboard.jsx:467-492 | category "Unknown" and description "Unable to determine risk profile" exactly for labels outside P1..P4; distinct known levels get distinct categories and distinct descriptions |
| Interpretation.SuccessRate | frontend/src/components/CustomerDashboard.jsx:503 | 75-94 when eligible, 40-73 otherwise |
| Interpretation.Interpret | frontend/src/components/CustomerDashboard.jsx:440-507 | the shown level is one of the predictions, the predictions are passed on, the score lies in 0..849, and eligibility holds exactly for P1 and P2 |
| Interpretation.InterpretationConsistent | frontend/src/components/CustomerDashboard.jsx:440-503 | the shown level occurs, no label occurs more often, and among ties it occurs first; eligible iff P1 or P2; category Unknown iff the level is not P1..P4; score in 0..849, and in the level's range when all predictions agree; success rate in its band; the predictions are passed on |
| Interpretation.ReplyError | frontend/src/components/CustomerDashboard.jsx:417-427 | no error exactly when the reply is ok and carries a non-empty predictions list |
| Interpretation.SubmitAsWritten | frontend/src/components/CustomerDashboard.jsx:417-514 | as written, every reply ends in an error message starting "Failed to process form data: " |
| Interpretation.Submit | frontend/src/components/CustomerDashboard.jsx:417-514 | results are shown exactly for an ok reply with a non-empty predictions list, and they carry those predictions; otherwise an error message starting "Failed to process form data: " |
| Interpretation.SubmitAsWrittenNeverShowsResults | frontend/src/components/CustomerDashboard.jsx:495 | as written, a good reply also ends in an error message, because `navigate` is not defined |
| Interpretation.SubmitOutcomes | frontend/src/components/CustomerDashboard.jsx:417-514 | results are shown iff the reply is ok with predictions, carrying the interpretation; otherwise the server's detail or the fixed message is shown |
| BankWizard.Offered | frontend/src/components/BankDashboard.jsx:49-313 | before the wizard opens only the download button is on screen; on step 4 only Back is |
| BankWizard.NextStep | frontend/src/components/BankDashboard.jsx:17-35 | Continue advances the step by at most one, only past a step whose requirement is met; a Continue that does not advance changes nothing but the payment flag, and never clears it |
| BankWizard.Apply | frontend/src/components/BankDashboard.jsx:13-39 | an offered action moves the step by at most one and never hides the steps or clears the payment |
| BankWizard.ApplyKeepsInv | frontend/src/components/BankDashboard.jsx:13-39 | every offered action keeps the invariant, moves the step by at most one, and never clears paymentCompleted or showSteps |
| BankWizard.ContinueGuards | frontend/src/components/BankDashboard.jsx:17-35 | Continue leaves step 1 iff both bank fields are non-empty, leaves step 2 iff the agreement is checked, at step 3 first only records the payment and the next Continue reaches step 4; a Continue that does not advance changes nothing but the payment flag |
| BankWizard.Run | frontend/src/components/BankDashboard.jsx:13-39 | over any sequence of clicks the steps stay shown and a payment stays made once they are |
| BankWizard.RunKeepsInv | frontend/src/components/BankDashboard.jsx:17-39 | any sequence of offered actions keeps the invariant and never resets paymentCompleted |
| BankWizard.ReachableStatesAreValid | frontend/src/components/BankDashboard.jsx:153-217 | in every reachable state the step is 1..4, step 2 and later have non-empty bank details, and step 3 and later have the agreement checked |
| BankWizard.DownloadIsReachable | frontend/src/components/BankDashboard.jsx:13-35 | step 4 is reachable from the initial state |
| BankWizard.Dashboard.constructor | frontend/src/components/BankDashboard.jsx:6-11 | the initial state: steps hidden, step 1, empty fields, nothing checked or paid |
| BankWizard.Dashboard.HandleStartDownload | frontend/src/components/BankDashboard.jsx:13-15 | the new state is the state machine's step for StartDownload, and the invariant is kept |
| BankWizard.Dashboard.HandleNextStep | frontend/src/components/BankDashboard.jsx:17-35 | the new state is the state machine's step for Continue, and the invariant is kept |
| BankWizard.Dashboard.HandlePreviousStep | frontend/src/components/BankDashboard.jsx:37-39 | the new state is the state machine's step for Back, and the invariant is kept |
| BankWizard.Dashboard.SetBankName | frontend/src/components/BankDashboard.jsx:168 | the bank name is edited (offered on step 1 only), and the invariant is kept |
| BankWizard.Dashboard.SetBankId | frontend/src/components/BankDashboard.jsx:181 | the bank id is edited (offered on step 1 only), and the invariant is kept |
| BankWizard.Dashboard.ToggleAgreementBox | frontend/src/components/BankDashboard.jsx:214 | the agreement box flips (offered on step 2 only), and the invariant is kept |
| BankWizard.Dashboard.ProcessPaymentButton | frontend/src/components/BankDashboard.jsx:246 | the payment button marks the payment done (step 3 only), and the invariant is kept |
| ResultsView.RiskColor | frontend/src/components/Results.jsx:14-23 | the colour is one of the four level colours or the grey fallback, and a known level is never grey |
| ResultsView.RiskDescription | frontend/src/components/Results.jsx:38-51 | the text is one of the four level texts or the unknown text, and a known level never gets the unknown text |
| ResultsView.SpecificSuggestions | frontend/src/components/Results.jsx:62-87 | a known level gets three or four specific suggestions; anything else gets none |
| ResultsView.FallbackLookups | frontend/src/components/Results.jsx:15-51 | the colour is '#757575' and the text is the unknown text exactly for inputs outside P1..P4, an absent level included |
| ResultsView.KnownLevelsAreDistinguished | frontend/src/components/Results.jsx:15-51 | the four levels get four different colours and four different descriptions |
| ResultsView.Suggestions | frontend/src/components/Results.jsx:87 | the four common suggestions in order, followed by the level's specific ones |
| ResultsView.SuggestionCounts | frontend/src/components/Results.jsx:62-87 | 7 suggestions for P1/P2, 8 for P3/P4, only the 4 common ones otherwise |
| ResultsView.FactorScore | frontend/src/components/Results.jsx:29-33 | a bar is at most 100; it is 0 for a zero score; uncapped it is score * weight / 8.5 |
| ResultsView.CreditFactors | frontend/src/components/Results.jsx:26-35 | five bars in the fixed name order, each at most 100, all 0 when the score is missing |
| ResultsView.CreditFactorsShareTheScore | frontend/src/components/Results.jsx:27-34 | for a score in 0..850 no bar is capped, and the bars sum to the score as a percentage of 850 |
| Tables.SetColumn | backend/main.py:74 | `df[name] = values` replaces the column in place or appends it, and the frame stays well formed |
| Tables.DropColumns | backend/main.py:82 | exactly the named columns disappear, and the rest keep their cells |
| Tables.Select | backend/main.py:109 | `df[names]` has exactly those columns in that order, with their cells |
| Tables.Predictions | backend/main.py:118 | one prediction per row, each the classifier applied to that row in column order (also ml_model/api.py:92) |
| Tables.FilledCells | backend/main.py:104-106 | the fill loop adds exactly the missing required columns, as zeros, and changes no existing column |
| Tables.FillMissing | backend/main.py:104-106 | the imperative fill loop computes `Filled` |
| Tables.AlignedColumns | backend/main.py:104-109 | alignment yields exactly the required columns in order: present ones keep their cells, missing ones are zeros, extras are gone |
| Tables.Aligned | backend/main.py:104-109 | the aligned frame is well formed, has exactly the required columns in order, and keeps the height |
| ScoringServer.ToNumeric | backend/main.py:67 | `to_numeric(errors='coerce').fillna(0)` on one cell: numbers are kept, blanks become 0, parseable text becomes its value, and anything else becomes 0 |
| ScoringServer.NumericColumnIdempotent | backend/main.py:65-67 | coercing a coerced column changes nothing |
| ScoringServer.CoercedShape | backend/main.py:65-67 | after coercion every cell is a number, and the columns and height are unchanged |
| ScoringServer.CoercedStep | backend/main.py:65-67 | round i of the loop coerces exactly column i |
| ScoringServer.CoercedBounds | backend/main.py:65-67 | the loop starts from the upload and ends at `Coerced` |
| ScoringServer.CoerceColumns | backend/main.py:65-67 | the column loop computes `Coerced` |
| ScoringServer.Indicator | backend/main.py:74-79 | `(col == v).astype(int)`: 1 exactly where the cell equals v, otherwise 0 |
| ScoringServer.IndicatorNames | backend/main.py:74-82 | the four indicator names are distinct and are not the source columns |
| ScoringServer.WithIndicator | backend/main.py:74 | one indicator column is added from its source; nothing else changes |
| ScoringServer.WithMaritalIndicators | backend/main.py:74-75 | Married marks MARITALSTATUS == 2 and Single marks 1 |
| ScoringServer.WithGenderIndicators | backend/main.py:78-79 | GENDER_F marks GENDER == 2 and GENDER_M marks 1 |
| ScoringServer.WithIndicators | backend/main.py:74-79 | the four indicator columns are added, and every other column is unchanged |
| ScoringServer.Expanded | backend/main.py:74-82 | a successful expansion keeps the height |
| ScoringServer.Prepared | backend/main.py:61-109 | a prepared frame has exactly the 56 required columns, in order, and the upload's height |
| ScoringServer.Wrap | backend/main.py:129 | numpy indexing: a non-negative index as is, a negative one from the end |
| ScoringServer.FirstOutOfBounds | backend/main.py:129 | the first raw prediction that numpy cannot index with |
| ScoringServer.Decode | backend/main.py:128-135 | decoding succeeds exactly when every prediction is a valid numpy index into the classes, with one class name per prediction; otherwise status 400 |
| ScoringServer.PrepareFrame | backend/main.py:61-109 | the imperative preparation computes `Prepared` |
| ScoringServer.PredictRows | backend/main.py:118 | the prediction loop computes `Tables.Predictions` |
| ScoringServer.DecodePredictions | backend/main.py:128-135 | the decoding loop computes `Decode` |
| ScoringServer.ProcessFile | backend/main.py:47-145 | the handler computes `Serve` |
| ScoringServer.Serve | backend/main.py:46-145 | a reply holds one class name per uploaded row and needs a loaded model; every failure has status 400 or 500 |
| ScoringServer.ServeErrors | backend/main.py:48-79 | no model gives 500 "Model not loaded"; an empty upload gives 400 "Received empty dataset"; a missing MARITALSTATUS or GENDER gives 400 with pandas' KeyError text |
| ScoringServer.SourcesAreNotFeatures | backend/main.py:85-101 | MARITALSTATUS and GENDER are not required features |
| ScoringServer.IndicatorsAreFeatures | backend/main.py:95-96 | the four indicators are required features |
| ScoringServer.ExpandedFrame | backend/main.py:74-82 | expansion adds the indicators and then drops the two sources |
| ScoringServer.ExpandedKeys | backend/main.py:74-82 | after expansion the columns are the upload's plus the indicators, minus the sources, all numeric |
| ScoringServer.ExpandedCells | backend/main.py:74-82 | the indicator cells mark the codes, and every other column is unchanged |
| ScoringServer.ExpandedColumns | backend/main.py:74-82 | the keys and cells of the expanded frame together |
| ScoringServer.AlignedNumeric | backend/main.py:104-109 | alignment keeps every cell numeric |
| ScoringServer.PreparedSucceeds | backend/main.py:61-109 | a non-empty upload with both source columns always prepares |
| ScoringServer.PreparedIsAligned | backend/main.py:65-109 | the prepared frame is the alignment of the coerced, expanded upload |
| ScoringServer.AlignedIndicators | backend/main.py:74-109 | after alignment the indicator columns still mark the coerced codes |
| ScoringServer.AlignedPassThrough | backend/main.py:85-109 | after alignment every other required column is the expanded column, or zeros when it was absent |
| ScoringServer.PreparedFeatures | backend/main.py:65-109 | the prepared frame is numeric, has the required columns in order, and its indicators mark the coerced MARITALSTATUS and GENDER codes |
| ScoringServer.PreparedPassThrough | backend/main.py:65-109 | each other required feature is the coerced upload column, or zeros when the upload lacks it |
| ScoringServer.IndicatorsExclusive | backend/main.py:74-79 | in every row at most one of Married/Single and at most one of F/M is 1 |
| ScoringServer.DecodeMeaning | backend/main.py:128-135 | decoding succeeds iff every prediction indexes the classes; then there is one label per prediction, `classes[p]`; otherwise a 400 names the first bad index |
| ScoringServer.ServeDecodes | backend/main.py:117-137 | a served reply is the decoding of the model's predictions on the prepared frame |
| ScoringServer.ServeLabels | backend/main.py:117-137 | one label per uploaded row, each the class of that row's prediction, or the 400 decoding error |
| ScoringServer.DecodeInRange | backend/main.py:129 | in-range predictions decode to `classes[p]`, which are class names |
| ScoringServer.ValidModelLabelsEveryRow | backend/main.py:117-137 | with a model whose outputs index the classes, a good upload gets one class name per row |
| ModelApi.WithoutProspectId | ml_model/api.py:60-61 | only PROSPECTID is removed, and every other column keeps its cells |
| ModelApi.ProspectIds | ml_model/api.py:57 | the ids are present exactly when the upload has a PROSPECTID column, one per row |
| ModelApi.CustomerIds | ml_model/api.py:98 | the captured prospect ids when present and non-empty, otherwise 0..n-1 |
| ModelApi.EducationLevel | ml_model/api.py:65-70 | a cell is missing after the map exactly when it is not one of the seven labels; otherwise the level is 1..4 |
| ModelApi.EducationTable | ml_model/api.py:65-69 | SSC 1, 12TH 2, GRADUATE 3, UNDER GRADUATE 3, POST-GRADUATE 4, OTHERS 1, PROFESSIONAL 3; other spellings and numbers map to missing |
| ModelApi.MappedEducation | ml_model/api.py:70 | EDUCATION is mapped cell by cell, and every other column is unchanged |
| ModelApi.DummyNamesMembers | ml_model/api.py:74 | a column's dummy names are those of its non-missing cells |
| ModelApi.GetDummies | ml_model/api.py:74 | the dummy-expanded frame is well formed and keeps the height |
| ModelApi.GetDummiesKey | ml_model/api.py:74 | the columns after `get_dummies` are the non-categorical columns plus the dummy names |
| ModelApi.GetDummiesCell | ml_model/api.py:74 | a dummy column is the 0/1 column of its label, and any other column is the original |
| ModelApi.DummyNameParts | ml_model/api.py:73-74 | equal dummy names come from the same categorical column and the same label |
| ModelApi.DummyIsNotSource | ml_model/api.py:73-74 | no dummy name is a categorical column's own name |
| ModelApi.AllDummyNamesMembers | ml_model/api.py:73-74 | the dummy names are exactly column_label for every non-missing cell of the four categorical columns |
| ModelApi.SourcesDropped | ml_model/api.py:74 | the four categorical columns are gone after `get_dummies` |
| ModelApi.OthersKept | ml_model/api.py:74 | every other column keeps its cells |
| ModelApi.DummyIndicator | ml_model/api.py:74 | the dummy of a row's value is 1 exactly in the rows whose value has the same label |
| ModelApi.WithDefaults | ml_model/api.py:77-80 | pct_currentBal_all_TL and num_lss_12mts are added as zeros only when absent, and existing columns are untouched |
| ModelApi.Absent | ml_model/api.py:73-74 | the names the frame lacks, in order: none exactly when all are present, all exactly when none is |
| ModelApi.MissingCategoricals | ml_model/api.py:73-74 | the categorical columns the frame lacks: none exactly when `get_dummies` can run, all four exactly when the frame has none of them |
| ModelApi.AbsentFollowsMembership | ml_model/api.py:60-74 | frames with the same columns lack the same names (so dropping PROSPECTID and mapping EDUCATION do not change them) |
| ModelApi.OnlyMaritalStatusMissing | ml_model/api.py:73-74 | a frame lacking only MARITALSTATUS gets the one-element list text |
| ModelApi.OneMissingText | ml_model/api.py:74 | the text for MARITALSTATUS alone is "['MARITALSTATUS'] not in index" in double quotes |
| ModelApi.Defaulted | ml_model/api.py:57-80 | a failure in the steps before alignment is reported with status 500 |
| ModelApi.Prepared | ml_model/api.py:83-92 | a failure in alignment or in the model's dtype check is reported with status 500 |
| ModelApi.FirstUnseen | ml_model/api.py:93 | the first prediction that is not a class index |
| ModelApi.InverseTransform | ml_model/api.py:93 | an unseen index is reported with status 500 |
| ModelApi.Answer | ml_model/api.py:92-99 | a failure in predicting or decoding is reported with status 500 |
| ModelApi.Serve | ml_model/api.py:106-109 | every failure of the handler is reported with status 500 |
| ModelApi.DecodePredictions | ml_model/api.py:93 | the decoding loop computes `InverseTransform` |
| ModelApi.DefaultFrame | ml_model/api.py:57-80 | the imperative steps up to the two defaults compute `Defaulted`, and the captured ids are `ProspectIds` |
| ModelApi.ProcessFile | ml_model/api.py:46-109 | the imperative handler computes `Serve` |
| ModelApi.MissingColumns | ml_model/api.py:70-74 | a missing EDUCATION gives 500 "'EDUCATION'"; missing categorical columns give 500 with pandas' text: the list of the missing names "… not in index", or "None of [Index([…], dtype='object')] are in the [columns]" when all four are missing |
| ModelApi.ServeErrors | ml_model/api.py:83-109 | an earlier failure is the reply; without booster feature names the reply is 500 "'NoneType' object is not iterable" |
| ModelApi.PreparedFrame | ml_model/api.py:83-89 | the frame has exactly the booster's feature names in order and no text; present columns keep their cells and missing ones are zeros |
| ModelApi.TextIsRefused | ml_model/api.py:92 | prediction is refused exactly when the aligned frame still holds text |
| ModelApi.InverseTransformMeaning | ml_model/api.py:93 | decoding succeeds iff every prediction is a class index, and label j is `classes[p_j]` |
| ModelApi.AnswerReply | ml_model/api.py:92-99 | one label per row, each the class of the model's prediction; customer ids are the prospect ids or 0..n-1 |
| ModelApi.ServeReply | ml_model/api.py:57-99 | one prediction and one customer id per row; the ids are the PROSPECTID column when present and the upload is non-empty, otherwise 0..n-1 |

## Left out

- Transport and files are not modelled: `fetch`, FastAPI routing, the upload, and reading, writing and removing the Excel file. Each server receives the parsed sheet as a `Frame`. The browser receives the decoded reply as a `ServerReply`.
- The classifier is an uninterpreted function from a row of cells to a class index. backend/main.py's label classes and ml_model/api.py's label encoder are sequences of names. XGBoost and scikit-learn internals are not modelled.
- `Math.random`, `new Date()` and `new Date(text)` are parameters. Floating-point rounding is not modelled: JavaScript and pandas numbers are exact reals plus NaN and ±Infinity.
- JsNumbers.ToNumber: it models decimal, exponent, "Infinity" and 0x/0o/0b forms exactly. It does not model the rounding of long decimals to the nearest double.
- ScoringServer.ToNumeric: pandas' text parsing is approximated by the same decimal grammar as JavaScript's `Number`. Text pandas reads differently (e.g. "inf" or thousands separators) is not distinguished.
- Boolean columns are not modelled. An Excel cell is a number, a text or empty, and a boolean cell would have to be read as 0/1.
- The exact wording of library exceptions is not modelled:
  - pandas' KeyError texts for a missing EDUCATION column and for missing categorical columns are modelled; the `Index` in the all-missing text is written in pandas' one-line form with dtype `object`, as pandas prints an index of four short names without the string dtype option;
  - XGBoost's dtype refusal is a fixed text;
  - scikit-learn's unseen-label text names the first bad index, not all of them;
  - numpy's index error text names the first bad index.
- ModelApi.GetDummies: pandas orders the new dummy columns by sorted label. The model's order is not pandas' order; that does not reach the reply, because the frame is projected onto the booster's feature names.
- ModelApi.GetDummies: when a dummy name equals a column the sheet already has (a GENDER_M column next to a GENDER column holding "M"), pandas keeps both columns. If that name is a booster feature, the projection selects both and the booster refuses the frame, so the handler replies 500. The model keeps only the dummy column and replies with predictions; it does not capture that 500.
- ModelApi.Label: a numeric category value is named by the integer text of its floor. pandas would write a float such as "1.0".
- ml_model/api.py's startup (`load_model`, lines 27-43) is not modelled. A failed load aborts startup, so `process_file` always runs with a model and an encoder.
- The `alert` calls, `isLoading`, `console` logging and the `setError` display are not modelled. Only the message an error would show is modelled.
- `handleDownload` and `window.open` in BankDashboard.jsx are not modelled. They only open a URL.
- The trade-lines tab of CustomerDashboard.jsx is unreachable and is not modelled.
- Styling, navigation bars, authentication and sessions, the training and data-preparation scripts, and backend/server.js are not part of this model.
- The completion flags only drive the progress display. Submission is not gated on them, in the source or in the model.
- Object keys that JavaScript inherits from `Object.prototype` (such as "constructor") are not modelled as lookup keys. The lookups of the categorical tables, `riskColors` and `specificSuggestions` treat them as absent.

- Interpretation.Labels: the count accumulator is a JavaScript object, modelled as a map whose keys keep their first-occurrence order. JavaScript lists array-index keys (such as "1") first, in ascending order; "__proto__" never becomes an own key; an inherited name such as "constructor" starts from the inherited value instead of 0. None of this is modelled, because the labels are the scoring server's class names P1..P4.
- Interpretation.LabelsInFirstOccurrenceOrder: holds for the model's accumulator; not for JavaScript with array-index, "__proto__" or inherited labels (see Interpretation.Labels).
- Interpretation.Entries: assumes the key order of Interpretation.Labels.
- Interpretation.MostFrequent: assumes the key order and counts of Interpretation.Labels; an inherited label such as "constructor" would give a string count in JavaScript and break the sort.
- Interpretation.MostFrequentIsFirstMode: proved for labels that are ordinary JavaScript keys, as Interpretation.Labels says.
- Interpretation.Interpret: chooses the level with Interpretation.MostFrequent, with the same assumption.
- Interpretation.InterpretationConsistent: its tie-break clause depends on the key order of Interpretation.Labels.

## Findings

| source | as written | input that shows it | evidently intended | confidence | as-written member | corrected member |
|---|---|---|---|---|---|---|
| frontend/src/components/CustomerDashboard.jsx:495 | `navigate('/results', …)` is called, but `navigate` is never defined or imported in the component. The call throws a ReferenceError, which the catch block turns into "Failed to process form data: …" | any successful reply, e.g. ok with predictions ["P1"] | show the results page with the interpreted risk data | not executed | Interpretation.SubmitAsWrittenNeverShowsResults | Interpretation.SubmitOutcomes |
