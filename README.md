# SGA prediction form: a Dafny model

This project models the prediction page of the um-sga-prediction web
application. A clinician fills in a form about a pregnancy. "Get Prediction"
then runs these steps in order:

1. A presence check on seven required fields.
2. A range check against a fixed table of plausible values.
3. Rewriting the boolean-like answers to 0 or 1.
4. A request to an imputation service, then a request to a binary classifier
   with the imputed record.

The page shows a processing overlay, an empty row, an error banner, or a
small-for-gestational-age (SGA) or appropriate-for-gestational-age (AGA)
panel, chosen by four flags that the submission sets.

The model has seven modules, one file each:

- `Wrappers` (`wrappers.dfy`): the `Option` type.
- `JsValues` (`js_values.dfy`): each JavaScript value the form can hold is `undefined`, a string or a number. The file models the `<`/`>` comparison of such a value with a number, which goes through the `Number` conversion. It covers trimming, the empty string reading as 0, decimal notation, and NaN making every comparison false.
- `ValidationData` (`validation_data.dfy`): the range table and the list of optional labels of `src/validation/data.ts`, as ordered lists.
- `ContentTable` (`content_table.dfy`): the form table of `src/components/AIModelContentTable.tsx`. This covers the field lists and the input-change handler. It also covers which widget each field gets, the label with its required marker, and the grouping of fields by input type. The grouping is a method with loops over a shared "rendered" set, as in the source.
- `ModelContent` (`model_content.dfy`): the component of `src/components/AIModelContent.tsx`. Its two validators and its normalization are functions. The specification function `Submit` describes a whole submission. The class `AIModelContent` holds the component state as fields, and its method `HandleFormSubmit` is proved to produce exactly what `Submit` describes.
- `ModelPage` (`model_page.dfy`): the page of `src/pages/Model.tsx`. It holds the four flags and `resultRow`.
- `SubmissionProperties` (`submission.dfy`): properties of `Submit` for every form, every required list and table, and every behaviour of the two services.

The two remote services are parameters: functions from the posted record to
`Ok(response)` or `Fail`.

## Model

| member | source | states |
|---|---|---|
| JsValues.NaturalRoundTrip | src/components/AIModelContent.tsx:41 | a string of decimal digits typed into a field converts to the number it spells, so the range comparison sees that number |
| JsValues.NegativeRoundTrip | src/components/AIModelContent.tsx:41 | a minus sign followed by digits converts to the negated number |
| JsValues.FractionBounds | src/components/AIModelContent.tsx:41 | the digits after a decimal point add a fraction in [0, 1) |
| JsValues.DecimalRoundTrip | src/components/AIModelContent.tsx:41 | a typed decimal `w.ds` converts to `w` plus the fraction that `ds` spells |
| JsValues.FemurLengthBoundsTyped | src/validation/data.ts:9 | "4.5" and "9.0", the femur length bounds as typed, convert to 4.5 and 9 |
| JsValues.BlankIsZero | src/components/AIModelContent.tsx:41 | a string of only whitespace (including "") converts to 0, not NaN |
| JsValues.ForeignIsNaN | src/components/AIModelContent.tsx:41 | a string holding an ASCII character that no JavaScript numeric string contains (not white space, digit, sign, point, or a letter of exponents, hex, binary, octal literals or "Infinity") converts to NaN |
| ValidationData.ValidationRange | src/validation/data.ts:1-17 | the range table has fifteen entries, in declaration order |
| ValidationData.OptionalValues | src/validation/data.ts:19-29 | the optional list has nine labels |
| ValidationData.OptionalValuesAreLabels | src/validation/data.ts:19-29 | every optional value is the display label of some table entry |
| ValidationData.OptionalValuesAreNotKeys | src/validation/data.ts:1-29 | no optional value is a field name of the table, because the list holds labels with spaces |
| ValidationData.BoundsOrdered | src/validation/data.ts:2-16 | every entry's minimum is at most its maximum |
| ValidationData.ListedBounds | src/validation/data.ts:9-15 | femur length is bounded by [4.5, 9] and estimated fetal weight by [900, 4000], each with its label |
| ValidationData.KeysDistinct | src/validation/data.ts:1-17 | no field name occurs twice in the table |
| ValidationData.LabelsDistinct | src/validation/data.ts:2-16 | no display label occurs twice in the table |
| ValidationData.LabelIdentifiesEntry | src/validation/data.ts:2-16 | two entries with the same label are the same entry, so a displayed label names one field |
| ContentTable.MaternalFields | src/components/AIModelContentTable.tsx:29-40 | no maternal field is a compulsory field |
| ContentTable.FetusFields | src/components/AIModelContentTable.tsx:42-51 | no fetus field is a compulsory or maternal field |
| ContentTable.DropdownKeys | src/components/AIModelContentTable.tsx:167 | the dropdown keys are the keys of the dropdown table in order, and none is a true/false field |
| ContentTable.DropdownOptions | src/components/AIModelContentTable.tsx:92-102 | a key has options exactly when it is a dropdown key |
| ContentTable.InputChanged | src/components/AIModelContentTable.tsx:9-17 | the changed field now holds the typed string; every other field keeps its value; the key set gains the field |
| ContentTable.RenderInputField | src/components/AIModelContentTable.tsx:104-148 | true/false fields get a true/false select; other dropdown keys get a select with their options; all other fields get a text input whose placeholder says "required" exactly for compulsory fields |
| ContentTable.TrueFalseFieldValues | src/components/AIModelContentTable.tsx:105-117 | a true/false select can put exactly "", "true" or "false" into the form |
| ContentTable.DropdownFieldValues | src/components/AIModelContentTable.tsx:120-136 | a dropdown select can put exactly "" or one of its options into the form |
| ContentTable.SectionFieldsWellNamed | src/components/AIModelContentTable.tsx:53-79 | every field of the three sections has a display name that is non-empty and does not end in '*' |
| ContentTable.RequiredMarkerIffCompulsory | src/components/AIModelContentTable.tsx:156-159 | for a section field, the label ends with the " *" marker exactly when the field is compulsory |
| ContentTable.FirstOfType | src/components/AIModelContentTable.tsx:173-197 | one filter pass keeps exactly the fields of its input type that are not yet rendered |
| ContentTable.FilterUnrendered | src/components/AIModelContentTable.tsx:173-179 | the filter loop returns that pass's result and adds exactly the kept fields to the rendered set |
| ContentTable.OtherTypesIgnored | src/components/AIModelContentTable.tsx:173-197 | fields rendered by a pass of another input type never stop a field of this type |
| ContentTable.GetFieldGroupsByInputType | src/components/AIModelContentTable.tsx:169-199 | the three groups are the fields of each input type, first occurrences only |
| ContentTable.GroupsPartitionFields | src/components/AIModelContentTable.tsx:169-199 | the three groups are pairwise disjoint and together hold every field |
| ContentTable.GroupHasNoDuplicates | src/components/AIModelContentTable.tsx:170-197 | no group holds a field twice |
| ContentTable.GroupPreservesOrder | src/components/AIModelContentTable.tsx:173-197 | each group is a subsequence of the input fields |
| ContentTable.GroupMembership | src/components/AIModelContentTable.tsx:173-197 | a field is in the dropdown, true/false or text group exactly when it is a dropdown key, a true/false field, or neither |
| ModelContent.MissingFields | src/components/AIModelContent.tsx:21 | the missing fields are exactly the required fields that are `undefined` |
| ModelContent.ValidateFormData | src/components/AIModelContent.tsx:20-27 | the presence check passes exactly when no required field is `undefined` |
| ModelContent.ValidateFeatureInRange | src/components/AIModelContent.tsx:29-48 | a value fails exactly when it converts to a number outside the inclusive bounds; NaN passes |
| ModelContent.FailingLabelsPrefix | src/components/AIModelContent.tsx:90-101 | visiting one more entry appends its label exactly when it fails |
| ModelContent.NoFailuresIffAllPass | src/components/AIModelContent.tsx:89-107 | the range check passes exactly when every entry passes |
| ModelContent.LastFailureIsLastLabel | src/components/AIModelContent.tsx:90-101 | the label left displayed is that of a failing entry after which every entry passes |
| ModelContent.ClearedFieldFails | src/components/AIModelContent.tsx:35-47 | a cleared field ("") fails every entry whose minimum is above 0 |
| ModelContent.NonNumericTextPasses | src/components/AIModelContent.tsx:35-47 | text holding a foreign character, which JavaScript reads as NaN, passes every entry |
| ModelContent.OptionalBranchNeverFires | src/components/AIModelContent.tsx:36-40 | the optional-value branch never applies to a field name of the table |
| ModelContent.NormalizeEffect | src/components/AIModelContent.tsx:117-125 | normalization keeps the key set, sends "" and "false" of a predefined key to 0 and "true" to 1, and changes nothing else |
| ModelContent.NormalizeIdempotent | src/components/AIModelContent.tsx:117-125 | normalizing twice is the same as normalizing once |
| ModelContent.SelectedAnswerEncoding | src/components/AIModelContent.tsx:109-125 | an answer from a true/false select is sent as 0/1 when the field is predefined, and as the unchanged string otherwise |
| ModelContent.RewrittenTrueFalseFields | src/components/AIModelContent.tsx:109-115 | of the eight true/false fields, only the two diabetes fields and Smoking are rewritten |
| ModelContent.NotInSections | src/components/AIModelContent.tsx:109-115 | a predefined key that is not a true/false field belongs to no section |
| ModelContent.UnrenderedPredefinedKeys | src/components/AIModelContent.tsx:109-115 | the two hypertension keys are in no form section |
| ModelContent.AIModelContent.constructor | src/components/AIModelContent.tsx:56-59 | the initial state is an empty form, an empty error label and both modals closed |
| ModelContent.AIModelContent.HandleInputChange | src/components/AIModelContentTable.tsx:9-17 | the form becomes the record after the change |
| ModelContent.AIModelContent.CloseRequiredFieldModal | src/components/AIModelContent.tsx:178 | the required-field modal is closed |
| ModelContent.AIModelContent.CloseValueErrorModal | src/components/AIModelContent.tsx:191 | the value-error modal is closed |
| ModelContent.AIModelContent.CheckRanges | src/components/AIModelContent.tsx:89-101 | the loop result says whether no entry failed; the error label is the last failing label; the modal opens when any entry fails |
| ModelContent.AIModelContent.NormalizeFormData | src/components/AIModelContent.tsx:117-125 | the form becomes its normalization, whatever order the keys are visited in |
| ModelContent.AIModelContent.SendRequests | src/components/AIModelContent.tsx:128-141 | the requests sent, the error flag and the SGA flag are those of the two service answers |
| ModelContent.AIModelContent.HandleFormSubmit | src/components/AIModelContent.tsx:61-145 | requests, form, page flags, modals and error label are those of `Submit`; loading ends cleared; a submission is recorded; the page then shows the view `ViewAfter` gives for the submission |
| ModelPage.ResultRow | src/pages/Model.tsx:11-109 | each of the five views is shown for exactly its flag combination; the final null is unreachable |
| ModelPage.AimodelPage.constructor | src/pages/Model.tsx:6-9 | the initial flags show the empty row |
| SubmissionProperties.RequiredFieldsInTable | src/components/AIModelContent.tsx:69-77 | six required fields have a range entry; Gender has none |
| SubmissionProperties.OptionalLabelsNotRequired | src/validation/data.ts:19-29 | the label of a required field's entry is never optional |
| SubmissionProperties.CompulsoryIsRequired | src/components/AIModelContentTable.tsx:19-27 | the fields marked compulsory in the form are exactly the required fields of the submission |
| SubmissionProperties.MissingFieldStopsSubmission | src/components/AIModelContent.tsx:78-86 | with a required field `undefined`, nothing is sent and the form is untouched |
| SubmissionProperties.RangeFailureStopsSubmission | src/components/AIModelContent.tsx:89-107 | with a failing entry, nothing is sent, the form is untouched, and the label shown is that of the last failing entry |
| SubmissionProperties.RequestsIffValid | src/components/AIModelContent.tsx:78-129 | a request is sent exactly when the presence check and every range check pass |
| SubmissionProperties.RequestOrder | src/components/AIModelContent.tsx:117-131 | imputation is sent first with the normalized form; classification follows only after imputation succeeds, with its response |
| SubmissionProperties.ClassificationMapping | src/components/AIModelContent.tsx:131-136 | the result is SGA unless the classifier answered the number 0 |
| SubmissionProperties.RemoteFailureIsFailure | src/components/AIModelContent.tsx:128-141 | once requests are sent, a classification is reached exactly when both services answer |
| SubmissionProperties.ViewAfterSubmission | src/pages/Model.tsx:27-106 | after a submission the page shows the SGA or AGA panel of the classification, otherwise the error banner |

## Left out

- The HTTP calls (axios) are oracle parameters. Their URLs and the check for the environment variables are not modelled.
- The `setTimeout` timers that close the modals after 5 and 3 seconds are not modelled. The close operations are, and a timer firing is a call to them.
- React's batched state updates and re-rendering are left out. The page flags are written directly.
- The `async`/`await` interleaving is left out. A second click during a pending submission is not modelled.
- Numbers are exact reals, not IEEE doubles.
- `Number` conversion covers only decimal notation with an optional sign and point, trimmed of ASCII white space (space, tab, line feed, vertical tab, form feed, carriage return). Exponent notation, hexadecimal, binary (`0b101`) and octal (`0o17`) literals, `Infinity`, and non-ASCII white space (such as U+00A0 or U+2028) read as NaN, although JavaScript converts them to numbers.
- The displayed value `formData[key] || ''` of each widget is left out.
- ContentTable.DropdownOptions: inherited property names such as `constructor` or `toString` count as unlisted keys. In JavaScript `dropdownFields[key]` finds them, and rendering them would throw. Only the section fields are rendered, and none of them is such a name.
- Markup, styling, console logging, and the guideline tables of the result panels are left out.
- `Modal.tsx`, `Card.tsx`, `App.tsx` and `CreateNewPatient.tsx` are not part of this model.
- ModelContent.AIModelContent.NormalizeFormData: visits the keys in an arbitrary order, not the insertion order of `Object.keys`. Its result does not depend on the order.
- The required-field list and the range table are constant fields of the component, fixed by its constructor. The source declares them inside the handler and at module level.
- ValidationData.ValidationRange: its contract states only the size. The entries are stated by ListedBounds, KeysDistinct and LabelsDistinct and by the literal table.
- No concrete end-to-end form is worked through. The submission properties are proved for all forms instead.

Where the code differs from what its documentation suggests, the model follows the code:

- The range check lets `undefined` and non-numeric text pass any field. It only rejects values that convert to a number out of range.
- The optional list holds labels, but the range check compares it against field names. The optional branch therefore never applies.
- Gender is required but has no range entry.
- The range table's key `AmnioticFluidIndex` differs from the form field `AmnioticFluid`, which is a dropdown.
- `EssentialHypertension` and `PregnancyInducedHypertension` are normalized but never rendered.
- Five true/false fields are sent as the strings "true"/"false", not as 0/1.
- The check `validateFormData(...) === false` treats a cleared field ("") as present.
