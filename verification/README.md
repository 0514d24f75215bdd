# Quote Buddy: a verified model of the car-insurance quote flow

Quote Buddy collects the answers needed for a car-insurance quote in one of two ways and then
shows a summary with a price:

- a seven-step form (car details, location and usage, cover start, driver details, additional
  drivers, excess information, cover type), in which each step's Next button is enabled only
  when that step's answers are complete;
- a chatbot that asks fourteen fixed questions one at a time, converts each answer into the
  stored representation, and hands the completed record to the page.

Both write into the same kind of answer record (`QuoteData.Record`), each page keeping its own. The summary reads that record to display the vehicle, the
purpose of use, where the car is garaged, the additional drivers, the chosen cover and a price
taken from a fixed table.

The model is written in Dafny, one module per source file:

| module | file | models |
|---|---|---|
| `Wrappers` | wrappers.dfy | the `Option` type, for results that may be absent (a missing field, a `parseInt` without digits) |
| `QuoteData` | quote_data.dfy | the answer record (`QuoteData` type) and the `{ ...prev, ...data }` update |
| `JsText` | js_text.dfy | the JavaScript built-ins the source relies on: `trim`, `toUpperCase`, `toLowerCase`, `includes`, `split(...)[0]`, `toString` and `parseInt` |
| `CarDetails` | car_details.dfy | step 1 |
| `LocationUsage` | location_usage.dfy | step 2 |
| `CoverStart` | cover_start.dfy | step 3 |
| `DriverDetails` | driver_details.dfy | step 4 |
| `AdditionalDrivers` | additional_drivers.dfy | step 5 |
| `ExcessInfo` | excess_info.dfy | step 6 |
| `CoverType` | cover_type.dfy | step 7 |
| `QuoteSummary` | quote_summary.dfy | the summary and its price table |
| `Wizard` | wizard.dfy | the step-by-step form (`InsuranceQuote.tsx`) |
| `Chatbot` | chatbot.dfy | the chatbot |
| `ChatQuote` | chat_quote.dfy | the page that hosts the chatbot (`InsuranceQuote.jsx`) |

The record is a `map<Field, Value>`. A field the user never answered is absent from the map.
`Value` is a tagged JavaScript value: text, boolean, integral number, NaN, date or driver list.
The record has to be dynamic because the source stores whatever each input hands it. One
example: the chatbot stores text under any field whose question takes typed input.
`Defined` models `!== undefined`, and `Holds` models `!!data.f`.

A step component talks to the form through two callbacks. In the model, each step returns the
update it would send (`...Patch`), or an optional update when it may also move on
(`CarDetails.HandleNext`). The form applies those updates in `Wizard.PressNext` and
`Wizard.InsuranceQuote.ClickNext`.

State that the source updates in place is modelled as classes with `modifies` clauses:

- the form's step, record and summary flag;
- the car step's entry mode;
- the additional-driver list;
- the chatbot's conversation;
- the summary's generation flags;
- the chatbot page.

The form's class is proved against pure transition functions (`Next`, `Prev`, `Update`,
`LeaveSummary`, `PressNext`). The chatbot's class is proved in the same way against functions on
its state value `ChatState`: `Ask`, `StoreAndAdvance`, `OptionClick` and `InputSubmit`. The
lemmas state the properties of those functions. The last of them follows a whole conversation
(`Chatbot.AnswerAll`): after the start button, one option per question hands over a record that
holds exactly the fourteen asked fields.

Behaviours of the code a reader might not expect:

- The cover-start step's validity test only checks that a date is stored. It does not check
  that the date lies in the 42-day window; only the calendar restricts the choice
  (`CoverStart.AnyStoredDateIsValid`).
- The driver step tests `gender`, `age` and `licenseAge` for truthiness, not for being defined.
  An age of 0 or NaN blocks the step (`DriverDetails.IsValid`).
- In every row of the price table the annual premium is exactly 52 weekly premiums
  (`QuoteSummary.AnnualIsFiftyTwoWeeks`). Both figures are still stored as written.
- An age that does not parse is stored as NaN, not rejected with an error.
- The excess estimate counts experience as `age - licenseAge` only when both are stored and
  non-zero. Otherwise it counts 5 years (`ExcessInfo.DrivingExperience`).
- The chatbot's conversions differ from the form's:
  - gender is stored capitalised ("Male"), while the form stores "male";
  - the registration is never asked, so the summary always shows the manual vehicle line;
  - typed text is stored as text even on questions whose form counterpart is a boolean.

## Model

| member | source | states |
|---|---|---|
| QuoteData.Merge | src/components/InsuranceQuote.tsx:66-68 | the merged record has the union of the keys; the update's fields win and every other field keeps its value |
| QuoteData.MergeTwice | src/components/quote-steps/AdditionalDriversStep.tsx:40-43 | two updates in a row equal one update with their union, the later one winning |
| QuoteData.SetChangesOnlyItsField | src/components/quote-steps/LocationUsageStep.tsx:29 | a one-field update adds that field with its new value and leaves every other field as it was |
| QuoteData.NumberValue | src/components/quote-steps/DriverDetailsStep.tsx:46 | what `parseInt` yields is stored as a number exactly when it parsed, otherwise as NaN |
| QuoteData.Truthy | src/components/quote-steps/DriverDetailsStep.tsx:19 | JavaScript truthiness: empty text, `false`, 0 and NaN are falsy; dates and every driver list are truthy |
| QuoteData.Defined | src/components/quote-steps/LocationUsageStep.tsx:15 | `data.f !== undefined`: the field is stored, whatever its value |
| QuoteData.Holds | src/components/quote-steps/CoverStartStep.tsx:22 | `!!data.f`: the field is stored and its value is truthy |
| QuoteData.Set | src/components/quote-steps/DriverDetailsStep.tsx:29 | the one-field update `{ f: v }` holds exactly the field `f`, mapped to `v` |
| JsText.BlankIffAllSpace | src/components/InsuranceChatbot.jsx:211 | `!text.trim()` holds exactly when every character is white space |
| JsText.TrimStartDropsLeadingSpace | src/components/InsuranceChatbot.jsx:211 | dropping leading white space leaves a suffix, drops only white space, and stops at a non-space |
| JsText.ToUpper | src/components/quote-steps/CarDetailsStep.tsx:67 | same length, each character upper-cased |
| JsText.ToUpperIdempotent | src/components/quote-steps/CarDetailsStep.tsx:67 | upper-casing twice equals upper-casing once |
| JsText.ToLower | src/components/InsuranceChatbot.jsx:185 | same length, each character lower-cased |
| JsText.MissingFirstCharNoSubstring | src/components/InsuranceChatbot.jsx:177 | a text lacking the first character of a pattern does not contain the pattern |
| JsText.BeforeFirst | src/components/quote-steps/QuoteSummary.jsx:222 | `split(sep)[0]` is a prefix without the separator, followed in the input by the separator when shorter |
| JsText.BeforeFirstWithoutSep | src/components/quote-steps/QuoteSummary.jsx:222 | a text without the separator is returned whole |
| JsText.NatToString | src/components/quote-steps/CarDetailsStep.tsx:15 | `toString` of a natural number is decimal digits without a leading zero, of length 2 or more exactly from 10 up |
| JsText.DigitsValueOfNatToString | src/components/quote-steps/CarDetailsStep.tsx:15 | reading back the digits of a number's decimal text gives the number |
| JsText.DigitRunIsLongestPrefix | src/components/quote-steps/DriverDetailsStep.tsx:46 | `parseInt` reads the longest prefix of digits: each character before the end of the run is a digit, and the one after it is not |
| JsText.ParseIntOfNatToString | src/components/quote-steps/DriverDetailsStep.tsx:46 | `parseInt` of a natural number's decimal text gives that number |
| JsText.ParseIntWithoutDigits | src/components/quote-steps/AdditionalDriversStep.tsx:113 | text without decimal digits parses to NaN |
| JsText.IsSpace | src/components/InsuranceChatbot.jsx:211 | the characters `trim` and `parseInt` skip: ECMAScript white space and line terminators (properties in `BlankIffAllSpace`) |
| JsText.TrimStart | src/components/InsuranceChatbot.jsx:211 | the input without its leading white space (properties in `TrimStartDropsLeadingSpace`) |
| JsText.HasSubstring | src/components/InsuranceChatbot.jsx:177 | `s.includes(t)`: `t` occurs at some position of `s` (used in `MissingFirstCharNoSubstring`) |
| JsText.ParseInt | src/components/quote-steps/DriverDetailsStep.tsx:46 | `parseInt`: leading white space, an optional sign and `0x` prefix, then the longest run of digits; no digits gives NaN (properties in `DigitRunIsLongestPrefix`, `ParseIntOfNatToString`, `ParseIntWithoutDigits`) |
| CarDetails.CarYears | src/components/quote-steps/CarDetailsStep.tsx:15 | 26 options, entry i is the text of 2025 - i |
| CarDetails.CarYearsRange | src/components/quote-steps/CarDetailsStep.tsx:15 | the options run from "2025" to "2000" |
| CarDetails.CarYearsParse | src/components/quote-steps/CarDetailsStep.tsx:15 | every option parses back to its year and no year is offered twice |
| CarDetails.HandleNext | src/components/quote-steps/CarDetailsStep.tsx:25-37 | an update is sent and the step moves on exactly when the fields of the mode on screen are filled in; the update is the mode as `useRegistration` |
| CarDetails.RegistrationPatch | src/components/quote-steps/CarDetailsStep.tsx:67 | the registration input stores only the upper-cased text |
| CarDetails.RegistrationReentryIsStable | src/components/quote-steps/CarDetailsStep.tsx:67 | typing the stored registration back in leaves the record unchanged |
| CarDetails.ManualModeNeedsAllFour | src/components/quote-steps/CarDetailsStep.tsx:35-37 | year, make, model and body type together make the manual mode valid, whatever else is stored |
| CarDetails.CarDetailsForm.constructor | src/components/quote-steps/CarDetailsStep.tsx:23 | the mode starts as registration exactly when `useRegistration` is truthy in the record |
| CarDetails.CarDetailsForm.SelectMode | src/components/quote-steps/CarDetailsStep.tsx:46 | the mode toggle changes only the local flag, to registration exactly for the value "registration"; the record is untouched |
| CarDetails.IsValid | src/components/quote-steps/CarDetailsStep.tsx:35-37 | the registration mode needs a truthy registration; the manual mode needs all four of year, make, model and body type truthy |
| CarDetails.RegistrationDoesNotReplaceManualFields | src/components/quote-steps/CarDetailsStep.tsx:35-37 | with any one of the four manual answers missing or empty, no stored registration makes the manual mode valid, while the registration mode accepts exactly a non-empty one |
| LocationUsage.AddressPatch | src/components/quote-steps/LocationUsageStep.tsx:29 | the address is stored exactly as typed, alone |
| LocationUsage.FinancePatch | src/components/quote-steps/LocationUsageStep.tsx:41 | `underFinance` is stored as a boolean, true exactly for "yes" |
| LocationUsage.PurposePatch | src/components/quote-steps/LocationUsageStep.tsx:59-73 | the chosen value is stored under `mainPurpose`, alone, and it is "private" or "business" |
| LocationUsage.BusinessPatch | src/components/quote-steps/LocationUsageStep.tsx:87 | `businessRegistered` is stored as a boolean, true exactly for "yes" |
| LocationUsage.AnsweringAllMakesValid | src/components/quote-steps/LocationUsageStep.tsx:15 | answering all four inputs, with a non-empty address, makes the step valid, "no" answers included |
| LocationUsage.EachAnswerIsNeeded | src/components/quote-steps/LocationUsageStep.tsx:15 | removing any one of the four answers, or emptying the address, makes the step invalid |
| LocationUsage.BlankAddressPasses | src/components/quote-steps/LocationUsageStep.tsx:15-29 | an address of spaces is stored untrimmed and passes the check |
| LocationUsage.IsValid | src/components/quote-steps/LocationUsageStep.tsx:15 | a truthy address and purpose, and both yes/no answers stored (properties in `AnsweringAllMakesValid`, `EachAnswerIsNeeded`) |
| CoverStart.MaxDate | src/components/quote-steps/CoverStartStep.tsx:18-20 | the last selectable date is 42 days after today |
| CoverStart.SelectableWindow | src/components/quote-steps/CoverStartStep.tsx:50 | a date is selectable exactly when it lies in the closed interval from today to today + 42 days |
| CoverStart.WindowBoundaries | src/components/quote-steps/CoverStartStep.tsx:50 | today and day 42 are selectable; day 43 and yesterday are not |
| CoverStart.SelectPatch | src/components/quote-steps/CoverStartStep.tsx:49 | selecting stores the chosen date unchanged and nothing else |
| CoverStart.AnyStoredDateIsValid | src/components/quote-steps/CoverStartStep.tsx:22-49 | any stored date makes the step valid, even one outside the window, and other answers are unchanged |
| CoverStart.Disabled | src/components/quote-steps/CoverStartStep.tsx:50 | the calendar disables a date before today or after the window's last day (properties in `SelectableWindow`, `WindowBoundaries`) |
| CoverStart.IsValid | src/components/quote-steps/CoverStartStep.tsx:22 | `!!data.coverStartDate`: some date is stored (property in `AnyStoredDateIsValid`) |
| DriverDetails.AgeOptions | src/components/quote-steps/DriverDetailsStep.tsx:16-17 | 84 options, entry i is i + 16 |
| DriverDetails.AgeOptionsAreSixteenToNinetyNine | src/components/quote-steps/DriverDetailsStep.tsx:16-17 | a number is offered exactly when it lies in 16..99 |
| DriverDetails.GenderPatch | src/components/quote-steps/DriverDetailsStep.tsx:29 | the gender is stored as chosen, alone |
| DriverDetails.AgePatch | src/components/quote-steps/DriverDetailsStep.tsx:46 | the age is stored as `parseInt` of the option |
| DriverDetails.LicenseAgePatch | src/components/quote-steps/DriverDetailsStep.tsx:63 | the licence age is stored as `parseInt` of the option |
| DriverDetails.AccidentsPatch | src/components/quote-steps/DriverDetailsStep.tsx:80 | `hasAccidents` is stored as a boolean, true exactly for "yes" |
| DriverDetails.AgeOptionStoresItsNumber | src/components/quote-steps/DriverDetailsStep.tsx:46-63 | picking the option showing age a stores the number a, for both ages |
| DriverDetails.AnsweredValuesMakeValid | src/components/quote-steps/DriverDetailsStep.tsx:19 | a non-empty gender, non-zero ages and any accident answer make the step valid |
| DriverDetails.AnsweringAllMakesValid | src/components/quote-steps/DriverDetailsStep.tsx:19 | answering the four inputs from their option lists makes the step valid |
| DriverDetails.LicenceAfterAgeStillValid | src/components/quote-steps/DriverDetailsStep.tsx:19 | every non-empty gender with a positive age and a larger licence age, with either accident answer, passes the step |
| DriverDetails.ExperienceShown | src/components/quote-steps/DriverDetailsStep.tsx:98-102 | the panel shows exactly when both ages are numbers of at least 16; the years shown are never negative, at least the age gap, and equal to it when positive |
| DriverDetails.WarningIffShownExperienceBelowTwo | src/components/quote-steps/DriverDetailsStep.tsx:102-103 | the inexperience note shows exactly when the displayed experience is below two years |
| DriverDetails.LicenceAfterAgeShowsZero | src/components/quote-steps/DriverDetailsStep.tsx:102-103 | age 20 licensed at 30 shows 0 years and the note |
| DriverDetails.IsValid | src/components/quote-steps/DriverDetailsStep.tsx:19 | truthy gender, age and licence age, and a stored accident answer (properties in `AnsweredValuesMakeValid`, `LicenceAfterAgeStillValid`) |
| DriverDetails.ShowsExperience | src/components/quote-steps/DriverDetailsStep.tsx:98 | the experience panel shows when both ages are stored numbers of at least 16 (property in `ExperienceShown`) |
| DriverDetails.ShowsInexperienceWarning | src/components/quote-steps/DriverDetailsStep.tsx:103 | the note shows when the raw age difference is below 2 (property in `WarningIffShownExperienceBelowTwo`) |
| AdditionalDrivers.EditChangesOneField | src/components/quote-steps/AdditionalDriversStep.tsx:32-34 | an edit sets its own field of the entry and keeps the other two |
| AdditionalDrivers.FilterOutIndexRemovesOne | src/components/quote-steps/AdditionalDriversStep.tsx:27 | filtering out an index in range removes exactly that entry, keeping the others in order; any other index keeps the list |
| AdditionalDrivers.AgeInput | src/components/quote-steps/AdditionalDriversStep.tsx:113 | the typed age is its parsed value, or 16 when it is NaN or 0; never 0 |
| AdditionalDrivers.ExperienceInput | src/components/quote-steps/AdditionalDriversStep.tsx:126 | the typed experience is its parsed value, or 0 when it is NaN |
| AdditionalDrivers.AgeInputFallbacks | src/components/quote-steps/AdditionalDriversStep.tsx:113-126 | text without digits and "0" give age 16, text without digits gives experience 0, any number's text gives itself |
| AdditionalDrivers.YesNeedsACompleteEntry | src/components/quote-steps/AdditionalDriversStep.tsx:47-48 | after "yes" an empty list blocks the step and one named adult entry unblocks it |
| AdditionalDrivers.NewEntryBlocksUntilNamed | src/components/quote-steps/AdditionalDriversStep.tsx:21-48 | a freshly added entry blocks the step until it is given a name |
| AdditionalDrivers.NoIsAlwaysValid | src/components/quote-steps/AdditionalDriversStep.tsx:47-48 | after "no" the step is valid whatever the list holds, and the young-driver notice is hidden |
| AdditionalDrivers.AdditionalDriversForm.constructor | src/components/quote-steps/AdditionalDriversStep.tsx:18 | the list starts as the stored list, or empty |
| AdditionalDrivers.AdditionalDriversForm.AddDriver | src/components/quote-steps/AdditionalDriversStep.tsx:20-24 | one blank entry (no name, 16, 0) is appended; the same new list is sent as `additionalDrivers` |
| AdditionalDrivers.AdditionalDriversForm.RemoveDriver | src/components/quote-steps/AdditionalDriversStep.tsx:26-30 | an index in range loses exactly that entry, one shorter with the others in order; the same list is sent |
| AdditionalDrivers.AdditionalDriversForm.UpdateDriver | src/components/quote-steps/AdditionalDriversStep.tsx:32-37 | only the edited field of the indexed entry changes; the same list is sent |
| AdditionalDrivers.AdditionalDriversForm.HandleHasDriversChange | src/components/quote-steps/AdditionalDriversStep.tsx:39-45 | "yes" records the answer and keeps the list; "no" also empties the list, locally and in the record |
| AdditionalDrivers.Edited | src/components/quote-steps/AdditionalDriversStep.tsx:34 | `{ ...driver, [field]: value }` for the name, age or experience (property in `EditChangesOneField`) |
| AdditionalDrivers.FilterOutIndex | src/components/quote-steps/AdditionalDriversStep.tsx:27 | `drivers.filter((_, i) => i !== index)` (property in `FilterOutIndexRemovesOne`) |
| AdditionalDrivers.AllComplete | src/components/quote-steps/AdditionalDriversStep.tsx:48 | every entry has a truthy name and an age of at least 16 |
| AdditionalDrivers.IsValid | src/components/quote-steps/AdditionalDriversStep.tsx:47-48 | the yes/no answer is stored, and after "yes" the list is non-empty and complete (properties in `YesNeedsACompleteEntry`, `NewEntryBlocksUntilNamed`, `NoIsAlwaysValid`) |
| AdditionalDrivers.ShowsYoungNotice | src/components/quote-steps/AdditionalDriversStep.tsx:142 | the notice shows after "yes" when some entry is under 25 (property in `NoIsAlwaysValid`) |
| ExcessInfo.MainDriverAge | src/components/quote-steps/ExcessInfoStep.tsx:15 | the stored age, or 25 when it is missing, 0 or NaN |
| ExcessInfo.DrivingExperience | src/components/quote-steps/ExcessInfoStep.tsx:16 | the age gap when both ages are stored and non-zero, otherwise 5 |
| ExcessInfo.TotalExcess | src/components/quote-steps/ExcessInfoStep.tsx:147-150 | the total is 500, 900 or 1300 and below the 1600 unlisted-driver excess; it is 1300 exactly when the main driver is young and inexperienced, 500 exactly when neither |
| ExcessInfo.TotalExamples | src/components/quote-steps/ExcessInfoStep.tsx:147-150 | age 22 licensed at 21 gives 1300; 30 licensed at 20 gives 500; no answers give 500 |
| ExcessInfo.TotalIgnoresAdditionalDrivers | src/components/quote-steps/ExcessInfoStep.tsx:147-150 | replacing the additional-driver list never changes the total |
| ExcessInfo.YoungCardIff | src/components/quote-steps/ExcessInfoStep.tsx:17-51 | the young card shows exactly when the main driver or some listed driver is under 25 |
| ExcessInfo.InexperiencedCardIff | src/components/quote-steps/ExcessInfoStep.tsx:18-73 | the inexperienced card shows exactly when the main driver or some listed driver has under 2 years |
| ExcessInfo.YoungAdditionalDriverOnlyShowsCard | src/components/quote-steps/ExcessInfoStep.tsx:17-51 | a young listed driver shows the card without changing the total |
| ExcessInfo.HasYoungDrivers | src/components/quote-steps/ExcessInfoStep.tsx:17 | some stored additional driver is under 25 |
| ExcessInfo.HasInexperiencedDrivers | src/components/quote-steps/ExcessInfoStep.tsx:18 | some stored additional driver has under 2 years, or the main driver's experience is below 2 |
| ExcessInfo.ShowsYoungCard | src/components/quote-steps/ExcessInfoStep.tsx:51 | the young-driver card shows for a main driver under 25 or a young additional driver (property in `YoungCardIff`) |
| ExcessInfo.ShowsInexperiencedCard | src/components/quote-steps/ExcessInfoStep.tsx:73 | the inexperienced-driver card shows when `HasInexperiencedDrivers` holds (property in `InexperiencedCardIff`) |
| CoverType.OptionIdsDistinct | src/components/quote-steps/CoverTypeStep.tsx:16-81 | four options with distinct ids |
| CoverType.SelectPatch | src/components/quote-steps/CoverTypeStep.tsx:96 | selecting stores the option's id as `coverType` and nothing else |
| CoverType.AtMostOneSelected | src/components/quote-steps/CoverTypeStep.tsx:101 | no two options are marked selected at once |
| CoverType.SelectingMarksExactlyThatOption | src/components/quote-steps/CoverTypeStep.tsx:84-101 | after selecting option k the step is valid and exactly option k is marked |
| CoverType.IsValid | src/components/quote-steps/CoverTypeStep.tsx:84 | `!!data.coverType`: a non-empty cover type is stored (property in `SelectingMarksExactlyThatOption`) |
| QuoteSummary.PriceTable | src/components/quote-steps/QuoteSummary.jsx:31-36 | the four rows: 89/4628, 42/2184, 58/3016, 105/5460 |
| QuoteSummary.UnknownTypeIsComprehensive | src/components/quote-steps/QuoteSummary.jsx:37 | any other cover type is priced as comprehensive |
| QuoteSummary.AnnualIsFiftyTwoWeeks | src/components/quote-steps/QuoteSummary.jsx:31-38 | every row's annual price is 52 weekly prices, and the four cover types have four different rows |
| QuoteSummary.CoverTypeOr | src/components/quote-steps/QuoteSummary.jsx:41 | the stored cover text when it is non-empty, otherwise the fallback (JavaScript `or` on text) |
| QuoteSummary.MissingTypeIsComprehensive | src/components/quote-steps/QuoteSummary.jsx:41 | without a cover type the comprehensive price is quoted |
| QuoteSummary.CoverTypeNameChangesOnlyIds | src/components/quote-steps/QuoteSummary.jsx:21-29 | the displayed name differs from its input exactly for the four ids; "complete-care" ends in the registered sign |
| QuoteSummary.PurposeLabel | src/components/quote-steps/QuoteSummary.jsx:82 | "Private use" exactly when the purpose is "private", otherwise "Business use" |
| QuoteSummary.MissingPurposeShowsBusiness | src/components/quote-steps/QuoteSummary.jsx:82 | an unset purpose is shown as business use |
| QuoteSummary.GaragedAt | src/components/quote-steps/QuoteSummary.jsx:222 | shown exactly when an address is stored, as the address up to its first comma |
| QuoteSummary.GaragedAtWithoutComma | src/components/quote-steps/QuoteSummary.jsx:222 | an address without a comma is shown whole |
| QuoteSummary.AdditionalDriverCount | src/components/quote-steps/QuoteSummary.jsx:112-114 | the count shows exactly when "yes" was answered and a list is stored, and is the list's length |
| QuoteSummary.SummaryView.constructor | src/components/quote-steps/QuoteSummary.jsx:10-11 | neither generating nor generated |
| QuoteSummary.SummaryView.StartGenerating | src/components/quote-steps/QuoteSummary.jsx:13-14 | from the review page, generation starts and the review page stays |
| QuoteSummary.SummaryView.FinishGenerating | src/components/quote-steps/QuoteSummary.jsx:16-43 | generation ends with the quote generated and the review page gone |
| QuoteSummary.QuotePrice | src/components/quote-steps/QuoteSummary.jsx:31-39 | the price table by cover id, with the comprehensive row as default (properties in `PriceTable`, `UnknownTypeIsComprehensive`, `AnnualIsFiftyTwoWeeks`) |
| QuoteSummary.PriceFor | src/components/quote-steps/QuoteSummary.jsx:41 | the price of the stored cover type, comprehensive when none is stored (property in `MissingTypeIsComprehensive`) |
| QuoteSummary.CoverTypeName | src/components/quote-steps/QuoteSummary.jsx:21-29 | the display names of the four ids; other text is shown as it is (property in `CoverTypeNameChangesOnlyIds`) |
| QuoteSummary.CoverTypeLabel | src/components/quote-steps/QuoteSummary.jsx:127 | the name of the stored cover type, or of the empty text when none is stored |
| QuoteSummary.ShowsRegistration | src/components/quote-steps/QuoteSummary.jsx:63 | the vehicle line shows the registration exactly when `useRegistration` is truthy (property in `Chatbot.CompletedRecordShowsManualVehicle`) |
| Wizard.StepIdsCountFromOne | src/components/InsuranceQuote.tsx:51-59 | seven steps whose ids count from 1 |
| Wizard.Update | src/components/InsuranceQuote.tsx:66-68 | an update keeps the step and the summary flag and overwrites exactly the supplied fields |
| Wizard.Next | src/components/InsuranceQuote.tsx:70-76 | `nextStep` never changes the record and moves the step by at most one |
| Wizard.Prev | src/components/InsuranceQuote.tsx:78-82 | `prevStep` never changes the record or the summary flag and moves the step back by at most one |
| Wizard.LeaveSummary | src/components/InsuranceQuote.tsx:87 | leaving the summary clears only the summary flag |
| Wizard.StepStaysInRange | src/components/InsuranceQuote.tsx:62-82 | the step starts at 1 and no operation takes it out of 1..7 |
| Wizard.NextMovesOnOrOpensSummary | src/components/InsuranceQuote.tsx:70-76 | below step 7 Next moves on by one; at step 7 it opens the summary and stays at 7 |
| Wizard.PrevMovesBackOrStays | src/components/InsuranceQuote.tsx:78-82 | above step 1 Prev moves back by one; at step 1 nothing changes |
| Wizard.PrevAfterNext | src/components/InsuranceQuote.tsx:70-82 | from steps 1 to 6, Next then Prev returns to the same state |
| Wizard.LeaveSummaryReturnsToLastStep | src/components/InsuranceQuote.tsx:70-87 | leaving the summary returns to step 7 with every answer kept |
| Wizard.RunStaysInRange | src/components/InsuranceQuote.tsx:62-82 | any run of answers, Backs and Nexts keeps the step in 1..7 and the summary open once opened; Backs and Nexts alone keep every answer |
| Wizard.Forwards | src/components/InsuranceQuote.tsx:70-76 | n presses of Next contain no answer |
| Wizard.ForwardsReachSummary | src/components/InsuranceQuote.tsx:70-76 | n presses of Next advance n steps, stop at 7 and open the summary when they run past it, keeping the record |
| Wizard.SevenNextsReachSummary | src/components/InsuranceQuote.tsx:62-76 | from the start, six presses reach step 7 and a seventh opens the summary |
| Wizard.StatusOf | src/components/InsuranceQuote.tsx:131-134 | an indicator is completed exactly before the current step, current exactly at it, upcoming after it |
| Wizard.ExactlyOneCurrent | src/components/InsuranceQuote.tsx:131-134 | exactly one indicator is current and the completed ones form a prefix |
| Wizard.PressNext | src/components/InsuranceQuote.tsx:70-108 | the Next button never closes the summary and opens it only from step 7 |
| Wizard.PressNextAdvancesIffReady | src/components/InsuranceQuote.tsx:90-108 | on a step, Next moves on exactly when that step's validity test holds |
| Wizard.SummaryNeedsCoverType | src/components/InsuranceQuote.tsx:70-105 | the summary opens only from step 7 with a cover type chosen |
| Wizard.PressNextKeepsAnswers | src/components/InsuranceQuote.tsx:66-93 | Next keeps every answer; on step 1 it adds only `useRegistration` |
| Wizard.InsuranceQuote.constructor | src/components/InsuranceQuote.tsx:62-64 | step 1, empty record, no summary |
| Wizard.InsuranceQuote.UpdateQuoteData | src/components/InsuranceQuote.tsx:66-68 | the state moves as `Update` does, keeping the step in range |
| Wizard.InsuranceQuote.NextStep | src/components/InsuranceQuote.tsx:70-76 | the state moves as `Next` does, keeping the step in range |
| Wizard.InsuranceQuote.PrevStep | src/components/InsuranceQuote.tsx:78-82 | the state moves as `Prev` does, keeping the step in range |
| Wizard.InsuranceQuote.BackFromSummary | src/components/InsuranceQuote.tsx:86-88 | the state moves as `LeaveSummary` does |
| Wizard.InsuranceQuote.ClickNext | src/components/InsuranceQuote.tsx:90-108 | the state moves as `PressNext` does |
| Wizard.StepReady | src/components/InsuranceQuote.tsx:90-108 | the Next button of the rendered step is enabled exactly when that step's `isValid` holds (property in `PressNextAdvancesIffReady`) |
| Chatbot.CountDown | src/components/InsuranceChatbot.jsx:25 | count numbers as text going down from the first |
| Chatbot.CountUp | src/components/InsuranceChatbot.jsx:86 | count numbers as text going up from the first |
| Chatbot.YearLabels | src/components/InsuranceChatbot.jsx:25 | the year select offers 26 labels |
| Chatbot.AgeLabels | src/components/InsuranceChatbot.jsx:86-93 | the age selects offer 84 labels |
| Chatbot.Labels | src/components/InsuranceChatbot.jsx:253-256 | a question shows an empty option list exactly when it has none |
| Chatbot.AskedFields | src/components/InsuranceChatbot.jsx:19-116 | every question's field is among the asked fields |
| Chatbot.QuestionTable | src/components/InsuranceChatbot.jsx:19-116 | 14 questions asking carYear, carMake, carModel, bodyType, address, underFinance, mainPurpose, businessRegistered, gender, age, licenseAge, hasAccidents, hasAdditionalDrivers and coverType in order, each field once |
| Chatbot.TypedQuestionsHaveNoOptions | src/components/InsuranceChatbot.jsx:19-116 | a question is answered by typing exactly when it has no option list |
| Chatbot.FieldsNeverAsked | src/components/InsuranceChatbot.jsx:19-116 | no question asks for a registration, the registration toggle, a cover start date or a driver list |
| Chatbot.YearLabelsMatchWizard | src/components/InsuranceChatbot.jsx:25 | the year options are the form's year options, in the same order |
| Chatbot.AgeLabelsMatchWizard | src/components/InsuranceChatbot.jsx:86-93 | the age options are the form's age options as text |
| Chatbot.YesNoOptionsConvert | src/components/InsuranceChatbot.jsx:174-175 | on the four yes/no questions an option stores `option === 'Yes'` |
| Chatbot.TextAnswersStoredAsGiven | src/components/InsuranceChatbot.jsx:170-221 | on the year, make, model, body-type, address and gender questions an option or typed text is stored unchanged |
| Chatbot.PurposeAnswerConverts | src/components/InsuranceChatbot.jsx:176-177 | the purpose question stores "private" exactly when the option contains "Private", else "business" |
| Chatbot.PrivateLabelMentionsPrivate | src/components/InsuranceChatbot.jsx:65 | the private-use button contains "Private" |
| Chatbot.BusinessLabelLacksPrivate | src/components/InsuranceChatbot.jsx:65 | the business-use button does not contain "Private" |
| Chatbot.PurposeOptionsConvert | src/components/InsuranceChatbot.jsx:176-177 | the private button stores "private" and the business button "business" |
| Chatbot.CoverAnswerConverts | src/components/InsuranceChatbot.jsx:178-185 | the cover question stores the mapped id of the option, or the option lower-cased |
| Chatbot.CoverOptionConverts | src/components/InsuranceChatbot.jsx:179-185 | the cover button at index i stores the cover id at index i |
| Chatbot.CoverOptionsConvert | src/components/InsuranceChatbot.jsx:179-185 | all four cover buttons store their ids, in order |
| Chatbot.CoverIdsAreTheWizardIds | src/components/InsuranceChatbot.jsx:179-185 | the four stored ids are exactly the form's four cover ids, all distinct |
| Chatbot.CoverNamesMatchLabels | src/components/InsuranceChatbot.jsx:179-185 | the summary names each stored id after its button; "Complete Care" gains the registered sign |
| Chatbot.OtherCoverOptionLowerCased | src/components/InsuranceChatbot.jsx:185 | any other option on the cover question is stored lower-cased |
| Chatbot.NumberAnswersParsed | src/components/InsuranceChatbot.jsx:186-219 | on the two age questions an option or typed text is stored as `parseInt` reads it |
| Chatbot.AgeOptionsConvert | src/components/InsuranceChatbot.jsx:186-187 | age option i stores the number i + 16 |
| Chatbot.GenderOptionsDifferFromWizard | src/components/InsuranceChatbot.jsx:79 | the gender buttons store their labels, none of which is a value the form's gender select stores |
| Chatbot.TypedYesNoIsText | src/components/InsuranceChatbot.jsx:215-221 | text typed while a yes/no question is current is stored as text, which is truthy |
| Chatbot.BotText | src/components/InsuranceChatbot.jsx:19-116 | a bot line shows the greeting, the question's text or the closing message |
| Chatbot.Content | src/components/InsuranceChatbot.jsx:147-154 | a user message shows the text the user gave |
| Chatbot.Ask | src/components/InsuranceChatbot.jsx:245-262 | asking question i makes it current, posts its text after the earlier messages, keeps the record and the input, and offers its buttons, or its select, or neither for a typed question |
| Chatbot.Echo | src/components/InsuranceChatbot.jsx:156-159 | a clicked option is posted as a user message and the buttons and select are hidden; nothing else changes |
| Chatbot.Submitted | src/components/InsuranceChatbot.jsx:211-224 | the typed text is posted as a user message and the input is cleared; nothing else changes |
| Chatbot.StoreAndAdvanceKeepsValid | src/components/InsuranceChatbot.jsx:169-222 | storing an answer overwrites only the current question's field and keeps the index in range and the record within the asked fields |
| Chatbot.StoreAndAdvanceMovesOn | src/components/InsuranceChatbot.jsx:193-238 | before the last question the next is asked and nothing is handed over; after it, the closing message is posted and the record handed over holds the answer just given |
| Chatbot.HandlersKeepValid | src/components/InsuranceChatbot.jsx:156-239 | the greeting state is valid and both handlers keep a state valid |
| Chatbot.StartAsksFirstQuestion | src/components/InsuranceChatbot.jsx:156-166 | the start button is echoed, question 0 is asked and nothing is stored |
| Chatbot.OptionAnswersCurrentQuestion | src/components/InsuranceChatbot.jsx:156-208 | any other option is echoed and overwrites only the current field with its converted value; before the last question the next one becomes current |
| Chatbot.BlankInputIgnored | src/components/InsuranceChatbot.jsx:211 | blank typed text changes nothing |
| Chatbot.TypedTextAnswersCurrentQuestion | src/components/InsuranceChatbot.jsx:210-224 | other typed text is echoed, overwrites only the current field and clears the input |
| Chatbot.CompletesOnlyAfterLastQuestion | src/components/InsuranceChatbot.jsx:194-238 | a record is handed over exactly when the last question is answered, and it includes that answer |
| Chatbot.FieldsFrom | src/components/InsuranceChatbot.jsx:19-116 | the fields asked from a question on include every later question's field and lie within the asked fields |
| Chatbot.KeysFromStep | src/components/InsuranceChatbot.jsx:190-197 | a record that gains the current field and then every later field holds every field from the current question on |
| Chatbot.AnswerAllStep | src/components/InsuranceChatbot.jsx:156-208 | a run of clicks is the first click followed by the rest, unless the first completes |
| Chatbot.OptionStep | src/components/InsuranceChatbot.jsx:156-208 | one answer adds the current field to the record, then moves to the next question or hands over the record |
| Chatbot.AnswerFirst | src/components/InsuranceChatbot.jsx:156-208 | after the first answer the conversation continues from a state whose record gained the current field, or ends with that state's record |
| Chatbot.AnsweringTheRestCompletes | src/components/InsuranceChatbot.jsx:156-208 | answering every remaining question hands over a record holding the earlier answers plus exactly the fields of the questions answered |
| Chatbot.FieldsFromStart | src/components/InsuranceChatbot.jsx:19-116 | the fields asked from question 0 on are all the asked fields |
| Chatbot.ConversationCollectsEveryAskedField | src/components/InsuranceChatbot.jsx:156-208 | after the start button, one option per question hands over a record holding exactly the fourteen asked fields |
| Chatbot.CoverTypeValue | src/components/InsuranceChatbot.jsx:179-185 | the mapped id of the option, or else the option lower-cased (properties in `CoverOptionConverts`, `OtherCoverOptionLowerCased`) |
| Chatbot.OptionValue | src/components/InsuranceChatbot.jsx:170-188 | the value stored for a clicked option, converted by the current question's field (properties in the `...Convert...` and `...Parsed` lemmas) |
| Chatbot.TypedValue | src/components/InsuranceChatbot.jsx:215-220 | the value stored for typed text: parsed for the two ages, text otherwise (properties in `NumberAnswersParsed`, `TextAnswersStoredAsGiven`, `TypedYesNoIsText`) |
| Chatbot.StoreAndAdvance | src/components/InsuranceChatbot.jsx:190-207 | store the value under the current field, then ask the next question or post the closing message and hand over the record (properties in `StoreAndAdvanceKeepsValid`, `StoreAndAdvanceMovesOn`) |
| Chatbot.OptionClick | src/components/InsuranceChatbot.jsx:156-208 | `handleOptionClick` on the state value (properties in `StartAsksFirstQuestion`, `OptionAnswersCurrentQuestion`, `CompletesOnlyAfterLastQuestion`) |
| Chatbot.InputSubmit | src/components/InsuranceChatbot.jsx:210-239 | `handleInputSubmit` on the state value (properties in `BlankInputIgnored`, `TypedTextAnswersCurrentQuestion`, `CompletesOnlyAfterLastQuestion`) |
| Chatbot.AnswerAll | src/components/InsuranceChatbot.jsx:156-208 | option clicks in turn until the record is handed over (properties in `AnsweringTheRestCompletes`, `ConversationCollectsEveryAskedField`) |
| Chatbot.ChatSession.constructor | src/components/InsuranceChatbot.jsx:10-16 | the greeting, the start button, question 0, an empty record, and a valid state |
| Chatbot.ChatSession.AskQuestion | src/components/InsuranceChatbot.jsx:245-262 | the state moves as `Ask` says |
| Chatbot.ChatSession.StoreAnswer | src/components/InsuranceChatbot.jsx:190-238 | the state moves as `StoreAndAdvance` says, and the record handed over is the one it hands over |
| Chatbot.ChatSession.HandleOptionClick | src/components/InsuranceChatbot.jsx:156-208 | the state stays valid and moves as `OptionClick` says, and the record handed over is the one it hands over |
| Chatbot.ChatSession.TypeInput | src/components/InsuranceChatbot.jsx:383 | typing changes only the input text |
| Chatbot.ChatSession.HandleInputSubmit | src/components/InsuranceChatbot.jsx:210-239 | the state stays valid and moves as `InputSubmit` says, and the record handed over is the one it hands over |
| Chatbot.CompletedRecordShowsManualVehicle | src/components/InsuranceChatbot.jsx:19-116 | a record holding only asked fields never shows the registration line or the driver count in the summary |
| ChatQuote.InsuranceQuote.constructor | src/components/InsuranceQuote.jsx:5-18 | an empty record, and a newly mounted chatbot on screen at its greeting |
| ChatQuote.InsuranceQuote.HandleQuoteComplete | src/components/InsuranceQuote.jsx:9-12 | the received record replaces the stored one wholesale and the summary shows |
| ChatQuote.InsuranceQuote.BackFromSummary | src/components/InsuranceQuote.jsx:14-18 | the record is kept and the chatbot is mounted again as a new conversation at its greeting |
| ChatQuote.InsuranceQuote.ClickOption | src/components/InsuranceQuote.jsx:9-18 | the page's own chatbot moves as `OptionClick` says; the page changes only when that chatbot hands a record over, then holds exactly that record with the summary shown |
| ChatQuote.ChatbotCoverChoiceIsPriced | src/components/quote-steps/QuoteSummary.jsx:31-41 | a chatbot cover choice is priced by its own row; only "Comprehensive" gets the comprehensive price |

## Left out

- Rendering is not modelled: markup, styles, icons, badges, feature text and the advertised price ranges of the cover options.
- Timers are not modelled: the chatbot's typing indicator, scrolling, and its message ids and timestamps. Each handler performs at once what its timers eventually do, in the same order. The windows in which a timer is still pending are therefore not modelled; in one of them the text input is briefly visible before a question's buttons appear.
- React's batched state updates are modelled as immediate assignments.
- The progress percentage is not modelled, because it is floating-point display.
- Calendar arithmetic is simplified. Dates are millisecond timestamps, a day is 86 400 000 ms, and the window is exactly 42 such days. Daylight-saving shifts and the local calendar are out, and so is the date formatting library. `today` is a parameter, because it is a clock reading.
- The internals of the UI widgets (select, radio group, calendar, popover) are not modelled. Each widget is represented by the value it reports.
- The summary's two-second wait is not modelled; only the flag changes around it are.
- `toUpperCase` and `toLowerCase` are modelled for ASCII letters only.
- `parseInt` is modelled on unbounded integers. Its loss of precision beyond 2^53 is not modelled.
- Chatbot.CoverTypeValue: the cover-type lookup object also answers names inherited from `Object.prototype`; only its four own keys are modelled.
- Numbers are read from the record only when stored as numbers. Every writer of `age` and `licenseAge` uses `parseInt`, so only the chatbot's typed text could store something else, and then only under other fields.
- AdditionalDrivers.AdditionalDriversForm.HandleHasDriversChange: the two updates the source sends for "no" are returned as one merged update. `QuoteData.MergeTwice` shows that the merged update has the same effect.
- The form's step components are represented by their updates and validity tests. Each step's local state is passed in where the form needs it: the car step's mode and the additional-driver list.
- The chatbot's `question` guard (`if (question)`) never fails, because the current index always lies in range (`Chatbot.ValidState`). The model has no branch for it.
- The chatbot's question ids are never read and are not modelled.
- A bot message is recorded by the line it posts (greeting, question i, closing); `Chatbot.BotText` gives its words. The buttons and the select on screen are recorded by the name of their option list; `Chatbot.Labels` gives the labels.
- A whole conversation (`Chatbot.AnswerAll`) is modelled only as a run of option clicks. Runs that mix clicks with typed answers are covered one step at a time by the handler lemmas.
