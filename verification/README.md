# Device protection planner — a verified model of its core

The planner keeps a user's devices and their protection plans. The back end stores
one document per device. Each document holds the owner, descriptive fields, a unique
serial number, purchase and warranty dates, at most one protection plan, the
recommendations generated so far, and the claim history. Its handlers add, list,
update and delete devices, and add or extend a device's plan. They also write a
recommendation prompt from a device's age, its plan's expiry and its claims. The
web client keeps two Redux slices: the fetched device list, and the signed-in user
with the token held in a `jwt` cookie.

The model has these modules:

- `Calendar` — dates as (year, month, day) triples, and `AddMonths`, the month shift
  that `Date.setMonth` performs. The day of the month is kept and any overflow rolls
  into the next month. `InDateRange` says which days a JavaScript Date can hold.
- `Format` — `toDateString` and the decimal texts the prompt prints.
- `ObjectIds` — document identifiers, their 24-digit hexadecimal form and its cast
  back.
- `DeviceModel` — the Mongoose schemas as datatypes and predicates, and the
  unique-serial invariant.
- `DeviceRequests` — the request bodies, with every key optional.
- `DeviceValidation` — the Joi schemas. Each yields the first failing field, and
  each is proved equal to a declarative acceptance predicate.
- `DeviceProjection` — `transformDevice`.
- `Prompt` — `createPrompt`: a method that builds the text with a loop over the
  claims, against a function that specifies it.
- `DeviceController` — a `DeviceStore` class whose map of documents the handler
  methods update. Each method returns the reply the handler sends.
- `DeviceSlice` and `AuthSlice` — each reducer as a function `Next`, plus a `Draft`
  class whose methods assign the slice's fields (and the cookie) in place.

The clock, fresh document identifiers and the language model's text are inputs:

- `now` is a date parameter.
- The device age (in tenths of a year) and the days until the plan expires are
  integer parameters.
- The identifier of an inserted document is a parameter.
- The generated recommendation is an `Option<string>` parameter.

## Model

| member | source | states |
|---|---|---|
| `Calendar.AddMonths` | backend/src/controllers/device/deviceController.ts:222-223 | Shifting a valid date in month index M by n months gives a valid date. Let L be the length of month M+n. The result is in month M+n exactly when the day is at most L, and then it keeps the day. Otherwise it is in month M+n+1 on day (day − L), which is 1 to 3. A day up to 28 always lands exactly. |
| `Calendar.DaysSinceEpochNextDay` | backend/src/controllers/device/deviceController.ts:52 | The day count from 1970-01-01 grows by exactly one from each day to the next, across month ends, year ends and 29 February. |
| `Calendar.DateRangeBounds` | backend/src/controllers/device/deviceController.ts:52 | 1970-01-01 is day 0; the range a JavaScript Date can hold runs from 20 April of year -271821 (day -10^8) up to 12 September 275760, and 13 September 275760 (day 10^8) is the first day outside it. |
| `Calendar.FarShiftLeavesDateRange` | backend/src/controllers/device/deviceController.ts:52 | Shifting 2024-01-15 by 12 months stays within the days a JavaScript Date can hold (10^8 days either side of 1970-01-01); shifting it by 4,000,000 months leaves that range. |
| `Calendar.ShiftMonthsWholeMonths` | backend/src/controllers/device/deviceController.ts:52 | `setMonth(getMonth() + x)` with a non-negative fractional x shifts by the whole part of x. |
| `Calendar.AddMonthsZero` | backend/src/controllers/device/deviceController.ts:223 | Shifting by zero months returns the date unchanged. |
| `Calendar.AddMonthsStrictlyIncreasing` | backend/src/controllers/device/deviceController.ts:223 | More months give a strictly later date. |
| `Calendar.AddMonthsMovesForward` | backend/src/controllers/device/deviceController.ts:223 | Shifting by one month or more gives a strictly later date. |
| `Calendar.AddMonthsComposeWhenDayFits` | backend/src/controllers/device/deviceController.ts:223 | For days up to 28, extending by a then by b equals extending by a+b. |
| `Calendar.AddMonthsNotAdditive` | backend/src/controllers/device/deviceController.ts:223 | From 2023-01-31, one month then one more gives 2023-04-03, but two months at once give 2023-03-31. |
| `Format.DateString` | backend/src/controllers/device/deviceController.ts:283 | `toDateString` output is 15 characters long for years 0 to 9999. |
| `Format.WeekdayNextDay` | backend/src/controllers/device/deviceController.ts:283 | The weekday `toDateString` names advances by one, modulo 7, from each day to the next. |
| `Format.WeekdayAnchors` | backend/src/controllers/device/deviceController.ts:283 | 1 January 1970 is a Thursday and 15 January 2023 a Sunday. |
| `Format.DateStringExample` | backend/src/controllers/device/deviceController.ts:283 | 15 January 2023 is written "Sun Jan 15 2023". |
| `Format.DateStringRoundTrip` | backend/src/controllers/device/deviceController.ts:283 | The text `toDateString` writes parses back to the date. |
| `Format.DateStringInjective` | backend/src/controllers/device/deviceController.ts:283 | Distinct dates get distinct texts. |
| `Format.TenthsText` | backend/src/controllers/device/deviceController.ts:279 | The age text is non-empty, and a whole number of years prints without a fraction. |
| `Format.TenthsTextRoundTrip` | backend/src/controllers/device/deviceController.ts:279 | The age text reads back as the number of tenths. A fractional age has an optional "-", the whole digits, "." and one tenths digit ("2.5", "-0.5"); a whole age has no fraction ("3"). |
| `ObjectIds.IdStringRoundTrip` | backend/src/utils/device.ts:74-75 | The string form of an identifier casts back to the identifier. |
| `ObjectIds.IdStringInjective` | backend/src/utils/device.ts:74-75 | Distinct identifiers have distinct string forms. |
| `ObjectIds.ParseObjectId` | backend/src/controllers/device/deviceController.ts:151 | A string casts to an identifier exactly when it is 24 hexadecimal digits, of either letter case. |
| `ObjectIds.ParseObjectIdPrintsBack` | backend/src/controllers/device/deviceController.ts:151 | The identifier a string casts to prints back as the same 24 digits, up to the case of the letters a to f. |
| `DeviceModel.InsertKeepsUniqueSerials` | backend/src/models/Device.ts:53 | Inserting a new document keeps serial numbers unique exactly when no stored device already has its serial number. |
| `DeviceModel.ReplaceKeepsUniqueSerials` | backend/src/models/Device.ts:53 | Replacing a document keeps serial numbers unique exactly when no other device has the new serial number. |
| `DeviceValidation.First` | backend/src/controllers/device/deviceController.ts:30-33 | The verdict is valid exactly when every check passes; otherwise it is the first failing check. |
| `DeviceValidation.ValidateAddDeviceCorrect` | backend/src/controllers/device/deviceValidation.ts:3-17 | Add-device validation passes exactly when the eight fields are present, the strings are non-empty, the purchase date is not after now, and any plan has a name, a month count from 1 to 2^53 − 1 (fractions allowed) and a list of non-empty strings (possibly empty). |
| `DeviceValidation.ValidateUpdateDeviceCorrect` | backend/src/controllers/device/deviceValidation.ts:25-49 | Update validation passes exactly when the nine fields are present and well formed, and the optional parts are well formed. A plan needs dates, a status of Active or Expired and an `_id`; a claim needs a date, a type and a resolution. |
| `DeviceValidation.ValidateAddPlanCorrect` | backend/src/controllers/device/deviceValidation.ts:55-59 | Add-plan validation passes exactly when there is a name, an integer month count from 1 to 2^53 − 1 and a list of non-empty strings. |
| `DeviceValidation.ValidateExtendPlanCorrect` | backend/src/controllers/device/deviceValidation.ts:61-63 | Extend-plan validation passes exactly when the month count is an integer from 1 to 2^53 − 1. |
| `DeviceValidation.ValidateQueriesCorrect` | backend/src/controllers/device/deviceValidation.ts:20-23 | The recommendation query needs exactly a userId and a deviceId; the device listing query (lines 51-53) needs exactly a userId. |
| `DeviceValidation.UnsafeMonthsRefused` | backend/src/controllers/device/deviceValidation.ts:61-63 | `Joi.number()` refuses a month count beyond the safe integers (10^16, −10^16 − 0.5) with its unsafe-number error, before its integer and minimum rules, and accepts 2^53 − 1. |
| `DeviceValidation.FractionalMonthsOnlyOnAdd` | backend/src/controllers/device/deviceValidation.ts:12-16 | A plan of 1.5 months is accepted inside an add-device request and refused by add-plan. |
| `DeviceProjection.TransformDevice` | backend/src/utils/device.ts:72-87 | The wire identifiers cast back to the stored ones and the descriptive fields are copied. The plan passes through, and a missing one stays null. A missing list becomes empty; a present list passes through. |
| `DeviceProjection.ProjectLosesNothing` | backend/src/utils/device.ts:72-87 | A stored device can be rebuilt from its wire form. |
| `DeviceProjection.ProjectDistinguishesDevices` | backend/src/utils/device.ts:74 | Distinct documents have distinct wire `deviceId`s. |
| `Prompt.ClaimLineList` | backend/src/controllers/device/deviceController.ts:295-298 | There is one line per claim, in list order. |
| `Prompt.BuildPrompt` | backend/src/controllers/device/deviceController.ts:276-304 | The text built step by step is the specified prompt: base sentence, then the renewal, upgrade and claim clauses. |
| `Prompt.AppendClauses` | backend/src/controllers/device/deviceController.ts:285-301 | The `+=` steps after the base sentence append exactly the specified clauses. |
| `Prompt.AppendClaimLines` | backend/src/controllers/device/deviceController.ts:295-298 | The loop over the claims appends exactly the claim lines, in list order. |
| `Prompt.ClaimLineInPlace` | backend/src/controllers/device/deviceController.ts:295-298 | Claim i contributes its own line between the lines of the claims before and after it. |
| `Prompt.RenewalReminderIff` | backend/src/controllers/device/deviceController.ts:285-287 | After the base sentence, the prompt starts with the renewal reminder exactly when the plan expires within 90 days. |
| `Prompt.UpgradeSuggestionIff` | backend/src/controllers/device/deviceController.ts:289-291 | After the renewal part, the prompt continues with the upgrade suggestion exactly when the age is at least 3.0 years. |
| `Prompt.ClaimSectionIff` | backend/src/controllers/device/deviceController.ts:293-301 | There is a claim section (header, claim lines, both closing instructions) after the other clauses exactly when the history is non-empty; otherwise nothing follows. |
| `Prompt.ClaimLineWithInjective` | backend/src/controllers/device/deviceController.ts:297 | For claims of the same kind, a claim line determines the date text and the resolution. |
| `Prompt.ClaimLineKeepsClaim` | backend/src/controllers/device/deviceController.ts:296-297 | With the date written by `toDateString`, two claims of the same kind with the same line are the same claim. |
| `Prompt.ClaimLineAsWrittenDropsDate` | backend/src/controllers/device/deviceController.ts:296 | As written, claims of 2023-01-15 and 2024-06-01 give the same line, while the corrected lines differ. |
| `DeviceController.StartPlan` | backend/src/controllers/device/deviceController.ts:174-184 | A new plan is Active, keeps the requested name and coverage, starts now and ends the whole requested months later, strictly after it starts. The handlers that store it check that the end date is in the Date range. |
| `DeviceController.ExtendedPlan` | backend/src/controllers/device/deviceController.ts:222-225 | The end date moves forward by the whole months and strictly later, and the status becomes Active. Name, start date and coverage are unchanged, and the schema still holds. The handler checks that the new end date is in the Date range. |
| `DeviceController.DeviceFromRequest` | backend/src/controllers/device/deviceController.ts:49-80 | The created document has the request's fields and the owner. It has a plan exactly when one was requested (a `StartPlan`), its lists are empty, and it satisfies the schema. The handler stores it only when `RequestedPlanStorable` holds. |
| `DeviceController.PlanFromRequest` | backend/src/controllers/device/deviceController.ts:127-133 | The stored plan has the request's name, start date, end date, coverage and status. It satisfies the plan schema with status Active or Expired. |
| `DeviceController.ClaimsFromRequest` | backend/src/controllers/device/deviceController.ts:127-133 | Accepted claims are stored one for one, with their date, type and resolution. |
| `DeviceController.UpdatedDevice` | backend/src/controllers/device/deviceController.ts:127-133 | Required fields are replaced. Plan, recommendations and claims are replaced when sent and kept when absent. A stored device stays a stored device when the dates are in order. |
| `DeviceController.UpdateIds` | backend/src/controllers/device/deviceController.ts:127-128 | The update's identifiers cast exactly when the device id, the user id and any plan `_id` are identifiers. |
| `DeviceController.ListStep` | backend/src/controllers/device/deviceController.ts:101-102 | Looking at one more document keeps the listing exact: sound, complete and without duplicates. |
| `DeviceController.DeviceStore.constructor` | backend/src/models/Device.ts:47-59 | The collection starts empty and satisfies the store invariant. |
| `DeviceController.DeviceStore.AddDevice` | backend/src/controllers/device/deviceController.ts:28-87 | See the note after the table. |
| `DeviceController.DeviceStore.GetDevices` | backend/src/controllers/device/deviceController.ts:90-108 | An invalid query gives 400. A userId that does not cast gives 500 with no body code. Otherwise 200, with the data listing exactly the owner's devices, each once, in wire form. |
| `DeviceController.DeviceStore.FindDevicesOf` | backend/src/controllers/device/deviceController.ts:101-102 | The loop over the collection returns exactly the owner's devices, each once, in wire form. |
| `DeviceController.DeviceStore.UpdateDevice` | backend/src/controllers/device/deviceController.ts:111-145 | See the note after the table. |
| `DeviceController.DeviceStore.DeleteDevice` | backend/src/controllers/device/deviceController.ts:148-160 | A bad id gives 500. An unknown id gives 404 and changes nothing. Otherwise exactly that document is removed, and the reply is 200. |
| `DeviceController.DeviceStore.AddProtectionPlan` | backend/src/controllers/device/deviceController.ts:163-203 | An invalid body gives 400. A bad id, or an end date outside the Date range, gives 500 with no body code; the update is cast before the lookup, so this comes before 404. An unknown id gives 404 "Device is not found" with no body code. Otherwise any old plan is overwritten by `StartPlan`, and the reply is 200. The store invariant is kept. |
| `DeviceController.DeviceStore.ExtendProtectionPlan` | backend/src/controllers/device/deviceController.ts:206-235 | An invalid body gives 400, and a bad id gives 500. A missing device or plan gives 404. A new end date outside the Date range fails on save with 500 and body code 500. Otherwise only that device's plan becomes its `ExtendedPlan`, and the reply is 200. Every failure leaves the store unchanged, and the store invariant is kept. |
| `DeviceController.DeviceStore.RequestRecommendations` | backend/src/controllers/device/deviceController.ts:237-273 | See the note after the table. |
| `DeviceController.DeviceStore.Recommend` | backend/src/controllers/device/deviceController.ts:251-263 | The prompt of a stored device is `PromptText` of its facts and claims. Only that device changes: the generated text is pushed onto its recommendations. The store invariant is kept. |
| `DeviceSlice.Next` | device-protection-app/src/store/slices/device/deviceSlice.ts:20-31 | The slice is loading exactly after a pending event, and pending keeps the list. |
| `DeviceSlice.LoadingIffLastPending` | device-protection-app/src/store/slices/device/deviceSlice.ts:21-31 | After any events, the slice is loading exactly when the last event was pending. |
| `DeviceSlice.DevicesFromLastSettled` | device-protection-app/src/store/slices/device/deviceSlice.ts:21-31 | After any events, the list is the one the last settled request left: its payload, or empty after a rejection. |
| `DeviceSlice.EmptyUntilFulfilled` | device-protection-app/src/store/slices/device/deviceSlice.ts:10-31 | From the initial state the list stays empty until a request is fulfilled. |
| `DeviceSlice.Draft.constructor` | device-protection-app/src/store/slices/device/deviceSlice.ts:10-13 | The initial state has no devices and is not loading. |
| `DeviceSlice.Draft.FetchPending` | device-protection-app/src/store/slices/device/deviceSlice.ts:21-23 | Sets loading and keeps the devices. |
| `DeviceSlice.Draft.FetchFulfilled` | device-protection-app/src/store/slices/device/deviceSlice.ts:24-27 | Clears loading and stores the payload's devices. |
| `DeviceSlice.Draft.FetchRejected` | device-protection-app/src/store/slices/device/deviceSlice.ts:28-31 | Clears loading and empties the devices. |
| `AuthSlice.NextKeepsTokenInSync` | device-protection-app/src/store/slices/auth/authSlice.ts:25-45 | Every event keeps the token and the `jwt` cookie equal if they were equal. setToken, removeToken and a fulfilled login make them equal from any state, and only these three touch either of them. |
| `AuthSlice.RunKeepsTokenInSync` | device-protection-app/src/store/slices/auth/authSlice.ts:24-62 | Once the token and the cookie are equal, they stay equal over any sequence of events. They are not always equal: after a page reload the token starts null while the `jwt` cookie persists (device-protection-app/src/components/AuthLayout.tsx reads the cookie for that case), and they agree again after setToken, removeToken or a fulfilled login. |
| `AuthSlice.RegisterTouchesOnlyLoading` | device-protection-app/src/store/slices/auth/authSlice.ts:50-58 | Register events change only the loading flag: set on pending, cleared on settling. |
| `AuthSlice.LoginOutcomes` | device-protection-app/src/store/slices/auth/authSlice.ts:39-49 | A rejected login records the payload as the error and keeps token, user and cookie. A fulfilled login keeps the error. |
| `AuthSlice.Draft.constructor` | device-protection-app/src/store/slices/auth/authSlice.ts:13-19 | User, name, token and error start null, and loading starts false; the cookie is untouched. |
| `AuthSlice.Draft.SetToken` | device-protection-app/src/store/slices/auth/authSlice.ts:25-28 | Sets the token and the cookie to the payload. |
| `AuthSlice.Draft.RemoveToken` | device-protection-app/src/store/slices/auth/authSlice.ts:29-32 | Clears the token and removes the cookie. |
| `AuthSlice.Draft.LoginPending` | device-protection-app/src/store/slices/auth/authSlice.ts:36-38 | Sets only the loading flag. |
| `AuthSlice.Draft.LoginFulfilled` | device-protection-app/src/store/slices/auth/authSlice.ts:39-45 | Clears loading. Takes token, cookie, userId and username from the response. Leaves the error. |
| `AuthSlice.Draft.LoginRejected` | device-protection-app/src/store/slices/auth/authSlice.ts:46-49 | Clears loading and records the payload as the error. |
| `AuthSlice.Draft.RegisterPending` | device-protection-app/src/store/slices/auth/authSlice.ts:50-52 | Sets loading. |
| `AuthSlice.Draft.RegisterFulfilled` | device-protection-app/src/store/slices/auth/authSlice.ts:53-55 | Clears loading. |
| `AuthSlice.Draft.RegisterRejected` | device-protection-app/src/store/slices/auth/authSlice.ts:56-58 | Clears loading. |
| `AuthSlice.Draft.VerifyJwtFulfilled` | device-protection-app/src/store/slices/auth/authSlice.ts:59-62 | Sets only userId and username. |

Three handler contracts are too long for a table cell:

- `AddDevice`. An invalid body gives 400 with the first error and changes nothing. Otherwise the checks run in the source's order, and each failure leaves the store unchanged:
  1. a serial number already stored gives 400, before the date check;
  2. a purchase date after the warranty date gives 400, while equal dates pass;
  3. a userId that does not cast, or a requested plan whose end date is outside the Date range (`RequestedPlanStorable` fails), gives 500 with body code 500 when the document is saved.

  Otherwise the reply is 201, and the store gains exactly `DeviceFromRequest` under the new identifier. Unique serials and the stored-device invariant are kept.
- `UpdateDevice`. An invalid body gives 400. Otherwise, in order:
  1. out-of-order dates give 400, before any lookup;
  2. identifiers that do not cast give 500 with body code 200;
  3. an unknown device gives 404;
  4. a serial number held by another device gives 500 with body code 200.

  Each of these failures leaves the store unchanged. Otherwise only the addressed document becomes `UpdatedDevice`, and the reply is 200.
- `RequestRecommendations`. An invalid query gives 400. An id that does not cast, or a device without a plan, raises with no reply. A device of another owner gives 404. Otherwise the prompt is `PromptText` of the device, the generated text (or "") is appended to its recommendations and nothing else changes, and the reply is 200. Only the 200 reply carries the body's `data`, which is the generated text as the model returned it, null included.

Two behaviours of the code are worth noting:

- A day past the end of the target month rolls into the next month; it does not land on the month's last day (Jan 31 plus one month is in early March). One consequence is that extending by a then by b is not always extending by a+b (`Calendar.AddMonthsNotAdditive`).
- The coverage list of a new plan may be empty: the validation accepts an empty array.

## Left out

- Express routing, the JSON envelope and the JWT middleware are transport, so they are not modelled. Each handler returns its reply as a value.
- The update route's `:id` parameter is ignored by the handler, so it is not modelled.
- `getAIRecommendations` is not registered on any route, and its `try` block is empty. It is modelled as written, with `Unhandled` standing for a rejection that Express never answers.
- Mongoose persistence is modelled as a map from identifiers to documents. The unique serial index becomes an invariant the handlers keep.
- The order in which `find` returns documents is not modelled: the listing is specified as a set.
- Subdocument `_id`s are not stored.
- Identifiers that Mongoose accepts as 12-byte strings are not modelled; only 24 hexadecimal digits cast.
- The OpenAI call is a foreign service. Its text is a parameter, and only the append at line 262 is modelled.
- Floating point and the wall clock are inputs: the age is in tenths of a year (`toFixed(1)`) and the days until expiry are whole (`Math.round`).
- Time zones and daylight saving are not modelled: dates are calendar triples.
- The time of day is not modelled. A JavaScript Date holds 10^8 days either side of 1970-01-01 to the millisecond; the model admits a day when its first instant, midnight UTC, is at or after the lower bound and before the upper one. So 20 April of year −271821 is admitted, as at midnight UTC. 13 September 275760 is refused, although JavaScript holds its first instant (exactly 8.64e15 ms) and refuses only the rest of that day.
- Concurrency is not modelled: each handler is one atomic step, although the source yields at every `await`. Two interleavings are therefore missing. Two concurrent addDevice calls with the same serial number can both pass `findOne`; the second save then hits the unique index and gets 500 with body code 500, where the model answers 400. Two concurrent extends can both read the same plan, so one extension is lost.
- `DeviceController.StartPlan` computes the calendar end date without the Date range; `AddDevice` and `AddProtectionPlan` check the range before storing the plan.
- `DeviceController.ExtendedPlan` computes the calendar end date without the Date range; `ExtendProtectionPlan` checks the range before storing the plan.
- `DeviceController.DeviceFromRequest` builds the document without the Date range; `AddDevice` stores it only when `RequestedPlanStorable` holds.
- `Prompt.BuildPrompt` builds the corrected prompt, in which each claim line shows the claim's date. The source writes "Invalid Date" there (see Findings); `Prompt.ClaimLineAsWritten` models that line.
- `Prompt.AppendClauses` appends the corrected claim lines, not the "Invalid Date" ones the source writes.
- `Prompt.AppendClaimLines` appends the corrected claim lines, not the "Invalid Date" ones the source writes.
- `DeviceController.DeviceStore.Recommend` returns the corrected prompt, not the one with "Invalid Date" claim lines that the source sends.
- `DeviceController.DeviceStore.RequestRecommendations` returns the corrected prompt, not the one with "Invalid Date" claim lines that the source sends.
- Raw JSON hazards are not modelled: the date comparison on raw request strings, and `durationMonths` sent as a string and concatenated. Dates are ordered values and month counts are numbers.
- Unknown keys and wrong JSON types are not modelled: request bodies are typed records with optional fields.
- Joi error messages are not modelled; a validation error names the failing path and rule.
- The users controller, the thunks, the services and the React components are not part of this model.
- `AuthSlice.Draft`: the cookie's five-day expiry is not modelled. A `None` error stands for both `null` and a rejection without a payload.

## Findings

| source | as written | input that shows it | evidently intended | confidence | as-written member | corrected member |
|---|---|---|---|---|---|---|
| backend/src/controllers/device/deviceController.ts:296 | The claim date is read as `claim.date["$date"]`. A stored Date has no such key, so every claim line says "Invalid Date". | Two claims of type "Screen damage" resolved "Repaired", dated 2023-01-15 and 2024-06-01, give identical lines. | Each line shows the claim's own date via `toDateString`. | not executed | `Prompt.ClaimLineAsWrittenDropsDate` | `Prompt.ClaimLineKeepsClaim` |
