# Voter management client — a Dafny model

This project models the client-side logic of a React voter-management front
end. Vote recording, OTP checking and tallying happen on a remote backend;
what the browser does itself is modelled here as pure functions and small
state-transition functions:

- **Add voter** (`AddVoter`): the Aadhaar number formatter that runs on every
  keystroke, the digit-only phone field with its ten-character limit, the
  form schema, the multipart body sent to the backend, and the
  submitting/progress/modal state of the submit handler.
- **Conduct poll** (`ConductPoll`): the schema (minimum lengths, the
  `YYYY-MM-DD` pattern, a non-empty party list), the parties offered for the
  selected state, the party checkbox list, and the load/submit/modal state.
- **OTP verification** (`OtpVerification`): the six one-character slots, the
  per-slot change handler that ignores input `Number()` rejects, and the
  submit handler with its storage writes and error path.
- **Voter session** (`Session`): the `VoterProvider` state, `login` and
  `logout` over the browser storage, and the `useVoter` guard.
- **Voting page** (`VoterPolling`): the single party selection, the submit
  guard, and the success/error modals of a simulated submission.
- **Create party** (`CreatePoll`): the schema, the logo field, and the
  simulated request whose progress rises by 10 per timer tick. No route
  reaches this page: `/create-parties` loads `pages/create-parties`
  (src/router.tsx:84-86). The model covers the page as a component.
- **Admin dashboard** (`AdminDashboard`): the `isAdmin` redirect, logout, the
  `||` fallbacks of the headline figures, and the table rows.

Shared pieces: `Common` (Option, Result), `Forms` (schema issues and the
"min length" rule), and `JsText`, which states the JavaScript semantics the
pages rely on: `\d` and `[0-9]` are ASCII digits, `Number(s)` is NaN unless
the trimmed text is empty or a numeric literal (decimal with sign, fraction,
exponent or `Infinity`, or a `0b`/`0o`/`0x` integer), the JavaScript
whitespace set, and `toString` of an integer id.

The browser storage is a map from keys to stored values. A stored value is
`VoterJson(v)` or `ChainJson(i)` for the serialised text of a record, or
`Text(s)` for any other string. Timers are explicit tick events,
`Math.random` is a boolean parameter, and every backend call is a `Result`
the caller supplies.

The model follows the code, including where the code does less than its
page suggests:

- The conduct-poll schema does not compare the start and end dates (`ConductPoll.DatesNotOrdered`).
- The voting page never reads `has_voted` and never calls the backend. It does not disable submit while a simulated request is pending, so several can queue (`VoterPolling.Page.pending`).
- A successful conduct-poll submit does not navigate anywhere.
- A successful OTP check does not call the context's `login`, does not write `isVoterLoggedIn`, and leaves `isLoading` true. The page navigates away with the button still disabled.
- The phone field filters key presses. It never strips text that arrives another way.
- The dashboard treats an `isAdmin` value of `''` like a missing one (both are falsy).

## Model

| member | source | states |
|---|---|---|
| JsText.SingleCharNumber | src/pages/otp-verfication/index.tsx:20 | For one character, `Number(c)` is a number exactly when `c` is an ASCII digit or JavaScript whitespace. |
| JsText.NumberIsNaN | src/pages/otp-verfication/index.tsx:20 | `Number(s)` is NaN exactly when the text, with JavaScript whitespace trimmed from both ends, is neither empty nor a numeric literal (signed decimal with optional fraction and exponent, `Infinity`, or a `0b`/`0o`/`0x` integer). |
| JsText.TrimEdges | src/pages/otp-verfication/index.tsx:20 | The text `Number()` parses is no longer than the input and neither starts nor ends with whitespace. |
| JsText.BlankIsNumber | src/pages/otp-verfication/index.tsx:20 | Text made only of whitespace trims to nothing, so it converts to 0 and is never NaN. |
| JsText.EmptyIsNumber | src/pages/otp-verfication/index.tsx:20 | The empty string is not NaN, so clearing a slot is accepted. |
| JsText.IntToDecimal | src/pages/conduct-poll/index.tsx:132 | The text of an id is non-empty and starts with '-' exactly for negative ids. |
| JsText.NatDecimalRoundTrip | src/pages/conduct-poll/index.tsx:132 | Reading the decimal text of a natural number back gives the number. |
| JsText.IntToDecimalInjective | src/pages/conduct-poll/index.tsx:132-135 | Two ids have equal text exactly when they are equal, so comparing strings compares ids. |
| Session.Mount | src/context/VoterContext.tsx:29-32 | A new provider holds no voter and no blockchain info, and storage is untouched. |
| Session.Login | src/context/VoterContext.tsx:34-40 | Both fields take the arguments; 'voter', 'blockchainInfo' and 'isVoterLoggedIn'='true' are written; no other key changes. |
| Session.Logout | src/context/VoterContext.tsx:42-48 | Both fields become null, the three keys are absent, and no other key changes. |
| Session.LogoutIdempotent | src/context/VoterContext.tsx:42-48 | Logging out twice is the same as logging out once. |
| Session.LoginLogoutRestores | src/context/VoterContext.tsx:34-48 | Login then logout gives the original storage minus the three keys. |
| Session.UseVoter | src/context/VoterContext.tsx:57-62 | The context is returned exactly when a provider exists; otherwise the error with its message. |
| Session.UseVoterSeesSession | src/context/VoterContext.tsx:34-62 | A consumer under the provider sees the voter and blockchain info just logged in, and neither after a logout; without a provider it gets the error. |
| Forms.MinLength | src/pages/add-voter/index.tsx:43-45 | A minimum-length rule flags its field exactly when the value is shorter than the bound. |
| AddVoter.DigitsOf | src/pages/add-voter/index.tsx:59 | Removing non-digits yields only digits and never lengthens the text. |
| AddVoter.GroupSnoc | src/pages/add-voter/index.tsx:63-67 | One loop iteration appends a space before digits 4 and 8 (0-based) and then the digit. |
| AddVoter.Group | src/pages/add-voter/index.tsx:63-67 | Definition: up to twelve digits with a space inserted before the fifth and the ninth digit when they exist. |
| AddVoter.FormatAadhaar | src/pages/add-voter/index.tsx:57-71 | Definition: the first twelve digits of the input, grouped; `FormatAadhaarNumber` is proved to compute it. |
| AddVoter.FormatAadhaarNumber | src/pages/add-voter/index.tsx:57-71 | The loop computes the first twelve digits, grouped by four. |
| AddVoter.GroupShape | src/pages/add-voter/index.tsx:63-66 | Grouped digits have spaces exactly at positions 4 and 9 when that long, and digits elsewhere. |
| AddVoter.FormatAadhaarShape | src/pages/add-voter/index.tsx:57-71 | The output is at most 14 characters of digits and spaces. Spaces sit only at positions 4 and 9. There is no leading or trailing space. |
| AddVoter.FormatAadhaarDigits | src/pages/add-voter/index.tsx:59-68 | The digits of the output are the first min(12, n) digits of the input, in order. |
| AddVoter.FormatAadhaarIdempotent | src/pages/add-voter/index.tsx:188-191 | Formatting a formatted value returns it unchanged. |
| AddVoter.PhoneKeyPress | src/pages/add-voter/index.tsx:212-218 | A key press either changes nothing or appends one digit to a value shorter than ten. The value never grows past ten. |
| AddVoter.PhoneKeyAllowed | src/pages/add-voter/index.tsx:215 | Definition: `/[0-9]/.test(key)` holds when some character of the key's name is an ASCII digit. |
| AddVoter.PhoneKeyAllowedChar | src/pages/add-voter/index.tsx:215 | For a one-character key the filter passes exactly the digits 0-9. |
| AddVoter.TypePhoneDigits | src/pages/add-voter/index.tsx:212-218 | Any key sequence yields the old value plus the digit keys typed, cut at ten characters. |
| AddVoter.ValidateVoterForm | src/pages/add-voter/index.tsx:42-55 | The name needs 2 characters; Aadhaar and phone must be non-empty; state never fails; the form is valid exactly when all three hold. |
| AddVoter.VoterPayload | src/pages/add-voter/index.tsx:109-113 | The body has only the four backend field names, each once. |
| AddVoter.VoterPayloadRoundTrip | src/pages/add-voter/index.tsx:109-113 | Reading name, aadhar, phone_no and state_id back from the body gives the form. |
| AddVoter.BeginSubmit | src/pages/add-voter/index.tsx:106-119 | A request starts exactly when not submitting and the schema passes, carrying the payload; otherwise nothing changes. |
| AddVoter.TickRequest | src/pages/add-voter/index.tsx:115-119 | A tick of the pending request's interval raises its counter by 10 and shows it capped at 90, changing nothing else. Without a pending request it is a no-op. |
| AddVoter.TickLeaked | src/pages/add-voter/index.tsx:116-119 | An uncleared interval advances its own counter by 10 and writes it, capped at 90, to the bar. Submitting, the pending request and the modals are untouched. |
| AddVoter.SettleAsWritten | src/pages/add-voter/index.tsx:120-131 | Settling clears submitting, zeroes the bar and opens the modal of the outcome. A success keeps the leftover intervals as they were. A failure adds the request's own counter to them, after the earlier ones. |
| AddVoter.FailedSubmitKeepsTicking | src/pages/add-voter/index.tsx:115-131 | After a failed request, the next tick of the leftover interval shows 10 while nothing is submitting. |
| AddVoter.Settle | src/pages/add-voter/index.tsx:120-131 | The corrected settle: same outcome, with the interval cleared on both paths. |
| AddVoter.CloseSuccess | src/pages/add-voter/index.tsx:310 | Closing the success modal clears only its own flag. |
| AddVoter.CloseError | src/pages/add-voter/index.tsx:345 | Closing the error modal clears only its own flag. |
| AddVoter.InitialSettled | src/pages/add-voter/index.tsx:74-90 | A freshly mounted page keeps the progress promise, and its default (empty) form is refused, so no request starts. |
| AddVoter.Step | src/pages/add-voter/index.tsx:106-131 | Definition: one event of the page (submit, interval tick, response, modal close), with the corrected settle that clears the interval on both outcomes. |
| AddVoter.Run | src/pages/add-voter/index.tsx:106-131 | Definition: the corrected page after a sequence of events. |
| AddVoter.StepAsWritten | src/pages/add-voter/index.tsx:106-131 | Definition: one event of the page as written, where a failed response leaves its interval running. |
| AddVoter.RunAsWritten | src/pages/add-voter/index.tsx:106-131 | Definition: the page as written after a sequence of events. |
| AddVoter.StepAsWrittenAgrees | src/pages/add-voter/index.tsx:120-131 | The page as written and the corrected page agree on everything but the leftover intervals after any event, and agree entirely except on a failed response to a pending request. |
| AddVoter.StepAsWrittenCapped | src/pages/add-voter/index.tsx:115-131 | In the page as written, every event keeps submitting tied to a pending request and the bar at most 90. |
| AddVoter.RunAsWrittenCapped | src/pages/add-voter/index.tsx:115-131 | In the page as written, any sequence of events keeps the bar at most 90, leftover intervals included: the cap holds even though the reset to 0 does not. |
| AddVoter.StepSettled | src/pages/add-voter/index.tsx:115-131 | With the corrected settle, every event keeps the promise: the bar is at most 90 while pending and 0 when idle, with no stray interval. The page as written breaks it on a failed response (`FailedSubmitKeepsTicking`). |
| AddVoter.RunSettled | src/pages/add-voter/index.tsx:115-131 | With the corrected settle, any sequence of events keeps that promise. |
| ConductPoll.DateTextRoundTrip | src/pages/conduct-poll/index.tsx:67-72 | Every year below 10000 and month/day below 100 yields an accepted text that reads back as the same numbers. |
| ConductPoll.DateTextComplete | src/pages/conduct-poll/index.tsx:67-72 | Every accepted date text is the padded text of its own numbers. |
| ConductPoll.IsDateText | src/pages/conduct-poll/index.tsx:67-72 | Definition: `/^\d{4}-\d{2}-\d{2}$/` accepts exactly ten characters, digits except for '-' at positions 4 and 7. |
| ConductPoll.ValidatePollForm | src/pages/conduct-poll/index.tsx:60-77 | Each field is flagged exactly when its rule fails (name and description below 2, a date off the pattern, an empty party list). state_id never fails. The form is valid iff no field is flagged. |
| ConductPoll.DatesNotOrdered | src/pages/conduct-poll/index.tsx:67-72 | Swapping start and end dates never changes the verdict. |
| ConductPoll.MatchingMembers | src/pages/conduct-poll/index.tsx:130-136 | A party is listed exactly when it is a party whose state_id text equals the selection. |
| ConductPoll.MatchingAppend | src/pages/conduct-poll/index.tsx:131-136 | Filtering keeps the original order. |
| ConductPoll.Matching | src/pages/conduct-poll/index.tsx:130-136 | The parties whose `state_id` text equals the selection; never more than the party list. |
| ConductPoll.PartiesOfState | src/pages/conduct-poll/index.tsx:129-141 | An empty (falsy) selection offers no parties; any other selection offers the matching parties; never more than the party list. |
| ConductPoll.PartiesOfSelectedState | src/pages/conduct-poll/index.tsx:125-142 | For a selected state id, the offered parties are exactly that state's parties. |
| ConductPoll.RemoveId | src/pages/conduct-poll/index.tsx:311 | Removal keeps exactly the other ids and drops every occurrence of the id. |
| ConductPoll.CheckedChange | src/pages/conduct-poll/index.tsx:307-312 | Checking appends the id. Unchecking removes it and keeps every other id. |
| ConductPoll.CheckThenUncheck | src/pages/conduct-poll/index.tsx:307-312 | Checking then unchecking an absent id restores the list. |
| ConductPoll.UncheckKeepsOrder | src/pages/conduct-poll/index.tsx:311 | Unchecking commutes with splitting the list, so the other ids keep their order. |
| ConductPoll.ClickKeepsNoDuplicates | src/pages/conduct-poll/index.tsx:305-312 | Clicking checkboxes never lists an id twice. |
| ConductPoll.TogglePartyBox | src/pages/conduct-poll/index.tsx:305-313 | A click lists the id exactly when it was not listed. |
| ConductPoll.ClickParty | src/pages/conduct-poll/index.tsx:305-312 | Definition: a click reports `checked` as the negation of the box's current state, which is whether the id is listed. |
| ConductPoll.SelectState | src/pages/conduct-poll/index.tsx:266-270 | Choosing a state sets state_id and keeps the party list. |
| ConductPoll.StartLoad | src/pages/conduct-poll/index.tsx:103-106 | The mount fetch sets loading, which disables submit, and keeps the form and both lists. |
| ConductPoll.FinishLoad | src/pages/conduct-poll/index.tsx:103-123 | Loading ends and the form is kept. A response replaces both lists, and a response without a list gives an empty one. A failure keeps both lists and shows the fetch error. |
| ConductPoll.LoadRoundTrip | src/pages/conduct-poll/index.tsx:103-142 | Submit is disabled while the lists load and enabled after either outcome. The form is kept. A response's parties are what the checkbox list filters for the chosen state; a failure changes neither the offered parties nor the states. |
| ConductPoll.ConductErrorText | src/pages/conduct-poll/index.tsx:153 | The error text is the backend message when it is non-empty, otherwise 'Failed to conduct poll'. |
| ConductPoll.BeginConduct | src/pages/conduct-poll/index.tsx:144-147 | A request carrying the form is sent exactly when not loading and the schema passes. An invalid form shows exactly the schema's issues and sends nothing. |
| ConductPoll.FinishConduct | src/pages/conduct-poll/index.tsx:144-158 | Success resets the form to its defaults and opens the success modal. Failure keeps the form and shows the error text. Loading ends either way. |
| ConductPoll.CloseSuccess | src/pages/conduct-poll/index.tsx:371-376 | Closing the success modal resets the form. |
| ConductPoll.CloseError | src/pages/conduct-poll/index.tsx:428 | Closing the error modal keeps the form. |
| ConductPoll.InitialPageRefusesDefaults | src/pages/conduct-poll/index.tsx:80-98 | A freshly mounted page offers no parties and has submit enabled; its default form fails the schema, so no request is sent. |
| ConductPoll.SubmitRoundTrip | src/pages/conduct-poll/index.tsx:144-158 | A valid form is sent with submit disabled, and submit is enabled again whatever the answer. |
| OtpVerification.HandleChange | src/pages/otp-verfication/index.tsx:19-23 | The length is kept. NaN input changes nothing. An accepted value lands in slot `index` only. |
| OtpVerification.EmptyOtpOk | src/pages/otp-verfication/index.tsx:14 | The buffer starts as six acceptable empty slots. |
| OtpVerification.HandleChangeKeepsBuffer | src/pages/otp-verfication/index.tsx:19-23 | Updates keep six slots, each empty or one accepted character. |
| OtpVerification.JoinSingles | src/pages/otp-verfication/index.tsx:34 | Joining one-character slots gives one character per slot, in order. |
| OtpVerification.Join | src/pages/otp-verfication/index.tsx:34 | Definition: `otp.join('')`, the slots concatenated in order. |
| OtpVerification.JoinAppend | src/pages/otp-verfication/index.tsx:34 | Joining two runs of slots is joining each and concatenating. |
| OtpVerification.AllFilled | src/pages/otp-verfication/index.tsx:95 | Definition: the `required` inputs let the form submit only when no slot is empty. |
| OtpVerification.InitialPageWaits | src/pages/otp-verfication/index.tsx:14-16 | A freshly mounted page holds six acceptable empty slots, has submit enabled, and sends no request until the slots are filled. |
| OtpVerification.FilledSlot | src/pages/otp-verfication/index.tsx:20 | A filled slot holds a digit or a whitespace character. |
| OtpVerification.SubmittedCode | src/pages/otp-verfication/index.tsx:34 | A filled buffer submits six characters, slot by slot, each a digit or whitespace. |
| OtpVerification.StoredPhone | src/pages/otp-verfication/index.tsx:35 | The phone number is read from the stored voter record exactly when one is stored. |
| OtpVerification.BeginVerify | src/pages/otp-verfication/index.tsx:30-41 | A request goes out exactly when not loading and all slots are filled. It carries the stored phone and the joined code, sets loading and clears the error. |
| OtpVerification.FinishVerify | src/pages/otp-verfication/index.tsx:43-57 | Success overwrites the two keys and navigates to the ballot. Failure keeps storage, shows the message or the default, and ends loading. No other key changes. |
| OtpVerification.VerifyStoresVoter | src/pages/otp-verfication/index.tsx:30-52 | After success, the stored phone is the returned voter's. |
| OtpVerification.FailureAllowsRetry | src/pages/otp-verfication/index.tsx:53-57 | After a failure, submit is enabled and a retry sends the same request. |
| VoterPolling.SelectCard | src/pages/voter-polling/index.tsx:58-66 | A card click selects that party's id; no other selection is possible. |
| VoterPolling.Submit | src/pages/voter-polling/index.tsx:24-37 | Submitting with an empty selection does nothing. Otherwise one timer starts. |
| VoterPolling.Fire | src/pages/voter-polling/index.tsx:28-35 | A firing timer opens the success or the error modal, according to the outcome. |
| VoterPolling.CloseSuccess | src/pages/voter-polling/index.tsx:100 | Closing the success modal clears only its flag. |
| VoterPolling.CloseError | src/pages/voter-polling/index.tsx:101 | Closing the error modal clears only its flag. |
| VoterPolling.InitialPageIdle | src/pages/voter-polling/index.tsx:20-22 | A freshly mounted page has no selection, so submit is disabled and pressing it does nothing. |
| VoterPolling.Step | src/pages/voter-polling/index.tsx:24-101 | Definition: one event of the page (card click, submit, timer, modal close). |
| VoterPolling.Run | src/pages/voter-polling/index.tsx:24-101 | Definition: the page after a sequence of events. |
| VoterPolling.ExactlyOneModal | src/pages/voter-polling/index.tsx:24-37 | A non-empty submit and its timer open exactly one modal. An empty submit opens none. |
| VoterPolling.RunKeepsSelection | src/pages/voter-polling/index.tsx:53-66 | The selection is always empty or one of the four ids. |
| VoterPolling.NoModalWithoutSubmit | src/pages/voter-polling/index.tsx:24-37 | Without a submit, no modal ever opens. |
| CreatePoll.ValidatePartyForm | src/pages/create-poll/index.tsx:19-27 | The party name needs 2 characters. State and logo never fail. |
| CreatePoll.HandleLogoChange | src/pages/create-poll/index.tsx:72-82 | The first chosen file becomes the logo. No file changes nothing. |
| CreatePoll.LogoKeepsVerdict | src/pages/create-poll/index.tsx:72-82 | Choosing a logo never changes the schema's verdict, so it never decides whether the form can be submitted. |
| CreatePoll.BeginCreate | src/pages/create-poll/index.tsx:44-50 | A valid form starts submitting with the counter at 0. Disabled or invalid changes nothing. |
| CreatePoll.Tick | src/pages/create-poll/index.tsx:48-58 | Below 100, a tick raises the counter and the bar by 10 and keeps the request pending. On reaching 100 it clears the interval, ends submitting, returns the bar to 0 and opens the success or the error modal according to the outcome. Without an interval it is a no-op, and the page stays consistent. |
| CreatePoll.TicksBeforeDone | src/pages/create-poll/index.tsx:48-58 | Before reaching 100, each tick adds 10 and the request stays pending. |
| CreatePoll.TenTicksSettle | src/pages/create-poll/index.tsx:44-70 | After 9 ticks the bar is 90 with submit disabled. The 10th opens exactly one modal, re-enables submit and resets the bar to 0. |
| CreatePoll.InitialPageIdle | src/pages/create-poll/index.tsx:30-42 | A freshly mounted page is consistent with submit enabled, and its default form cannot start a request. |
| CreatePoll.CloseSuccess | src/pages/create-poll/index.tsx:236 | Closing the success modal clears only its flag. The other modal, the form, submitting, the bar and the timer are unchanged. |
| CreatePoll.CloseError | src/pages/create-poll/index.tsx:267 | Closing the error modal clears only its flag. The other modal, the form, submitting, the bar and the timer are unchanged. |
| AdminDashboard.RedirectTarget | src/pages/admin-dashboard/index.tsx:128-132 | The page redirects to '/admin-login' exactly when the isAdmin entry is missing or empty. |
| AdminDashboard.Mount | src/pages/admin-dashboard/index.tsx:117-132 | A fresh dashboard has no data and navigates exactly when the flag is unset. |
| AdminDashboard.HandleLogout | src/pages/admin-dashboard/index.tsx:123-126 | Only 'isAdmin' is removed, then the page goes to '/'. |
| AdminDashboard.LogoutThenRedirect | src/pages/admin-dashboard/index.tsx:117-132 | Reopening the dashboard after logout redirects to the login. |
| AdminDashboard.LogoutIdempotent | src/pages/admin-dashboard/index.tsx:123-126 | A second logout leaves storage as the first did. |
| AdminDashboard.FinishFetch | src/pages/admin-dashboard/index.tsx:134-149 | A response replaces the data. An error leaves the page unchanged. |
| AdminDashboard.TotalVotersShown | src/pages/admin-dashboard/index.tsx:192 | Shows the total when present and truthy, otherwise 0. |
| AdminDashboard.TotalVotesCastShown | src/pages/admin-dashboard/index.tsx:205 | Shows the votes cast when present and truthy, otherwise 0. |
| AdminDashboard.VotingPercentageShown | src/pages/admin-dashboard/index.tsx:218 | Shows the percentage when present and truthy, otherwise the text '0.00'. |
| AdminDashboard.CountsNeverNaN | src/pages/admin-dashboard/index.tsx:192-218 | No headline figure ever shows NaN. |
| AdminDashboard.RowOf | src/pages/admin-dashboard/index.tsx:242-247 | A row shows the party's id as key, name, state name and votes unchanged, and its percentage followed by '%'. |
| AdminDashboard.MapRows | src/pages/admin-dashboard/index.tsx:241-248 | There is one row per statistics entry, in order. |
| AdminDashboard.Rows | src/pages/admin-dashboard/index.tsx:241-248 | Without data there are no rows; with data, one row per entry in order. |
| AdminDashboard.MapRowsAppend | src/pages/admin-dashboard/index.tsx:241-248 | The rows of concatenated lists are the concatenated rows. |
| AdminDashboard.PercentCellRoundTrip | src/pages/admin-dashboard/index.tsx:246 | Dropping the trailing '%' from the cell gives the response's percentage text. |
| AdminDashboard.FailedFetchShowsFallbacks | src/pages/admin-dashboard/index.tsx:134-149 | After a failed fetch every figure shows its fallback and the table is empty. |
| AdminDashboard.FetchedRowsFollowResponse | src/pages/admin-dashboard/index.tsx:137-139 | After a successful fetch the rows follow the response in order, and the redirect decision is unaffected. |

## Left out

- The backend and its API wrappers (`src/api/index.ts`) are not part of this model. Every call is a `Result` the caller supplies.
- AddVoter.BeginSubmit: the page imports `addVoter` from the API module (src/pages/add-voter/index.tsx:40), and that module exports no such function (src/api/index.ts:55-110). A build that rejects the missing export never loads the page. A lenient build throws on every submit, so every response is a failure and leaks its interval. The model lets the caller supply either outcome, as if the wrapper existed; `RunAsWrittenCapped` covers the all-failures runs too.
- Routing, the static login and choose pages, the modal components and the layout are not modelled.
- Real time and randomness are not modelled. Intervals and timeouts are tick or fire events. `Math.random()` is a boolean, with no probabilities.
- JSON serialisation is not modelled; stored records are constructors. A non-JSON string under 'voter' would make `JSON.parse` throw outside the `try` on the OTP page. The model reads it as "no phone number".
- The logo preview (the `FileReader` data URL) is not modelled, only the form field it sets.
- Strings are sequences of Unicode scalar values, not UTF-16 code units. `maxLength` and `min(2)` count UTF-16 units in the browser, which differs only outside the Basic Multilingual Plane.
- A party whose `state_id` is missing never matches a selected state. The model gives every party a state id.
- Party and state ids are modelled as safe integers (below 2^53 in magnitude). Their `toString` is plain decimal; fractional or larger ids are not modelled.
- AddVoter.PhoneKeyPress: only typing at the end of the field is modelled. Paste, autofill and IME input bypass `onKeyPress` and are not filtered.
- AddVoter.SettleAsWritten: the bar's write of 100 on success is not modelled. It happens in the same batch as the reset to 0, and only the final 0 is kept. This assumes React 18's automatic batching of updates after an `await`. Under React 17 the 100 would be rendered on its own before the reset.
- CreatePoll.Tick: the write of 100 on the settling tick is not modelled. Under React 18's automatic batching the reset to 0 follows before the page shows it, and only the final 0 is kept. Under React 17 an update inside a `setInterval` callback renders on its own, so the bar would show 100 briefly.
- AdminDashboard.TotalVotersShown: numbers are reals or NaN. Infinities and the rendering of a number as text are not modelled. The same applies to TotalVotesCastShown and VotingPercentageShown.
- ConductPoll.ConductErrorText: a backend `message` that is not a string is not modelled.
- Animations, styling, focus movement to the next OTP slot, and the dashboard's period dropdown are not modelled.

## Findings

| source | as written | input that shows it | evidently intended | confidence | as-written member | corrected member |
|---|---|---|---|---|---|---|
| src/pages/add-voter/index.tsx:115-131 | `clearInterval` runs only after a successful request. A failed one leaves its interval running after `finally` has reset the bar. | A valid form whose request fails. The next tick writes 10 to the bar while nothing is submitting, and the bar keeps climbing to 90. With the `addVoter` import unresolved (src/api/index.ts has no such export), every submit that reaches the call fails this way. | The interval is cleared on both outcomes, so the bar stays at 0 once the request settles. | not executed | AddVoter.FailedSubmitKeepsTicking | AddVoter.RunSettled |
