# line-appraisal-bot in Dafny

This project models the core of a LINE chat bot that takes a property-appraisal request. The
bot has two parts.

- **The intake dialog, `handleEvent` in app.js.** Each user has a session `{state, answers}`.
  A follow event gets a greeting. A postback can start (or restart) the dialog, submit the
  confirmation card or open the edit menu. A text message is handled in this order:
  - it is trimmed;
  - a restart word resets the session, whatever the state;
  - in the edit menu, a label jumps to the matching question;
  - otherwise the rule of the current state applies. A rule checks the state and sometimes an
    exact-label vocabulary or a validator, then stores the answer and moves on.
- **The confirmation card, `renderFlexConfirm` in lib/flexConfirm.js.** It turns the answers
  into an ordered list of `【label】value` lines and leaves out falsy values.

The model has these modules:

- `JsString`: the JavaScript string operations the bot relies on. These are the `\s` white-space
  class, `trim()` and `replace(/\s+/g, "")`.
- `Validators`: `reNum`, `rePhone`, `reMail`, `reYear` and the room-number pattern, written as
  predicates over strings. Each regular expression with a non-trivial shape has a lemma saying
  the predicate accepts exactly the strings the pattern describes. The module also holds the
  building-name split, which works like the lazy regular expression of app.js:177: the name is
  the shortest non-empty prefix, holding no line terminator, after which the rest, with its
  leading white space dropped, is empty or a room token. When no prefix qualifies, the whole line
  is the name.
- `Intake`: the dialog states, the answer record and the accepted vocabularies, as literal
  strings.
- `FlexConfirm`: the card as a pure function from answers to lines (`Render`).
- `App`: the dialog in two forms.
  - The transition functions `TextStep`, `PostbackStep` and `EventStep`. `RuleStep` splits into
    `PropertyRule` (questions 1-7) and `CustomerRule` (questions 8-16).
  - The classes. `Session` has methods that update `state` and `answers` in place, and each is
    proved to follow the functions. `SessionStore` holds the map from user id to session.
  - An invariant `Inv`. Every event preserves it, so no reachable session meets the source's
    TypeError paths.
- `AppProperties` and `FlexConfirmProperties`: lemmas about the dialog and the card.

Two behaviours of the code are easy to misread.

- An edit-menu jump (app.js:139-153) only sets `state`, so the dialog carries on through the
  main sequence from the chosen step. Only the privacy consent and the edit menu lead back to
  the card (`AppProperties.OnlyConsentShowsCard`).
- No step other than a restart clears a phone number or an e-mail address, so changing the
  contact method through the edit menu can leave both set
  (`AppProperties.ContactDetailsNeverCleared`, `AppProperties.PhoneAndMailCanBothBeSet`).

## Model

| member | source | states |
|---|---|---|
| JsString.IsSpace | app.js:130 | definition: the ECMAScript white-space and line-terminator characters, which `trim()` and `\s` remove; every lemma about `Trim`, `RemoveSpaces` and the building-name split uses it |
| JsString.LeadingSpaces | app.js:177 | the run of white space at the start is maximal: all white space, followed by the end or a non-space character |
| JsString.TrailingSpaces | app.js:130 | the run of white space at the end is maximal: all white space, preceded by the start or a non-space character |
| JsString.TrimStart | app.js:177 | definition: the text after its leading white space, which is what the greedy `\s*` skips; see `LeadingSpaces` and `Validators.SplitAtShape` |
| JsString.TrimEnd | app.js:130 | definition: the text before its trailing white space; `Trim` removes `TrimStart` and then `TrimEnd`, see `TrailingSpaces` and `Trim` |
| JsString.Trim | app.js:130 | the result is the input with only white space removed at its two ends: a slice `s[i..j]` with white space before `i` and after `j`, and no white space at its own ends |
| JsString.TrimOfTrimmed | app.js:130 | `trim()` leaves a string with no white space at its ends unchanged |
| JsString.TrimIdempotent | app.js:130 | trimming twice is the same as trimming once |
| JsString.RemoveSpaces | app.js:191 | `replace(/\s+/g, "")` leaves no white space and never lengthens the text |
| JsString.RemoveSpacesOfNoSpace | app.js:191 | a string without white space is left as it is |
| JsString.RemoveSpacesChar | app.js:191 | a single character is dropped exactly when it is white space |
| JsString.RemoveSpacesConcat | app.js:191 | removing white space from `x + y` is removing it from `x` and from `y`, so the other characters keep their order; with `RemoveSpacesChar` this fixes the result on every string |
| Validators.LeadingDigits | app.js:24 | the run of digits at the start is maximal: all digits, and followed by the end or a non-digit |
| Validators.IsNum | app.js:24 | definition: `reNum` as a left-to-right scan; `NumScanMatchesGrammar` proves it equal to the pattern |
| Validators.NumScanMatchesGrammar | app.js:24 | the scan accepts exactly 1-4 digits, optionally followed by `.` and 1-2 digits |
| Validators.IsPhone | app.js:25 | definition: `rePhone`, 10 or 11 digits of which the first is `0`; see `PhoneIsZeroThenDigits` |
| Validators.PhoneIsZeroThenDigits | app.js:25 | a text passes `rePhone` exactly when it is `0` followed by a run of 9 or 10 digits, with no separators |
| Validators.IndexOf | app.js:26 | the first occurrence of a character, or none when it does not occur |
| Validators.IsMail | app.js:26 | definition: `reMail` as a scan over the first `@`; `MailScanMatchesGrammar` proves it equal to the pattern |
| Validators.MailScanMatchesGrammar | app.js:26 | the scan accepts exactly local part, `@`, domain, `.`, final label, with no white space and no second `@` |
| Validators.IsYear | app.js:27 | definition: `reYear` as its two alternatives, `19dd`/`20dd` and `築` with 1-2 digits and `年`; see `YearFormsExclusive` |
| Validators.StartsWithChiku | app.js:222 | definition: the test `/^築/`; see `YearFormsExclusive` |
| Validators.YearFormsExclusive | app.js:220-222 | among accepted years, a leading `築` picks out the `築n年` form, and the two forms never overlap |
| Validators.IsRoom | app.js:192 | definition: the room-number pattern, room characters with an optional `号室`; see `RoomHasNoSpace` and `AsciiNameIsCut` |
| Validators.RoomHasNoSpace | app.js:181-192 | a room token holds no white space, so removing white space leaves it unchanged |
| Validators.SplitsAt | app.js:177 | definition: the lazy group can end after `k` characters, which hold no line terminator, because `\s*`, an optional room token and the end of the line can follow; see `FindSplitIsFirst` |
| Validators.FindSplit | app.js:177 | definition: the backtracking of the lazy group, trying lengths from 1 upwards; see `FindSplitIsFirst` |
| Validators.FindSplitIsFirst | app.js:177 | the lazy group ends at the first length that lets the match finish, or no length does |
| Validators.SplitAptName | app.js:177-181 | a room taken from the line always satisfies the room pattern |
| Validators.SplitAptNameShape | app.js:177-178 | on a trimmed line, either the whole line is the name, or the name is a non-empty prefix without line terminators, followed by optional white space and then the room, which ends the line |
| Validators.SplitAptNameShortest | app.js:177 | when the line is cut, no shorter non-empty prefix lets the match finish |
| Validators.AsciiNameIsCut | app.js:177 | a name made only of room characters, such as `Tower`, splits into its first character and the rest |
| Validators.NameThenRoom | app.js:177-181 | name, one space and a room token split back into that name and that room |
| Validators.SunshineTowerSplit | app.js:176-181 | `Sunshine Tower 305` gives the name `Sunshine Tower` and the room `305` |
| FlexConfirm.Truthy | lib/flexConfirm.js:6-7 | definition: JavaScript truthiness of an optional string, set and not empty, as tested by `row` and `filter(Boolean)`; see `MakeRow` and `FalsyAddressPartsAddNothing` |
| FlexConfirm.MethodLabel | lib/flexConfirm.js:4 | there is a label exactly when there is a code, and the label is empty exactly when the code is |
| FlexConfirm.OrEmpty | lib/flexConfirm.js:5 | definition: `z`, an absent value renders as the empty string; see `FlexConfirmProperties.HouseArea` |
| FlexConfirm.MakeRow | lib/flexConfirm.js:6 | a line exists exactly when the value is truthy, and it carries that label and that non-empty value |
| FlexConfirm.JoinAddr | lib/flexConfirm.js:7 | definition: `joinAddr`; see `FlexConfirmProperties.AddressFromParts` and `FalsyAddressPartsAddNothing` |
| FlexConfirm.AddressValue | lib/flexConfirm.js:27 | definition: the 住所 value; see `FlexConfirmProperties.AddressLine`, `AddressWithoutName` and `AddressWithName` |
| FlexConfirm.LayoutSuffix | lib/flexConfirm.js:18 | definition: the `／【間取り】` suffix; see `FlexConfirmProperties.ApartmentArea` and `HouseArea` |
| FlexConfirm.AreaValue | lib/flexConfirm.js:16-23 | an area text, when there is one, is never empty |
| FlexConfirm.YearValue | lib/flexConfirm.js:29 | definition: `year_built`, or `age_built` when the former is falsy; see `FlexConfirmProperties.YearLine` |
| FlexConfirm.ContactValue | lib/flexConfirm.js:35 | definition: the ご連絡 template literal; see `FlexConfirmProperties.ContactLine` |
| FlexConfirm.SlotValue | lib/flexConfirm.js:25-36 | definition: the value given to `row` for each label, the 築年 slot empty except for 戸建て; see `Items` and `FlexConfirmProperties.ShowsSlot` |
| FlexConfirm.Items | lib/flexConfirm.js:25-36 | one slot per label; a slot holds a line exactly when its value is truthy, and that line has its label and a non-empty value |
| FlexConfirm.Compact | lib/flexConfirm.js:37 | `filter(Boolean)` never adds entries |
| FlexConfirm.Rows | lib/flexConfirm.js:25-37 | definition: `items` after `filter(Boolean)`; see `FlexConfirmProperties.RowsFollowLabelOrder` |
| FlexConfirm.Render | lib/flexConfirm.js:9-41 | the card has one line per present row, and each line reads `【label】value` |
| FlexConfirmProperties.CompactFrom | lib/flexConfirm.js:37 | from any position on, `filter(Boolean)` keeps exactly the present entries, in order |
| FlexConfirmProperties.CompactByIndices | lib/flexConfirm.js:37 | `filter(Boolean)` keeps exactly the present entries, in order |
| FlexConfirmProperties.LabelsDistinct | lib/flexConfirm.js:25-36 | no label occurs twice on the card |
| FlexConfirmProperties.RowsFollowLabelOrder | lib/flexConfirm.js:25-37 | lines follow the fixed label order, a label's line is there exactly when its slot is, and no line is blank |
| FlexConfirmProperties.ShowsSlot | lib/flexConfirm.js:25-37 | the card shows `【label】v` exactly when that label's slot holds `v` |
| FlexConfirmProperties.ShownLineIsSlot | lib/flexConfirm.js:25-37 | a shown line with a label comes from that label's slot |
| FlexConfirmProperties.SlotIsShown | lib/flexConfirm.js:25-37 | a present slot is a line of the card |
| FlexConfirmProperties.TypeLine | lib/flexConfirm.js:26 | the 物件種別 line shows the property type exactly when one is set and not empty |
| FlexConfirmProperties.YearLine | lib/flexConfirm.js:29 | the 築年 line appears only for 戸建て and shows `year_built` when set, otherwise `age_built` |
| FlexConfirmProperties.MethodLine | lib/flexConfirm.js:33 | the 査定方法 line shows the label of `desk`, `online` or `visit`, passes any other non-empty code through, and is absent without a code |
| FlexConfirmProperties.AreaLine | lib/flexConfirm.js:28 | the 面積 line is shown exactly when there is an area text, and shows that text |
| FlexConfirmProperties.ApartmentArea | lib/flexConfirm.js:17-18 | for マンション the area text needs `exclusive` and appends the layout when set |
| FlexConfirmProperties.HouseArea | lib/flexConfirm.js:19-20 | for 戸建て it needs `land` or `building`, a missing one renders empty, and the layout is appended when set |
| FlexConfirmProperties.LandArea | lib/flexConfirm.js:21-22 | for 土地 it shows `land` only, never the layout |
| FlexConfirmProperties.OtherTypeHasNoArea | lib/flexConfirm.js:16-23 | any other type, or none, has no area text |
| FlexConfirmProperties.LayoutIgnoredForOtherTypes | lib/flexConfirm.js:16-23 | for a type other than マンション and 戸建て, the layout does not change the card |
| FlexConfirmProperties.AddressFromParts | lib/flexConfirm.js:7-27 | without a building name, the 住所 line of a set prefecture, city and street is the three run together in that order |
| FlexConfirmProperties.FalsyAddressPartsAddNothing | lib/flexConfirm.js:7 | an absent or empty prefecture, city or street adds nothing to the address text, and an address with no parts reads like no address |
| FlexConfirmProperties.AddressLine | lib/flexConfirm.js:27 | the 住所 line is shown exactly when the address text is not empty, and shows that text |
| FlexConfirmProperties.AddressWithoutName | lib/flexConfirm.js:27 | without a building name the address text is the trimmed joined address, whatever the room number |
| FlexConfirmProperties.AddressWithName | lib/flexConfirm.js:27 | with a building name, ` name` follows the joined address, then ` room` when set, and the whole is trimmed |
| FlexConfirmProperties.ContactLine | lib/flexConfirm.js:35 | the ご連絡 line is the method (`undefined` when absent) plus `／【氏名】name` when a name is set; it is missing only for an empty stored method and no name |
| FlexConfirmProperties.ContactDetailsNeverRendered | lib/flexConfirm.js:25-37 | phone, e-mail and privacy consent never change the card |
| App.IsRestart | app.js:133 | definition: the five restart words; see `AppProperties.RestartFromEveryState` and `AsciiIsNotRestart` |
| App.IsThanks | app.js:282 | definition: the four thank-you phrases; see `AppProperties.ThanksOnlyForThanks` |
| App.MethodCode | app.js:242 | an appraisal-method label is stored as `desk`, `online` or `visit` |
| App.EditTarget | app.js:139-153 | definition: the edit-menu jump table; see `EditTargetRange` and `AppProperties.EditStepOnlyMoves` |
| App.EditStep | app.js:138-155 | definition: a jump, or back to the card at app.js:154; see `AppProperties.EditStepOnlyMoves` |
| App.StreetNext | app.js:166-171 | definition: the step after the street; see `AppProperties.AddressSteps` |
| App.LayoutNext | app.js:216-218 | definition: the step after the layout; see `AppProperties.LayoutRouting` |
| App.NameNext | app.js:255-258 | definition: the step after the name; see `AppProperties.NameRouting` |
| App.AreaAfter | app.js:199-203 | definition: the area an accepted ASK_AREA number leaves; see `AppProperties.AreaShape` |
| App.PropertyRule | app.js:157-230 | definition: the property half of the per-state rules; see `PropertyRuleKeepsInv` and the `AppProperties` step lemmas |
| App.CustomerRule | app.js:232-279 | definition: the customer half of the per-state rules; see `CustomerRuleKeepsInv` and the `AppProperties` step lemmas |
| App.RuleStep | app.js:157-284 | definition: the rule of the state's half, or the fallback of app.js:282-284; see `RuleKeepsInv` and `NoRuleApplies` |
| App.TextStep | app.js:129-285 | definition: trim, restart, edit menu, then the per-state rules; see `AppProperties.TextIsTrimmedFirst` and `TextStepOfTrimmed` |
| App.PostbackStep | app.js:106-126 | definition: the postback branch; see `AppProperties.StartPostbackFromEveryState` and `SubmitOnlyWhileConfirming` |
| App.EventStep | app.js:94-286 | definition: the follow, postback and text branches; see `EventKeepsInv` and `AppProperties.RunKeepsInv` |
| App.NoRuleApplies | app.js:282-284 | when no rule of the state's half applies, the session is left alone and only a thank-you phrase is answered |
| App.RuleKeepsInv | app.js:157-279 | the per-state rules keep the invariant and never meet a TypeError |
| App.PropertyRuleKeepsInv | app.js:157-230 | the property rules keep the invariant and never meet a TypeError |
| App.AddressRulesKeepInv | app.js:158-197 | the type, address and building rules keep the invariant: the city and street steps find the address |
| App.AreaRulesKeepInv | app.js:199-230 | the area, layout, year, status and break rules keep the invariant: the building-area step finds the land area |
| App.CustomerRuleKeepsInv | app.js:232-279 | the customer rules keep the invariant |
| App.SaleRulesKeepInv | app.js:232-254 | the owner, reason, method, timing and contact-method rules keep the invariant |
| App.ContactRulesKeepInv | app.js:255-279 | the name, phone, e-mail, notes and consent rules keep the invariant |
| App.EditKeepsInv | app.js:138-155 | the edit menu keeps the invariant |
| App.EditTargetRange | app.js:138-155 | the jump table never lands on INIT, the type question, the city, the street or the building area, and lands on the land area only for 戸建て |
| App.TextKeepsInv | app.js:129-285 | every text message keeps the invariant and never meets a TypeError |
| App.EventKeepsInv | app.js:94-286 | every event keeps the invariant and never meets a TypeError |
| App.Session.constructor | app.js:99 | a new session is `{INIT, {}}` |
| App.Session.StartFlow | app.js:30-36 | the session is reset to the property-type question with empty answers |
| App.Session.ShowConfirm | app.js:43-48 | the session waits for submit or edit, keeps its answers and shows their card |
| App.Session.HandleFollow | app.js:103 | a follow event greets and changes nothing |
| App.Session.HandlePostback | app.js:106-126 | the new state, answers and reply are those `PostbackStep` gives for the old ones |
| App.Session.HandleEditMenu | app.js:138-155 | the edit menu writes only `state`, as the jump table says |
| App.Session.HandlePropertyAnswer | app.js:157-230 | a matching property rule updates the session as `PropertyRule` says; otherwise nothing changes and the rule falls through |
| App.Session.HandleSaleAnswer | app.js:232-254 | a matching sale rule updates the session as `CustomerRule` says; otherwise nothing changes |
| App.Session.HandleContactAnswer | app.js:255-279 | a matching contact rule updates the session as `CustomerRule` says; otherwise nothing changes |
| App.Session.HandleText | app.js:129-285 | the new state, answers and reply are those `TextStep` gives for the old ones |
| App.Session.Handle | app.js:102-285 | the new state, answers and reply are those `EventStep` gives for the old ones |
| App.SessionStore.constructor | app.js:14 | the store starts empty |
| App.SessionStore.SessionFor | app.js:98-100 | the stored session is returned, or a fresh `{INIT, {}}` is stored under the user id |
| App.SessionStore.HandleEvent | app.js:94-286 | an event without a user id changes nothing; otherwise only that user's session changes, as `EventStep` says, and no session ever meets a TypeError |
| AppProperties.RestartFromEveryState | app.js:130-135 | a restart word resets the session to `{ASK_TYPE, {}}` from every state, the edit menu included |
| AppProperties.StartPostbackFromEveryState | app.js:108 | the START_APPRAISAL postback resets the session from every state |
| AppProperties.TextIsTrimmedFirst | app.js:130 | surrounding white space never changes what a text does |
| AppProperties.TextStepOfTrimmed | app.js:130-138 | a trimmed non-restart text goes to the edit menu or to the per-state rules |
| AppProperties.PropertyTextStep | app.js:157-230 | in a property state such a text goes to the property rules |
| AppProperties.CustomerTextStep | app.js:232-279 | in a customer state such a text goes to the customer rules |
| AppProperties.EditTextStep | app.js:138-155 | in the edit menu such a text goes to the jump table |
| AppProperties.AsciiIsNotRestart | app.js:133 | a text holding a character below U+0080 is no restart word |
| AppProperties.LayoutIsPlain | app.js:215 | the layouts are trimmed and are no restart words |
| AppProperties.MethodLabelIsPlain | app.js:241 | the appraisal-method labels are trimmed and are no restart words |
| AppProperties.ContactMethodIsPlain | app.js:250 | the contact methods are trimmed and are no restart words |
| AppProperties.RetryIffRejected | app.js:191-266 | a re-prompt happens exactly when a validated state's validator refuses the text, and it changes nothing |
| AppProperties.PropertyRetry | app.js:190-223 | in the property half, a re-prompt is exactly a refusal by the room, number or year validator |
| AppProperties.CustomerRetry | app.js:260-268 | in the customer half, a re-prompt is exactly a refusal of the phone number or e-mail address |
| AppProperties.AcceptedInputMovesOn | app.js:190-268 | an accepted input in a validated state moves to another state and asks its question |
| AppProperties.PropertyAccepted | app.js:190-223 | an accepted room number, area or year moves on |
| AppProperties.CustomerAccepted | app.js:260-268 | an accepted phone number or e-mail address moves on to the notes |
| AppProperties.AddressSteps | app.js:162-172 | the prefecture step always starts a new address; with an address the city and street are written into it, and after the street comes the building name for マンション, the land area for 戸建て and the area otherwise; without one both end in the TypeError |
| AppProperties.LayoutRouting | app.js:215-218 | a listed layout is stored; 戸建て is asked the building year next, and any other type the occupancy |
| AppProperties.NameRouting | app.js:254-258 | after the name comes the phone for 電話, the e-mail for メール and the notes otherwise |
| AppProperties.AreaShape | app.js:199-204 | an accepted area is `{exclusive}` for マンション and `{land}` for 土地, is left alone for any other type, and the layout comes next |
| AppProperties.HouseAreaShape | app.js:205-213 | the land area replaces the area with `{land}`, and the building area is then added to it |
| AppProperties.NumIsNotRestart | app.js:24 | a number is never a restart word |
| AppProperties.AptNameStep | app.js:175-187 | the building name is always stored; with a room at the end of the line, the room is stored and the area is asked, otherwise the room number is left alone and asked next |
| AppProperties.RoomStep | app.js:190-196 | an accepted room number is stored with all white space removed |
| AppProperties.YearOrAge | app.js:220-223 | an accepted `築n年` is stored in `age_built` and any other accepted year in `year_built`, nothing else changes, and the occupancy is asked next |
| AppProperties.SubmitOnlyWhileConfirming | app.js:109-117 | SUBMIT closes the session and hands the answers on only while the card waits; elsewhere it changes nothing |
| AppProperties.EditOnlyWhileConfirming | app.js:118-124 | EDIT opens the edit menu only while the card waits; elsewhere it changes nothing |
| AppProperties.OtherPostbacksChangeNothing | app.js:103-125 | any other postback, an absent payload included, and a follow event leave the session as it is |
| AppProperties.EditMenuOnlyMoves | app.js:138-155 | in the edit menu the answers never change; a label jumps to a question and any other text shows the card again |
| AppProperties.EditStepOnlyMoves | app.js:138-155 | the jump table keeps the answers, jumps for each of the 15 labels and shows the card for anything else |
| AppProperties.EditArea | app.js:142 | 面積 asks the land area exactly for 戸建て, and the area otherwise |
| AppProperties.EditContact | app.js:152 | 連絡先 asks the phone exactly when the contact method is 電話, and the e-mail otherwise |
| AppProperties.EditLayoutJump | app.js:143 | 間取り jumps to the layout question and keeps the answers |
| AppProperties.UnmatchedChangesNothing | app.js:157-284 | nothing changes exactly when the text is no restart word and either the state has no rule (INIT, the card, DONE) or a choice state refuses it; then only a thank-you phrase is answered |
| AppProperties.RefusedChangesNothing | app.js:157-284 | a refused or ruleless text leaves the session alone |
| AppProperties.PropertyRefused | app.js:158-229 | a property choice state that refuses the text leaves the session alone |
| AppProperties.CustomerRefused | app.js:233-279 | a customer choice state that refuses the text, or a state with no rule, leaves the session alone |
| AppProperties.RuleMovesOn | app.js:157-279 | a rule that applies always changes the state or re-prompts |
| AppProperties.PropertyMovesOn | app.js:157-230 | a property rule that applies changes the state or re-prompts |
| AppProperties.CustomerMovesOn | app.js:232-279 | a customer rule that applies changes the state or re-prompts |
| AppProperties.ThanksOnlyForThanks | app.js:282-283 | a thank-you reply is given only to one of the four thank-you phrases |
| AppProperties.PropertyThanks | app.js:157-230 | the property half answers a thank-you only to a thank-you phrase, and then changes nothing |
| AppProperties.CustomerThanks | app.js:232-279 | the customer half answers a thank-you only to a thank-you phrase, and then changes nothing |
| AppProperties.MethodStep | app.js:241-245 | an appraisal method is stored as its code and the timing is asked next |
| AppProperties.MethodCodeRoundTrip | app.js:242 | the card shows the stored code as the label that was chosen |
| AppProperties.ContactMethodStep | app.js:250-253 | a listed contact method is stored and the name is asked next |
| AppProperties.PhoneStep | app.js:260-264 | an accepted phone number is stored and the notes are asked next |
| AppProperties.MailStep | app.js:265-269 | an accepted e-mail address is stored and the notes are asked next |
| AppProperties.NotesStep | app.js:270-275 | `なし` leaves the notes unset, any other text is stored, and the consent is asked next |
| AppProperties.PrivacyStep | app.js:276-279 | consent records the agreement and shows the card of the answers |
| AppProperties.ConsentCardShowsAnswers | app.js:276-279 | the card shown after consent has the same lines as the answers had before it |
| AppProperties.RunKeepsInv | app.js:94-286 | any sequence of events keeps the invariant and never meets a TypeError |
| AppProperties.NewSessionKeepsInv | app.js:99 | from a new session, no sequence of events meets a TypeError |
| AppProperties.OnlyConsentShowsCard | app.js:139-155 | outside the card and the edit menu, only the privacy consent leads to the card, so an edit resumes the main sequence |
| AppProperties.PropertyNeverConfirms | app.js:157-230 | no property rule leads to the card |
| AppProperties.CustomerConfirmsOnConsent | app.js:232-279 | in the customer half only the consent leads to the card |
| AppProperties.ContactDetailsNeverCleared | app.js:138-279 | no non-restart text clears a stored phone number or e-mail address |
| AppProperties.PropertyKeepsCustomerFields | app.js:157-230 | the property rules write only property fields |
| AppProperties.CustomerKeepsContact | app.js:232-279 | the customer rules never clear a phone number or an e-mail address |
| AppProperties.PhoneAndMailCanBothBeSet | app.js:265-269 | the e-mail step keeps a stored phone number, so both can be set |

## Left out

- Transport: the Express server, the LINE middleware, `client.replyMessage`, and the `qr` and `say` builders (app.js:1-21, app.js:83-91, app.js:288-292). Replies are the abstract `Reply` tags. The exact prompt wording is not modelled; the accepted vocabularies are.
- `saveAndNotify` (app.js:51-67) performs network calls. SUBMIT is modelled as the `Submitted` reply that carries the answers to send, plus the move to DONE.
- `Promise.all` over a batch of events (app.js:85): the model applies one event to one session at a time.
- Environment variables: `PRIVACY_URL` only changes the consent prompt, and the credentials are used only by the transport.
- The template file and the card envelope (lib/flexConfirm.js:2, 10-11, 39-40). The model keeps only the lines of `items`. Because `Render` is a function of the answers, repeated calls give the same lines, and there is no shared template to alter. The deep copy that makes this so in the source is not modelled.
- The `Confirm` reply carries the answers whose card is shown, not the rendered lines. `AppProperties.ConsentCardShowsAnswers` relates the two through `Render`.
- `z`'s numeric-zero case (lib/flexConfirm.js:5): every stored answer is a string, so a numeric 0 cannot occur. `z` is modelled for strings only.
- FlexConfirm.MethodLabel: an object-literal lookup in JavaScript also finds inherited keys such as `toString`. That is not modelled; only the three own keys are looked up.
- App.Session.StartFlow: `startFlow` stores a new object in the map. The model resets the fields of the existing session instead. Since the model handles one event at a time (see `Promise.all` above), nothing else holds a reference to the old session, so the difference cannot be observed. With events of one batch interleaved, a SUBMIT suspended at `await saveAndNotify` (app.js:110) would write `DONE` into the discarded object in the source, but into the live session in the model.
- The TypeError paths, where a field that does not exist is read (city and street before an address exists, building area before a land area), are modelled as a `Fault` reply that changes nothing. `App.EventKeepsInv` shows that no reachable session takes one of them; what the source does after such an error is not modelled.
- The per-state chain of app.js:157-279 is split into three methods, one per group of rules (property, sale, contact), called in the source's order. The rules and their order are unchanged.
- scripts/list-richmenus.mjs is an admin script with no dialog logic; it is not part of this model.
