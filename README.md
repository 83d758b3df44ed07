# Lead-collection bot: a verified model of its core

The bot collects requests ("leads") from Telegram users for a construction and
renovation business. A user picks a language and starts a request with `/new`
or the "➕ New request" button. A multi-step form then asks, in order, for:

1. the name;
2. the phone;
3. the email, which can be skipped;
4. the project description;
5. attachments, which can be skipped.

After that comes a preview, from which the user can send, cancel or edit one
field. A repeat customer is first offered the contact data of their previous
request. Sent requests are stored in a leads table. The administrator gets a
structured report built by a deterministic "enhancer". Users can list their
own requests and cancel one of them. Every text comes from a three-language
table (ru, me, en) that falls back to English.

The Dafny model covers this core in modules that follow the program's files:

| module | models | form |
|---|---|---|
| `States` (states.dfy) | the eight states of the `LeadForm` group | datatype, pure |
| `Fsm` (fsm.dfy) | the per-user session: optional state plus the draft dictionary | `class Session` with `Clear`, `SetState`, `UpdateData` |
| `Validators` (validators.dfy) | `validate_phone`, `validate_email`, the inline name and description rules | pure predicates + lemmas |
| `LeadFlow` (leadflow.dfy) | the lead form's handlers, `cmd_new_lead` … `process_field_selection`, and `format_lead_preview` | imperative methods on `Session` and `LeadStore`, each proved equal to a pure step function |
| `Common`, `Start`, `MyLeads` | the shared handlers, `/start`, the "my requests" menu and lead cancelling | imperative methods |
| `Router` (router.dfy) | which handler an update reaches, given the routers' inclusion order and each handler's filters; the effect of one update and of a run of updates on the session | pure routing + `Dispatch` method + invariant lemmas |
| `Store` (store.dfy) | the users and leads tables of db.py | `class LeadStore` over `seq<Lead>`, `map<int,string>` and an AUTOINCREMENT counter |
| `Locales` (locales.dfy) | the `TEXTS` table, `get_text`, `format_text`, `SUPPORTED_LANGUAGES`, `LANGUAGE_NAMES` | pure |
| `Keyboards` (keyboards.dfy) | the buttons and callback strings of every keyboard and their `split(":")[1]` read-back | pure functions + the two builder loops as methods |
| `Enhancer` (enhancer.dfy) | ai_enhancer.py: sentence splitting, key points, project type, urgency, budget, report | pure functions; the report builder as methods |
| `Config` (config.py) | required and optional environment lookups and the `ADMIN_CHAT_ID` integer check | pure |
| `Strings`, `Decimal`, `Wrappers` | the Python built-ins the code relies on: `strip`, `lower`, `in`, slicing, `split`, `join`, `str(int)`, `int(str)` | pure |

The model follows the code where the code differs from the documented intent:

- **Editing continues the first pass.** `process_field_selection` only records
  `editing_field`, and nothing reads it (app/handlers/lead_flow.py:660). After
  an edit, the ordinary chain continues: name → phone → email → …. The user
  does not return straight to the preview (`LeadFlow.EditNameContinuesFirstPass`).
- **"Change" keeps the staged data.** On `confirm_data:change` the `old_*`
  fields stay in the draft; only the state goes back to the name
  (`LeadFlow.ChangeDataKeepsOld`).
- **Two callbacks have no state filter.** `skip:email` and `confirm_data:` are
  handled in any state. A stale `skip:email` pressed with no form open reaches
  the description question without a name or phone. The later `files:done`
  then fails with a KeyError while the state is already `preview`
  (`LeadFlow.StaleSkipReachesPreviewEmpty`, `Router.StaleSkipBreaksInvariant`).
  A stale `confirm_data:use` pressed in the email step, with the previous
  data still staged, also passes the email step
  (`Router.OnlyOptionalStepsSkip`).
  The form invariant holds for every other update (`Router.RoutingKeepsInvariant`,
  `Router.RunKeepsInvariant`).

## Model

| member | source | states |
|---|---|---|
| States.ExactlyEightStates | app/states.py:23-30 | there are exactly eight distinct states, each listed once, and each state's name reads back as that state |
| States.NextInFirstPass | app/states.py:14-20 | a first-pass successor exists exactly for the documented steps other than the preview |
| States.FirstPassChain | app/states.py:14-20 | each step of the documented order name → phone → email → description → files → preview is followed by the next, and the preview by none |
| States.SideStates | app/states.py:14 | confirm_data and editing lie outside the first pass, and every other state lies on it |
| States.Skippable | app/handlers/lead_flow.py:355-450 | the email and files steps, the two the form lets a user pass without an answer; Router.OnlyOptionalStepsSkip shows they are the only ones |
| Fsm.Session.constructor | app/handlers/lead_flow.py:224 | a new session has no state and an empty draft |
| Fsm.Session.Clear | app/handlers/lead_flow.py:559 | `state.clear()` leaves no state and an empty draft |
| Fsm.Session.SetState | app/handlers/lead_flow.py:319 | `set_state` changes the state and keeps the draft |
| Fsm.Session.UpdateData | app/handlers/lead_flow.py:318 | `update_data` replaces the draft and keeps the state |
| Validators.DigitsOf | app/handlers/lead_flow.py:58 | `re.sub(r'\D', '', s)` keeps only digits and never lengthens the text |
| Validators.DigitsOfCounts | app/handlers/lead_flow.py:58 | the digits kept are exactly as many as the digit positions of the text |
| Validators.PhoneRule | app/handlers/lead_flow.py:58-59 | a phone is valid if and only if it holds at least ten digit characters |
| Validators.ValidatePhone | app/handlers/lead_flow.py:43-59 | validate_phone: at least ten digits once non-digits are dropped (stated by PhoneRule and PhoneIgnoresNonDigit) |
| Validators.DigitsOfAppend | app/handlers/lead_flow.py:58 | the digits of a concatenation are the digits of each part, in order |
| Validators.PhoneIgnoresNonDigit | app/handlers/lead_flow.py:58-59 | inserting a non-digit anywhere never changes the phone verdict |
| Validators.IndexOf | app/handlers/lead_flow.py:74 | the first occurrence of a character, or None exactly when it is absent |
| Validators.LastIndexOf | app/handlers/lead_flow.py:74 | the last occurrence of a character, or None exactly when it is absent |
| Validators.MatchPieces | app/handlers/lead_flow.py:74 | a matched address splits at its first '@' into a non-empty local part of the allowed characters and a matching domain |
| Validators.DomainPieces | app/handlers/lead_flow.py:74 | a matched domain splits at its last dot into a non-empty domain and a label of at least two letters |
| Validators.MatchesHasShape | app/handlers/lead_flow.py:74 | every text the matcher accepts has the L@D.T shape of the pattern |
| Validators.ShapeMatches | app/handlers/lead_flow.py:74 | every text of the L@D.T shape is accepted by the matcher |
| Validators.EmailMatchesShape | app/handlers/lead_flow.py:74 | the matcher accepts exactly the L@D.T shape |
| Validators.EmailRule | app/handlers/lead_flow.py:74-75 | `validate_email(e)` holds if and only if `e.strip()` has the L@D.T shape |
| Validators.ValidateEmail | app/handlers/lead_flow.py:62-75 | validate_email: `re.match` of the pattern on the stripped text (exact shape stated by EmailRule) |
| Validators.NameAccepted | app/handlers/lead_flow.py:310 | the name rule: at least two characters once stripped (used by ProcessName and StepsFollowFirstPass) |
| Validators.DescriptionAccepted | app/handlers/lead_flow.py:418 | the description rule: at least ten characters once stripped (used by ProcessDescription and StepsFollowFirstPass) |
| Validators.EmailNeedsAt | app/handlers/lead_flow.py:74-75 | a text with no '@' is never a valid email |
| Validators.ShortestEmailAccepted | app/handlers/lead_flow.py:74-75 | "a@b.co" is accepted |
| Validators.NoAtInLocal | app/handlers/lead_flow.py:74 | the local-part character class holds no '@', so the first '@' is the separator |
| Validators.NoDotInLetters | app/handlers/lead_flow.py:74 | the top-level label holds no dot, so the last dot is the separator |
| Validators.DomainOf | app/handlers/lead_flow.py:74 | a domain and a two-letter-or-longer label joined by a dot match the part after '@' |
| Validators.FirstAtAfter | app/handlers/lead_flow.py:74 | when the local part holds no '@', the first '@' is the one after it |
| Validators.LastDotBefore | app/handlers/lead_flow.py:74 | when the label holds no dot, the last dot is the one before it |
| LeadFlow.NewLead | app/handlers/lead_flow.py:208-260 | `/new` ends in NewLeadStep of the stored language and the user's newest lead |
| LeadFlow.ConfirmDataOnlyForRepeat | app/handlers/lead_flow.py:227-247 | `/new` enters confirm_data exactly when the user has a stored lead, and otherwise the name question with only the language in the draft |
| LeadFlow.DataConfirmation | app/handlers/lead_flow.py:263-295 | the "use" action copies the old contact data and asks for the description; a draft without it raises and stays unchanged; any other action returns to the name |
| LeadFlow.ChangeDataKeepsOld | app/handlers/lead_flow.py:289-291 | an action other than "use" goes to the name question with the draft unchanged |
| LeadFlow.ProcessName | app/handlers/lead_flow.py:298-322 | the name is accepted exactly when it has at least two characters once stripped; the session ends in NameStep |
| LeadFlow.ProcessPhone | app/handlers/lead_flow.py:325-352 | the phone is accepted exactly when its stripped text passes validate_phone; the session ends in PhoneStep |
| LeadFlow.SkipEmail | app/handlers/lead_flow.py:355-373 | skip stores no email and moves to the description whatever the state |
| LeadFlow.ProcessEmail | app/handlers/lead_flow.py:376-403 | the email is accepted exactly when its stripped text passes validate_email; the session ends in EmailStep |
| LeadFlow.ProcessDescription | app/handlers/lead_flow.py:406-433 | the description is accepted exactly when it has at least ten characters once stripped; the session ends in DescriptionStep |
| LeadFlow.StepsFollowFirstPass | app/handlers/lead_flow.py:310-433 | every accepted answer moves to the next state of the documented order, and a rejected one changes neither state nor draft |
| LeadFlow.FilesFinished | app/handlers/lead_flow.py:436-469 | the state becomes preview before the preview is built; the preview text is that of the draft, or None for the KeyError of an incomplete draft |
| LeadFlow.FileUpload | app/handlers/lead_flow.py:472-510 | an upload ends in FileUploadStep of the media received |
| LeadFlow.UploadAppendsOne | app/handlers/lead_flow.py:483-504 | an upload appends exactly one attachment at the end, keeping the earlier ones and the state |
| LeadFlow.ConfirmSend | app/handlers/lead_flow.py:513-579 | send saves exactly when the draft passes save_lead's checks and appends that row under the next id; after a save the administrator's notification is NotificationText of the saved id, the user, the draft's fields, the enhanced report and the language; the session ends in every case |
| LeadFlow.SaveDraft | app/handlers/lead_flow.py:529-556 | the save and notification of the send step for a draft: a row under the next id exactly when the draft passes save_lead's checks, with the notification built from it; the languages table is unchanged |
| LeadFlow.CancelForm | app/handlers/lead_flow.py:582-619 | cancelling from the preview or the files step ends the session |
| LeadFlow.ConfirmEdit | app/handlers/lead_flow.py:622-642 | "edit" moves to the editing state with the draft kept |
| LeadFlow.FieldSelection | app/handlers/lead_flow.py:645-680 | the field is recorded and the state moves to that field's question; an unknown field keeps the state |
| LeadFlow.EditButtonsReachFields | app/handlers/lead_flow.py:663-677 | every button of the edit keyboard names a field process_field_selection handles |
| LeadFlow.EditNameContinuesFirstPass | app/handlers/lead_flow.py:318-319 | after editing the name from the preview, an accepted name moves to the phone question, not back to the preview |
| LeadFlow.EditDescriptionDropsFiles | app/handlers/lead_flow.py:418-427 | editing the description resets the attachments to the empty list |
| LeadFlow.FirstApplication | app/handlers/lead_flow.py:208-469 | a first request with valid answers and the email skipped reaches the preview holding the stripped answers, and save_lead's checks pass |
| LeadFlow.RepeatApplication | app/handlers/lead_flow.py:263-469 | a repeat request that reuses the stored data reaches the preview with the previous name, phone and email unchanged, and save_lead's checks pass |
| LeadFlow.StaleSkipReachesPreviewEmpty | app/handlers/lead_flow.py:355-373 | a stale skip:email from an idle session reaches the preview without name or phone, so there is no preview text and nothing can be saved |
| LeadFlow.NewLeadStep | app/handlers/lead_flow.py:224-257 | the session /new leaves: confirm_data with the last lead's name, phone and email staged, or the name question; stated by ConfirmDataOnlyForRepeat and NewLead |
| LeadFlow.DataConfirmationStep | app/handlers/lead_flow.py:276-291 | "use" copies the staged data and asks for the description, any other action returns to the name; stated by DataConfirmation and ChangeDataKeepsOld |
| LeadFlow.NameStep | app/handlers/lead_flow.py:310-319 | an accepted name is stored stripped and the phone is asked next; stated by StepsFollowFirstPass |
| LeadFlow.PhoneStep | app/handlers/lead_flow.py:337-346 | an accepted phone is stored stripped and the email is asked next; stated by StepsFollowFirstPass |
| LeadFlow.SkipEmailStep | app/handlers/lead_flow.py:367-369 | no email is stored and the description is asked next; stated by StepsFollowFirstPass and Router.OptionalStepsPass |
| LeadFlow.EmailStep | app/handlers/lead_flow.py:388-397 | an accepted email is stored stripped and the description is asked next; stated by StepsFollowFirstPass |
| LeadFlow.DescriptionStep | app/handlers/lead_flow.py:418-427 | an accepted description is stored stripped with no attachments, and the files step follows; stated by StepsFollowFirstPass and EditDescriptionDropsFiles |
| LeadFlow.FilesFinishedStep | app/handlers/lead_flow.py:449-450 | the state becomes preview with the draft kept; stated by StepsFollowFirstPass |
| LeadFlow.FileUploadStep | app/handlers/lead_flow.py:483-504 | the file id of the largest photo, the document or the video is appended; stated by UploadAppendsOne |
| LeadFlow.EditStep | app/handlers/lead_flow.py:636 | the state becomes editing with the draft kept; stated by ConfirmEdit |
| LeadFlow.FieldSelectionStep | app/handlers/lead_flow.py:660-677 | the field is recorded and the state moves to its question; stated by FieldSelection and EditButtonsReachFields |
| LeadFlow.SavePasses | app/handlers/lead_flow.py:533-541 | the draft holds the keys the save reads and passes save_lead's checks; ConfirmSend saves exactly when it holds, and Router.InvariantMeansSave derives it from the form invariant |
| LeadFlow.Report | app/handlers/lead_flow.py:144-152 | the enhanced description of the draft; its shape is stated by Enhancer.EnhanceLeadDescription and Enhancer.ReportFrame |
| LeadFlow.FormatLeadPreview | app/handlers/lead_flow.py:78-107 | format_text of preview_lead with the four fields, the email replaced by email_not_provided when empty; stated by PreviewShows |
| LeadFlow.PreviewText | app/handlers/lead_flow.py:446-462 | the preview plus the attachments line, or None for the KeyError of a draft without name, phone or description; stated by PreviewShows |
| LeadFlow.FilesInfo | app/handlers/lead_flow.py:452-453 | empty exactly when there are no attachments; otherwise the attachments label followed by a number that reads back as their count |
| LeadFlow.PreviewParts | app/locales.py:468-486 | the preview template of every language splits into five brace-free pieces around the four fields |
| LeadFlow.PreviewTemplate | app/locales.py:468-486 | the preview_lead text of every language, English for any other code, is those pieces with the full_name, phone, email and description fields between them |
| LeadFlow.PreviewShows | app/handlers/lead_flow.py:446-462 | with name, phone and description in the draft the preview is the language's template with the stored values, or email_not_provided, filled in order, then the attachments line; without them there is no preview |
| LeadFlow.EmailDisplay | app/handlers/lead_flow.py:141 | the email, or the English email_not_provided text when it is missing or empty (stated by NotificationShows) |
| LeadFlow.NotificationPieces | app/handlers/lead_flow.py:154-166 | the nine pieces of notification_text: heading, name, Telegram ID, phone, email, framed report, DB id, language and time |
| LeadFlow.NotificationText | app/handlers/lead_flow.py:154-166 | the administrator's notification, the pieces joined; stated by NotificationShows |
| LeadFlow.NotificationShows | app/handlers/lead_flow.py:154-166 | the notification starts with the admin_notification heading, holds the report between two rules, the DB id line whose number reads back as the id, and the upper-cased language, shows the English fallback for a missing email, and ends with the time line |
| Common.Cancel | app/handlers/common.py:50-78 | `/cancel` ends an open form; with no state it changes nothing |
| Common.LanguageRequest | app/handlers/common.py:82-150 | while a form is open only the warning keyboard is shown, otherwise the language keyboard; the session is not touched |
| Common.ConfirmLanguageChange | app/handlers/common.py:154-204 | "yes" ends the session, any other answer keeps it |
| Common.ChangeLanguage | app/handlers/common.py:207-266 | an unsupported code writes nothing and keeps the session; a supported one is stored for the user and then the session ends |
| Common.SupportedAreStorable | app/handlers/common.py:225-228 | the codes the handler accepts are exactly the ones the users table accepts |
| Common.LanguageChangeOutcome | app/handlers/common.py:225-235 | the session ends exactly when the code is supported (or was already idle); an unsupported code keeps state and draft |
| Common.CancelStep | app/handlers/common.py:66-76 | /cancel: an open form ends, an idle session is kept; stated by Cancel and Router.CancelAlwaysReachable |
| Common.LanguageConfirmStep | app/handlers/common.py:166-172 | "yes" ends the session, anything else keeps it; stated by ConfirmLanguageChange |
| Common.LanguageChangeStep | app/handlers/common.py:225-235 | a supported code ends the session; stated by LanguageChangeOutcome |
| Start.StartCommand | app/handlers/start.py:23-59 | `/start` ends any open form and greets in the stored language, or shows the English language prompt when none is stored |
| Start.SelectLanguage | app/handlers/start.py:63-102 | a supported code is stored as exactly that code for the user; an unsupported one writes nothing |
| Start.StartStep | app/handlers/start.py:41-44 | /start ends an open form and keeps an idle session; stated by StartCommand and Router.HandleStart |
| Start.Greeting | app/handlers/start.py:47-59 | welcome and menu in the stored language, or the English language prompt; stated by StartCommand |
| MyLeads.DateOf | app/handlers/my_leads.py:74 | the displayed date is the prefix of created_at before its first 'T' |
| MyLeads.DateOfTimestamp | app/handlers/my_leads.py:74 | the date of "date T time" is the date, and a text without 'T' is shown whole |
| MyLeads.ListingAppend | app/handlers/my_leads.py:70-84 | the listing of two runs of leads is the first listing followed by the second |
| MyLeads.ListingOfOne | app/handlers/my_leads.py:77 | a lead's block shows its description cut to 50 characters plus "..." when longer |
| MyLeads.ListingEntry | app/handlers/my_leads.py:70-84 | one lead's block: id, description cut to 50, date; stated by ListingOfOne |
| MyLeads.Listing | app/handlers/my_leads.py:70-84 | the blocks of the leads in order; stated by ListingAppend and ListingOfOne |
| MyLeads.SelectStep | app/handlers/my_leads.py:138-160 | a found lead is recorded as cancel_lead_id and nothing else changes; stated by SelectionIsOwned and Router.RecordSelection |
| MyLeads.ShowLeads | app/handlers/my_leads.py:44-90 | the "no leads" text when the user has none, otherwise the heading followed by the blocks of the user's leads, newest first |
| MyLeads.CancelLeadMenu | app/handlers/my_leads.py:94-120 | no keyboard exactly when the user has no leads, otherwise the leads keyboard of the user's leads |
| MyLeads.FirstWithId | app/handlers/my_leads.py:138 | the first lead with the id, or None exactly when no lead has it |
| MyLeads.SelectionIsOwned | app/handlers/my_leads.py:138-143 | only one of the caller's own leads can be selected, and an id that none of them has selects nothing |
| MyLeads.SelectLead | app/handlers/my_leads.py:124-166 | a value int() rejects changes nothing; an id not among the user's leads stores nothing; an owned one is recorded as cancel_lead_id and its confirmation text is produced |
| MyLeads.CancelConfirm | app/handlers/my_leads.py:170-205 | with no cancel_lead_id nothing is deleted and the session is kept; otherwise the ownership-checked delete runs and the session ends whatever its result |
| MyLeads.CancelBack | app/handlers/my_leads.py:208-232 | the session ends only when the user still has leads |
| Store.SaveCheck | app/db.py:160-167 | the first failing check: name, phone and description must keep something once stripped, and the description needs ten characters |
| Store.StoredEmail | app/db.py:176-180 | an absent or empty email is stored as NULL, any other stripped |
| Store.StoredRowPassesCheck | app/db.py:160-167 | a stored row passes save_lead's checks again |
| Store.RowOk | app/db.py:160-180 | a stored row is stripped, with a name and a phone and a description of ten characters or more; StoredRowPassesCheck shows such a row passes the checks again |
| Store.UserLeads | app/db.py:271-278 | the user's rows, newest first, never more than the table |
| Store.UserLeadsMembers | app/db.py:271-278 | the listing holds exactly the user's rows |
| Store.UserLeadsNewestFirst | app/db.py:271-278 | with ids increasing along the table, the listing's ids strictly decrease |
| Store.NewestIsFirst | app/db.py:206-213 | the head of the listing is the user's row with the largest id |
| Store.LastLead | app/db.py:206-213 | the user's newest row, or None exactly when the user has none |
| Store.Without | app/db.py:310 | deleting by id never adds rows |
| Store.WithoutMembers | app/db.py:310 | what remains after deleting an id is every row with another id |
| Store.WithoutKeepsOrder | app/db.py:310 | deleting keeps the other rows in increasing id order |
| Store.WithoutOneRow | app/db.py:310 | with unique ids, deleting a row's id removes exactly that row |
| Store.WithoutNone | app/db.py:310 | deleting an id below every row's id removes nothing |
| Store.DeleteRemovesExactlyThatRow | app/db.py:299-314 | an owned row that is deleted is the only row that goes, so the table shrinks by one |
| Store.LeadStore.constructor | app/db.py:33-68 | init_db on an empty database: no leads, no users, and the AUTOINCREMENT counter at 1 |
| Store.LeadStore.Valid | app/db.py:33-68 | ids increase along the table and stay below the AUTOINCREMENT counter, every row is RowOk, and every stored language is ru, me or en; the constructor establishes it and SaveUserLanguage, SaveLead and DeleteLead keep it |
| Store.LeadStore.GetUserLanguage | app/db.py:76-97 | the stored code, None exactly for a user without a row |
| Store.LeadStore.SaveUserLanguage | app/db.py:100-129 | a code outside ru, me, en is refused with nothing written; otherwise the user's one row now holds the latest code |
| Store.LeadStore.SaveLead | app/db.py:132-189 | a failing check raises its error and inserts nothing; otherwise the stripped row is appended under a fresh id larger than every earlier one |
| Store.LeadStore.GetUserLeads | app/db.py:257-278 | exactly the user's rows, newest first |
| Store.LeadStore.GetLastLeadByUser | app/db.py:192-213 | the head of get_user_leads, None exactly when that list is empty |
| Store.LeadStore.GetLeadById | app/db.py:216-234 | the row with the id, None exactly when there is none |
| Store.LeadStore.GetAllLeads | app/db.py:237-254 | every row, newest first |
| Store.LeadStore.DeleteLead | app/db.py:281-314 | false and the table unchanged unless a row with that id is owned by the user; otherwise true and exactly that id's rows removed |
| Locales.GetText | app/locales.py:468-486 | the translation of a known key into ru or me, English for any other code, and "[Missing translation: key]" for an unknown key |
| Locales.FallbackToEnglish | app/locales.py:486 | an unsupported language reads the English text |
| Locales.LanguageCodes | app/locales.py:509-516 | the codes of LANGUAGE_NAMES, in order, are SUPPORTED_LANGUAGES |
| Locales.FieldLength | app/locales.py:503 | a replacement field's name runs up to the next brace and holds none |
| Locales.BraceFreePrefix | app/locales.py:503 | text without braces passes through str.format unchanged in front of what follows it |
| Locales.BraceFreeUnchanged | app/locales.py:503 | a template without braces formats to itself whatever the arguments |
| Locales.FieldStep | app/locales.py:503 | a named field is replaced by its argument, or raises KeyError when there is none |
| Locales.MissingArgumentKeepsTemplate | app/locales.py:501-505 | a field naming no argument makes format_text return the raw template |
| Locales.OneFieldFilled | app/locales.py:501-505 | a field with an argument is filled in place |
| Locales.Substitute | app/locales.py:503 | str.format on plain field names, with `{{` and `}}` escapes; stated by FieldLength, BraceFreePrefix, FieldStep and FieldThen |
| Locales.FormatTemplate | app/locales.py:501-505 | the formatted text, the raw template for the KeyError format_text catches, None for errors it lets through; stated by MissingArgumentKeepsTemplate and OneFieldFilled |
| Locales.FormatText | app/locales.py:489-505 | get_text then the format of FormatTemplate; stated by FourFieldsFilled and LeadFlow.PreviewShows |
| Locales.FieldThen | app/locales.py:503 | a field with an argument, followed by more text, is replaced by the argument in front of the formatted rest |
| Locales.FourFieldsFilled | app/locales.py:501-505 | a template of five brace-free pieces around four named fields, all given, formats to the pieces with the arguments in between |
| Keyboards.CallbackValue | app/handlers/common.py:222 | `split(":")[1]` fails exactly when the data has no ':' and never returns a ':' |
| Keyboards.CallbackRoundTrip | app/keyboards.py:28-32 | for prefix and value without ':', the handler reads back exactly the value the keyboard wrote |
| Keyboards.CallbackValueCut | app/keyboards.py:28-32 | a value with its own ':' comes back cut at that ':' |
| Keyboards.LanguageButtons | app/keyboards.py:28-32 | one language button per LANGUAGE_NAMES entry |
| Keyboards.LanguageKeyboard | app/keyboards.py:14-37 | the loop builds exactly those buttons, labelled with the language names in order |
| Keyboards.LanguageButtonsParse | app/keyboards.py:28-32 | every language button's data reads back to its code, and the codes are the supported languages in order |
| Keyboards.EditButtonsCarryFields | app/keyboards.py:89-111 | the edit keyboard carries exactly edit:name, edit:phone, edit:email and edit:description, each read back to its field |
| Keyboards.ConfirmationButtons | app/keyboards.py:40-73 | send, edit, cancel with data confirm:send, confirm:edit, confirm:cancel; stated by FormButtonsData and Router.ConfirmationKeyboardRoutes |
| Keyboards.EditButtons | app/keyboards.py:76-116 | one button per field with data edit:<field>; stated by EditButtonsCarryFields and Router.EditKeyboardRoutes |
| Keyboards.SkipButtons | app/keyboards.py:119-137 | one button with data skip:email; stated by FormButtonsData and Router.SkipKeyboardRoutes |
| Keyboards.ConfirmDataButtons | app/keyboards.py:150-178 | use and change with data confirm_data:use and confirm_data:change; stated by UnfilteredButtonsData and Router.UnfilteredKeyboardsRoute |
| Keyboards.ConfirmCancelButtons | app/keyboards.py:243-271 | confirm and back with data cancel_lead:confirm and cancel_lead:back; stated by UnfilteredButtonsData and Router.UnfilteredKeyboardsRoute |
| Keyboards.FilesButtons | app/keyboards.py:274-308 | done, skip, cancel with data files:done, files:skip, files:cancel; stated by FormButtonsData and Router.FilesKeyboardRoutes |
| Keyboards.LanguageChangeButtons | app/keyboards.py:311-338 | change and continue with data confirm_lang_change:yes and :no; stated by UnfilteredButtonsData and Router.UnfilteredKeyboardsRoute |
| Keyboards.FormButtonsData | app/keyboards.py:40-308 | the skip keyboard carries skip:email, the files keyboard files:done, files:skip and files:cancel, the preview keyboard confirm:send, confirm:edit and confirm:cancel, in that order |
| Keyboards.UnfilteredButtonsData | app/keyboards.py:150-338 | the repeat-data keyboard carries confirm_data:use and :change, the cancel keyboard cancel_lead:confirm and :back, the language-change keyboard confirm_lang_change:yes and :no |
| Keyboards.MainMenuReachesHandlers | app/keyboards.py:195-200 | in every language each main-menu label is one its menu handler filters on |
| Keyboards.MainMenuButtons | app/keyboards.py:181-205 | the four menu labels of the language, sent as text; stated by MainMenuReachesHandlers and Router.MainMenuRoutes |
| Keyboards.NewLeadLabel | app/handlers/my_leads.py:30-32 | the "new request" label of every language is in the new-request filter |
| Keyboards.MyLeadsLabel | app/handlers/my_leads.py:44-46 | the "my requests" label of every language is in the listing filter |
| Keyboards.CancelLeadLabel | app/handlers/my_leads.py:94-96 | the "cancel request" label of every language is in the cancel filter |
| Keyboards.ChangeLanguageLabel | app/handlers/common.py:116-120 | the "change language" label of every language is in the language-button filter |
| Keyboards.ChangeLanguageTextsAre | app/handlers/common.py:116-120 | the language-button filter, built from the table, is the three labels |
| Keyboards.LeadsListButtons | app/keyboards.py:221-235 | one button per lead in input order, then one trailing "leads:back" button |
| Keyboards.LeadsListKeyboard | app/keyboards.py:208-240 | the builder loop produces exactly those buttons |
| Keyboards.LeadButtonRoundTrip | app/keyboards.py:228 | `int(split(":")[1])` of a lead button's data is the lead's id |
| Keyboards.LeadButtonText | app/keyboards.py:223-224 | a lead button reads "#id - " and the description, cut to 30 characters plus "..." when longer |
| Keyboards.LeadButton | app/keyboards.py:221-230 | "#id - " and the cut description, data select_lead:<id>; stated by LeadButtonRoundTrip and LeadButtonText |
| Enhancer.NextBreak | app/ai_enhancer.py:31 | the leftmost separator at or after a position, or None when there is none |
| Enhancer.Sentences | app/ai_enhancer.py:31 | the split yields at least one piece, none of which holds a separator, and a text without one is its own single piece |
| Enhancer.NoBreakBefore | app/ai_enhancer.py:31 | the text before the leftmost separator holds no separator |
| Enhancer.SentencesSplit | app/ai_enhancer.py:31 | a text with a separator splits into at least two pieces, the first being the text before the leftmost one |
| Enhancer.SentencesFirst | app/ai_enhancer.py:31 | a text with no separator, a sentence end, a run of white space and a rest starting without space splits into that text followed by the split of the rest |
| Enhancer.KeepLong | app/ai_enhancer.py:34 | the kept pieces are stripped and longer than five characters |
| Enhancer.KeepLongKeeps | app/ai_enhancer.py:34 | every piece longer than five characters once stripped is kept, stripped |
| Enhancer.KeepLongFrom | app/ai_enhancer.py:34 | every key point is the stripped form of some piece |
| Enhancer.KeepLongAppend | app/ai_enhancer.py:34 | filtering preserves the pieces' order |
| Enhancer.ExtractKeyPoints | app/ai_enhancer.py:18-36 | the stripped pieces of the split longer than five characters, in order; stated by KeepLong, KeepLongKeeps, KeepLongFrom, KeepLongAppend |
| Enhancer.AnyKeyword | app/ai_enhancer.py:64-66 | the keyword loop succeeds exactly when some keyword occurs in the text |
| Enhancer.FirstCategory | app/ai_enhancer.py:63-68 | the first category with a keyword in the text, and None exactly when no category has one |
| Enhancer.ProjectTypeIsFirstMatch | app/ai_enhancer.py:49-68 | the project type is the first category, in declaration order, with a keyword in the lower-cased text |
| Enhancer.NoProjectType | app/ai_enhancer.py:49-68 | there is no project type exactly when no keyword of any category occurs |
| Enhancer.DetectProjectType | app/ai_enhancer.py:39-68 | the first category with a keyword in the lower-cased text; stated by ProjectTypeIsFirstMatch and NoProjectType |
| Enhancer.ExtractUrgency | app/ai_enhancer.py:81-92 | never None; the urgent label exactly when an urgent keyword occurs in the lower-cased text, the normal label otherwise |
| Enhancer.DigitRunEnd | app/ai_enhancer.py:107 | `\d+` takes the longest run of digits |
| Enhancer.SpaceRunEnd | app/ai_enhancer.py:107 | `\s*` takes the longest run of white space |
| Enhancer.CueRunEnd | app/ai_enhancer.py:110 | `[:\s]+` takes the longest run of ':' and white space |
| Enhancer.MatchAtGroup | app/ai_enhancer.py:107-111 | every captured group is a non-empty piece of the text that starts with a digit |
| Enhancer.AmountAtGroup | app/ai_enhancer.py:107-109 | an amount pattern's group is a non-empty digit-led piece of the text starting at the match |
| Enhancer.CueAtGroup | app/ai_enhancer.py:110-111 | a cue pattern's group is a non-empty digit-led piece of the text after the cue word and its ':'/space run |
| Enhancer.AmountAt | app/ai_enhancer.py:107-109 | the amount patterns' group at a start: the digit run, the optional separator and digits tried first, then without; stated by MatchAtGroup, ThousandsGroup, TrailingSpaceGroup |
| Enhancer.CueAt | app/ai_enhancer.py:110-111 | a cue word, a run of ':' and white space, then the digit run as the group; stated by MatchAtGroup |
| Enhancer.MatchAt | app/ai_enhancer.py:106-111 | the group of one pattern at a start; stated by MatchAtGroup |
| Enhancer.SearchFrom | app/ai_enhancer.py:115 | `re.search` finds the leftmost start where the pattern matches, or None when it matches nowhere |
| Enhancer.FirstMention | app/ai_enhancer.py:114-119 | None exactly when no pattern matches anywhere; otherwise a group that starts with a digit (which group: FirstMentionIsFirstPattern) |
| Enhancer.FirstMentionIsFirstPattern | app/ai_enhancer.py:114-119 | when pattern k is the first in list order that matches, the result is its group at its leftmost match |
| Enhancer.ExtractBudgetMention | app/ai_enhancer.py:106-119 | None exactly when no pattern matches the lower-cased text; otherwise the budget prefix followed by a captured group that starts with a digit |
| Enhancer.BudgetIsFirstPattern | app/ai_enhancer.py:106-119 | when pattern k is the first that matches the lower-cased text, the mention is the budget prefix and that pattern's group at its leftmost match |
| Enhancer.MentionOfLowercase | app/ai_enhancer.py:114-117 | on lower-case text the mention is the prefix and the first pattern's group |
| Enhancer.ThousandsGroup | app/ai_enhancer.py:107 | the group of "2 000€" is "2 000" |
| Enhancer.BudgetWithThousandsSpace | app/ai_enhancer.py:106-119 | "2 000€" is reported as a budget of "2 000" |
| Enhancer.TrailingSpaceGroup | app/ai_enhancer.py:107 | the group of "100 €" is "100 ", the space included |
| Enhancer.BudgetKeepsTrailingSpace | app/ai_enhancer.py:106-119 | "100 €" is reported with the trailing space inside the amount |
| Enhancer.StructureDescription | app/ai_enhancer.py:141-162 | the original description is kept verbatim, urgency is always set, and every key point is longer than five characters |
| Enhancer.PointLines | app/ai_enhancer.py:214-215 | one line per point, in order, numbered consecutively |
| Enhancer.PointLinesStep | app/ai_enhancer.py:214-215 | one more point adds one more line with the next number |
| Enhancer.Section | app/ai_enhancer.py:191-203 | a section is its value and an empty line when the value is truthy, and nothing otherwise |
| Enhancer.KeySectionLayout | app/ai_enhancer.py:206-216 | the key-point section is absent without points; otherwise it is the heading, the points numbered 1..n and an empty line |
| Enhancer.ReportFrame | app/ai_enhancer.py:181-228 | the report opens with the language's header and ends with the original-description heading and the quoted text; the lines in between are exactly the present sections |
| Enhancer.ReportBudget | app/ai_enhancer.py:201-203 | a truthy budget appears as its own line after the type and urgency sections |
| Enhancer.ReportKeyPoints | app/ai_enhancer.py:206-216 | with key points, the heading is followed by the points numbered 1..n in order |
| Enhancer.ReportPieces | app/ai_enhancer.py:181-228 | the report is the header, the type, urgency, budget and key sections in that order, and the closing lines |
| Enhancer.ReportLines | app/ai_enhancer.py:181-228 | the report lines in order; stated by ReportFrame, ReportBudget, ReportKeyPoints and ReportPieces |
| Enhancer.AppendPoints | app/ai_enhancer.py:214-215 | the numbering loop appends exactly the numbered point lines |
| Enhancer.AppendSection | app/ai_enhancer.py:191-203 | one conditional section appended to the lines |
| Enhancer.AppendKeySection | app/ai_enhancer.py:206-216 | the key-point section appended to the lines |
| Enhancer.FormatEnhancedDescription | app/ai_enhancer.py:167-228 | the lines built by repeated append are the report lines, joined with newlines |
| Enhancer.EnhanceLeadDescription | app/ai_enhancer.py:231-267 | the report of the structured description; it starts with the header line and ends with the client's text in quotes |
| Config.GetRequired | app/config.py:36-38 | the value, and an error naming the key exactly when the variable is unset or empty |
| Config.GetOptional | app/config.py:53 | the set value, even an empty one, and the default only when the variable is unset |
| Config.Load | app/config.py:59-73 | loaded settings hold the token, the parsed chat id, and the optional values with their defaults |
| Config.LoadErrors | app/config.py:60-67 | loading fails exactly when a required variable is missing or empty or the chat id does not parse, and it reports the first failing step |
| Config.MinimalEnvironment | app/config.py:70-73 | with only the required variables set, the timezone is "Europe/Podgorica", the database "leads.db", and the chat id reads back |
| Router.Dispatch | app/bot.py:49-52 | an update reaches the first matching handler of the start, common, my_leads and lead_flow routers in that order; the session ends where that handler's step puts it, and only the four writing handlers change the store |
| Router.Route | app/bot.py:49-52 | the first handler whose filters match, over the routers in inclusion order, for texts, captioned media and presses; stated by Dispatch, RouteFitsState, CancelAlwaysReachable and MediaRouting |
| Router.RouteText | app/handlers/common.py:50-120 | commands, read as the first word of the text, and menu labels first, then the form question of the state; stated by NotCommand, MenuLabelsBeatTheForm, CancelAlwaysReachable and CancelOnFirstLine |
| Router.RouteMedia | app/handlers/lead_flow.py:472 | a media message whose caption holds a command reaches that command's handler; otherwise a photo, document or video in the files step reaches the upload, and anything else the state's question; stated by MediaRouting and RouteFitsState |
| Router.IsCommand | app/handlers/common.py:50 | Command("name") holds when the first word of the text or caption, as split() finds it, is "/name"; stated by CommandForms and CommandShape |
| Router.CommandForms | app/handlers/common.py:50 | "/name" after white space, alone or followed by white space (a new line included) and arguments, is the command |
| Router.CommandShape | app/handlers/common.py:50 | the converse: a command is "/name" after white space only, followed by the end or by white space |
| Router.MediaRouting | app/bot.py:49-52 | a media message with a command caption reaches the handler the same text would; any other media message reaches the upload in the files step and the state's question elsewhere |
| Router.LabelsAreNoCommands | app/handlers/my_leads.py:30-46 | the first word of every main-menu label starts with its emoji, so no label is a command |
| Router.LabelRoute | app/handlers/common.py:116-120 | a label that is no command reaches the handler of its list: language change, new lead, my leads or cancel lead |
| Router.TextRouteShape | app/bot.py:49-52 | a text reaches a command, a menu-label handler or, when nothing else matches, the question of its state |
| Router.MediaRouteShape | app/handlers/lead_flow.py:472 | a media message reaches a command, the upload (only in the files step and only with a file) or the question of its state |
| Router.RoutePress | app/handlers/lead_flow.py:263-646 | callback data by prefix or exact value, the form's buttons only in their states; stated by SendOnlyFromPreview, the four KeyboardRoutes lemmas, UnfilteredKeyboardsRoute and OnlyOptionalStepsSkip |
| Router.Next | app/handlers/lead_flow.py:208-680 | the session after the routed handler; stated by Dispatch, HandlerKeepsInvariant and RoutingKeepsInvariant |
| Router.RouteData | app/handlers/lead_flow.py:263 | the handlers that split callback data are reached only with data that starts with their prefix |
| Router.HandleAnswer | app/handlers/lead_flow.py:298-433 | a text answer runs its question's step; media instead of text leaves the session unchanged |
| Router.NextAnswer | app/handlers/lead_flow.py:298-433 | each question's handler applies its own step to a text and changes nothing otherwise |
| Router.NextEmail | app/handlers/lead_flow.py:376-403 | the email handler applies the email step to a text and changes nothing otherwise |
| Router.HandleCommand | app/handlers/my_leads.py:30-41 | /start, /cancel, /new and the new-request label each end in their own step |
| Router.HandleStart | app/handlers/start.py:41-44 | /start ends in StartStep of the session |
| Router.HandleLanguagePress | app/handlers/start.py:63-102 | the three language buttons end in their steps and never touch the leads |
| Router.HandleLeadsPress | app/handlers/my_leads.py:124-232 | lead selection, cancel confirmation and back end in their steps, and only the confirmation deletes |
| Router.HandleSelect | app/handlers/my_leads.py:124-166 | the selection ends in the routed step |
| Router.NextSelected | app/handlers/my_leads.py:135-160 | the selection step parses the id, then records only one of the user's own leads |
| Router.RecordSelection | app/handlers/my_leads.py:135-160 | a value that does not parse changes nothing; otherwise the found lead, if any, is recorded |
| Router.HandleSend | app/handlers/lead_flow.py:513-579 | send ends in the step of the routed handler |
| Router.SendAndClear | app/handlers/lead_flow.py:559 | send ends the session whether or not the save succeeded |
| Router.HandleFormButton | app/handlers/lead_flow.py:263-680 | the form's buttons and an upload each end in their own step, with the store untouched |
| Router.HandleFilesFinished | app/handlers/lead_flow.py:436-469 | files:done and files:skip end in FilesFinishedStep |
| Router.ReplyOnly | app/handlers/my_leads.py:235-244 | the cancel buttons end the session; the reply-only handlers and unhandled updates leave it as it is |
| Router.FormButtonData | app/handlers/lead_flow.py:513 | the preview, files and skip buttons match no handler of the start, common or my_leads routers |
| Router.TerminalHandlersClear | app/handlers/lead_flow.py:559 | send and the two cancel buttons end the session |
| Router.SendOnlyFromPreview | app/handlers/lead_flow.py:513 | confirm:send reaches the send handler exactly in the preview |
| Router.PreviewCancelOnlyFromPreview | app/handlers/lead_flow.py:582 | confirm:cancel reaches its handler exactly in the preview |
| Router.FilesCancelOnlyFromFiles | app/handlers/lead_flow.py:602 | files:cancel reaches its handler exactly in the files step |
| Router.OnlyOptionalStepsSkip | app/handlers/lead_flow.py:355-450 | a first-pass step passed by anything but its answer is the email or the files step: skip:email, confirm_data in the email step, or files:done or files:skip |
| Router.OptionalStepsPass | app/handlers/lead_flow.py:355-450 | skip:email passes the email step, files:done and files:skip pass the files step |
| Router.SkipDataRoute | app/handlers/lead_flow.py:355 | skip:email reaches skip_email in every state |
| Router.FilesDoneDataRoute | app/handlers/lead_flow.py:436-437 | files:done and files:skip reach their handler exactly in the files step and nothing elsewhere |
| Router.ConfirmationDataRoute | app/handlers/lead_flow.py:513-622 | in the preview, confirm:send, confirm:edit and confirm:cancel reach send, edit and cancel |
| Router.EditDataRoute | app/handlers/lead_flow.py:645 | edit:<field> reaches process_field_selection in the editing step |
| Router.UnfilteredDataRoute | app/handlers/my_leads.py:170-208 | the repeat-data, cancel-confirmation and language-change data reach their handlers in every state |
| Router.SkipKeyboardRoutes | app/keyboards.py:119-137 | the skip keyboard's one button reaches skip_email in the email step |
| Router.FilesKeyboardRoutes | app/keyboards.py:274-308 | the files keyboard's done and skip buttons reach finish_files and its cancel button reaches cancel_from_files in the files step |
| Router.ConfirmationKeyboardRoutes | app/keyboards.py:40-73 | the preview keyboard's buttons reach send, edit and cancel in the preview step |
| Router.EditKeyboardRoutes | app/keyboards.py:76-116 | every button of the edit keyboard reaches process_field_selection in the editing step |
| Router.UnfilteredKeyboardsRoute | app/keyboards.py:150-338 | each button of the repeat-data, cancel-confirmation and language-change keyboards reaches its handler in every state |
| Router.RouteFitsState | app/handlers/lead_flow.py:436-437 | every update reaches a handler whose state filter holds |
| Router.NewLeadKeepsInvariant | app/handlers/lead_flow.py:224-257 | the session after /new keeps the form invariant when the stored rows do |
| Router.HandlerKeepsInvariant | app/handlers/lead_flow.py:263-680 | a handler run in a state its filter admits keeps the invariant, except skip:email on a draft without name or phone |
| Router.AnswerKeepsInvariant | app/handlers/lead_flow.py:298-433 | the four text answers keep the form invariant |
| Router.NameKeepsInvariant | app/handlers/lead_flow.py:310-319 | the name step keeps the invariant |
| Router.PhoneKeepsInvariant | app/handlers/lead_flow.py:340-346 | the phone step keeps the invariant |
| Router.EmailKeepsInvariant | app/handlers/lead_flow.py:388-400 | the email step keeps the invariant |
| Router.DescriptionKeepsInvariant | app/handlers/lead_flow.py:418-427 | the description step keeps the invariant |
| Router.FormButtonKeepsInvariant | app/handlers/lead_flow.py:263-680 | the form's buttons and an upload keep the invariant |
| Router.DataConfirmationKeepsInvariant | app/handlers/lead_flow.py:276-291 | the repeat-data answer keeps the invariant |
| Router.UploadKeepsInvariant | app/handlers/lead_flow.py:483-504 | an upload keeps the invariant |
| Router.FieldSelectionKeepsInvariant | app/handlers/lead_flow.py:660-677 | choosing a field to edit keeps the invariant |
| Router.MenuKeepsInvariant | app/handlers/my_leads.py:124-232 | the start, common and my_leads handlers keep the invariant |
| Router.RoutingKeepsInvariant | app/handlers/lead_flow.py:355 | every routed update keeps the form invariant, except a stale skip:email |
| Router.SkipRoutesFromPressOnly | app/handlers/lead_flow.py:355 | only the skip:email button reaches skip_email |
| Router.CancelAlwaysReachable | app/handlers/common.py:50-78 | a text or a media caption whose command is /cancel is handled before any form handler in every state; it ends an open form and leaves an idle session alone |
| Router.CancelWithArguments | app/handlers/common.py:50-76 | "/cancel" alone or followed by white space and arguments reaches cmd_cancel in every state and ends an open form |
| Router.CancelOnFirstLine | app/handlers/common.py:50-76 | "/cancel\nthanks" sent as the name reaches cmd_cancel, not the name step, and ends the form |
| Router.StaleSkipBreaksInvariant | app/handlers/lead_flow.py:355-373 | from an idle session, a stale skip:email breaks the invariant |
| Router.InvariantMeansSave | app/handlers/lead_flow.py:533-541 | under the invariant, files:done finds every key the preview reads and confirm:send passes save_lead's checks |
| Fsm.FormInvariant | app/handlers/lead_flow.py:446-541 | each state holds the draft keys its later handlers read; kept by RoutingKeepsInvariant and RunKeepsInvariant, and enough for the preview and the save by InvariantMeansSave |
| Router.RunKeepsInvariant | app/handlers/lead_flow.py:355 | a run of updates with no stale skip:email keeps the form invariant from start to end |
| Router.NotCommand | app/handlers/common.py:50 | a text whose first non-white character is not '/' is no command |
| Router.MenuLabelsBeatTheForm | app/handlers/my_leads.py:30-32 | in every state the main-menu labels reach the menu handlers, never a form question |
| Router.MainMenuRoutes | app/keyboards.py:195-200 | each main-menu button, in every language, reaches its handler whatever the state |
| Strings.Strip | app/handlers/lead_flow.py:310 | `strip()` leaves no white space at either end and never lengthens the text |
| Strings.FirstWord | app/handlers/common.py:50 | the first element of `split(maxsplit=1)`, "" for a blank text; stated by FirstWordPiece, FirstWordOf, FirstWordShape and FirstWordBlank |
| Strings.FirstWordPiece | app/handlers/common.py:50 | the first word is the text right after the leading white space, has no white space, and is followed by the end or white space |
| Strings.FirstWordOf | app/handlers/common.py:50 | white space, a word, then the end or white space: that word comes first |
| Strings.FirstWordShape | app/handlers/common.py:50 | every text is its leading white space, its first word and a rest that is empty or starts with white space |
| Strings.FirstWordBlank | app/handlers/common.py:50 | the first word is empty exactly when the text is blank |
| Strings.WordLengthRun | app/handlers/common.py:50 | the non-white run at the front is maximal |
| Strings.StripPiece | app/handlers/lead_flow.py:310 | `strip()` returns a piece of its argument with only white space around it |
| Strings.StripIdempotent | app/handlers/lead_flow.py:310 | stripping twice is stripping once |
| Strings.StripKeepsOut | app/handlers/lead_flow.py:310 | a character absent from the argument is absent from the result |
| Strings.LowerChar | app/ai_enhancer.py:49 | ASCII capitals map to small letters, and characters outside the cased ranges are unchanged |
| Strings.Lower | app/ai_enhancer.py:49 | `lower()` maps every character and keeps the length |
| Strings.Upper | app/handlers/lead_flow.py:164 | `upper()` maps every character and keeps the length |
| Strings.LowerUpperChar | app/handlers/lead_flow.py:164 | lowering an upper-cased small letter gives it back |
| Strings.Truncate | app/handlers/my_leads.py:77 | a text within the limit is unchanged; a longer one becomes its first n characters plus "..." |
| Strings.SplitOn | app/handlers/my_leads.py:74 | `split(c)` gives at least one part, none of which holds the separator |
| Strings.SplitOnFirst | app/handlers/my_leads.py:74 | splitting p + c + v, where p holds no c, gives p followed by the parts of v |
| Strings.SplitOnNoSeparator | app/handlers/my_leads.py:74 | a text without the separator splits into itself alone |
| Strings.SplitOnCount | app/handlers/my_leads.py:74 | there is more than one part exactly when the separator occurs |
| Strings.SplitOnHead | app/handlers/my_leads.py:74 | the first part is the longest prefix without the separator |
| Strings.Join | app/ai_enhancer.py:228 | joining no lines gives "" and one line gives that line |
| Strings.JoinEnds | app/ai_enhancer.py:228 | a join of two or more lines starts with the first line and the separator and ends with the last line |
| Strings.ConcatOnto | app/handlers/my_leads.py:70-84 | the accumulation loop appends each item's text in order |
| Strings.ConcatHas | app/handlers/lead_flow.py:154-166 | each item's text occurs in the concatenation right after the texts of the items before it, and the last ends it |
| Decimal.NatToString | app/keyboards.py:228 | `str(n)` is one or more digits |
| Decimal.ParseInt | app/handlers/my_leads.py:135 | `int()` accepts exactly an optional sign followed by one or more digits once stripped, and the value is those digits' value, negated after '-' |
| Decimal.NatToStringValue | app/keyboards.py:228 | the digits of `str(n)` read back as n |
| Decimal.ParseDigits | app/handlers/my_leads.py:135 | `int()` of a run of digits is its value |
| Decimal.ParseNegated | app/config.py:65 | `int()` of a minus sign and digits is the negated value |
| Decimal.IntRoundTrip | app/config.py:65 | `int(str(i)) == i` for every integer |
| Decimal.NatRoundTrip | app/handlers/my_leads.py:135 | a non-negative id written by `str()` parses back to itself |

## Left out

- app/bot.py: logging, the bot object and long polling are left out. Only the router inclusion order (app/bot.py:49-52) is modelled, in `Router.Route`.
- Telegram transport: `answer`, `edit_text`, `callback.answer`, `delete` and media sends are left out, as are aiogram's markup objects and `adjust` row layouts. Keyboards are modelled as lists of (label, callback data). Most reply texts are not modelled. The modelled ones are the greeting, the lead listing, the cancel confirmation, the preview and the administrator's report.
- send_admin_notification (app/handlers/lead_flow.py:110-205): the notification text is built as a value (`LeadFlow.NotificationText`), but its network sends and the forwarding of attachments are left out. It never raises to its caller, so `LeadFlow.ConfirmSend` carries on to clear the session after the save. The clock reading is the `time` parameter, because `datetime.now()` and pytz are left out.
- SQLite: the tables are in-memory sequences and maps. `created_at` is an opaque text passed in as `now`. The model assumes that `ORDER BY created_at DESC` agrees with the reverse of insertion order. `datetime.now()`, pytz and timestamp formatting are left out.
- The users table's own `created_at` column and the `files` JSON encoding are left out. Attachments are stored as a list value.
- app/config.py:16-20: the `.env` loading is left out. The environment is an input map.
- Decimal.ParseInt: `int()` is narrowed to surrounding white space, an optional sign and ASCII digits. Underscores between digits and non-ASCII digits, which Python also accepts, are not modelled.
- Strings.Lower: only ASCII and the basic Cyrillic capitals (А–Я, Ё) are lowered. Other Unicode case mappings are not modelled.
- Strings.Upper: likewise only ASCII and the basic Cyrillic small letters are upper-cased.
- Locales.Substitute: only plain field names are modelled. A field with an attribute or index (`{a.b}`, `{a[0]}`), a conversion or a format spec is treated as a plain name, where Python raises AttributeError, IndexError or ValueError instead.
- Regular expressions are written as hand matchers for the specific patterns. `\d` is ASCII digits only. `\s` is Python's `str.isspace` set.
- Router.Route: aiogram's Command and CommandStart filters are modelled as the first word of `message.text or message.caption` being "/name", which covers arguments after any white space and the deep-link payload that CommandStart() without `deep_link` ignores. A first word "/name@mention" is not modelled: aiogram accepts it when the mention is empty or the bot's own username, which is not part of this model, so the model sends such a message to the form question where the source reaches the command. The same holds for Router.RouteText, Router.RouteMedia and Router.Dispatch.
- Enhancer.EnhanceLeadDescription: the `except` branch that returns the raw description is not modelled. No step of the modelled pipeline can fail, so that branch cannot be reached in the model.
- Enhancer.StructureDescription: the contract does not restate the client fields or the timestamp, which are copied through unchanged. `analysis_timestamp` is a parameter, because `datetime.now()` is left out.
- Logging, `asyncio.sleep` (app/handlers/common.py:252) and the unimplemented AI hook (app/ai_enhancer.py:270-276) are left out.
- AttributeError paths: a text question answered with media raises before touching the session, and the model keeps the session unchanged. The exception itself is not modelled.
