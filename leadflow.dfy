/** The lead form's handlers. Each handler's effect on the session is a step
    function of the session before it; the handler methods do the work step by
    step on the Session object and the store, and each is proved to end in the
    state its step function gives. */
module LeadFlow {
  import opened Wrappers
  import opened Strings
  import opened States
  import Decimal
  import Validators
  import Locales
  import Store
  import Enhancer
  import Keyboards
  import opened Fsm

  // ---------------------------------------------------------------- preview text

  /** The keyword arguments format_lead_preview passes: a missing or empty email
      reads the "not provided" text of the language. */
  function PreviewArgs(fullName: string, phone: string, email: Option<string>,
                       description: string, lang: string): map<string, string>
  {
    map["full_name" := fullName, "phone" := phone,
        "email" := (if email.Some? && email.value != "" then email.value
                    else Locales.GetText("email_not_provided", lang)),
        "description" := description]
  }

  /** format_lead_preview. */
  function FormatLeadPreview(fullName: string, phone: string, email: Option<string>,
                             description: string, lang: string): Option<string>
  {
    Locales.FormatText("preview_lead", lang, PreviewArgs(fullName, phone, email, description, lang))
  }

  /** The preview text process_files_skip_or_done shows: None where a key is
      missing or the template cannot be formatted. */
  function PreviewText(d: Draft): Option<string> {
    if !(d.fullName.Some? && d.phone.Some? && d.description.Some?) then None
    else
      match FormatLeadPreview(d.fullName.value, d.phone.value, EmailOf(d), d.description.value, Lang(d))
      case None => None
      case Some(t) => Some(t + FilesInfo(FilesOf(d)))
  }

  const FilesLabel := "\n📎 Файлов прикреплено: "

  /** The line the preview gains when files are attached: the count, in Russian
      whatever the language. */
  function FilesInfo(files: seq<Store.FileRef>): (r: string)
    ensures r == "" <==> files == []
    ensures files != [] ==> StartsWith(r, FilesLabel) && Decimal.ParseInt(r[|FilesLabel|..]) == Some(|files|)
  {
    if files == [] then "" else
      var r := FilesLabel + Decimal.NatToString(|files|);
      assert r[|FilesLabel|..] == Decimal.NatToString(|files|);
      Decimal.NatRoundTrip(|files|);
      r
  }

  /** The texts around the four fields of preview_lead in each language: before
      the name, the phone, the email and the description, and after it. */
  const PreviewRu: seq<string> :=
    ["✅ Проверьте данные перед отправкой:\n\n" + "👤 Имя: ", "\n📞 Телефон: ", "\n✉️ Email: ",
     "\n📝 Описание проекта:\n", "\n\nВсё верно?"]
  const PreviewMe: seq<string> :=
    ["✅ Provjerite podatke prije slanja:\n\n" + "👤 Ime: ", "\n📞 Telefon: ", "\n✉️ Email: ",
     "\n📝 Opis projekta:\n", "\n\nDa li je sve tačno?"]
  const PreviewEn: seq<string> :=
    [("✅ Review your information " + "before submitting:\n\n") + "👤 Name: ", "\n📞 Phone: ", "\n✉️ Email: ",
     "\n📝 Project description:\n", "\n\nIs everything correct?"]

  function PreviewParts(lang: string): (r: seq<string>)
    ensures |r| == 5
  {
    if lang == "ru" then PreviewRu else if lang == "me" then PreviewMe else PreviewEn
  }

  const PreviewFields: seq<string> := ["full_name", "phone", "email", "description"]

  /** The five texts hold no braces. */
  predicate PartsBraceFree(p: seq<string>) {
    && |p| == 5
    && Locales.BraceFree(p[0]) && Locales.BraceFree(p[1]) && Locales.BraceFree(p[2])
    && Locales.BraceFree(p[3]) && Locales.BraceFree(p[4])
  }

  /** The template of preview_lead is these texts with the four fields between them. */
  predicate FillsTemplate(template: string, p: seq<string>)
    requires |p| == 5
  {
    var n := PreviewFields;
    template == p[0] + Locales.Field(n[0]) + (p[1] + Locales.Field(n[1]) + (p[2] + Locales.Field(n[2])
                + (p[3] + Locales.Field(n[3]) + p[4])))
  }

  /** The four field names as the template writes them. */
  lemma PreviewFieldTexts()
    ensures Locales.Field(PreviewFields[0]) == "{full_name}" && Locales.Field(PreviewFields[1]) == "{phone}"
    ensures Locales.Field(PreviewFields[2]) == "{email}" && Locales.Field(PreviewFields[3]) == "{description}"
  {
  }

  /** The table's preview_lead, in any language, is the language's texts with
      the four fields between them, and the texts hold no braces. */
  lemma PreviewTemplate(lang: string)
    ensures PartsBraceFree(PreviewParts(lang))
    ensures FillsTemplate(Locales.GetText("preview_lead", lang), PreviewParts(lang))
  {
    PreviewFieldTexts();
    if lang == "ru" {
      PreviewRuFree();
    } else if lang == "me" {
      PreviewMeFree();
    } else {
      PreviewEnFree();
    }
  }

  lemma PreviewRuHeading()
    ensures Locales.BraceFree("✅ Проверьте данные перед отправкой:\n\n") && Locales.BraceFree("👤 Имя: ")
  {
  }

  lemma PreviewRuFree()
    ensures Locales.BraceFree(PreviewRu[0]) && Locales.BraceFree(PreviewRu[1])
    ensures Locales.BraceFree(PreviewRu[2]) && Locales.BraceFree(PreviewRu[3])
    ensures Locales.BraceFree(PreviewRu[4])
  {
    PreviewRuHeading();
    Locales.BraceFreeAppend("✅ Проверьте данные перед отправкой:\n\n", "👤 Имя: ");
  }

  lemma PreviewMeHeading()
    ensures Locales.BraceFree("✅ Provjerite podatke prije slanja:\n\n") && Locales.BraceFree("👤 Ime: ")
  {
  }

  lemma PreviewMeFree()
    ensures Locales.BraceFree(PreviewMe[0]) && Locales.BraceFree(PreviewMe[1])
    ensures Locales.BraceFree(PreviewMe[2]) && Locales.BraceFree(PreviewMe[3])
    ensures Locales.BraceFree(PreviewMe[4])
  {
    PreviewMeHeading();
    Locales.BraceFreeAppend("✅ Provjerite podatke prije slanja:\n\n", "👤 Ime: ");
  }

  lemma PreviewEnHeading()
    ensures Locales.BraceFree("✅ Review your information " + "before submitting:\n\n") && Locales.BraceFree("👤 Name: ")
  {
    assert Locales.BraceFree("✅ Review your information ") && Locales.BraceFree("before submitting:\n\n");
    Locales.BraceFreeAppend("✅ Review your information ", "before submitting:\n\n");
  }

  lemma PreviewEnFree()
    ensures Locales.BraceFree(PreviewEn[0]) && Locales.BraceFree(PreviewEn[1])
    ensures Locales.BraceFree(PreviewEn[2]) && Locales.BraceFree(PreviewEn[3])
    ensures Locales.BraceFree(PreviewEn[4])
  {
    PreviewEnHeading();
    Locales.BraceFreeAppend("✅ Review your information " + "before submitting:\n\n", "👤 Name: ");
  }

  /** The four field names are keyword fields without braces. */
  lemma PreviewFieldNames()
    ensures forall i :: 0 <= i < 4 ==> Locales.Named(PreviewFields[i]) && Locales.BraceFree(PreviewFields[i])
  {
    assert !IsDigit("full_name"[0]) && Locales.Named("full_name") && Locales.BraceFree("full_name");
    assert !IsDigit("phone"[0]) && Locales.Named("phone") && Locales.BraceFree("phone");
    assert !IsDigit("email"[0]) && Locales.Named("email") && Locales.BraceFree("email");
    assert !IsDigit("description"[0]) && Locales.Named("description") && Locales.BraceFree("description");
  }

  /** The preview the user is shown: preview_lead of the draft's language with
      the draft's name, phone, email and description in their places, the
      language's "not provided" text for a missing or empty email, and the
      files line after it. An incomplete draft has no preview (the KeyError). */
  lemma PreviewShows(d: Draft)
    ensures !PreviewReady(d) ==> PreviewText(d).None?
    ensures PreviewReady(d) ==>
              var p := PreviewParts(Lang(d));
              var email := if EmailOf(d).Some? && EmailOf(d).value != "" then EmailOf(d).value
                           else Locales.GetText("email_not_provided", Lang(d));
              PreviewText(d) == Some(p[0] + d.fullName.value + (p[1] + d.phone.value + (p[2] + email
                                     + (p[3] + d.description.value + p[4]))) + FilesInfo(FilesOf(d)))
  {
    if PreviewReady(d) {
      var lang := Lang(d);
      var args := PreviewArgs(d.fullName.value, d.phone.value, EmailOf(d), d.description.value, lang);
      PreviewTemplate(lang);
      var n := PreviewFields;
      PreviewFieldNames();
      Locales.FourFieldsFilled(PreviewParts(lang), n, args);
    }
  }

  // ---------------------------------------------------------------- step functions

  /** cmd_new_lead: a fresh session that offers the previous lead's contact data,
      or starts at the name when the user has none. */
  function NewLeadStep(lang: string, last: Option<Store.Lead>): Snapshot {
    match last
    case None => Snapshot(Some(WaitingForName), EmptyDraft.(language := Some(lang)))
    case Some(l) =>
      Snapshot(Some(ConfirmData), EmptyDraft.(language := Some(lang), oldFullName := Some(l.fullName),
                                               oldPhone := Some(l.phone), oldEmail := Some(l.email)))
  }

  /** The previous contact data is all in the draft, so "use" raises no KeyError. */
  predicate HasOldData(d: Draft) {
    d.oldFullName.Some? && d.oldPhone.Some? && d.oldEmail.Some?
  }

  /** process_data_confirmation: "use" copies the old contact data and goes to the
      description; a missing key leaves the session as it was; any other action
      goes back to the name with the draft kept. */
  function DataConfirmationStep(v: Snapshot, action: string): Snapshot {
    if action == "use" then
      if HasOldData(v.data) then
        Snapshot(Some(WaitingForDescription),
                 v.data.(fullName := v.data.oldFullName, phone := v.data.oldPhone, email := v.data.oldEmail))
      else v
    else Snapshot(Some(WaitingForName), v.data)
  }

  function NameStep(v: Snapshot, text: string): Snapshot {
    if Validators.NameAccepted(text) then Snapshot(Some(WaitingForPhone), v.data.(fullName := Some(Strip(text))))
    else v
  }

  function PhoneStep(v: Snapshot, text: string): Snapshot {
    if Validators.ValidatePhone(Strip(text)) then Snapshot(Some(WaitingForEmail), v.data.(phone := Some(Strip(text))))
    else v
  }

  /** skip_email: the email is set to None and the form goes to the description,
      whatever the state (the handler has no state filter). */
  function SkipEmailStep(v: Snapshot): Snapshot {
    Snapshot(Some(WaitingForDescription), v.data.(email := Some(None)))
  }

  function EmailStep(v: Snapshot, text: string): Snapshot {
    if Validators.ValidateEmail(Strip(text)) then
      Snapshot(Some(WaitingForDescription), v.data.(email := Some(Some(Strip(text)))))
    else v
  }

  /** An accepted description also resets the attachment list. */
  function DescriptionStep(v: Snapshot, text: string): Snapshot {
    if Validators.DescriptionAccepted(text) then
      Snapshot(Some(WaitingForFiles), v.data.(description := Some(Strip(text)), files := Some([])))
    else v
  }

  /** The keys format_lead_preview and save_lead read without a default. */
  predicate PreviewReady(d: Draft) {
    d.fullName.Some? && d.phone.Some? && d.description.Some?
  }

  /** process_files_skip_or_done: the state is set to preview before the preview
      is built, so a KeyError there still leaves the session in preview. */
  function FilesFinishedStep(v: Snapshot): Snapshot {
    Snapshot(Some(Preview), v.data)
  }

  /** The attachment a media message carries: the largest photo size, the document
      or the video; nothing for an empty photo list or any other media. */
  function UploadedFile(m: Media): Option<Store.FileRef> {
    match m
    case PhotoSizes(sizes) => if sizes == [] then None else Some(Store.FileRef(Store.Photo, sizes[|sizes| - 1]))
    case DocumentFile(id) => Some(Store.FileRef(Store.Document, id))
    case VideoFile(id) => Some(Store.FileRef(Store.Video, id))
    case OtherMedia => None
  }

  function FileUploadStep(v: Snapshot, m: Media): Snapshot {
    match UploadedFile(m)
    case None => v
    case Some(f) => Snapshot(v.state, v.data.(files := Some(FilesOf(v.data) + [f])))
  }

  function EditStep(v: Snapshot): Snapshot {
    Snapshot(Some(Editing), v.data)
  }

  /** The state an "edit:<field>" button leads to. */
  function FieldTarget(field: string): Option<LeadState> {
    if field == "name" then Some(WaitingForName)
    else if field == "phone" then Some(WaitingForPhone)
    else if field == "email" then Some(WaitingForEmail)
    else if field == "description" then Some(WaitingForDescription)
    else None
  }

  /** process_field_selection: the field is recorded; an unknown one keeps the state. */
  function FieldSelectionStep(v: Snapshot, field: string): Snapshot {
    var d := v.data.(editingField := Some(field));
    match FieldTarget(field)
    case None => Snapshot(v.state, d)
    case Some(s) => Snapshot(Some(s), d)
  }

  /** The draft has the keys save_lead is called with and passes its checks. */
  predicate SavePasses(d: Draft) {
    PreviewReady(d) && Store.SaveCheck(d.fullName.value, d.phone.value, d.description.value).None?
  }

  /** json.dumps(files) if files else None. */
  function FilesColumn(files: seq<Store.FileRef>): Option<seq<Store.FileRef>> {
    if files == [] then None else Some(files)
  }

  /** The row confirm_send_lead asks save_lead to write, as save_lead stores it. */
  function SavedRow(d: Draft, user: int, id: nat, now: string): Store.Lead
    requires PreviewReady(d)
  {
    Store.Lead(id, user, Strip(d.fullName.value), Strip(d.phone.value), Store.StoredEmail(EmailOf(d)),
               Strip(d.description.value), FilesColumn(FilesOf(d)), now)
  }

  /** The administrator's structured report of a saved draft. */
  function Report(d: Draft, now: string): string
    requires PreviewReady(d)
  {
    Join(Enhancer.ReportLines(Enhancer.StructureDescription(d.description.value, d.fullName.value,
                                                           d.phone.value, EmailOf(d), now), Lang(d)), "\n")
  }

  /** The rule of forty box-drawing characters around the report. */
  const Rule: string := "────────────────────────────────────────"

  /** email_display of send_admin_notification: a missing or empty email reads
      the English "not provided" text, whatever the lead's language. */
  function EmailDisplay(email: Option<string>): string {
    if email.Some? && email.value != "" then email.value else Locales.GetText("email_not_provided", "en")
  }

  /** The pieces of notification_text, one per line or block: the heading in the
      lead's language, the contact lines, the enhanced description between two
      rules, the row id, the language code in capitals and the time. `time`
      stands for the clock reading formatted as '%Y-%m-%d %H:%M:%S' in the
      configured zone. */
  function NotificationPieces(leadId: nat, user: int, fullName: string, phone: string, email: Option<string>,
                              enhanced: string, lang: string, time: string): (r: seq<string>)
    ensures |r| == 9
  {
    ["🧱 <b>" + Locales.GetText("admin_notification", lang) + "</b>\n\n",
     "👤 <b>" + fullName + "</b>\n",
     "🆔 Telegram ID: <code>" + Decimal.IntToString(user) + "</code>\n",
     "📞 Phone: <code>" + phone + "</code>\n",
     "✉️ Email: " + EmailDisplay(email) + "\n\n",
     Rule + "\n" + enhanced + "\n" + Rule + "\n\n",
     "💾 DB Lead ID: #" + Decimal.NatToString(leadId) + "\n",
     "🌍 Language: " + Upper(lang) + "\n",
     "🕐 Time: " + time]
  }

  /** Each piece of the notification is its own text: the map Concat applies to the pieces. */
  function Piece(s: string): string {
    s
  }

  /** notification_text: its pieces one after the other. */
  function NotificationText(leadId: nat, user: int, fullName: string, phone: string, email: Option<string>,
                            enhanced: string, lang: string, time: string): string {
    Concat(NotificationPieces(leadId, user, fullName, phone, email, enhanced, lang, time), Piece)
  }

  /** What the administrator reads: the notification heading of the lead's
      language first, the report framed by the two rules, the email line with
      the English fallback when the email is missing or empty, the row id that
      reads back as the id, the language code in capitals, and the time last. */
  lemma NotificationShows(leadId: nat, user: int, fullName: string, phone: string, email: Option<string>,
                          enhanced: string, lang: string, time: string)
    ensures var t := NotificationText(leadId, user, fullName, phone, email, enhanced, lang, time);
            && StartsWith(t, "🧱 <b>" + Locales.GetText("admin_notification", lang) + "</b>\n\n")
            && Contains(t, Rule + "\n" + enhanced + "\n" + Rule + "\n\n")
            && Contains(t, "💾 DB Lead ID: #" + Decimal.NatToString(leadId) + "\n")
            && Decimal.ParseInt(Decimal.NatToString(leadId)) == Some(leadId)
            && (!(email.Some? && email.value != "") ==>
                  Contains(t, "✉️ Email: " + Locales.GetText("email_not_provided", "en") + "\n\n"))
            && Contains(t, "🌍 Language: " + Upper(lang) + "\n")
            && var last := "🕐 Time: " + time; |last| <= |t| && t[|t| - |last|..] == last
  {
    var ps := NotificationPieces(leadId, user, fullName, phone, email, enhanced, lang, time);
    var t := NotificationText(leadId, user, fullName, phone, email, enhanced, lang, time);
    ConcatHas(ps, 0, Piece);
    assert ps[..0] == [];
    ConcatHas(ps, 4, Piece);
    ConcatHas(ps, 5, Piece);
    ConcatHas(ps, 6, Piece);
    ConcatHas(ps, 7, Piece);
    ConcatHas(ps, 8, Piece);
    Decimal.NatRoundTrip(leadId);
  }

  // ---------------------------------------------------------------- handlers

  /** cmd_new_lead. */
  method NewLead(s: Session, db: Store.LeadStore, user: int)
    requires db.Valid()
    modifies s
    ensures s.Value() == NewLeadStep(Store.LanguageOr(db.languages, user), Store.LastLead(db.leads, user))
  {
    var stored := db.GetUserLanguage(user);
    var lang := if stored.Some? && stored.value != "" then stored.value else "en";
    s.Clear();
    var last := db.GetLastLeadByUser(user);
    if last.Some? {
      s.SetState(ConfirmData);
      s.UpdateData(s.data.(language := Some(lang), oldFullName := Some(last.value.fullName),
                           oldPhone := Some(last.value.phone), oldEmail := Some(last.value.email)));
    } else {
      s.SetState(WaitingForName);
      s.UpdateData(s.data.(language := Some(lang)));
    }
  }

  /** process_data_confirmation; `raised` is the KeyError of a draft without the
      old contact data. */
  method DataConfirmation(s: Session, data: string) returns (raised: bool)
    requires StartsWith(data, "confirm_data:")
    modifies s
    ensures Keyboards.CallbackValue(data).Some?
    ensures s.Value() == DataConfirmationStep(old(s.Value()), Keyboards.CallbackValue(data).value)
    ensures raised <==> Keyboards.CallbackValue(data).value == "use" && !HasOldData(old(s.data))
  {
    assert data[12] == ':';
    var action := Keyboards.CallbackValue(data).value;
    raised := false;
    if action == "use" {
      if !(s.data.oldFullName.Some? && s.data.oldPhone.Some? && s.data.oldEmail.Some?) {
        return true;
      }
      s.UpdateData(s.data.(fullName := s.data.oldFullName, phone := s.data.oldPhone, email := s.data.oldEmail));
      s.SetState(WaitingForDescription);
    } else {
      s.SetState(WaitingForName);
    }
  }

  /** process_name; `accepted` says whether the form moved on. */
  method ProcessName(s: Session, text: string) returns (accepted: bool)
    modifies s
    ensures accepted <==> Validators.NameAccepted(text)
    ensures s.Value() == NameStep(old(s.Value()), text)
  {
    var fullName := Strip(text);
    if fullName == "" || |fullName| < 2 {
      return false;
    }
    s.UpdateData(s.data.(fullName := Some(fullName)));
    s.SetState(WaitingForPhone);
    accepted := true;
  }

  method ProcessPhone(s: Session, text: string) returns (accepted: bool)
    modifies s
    ensures accepted <==> Validators.ValidatePhone(Strip(text))
    ensures s.Value() == PhoneStep(old(s.Value()), text)
  {
    var phone := Strip(text);
    if !Validators.ValidatePhone(phone) {
      return false;
    }
    s.UpdateData(s.data.(phone := Some(phone)));
    s.SetState(WaitingForEmail);
    accepted := true;
  }

  method SkipEmail(s: Session)
    modifies s
    ensures s.Value() == SkipEmailStep(old(s.Value()))
  {
    s.UpdateData(s.data.(email := Some(None)));
    s.SetState(WaitingForDescription);
  }

  method ProcessEmail(s: Session, text: string) returns (accepted: bool)
    modifies s
    ensures accepted <==> Validators.ValidateEmail(Strip(text))
    ensures s.Value() == EmailStep(old(s.Value()), text)
  {
    var email := Strip(text);
    if !Validators.ValidateEmail(email) {
      return false;
    }
    s.UpdateData(s.data.(email := Some(Some(email))));
    s.SetState(WaitingForDescription);
    accepted := true;
  }

  method ProcessDescription(s: Session, text: string) returns (accepted: bool)
    modifies s
    ensures accepted <==> Validators.DescriptionAccepted(text)
    ensures s.Value() == DescriptionStep(old(s.Value()), text)
  {
    var description := Strip(text);
    if |description| < 10 {
      return false;
    }
    s.UpdateData(s.data.(description := Some(description), files := Some([])));
    s.SetState(WaitingForFiles);
    accepted := true;
  }

  /** process_files_skip_or_done: the preview text, or None for the KeyError of an
      incomplete draft. */
  method FilesFinished(s: Session) returns (preview: Option<string>)
    modifies s
    ensures s.Value() == FilesFinishedStep(old(s.Value()))
    ensures preview == PreviewText(old(s.data))
  {
    var d := s.data;
    s.SetState(Preview);
    if !(d.fullName.Some? && d.phone.Some? && d.description.Some?) {
      return None;
    }
    var text := FormatLeadPreview(d.fullName.value, d.phone.value, EmailOf(d), d.description.value, Lang(d));
    if text.None? {
      return None;
    }
    preview := Some(text.value + FilesInfo(FilesOf(d)));
  }

  /** process_file_upload. */
  method FileUpload(s: Session, m: Media)
    modifies s
    ensures s.Value() == FileUploadStep(old(s.Value()), m)
  {
    var files := FilesOf(s.data);
    var f: Store.FileRef;
    match m {
      case PhotoSizes(sizes) =>
        if sizes == [] {
          return;
        }
        f := Store.FileRef(Store.Photo, sizes[|sizes| - 1]);
      case DocumentFile(id) =>
        f := Store.FileRef(Store.Document, id);
      case VideoFile(id) =>
        f := Store.FileRef(Store.Video, id);
      case OtherMedia =>
        return;
    }
    files := files + [f];
    s.UpdateData(s.data.(files := Some(files)));
  }

  /** confirm_send_lead: saves the draft, builds the administrator's
      notification around the structured report, and ends the session whether
      or not the save succeeded. `now` is the row's creation time and `time` the
      notification's clock reading. */
  method ConfirmSend(s: Session, db: Store.LeadStore, user: int, now: string, time: string)
    returns (saved: Option<nat>, notification: Option<string>)
    requires db.Valid()
    modifies s, db
    ensures db.Valid()
    ensures s.Value() == Idle
    ensures db.languages == old(db.languages)
    ensures saved.Some? <==> SavePasses(old(s.data))
    ensures saved.None? ==> db.leads == old(db.leads) && db.nextId == old(db.nextId) && notification.None?
    ensures saved.Some? ==> PreviewReady(old(s.data)) && saved.value == old(db.nextId)
    ensures saved.Some? ==> db.leads == old(db.leads) + [SavedRow(old(s.data), user, saved.value, now)]
    ensures saved.Some? ==>
              var d := old(s.data);
              notification == Some(NotificationText(saved.value, user, d.fullName.value, d.phone.value, EmailOf(d),
                                                    Report(d, now), Lang(d), time))
  {
    saved, notification := SaveDraft(db, s.data, user, now, time);
    s.Clear();
  }

  /** The save and the notification of confirm_send_lead for draft `d`. */
  method SaveDraft(db: Store.LeadStore, d: Draft, user: int, now: string, time: string)
    returns (saved: Option<nat>, notification: Option<string>)
    requires db.Valid()
    modifies db
    ensures db.Valid()
    ensures db.languages == old(db.languages)
    ensures saved.Some? <==> SavePasses(d)
    ensures saved.None? ==> db.leads == old(db.leads) && db.nextId == old(db.nextId) && notification.None?
    ensures saved.Some? ==> PreviewReady(d) && saved.value == old(db.nextId)
    ensures saved.Some? ==> db.leads == old(db.leads) + [SavedRow(d, user, saved.value, now)]
    ensures saved.Some? ==>
              notification == Some(NotificationText(saved.value, user, d.fullName.value, d.phone.value, EmailOf(d),
                                                    Report(d, now), Lang(d), time))
  {
    saved, notification := None, None;
    if d.fullName.Some? && d.phone.Some? && d.description.Some? {
      var files := FilesOf(d);
      var column := if files == [] then None else Some(files);
      var r := db.SaveLead(user, d.fullName.value, d.phone.value, d.description.value, EmailOf(d), column, now);
      if r.Ok? {
        saved := Some(r.value);
        var enhanced := Enhancer.EnhanceLeadDescription(d.description.value, d.fullName.value, d.phone.value,
                                                        EmailOf(d), Lang(d), now);
        notification := Some(NotificationText(r.value, user, d.fullName.value, d.phone.value, EmailOf(d),
                                              enhanced, Lang(d), time));
      }
    }
  }

  /** confirm_cancel_lead and cancel_from_files: the session ends. */
  method CancelForm(s: Session)
    modifies s
    ensures s.Value() == Idle
  {
    s.Clear();
  }

  method ConfirmEdit(s: Session)
    modifies s
    ensures s.Value() == EditStep(old(s.Value()))
  {
    s.SetState(Editing);
  }

  method FieldSelection(s: Session, data: string)
    requires StartsWith(data, "edit:")
    modifies s
    ensures Keyboards.CallbackValue(data).Some?
    ensures s.Value() == FieldSelectionStep(old(s.Value()), Keyboards.CallbackValue(data).value)
  {
    assert data[4] == ':';
    var field := Keyboards.CallbackValue(data).value;
    s.UpdateData(s.data.(editingField := Some(field)));
    if field == "name" {
      s.SetState(WaitingForName);
    } else if field == "phone" {
      s.SetState(WaitingForPhone);
    } else if field == "email" {
      s.SetState(WaitingForEmail);
    } else if field == "description" {
      s.SetState(WaitingForDescription);
    }
  }

  // ---------------------------------------------------------------- properties of the steps

  /** Each accepted first-pass answer moves to the next state of the documented
      order; a rejected one changes nothing. */
  lemma StepsFollowFirstPass(v: Snapshot, text: string)
    ensures v.state == Some(WaitingForName) && Validators.NameAccepted(text)
            ==> NameStep(v, text).state == NextInFirstPass(WaitingForName)
    ensures v.state == Some(WaitingForPhone) && Validators.ValidatePhone(Strip(text))
            ==> PhoneStep(v, text).state == NextInFirstPass(WaitingForPhone)
    ensures v.state == Some(WaitingForEmail) && Validators.ValidateEmail(Strip(text))
            ==> EmailStep(v, text).state == NextInFirstPass(WaitingForEmail)
    ensures v.state == Some(WaitingForEmail) ==> SkipEmailStep(v).state == NextInFirstPass(WaitingForEmail)
    ensures v.state == Some(WaitingForDescription) && Validators.DescriptionAccepted(text)
            ==> DescriptionStep(v, text).state == NextInFirstPass(WaitingForDescription)
    ensures v.state == Some(WaitingForFiles) ==> FilesFinishedStep(v).state == NextInFirstPass(WaitingForFiles)
    ensures !Validators.NameAccepted(text) ==> NameStep(v, text) == v
    ensures !Validators.ValidatePhone(Strip(text)) ==> PhoneStep(v, text) == v
    ensures !Validators.ValidateEmail(Strip(text)) ==> EmailStep(v, text) == v
    ensures !Validators.DescriptionAccepted(text) ==> DescriptionStep(v, text) == v
  {
  }

  /** An upload appends exactly one attachment at the end and keeps the state and
      the earlier attachments. */
  lemma UploadAppendsOne(v: Snapshot, m: Media)
    requires UploadedFile(m).Some?
    ensures var w := FileUploadStep(v, m);
            && w.state == v.state
            && |FilesOf(w.data)| == |FilesOf(v.data)| + 1
            && FilesOf(w.data)[..|FilesOf(v.data)|] == FilesOf(v.data)
            && FilesOf(w.data)[|FilesOf(v.data)|] == UploadedFile(m).value
            && w.data == v.data.(files := Some(FilesOf(w.data)))
  {
    var f := UploadedFile(m).value;
    assert (FilesOf(v.data) + [f])[..|FilesOf(v.data)|] == FilesOf(v.data);
  }

  /** /new offers the previous contact data exactly when the user has saved a lead before. */
  lemma ConfirmDataOnlyForRepeat(lang: string, ls: seq<Store.Lead>, user: int)
    ensures NewLeadStep(lang, Store.LastLead(ls, user)).state == Some(ConfirmData)
            <==> exists x :: x in ls && x.userId == user
    ensures NewLeadStep(lang, Store.LastLead(ls, user)).state != Some(ConfirmData)
            ==> NewLeadStep(lang, Store.LastLead(ls, user)) == Snapshot(Some(WaitingForName), EmptyDraft.(language := Some(lang)))
  {
    var last := Store.LastLead(ls, user);
    if last.Some? {
      assert last.value in ls && last.value.userId == user;
    }
  }

  /** A first application: /new without a previous lead, then an accepted name,
      phone and description with the email skipped, then files:done. The form
      reaches the preview holding the stripped answers, and save_lead's checks
      pass on them. */
  lemma FirstApplication(lang: string, name: string, phone: string, description: string)
    requires Validators.NameAccepted(name) && Validators.ValidatePhone(Strip(phone))
    requires Validators.DescriptionAccepted(description)
    ensures var v := FilesFinishedStep(DescriptionStep(SkipEmailStep(PhoneStep(NameStep(
                       NewLeadStep(lang, None), name), phone)), description));
            && v.state == Some(Preview)
            && v.data == EmptyDraft.(language := Some(lang), fullName := Some(Strip(name)), phone := Some(Strip(phone)),
                                     email := Some(None), description := Some(Strip(description)), files := Some([]))
            && SavePasses(v.data)
  {
    StripIdempotent(name);
    StripIdempotent(phone);
    StripIdempotent(description);
    assert |Strip(phone)| >= 10 by {
      assert |Validators.DigitsOf(Strip(phone))| <= |Strip(phone)|;
    }
  }

  /** A repeat application that reuses the stored contact data: /new, "use",
      an accepted description, files:done. The preview holds the previous lead's
      name, phone and email unchanged, and save_lead's checks pass again. */
  lemma RepeatApplication(lang: string, last: Store.Lead, description: string)
    requires Store.RowOk(last) && Validators.DescriptionAccepted(description)
    ensures var v := FilesFinishedStep(DescriptionStep(DataConfirmationStep(
                       NewLeadStep(lang, Some(last)), "use"), description));
            && v.state == Some(Preview)
            && v.data.fullName == Some(last.fullName) && v.data.phone == Some(last.phone)
            && v.data.email == Some(last.email)
            && v.data.description == Some(Strip(description))
            && SavePasses(v.data)
  {
    Store.StoredRowPassesCheck(last);
    StripIdempotent(description);
  }

  /** Any other answer to the repeat-data question starts at the name and keeps
      the staged data. */
  lemma ChangeDataKeepsOld(v: Snapshot, action: string)
    requires action != "use"
    ensures DataConfirmationStep(v, action) == Snapshot(Some(WaitingForName), v.data)
  {
  }

  /** The edit menu's four buttons each lead to the state of their field. */
  lemma EditButtonsReachFields(lang: string)
    ensures forall i :: 0 <= i < |Keyboards.EditFields| ==>
              FieldTarget(Keyboards.CallbackValue(Keyboards.EditButtons(lang)[i].data.value).value).Some?
  {
    Keyboards.EditButtonsCarryFields(lang);
  }

  /** Editing the name from the preview and giving an accepted one continues
      with the phone question, as on the first pass, rather than returning to
      the preview; the recorded field is not read again. */
  lemma EditNameContinuesFirstPass(v: Snapshot, name: string)
    requires v.state == Some(Preview) && Validators.NameAccepted(name)
    ensures var w := NameStep(FieldSelectionStep(EditStep(v), "name"), name);
            && w.state == Some(WaitingForPhone)
            && w.data == v.data.(editingField := Some("name"), fullName := Some(Strip(name)))
  {
  }

  /** Editing the description drops the attachments uploaded before. */
  lemma EditDescriptionDropsFiles(v: Snapshot, description: string)
    requires v.state == Some(Preview) && Validators.DescriptionAccepted(description)
    ensures var w := DescriptionStep(FieldSelectionStep(EditStep(v), "description"), description);
            && w.state == Some(WaitingForFiles)
            && FilesOf(w.data) == []
  {
  }

  /** A stale skip:email button pressed with no form open moves to the description
      question with neither name nor phone in the draft; files:done afterwards
      reaches the preview without the keys it reads, so its KeyError leaves the
      session stuck in preview, and the send that follows saves nothing. */
  lemma StaleSkipReachesPreviewEmpty(description: string)
    requires Validators.DescriptionAccepted(description)
    ensures var v := FilesFinishedStep(DescriptionStep(SkipEmailStep(Idle), description));
            && v.state == Some(Preview)
            && !PreviewReady(v.data)
            && PreviewText(v.data).None?
            && !SavePasses(v.data)
  {
  }
}
