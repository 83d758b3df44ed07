/** The dispatcher: which handler an update reaches, and what it does to the
    session. The routers are consulted in the order they are included (start,
    common, my_leads, lead_flow), and within a router the handlers in the order
    they are registered; the first whose filters all match handles the update. */
module Router {
  import opened Wrappers
  import opened Strings
  import opened States
  import Decimal
  import Validators
  import Locales
  import Store
  import Keyboards
  import opened Fsm
  import LeadFlow
  import Common
  import Start
  import MyLeads

  /** An update: a message with text, a message that carries media and maybe a
      caption, or a press of an inline button with its callback data. */
  datatype Event = Text(text: string) | MediaMessage(media: Media, caption: Option<string>) | Press(data: string)

  /** The handlers, one per registered function. */
  datatype Handler =
    | StartCmd | LanguageSelected
    | HelpCmd | CancelCmd | LanguageCmd | LanguageBtn | LanguageChangeConfirmed | LanguageChanged
    | NewLeadBtn | MyLeadsCmd | CancelLeadBtn | LeadSelected | CancelLeadConfirmed | CancelLeadBack | LeadsBack
    | NewLeadCmd | DataConfirmed | NameGiven | PhoneGiven | EmailSkipped | EmailGiven | DescriptionGiven
    | FilesFinished | FileUploaded | SendConfirmed | PreviewCancelled | FilesCancelled | EditChosen | FieldChosen
    | Unhandled

  /** Command("name") and CommandStart() on `message.text or message.caption`:
      the first word of text.split(maxsplit=1) is "/name". */
  predicate IsCommand(text: string, name: string) {
    FirstWord(text) == "/" + name
  }

  /** F.photo | F.document | F.video: an empty photo list does not count. */
  predicate HasFile(m: Media) {
    (m.PhotoSizes? && m.sizes != []) || m.DocumentFile? || m.VideoFile?
  }

  /** The handler a text message reaches. */
  function RouteText(state: Option<LeadState>, t: string): Handler {
    if IsCommand(t, "start") then StartCmd
    else if IsCommand(t, "help") then HelpCmd
    else if IsCommand(t, "cancel") then CancelCmd
    else if IsCommand(t, "language") then LanguageCmd
    else if t in Keyboards.ChangeLanguageLabels then LanguageBtn
    else if t in Keyboards.NewLeadTexts then NewLeadBtn
    else if t in Keyboards.MyLeadsTexts || IsCommand(t, "my_leads") then MyLeadsCmd
    else if t in Keyboards.CancelLeadTexts then CancelLeadBtn
    else if IsCommand(t, "new") then NewLeadCmd
    else RouteByState(state)
  }

  /** The lead-form message handlers filter on the state alone. */
  function RouteByState(state: Option<LeadState>): Handler {
    if state == Some(WaitingForName) then NameGiven
    else if state == Some(WaitingForPhone) then PhoneGiven
    else if state == Some(WaitingForEmail) then EmailGiven
    else if state == Some(WaitingForDescription) then DescriptionGiven
    else Unhandled
  }

  /** The handler a media message reaches. Its F.text is None, so no menu label
      matches it, but the command filters read its caption; in the handlers' order
      the command handlers come first, then the upload and the form questions. */
  function RouteMedia(state: Option<LeadState>, m: Media, caption: Option<string>): Handler {
    var c := if caption.Some? then caption.value else "";
    if IsCommand(c, "start") then StartCmd
    else if IsCommand(c, "help") then HelpCmd
    else if IsCommand(c, "cancel") then CancelCmd
    else if IsCommand(c, "language") then LanguageCmd
    else if IsCommand(c, "my_leads") then MyLeadsCmd
    else if IsCommand(c, "new") then NewLeadCmd
    else if state == Some(WaitingForFiles) then (if HasFile(m) then FileUploaded else Unhandled)
    else RouteByState(state)
  }

  /** The handler a button press reaches. */
  function RoutePress(state: Option<LeadState>, d: string): Handler {
    if StartsWith(d, "lang:") then LanguageSelected
    else if StartsWith(d, "confirm_lang_change:") then LanguageChangeConfirmed
    else if StartsWith(d, "change_lang:") then LanguageChanged
    else if StartsWith(d, "select_lead:") then LeadSelected
    else if d == "cancel_lead:confirm" then CancelLeadConfirmed
    else if d == "cancel_lead:back" then CancelLeadBack
    else if d == "leads:back" then LeadsBack
    else if StartsWith(d, "confirm_data:") then DataConfirmed
    else if d == "skip:email" then EmailSkipped
    else if (d == "files:skip" || d == "files:done") && state == Some(WaitingForFiles) then FilesFinished
    else if d == "confirm:send" && state == Some(Preview) then SendConfirmed
    else if d == "confirm:cancel" && state == Some(Preview) then PreviewCancelled
    else if d == "files:cancel" && state == Some(WaitingForFiles) then FilesCancelled
    else if d == "confirm:edit" && state == Some(Preview) then EditChosen
    else if StartsWith(d, "edit:") && state == Some(Editing) then FieldChosen
    else Unhandled
  }

  function Route(v: Snapshot, ev: Event): Handler {
    match ev
    case Text(t) => RouteText(v.state, t)
    case MediaMessage(m, c) => RouteMedia(v.state, m, c)
    case Press(d) => RoutePress(v.state, d)
  }

  /** What the handlers read from the store: the users table, the leads table and
      the user the update comes from. */
  datatype World = World(languages: map<int, string>, leads: seq<Store.Lead>, user: int)

  /** The rows of a store that keeps its invariant. */
  predicate WorldOk(w: World) {
    forall i :: 0 <= i < |w.leads| ==> Store.RowOk(w.leads[i])
  }

  /** The value a handler reads with split(":")[1]; "" where the data has no ':'
      (no handler that reads it can be reached with such data). */
  function ValueOf(ev: Event): string {
    if ev.Press? && Keyboards.CallbackValue(ev.data).Some? then Keyboards.CallbackValue(ev.data).value else ""
  }

  /** The session after handler `h` has handled `ev`. A text-step handler reached
      by a message without text raises AttributeError before touching the session. */
  function Next(h: Handler, v: Snapshot, ev: Event, w: World): Snapshot {
    match h
    case StartCmd => Start.StartStep(v)
    case CancelCmd => Common.CancelStep(v)
    case LanguageChangeConfirmed => Common.LanguageConfirmStep(v, ValueOf(ev))
    case LanguageChanged => Common.LanguageChangeStep(v, ValueOf(ev))
    case NewLeadBtn => LeadFlow.NewLeadStep(Store.LanguageOr(w.languages, w.user), Store.LastLead(w.leads, w.user))
    case NewLeadCmd => LeadFlow.NewLeadStep(Store.LanguageOr(w.languages, w.user), Store.LastLead(w.leads, w.user))
    case LeadSelected => SelectedStep(v, ValueOf(ev), w)
    case CancelLeadConfirmed => MyLeads.CancelConfirmStep(v)
    case CancelLeadBack => MyLeads.CancelBackStep(v, Store.UserLeads(w.leads, w.user) != [])
    case DataConfirmed => LeadFlow.DataConfirmationStep(v, ValueOf(ev))
    case NameGiven => if ev.Text? then LeadFlow.NameStep(v, ev.text) else v
    case PhoneGiven => if ev.Text? then LeadFlow.PhoneStep(v, ev.text) else v
    case EmailGiven => if ev.Text? then LeadFlow.EmailStep(v, ev.text) else v
    case DescriptionGiven => if ev.Text? then LeadFlow.DescriptionStep(v, ev.text) else v
    case EmailSkipped => LeadFlow.SkipEmailStep(v)
    case FilesFinished => LeadFlow.FilesFinishedStep(v)
    case FileUploaded => if ev.MediaMessage? then LeadFlow.FileUploadStep(v, ev.media) else v
    case SendConfirmed => Idle
    case PreviewCancelled => Idle
    case FilesCancelled => Idle
    case EditChosen => LeadFlow.EditStep(v)
    case FieldChosen => LeadFlow.FieldSelectionStep(v, ValueOf(ev))
    case _ => v
  }

  /** process_lead_selection: int() of the value raises before anything else,
      and only one of the user's own leads is recorded. */
  function SelectedStep(v: Snapshot, value: string, w: World): Snapshot {
    match Decimal.ParseInt(value)
    case None => v
    case Some(id) => MyLeads.SelectStep(v, MyLeads.FirstWithId(Store.UserLeads(w.leads, w.user), id))
  }

  /** The handlers that write to the store. */
  predicate Writes(h: Handler) {
    h == LanguageSelected || h == LanguageChanged || h == SendConfirmed || h == CancelLeadConfirmed
  }

  /** One update, handled by the handler it routes to. Only the effect on the
      session and the store is stated here; the handlers that only reply (help,
      the language keyboard, the listing, the cancel menu, leads:back) change
      neither, and their replies are the results of their own methods. */
  method Dispatch(s: Session, db: Store.LeadStore, user: int, ev: Event, now: string, time: string)
    returns (h: Handler)
    requires db.Valid()
    modifies s, db
    ensures db.Valid()
    ensures h == Route(old(s.Value()), ev)
    ensures s.Value() == Next(h, old(s.Value()), ev, World(old(db.languages), old(db.leads), user))
    ensures !Writes(h) ==> db.leads == old(db.leads) && db.languages == old(db.languages) && db.nextId == old(db.nextId)
  {
    ghost var w := World(db.languages, db.leads, user);
    h := Route(s.Value(), ev);
    RouteData(s.Value(), ev);
    if h in {NameGiven, PhoneGiven, EmailGiven, DescriptionGiven} {
      HandleAnswer(s, ev, h, w);
    } else if h in {StartCmd, CancelCmd, NewLeadBtn, NewLeadCmd} {
      HandleCommand(s, db, user, ev, h);
    } else if h in {LanguageSelected, LanguageChangeConfirmed, LanguageChanged} {
      HandleLanguagePress(s, db, user, ev, h, w);
    } else if h in {LeadSelected, CancelLeadConfirmed, CancelLeadBack} {
      HandleLeadsPress(s, db, user, ev, h);
    } else if h == SendConfirmed {
      HandleSend(s, db, user, ev, now, time, w);
    } else if h in {DataConfirmed, EmailSkipped, FilesFinished, FileUploaded, EditChosen, FieldChosen} {
      HandleFormButton(s, ev, h, w);
    } else {
      ReplyOnly(s, ev, h, w);
    }
  }

  /** What the handler reached tells about the update: the callback data of the
      handlers that split it starts with their prefix, and an upload is a media message. */
  lemma RouteData(v: Snapshot, ev: Event)
    ensures Route(v, ev) == LanguageSelected ==> ev.Press? && StartsWith(ev.data, "lang:")
    ensures Route(v, ev) == LanguageChangeConfirmed ==> ev.Press? && StartsWith(ev.data, "confirm_lang_change:")
    ensures Route(v, ev) == LanguageChanged ==> ev.Press? && StartsWith(ev.data, "change_lang:")
    ensures Route(v, ev) == LeadSelected ==> ev.Press? && StartsWith(ev.data, "select_lead:")
    ensures Route(v, ev) == DataConfirmed ==> ev.Press? && StartsWith(ev.data, "confirm_data:")
    ensures Route(v, ev) == FieldChosen ==> ev.Press? && StartsWith(ev.data, "edit:")
    ensures Route(v, ev) == FileUploaded ==> ev.MediaMessage?
  {
    match ev
    case Text(t) => TextRouteShape(v.state, t);
    case MediaMessage(m, c) => MediaRouteShape(v.state, m, c);
    case Press(d) => PressRouteData(v.state, d);
  }

  /** The press handlers that split their data see their prefix. */
  lemma PressRouteData(state: Option<LeadState>, d: string)
    ensures RoutePress(state, d) == LanguageSelected ==> StartsWith(d, "lang:")
    ensures RoutePress(state, d) == LanguageChangeConfirmed ==> StartsWith(d, "confirm_lang_change:")
    ensures RoutePress(state, d) == LanguageChanged ==> StartsWith(d, "change_lang:")
    ensures RoutePress(state, d) == LeadSelected ==> StartsWith(d, "select_lead:")
    ensures RoutePress(state, d) == DataConfirmed ==> StartsWith(d, "confirm_data:")
    ensures RoutePress(state, d) == FieldChosen ==> StartsWith(d, "edit:")
    ensures RoutePress(state, d) != FileUploaded
  {
  }

  /** The handlers a text can reach: the commands, the labels and the form questions. */
  const MessageHandlers: set<Handler> :=
    {StartCmd, HelpCmd, CancelCmd, LanguageCmd, LanguageBtn, NewLeadBtn, MyLeadsCmd, CancelLeadBtn, NewLeadCmd,
     NameGiven, PhoneGiven, EmailGiven, DescriptionGiven, Unhandled}

  /** An answer to one of the four text questions; media sent instead raises
      AttributeError before the session is touched. */
  method HandleAnswer(s: Session, ev: Event, h: Handler, ghost w: World)
    requires h in {NameGiven, PhoneGiven, EmailGiven, DescriptionGiven}
    modifies s
    ensures s.Value() == Next(h, old(s.Value()), ev, w)
  {
    NextAnswer(h, s.Value(), ev, w);
    if !ev.Text? {
      return;
    }
    var accepted: bool;
    if h == NameGiven {
      accepted := LeadFlow.ProcessName(s, ev.text);
    } else if h == PhoneGiven {
      accepted := LeadFlow.ProcessPhone(s, ev.text);
    } else if h == EmailGiven {
      accepted := LeadFlow.ProcessEmail(s, ev.text);
    } else {
      accepted := LeadFlow.ProcessDescription(s, ev.text);
    }
  }

  /** The steps of the four questions, read off Next. */
  lemma NextAnswer(h: Handler, v: Snapshot, ev: Event, w: World)
    requires h in {NameGiven, PhoneGiven, EmailGiven, DescriptionGiven}
    ensures !ev.Text? ==> Next(h, v, ev, w) == v
    ensures ev.Text? && h == NameGiven ==> Next(h, v, ev, w) == LeadFlow.NameStep(v, ev.text)
    ensures ev.Text? && h == PhoneGiven ==> Next(h, v, ev, w) == LeadFlow.PhoneStep(v, ev.text)
    ensures ev.Text? && h == EmailGiven ==> Next(h, v, ev, w) == LeadFlow.EmailStep(v, ev.text)
    ensures ev.Text? && h == DescriptionGiven ==> Next(h, v, ev, w) == LeadFlow.DescriptionStep(v, ev.text)
  {
    match h
    case NameGiven =>
      assert Next(NameGiven, v, ev, w) == if ev.Text? then LeadFlow.NameStep(v, ev.text) else v;
    case PhoneGiven =>
      assert Next(PhoneGiven, v, ev, w) == if ev.Text? then LeadFlow.PhoneStep(v, ev.text) else v;
    case EmailGiven =>
      NextEmail(v, ev, w);
    case DescriptionGiven =>
      assert Next(DescriptionGiven, v, ev, w) == if ev.Text? then LeadFlow.DescriptionStep(v, ev.text) else v;
  }

  /** The e-mail step, read off Next. */
  lemma NextEmail(v: Snapshot, ev: Event, w: World)
    ensures Next(EmailGiven, v, ev, w) == if ev.Text? then LeadFlow.EmailStep(v, ev.text) else v
  {
  }

  /** /start, /cancel, /new and the "new request" label. */
  method HandleCommand(s: Session, db: Store.LeadStore, user: int, ev: Event, h: Handler)
    requires db.Valid() && h in {StartCmd, CancelCmd, NewLeadBtn, NewLeadCmd}
    modifies s
    ensures s.Value() == Next(h, old(s.Value()), ev, World(db.languages, db.leads, user))
  {
    if h == StartCmd {
      HandleStart(s, db, user);
    } else if h == CancelCmd {
      var cleared := Common.Cancel(s);
    } else {
      LeadFlow.NewLead(s, db, user);
    }
  }

  /** cmd_start, as far as the session goes. */
  method HandleStart(s: Session, db: Store.LeadStore, user: int)
    requires db.Valid()
    modifies s
    ensures s.Value() == Start.StartStep(old(s.Value()))
  {
    var greeting := Start.StartCommand(s, db, user);
  }

  /** The language buttons of the start and common routers. */
  method HandleLanguagePress(s: Session, db: Store.LeadStore, user: int, ev: Event, h: Handler, ghost w: World)
    requires db.Valid() && h in {LanguageSelected, LanguageChangeConfirmed, LanguageChanged}
    requires h == LanguageSelected ==> ev.Press? && StartsWith(ev.data, "lang:")
    requires h == LanguageChangeConfirmed ==> ev.Press? && StartsWith(ev.data, "confirm_lang_change:")
    requires h == LanguageChanged ==> ev.Press? && StartsWith(ev.data, "change_lang:")
    modifies s, db
    ensures db.Valid()
    ensures s.Value() == Next(h, old(s.Value()), ev, w)
    ensures db.leads == old(db.leads) && db.nextId == old(db.nextId)
    ensures h == LanguageChangeConfirmed ==> db.languages == old(db.languages)
  {
    if h == LanguageSelected {
      var saved := Start.SelectLanguage(db, user, ev.data);
    } else if h == LanguageChangeConfirmed {
      Common.ConfirmLanguageChange(s, ev.data);
    } else {
      var saved := Common.ChangeLanguage(s, db, user, ev.data);
    }
  }

  /** The buttons of the my_leads router that touch the session. */
  method HandleLeadsPress(s: Session, db: Store.LeadStore, user: int, ev: Event, h: Handler)
    requires db.Valid() && h in {LeadSelected, CancelLeadConfirmed, CancelLeadBack}
    requires h == LeadSelected ==> ev.Press? && StartsWith(ev.data, "select_lead:")
    modifies s, db
    ensures db.Valid()
    ensures s.Value() == Next(h, old(s.Value()), ev, World(old(db.languages), old(db.leads), user))
    ensures db.languages == old(db.languages) && db.nextId == old(db.nextId)
    ensures h != CancelLeadConfirmed ==> db.leads == old(db.leads)
  {
    if h == LeadSelected {
      HandleSelect(s, db, user, ev.data);
    } else if h == CancelLeadConfirmed {
      var deleted := MyLeads.CancelConfirm(s, db, user);
    } else {
      var buttons := MyLeads.CancelBack(s, db, user);
    }
  }

  /** process_lead_selection, as far as the session goes. */
  method HandleSelect(s: Session, db: Store.LeadStore, user: int, data: string)
    requires StartsWith(data, "select_lead:") && db.Valid()
    modifies s
    ensures s.Value() == Next(LeadSelected, old(s.Value()), Press(data), World(db.languages, db.leads, user))
  {
    RecordSelection(s, db, user, data);
    NextSelected(old(s.Value()), data, World(db.languages, db.leads, user));
  }

  /** The step of process_lead_selection, read off Next. */
  lemma NextSelected(v: Snapshot, data: string, w: World)
    requires Keyboards.CallbackValue(data).Some?
    ensures Next(LeadSelected, v, Press(data), w) == SelectedStep(v, Keyboards.CallbackValue(data).value, w)
  {
    assert Next(LeadSelected, v, Press(data), w) == SelectedStep(v, ValueOf(Press(data)), w);
    assert ValueOf(Press(data)) == Keyboards.CallbackValue(data).value;
  }

  /** process_lead_selection records the id of the lead found, and nothing when
      int() raises or no lead of the user's has it. */
  method RecordSelection(s: Session, db: Store.LeadStore, user: int, data: string)
    requires StartsWith(data, "select_lead:") && db.Valid()
    modifies s
    ensures Keyboards.CallbackValue(data).Some?
    ensures var id := Decimal.ParseInt(Keyboards.CallbackValue(data).value);
            s.Value() == if id.None? then old(s.Value())
                         else MyLeads.SelectStep(old(s.Value()), MyLeads.FirstWithId(Store.UserLeads(db.leads, user), id.value))
  {
    var raised, confirm := MyLeads.SelectLead(s, db, user, data);
  }

  /** confirm_send_lead, as far as the session goes. */
  method HandleSend(s: Session, db: Store.LeadStore, user: int, ev: Event, now: string, time: string, ghost w: World)
    requires db.Valid()
    modifies s, db
    ensures db.Valid()
    ensures s.Value() == Next(SendConfirmed, old(s.Value()), ev, w)
  {
    SendAndClear(s, db, user, now, time);
  }

  /** confirm_send_lead ends the session, saved or not. */
  method SendAndClear(s: Session, db: Store.LeadStore, user: int, now: string, time: string)
    requires db.Valid()
    modifies s, db
    ensures db.Valid()
    ensures s.Value() == Idle
  {
    var saved, notification := LeadFlow.ConfirmSend(s, db, user, now, time);
  }

  /** The form's buttons other than send, and an upload: none of them writes to the store. */
  method HandleFormButton(s: Session, ev: Event, h: Handler, ghost w: World)
    requires h in {DataConfirmed, EmailSkipped, FilesFinished, FileUploaded, EditChosen, FieldChosen}
    requires h == DataConfirmed ==> ev.Press? && StartsWith(ev.data, "confirm_data:")
    requires h == FieldChosen ==> ev.Press? && StartsWith(ev.data, "edit:")
    requires h == FileUploaded ==> ev.MediaMessage?
    modifies s
    ensures s.Value() == Next(h, old(s.Value()), ev, w)
  {
    if h == DataConfirmed {
      var raised := LeadFlow.DataConfirmation(s, ev.data);
    } else if h == EmailSkipped {
      LeadFlow.SkipEmail(s);
    } else if h == FilesFinished {
      HandleFilesFinished(s);
    } else if h == FileUploaded {
      LeadFlow.FileUpload(s, ev.media);
    } else if h == EditChosen {
      LeadFlow.ConfirmEdit(s);
    } else {
      LeadFlow.FieldSelection(s, ev.data);
    }
  }

  /** process_files_skip_or_done, as far as the session goes. */
  method HandleFilesFinished(s: Session)
    modifies s
    ensures s.Value() == LeadFlow.FilesFinishedStep(old(s.Value()))
  {
    var preview := LeadFlow.FilesFinished(s);
  }

  /** The cancel buttons of the preview and the files step end the session; the
      handlers that only reply, and an update no handler takes, leave it as it is. */
  method ReplyOnly(s: Session, ev: Event, h: Handler, ghost w: World)
    requires h in {PreviewCancelled, FilesCancelled, HelpCmd, LanguageCmd, LanguageBtn, MyLeadsCmd, CancelLeadBtn, LeadsBack, Unhandled}
    modifies s
    ensures s.Value() == Next(h, old(s.Value()), ev, w)
  {
    if h == PreviewCancelled || h == FilesCancelled {
      LeadFlow.CancelForm(s);
    }
  }

  // ---------------------------------------------------------------- properties of the routing

  /** Data that differs from a prefix at some position does not start with it. */
  lemma NotPrefix(s: string, p: string, i: nat)
    requires i < |p| && (i < |s| ==> s[i] != p[i])
    ensures !StartsWith(s, p)
  {
  }

  /** The buttons of the preview, the files step and the e-mail step pass by every
      handler of the start, common and my_leads routers. */
  lemma FormButtonData(d: string)
    requires StartsWith(d, "confirm:") || StartsWith(d, "files:") || d == "skip:email"
    ensures !StartsWith(d, "lang:") && !StartsWith(d, "confirm_lang_change:") && !StartsWith(d, "change_lang:")
    ensures !StartsWith(d, "select_lead:") && !StartsWith(d, "confirm_data:")
    ensures d != "cancel_lead:confirm" && d != "cancel_lead:back" && d != "leads:back"
  {
    if StartsWith(d, "confirm:") {
      assert d[..8][0] == 'c' && d[..8][1] == 'o' && d[..8][7] == ':';
      assert d[0] == 'c' && d[1] == 'o' && d[7] == ':';
      NotPrefix(d, "lang:", 0);
      NotPrefix(d, "confirm_lang_change:", 7);
      NotPrefix(d, "change_lang:", 1);
      NotPrefix(d, "select_lead:", 0);
      NotPrefix(d, "confirm_data:", 7);
      assert "cancel_lead:confirm"[1] == 'a' && "cancel_lead:back"[1] == 'a' && "leads:back"[0] == 'l';
    } else if StartsWith(d, "files:") {
      assert d[..6][0] == 'f';
      assert d[0] == 'f';
      NotPrefix(d, "lang:", 0);
      NotPrefix(d, "confirm_lang_change:", 0);
      NotPrefix(d, "change_lang:", 0);
      NotPrefix(d, "select_lead:", 0);
      NotPrefix(d, "confirm_data:", 0);
      assert "cancel_lead:confirm"[0] == 'c' && "cancel_lead:back"[0] == 'c' && "leads:back"[0] == 'l';
    } else {
      NotPrefix(d, "lang:", 0);
      NotPrefix(d, "confirm_lang_change:", 0);
      NotPrefix(d, "change_lang:", 0);
      NotPrefix(d, "select_lead:", 1);
      NotPrefix(d, "confirm_data:", 0);
    }
  }

  /** The three terminal handlers end the session. */
  lemma TerminalHandlersClear(h: Handler, v: Snapshot, ev: Event, w: World)
    requires h in {SendConfirmed, PreviewCancelled, FilesCancelled}
    ensures Next(h, v, ev, w) == Idle
  {
  }

  /** The preview and files buttons are handled by the form, and only in their own state. */
  lemma SendOnlyFromPreview(state: Option<LeadState>)
    ensures RoutePress(state, "confirm:send") == SendConfirmed <==> state == Some(Preview)
  {
    FormButtonData("confirm:send");
    NotPrefix("confirm:send", "edit:", 0);
  }

  /** The state a handler's filter demands (the handlers with no state filter demand none). */
  predicate FitsState(h: Handler, state: Option<LeadState>) {
    match h
    case NameGiven => state == Some(WaitingForName)
    case PhoneGiven => state == Some(WaitingForPhone)
    case EmailGiven => state == Some(WaitingForEmail)
    case DescriptionGiven => state == Some(WaitingForDescription)
    case FilesFinished => state == Some(WaitingForFiles)
    case FileUploaded => state == Some(WaitingForFiles)
    case FilesCancelled => state == Some(WaitingForFiles)
    case SendConfirmed => state == Some(Preview)
    case PreviewCancelled => state == Some(Preview)
    case EditChosen => state == Some(Preview)
    case FieldChosen => state == Some(Editing)
    case _ => true
  }

  /** Every update reaches a handler whose state filter holds. */
  lemma RouteFitsState(v: Snapshot, ev: Event)
    ensures FitsState(Route(v, ev), v.state)
  {
    match ev
    case Text(t) => TextRouteShape(v.state, t);
    case MediaMessage(m, c) => MediaRouteShape(v.state, m, c);
    case Press(d) => PressFitsState(v.state, d);
  }

  /** Every press reaches a handler whose state filter holds. */
  lemma PressFitsState(state: Option<LeadState>, d: string)
    ensures FitsState(RoutePress(state, d), state)
  {
  }

  /** The four form questions, which filter on the state alone. */
  const FormQuestions: set<Handler> := {NameGiven, PhoneGiven, EmailGiven, DescriptionGiven}

  /** A text reaches a command, a menu label or the question of its state. */
  lemma TextRouteShape(state: Option<LeadState>, t: string)
    ensures RouteText(state, t) in MessageHandlers
    ensures RouteText(state, t) in FormQuestions ==> RouteText(state, t) == RouteByState(state)
  {
  }

  /** A media message reaches a command, the upload in the files step, or the
      question of its state. */
  lemma MediaRouteShape(state: Option<LeadState>, m: Media, c: Option<string>)
    ensures RouteMedia(state, m, c) in MessageHandlers + {FileUploaded}
    ensures RouteMedia(state, m, c) in FormQuestions ==> RouteMedia(state, m, c) == RouteByState(state)
    ensures RouteMedia(state, m, c) == FileUploaded ==> state == Some(WaitingForFiles) && HasFile(m)
  {
  }

  /** The session after /new or "➕ New request" keeps the invariant when the
      store's rows do: the previous lead's name and phone are stripped and non-empty. */
  lemma NewLeadKeepsInvariant(w: World)
    requires WorldOk(w)
    ensures FormInvariant(LeadFlow.NewLeadStep(Store.LanguageOr(w.languages, w.user), Store.LastLead(w.leads, w.user)))
  {
    var last := Store.LastLead(w.leads, w.user);
    if last.Some? {
      var k :| 0 <= k < |w.leads| && w.leads[k] == last.value;
      assert Store.RowOk(w.leads[k]);
      StripOfStripped(last.value.fullName);
      StripOfStripped(last.value.phone);
    }
  }

  /** A handler run in a state its filter admits keeps the invariant, except
      skip:email on a draft without name or phone. */
  lemma HandlerKeepsInvariant(h: Handler, v: Snapshot, ev: Event, w: World)
    requires FormInvariant(v) && WorldOk(w) && FitsState(h, v.state)
    requires h == EmailSkipped ==> v.data.fullName.Some? && v.data.phone.Some?
    ensures FormInvariant(Next(h, v, ev, w))
  {
    if h in {NameGiven, PhoneGiven, EmailGiven, DescriptionGiven} {
      if ev.Text? {
        AnswerKeepsInvariant(h, v, ev.text);
      }
    } else if h in {NewLeadBtn, NewLeadCmd} {
      NewLeadKeepsInvariant(w);
    } else if h in {DataConfirmed, EmailSkipped, FilesFinished, FileUploaded, EditChosen, FieldChosen} {
      FormButtonKeepsInvariant(h, v, ev, w);
    } else {
      MenuKeepsInvariant(h, v, ev, w);
    }
  }

  /** The four text answers of the form. */
  lemma AnswerKeepsInvariant(h: Handler, v: Snapshot, t: string)
    requires FormInvariant(v) && FitsState(h, v.state)
    requires h in {NameGiven, PhoneGiven, EmailGiven, DescriptionGiven}
    ensures forall w :: FormInvariant(Next(h, v, Text(t), w))
  {
    if h == NameGiven {
      NameKeepsInvariant(v, t);
    } else if h == PhoneGiven {
      PhoneKeepsInvariant(v, t);
    } else if h == EmailGiven {
      EmailKeepsInvariant(v, t);
    } else {
      DescriptionKeepsInvariant(v, t);
    }
  }

  lemma NameKeepsInvariant(v: Snapshot, t: string)
    requires FormInvariant(v)
    ensures FormInvariant(LeadFlow.NameStep(v, t))
  {
    StripIdempotent(t);
  }

  lemma PhoneKeepsInvariant(v: Snapshot, t: string)
    requires FormInvariant(v) && v.state == Some(WaitingForPhone)
    ensures FormInvariant(LeadFlow.PhoneStep(v, t))
  {
    if Validators.ValidatePhone(Strip(t)) {
      StripIdempotent(t);
      assert |Validators.DigitsOf(Strip(t))| <= |Strip(t)|;
    }
  }

  lemma EmailKeepsInvariant(v: Snapshot, t: string)
    requires FormInvariant(v) && v.state == Some(WaitingForEmail)
    ensures FormInvariant(LeadFlow.EmailStep(v, t))
  {
  }

  lemma DescriptionKeepsInvariant(v: Snapshot, t: string)
    requires FormInvariant(v) && v.state == Some(WaitingForDescription)
    ensures FormInvariant(LeadFlow.DescriptionStep(v, t))
  {
    StripIdempotent(t);
  }

  /** The buttons of the form. */
  lemma FormButtonKeepsInvariant(h: Handler, v: Snapshot, ev: Event, w: World)
    requires FormInvariant(v) && FitsState(h, v.state)
    requires h in {DataConfirmed, EmailSkipped, FilesFinished, FileUploaded, EditChosen, FieldChosen}
    requires h == EmailSkipped ==> v.data.fullName.Some? && v.data.phone.Some?
    ensures FormInvariant(Next(h, v, ev, w))
  {
    match h {
      case DataConfirmed => DataConfirmationKeepsInvariant(v, ValueOf(ev));
      case FileUploaded => if ev.MediaMessage? { UploadKeepsInvariant(v, ev.media); }
      case FieldChosen => FieldSelectionKeepsInvariant(v, ValueOf(ev));
      case _ =>
    }
  }

  lemma DataConfirmationKeepsInvariant(v: Snapshot, action: string)
    requires FormInvariant(v)
    ensures FormInvariant(LeadFlow.DataConfirmationStep(v, action))
  {
  }

  lemma UploadKeepsInvariant(v: Snapshot, m: Media)
    requires FormInvariant(v) && v.state == Some(WaitingForFiles)
    ensures FormInvariant(LeadFlow.FileUploadStep(v, m))
  {
  }

  lemma FieldSelectionKeepsInvariant(v: Snapshot, field: string)
    requires FormInvariant(v) && v.state == Some(Editing)
    ensures FormInvariant(LeadFlow.FieldSelectionStep(v, field))
  {
    var t := LeadFlow.FieldTarget(field);
    var d := v.data.(editingField := Some(field));
    assert FieldsOk(d);
    assert t.Some? ==> t.value in {WaitingForName, WaitingForPhone, WaitingForEmail, WaitingForDescription};
  }

  /** The handlers of the start, common and my_leads routers either end the
      session, keep it, or record only the lead to cancel. */
  lemma MenuKeepsInvariant(h: Handler, v: Snapshot, ev: Event, w: World)
    requires FormInvariant(v)
    requires h !in {NameGiven, PhoneGiven, EmailGiven, DescriptionGiven, NewLeadBtn, NewLeadCmd}
    requires h !in {DataConfirmed, EmailSkipped, FilesFinished, FileUploaded, EditChosen, FieldChosen}
    ensures FormInvariant(Next(h, v, ev, w))
  {
  }

  /** An update that breaks the form: skip:email pressed while the draft lacks
      the name or the phone (the button has no state filter). */
  predicate StaleSkip(v: Snapshot, ev: Event) {
    ev == Press("skip:email") && !(v.data.fullName.Some? && v.data.phone.Some?)
  }

  /** Every routed update keeps the form invariant, except a stale skip:email. */
  lemma RoutingKeepsInvariant(v: Snapshot, ev: Event, w: World)
    requires FormInvariant(v) && WorldOk(w) && !StaleSkip(v, ev)
    ensures FormInvariant(Next(Route(v, ev), v, ev, w))
  {
    RouteFitsState(v, ev);
    if Route(v, ev) == EmailSkipped {
      SkipRoutesFromPressOnly(v, ev);
    }
    HandlerKeepsInvariant(Route(v, ev), v, ev, w);
  }

  /** Only the skip:email button reaches skip_email. */
  lemma SkipRoutesFromPressOnly(v: Snapshot, ev: Event)
    requires Route(v, ev) == EmailSkipped
    ensures ev == Press("skip:email")
  {
    match ev
    case Text(t) => TextRouteShape(v.state, t);
    case MediaMessage(m, c) => MediaRouteShape(v.state, m, c);
    case Press(d) =>
  }

  lemma PreviewCancelOnlyFromPreview(state: Option<LeadState>)
    ensures RoutePress(state, "confirm:cancel") == PreviewCancelled <==> state == Some(Preview)
  {
    FormButtonData("confirm:cancel");
    NotPrefix("confirm:cancel", "edit:", 0);
  }

  lemma FilesCancelOnlyFromFiles(state: Option<LeadState>)
    ensures RoutePress(state, "files:cancel") == FilesCancelled <==> state == Some(WaitingForFiles)
  {
    FormButtonData("files:cancel");
    NotPrefix("files:cancel", "edit:", 0);
  }

  /** Only the steps marked optional can be passed without an accepted answer.
      A handler other than the four answer handlers that moves a first-pass
      state on to its successor is skip:email or, as the unfiltered
      confirm_data handler allows, "use" in the email step, or files:done or
      files:skip in the files step. In every case the step passed is the email
      or the files step. */
  lemma OnlyOptionalStepsSkip(v: Snapshot, ev: Event, w: World)
    requires v.state.Some? && NextInFirstPass(v.state.value).Some?
    requires Route(v, ev) !in {NameGiven, PhoneGiven, EmailGiven, DescriptionGiven}
    requires Next(Route(v, ev), v, ev, w).state == NextInFirstPass(v.state.value)
    ensures Skippable(v.state.value)
    ensures Route(v, ev) == EmailSkipped || Route(v, ev) == FilesFinished
            || (Route(v, ev) == DataConfirmed && v.state == Some(WaitingForEmail))
  {
    RouteFitsState(v, ev);
    HandlerPasses(Route(v, ev), v, ev, w);
  }

  /** OnlyOptionalStepsSkip for any handler whose state filter holds. */
  lemma HandlerPasses(h: Handler, v: Snapshot, ev: Event, w: World)
    requires v.state.Some? && NextInFirstPass(v.state.value).Some?
    requires FitsState(h, v.state) && h !in FormQuestions
    requires Next(h, v, ev, w).state == NextInFirstPass(v.state.value)
    ensures Skippable(v.state.value)
    ensures h == EmailSkipped || h == FilesFinished || (h == DataConfirmed && v.state == Some(WaitingForEmail))
  {
    if h == NewLeadBtn || h == NewLeadCmd {
      var last := Store.LastLead(w.leads, w.user);
    }
  }

  /** The two optional steps can be passed: skip:email moves the email step to
      the description, and files:done and files:skip move the files step to the
      preview. */
  lemma OptionalStepsPass(v: Snapshot, d: string, w: World)
    ensures v.state == Some(WaitingForEmail) ==>
              Next(Route(v, Press("skip:email")), v, Press("skip:email"), w).state == NextInFirstPass(WaitingForEmail)
    ensures v.state == Some(WaitingForFiles) && (d == "files:done" || d == "files:skip") ==>
              Next(Route(v, Press(d)), v, Press(d), w).state == NextInFirstPass(WaitingForFiles)
  {
    if v.state == Some(WaitingForEmail) {
      EmailSkipPasses(v, w);
    }
    if v.state == Some(WaitingForFiles) && (d == "files:done" || d == "files:skip") {
      FilesDonePasses(v, d, w);
    }
  }

  /** skip:email in the email step moves on to the description. */
  lemma EmailSkipPasses(v: Snapshot, w: World)
    requires v.state == Some(WaitingForEmail)
    ensures Next(Route(v, Press("skip:email")), v, Press("skip:email"), w).state == NextInFirstPass(WaitingForEmail)
  {
    FormButtonData("skip:email");
    assert Route(v, Press("skip:email")) == EmailSkipped;
    assert Next(EmailSkipped, v, Press("skip:email"), w) == LeadFlow.SkipEmailStep(v);
  }

  /** files:done and files:skip in the files step move on to the preview. */
  lemma FilesDonePasses(v: Snapshot, d: string, w: World)
    requires v.state == Some(WaitingForFiles) && (d == "files:done" || d == "files:skip")
    ensures Next(Route(v, Press(d)), v, Press(d), w).state == NextInFirstPass(WaitingForFiles)
  {
    FormButtonData(d);
    assert Route(v, Press(d)) == FilesFinished;
    assert Next(FilesFinished, v, Press(d), w) == LeadFlow.FilesFinishedStep(v);
  }

  /** The skip button offered in the email step reaches skip_email in every state. */
  lemma SkipDataRoute(state: Option<LeadState>)
    ensures RoutePress(state, "skip:email") == EmailSkipped
  {
    FormButtonData("skip:email");
  }

  /** files:done and files:skip reach finish_files in the files step and no
      handler in any other state. */
  lemma FilesDoneDataRoute(state: Option<LeadState>, d: string)
    requires d == "files:done" || d == "files:skip"
    ensures RoutePress(state, d) == FilesFinished <==> state == Some(WaitingForFiles)
    ensures state != Some(WaitingForFiles) ==> RoutePress(state, d) == Unhandled
  {
    FormButtonData(d);
    NotPrefix(d, "edit:", 0);
  }

  /** The preview buttons: send, edit and cancel reach their handlers in the
      preview step. */
  lemma ConfirmationDataRoute()
    ensures RoutePress(Some(Preview), "confirm:send") == SendConfirmed
    ensures RoutePress(Some(Preview), "confirm:edit") == EditChosen
    ensures RoutePress(Some(Preview), "confirm:cancel") == PreviewCancelled
  {
    SendOnlyFromPreview(Some(Preview));
    PreviewCancelOnlyFromPreview(Some(Preview));
    FormButtonData("confirm:edit");
  }

  /** An edit button reaches process_field_selection in the editing step. */
  lemma EditDataRoute(field: string)
    ensures RoutePress(Some(Editing), Keyboards.Callback("edit", field)) == FieldChosen
  {
    var d := Keyboards.Callback("edit", field);
    assert d[..5] == "edit:";
    assert d[0] == 'e' && d[1] == 'd';
    NotPrefix(d, "lang:", 0);
    NotPrefix(d, "confirm_lang_change:", 0);
    NotPrefix(d, "change_lang:", 0);
    NotPrefix(d, "select_lead:", 0);
    NotPrefix(d, "confirm_data:", 0);
    NotPrefix(d, "cancel_lead:confirm", 0);
    NotPrefix(d, "cancel_lead:back", 0);
    NotPrefix(d, "leads:back", 0);
    NotPrefix(d, "skip:email", 0);
    NotPrefix(d, "files:skip", 0);
    NotPrefix(d, "files:done", 0);
    NotPrefix(d, "files:cancel", 0);
    NotPrefix(d, "confirm:send", 0);
    NotPrefix(d, "confirm:edit", 0);
    NotPrefix(d, "confirm:cancel", 0);
  }

  /** The repeat-data, cancel-confirmation and language-change buttons reach
      their handlers in every state: none of those handlers filters on the state. */
  lemma UnfilteredDataRoute(state: Option<LeadState>)
    ensures RoutePress(state, "confirm_data:use") == DataConfirmed
    ensures RoutePress(state, "confirm_data:change") == DataConfirmed
    ensures RoutePress(state, "cancel_lead:confirm") == CancelLeadConfirmed
    ensures RoutePress(state, "cancel_lead:back") == CancelLeadBack
    ensures RoutePress(state, "confirm_lang_change:yes") == LanguageChangeConfirmed
    ensures RoutePress(state, "confirm_lang_change:no") == LanguageChangeConfirmed
  {
    RepeatDataRoute(state);
    CancelLeadDataRoute(state);
    LanguageChangeDataRoute(state);
  }

  /** confirm_data:use and confirm_data:change reach the repeat-data handler in every state. */
  lemma RepeatDataRoute(state: Option<LeadState>)
    ensures RoutePress(state, "confirm_data:use") == DataConfirmed
    ensures RoutePress(state, "confirm_data:change") == DataConfirmed
  {
    var use, change := "confirm_data:use", "confirm_data:change";
    assert use[..13] == "confirm_data:" && change[..13] == "confirm_data:";
    NotPrefix(use, "lang:", 0);
    NotPrefix(use, "confirm_lang_change:", 8);
    NotPrefix(use, "change_lang:", 1);
    NotPrefix(use, "select_lead:", 0);
    NotPrefix(change, "lang:", 0);
    NotPrefix(change, "confirm_lang_change:", 8);
    NotPrefix(change, "change_lang:", 1);
    NotPrefix(change, "select_lead:", 0);
  }

  /** The cancel-confirmation buttons reach their handlers in every state. */
  lemma CancelLeadDataRoute(state: Option<LeadState>)
    ensures RoutePress(state, "cancel_lead:confirm") == CancelLeadConfirmed
    ensures RoutePress(state, "cancel_lead:back") == CancelLeadBack
  {
    NotPrefix("cancel_lead:confirm", "lang:", 0);
    NotPrefix("cancel_lead:confirm", "confirm_lang_change:", 1);
    NotPrefix("cancel_lead:confirm", "change_lang:", 1);
    NotPrefix("cancel_lead:confirm", "select_lead:", 0);
    NotPrefix("cancel_lead:back", "lang:", 0);
    NotPrefix("cancel_lead:back", "confirm_lang_change:", 1);
    NotPrefix("cancel_lead:back", "change_lang:", 1);
    NotPrefix("cancel_lead:back", "select_lead:", 0);
  }

  /** The language-change confirmation buttons reach their handler in every state. */
  lemma LanguageChangeDataRoute(state: Option<LeadState>)
    ensures RoutePress(state, "confirm_lang_change:yes") == LanguageChangeConfirmed
    ensures RoutePress(state, "confirm_lang_change:no") == LanguageChangeConfirmed
  {
    var yes, no := "confirm_lang_change:yes", "confirm_lang_change:no";
    assert yes[..20] == "confirm_lang_change:" && no[..20] == "confirm_lang_change:";
    NotPrefix(yes, "lang:", 0);
    NotPrefix(no, "lang:", 0);
  }

  /** The skip keyboard of the email step reaches skip_email there. */
  lemma SkipKeyboardRoutes(lang: string)
    ensures var k := Keyboards.SkipButtons(lang);
            |k| == 1 && k[0].data.Some? && RoutePress(Some(WaitingForEmail), k[0].data.value) == EmailSkipped
  {
    Keyboards.FormButtonsData(lang);
    SkipDataRoute(Some(WaitingForEmail));
  }

  /** The files keyboard reaches finish_files and cancel_from_files in the files step. */
  lemma FilesKeyboardRoutes(lang: string)
    ensures var k := Keyboards.FilesButtons(lang);
            && |k| == 3 && k[0].data.Some? && k[1].data.Some? && k[2].data.Some?
            && RoutePress(Some(WaitingForFiles), k[0].data.value) == FilesFinished
            && RoutePress(Some(WaitingForFiles), k[1].data.value) == FilesFinished
            && RoutePress(Some(WaitingForFiles), k[2].data.value) == FilesCancelled
  {
    Keyboards.FormButtonsData(lang);
    FilesDoneDataRoute(Some(WaitingForFiles), "files:done");
    FilesDoneDataRoute(Some(WaitingForFiles), "files:skip");
    FilesCancelOnlyFromFiles(Some(WaitingForFiles));
  }

  /** The preview keyboard reaches send, edit and cancel in the preview. */
  lemma ConfirmationKeyboardRoutes(lang: string)
    ensures var k := Keyboards.ConfirmationButtons(lang);
            && |k| == 3 && k[0].data.Some? && k[1].data.Some? && k[2].data.Some?
            && RoutePress(Some(Preview), k[0].data.value) == SendConfirmed
            && RoutePress(Some(Preview), k[1].data.value) == EditChosen
            && RoutePress(Some(Preview), k[2].data.value) == PreviewCancelled
  {
    Keyboards.FormButtonsData(lang);
    ConfirmationDataRoute();
  }

  /** Each button of the edit keyboard reaches process_field_selection in the editing step. */
  lemma EditKeyboardRoutes(lang: string)
    ensures var k := Keyboards.EditButtons(lang);
            && |k| == |Keyboards.EditFields|
            && forall i :: 0 <= i < |k| ==> k[i].data.Some? && RoutePress(Some(Editing), k[i].data.value) == FieldChosen
  {
    Keyboards.EditButtonsCarryFields(lang);
    forall i | 0 <= i < |Keyboards.EditFields|
      ensures RoutePress(Some(Editing), Keyboards.EditButtons(lang)[i].data.value) == FieldChosen
    {
      EditDataRoute(Keyboards.EditFields[i]);
    }
  }

  /** The repeat-data, cancel-confirmation and language-change keyboards reach
      their handlers whatever the state. */
  lemma UnfilteredKeyboardsRoute(lang: string, state: Option<LeadState>)
    ensures var k := Keyboards.ConfirmDataButtons(lang);
            RoutePress(state, k[0].data.value) == DataConfirmed && RoutePress(state, k[1].data.value) == DataConfirmed
    ensures var k := Keyboards.ConfirmCancelButtons(lang);
            RoutePress(state, k[0].data.value) == CancelLeadConfirmed && RoutePress(state, k[1].data.value) == CancelLeadBack
    ensures var k := Keyboards.LanguageChangeButtons(lang);
            RoutePress(state, k[0].data.value) == LanguageChangeConfirmed
            && RoutePress(state, k[1].data.value) == LanguageChangeConfirmed
  {
    Keyboards.UnfilteredButtonsData(lang);
    UnfilteredDataRoute(state);
  }

  /** /cancel is handled before any form handler in every state, in a text or
      in a media caption: it ends an open form and leaves an idle session alone. */
  lemma CancelAlwaysReachable(v: Snapshot, ev: Event, w: World)
    requires ev.Text? || ev.MediaMessage?
    requires ev.Text? ==> IsCommand(ev.text, "cancel")
    requires ev.MediaMessage? ==> ev.caption.Some? && IsCommand(ev.caption.value, "cancel")
    ensures Route(v, ev) == CancelCmd
    ensures v.state.Some? ==> Next(Route(v, ev), v, ev, w) == Idle
    ensures v.state.None? ==> Next(Route(v, ev), v, ev, w) == v
  {
  }

  /** "/name" alone, after white space, or followed by white space and arguments
      (a new line included) is the command. */
  lemma {:induction false} CommandForms(p: string, name: string, rest: string)
    requires AllSpace(p)
    requires forall i :: 0 <= i < |name| ==> !IsSpace(name[i])
    requires rest == [] || IsSpace(rest[0])
    ensures IsCommand(p + "/" + name + rest, name)
  {
    var w := "/" + name;
    assert forall i :: 1 <= i < |w| ==> w[i] == name[i - 1];
    assert p + "/" + name + rest == p + w + rest;
    FirstWordOf(p, w, rest);
  }

  /** The converse: a command is "/name" after white space only, followed by the
      end or by white space. */
  lemma CommandShape(t: string, name: string)
    requires IsCommand(t, name)
    ensures var k := LeadingSpaces(t);
            && k + |name| + 1 <= |t|
            && AllSpace(t[..k])
            && t == t[..k] + "/" + name + t[k + |name| + 1..]
            && (t[k + |name| + 1..] == [] || IsSpace(t[k + |name| + 1..][0]))
  {
    FirstWordShape(t);
    var k := LeadingSpaces(t);
    assert t[..k] + "/" + name == t[..k] + ("/" + name);
  }

  /** The text "/cancel", alone or followed by white space and arguments, ends
      an open form in every state. */
  lemma CancelWithArguments(v: Snapshot, rest: string, w: World)
    requires rest == [] || IsSpace(rest[0])
    ensures Route(v, Text("/cancel" + rest)) == CancelCmd
    ensures v.state.Some? ==> Next(Route(v, Text("/cancel" + rest)), v, Text("/cancel" + rest), w) == Idle
  {
    CommandForms([], "cancel", rest);
    assert [] + "/" + "cancel" + rest == "/cancel" + rest;
    CancelAlwaysReachable(v, Text("/cancel" + rest), w);
  }

  /** "/cancel" on the first line of a longer message, sent as the name, still
      reaches cmd_cancel and ends the form. */
  lemma CancelOnFirstLine(v: Snapshot, w: World)
    requires v.state == Some(WaitingForName)
    ensures Route(v, Text("/cancel\nthanks")) == CancelCmd
    ensures Next(Route(v, Text("/cancel\nthanks")), v, Text("/cancel\nthanks"), w) == Idle
  {
    assert "/cancel" + "\nthanks" == "/cancel\nthanks";
    CancelWithArguments(v, "\nthanks", w);
  }

  /** A message that holds one of the six registered commands. */
  predicate AnyCommand(c: string) {
    || IsCommand(c, "start") || IsCommand(c, "help") || IsCommand(c, "cancel")
    || IsCommand(c, "language") || IsCommand(c, "my_leads") || IsCommand(c, "new")
  }

  /** A captioned photo, document or video whose caption holds a command reaches
      that command's handler, as the same text would; any other media message
      reaches the upload in the files step and otherwise the state's question. */
  lemma MediaRouting(state: Option<LeadState>, m: Media, c: string)
    ensures AnyCommand(c) ==> RouteMedia(state, m, Some(c)) == RouteText(state, c)
    ensures !AnyCommand(c) ==>
              RouteMedia(state, m, Some(c)) ==
              (if state == Some(WaitingForFiles) then (if HasFile(m) then FileUploaded else Unhandled)
               else RouteByState(state))
  {
    if AnyCommand(c) {
      LabelsAreNoCommands();
      SlashCommand(c);
      assert c !in MenuLabels();
    }
  }

  /** A command's first word starts with '/'. */
  lemma SlashCommand(c: string)
    ensures AnyCommand(c) ==> FirstWord(c) != [] && FirstWord(c)[0] == '/'
  {
  }

  /** The main-menu labels that F.text.in_ filters on. */
  function MenuLabels(): (r: seq<string>)
    ensures forall t :: t in r <==>
              t in Keyboards.NewLeadTexts || t in Keyboards.MyLeadsTexts || t in Keyboards.CancelLeadTexts ||
              t in Keyboards.ChangeLanguageLabels
  {
    Keyboards.NewLeadTexts + Keyboards.MyLeadsTexts + Keyboards.CancelLeadTexts + Keyboards.ChangeLanguageLabels
  }

  /** No menu label is a command, so F.text.in_ and the command filters never
      both match: the first word of each label starts with its emoji. */
  lemma LabelsAreNoCommands()
    ensures forall t :: t in MenuLabels() ==> FirstWord(t) != [] && FirstWord(t)[0] != '/'
  {
    forall t | t in Keyboards.NewLeadTexts ensures FirstWord(t) != [] && FirstWord(t)[0] != '/' {
      LabelWord(t, '➕');
    }
    forall t | t in Keyboards.MyLeadsTexts ensures FirstWord(t) != [] && FirstWord(t)[0] != '/' {
      LabelWord(t, '📋');
    }
    forall t | t in Keyboards.CancelLeadTexts ensures FirstWord(t) != [] && FirstWord(t)[0] != '/' {
      LabelWord(t, '❌');
    }
    forall t | t in Keyboards.ChangeLanguageLabels ensures FirstWord(t) != [] && FirstWord(t)[0] != '/' {
      LabelWord(t, '🌍');
    }
  }

  /** A text that starts with a character other than white space or '/' has a
      first word that starts with that character. */
  lemma LabelWord(t: string, e: char)
    requires t != [] && t[0] == e && !IsSpace(e) && e != '/'
    ensures FirstWord(t) != [] && FirstWord(t)[0] == e
  {
  }

  /** A text whose first non-white character is not '/' has no command word. */
  lemma NotCommandWord(t: string)
    requires LeadingSpaces(t) < |t| && t[LeadingSpaces(t)] != '/'
    ensures FirstWord(t) == [] || FirstWord(t)[0] != '/'
  {
    FirstWordPiece(t);
  }

  /** The stale skip is a real break: from an idle session it reaches the
      description question without the name and phone later handlers read. */
  lemma StaleSkipBreaksInvariant(w: World)
    ensures FormInvariant(Idle) && StaleSkip(Idle, Press("skip:email"))
    ensures !FormInvariant(Next(Route(Idle, Press("skip:email")), Idle, Press("skip:email"), w))
  {
    FormButtonData("skip:email");
    assert RoutePress(None, "skip:email") == EmailSkipped;
  }

  /** In a session that keeps the invariant, files:done finds every key the
      preview reads, and confirm:send saves: the draft passes save_lead's checks. */
  lemma InvariantMeansSave(v: Snapshot, ev: Event)
    requires FormInvariant(v)
    ensures Route(v, ev) == FilesFinished ==> LeadFlow.PreviewReady(v.data)
    ensures Route(v, ev) == SendConfirmed ==> LeadFlow.SavePasses(v.data)
  {
    RouteFitsState(v, ev);
  }

  /** The session after a run of updates, each seen against the store as it is then. */
  function Run(v: Snapshot, steps: seq<(Event, World)>): Snapshot
    decreases |steps|
  {
    if steps == [] then v
    else Run(Next(Route(v, steps[0].0), v, steps[0].0, steps[0].1), steps[1..])
  }

  /** No update of the run is a stale skip:email in the session it meets. */
  predicate NoStaleSkip(v: Snapshot, steps: seq<(Event, World)>)
    decreases |steps|
  {
    steps == [] ||
    (!StaleSkip(v, steps[0].0) && NoStaleSkip(Next(Route(v, steps[0].0), v, steps[0].0, steps[0].1), steps[1..]))
  }

  /** A run with no stale skip:email, over stores that keep their invariant,
      keeps the form invariant from start to end. */
  lemma {:induction false} RunKeepsInvariant(v: Snapshot, steps: seq<(Event, World)>)
    requires FormInvariant(v)
    requires forall i :: 0 <= i < |steps| ==> WorldOk(steps[i].1)
    requires NoStaleSkip(v, steps)
    ensures FormInvariant(Run(v, steps))
    decreases |steps|
  {
    if steps != [] {
      var ev, w := steps[0].0, steps[0].1;
      RoutingKeepsInvariant(v, ev, w);
      var rest := steps[1..];
      assert forall i :: 0 <= i < |rest| ==> rest[i] == steps[i + 1];
      RunKeepsInvariant(Next(Route(v, ev), v, ev, w), rest);
    }
  }

  /** A text whose first non-white character is not '/' is no command. */
  lemma NotCommand(t: string, name: string)
    requires LeadingSpaces(t) < |t| && t[LeadingSpaces(t)] != '/'
    ensures !IsCommand(t, name)
  {
    NotCommandWord(t);
  }

  /** The main-menu labels are handled by the menu handlers in every state, so
      none of them is taken as an answer to a form question. */
  lemma MenuLabelsBeatTheForm(state: Option<LeadState>, t: string)
    ensures t in Keyboards.NewLeadTexts ==> RouteText(state, t) == NewLeadBtn
    ensures t in Keyboards.MyLeadsTexts ==> RouteText(state, t) == MyLeadsCmd
    ensures t in Keyboards.CancelLeadTexts ==> RouteText(state, t) == CancelLeadBtn
    ensures t in Keyboards.ChangeLanguageTexts() ==> RouteText(state, t) == LanguageBtn
  {
    Keyboards.ChangeLanguageTextsAre();
    LabelsAreNoCommands();
    SlashCommand(t);
    if t in MenuLabels() {
      LabelRoute(state, t);
    }
  }

  /** A label that is no command reaches the handler of its list: the language
      labels are tried first, then new lead, my leads and cancel lead. */
  lemma LabelRoute(state: Option<LeadState>, t: string)
    requires !AnyCommand(t)
    ensures t in Keyboards.ChangeLanguageLabels ==> RouteText(state, t) == LanguageBtn
    ensures t in Keyboards.NewLeadTexts ==> RouteText(state, t) == NewLeadBtn
    ensures t in Keyboards.MyLeadsTexts ==> RouteText(state, t) == MyLeadsCmd
    ensures t in Keyboards.CancelLeadTexts ==> RouteText(state, t) == CancelLeadBtn
  {
    if t in Keyboards.ChangeLanguageLabels {
      LanguageLabelRoute(state, t);
    }
    if t in Keyboards.NewLeadTexts {
      NewLeadLabelRoute(state, t);
    }
    if t in Keyboards.MyLeadsTexts {
      MyLeadsLabelRoute(state, t);
    }
    if t in Keyboards.CancelLeadTexts {
      CancelLeadLabelRoute(state, t);
    }
  }

  lemma LanguageLabelRoute(state: Option<LeadState>, t: string)
    requires !AnyCommand(t) && t in Keyboards.ChangeLanguageLabels
    ensures RouteText(state, t) == LanguageBtn
  {
  }

  lemma NewLeadLabelRoute(state: Option<LeadState>, t: string)
    requires !AnyCommand(t) && t in Keyboards.NewLeadTexts
    ensures RouteText(state, t) == NewLeadBtn
  {
    assert t[0] == '➕';
    assert t !in Keyboards.ChangeLanguageLabels by {
      assert forall u :: u in Keyboards.ChangeLanguageLabels ==> u != [] && u[0] != '➕';
    }
  }

  lemma MyLeadsLabelRoute(state: Option<LeadState>, t: string)
    requires !AnyCommand(t) && t in Keyboards.MyLeadsTexts
    ensures RouteText(state, t) == MyLeadsCmd
  {
    assert t[0] == '📋';
    assert t !in Keyboards.ChangeLanguageLabels + Keyboards.NewLeadTexts by {
      assert forall u :: u in Keyboards.ChangeLanguageLabels + Keyboards.NewLeadTexts ==> u != [] && u[0] != '📋';
    }
  }

  lemma CancelLeadLabelRoute(state: Option<LeadState>, t: string)
    requires !AnyCommand(t) && t in Keyboards.CancelLeadTexts
    ensures RouteText(state, t) == CancelLeadBtn
  {
    assert t[0] == '❌';
    assert t !in Keyboards.ChangeLanguageLabels + Keyboards.NewLeadTexts + Keyboards.MyLeadsTexts by {
      assert forall u :: u in Keyboards.ChangeLanguageLabels + Keyboards.NewLeadTexts + Keyboards.MyLeadsTexts ==>
               u != [] && u[0] != '❌';
    }
  }

  /** Each button of the main menu, in any language, reaches its handler whatever the state. */
  lemma MainMenuRoutes(state: Option<LeadState>, lang: string)
    ensures RouteText(state, Keyboards.MainMenuButtons(lang)[0].text) == NewLeadBtn
    ensures RouteText(state, Keyboards.MainMenuButtons(lang)[1].text) == MyLeadsCmd
    ensures RouteText(state, Keyboards.MainMenuButtons(lang)[2].text) == CancelLeadBtn
    ensures RouteText(state, Keyboards.MainMenuButtons(lang)[3].text) == LanguageBtn
  {
    Keyboards.MainMenuReachesHandlers(lang);
    var b := Keyboards.MainMenuButtons(lang);
    MenuLabelsBeatTheForm(state, b[0].text);
    MenuLabelsBeatTheForm(state, b[1].text);
    MenuLabelsBeatTheForm(state, b[2].text);
    MenuLabelsBeatTheForm(state, b[3].text);
  }
}
