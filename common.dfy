/** The handlers every state shares: /cancel, the language request and the
    language change, with its confirmation while a form is open. */
module Common {
  import opened Wrappers
  import opened Strings
  import Locales
  import Store
  import Keyboards
  import opened Fsm

  /** cmd_cancel: with no state only the menu is shown; otherwise the session ends. */
  function CancelStep(v: Snapshot): Snapshot {
    if v.state.None? then v else Idle
  }

  /** confirm_language_change_during_form: "yes" ends the session, anything else keeps it. */
  function LanguageConfirmStep(v: Snapshot, action: string): Snapshot {
    if action == "yes" then Idle else v
  }

  /** process_language_change: a supported code ends the session. */
  function LanguageChangeStep(v: Snapshot, code: string): Snapshot {
    if code in Locales.SupportedLanguages then Idle else v
  }

  /** The languages the handlers check against are the ones the users table accepts. */
  lemma SupportedAreStorable(code: string)
    ensures code in Locales.SupportedLanguages <==> Store.ValidLanguage(code)
  {
  }

  /** A language change ends the session exactly when the code is supported, and
      an unsupported one keeps both state and draft. */
  lemma LanguageChangeOutcome(v: Snapshot, code: string)
    ensures LanguageChangeStep(v, code) == Idle <==> code in Locales.SupportedLanguages || v == Idle
    ensures code !in Locales.SupportedLanguages ==> LanguageChangeStep(v, code) == v
  {
  }

  /** cmd_cancel; `cleared` says whether a form was open. */
  method Cancel(s: Session) returns (cleared: bool)
    modifies s
    ensures cleared <==> old(s.state).Some?
    ensures s.Value() == CancelStep(old(s.Value()))
    ensures !cleared ==> s.Value() == old(s.Value())
  {
    if s.state.None? {
      return false;
    }
    s.Clear();
    cleared := true;
  }

  /** cmd_language and btn_language: a warning while a form is open, the language
      keyboard otherwise. Neither touches the session. */
  method LanguageRequest(s: Session, lang: string) returns (warned: bool, shown: seq<Keyboards.Button>)
    ensures warned <==> s.state.Some?
    ensures warned ==> shown == Keyboards.LanguageChangeButtons(lang)
    ensures !warned ==> shown == Keyboards.LanguageButtons("change_lang")
  {
    if s.state.Some? {
      return true, Keyboards.LanguageChangeButtons(lang);
    }
    shown := Keyboards.LanguageKeyboard("change_lang");
    warned := false;
  }

  method ConfirmLanguageChange(s: Session, data: string)
    requires StartsWith(data, "confirm_lang_change:")
    modifies s
    ensures Keyboards.CallbackValue(data).Some?
    ensures s.Value() == LanguageConfirmStep(old(s.Value()), Keyboards.CallbackValue(data).value)
  {
    assert data[19] == ':';
    var action := Keyboards.CallbackValue(data).value;
    if action == "yes" {
      s.Clear();
    }
  }

  /** process_language_change: an unsupported code is refused with nothing
      written; a supported one is saved first and then the session ends. */
  method ChangeLanguage(s: Session, db: Store.LeadStore, user: int, data: string) returns (saved: bool)
    requires StartsWith(data, "change_lang:") && db.Valid()
    modifies s, db
    ensures Keyboards.CallbackValue(data).Some?
    ensures db.Valid()
    ensures saved <==> Keyboards.CallbackValue(data).value in Locales.SupportedLanguages
    ensures saved ==> db.languages == old(db.languages)[user := Keyboards.CallbackValue(data).value]
    ensures !saved ==> db.languages == old(db.languages)
    ensures db.leads == old(db.leads) && db.nextId == old(db.nextId)
    ensures s.Value() == LanguageChangeStep(old(s.Value()), Keyboards.CallbackValue(data).value)
  {
    assert data[11] == ':';
    var code := Keyboards.CallbackValue(data).value;
    if code !in Locales.SupportedLanguages {
      return false;
    }
    var ok := db.SaveUserLanguage(user, code);
    s.Clear();
    saved := true;
  }
}
