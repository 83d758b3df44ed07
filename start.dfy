/** /start and the first language choice. */
module Start {
  import opened Wrappers
  import opened Strings
  import Locales
  import Store
  import Keyboards
  import opened Fsm

  /** cmd_start's effect on the session: any open form is ended. */
  function StartStep(v: Snapshot): Snapshot {
    if v.state.Some? then Idle else v
  }

  /** The greeting of /start: welcome and menu in the stored language, or the
      language prompt in English for a user who has not chosen one. */
  function Greeting(stored: Option<string>): string {
    if stored.Some? && stored.value != "" then
      Locales.GetText("welcome", stored.value) + "\n\n" + Locales.GetText("menu", stored.value)
    else Locales.GetText("choose_language", "en")
  }

  /** cmd_start. */
  method StartCommand(s: Session, db: Store.LeadStore, user: int) returns (greeting: string)
    requires db.Valid()
    modifies s
    ensures s.Value() == StartStep(old(s.Value()))
    ensures greeting == Greeting(if user in db.languages then Some(db.languages[user]) else None)
  {
    var stored := db.GetUserLanguage(user);
    if s.state.Some? {
      s.Clear();
    }
    greeting := Greeting(stored);
  }

  /** process_language_selection: the code is checked, then stored for the user;
      the session is not touched. */
  method SelectLanguage(db: Store.LeadStore, user: int, data: string) returns (saved: bool)
    requires StartsWith(data, "lang:") && db.Valid()
    modifies db
    ensures Keyboards.CallbackValue(data).Some?
    ensures db.Valid()
    ensures saved <==> Keyboards.CallbackValue(data).value in Locales.SupportedLanguages
    ensures saved ==> db.languages == old(db.languages)[user := Keyboards.CallbackValue(data).value]
    ensures !saved ==> db.languages == old(db.languages)
    ensures db.leads == old(db.leads) && db.nextId == old(db.nextId)
  {
    assert data[4] == ':';
    var code := Keyboards.CallbackValue(data).value;
    if code !in Locales.SupportedLanguages {
      return false;
    }
    var ok := db.SaveUserLanguage(user, code);
    saved := true;
  }
}
