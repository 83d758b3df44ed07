/** The keyboards: each one is the list of its buttons in the order they are
    added, a button being its label and, for inline keyboards, its callback
    data. The row layout is not modelled. Callback data is "prefix:value";
    the handlers read the value back as data.split(":")[1]. */
module Keyboards {
  import opened Wrappers
  import opened Strings
  import Decimal
  import Locales
  import Store

  datatype Button = Button(text: string, data: Option<string>)

  /** The callback data of a button of family `prefix` carrying `value`. */
  function Callback(prefix: string, value: string): string {
    prefix + ":" + value
  }

  /** data.split(":")[1], None where Python raises IndexError. */
  function CallbackValue(data: string): (r: Option<string>)
    ensures r.None? <==> ':' !in data
    ensures r.Some? ==> ':' !in r.value
  {
    var parts := SplitOn(data, ':');
    SplitOnCount(data, ':');
    if |parts| >= 2 then Some(parts[1]) else None
  }

  /** What a handler reads back is what the keyboard put in, when neither part holds a ':'. */
  lemma CallbackRoundTrip(prefix: string, value: string)
    requires ':' !in prefix && ':' !in value
    ensures CallbackValue(Callback(prefix, value)) == Some(value)
  {
    SplitOnFirst(prefix, ':', value);
    SplitOnNoSeparator(value, ':');
  }

  /** A value with a ':' of its own comes back cut at that ':'. */
  lemma CallbackValueCut(prefix: string, value: string, rest: string)
    requires ':' !in prefix && ':' !in value
    ensures CallbackValue(Callback(prefix, value + ":" + rest)) == Some(value)
  {
    var data := Callback(prefix, value + ":" + rest);
    assert data == prefix + [':'] + (value + [':'] + rest);
    SplitOnFirst(prefix, ':', value + [':'] + rest);
    SplitOnFirst(value, ':', rest);
  }

  // ---------------------------------------------------------------- language keyboard

  /** The buttons get_language_keyboard adds: one per LANGUAGE_NAMES entry, in order. */
  function LanguageButtons(prefix: string): (r: seq<Button>)
    ensures |r| == |Locales.LanguageNames|
  {
    seq(|Locales.LanguageNames|, i requires 0 <= i < |Locales.LanguageNames| =>
      Button(Locales.LanguageNames[i].1, Some(Callback(prefix, Locales.LanguageNames[i].0))))
  }

  /** get_language_keyboard: the loop over LANGUAGE_NAMES. */
  method LanguageKeyboard(prefix: string) returns (buttons: seq<Button>)
    ensures buttons == LanguageButtons(prefix)
    ensures forall i :: 0 <= i < |buttons| ==> buttons[i].text == Locales.LanguageNames[i].1
  {
    buttons := [];
    var i := 0;
    while i < |Locales.LanguageNames|
      invariant 0 <= i <= |Locales.LanguageNames|
      invariant buttons == LanguageButtons(prefix)[..i]
    {
      var (code, name) := Locales.LanguageNames[i];
      buttons := buttons + [Button(name, Some(Callback(prefix, code)))];
      i := i + 1;
    }
  }

  /** Every language button's data parses back to its code, and the codes read
      back are the supported languages in order. */
  lemma LanguageButtonsParse(prefix: string)
    requires ':' !in prefix
    ensures forall i :: 0 <= i < |LanguageButtons(prefix)| ==>
              LanguageButtons(prefix)[i].data.Some? &&
              CallbackValue(LanguageButtons(prefix)[i].data.value) == Some(Locales.SupportedLanguages[i])
  {
    assert Locales.LanguageCodes() == Locales.SupportedLanguages;
    forall i | 0 <= i < |LanguageButtons(prefix)|
      ensures CallbackValue(LanguageButtons(prefix)[i].data.value) == Some(Locales.SupportedLanguages[i])
    {
      var code := Locales.LanguageNames[i].0;
      assert code == Locales.LanguageCodes()[i];
      assert ':' !in code;
      CallbackRoundTrip(prefix, code);
    }
  }

  // ---------------------------------------------------------------- fixed keyboards

  function ConfirmationButtons(lang: string): seq<Button> {
    [Button(Locales.GetText("btn_send", lang), Some(Callback("confirm", "send"))),
     Button(Locales.GetText("btn_edit", lang), Some(Callback("confirm", "edit"))),
     Button(Locales.GetText("btn_cancel", lang), Some(Callback("confirm", "cancel")))]
  }

  /** The fields the edit keyboard offers, in order. */
  const EditFields: seq<string> := ["name", "phone", "email", "description"]

  function EditButtons(lang: string): seq<Button> {
    [Button(Locales.GetText("btn_name", lang), Some(Callback("edit", "name"))),
     Button(Locales.GetText("btn_phone", lang), Some(Callback("edit", "phone"))),
     Button(Locales.GetText("btn_email", lang), Some(Callback("edit", "email"))),
     Button(Locales.GetText("btn_description", lang), Some(Callback("edit", "description")))]
  }

  /** The edit buttons carry exactly the four field names, in order, each read
      back by split(":")[1]. */
  lemma EditButtonsCarryFields(lang: string)
    ensures |EditButtons(lang)| == |EditFields|
    ensures forall i :: 0 <= i < |EditFields| ==>
              EditButtons(lang)[i].data == Some(Callback("edit", EditFields[i]))
              && CallbackValue(Callback("edit", EditFields[i])) == Some(EditFields[i])
  {
    forall i | 0 <= i < |EditFields|
      ensures CallbackValue(Callback("edit", EditFields[i])) == Some(EditFields[i])
    {
      CallbackRoundTrip("edit", EditFields[i]);
    }
  }

  function SkipButtons(lang: string): seq<Button> {
    [Button(Locales.GetText("btn_skip", lang), Some(Callback("skip", "email")))]
  }

  function ConfirmDataButtons(lang: string): seq<Button> {
    [Button(Locales.GetText("btn_use_data", lang), Some(Callback("confirm_data", "use"))),
     Button(Locales.GetText("btn_change_data", lang), Some(Callback("confirm_data", "change")))]
  }

  function ConfirmCancelButtons(lang: string): seq<Button> {
    [Button(Locales.GetText("btn_confirm", lang), Some(Callback("cancel_lead", "confirm"))),
     Button(Locales.GetText("btn_back", lang), Some(Callback("cancel_lead", "back")))]
  }

  function FilesButtons(lang: string): seq<Button> {
    [Button(Locales.GetText("btn_done", lang), Some(Callback("files", "done"))),
     Button(Locales.GetText("btn_skip", lang), Some(Callback("files", "skip"))),
     Button(Locales.GetText("btn_cancel", lang), Some(Callback("files", "cancel")))]
  }

  function LanguageChangeButtons(lang: string): seq<Button> {
    [Button(Locales.GetText("btn_confirm_language_change", lang), Some(Callback("confirm_lang_change", "yes"))),
     Button(Locales.GetText("btn_continue_form", lang), Some(Callback("confirm_lang_change", "no")))]
  }

  /** The callback data of the keyboards of the form steps. */
  lemma FormButtonsData(lang: string)
    ensures |SkipButtons(lang)| == 1 && SkipButtons(lang)[0].data == Some("skip:email")
    ensures var k := FilesButtons(lang);
            |k| == 3 && k[0].data == Some("files:done") && k[1].data == Some("files:skip")
            && k[2].data == Some("files:cancel")
    ensures var k := ConfirmationButtons(lang);
            |k| == 3 && k[0].data == Some("confirm:send") && k[1].data == Some("confirm:edit")
            && k[2].data == Some("confirm:cancel")
  {
    assert Callback("skip", "email") == "skip:email";
    assert Callback("files", "done") == "files:done";
    assert Callback("files", "skip") == "files:skip";
    assert Callback("files", "cancel") == "files:cancel";
    assert Callback("confirm", "send") == "confirm:send";
    assert Callback("confirm", "edit") == "confirm:edit";
    assert Callback("confirm", "cancel") == "confirm:cancel";
  }

  /** The callback data of the repeat-data, cancel-confirmation and
      language-change keyboards. */
  lemma UnfilteredButtonsData(lang: string)
    ensures var k := ConfirmDataButtons(lang);
            |k| == 2 && k[0].data == Some("confirm_data:use") && k[1].data == Some("confirm_data:change")
    ensures var k := ConfirmCancelButtons(lang);
            |k| == 2 && k[0].data == Some("cancel_lead:confirm") && k[1].data == Some("cancel_lead:back")
    ensures var k := LanguageChangeButtons(lang);
            |k| == 2 && k[0].data == Some("confirm_lang_change:yes") && k[1].data == Some("confirm_lang_change:no")
  {
    assert Callback("confirm_data", "use") == "confirm_data:use";
    assert Callback("confirm_data", "change") == "confirm_data:change";
    assert Callback("cancel_lead", "confirm") == "cancel_lead:confirm";
    assert Callback("cancel_lead", "back") == "cancel_lead:back";
    assert Callback("confirm_lang_change", "yes") == "confirm_lang_change:yes";
    assert Callback("confirm_lang_change", "no") == "confirm_lang_change:no";
  }

  /** The reply keyboard of the main menu; its buttons send their label. */
  function MainMenuButtons(lang: string): seq<Button> {
    [Button(Locales.GetText("btn_new_lead", lang), None),
     Button(Locales.GetText("btn_my_leads", lang), None),
     Button(Locales.GetText("btn_cancel_lead", lang), None),
     Button(Locales.GetText("btn_change_language", lang), None)]
  }

  /** The labels the menu handlers filter on. */
  const NewLeadTexts: seq<string> := ["➕ Новая заявка", "➕ Novi zahtjev", "➕ New request"]
  const MyLeadsTexts: seq<string> := ["📋 Мои заявки", "📋 Moji zahtjevi", "📋 My requests"]
  const CancelLeadTexts: seq<string> := ["❌ Отменить заявку", "❌ Otkazati zahtjev", "❌ Cancel request"]

  /** The language-change filter is built from the table itself. */
  function ChangeLanguageTexts(): seq<string> {
    [Locales.GetText("btn_change_language", "ru"),
     Locales.GetText("btn_change_language", "me"),
     Locales.GetText("btn_change_language", "en")]
  }

  /** In every language, with English for any other code, each main-menu label
      is one a menu handler listens for. */
  lemma MainMenuReachesHandlers(lang: string)
    ensures MainMenuButtons(lang)[0].text in NewLeadTexts
    ensures MainMenuButtons(lang)[1].text in MyLeadsTexts
    ensures MainMenuButtons(lang)[2].text in CancelLeadTexts
    ensures MainMenuButtons(lang)[3].text in ChangeLanguageTexts()
  {
    NewLeadLabel(lang);
    MyLeadsLabel(lang);
    CancelLeadLabel(lang);
    ChangeLanguageLabel(lang);
  }

  lemma NewLeadLabel(lang: string)
    ensures Locales.GetText("btn_new_lead", lang) in NewLeadTexts
  {
    var k := if lang == "ru" then 0 else if lang == "me" then 1 else 2;
    assert Locales.GetText("btn_new_lead", lang) == NewLeadTexts[k];
  }

  lemma MyLeadsLabel(lang: string)
    ensures Locales.GetText("btn_my_leads", lang) in MyLeadsTexts
  {
    var k := if lang == "ru" then 0 else if lang == "me" then 1 else 2;
    assert Locales.GetText("btn_my_leads", lang) == MyLeadsTexts[k];
  }

  lemma CancelLeadLabel(lang: string)
    ensures Locales.GetText("btn_cancel_lead", lang) in CancelLeadTexts
  {
    var k := if lang == "ru" then 0 else if lang == "me" then 1 else 2;
    assert Locales.GetText("btn_cancel_lead", lang) == CancelLeadTexts[k];
  }

  lemma ChangeLanguageLabel(lang: string)
    ensures Locales.GetText("btn_change_language", lang) in ChangeLanguageTexts()
  {
    var k := if lang == "ru" then 0 else if lang == "me" then 1 else 2;
    assert Locales.GetText("btn_change_language", lang) == ChangeLanguageTexts()[k];
  }

  /** The language-change filter's labels, evaluated once as the module loads. */
  const ChangeLanguageLabels: seq<string> := ["🌍 Сменить язык", "🌍 Promijeniti jezik", "🌍 Change language"]

  /** The filter's labels are the table's, in every language. */
  lemma ChangeLanguageTextsAre()
    ensures ChangeLanguageTexts() == ChangeLanguageLabels
  {
  }

  // ---------------------------------------------------------------- leads list

  /** The description cut of a lead button: 30 characters and an ellipsis. */
  const ButtonCut := 30

  /** The button of one lead: "#<id> - <short description>", data "select_lead:<id>". */
  function LeadButton(lead: Store.Lead): Button {
    Button("#" + Decimal.NatToString(lead.id) + " - " + Truncate(lead.description, ButtonCut),
           Some(Callback("select_lead", Decimal.NatToString(lead.id))))
  }

  /** The buttons get_leads_list_keyboard adds: one per lead, in order, then "back". */
  function LeadsListButtons(leads: seq<Store.Lead>, lang: string): (r: seq<Button>)
    ensures |r| == |leads| + 1
    ensures forall i :: 0 <= i < |leads| ==> r[i] == LeadButton(leads[i])
    ensures r[|leads|] == Button(Locales.GetText("btn_back", lang), Some(Callback("leads", "back")))
  {
    seq(|leads|, i requires 0 <= i < |leads| => LeadButton(leads[i]))
      + [Button(Locales.GetText("btn_back", lang), Some(Callback("leads", "back")))]
  }

  /** get_leads_list_keyboard: the loop over the leads, then the back button. */
  method LeadsListKeyboard(leads: seq<Store.Lead>, lang: string) returns (buttons: seq<Button>)
    ensures buttons == LeadsListButtons(leads, lang)
  {
    buttons := [];
    var i := 0;
    while i < |leads|
      invariant 0 <= i <= |leads|
      invariant buttons == seq(i, k requires 0 <= k < i => LeadButton(leads[k]))
    {
      buttons := buttons + [LeadButton(leads[i])];
      i := i + 1;
    }
    buttons := buttons + [Button(Locales.GetText("btn_back", lang), Some(Callback("leads", "back")))];
  }

  /** The selection handler's int(split(":")[1]) reads back the lead's id. */
  lemma LeadButtonRoundTrip(lead: Store.Lead)
    ensures LeadButton(lead).data.Some?
    ensures CallbackValue(LeadButton(lead).data.value).Some?
    ensures Decimal.ParseInt(CallbackValue(LeadButton(lead).data.value).value) == Some(lead.id)
  {
    var digits := Decimal.NatToString(lead.id);
    assert ':' !in digits by {
      forall k | 0 <= k < |digits| ensures digits[k] != ':' { assert IsDigit(digits[k]); }
    }
    CallbackRoundTrip("select_lead", digits);
    Decimal.NatRoundTrip(lead.id);
  }

  /** A long description is cut to its first 30 characters and an ellipsis on the button. */
  lemma LeadButtonText(lead: Store.Lead)
    ensures var t := LeadButton(lead).text; var p := "#" + Decimal.NatToString(lead.id) + " - ";
            && StartsWith(t, p)
            && (|lead.description| <= ButtonCut ==> t[|p|..] == lead.description)
            && (|lead.description| > ButtonCut ==> t[|p|..] == lead.description[..ButtonCut] + "...")
  {
    var p := "#" + Decimal.NatToString(lead.id) + " - ";
    var t := LeadButton(lead).text;
    assert t == p + Truncate(lead.description, ButtonCut);
    assert t[..|p|] == p && t[|p|..] == Truncate(lead.description, ButtonCut);
  }
}
