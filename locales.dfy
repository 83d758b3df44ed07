/** The translation table and its two lookups: get_text, total over every key and
    language with an English fallback, and format_text, str.format over the
    looked-up template that falls back to the raw template when an argument is
    missing. */
module Locales {
  import opened Wrappers
  import opened Strings

  /** One entry of the table: every key is translated into all three languages. */
  datatype Translations = Translations(ru: string, me: string, en: string)

  /** The table, one case per key in the order the table declares them. */
  function Entry(key: string): Option<Translations> {
    match key
    // app/locales.py:8-12
    case "choose_language" => Some(Translations(
      "🌍 Выберите язык / Izaberite jezik / Choose language:",
      "🌍 Izaberite jezik / Выберите язык / Choose language:",
      "🌍 Choose language / Выберите язык / Izaberite jezik:"))
    // app/locales.py:15-25
    case "welcome" => Some(Translations(
      "👋 Добро пожаловать!\n\nЯ помогу вам оставить заявку на строительно-ремонтные работы.\n\nИспользуйте /new для создания новой заявки.",
      "👋 Dobrodošli!\n\nPomoći ću vam da pošaljete zahtjev za građevinske i renovacijske radove.\n\nKoristite /new da kreirate novi zahtjev.",
      "👋 Welcome!\n\nI will help you submit a request for construction and renovation work.\n\nUse /new to create a new request."))
    // app/locales.py:28-44
    case "menu" => Some(Translations(
      "📋 Доступные команды:\n\n/new - Создать новую заявку\n/language - Сменить язык\n/cancel - Отменить текущую заявку\n/help - Помощь",
      "📋 Dostupne komande:\n\n/new - Kreirati novi zahtjev\n/language - Promijeniti jezik\n/cancel - Otkazati trenutni zahtjev\n/help - Pomoć",
      "📋 Available commands:\n\n/new - Create a new request\n/language - Change language\n/cancel - Cancel current request\n/help - Help"))
    // app/locales.py:47-54
    case "start_new_lead" => Some(Translations(
      "📝 Начинаем заполнение заявки.\n\nПожалуйста, укажите ваше имя и фамилию:",
      "📝 Počinjemo popunjavanje zahtjeva.\n\nMolimo vas da unesete vaše ime i prezime:",
      "📝 Starting a new request.\n\nPlease enter your first and last name:"))
    // app/locales.py:57-61
    case "ask_name" => Some(Translations(
      "👤 Введите ваше имя и фамилию:",
      "👤 Unesite vaše ime i prezime:",
      "👤 Enter your first and last name:"))
    // app/locales.py:64-71
    case "ask_phone" => Some(Translations(
      "📞 Введите ваш номер телефона:\n\nФормат: +382 XX XXX XXX или любой другой удобный формат.",
      "📞 Unesite vaš broj telefona:\n\nFormat: +382 XX XXX XXX ili bilo koji drugi format.",
      "📞 Enter your phone number:\n\nFormat: +382 XX XXX XXX or any other convenient format."))
    // app/locales.py:74-78
    case "ask_email" => Some(Translations(
      "✉️ Введите ваш email (или нажмите \"Пропустить\"):",
      "✉️ Unesite vaš email (ili pritisnite \"Preskočiti\"):",
      "✉️ Enter your email (or press \"Skip\"):"))
    // app/locales.py:81-88
    case "ask_description" => Some(Translations(
      "📝 Опишите ваш проект:\n\nРасскажите, какие работы вам нужны (минимум 10 символов).",
      "📝 Opišite vaš projekat:\n\nRecite nam kakvi radovi su vam potrebni (minimum 10 znakova).",
      "📝 Describe your project:\n\nTell us what work you need (minimum 10 characters)."))
    // app/locales.py:91-101
    case "ask_files" => Some(Translations(
      "📎 Прикрепите фото или документы (опционально):\n\nВы можете отправить фото, документы или видео.\nКогда закончите, нажмите \"Готово\" или \"Пропустить\".",
      "📎 Priložite fotografije ili dokumente (opciono):\n\nMožete poslati fotografije, dokumente ili video.\nKada završite, pritisnite \"Gotovo\" ili \"Preskočiti\".",
      "📎 Attach photos or documents (optional):\n\nYou can send photos, documents or videos.\nWhen done, press \"Done\" or \"Skip\"."))
    // app/locales.py:104-120
    case "confirm_old_data" => Some(Translations(
      "👤 У вас уже есть заявка.\n\nИспользовать эти данные?\n\n📋 Имя: {full_name}\n📞 Телефон: {phone}\n✉️ Email: {email}",
      "👤 Već imate prijavu.\n\nKoristiti ove podatke?\n\n📋 Ime: {full_name}\n📞 Telefon: {phone}\n✉️ Email: {email}",
      "👤 You already have an application.\n\nUse this data?\n\n📋 Name: {full_name}\n📞 Phone: {phone}\n✉️ Email: {email}"))
    // app/locales.py:123-127
    case "file_received" => Some(Translations(
      "✅ Файл получен! Можете отправить еще или нажмите \"Готово\".",
      "✅ Fajl primljen! Možete poslati još ili pritisnite \"Gotovo\".",
      "✅ File received! You can send more or press \"Done\"."))
    // app/locales.py:130-140
    case "invalid_phone" => Some(Translations(
      "❌ Неверный формат телефона.\n\nПожалуйста, введите номер телефона (минимум 10 цифр).\nНапример: +382 67 123 456",
      "❌ Pogrešan format broja telefona.\n\nMolimo unesite broj telefona (minimum 10 cifara).\nNa primjer: +382 67 123 456",
      "❌ Invalid phone format.\n\nPlease enter a phone number (minimum 10 digits).\nExample: +382 67 123 456"))
    // app/locales.py:143-150
    case "invalid_email" => Some(Translations(
      "❌ Неверный формат email.\n\nПожалуйста, введите корректный email или нажмите \"Пропустить\".",
      "❌ Pogrešan format email-a.\n\nMolimo unesite ispravan email ili pritisnite \"Preskočiti\".",
      "❌ Invalid email format.\n\nPlease enter a valid email or press \"Skip\"."))
    // app/locales.py:153-160
    case "description_too_short" => Some(Translations(
      "❌ Описание слишком короткое.\n\nПожалуйста, опишите ваш проект подробнее (минимум 10 символов).",
      "❌ Opis je prekratak.\n\nMolimo opišite vaš projekat detaljnije (minimum 10 znakova).",
      "❌ Description is too short.\n\nPlease describe your project in more detail (minimum 10 characters)."))
    // app/locales.py:163-182
    case "preview_lead" => Some(Translations(
      ("✅ Проверьте данные перед отправкой:\n\n" + "👤 Имя: ") + "{full_name}" + ("\n📞 Телефон: " + "{phone}"
        + ("\n✉️ Email: " + "{email}" + ("\n📝 Описание проекта:\n" + "{description}" + "\n\nВсё верно?"))),
      ("✅ Provjerite podatke prije slanja:\n\n" + "👤 Ime: ") + "{full_name}" + ("\n📞 Telefon: " + "{phone}"
        + ("\n✉️ Email: " + "{email}" + ("\n📝 Opis projekta:\n" + "{description}" + "\n\nDa li je sve tačno?"))),
      (("✅ Review your information " + "before submitting:\n\n") + "👤 Name: ") + "{full_name}" + ("\n📞 Phone: " + "{phone}"
        + ("\n✉️ Email: " + "{email}" + ("\n📝 Project description:\n" + "{description}" + "\n\nIs everything correct?")))))
    // app/locales.py:185-189
    case "email_not_provided" => Some(Translations(
      "не указан",
      "nije navedeno",
      "not provided"))
    // app/locales.py:192-202
    case "thank_you" => Some(Translations(
      "🎉 Спасибо! Ваша заявка принята.\n\nМы свяжемся с вами в ближайшее время.\n\nИспользуйте кнопки ниже для управления заявками.",
      "🎉 Hvala! Vaš zahtjev je primljen.\n\nKontaktiraćemo vas uskoro.\n\nKoristite dugmad ispod za upravljanje zahtjevima.",
      "🎉 Thank you! Your request has been received.\n\nWe will contact you shortly.\n\nUse buttons below to manage your requests."))
    // app/locales.py:205-209
    case "my_leads" => Some(Translations(
      "📋 Ваши заявки:\n\n",
      "📋 Vaši zahtjevi:\n\n",
      "📋 Your requests:\n\n"))
    // app/locales.py:212-219
    case "no_leads" => Some(Translations(
      "📋 У вас пока нет заявок.\n\nИспользуйте /new чтобы создать первую заявку.",
      "📋 Još nemate zahtjeva.\n\nKoristite /new da kreirate prvi zahtjev.",
      "📋 You have no requests yet.\n\nUse /new to create your first request."))
    // app/locales.py:222-226
    case "choose_lead_to_cancel" => Some(Translations(
      "❌ Выберите заявку для отмены:",
      "❌ Izaberite zahtjev za otkazivanje:",
      "❌ Choose a request to cancel:"))
    // app/locales.py:229-245
    case "confirm_cancel_lead" => Some(Translations(
      "⚠️ Вы уверены что хотите отменить эту заявку?\n\n📋 Заявка #{lead_id}\n📝 {description}\n📅 {created_at}\n\nЭта заявка будет удалена из базы данных.",
      "⚠️ Da li ste sigurni da želite otkazati ovaj zahtjev?\n\n📋 Zahtjev #{lead_id}\n📝 {description}\n📅 {created_at}\n\nOvaj zahtjev će biti obrisan iz baze podataka.",
      "⚠️ Are you sure you want to cancel this request?\n\n📋 Request #{lead_id}\n📝 {description}\n📅 {created_at}\n\nThis request will be deleted from the database."))
    // app/locales.py:248-252
    case "lead_cancelled" => Some(Translations(
      "✅ Заявка #{lead_id} успешно отменена и удалена из базы данных.",
      "✅ Zahtjev #{lead_id} je uspješno otkazan i obrisan iz baze podataka.",
      "✅ Request #{lead_id} has been successfully cancelled and deleted from the database."))
    // app/locales.py:255-259
    case "cancel_failed" => Some(Translations(
      "❌ Не удалось отменить заявку. Возможно она уже была удалена.",
      "❌ Nije moguće otkazati zahtjev. Možda je već obrisan.",
      "❌ Failed to cancel request. It may have already been deleted."))
    // app/locales.py:262-269
    case "cancelled" => Some(Translations(
      "❌ Заявка отменена.\n\nИспользуйте /new для создания новой заявки.",
      "❌ Zahtjev je otkazan.\n\nKoristite /new da kreirate novi zahtjev.",
      "❌ Request cancelled.\n\nUse /new to create a new request."))
    // app/locales.py:272-276
    case "choose_field_to_edit" => Some(Translations(
      "✏️ Выберите поле для редактирования:",
      "✏️ Izaberite polje za izmjenu:",
      "✏️ Choose a field to edit:"))
    // app/locales.py:279-316
    case "help_text" => Some(Translations(
      "❓ Помощь\n\n📋 Доступные команды:\n\n/start - Начало работы\n/new - Создать новую заявку\n/language - Сменить язык\n/cancel - Отменить текущую заявку\n/help - Показать эту справку\n\n💡 Как это работает:\n1. Нажмите /new\n2. Заполните форму (имя, телефон, email, описание)\n3. Проверьте данные и отправьте\n4. Мы получим вашу заявку и свяжемся с вами",
      "❓ Pomoć\n\n📋 Dostupne komande:\n\n/start - Početak rada\n/new - Kreirati novi zahtjev\n/language - Promijeniti jezik\n/cancel - Otkazati trenutni zahtjev\n/help - Prikazati ovu pomoć\n\n💡 Kako to radi:\n1. Pritisnite /new\n2. Popunite formular (ime, telefon, email, opis)\n3. Provjerite podatke i pošaljite\n4. Primićemo vaš zahtjev i kontaktiraćemo vas",
      "❓ Help\n\n📋 Available commands:\n\n/start - Start\n/new - Create a new request\n/language - Change language\n/cancel - Cancel current request\n/help - Show this help\n\n💡 How it works:\n1. Press /new\n2. Fill out the form (name, phone, email, description)\n3. Review and submit\n4. We will receive your request and contact you"))
    // app/locales.py:319-323
    case "error_occurred" => Some(Translations(
      "❌ Произошла ошибка. Попробуйте снова или обратитесь в поддержку.",
      "❌ Došlo je do greške. Pokušajte ponovo ili kontaktirajte podršku.",
      "❌ An error occurred. Please try again or contact support."))
    // app/locales.py:326-330
    case "btn_send" => Some(Translations(
      "✅ Отправить",
      "✅ Poslati",
      "✅ Send"))
    // app/locales.py:331-335
    case "btn_edit" => Some(Translations(
      "✏️ Изменить",
      "✏️ Izmjeniti",
      "✏️ Edit"))
    // app/locales.py:336-340
    case "btn_skip" => Some(Translations(
      "⏭️ Пропустить",
      "⏭️ Preskočiti",
      "⏭️ Skip"))
    // app/locales.py:341-345
    case "btn_cancel" => Some(Translations(
      "❌ Отменить",
      "❌ Otkazati",
      "❌ Cancel"))
    // app/locales.py:346-350
    case "btn_name" => Some(Translations(
      "👤 Имя",
      "👤 Ime",
      "👤 Name"))
    // app/locales.py:351-355
    case "btn_phone" => Some(Translations(
      "📞 Телефон",
      "📞 Telefon",
      "📞 Phone"))
    // app/locales.py:356-360
    case "btn_email" => Some(Translations(
      "✉️ Email",
      "✉️ Email",
      "✉️ Email"))
    // app/locales.py:361-365
    case "btn_description" => Some(Translations(
      "📝 Описание",
      "📝 Opis",
      "📝 Description"))
    // app/locales.py:366-370
    case "btn_use_data" => Some(Translations(
      "✅ Использовать эти данные",
      "✅ Koristiti ove podatke",
      "✅ Use this data"))
    // app/locales.py:371-375
    case "btn_change_data" => Some(Translations(
      "✏️ Изменить данные",
      "✏️ Promijeniti podatke",
      "✏️ Change data"))
    // app/locales.py:376-380
    case "btn_done" => Some(Translations(
      "✅ Готово",
      "✅ Gotovo",
      "✅ Done"))
    // app/locales.py:381-385
    case "btn_files" => Some(Translations(
      "📎 Файлы",
      "📎 Fajlovi",
      "📎 Files"))
    // app/locales.py:386-390
    case "btn_new_lead" => Some(Translations(
      "➕ Новая заявка",
      "➕ Novi zahtjev",
      "➕ New request"))
    // app/locales.py:391-395
    case "btn_my_leads" => Some(Translations(
      "📋 Мои заявки",
      "📋 Moji zahtjevi",
      "📋 My requests"))
    // app/locales.py:396-400
    case "btn_cancel_lead" => Some(Translations(
      "❌ Отменить заявку",
      "❌ Otkazati zahtjev",
      "❌ Cancel request"))
    // app/locales.py:401-405
    case "btn_back" => Some(Translations(
      "◀️ Назад",
      "◀️ Nazad",
      "◀️ Back"))
    // app/locales.py:406-410
    case "btn_confirm" => Some(Translations(
      "✅ Да, отменить",
      "✅ Da, otkazati",
      "✅ Yes, cancel"))
    // app/locales.py:413-417
    case "admin_notification" => Some(Translations(
      "🧱 Новая заявка",
      "🧱 Novi zahtjev",
      "🧱 New Request"))
    // app/locales.py:420-424
    case "change_language" => Some(Translations(
      "🌍 Выберите новый язык:",
      "🌍 Izaberite novi jezik:",
      "🌍 Choose a new language:"))
    // app/locales.py:426-430
    case "language_changed" => Some(Translations(
      "✅ Язык успешно изменен!",
      "✅ Jezik je uspješno promijenjen!",
      "✅ Language successfully changed!"))
    // app/locales.py:432-436
    case "btn_change_language" => Some(Translations(
      "🌍 Сменить язык",
      "🌍 Promijeniti jezik",
      "🌍 Change language"))
    // app/locales.py:439-452
    case "language_change_warning" => Some(Translations(
      "⚠️ Внимание!\n\nВы сейчас заполняете форму заявки.\nЕсли вы смените язык, текущая форма будет сброшена и вам придется заполнить ее заново.\n\nВы уверены, что хотите сменить язык?",
      "⚠️ Upozorenje!\n\nTrenutno popunjavate formular zahtjeva.\nAko promijenite jezik, trenutni formular će biti poništen i moraćete ga popuniti ponovo.\n\nDa li ste sigurni da želite promijeniti jezik?",
      "⚠️ Warning!\n\nYou are currently filling out a request form.\nIf you change the language, the current form will be reset and you will have to fill it out again.\n\nAre you sure you want to change the language?"))
    // app/locales.py:454-458
    case "btn_confirm_language_change" => Some(Translations(
      "✅ Да, сменить язык",
      "✅ Da, promijeniti jezik",
      "✅ Yes, change language"))
    // app/locales.py:460-464
    case "btn_continue_form" => Some(Translations(
      "❌ Нет, продолжить заполнение",
      "❌ Ne, nastaviti popunjavanje",
      "❌ No, continue filling"))
    case _ => None
  }

  /** The language codes the bot offers. */
  const SupportedLanguages: seq<string> := ["ru", "me", "en"]

  /** The button label of each language, in the order the language keyboard lists them. */
  const LanguageNames: seq<(string, string)> := [
    ("ru", "🇷🇺 Русский"),
    ("me", "🇲🇪 Crnogorski"),
    ("en", "🇬🇧 English")
  ]

  /** The codes of LanguageNames, in order: they are the supported languages. */
  function LanguageCodes(): (r: seq<string>)
    ensures r == SupportedLanguages
  {
    seq(|LanguageNames|, i requires 0 <= i < |LanguageNames| => LanguageNames[i].0)
  }

  /** translations.get(lang, translations['en']). */
  function Pick(t: Translations, lang: string): string {
    if lang == "ru" then t.ru else if lang == "me" then t.me else t.en
  }

  /** get_text: the translation of `key` into `lang`; English for any other language
      code; a visible marker naming the key when the table has no such key. */
  function GetText(key: string, lang: string): (r: string)
    ensures Entry(key).None? ==> r == "[Missing translation: " + key + "]"
    ensures Entry(key).Some? && lang == "ru" ==> r == Entry(key).value.ru
    ensures Entry(key).Some? && lang == "me" ==> r == Entry(key).value.me
    ensures Entry(key).Some? && lang != "ru" && lang != "me" ==> r == Entry(key).value.en
  {
    match Entry(key)
    case None => "[Missing translation: " + key + "]"
    case Some(t) => Pick(t, lang)
  }

  /** An unsupported language code reads the English text. */
  lemma FallbackToEnglish(key: string, lang: string)
    requires lang !in SupportedLanguages
    ensures GetText(key, lang) == GetText(key, "en")
  {
  }

  // ---------------------------------------------------------------- format_text

  /** The outcome of str.format on a template: the formatted text, the KeyError of
      the first field that names no argument, or any other error it raises. */
  datatype Formatted = Done(text: string) | MissingKey(name: string) | Malformed

  /** `p` in front of a formatted text; an error passes through. */
  function Prefix(p: string, f: Formatted): Formatted {
    match f
    case Done(t) => Done(p + t)
    case _ => f
  }

  predicate BraceFree(s: string) {
    forall i :: 0 <= i < |s| ==> s[i] != '{' && s[i] != '}'
  }

  lemma BraceFreeAppend(a: string, b: string)
    requires BraceFree(a) && BraceFree(b)
    ensures BraceFree(a + b)
  {
    forall i | 0 <= i < |a + b| ensures (a + b)[i] != '{' && (a + b)[i] != '}' {
      if i >= |a| { assert (a + b)[i] == b[i - |a|]; }
    }
  }

  /** The length of the field name opening `t`: the characters before the first brace. */
  function FieldLength(t: string): (n: nat)
    ensures n <= |t| && BraceFree(t[..n])
    ensures n < |t| ==> t[n] == '}' || t[n] == '{'
  {
    if t == [] || t[0] == '}' || t[0] == '{' then 0
    else
      var n := 1 + FieldLength(t[1..]);
      assert t[..n] == [t[0]] + t[1..][..n - 1];
      n
  }

  /** A keyword field. An empty or all-digit name indexes the positional arguments,
      of which format_text passes none. */
  predicate Named(name: string) {
    name != [] && !AllDigits(name)
  }

  /** str.format(**args) on `t`, left to right, with `{{` and `}}` as escapes. */
  function Substitute(t: string, args: map<string, string>): Formatted
    decreases |t|
  {
    if t == [] then Done("")
    else if t[0] == '{' then
      if |t| >= 2 && t[1] == '{' then Prefix("{", Substitute(t[2..], args))
      else
        var n := FieldLength(t[1..]);
        if 1 + n == |t| || t[1 + n] == '{' then Malformed
        else
          var name := t[1..1 + n];
          if !Named(name) then Malformed
          else if name !in args then MissingKey(name)
          else Prefix(args[name], Substitute(t[n + 2..], args))
    else if t[0] == '}' then
      if |t| >= 2 && t[1] == '}' then Prefix("}", Substitute(t[2..], args))
      else Malformed
    else Prefix([t[0]], Substitute(t[1..], args))
  }

  /** The template part of format_text: the formatted text; the unformatted
      template when a field names no argument (the KeyError it catches); None where
      str.format raises any other error, which format_text lets through. */
  function FormatTemplate(text: string, args: map<string, string>): Option<string> {
    match Substitute(text, args)
    case Done(r) => Some(r)
    case MissingKey(_) => Some(text)
    case Malformed => None
  }

  /** format_text: get_text, then the template formatted with the keyword arguments. */
  function FormatText(key: string, lang: string, args: map<string, string>): Option<string> {
    FormatTemplate(GetText(key, lang), args)
  }

  lemma PrefixPrefix(a: string, b: string, f: Formatted)
    ensures Prefix(a, Prefix(b, f)) == Prefix(a + b, f)
  {
    if f.Done? {
      assert a + (b + f.text) == (a + b) + f.text;
    }
  }

  /** Text without braces passes through str.format in front of whatever follows it. */
  lemma {:induction false} BraceFreePrefix(p: string, q: string, args: map<string, string>)
    requires BraceFree(p)
    ensures Substitute(p + q, args) == Prefix(p, Substitute(q, args))
  {
    if p == [] {
      assert p + q == q;
      assert Prefix(p, Substitute(q, args)) == Substitute(q, args) by {
        if Substitute(q, args).Done? { assert p + Substitute(q, args).text == Substitute(q, args).text; }
      }
    } else {
      var t := p + q;
      assert t[0] == p[0] && t[1..] == p[1..] + q;
      assert BraceFree(p[1..]) by {
        forall i | 0 <= i < |p[1..]| ensures p[1..][i] != '{' && p[1..][i] != '}' {
          assert p[1..][i] == p[i + 1];
        }
      }
      BraceFreePrefix(p[1..], q, args);
      PrefixPrefix([p[0]], p[1..], Substitute(q, args));
      assert [p[0]] + p[1..] == p;
    }
  }

  /** A template without braces is returned as it is, whatever the arguments. */
  lemma BraceFreeUnchanged(t: string, args: map<string, string>)
    requires BraceFree(t)
    ensures Substitute(t, args) == Done(t)
  {
    BraceFreePrefix(t, "", args);
    assert t + "" == t;
  }

  /** One named field: its argument replaces it, or, without one, the KeyError is raised. */
  lemma FieldStep(name: string, q: string, args: map<string, string>)
    requires Named(name) && BraceFree(name)
    ensures Substitute("{" + name + "}" + q, args)
         == if name in args then Prefix(args[name], Substitute(q, args)) else MissingKey(name)
  {
    var t := "{" + name + "}" + q;
    assert t[1..] == name + "}" + q;
    var n := FieldLength(t[1..]);
    assert n == |name| by {
      assert t[1..][|name|] == '}';
    }
    assert t[1..1 + n] == name;
    assert t[n + 2..] == q;
  }

  /** A field naming no argument makes format_text hand back the raw template. */
  lemma MissingArgumentKeepsTemplate(t: string, args: map<string, string>, p: string, name: string, q: string)
    requires t == p + "{" + name + "}" + q
    requires BraceFree(p) && Named(name) && BraceFree(name) && name !in args
    ensures FormatTemplate(t, args) == Some(t)
  {
    assert p + "{" + name + "}" + q == p + ("{" + name + "}" + q);
    BraceFreePrefix(p, "{" + name + "}" + q, args);
    FieldStep(name, q, args);
  }

  /** A template with one field between brace-free text is filled in place. */
  lemma OneFieldFilled(p: string, name: string, q: string, args: map<string, string>)
    requires BraceFree(p) && BraceFree(q) && Named(name) && BraceFree(name) && name in args
    ensures FormatTemplate(p + "{" + name + "}" + q, args) == Some(p + args[name] + q)
  {
    assert p + "{" + name + "}" + q == p + ("{" + name + "}" + q);
    BraceFreePrefix(p, "{" + name + "}" + q, args);
    FieldStep(name, q, args);
    BraceFreeUnchanged(q, args);
    PrefixPrefix(p, args[name], Done(q));
    assert (p + args[name]) + q == p + args[name] + q;
  }

  /** The replacement field `{name}`. */
  function Field(name: string): string {
    "{" + name + "}"
  }

  /** Brace-free text and a field with an argument: both go to the front of
      whatever the rest formats to. */
  lemma FieldThen(p: string, name: string, q: string, args: map<string, string>)
    requires BraceFree(p) && Named(name) && BraceFree(name) && name in args
    ensures Substitute(p + Field(name) + q, args) == Prefix(p + args[name], Substitute(q, args))
  {
    assert p + Field(name) + q == p + ("{" + name + "}" + q);
    BraceFreePrefix(p, "{" + name + "}" + q, args);
    FieldStep(name, q, args);
    PrefixPrefix(p, args[name], Substitute(q, args));
  }

  /** A field with an argument in front of text that formats completely. */
  lemma FieldThenDone(p: string, name: string, q: string, args: map<string, string>, r: string)
    requires BraceFree(p) && Named(name) && BraceFree(name) && name in args
    requires Substitute(q, args) == Done(r)
    ensures Substitute(p + Field(name) + q, args) == Done(p + args[name] + r)
  {
    FieldThen(p, name, q, args);
    assert (p + args[name]) + r == p + args[name] + r;
  }

  /** A template of four fields between brace-free texts, each field with an
      argument, formats to the texts with the arguments in the fields' places. */
  lemma FourFieldsFilled(p: seq<string>, n: seq<string>, args: map<string, string>)
    requires |p| == 5 && |n| == 4
    requires forall i :: 0 <= i < 5 ==> BraceFree(p[i])
    requires forall i :: 0 <= i < 4 ==> Named(n[i]) && BraceFree(n[i]) && n[i] in args
    ensures FormatTemplate(p[0] + Field(n[0]) + (p[1] + Field(n[1]) + (p[2] + Field(n[2]) + (p[3] + Field(n[3]) + p[4]))), args)
         == Some(p[0] + args[n[0]] + (p[1] + args[n[1]] + (p[2] + args[n[2]] + (p[3] + args[n[3]] + p[4]))))
  {
    var q3 := p[3] + Field(n[3]) + p[4];
    var q2 := p[2] + Field(n[2]) + q3;
    var q1 := p[1] + Field(n[1]) + q2;
    var r3 := p[3] + args[n[3]] + p[4];
    var r2 := p[2] + args[n[2]] + r3;
    var r1 := p[1] + args[n[1]] + r2;
    BraceFreeUnchanged(p[4], args);
    FieldThenDone(p[3], n[3], p[4], args, p[4]);
    FieldThenDone(p[2], n[2], q3, args, r3);
    FieldThenDone(p[1], n[1], q2, args, r2);
    FieldThenDone(p[0], n[0], q1, args, r1);
  }
}
