/** The "my requests" menu: the listing of a user's leads and the flow that
    cancels one of them. */
module MyLeads {
  import opened Wrappers
  import opened Strings
  import Decimal
  import Locales
  import Store
  import Keyboards
  import opened Fsm

  /** The description cuts of the listing and of the cancel confirmation. */
  const ListCut := 50
  const ConfirmCut := 100

  /** created_at.split('T')[0]: the date part of an ISO timestamp. */
  function DateOf(createdAt: string): (r: string)
    ensures StartsWith(createdAt, r)
    ensures 'T' !in r
    ensures |r| < |createdAt| ==> createdAt[|r|] == 'T'
  {
    SplitOnHead(createdAt, 'T');
    SplitOn(createdAt, 'T')[0]
  }

  /** The date shown is everything before the first 'T', and the whole text
      when it has none. */
  lemma DateOfTimestamp(date: string, time: string)
    requires 'T' !in date
    ensures DateOf(date + "T" + time) == date
    ensures DateOf(date) == date
  {
    SplitOnFirst(date, 'T', time);
    SplitOnNoSeparator(date, 'T');
  }

  /** One lead's block in the listing. */
  function ListingEntry(lead: Store.Lead): string {
    "📋 <b>Заявка #" + Decimal.NatToString(lead.id) + "</b>\n"
      + "📝 " + Truncate(lead.description, ListCut) + "\n"
      + "📅 " + DateOf(lead.createdAt) + "\n"
      + "───────────────\n\n"
  }

  /** The blocks of the leads, in the order given. */
  function Listing(leads: seq<Store.Lead>): string {
    Concat(leads, ListingEntry)
  }

  /** The listing of two runs of leads is the listing of the first followed by
      that of the second. */
  lemma ListingAppend(a: seq<Store.Lead>, b: seq<Store.Lead>)
    ensures Listing(a + b) == Listing(a) + Listing(b)
  {
    ConcatAppend(a, b, ListingEntry);
  }

  /** A single lead's block shows its id, its description cut at 50 characters
      and its date. */
  lemma ListingOfOne(lead: Store.Lead)
    ensures Listing([lead]) == ListingEntry(lead)
    ensures |lead.description| > ListCut ==> Truncate(lead.description, ListCut) == lead.description[..ListCut] + "..."
  {
    ConcatStep([lead], 0, ListingEntry);
    assert [lead][..1] == [lead] && [lead][..0] == [];
  }

  /** cmd_my_leads: the "no leads" text, or the listing newest first. */
  method ShowLeads(db: Store.LeadStore, user: int) returns (text: string)
    requires db.Valid()
    ensures var lang := Store.LanguageOr(db.languages, user);
            var mine := Store.UserLeads(db.leads, user);
            text == if mine == [] then Locales.GetText("no_leads", lang)
                    else Locales.GetText("my_leads", lang) + Listing(mine)
  {
    var stored := db.GetUserLanguage(user);
    var lang := if stored.Some? && stored.value != "" then stored.value else "en";
    var leads := db.GetUserLeads(user);
    if leads == [] {
      return Locales.GetText("no_leads", lang);
    }
    text := ConcatOnto(Locales.GetText("my_leads", lang), leads, ListingEntry);
  }

  /** btn_cancel_lead: no keyboard when the user has no leads, otherwise the
      leads keyboard over the listing. The session is not touched. */
  method CancelLeadMenu(db: Store.LeadStore, user: int) returns (buttons: Option<seq<Keyboards.Button>>)
    requires db.Valid()
    ensures buttons.None? <==> Store.UserLeads(db.leads, user) == []
    ensures buttons.Some? ==> buttons.value == Keyboards.LeadsListButtons(Store.UserLeads(db.leads, user),
                                                                          Store.LanguageOr(db.languages, user))
  {
    var stored := db.GetUserLanguage(user);
    var lang := if stored.Some? && stored.value != "" then stored.value else "en";
    var leads := db.GetUserLeads(user);
    if leads == [] {
      return None;
    }
    var list := Keyboards.LeadsListKeyboard(leads, lang);
    buttons := Some(list);
  }

  // ---------------------------------------------------------------- cancelling a lead

  /** next((l for l in leads if l['id'] == lead_id), None). */
  function FirstWithId(leads: seq<Store.Lead>, id: int): (r: Option<Store.Lead>)
    ensures r.None? <==> forall k :: 0 <= k < |leads| ==> leads[k].id != id
    ensures r.Some? ==> r.value in leads && r.value.id == id
  {
    if leads == [] then None
    else if leads[0].id == id then Some(leads[0])
    else
      var r := FirstWithId(leads[1..], id);
      assert forall k :: 1 <= k < |leads| ==> leads[k] == leads[1..][k - 1];
      r
  }

  /** Only one of the user's own leads can be selected. */
  lemma SelectionIsOwned(ls: seq<Store.Lead>, user: int, id: int)
    ensures var r := FirstWithId(Store.UserLeads(ls, user), id);
            r.Some? ==> r.value in ls && r.value.userId == user && r.value.id == id
    ensures (forall x :: x in ls && x.userId == user ==> x.id != id) ==> FirstWithId(Store.UserLeads(ls, user), id).None?
  {
    var mine := Store.UserLeads(ls, user);
    var r := FirstWithId(mine, id);
    if r.Some? {
      Store.UserLeadsMembers(ls, user, r.value);
    }
    forall k | 0 <= k < |mine| ensures mine[k] in ls && mine[k].userId == user {
      Store.UserLeadsMembers(ls, user, mine[k]);
    }
  }

  /** process_lead_selection's effect: the selected id is recorded in the draft. */
  function SelectStep(v: Snapshot, lead: Option<Store.Lead>): Snapshot {
    if lead.None? then v else Snapshot(v.state, v.data.(cancelLeadId := Some(lead.value.id)))
  }

  /** The keyword arguments of the cancel confirmation. */
  function ConfirmArgs(lead: Store.Lead): map<string, string> {
    map["lead_id" := Decimal.NatToString(lead.id),
        "description" := Truncate(lead.description, ConfirmCut),
        "created_at" := DateOf(lead.createdAt)]
  }

  /** process_lead_selection. `raised` is the ValueError of int() on a value that
      is not an integer; `confirm` is the confirmation text, None when the lead is
      not one of the user's (or the template cannot be formatted). */
  method SelectLead(s: Session, db: Store.LeadStore, user: int, data: string)
    returns (raised: bool, confirm: Option<string>)
    requires StartsWith(data, "select_lead:") && db.Valid()
    modifies s
    ensures Keyboards.CallbackValue(data).Some?
    ensures raised <==> Decimal.ParseInt(Keyboards.CallbackValue(data).value).None?
    ensures raised ==> s.Value() == old(s.Value()) && confirm.None?
    ensures !raised ==>
              var lead := FirstWithId(Store.UserLeads(db.leads, user), Decimal.ParseInt(Keyboards.CallbackValue(data).value).value);
              && s.Value() == SelectStep(old(s.Value()), lead)
              && (lead.None? ==> confirm.None?)
              && (lead.Some? ==> confirm == Locales.FormatText("confirm_cancel_lead", Store.LanguageOr(db.languages, user),
                                                                    ConfirmArgs(lead.value)))
  {
    assert data[11] == ':';
    var stored := db.GetUserLanguage(user);
    var lang := if stored.Some? && stored.value != "" then stored.value else "en";
    var parsed := Decimal.ParseInt(Keyboards.CallbackValue(data).value);
    if parsed.None? {
      return true, None;
    }
    var id := parsed.value;
    var leads := db.GetUserLeads(user);
    var lead := FirstWithId(leads, id);
    raised := false;
    if lead.None? {
      return false, None;
    }
    var text := Locales.FormatText("confirm_cancel_lead", lang, ConfirmArgs(lead.value));
    s.UpdateData(s.data.(cancelLeadId := Some(lead.value.id)));
    confirm := text;
  }

  /** `not lead_id`: the id is absent, or zero. */
  predicate HasCancelId(d: Draft) {
    d.cancelLeadId.Some? && d.cancelLeadId.value != 0
  }

  /** cancel_lead:confirm's effect on the session: with an id to cancel the
      session ends, whatever the delete returns. */
  function CancelConfirmStep(v: Snapshot): Snapshot {
    if HasCancelId(v.data) then Idle else v
  }

  /** confirm_cancel_lead (my_leads): `deleted` is None when there was no id to
      cancel, and otherwise whether the ownership-checked delete removed a row. */
  method CancelConfirm(s: Session, db: Store.LeadStore, user: int) returns (deleted: Option<bool>)
    requires db.Valid()
    modifies s, db
    ensures db.Valid()
    ensures s.Value() == CancelConfirmStep(old(s.Value()))
    ensures deleted.None? <==> !HasCancelId(old(s.data))
    ensures db.languages == old(db.languages) && db.nextId == old(db.nextId)
    ensures deleted != Some(true) ==> db.leads == old(db.leads)
    ensures deleted.Some? ==> var id := old(s.data).cancelLeadId.value;
              (deleted.value <==> exists k :: 0 <= k < |old(db.leads)| && old(db.leads)[k].id == id
                                                 && old(db.leads)[k].userId == user)
    ensures deleted == Some(true) ==> db.leads == Store.Without(old(db.leads), old(s.data).cancelLeadId.value as nat)
  {
    var id := s.data.cancelLeadId;
    if id.None? || id.value == 0 {
      return None;
    }
    var ok := false;
    if id.value > 0 {
      ok := db.DeleteLead(id.value as nat, user);
    }
    s.Clear();
    deleted := Some(ok);
  }

  /** cancel_lead:back's effect: the session ends only when the user still has leads. */
  function CancelBackStep(v: Snapshot, hasLeads: bool): Snapshot {
    if hasLeads then Idle else v
  }

  /** back_from_confirm: the leads keyboard again, or None when no lead is left. */
  method CancelBack(s: Session, db: Store.LeadStore, user: int) returns (buttons: Option<seq<Keyboards.Button>>)
    requires db.Valid()
    modifies s
    ensures buttons.None? <==> Store.UserLeads(db.leads, user) == []
    ensures s.Value() == CancelBackStep(old(s.Value()), Store.UserLeads(db.leads, user) != [])
  {
    var stored := db.GetUserLanguage(user);
    var lang := if stored.Some? && stored.value != "" then stored.value else "en";
    var leads := db.GetUserLeads(user);
    if leads == [] {
      return None;
    }
    var list := Keyboards.LeadsListKeyboard(leads, lang);
    s.Clear();
    buttons := Some(list);
  }
}
