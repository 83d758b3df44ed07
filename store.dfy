/** The lead and user tables, kept in memory. Rows are kept in insertion order;
    a later row has a later creation time, so "ORDER BY created_at DESC" is
    the reverse of that order. The creation time itself is an input. */
module Store {
  import opened Wrappers
  import opened Strings

  datatype FileKind = Photo | Document | Video

  /** One attachment of a lead: {"type": ..., "file_id": ...}. */
  datatype FileRef = FileRef(kind: FileKind, fileId: string)

  /** A row of the leads table. The attachment list stands for the JSON text
      the column holds. */
  datatype Lead = Lead(
    id: nat,
    userId: int,
    fullName: string,
    phone: string,
    email: Option<string>,
    description: string,
    files: Option<seq<FileRef>>,
    createdAt: string)

  /** The ValueError save_lead raises, one per check, in the order they are made. */
  datatype SaveError = EmptyName | EmptyPhone | EmptyDescription | DescriptionTooShort

  /** The language codes the users table accepts. */
  predicate ValidLanguage(language: string) {
    language == "ru" || language == "me" || language == "en"
  }

  /** The first check save_lead fails, if any: name, phone and description must
      keep something once stripped, and the description at least ten characters. */
  function SaveCheck(fullName: string, phone: string, description: string): (r: Option<SaveError>)
    ensures r.None? <==> Strip(fullName) != "" && Strip(phone) != "" && |Strip(description)| >= 10
    ensures r == Some(EmptyName) <==> Strip(fullName) == ""
    ensures r == Some(DescriptionTooShort) ==> 0 < |Strip(description)| < 10
  {
    if Strip(fullName) == [] then Some(EmptyName)
    else if Strip(phone) == [] then Some(EmptyPhone)
    else if Strip(description) == [] then Some(EmptyDescription)
    else if |Strip(description)| < 10 then Some(DescriptionTooShort)
    else None
  }

  /** `email.strip() if email else None`: an absent or empty address is stored as
      NULL; any other is stored stripped, even when that leaves it empty. */
  function StoredEmail(email: Option<string>): (r: Option<string>)
    ensures r.None? <==> email.None? || email.value == ""
    ensures r.Some? ==> r.value == Strip(email.value)
  {
    if email.Some? && email.value != "" then Some(Strip(email.value)) else None
  }

  /** What save_lead guarantees of every row it writes: name, phone and
      description are stripped, the first two are not empty and the description
      has at least ten characters. */
  predicate RowOk(l: Lead) {
    && l.fullName != "" && Stripped(l.fullName)
    && l.phone != "" && Stripped(l.phone)
    && |l.description| >= 10 && Stripped(l.description)
  }

  /** A stored row passes save_lead's checks again, so contact data copied from
      it can be saved once more. */
  lemma StoredRowPassesCheck(l: Lead)
    requires RowOk(l)
    ensures SaveCheck(l.fullName, l.phone, l.description).None?
  {
    StripOfStripped(l.fullName);
    StripOfStripped(l.phone);
    StripOfStripped(l.description);
  }

  /** The ids of the rows strictly increase along the table. */
  ghost predicate IdsIncrease(ls: seq<Lead>) {
    forall i, j :: 0 <= i < j < |ls| ==> ls[i].id < ls[j].id
  }

  ghost predicate IdsDecrease(ls: seq<Lead>) {
    forall i, j :: 0 <= i < j < |ls| ==> ls[i].id > ls[j].id
  }

  /** The user's rows, newest first: WHERE tg_user_id = ? ORDER BY created_at DESC. */
  function UserLeads(ls: seq<Lead>, user: int): (r: seq<Lead>)
    ensures |r| <= |ls|
  {
    if ls == [] then []
    else
      var last := ls[|ls| - 1];
      (if last.userId == user then [last] else []) + UserLeads(ls[..|ls| - 1], user)
  }

  /** The listing holds exactly the user's rows. */
  lemma {:induction false} UserLeadsMembers(ls: seq<Lead>, user: int, x: Lead)
    ensures x in UserLeads(ls, user) <==> x in ls && x.userId == user
  {
    if ls != [] {
      var init := ls[..|ls| - 1];
      assert ls == init + [ls[|ls| - 1]];
      UserLeadsMembers(init, user, x);
    }
  }

  /** With ids increasing along the table, the listing's ids strictly decrease:
      it is newest first. */
  lemma {:induction false} UserLeadsNewestFirst(ls: seq<Lead>, user: int)
    requires IdsIncrease(ls)
    ensures IdsDecrease(UserLeads(ls, user))
  {
    if ls != [] {
      var init := ls[..|ls| - 1];
      var last := ls[|ls| - 1];
      assert IdsIncrease(init);
      UserLeadsNewestFirst(init, user);
      var rest := UserLeads(init, user);
      forall x | x in rest ensures x.id < last.id {
        UserLeadsMembers(init, user, x);
        var k :| 0 <= k < |init| && init[k] == x;
        assert ls[k] == x;
      }
      var r := UserLeads(ls, user);
      if last.userId == user {
        assert r == [last] + rest;
        forall i, j | 0 <= i < j < |r| ensures r[i].id > r[j].id {
          assert r[j] == rest[j - 1];
          if i == 0 {
            assert rest[j - 1] in rest;
          } else {
            assert r[i] == rest[i - 1];
          }
        }
      } else {
        assert r == [] + rest;
      }
    }
  }

  /** The head of the listing is the user's row with the largest id. */
  lemma NewestIsFirst(ls: seq<Lead>, user: int)
    requires IdsIncrease(ls) && UserLeads(ls, user) != []
    ensures UserLeads(ls, user)[0] in ls && UserLeads(ls, user)[0].userId == user
    ensures forall x :: x in ls && x.userId == user ==> x.id <= UserLeads(ls, user)[0].id
  {
    var r := UserLeads(ls, user);
    UserLeadsNewestFirst(ls, user);
    UserLeadsMembers(ls, user, r[0]);
    forall x | x in ls && x.userId == user ensures x.id <= r[0].id {
      UserLeadsMembers(ls, user, x);
      var k :| 0 <= k < |r| && r[k] == x;
    }
  }

  /** get_last_lead_by_user on the table: the head of the user's listing. */
  function LastLead(ls: seq<Lead>, user: int): (r: Option<Lead>)
    ensures r.None? <==> forall x :: x in ls ==> x.userId != user
    ensures r.Some? ==> r.value in ls && r.value.userId == user
  {
    var mine := UserLeads(ls, user);
    if mine == [] then
      forall x | x in ls ensures x.userId != user { UserLeadsMembers(ls, user, x); }
      None
    else
      UserLeadsMembers(ls, user, mine[0]);
      Some(mine[0])
  }

  /** `get_user_language(user) or 'en'` on the users table. */
  function LanguageOr(languages: map<int, string>, user: int): string {
    if user in languages && languages[user] != "" then languages[user] else "en"
  }

  /** The table without the rows of the given id: DELETE FROM leads WHERE id = ?. */
  function Without(ls: seq<Lead>, id: nat): (r: seq<Lead>)
    ensures |r| <= |ls|
  {
    if ls == [] then []
    else (if ls[0].id == id then [] else [ls[0]]) + Without(ls[1..], id)
  }

  lemma {:induction false} WithoutMembers(ls: seq<Lead>, id: nat, x: Lead)
    ensures x in Without(ls, id) <==> x in ls && x.id != id
  {
    if ls != [] {
      assert ls == [ls[0]] + ls[1..];
      WithoutMembers(ls[1..], id, x);
    }
  }

  /** Deleting rows keeps the order of the others. */
  lemma {:induction false} WithoutKeepsOrder(ls: seq<Lead>, id: nat)
    requires IdsIncrease(ls)
    ensures IdsIncrease(Without(ls, id))
  {
    if ls != [] {
      var rest := Without(ls[1..], id);
      assert IdsIncrease(ls[1..]);
      WithoutKeepsOrder(ls[1..], id);
      forall x | x in rest ensures ls[0].id < x.id {
        WithoutMembers(ls[1..], id, x);
        var k :| 0 <= k < |ls[1..]| && ls[1..][k] == x;
        assert ls[k + 1] == x;
      }
      var r := Without(ls, id);
      if ls[0].id != id {
        forall i, j | 0 <= i < j < |r| ensures r[i].id < r[j].id {
          if i == 0 {
            assert r[j] == rest[j - 1] && rest[j - 1] in rest;
          } else {
            assert r[i] == rest[i - 1] && r[j] == rest[j - 1];
          }
        }
      }
    }
  }

  /** When ids are unique, deleting by id removes exactly the row at its index. */
  lemma {:induction false} WithoutOneRow(ls: seq<Lead>, k: nat)
    requires IdsIncrease(ls) && k < |ls|
    ensures Without(ls, ls[k].id) == ls[..k] + ls[k + 1..]
  {
    var id := ls[k].id;
    if k == 0 {
      WithoutNone(ls[1..], id);
      assert ls[..0] + ls[1..] == ls[1..];
    } else {
      assert IdsIncrease(ls[1..]) && ls[1..][k - 1] == ls[k];
      WithoutOneRow(ls[1..], k - 1);
      assert ls[0].id < id;
      assert ls[1..][..k - 1] + ls[1..][k..] == ls[1..k] + ls[k + 1..];
      assert [ls[0]] + (ls[1..k] + ls[k + 1..]) == ls[..k] + ls[k + 1..];
    }
  }

  lemma {:induction false} WithoutNone(ls: seq<Lead>, id: nat)
    requires forall i :: 0 <= i < |ls| ==> ls[i].id > id
    ensures Without(ls, id) == ls
  {
    if ls != [] {
      WithoutNone(ls[1..], id);
      assert [ls[0]] + ls[1..] == ls;
    }
  }

  class LeadStore {
    /** The leads table, oldest row first. */
    var leads: seq<Lead>
    /** The users table: each user's language. INSERT OR REPLACE keeps one row per user. */
    var languages: map<int, string>
    /** The AUTOINCREMENT counter: the id the next saved lead gets. */
    var nextId: nat

    ghost predicate Valid()
      reads this
    {
      && nextId >= 1
      && IdsIncrease(leads)
      && (forall i :: 0 <= i < |leads| ==> 1 <= leads[i].id < nextId)
      && (forall i :: 0 <= i < |leads| ==> RowOk(leads[i]))
      && (forall u :: u in languages ==> ValidLanguage(languages[u]))
    }

    /** init_db on an empty database. */
    constructor ()
      ensures Valid()
      ensures leads == [] && languages == map[] && nextId == 1
    {
      leads := [];
      languages := map[];
      nextId := 1;
    }

    /** get_user_language: the stored code, None for a user without a row. */
    method GetUserLanguage(user: int) returns (r: Option<string>)
      requires Valid()
      ensures r.None? <==> user !in languages
      ensures r.Some? ==> r.value == languages[user] && ValidLanguage(r.value)
    {
      if user in languages {
        r := Some(languages[user]);
      } else {
        r := None;
      }
    }

    /** save_user_language: a code outside ru, me, en is refused with nothing
        written; otherwise the user's row is replaced, so the latest choice wins. */
    method SaveUserLanguage(user: int, language: string) returns (ok: bool)
      requires Valid()
      modifies this
      ensures Valid()
      ensures ok <==> ValidLanguage(language)
      ensures ok ==> languages == old(languages)[user := language]
      ensures !ok ==> languages == old(languages)
      ensures leads == old(leads) && nextId == old(nextId)
    {
      if !ValidLanguage(language) {
        return false;
      }
      languages := languages[user := language];
      ok := true;
    }

    /** save_lead: refuses the row with the first check it fails and inserts
        nothing; otherwise appends the row, with the name, phone and description
        stripped, under the next AUTOINCREMENT id, and returns that id. */
    method SaveLead(user: int, fullName: string, phone: string, description: string,
                    email: Option<string>, files: Option<seq<FileRef>>, now: string)
      returns (r: Result<nat, SaveError>)
      requires Valid()
      modifies this
      ensures Valid()
      ensures r.Err? <==> SaveCheck(fullName, phone, description).Some?
      ensures r.Err? ==> r.error == SaveCheck(fullName, phone, description).value
      ensures r.Err? ==> leads == old(leads) && nextId == old(nextId)
      ensures r.Ok? ==> r.value == old(nextId) && nextId == old(nextId) + 1
      ensures r.Ok? ==> leads == old(leads) + [Lead(r.value, user, Strip(fullName), Strip(phone),
                                                     StoredEmail(email), Strip(description), files, now)]
      ensures r.Ok? ==> forall i :: 0 <= i < |old(leads)| ==> old(leads)[i].id < r.value
      ensures languages == old(languages)
    {
      var check := SaveCheck(fullName, phone, description);
      if check.Some? {
        return Err(check.value);
      }
      var id := nextId;
      leads := leads + [Lead(id, user, Strip(fullName), Strip(phone), StoredEmail(email), Strip(description), files, now)];
      nextId := nextId + 1;
      r := Ok(id);
    }

    /** get_user_leads: the user's rows, newest first. */
    method GetUserLeads(user: int) returns (r: seq<Lead>)
      requires Valid()
      ensures r == UserLeads(leads, user)
      ensures forall x :: x in r <==> x in leads && x.userId == user
      ensures IdsDecrease(r)
    {
      r := [];
      var i := 0;
      while i < |leads|
        invariant 0 <= i <= |leads|
        invariant r == UserLeads(leads[..i], user)
      {
        assert leads[..i + 1][..i] == leads[..i];
        if leads[i].userId == user {
          r := [leads[i]] + r;
        }
        i := i + 1;
      }
      assert leads[..i] == leads;
      forall x ensures x in r <==> x in leads && x.userId == user {
        UserLeadsMembers(leads, user, x);
      }
      UserLeadsNewestFirst(leads, user);
    }

    /** get_last_lead_by_user: the user's newest row, the head of get_user_leads,
        found by scanning from the newest row back. */
    method GetLastLeadByUser(user: int) returns (r: Option<Lead>)
      requires Valid()
      ensures r.None? <==> UserLeads(leads, user) == []
      ensures r.Some? ==> r.value == UserLeads(leads, user)[0]
      ensures r.Some? ==> r.value in leads && r.value.userId == user
      ensures r.Some? ==> forall x :: x in leads && x.userId == user ==> x.id <= r.value.id
    {
      var i := |leads|;
      assert leads[..i] == leads;
      while i > 0
        invariant 0 <= i <= |leads|
        invariant UserLeads(leads, user) == UserLeads(leads[..i], user)
      {
        assert leads[..i][..i - 1] == leads[..i - 1];
        if leads[i - 1].userId == user {
          r := Some(leads[i - 1]);
          NewestIsFirst(leads, user);
          return;
        }
        i := i - 1;
      }
      r := None;
    }

    /** get_lead_by_id: the row with that id, None when there is none. */
    method GetLeadById(id: nat) returns (r: Option<Lead>)
      requires Valid()
      ensures r.None? <==> forall i :: 0 <= i < |leads| ==> leads[i].id != id
      ensures r.Some? ==> r.value in leads && r.value.id == id
    {
      var i := 0;
      while i < |leads|
        invariant 0 <= i <= |leads|
        invariant forall k :: 0 <= k < i ==> leads[k].id != id
      {
        if leads[i].id == id {
          return Some(leads[i]);
        }
        i := i + 1;
      }
      r := None;
    }

    /** get_all_leads: every row, newest first. */
    method GetAllLeads() returns (r: seq<Lead>)
      requires Valid()
      ensures |r| == |leads|
      ensures forall i :: 0 <= i < |r| ==> r[i] == leads[|leads| - 1 - i]
    {
      r := [];
      var i := 0;
      while i < |leads|
        invariant 0 <= i <= |leads|
        invariant |r| == i
        invariant forall k :: 0 <= k < i ==> r[k] == leads[i - 1 - k]
      {
        r := [leads[i]] + r;
        i := i + 1;
      }
    }

    /** delete_lead: a row with that id owned by that user is removed and the
        result is true; otherwise the table is left as it is and the result is
        false. */
    method DeleteLead(id: nat, user: int) returns (deleted: bool)
      requires Valid()
      modifies this
      ensures Valid()
      ensures deleted <==> exists k :: 0 <= k < |old(leads)| && old(leads)[k].id == id && old(leads)[k].userId == user
      ensures !deleted ==> leads == old(leads)
      ensures deleted ==> leads == Without(old(leads), id)
      ensures languages == old(languages) && nextId == old(nextId)
    {
      var i := 0;
      while i < |leads|
        invariant 0 <= i <= |leads|
        invariant forall k :: 0 <= k < i ==> !(leads[k].id == id && leads[k].userId == user)
      {
        if leads[i].id == id && leads[i].userId == user {
          break;
        }
        i := i + 1;
      }
      if i == |leads| {
        return false;
      }
      WithoutKeepsOrder(leads, id);
      forall x | x in Without(leads, id) ensures 1 <= x.id < nextId && RowOk(x) {
        WithoutMembers(leads, id, x);
      }
      leads := Without(leads, id);
      deleted := true;
    }
  }

  /** An owned row that delete_lead removes is the only row that goes. */
  lemma DeleteRemovesExactlyThatRow(ls: seq<Lead>, k: nat)
    requires IdsIncrease(ls) && k < |ls|
    ensures Without(ls, ls[k].id) == ls[..k] + ls[k + 1..]
    ensures |Without(ls, ls[k].id)| == |ls| - 1
  {
    WithoutOneRow(ls, k);
  }
}
