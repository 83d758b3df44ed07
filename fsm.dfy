/** The per-user session the dispatcher keeps: the current state of the lead
    form, or none, and the draft dictionary the handlers fill in. */
module Fsm {
  import opened Wrappers
  import opened Strings
  import opened States
  import Store

  /** The draft dictionary. A field is None while its key is absent; `email` and
      `oldEmail` can also hold Python's None, written Some(None). */
  datatype Draft = Draft(
    language: Option<string>,
    oldFullName: Option<string>,
    oldPhone: Option<string>,
    oldEmail: Option<Option<string>>,
    fullName: Option<string>,
    phone: Option<string>,
    email: Option<Option<string>>,
    description: Option<string>,
    files: Option<seq<Store.FileRef>>,
    editingField: Option<string>,
    cancelLeadId: Option<int>)

  const EmptyDraft := Draft(None, None, None, None, None, None, None, None, None, None, None)

  /** The value of a session at one moment. */
  datatype Snapshot = Snapshot(state: Option<LeadState>, data: Draft)

  /** The session after state.clear(). */
  const Idle := Snapshot(None, EmptyDraft)

  /** data.get('language', 'en'). */
  function Lang(d: Draft): string {
    if d.language.Some? then d.language.value else "en"
  }

  /** data.get('files', []). */
  function FilesOf(d: Draft): seq<Store.FileRef> {
    if d.files.Some? then d.files.value else []
  }

  /** data.get('email'): None when the key is absent or holds None. */
  function EmailOf(d: Draft): Option<string> {
    if d.email.Some? then d.email.value else None
  }

  /** The draft holds only values a handler has accepted: contact fields that keep
      something once stripped, and a description of at least ten characters. */
  predicate FieldsOk(d: Draft) {
    && (d.fullName.Some? ==> Strip(d.fullName.value) != "")
    && (d.phone.Some? ==> Strip(d.phone.value) != "")
    && (d.description.Some? ==> |Strip(d.description.value)| >= 10)
    && (d.oldFullName.Some? ==> Strip(d.oldFullName.value) != "")
    && (d.oldPhone.Some? ==> Strip(d.oldPhone.value) != "")
  }

  /** The keys that the handlers of the current state read without a default
      are present. */
  predicate StateNeeds(v: Snapshot) {
    var d := v.data;
    match v.state
    case None => true
    case Some(WaitingForName) => true
    case Some(ConfirmData) => d.oldFullName.Some? && d.oldPhone.Some? && d.oldEmail.Some?
    case Some(WaitingForPhone) => d.fullName.Some?
    case Some(WaitingForEmail) => d.fullName.Some? && d.phone.Some?
    case Some(WaitingForDescription) => d.fullName.Some? && d.phone.Some?
    case Some(WaitingForFiles) => d.fullName.Some? && d.phone.Some? && d.description.Some? && d.files.Some?
    case Some(Preview) => d.fullName.Some? && d.phone.Some? && d.description.Some?
    case Some(Editing) => d.fullName.Some? && d.phone.Some? && d.description.Some?
  }

  /** The invariant of a well-formed session. */
  predicate FormInvariant(v: Snapshot) {
    FieldsOk(v.data) && StateNeeds(v)
  }

  /** What a message carries besides text. A photo comes as its sizes, smallest first. */
  datatype Media = PhotoSizes(sizes: seq<string>) | DocumentFile(fileId: string) | VideoFile(fileId: string) | OtherMedia

  class Session {
    var state: Option<LeadState>
    var data: Draft

    constructor ()
      ensures state == None && data == EmptyDraft
    {
      state := None;
      data := EmptyDraft;
    }

    function Value(): Snapshot
      reads this
    {
      Snapshot(state, data)
    }

    /** state.clear(): no state and an empty draft. */
    method Clear()
      modifies this
      ensures Value() == Idle
    {
      state := None;
      data := EmptyDraft;
    }

    /** state.set_state(s): the draft is kept. */
    method SetState(s: LeadState)
      modifies this
      ensures state == Some(s) && data == old(data)
    {
      state := Some(s);
    }

    /** state.update_data(...): the caller passes the merged draft; the state is kept. */
    method UpdateData(d: Draft)
      modifies this
      ensures data == d && state == old(state)
    {
      data := d;
    }
  }
}
