/** The eight states of the lead form (the LeadForm states group). The absence
    of a state (Option None in a session) is the idle state. */
module States {
  import opened Wrappers

  datatype LeadState =
    | ConfirmData             // offer to reuse the previous lead's contact data
    | WaitingForName
    | WaitingForPhone
    | WaitingForEmail         // may be skipped
    | WaitingForDescription
    | WaitingForFiles         // may be skipped
    | Preview
    | Editing

  /** Every state, in declaration order. */
  const AllStates: seq<LeadState> :=
    [ConfirmData, WaitingForName, WaitingForPhone, WaitingForEmail,
     WaitingForDescription, WaitingForFiles, Preview, Editing]

  /** The name the state carries in the group ("LeadForm:<attribute>"). */
  function StateName(s: LeadState): string {
    match s
    case ConfirmData => "LeadForm:confirm_data"
    case WaitingForName => "LeadForm:waiting_for_name"
    case WaitingForPhone => "LeadForm:waiting_for_phone"
    case WaitingForEmail => "LeadForm:waiting_for_email"
    case WaitingForDescription => "LeadForm:waiting_for_description"
    case WaitingForFiles => "LeadForm:waiting_for_files"
    case Preview => "LeadForm:preview"
    case Editing => "LeadForm:editing"
  }

  /** The state a stored name stands for, the inverse of StateName. */
  function StateFromName(name: string): Option<LeadState> {
    match name
    case "LeadForm:confirm_data" => Some(ConfirmData)
    case "LeadForm:waiting_for_name" => Some(WaitingForName)
    case "LeadForm:waiting_for_phone" => Some(WaitingForPhone)
    case "LeadForm:waiting_for_email" => Some(WaitingForEmail)
    case "LeadForm:waiting_for_description" => Some(WaitingForDescription)
    case "LeadForm:waiting_for_files" => Some(WaitingForFiles)
    case "LeadForm:preview" => Some(Preview)
    case "LeadForm:editing" => Some(Editing)
    case _ => None
  }

  /** There are exactly eight states, all listed once, and their names tell them
      apart: the name of a state reads back as that state. */
  lemma ExactlyEightStates()
    ensures |AllStates| == 8
    ensures forall s: LeadState :: s in AllStates
    ensures forall i, j :: 0 <= i < j < |AllStates| ==> AllStates[i] != AllStates[j]
    ensures forall s: LeadState :: StateFromName(StateName(s)) == Some(s)
    ensures forall s, t: LeadState :: StateName(s) == StateName(t) ==> s == t
  {
    forall s: LeadState ensures StateFromName(StateName(s)) == Some(s) && s in AllStates {
      match s
      case ConfirmData => assert AllStates[0] == s;
      case WaitingForName => assert AllStates[1] == s;
      case WaitingForPhone => assert AllStates[2] == s;
      case WaitingForEmail => assert AllStates[3] == s;
      case WaitingForDescription => assert AllStates[4] == s;
      case WaitingForFiles => assert AllStates[5] == s;
      case Preview => assert AllStates[6] == s;
      case Editing => assert AllStates[7] == s;
    }
    forall s, t: LeadState | StateName(s) == StateName(t) ensures s == t {
      assert Some(s) == StateFromName(StateName(t)) == Some(t);
    }
  }

  /** The documented first-pass order: name, phone, email, description, files, preview. */
  const FirstPass: seq<LeadState> :=
    [WaitingForName, WaitingForPhone, WaitingForEmail, WaitingForDescription, WaitingForFiles, Preview]

  /** The state a successful step of the first pass moves to. */
  function NextInFirstPass(s: LeadState): (r: Option<LeadState>)
    ensures r.Some? <==> s in FirstPass && s != Preview
  {
    match s
    case WaitingForName => Some(WaitingForPhone)
    case WaitingForPhone => Some(WaitingForEmail)
    case WaitingForEmail => Some(WaitingForDescription)
    case WaitingForDescription => Some(WaitingForFiles)
    case WaitingForFiles => Some(Preview)
    case _ => None
  }

  /** Each step of the first pass leads to the one listed after it. */
  lemma FirstPassChain()
    ensures forall i :: 0 <= i < |FirstPass| - 1 ==> NextInFirstPass(FirstPass[i]) == Some(FirstPass[i + 1])
    ensures NextInFirstPass(FirstPass[|FirstPass| - 1]) == None
  {
  }

  /** The steps the documentation marks as optional. */
  predicate Skippable(s: LeadState) {
    s == WaitingForEmail || s == WaitingForFiles
  }

  /** confirm_data and editing are outside the linear first pass. */
  lemma SideStates()
    ensures ConfirmData !in FirstPass && Editing !in FirstPass
    ensures forall s :: s in AllStates ==> s in FirstPass || s == ConfirmData || s == Editing
  {
  }
}
