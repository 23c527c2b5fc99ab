/** The conversation states of the bot and what a handler can ask the conversation to do next. */
module Config {
  import opened Wrappers

  /** The nine conversation states, in the order in which they are numbered `0..8`. */
  datatype State =
    | MainMenu
    | UniversityMenu
    | FindPsychologist
    | PracticesMenu
    | PracticeCategory
    | PracticeDetail
    | ContactsMenu
    | ReportIssue
    | PartnersMenu

  /** The integer each state stands for (`range(9)`). */
  function Code(s: State): (n: nat)
    ensures n < 9
  {
    match s
    case MainMenu => 0
    case UniversityMenu => 1
    case FindPsychologist => 2
    case PracticesMenu => 3
    case PracticeCategory => 4
    case PracticeDetail => 5
    case ContactsMenu => 6
    case ReportIssue => 7
    case PartnersMenu => 8
  }

  /** The state an integer stands for, if any. */
  function FromCode(n: int): Option<State> {
    if n == 0 then Some(MainMenu)
    else if n == 1 then Some(UniversityMenu)
    else if n == 2 then Some(FindPsychologist)
    else if n == 3 then Some(PracticesMenu)
    else if n == 4 then Some(PracticeCategory)
    else if n == 5 then Some(PracticeDetail)
    else if n == 6 then Some(ContactsMenu)
    else if n == 7 then Some(ReportIssue)
    else if n == 8 then Some(PartnersMenu)
    else None
  }

  /** The numbering is a bijection between the states and `0..8`. */
  lemma CodeBijection(s: State, n: int)
    ensures FromCode(Code(s)) == Some(s)
    ensures FromCode(n).Some? <==> 0 <= n < 9
    ensures FromCode(n).Some? ==> Code(FromCode(n).value) == n
  {
  }

  /**
   * What a handler returns to the conversation: a state to enter, `Stay`
   * (the handler returned `None`, so the conversation keeps its state), or
   * `End` (`ConversationHandler.END`).
   */
  datatype Next = To(state: State) | Stay | End
}
