/**
 * The handlers of the user conversation as functions: each takes the texts,
 * what the handler reads from outside (`Env`), the user's session and the
 * message, and gives the new session, what the conversation does next and
 * what the user is shown. The session class in module `Sessions` performs
 * the same steps in place and is proved to agree with these functions.
 */
module Navigation {
  import opened Wrappers
  import opened Strings
  import opened Config
  import opened Texts
  import opened Catalog
  import opened Render
  import PracticesView
  import UniversitiesView
  import PsychologistsView
  import PartnersView
  import ContactsView

  /**
   * The per-user session (`context.user_data`). A category of `""` is no
   * remembered category, and an empty snapshot is a snapshot never stored
   * (the handlers read both with a falsy default).
   */
  datatype SessionData = SessionData(
    navStack: seq<State>,
    currentCategory: string,
    currentPracticeId: Option<int>,
    practiceCategories: seq<string>,
    universities: seq<University>,
    audioMessageId: Option<int>)

  /** The session of a user the bot has not seen yet. */
  const EmptySession: SessionData := SessionData([], "", None, [], [], None)

  /**
   * What a handler reads from outside the session: the catalog, the user's
   * chat, the id Telegram gives to an audio message the handler sends, and
   * the bot's own username (`context.bot.username`), against which the
   * table's `/start` filter checks a command addressed to a bot.
   */
  datatype Env = Env(catalog: Catalog, chat: int, audioMessageId: int, botUsername: string)

  datatype Outcome = Outcome(session: SessionData, next: Next, out: seq<Out>)

  /** The back button, or the bare word the handlers also accept. */
  predicate IsBack(t: Texts, text: string) {
    text == t.common.backButton || text == "Назад"
  }

  predicate IsHome(t: Texts, text: string) {
    text == t.common.mainMenuButton
  }

  /** Puts `MainMenu` on top of the stack unless it is already there. */
  function PushMain(stack: seq<State>): (r: seq<State>)
    ensures |r| > 0 && r[|r| - 1] == MainMenu
    ensures r == stack || r == stack + [MainMenu]
    ensures r == stack <==> |stack| > 0 && stack[|stack| - 1] == MainMenu
  {
    if stack == [] || stack[|stack| - 1] != MainMenu then stack + [MainMenu] else stack
  }

  /** Entering a section twice pushes nothing the second time. */
  lemma PushMainIdempotent(stack: seq<State>)
    ensures PushMain(PushMain(stack)) == PushMain(stack)
  {
  }

  /** The outcome `o` with `out` shown before its own output. */
  function After(out: seq<Out>, o: Outcome): Outcome {
    o.(out := out + o.out)
  }

  /** `start`: registers the user, empties the stack and shows the greeting; any failure ends the conversation. */
  function Start(t: Texts, env: Env, s: SessionData, registered: bool): Outcome {
    if !registered then Outcome(s, End, [Reply(t.common.errorGeneric, NoKeyboard)])
    else
      var s1 := s.(navStack := []);
      match StartText(env.catalog)
      case None => Outcome(s1, End, [Reply(t.common.errorGeneric, NoKeyboard)])
      case Some(greeting) => Outcome(s1, To(MainMenu), [Reply(greeting, StartMenu)])
  }

  /** `return_to_main_menu` */
  function ReturnToMainMenu(t: Texts, s: SessionData): Outcome {
    Outcome(s.(navStack := []), To(MainMenu), [Reply(t.common.goToMainMenu, StartMenu)])
  }

  /** `fallback_handler` */
  function Fallback(t: Texts, s: SessionData): Outcome {
    Outcome(s, To(MainMenu), [Reply(t.common.fallback, StartMenu)])
  }

  /** `handle_university_info`: reads the universities first, then makes sure `MainMenu` is on top of the stack. */
  function HandleUniversityInfo(t: Texts, env: Env, s: SessionData): Outcome {
    match Universities(env.catalog)
    case None => Outcome(s, To(UniversityMenu), [Reply(t.common.errorGeneric, BackMenu)])
    case Some(us) =>
      var s1 := s.(navStack := PushMain(s.navStack));
      if us == [] then Outcome(s1, To(UniversityMenu), [Reply(t.universities.noInfo, BackMenu)])
      else Outcome(s1.(universities := us), To(UniversityMenu),
                   [Reply(t.universities.selectPrompt, ReplyKeys(UniversitiesView.UniversityKeyboard(t, us)))])
  }

  /** `university_menu_handler`: back, home, or the page of the university the label names. */
  function UniversityMenuHandler(t: Texts, env: Env, s: SessionData, text: string): Outcome {
    if IsBack(t, text) then GoBack(t, env, s, text)
    else if IsHome(t, text) then ReturnToMainMenu(t, s)
    else if t.universities.universitySuffix == "" then
      // `text.split("")` raises ValueError
      Outcome(s, To(UniversityMenu), [Reply(t.common.errorGeneric, BackMenu)])
    else
      var name := SplitHead(text, t.universities.universitySuffix);
      match UniversitiesView.FindUniversity(s.universities, name)
      case None => Outcome(s, To(UniversityMenu), [Reply(t.universities.notFound, BackMenu)])
      case Some(u) =>
        match UniversityEvents(env.catalog, u.id)
        case None => Outcome(s, To(UniversityMenu), [Reply(t.common.errorGeneric, BackMenu)])
        case Some(es) => Outcome(s, To(UniversityMenu), [Reply(UniversitiesView.UniversityText(t, u, es), BackMenu)])
  }

  /** `handle_practices`: makes sure `MainMenu` is on top of the stack, then shows the categories. */
  function HandlePractices(t: Texts, env: Env, s: SessionData): Outcome {
    var s1 := s.(navStack := PushMain(s.navStack));
    match PracticeCategories(env.catalog)
    case None => Outcome(s1, To(PracticesMenu), [Reply(t.common.errorGeneric, BackMenu)])
    case Some(cats) =>
      if cats == [] then Outcome(s1, To(PracticesMenu), [Reply(t.practices.noInfo, BackMenu)])
      else
        var keys := MenuKeyboard(cats, t.practices.categorySuffix, t.common.backButton, t.common.mainMenuButton);
        Outcome(s1.(practiceCategories := cats), To(PracticesMenu), [Reply(t.practices.selectCategory, ReplyKeys(keys))])
  }

  /**
   * `show_practice_category`: the listing of `category`, or of the
   * remembered category when `category` is empty.
   */
  function ShowPracticeCategory(t: Texts, env: Env, s: SessionData, category: string): Outcome {
    var name := if category != "" then category else s.currentCategory;
    if name == "" then Outcome(s, To(PracticeCategory), [Reply(t.common.unknownState, BackMenu)])
    else
      match PracticesByCategory(env.catalog, name)
      case None => Outcome(s, To(PracticeCategory), [Reply(t.common.errorGeneric, BackMenu)])
      case Some(ps) =>
        if ps == [] then Outcome(s, To(PracticeCategory), [Reply(Fill(t.practices.noPractices, name), BackMenu)])
        else
          Outcome(s.(currentCategory := name), To(PracticeCategory),
                  [Reply(PracticesView.CategoryListing(t, name, ps), InlineKeys(PracticesView.PracticeButtons(ps))),
                   Reply(t.common.navigationHint, BackMenu)])
  }

  /** `practices_menu_handler`: back, home, or the category the label names, if it is in the stored snapshot. */
  function PracticesMenuHandler(t: Texts, env: Env, s: SessionData, text: string): Outcome {
    if IsBack(t, text) then GoBack(t, env, s, text)
    else if IsHome(t, text) then ReturnToMainMenu(t, s)
    else if t.practices.categorySuffix == "" then
      // `text.split("")` raises ValueError
      Outcome(s, To(PracticesMenu), [Reply(t.common.errorGeneric, BackMenu)])
    else
      var name := SplitHead(text, t.practices.categorySuffix);
      if name !in s.practiceCategories then Outcome(s, To(PracticesMenu), [Reply(t.common.fallback, BackMenu)])
      else ShowPracticeCategory(t, env, s.(navStack := s.navStack + [PracticesMenu]), name)
  }

  /** The text of practice `p`, followed by its audio when it has one; the audio's message id is remembered. */
  function ShowPractice(t: Texts, env: Env, s: SessionData, p: Practice, shown: Out): Outcome {
    if p.audioUrl != "" then
      Outcome(s.(audioMessageId := Some(env.audioMessageId)), To(PracticeDetail), [shown, Audio(p.audioUrl)])
    else Outcome(s, To(PracticeDetail), [shown])
  }

  /** `show_practice_detail`: shows the remembered practice again. */
  function ShowPracticeDetail(t: Texts, env: Env, s: SessionData): Outcome {
    if s.currentPracticeId.None? || s.currentPracticeId == Some(0) then
      Outcome(s, To(PracticeCategory), [Reply(t.common.unknownState, BackMenu)])
    else
      match Practices(env.catalog)
      case None => Outcome(s, To(PracticeCategory), [Reply(t.common.errorGeneric, BackMenu)])
      case Some(ps) =>
        match PracticesView.FindPractice(ps, s.currentPracticeId.value)
        case None => Outcome(s, To(PracticeCategory), [Reply(t.practices.practiceNotFound, BackMenu)])
        case Some(p) => ShowPractice(t, env, s, p, Reply(PracticesView.DetailText(t, p), BackMenu))
  }

  /** `button_handler`: a press on a practice button of a listing. */
  function ButtonHandler(t: Texts, env: Env, s: SessionData, data: string): Outcome {
    if !StartsWith(data, PracticesView.CallbackPrefix) then Outcome(s, Stay, [])
    else
      match ParseInt(AfterLast(data, '_'))
      case None => Outcome(s, To(PracticeCategory), [Edit(t.practices.practiceError)])
      case Some(id) =>
        match Practices(env.catalog)
        case None => Outcome(s, To(PracticeCategory), [Reply(t.practices.practiceError, BackMenu)])
        case Some(ps) =>
          match PracticesView.FindPractice(ps, id)
          case None => Outcome(s, To(PracticeCategory), [Edit(t.practices.practiceNotFound)])
          case Some(p) =>
            var s1 := s.(navStack := s.navStack + [PracticeCategory], currentPracticeId := Some(id));
            ShowPractice(t, env, s1, p, Edit(PracticesView.DetailText(t, p)))
  }

  /** `practice_detail_handler` */
  function PracticeDetailHandler(t: Texts, env: Env, s: SessionData, text: string): Outcome {
    if IsBack(t, text) then GoBack(t, env, s, text)
    else if IsHome(t, text) then ReturnToMainMenu(t, s)
    else Outcome(s, To(PracticeDetail), [Reply(t.common.navigationHint, BackMenu)])
  }

  /** `handle_contacts`: reads the contacts first, then makes sure `MainMenu` is on top of the stack. */
  function HandleContacts(t: Texts, env: Env, s: SessionData): Outcome {
    match Contacts(env.catalog)
    case None => Outcome(s, To(ContactsMenu), [Reply(t.common.errorGeneric, BackMenu)])
    case Some(cs) =>
      var s1 := s.(navStack := PushMain(s.navStack));
      if cs == [] then Outcome(s1, To(ContactsMenu), [Reply(t.contacts.noInfo, BackMenu)])
      else Outcome(s1, To(ContactsMenu), [Reply(ContactsView.ContactsText(t, cs), BackMenu)])
  }

  /**
   * `go_back`: deletes the audio of the last practice shown, pops the stack
   * and re-enters the popped state's section.
   */
  function GoBack(t: Texts, env: Env, s: SessionData, text: string): Outcome
    decreases |s.navStack|, 0
  {
    var deleted := if s.audioMessageId.Some? then [Delete(s.audioMessageId.value)] else [];
    var s1 := s.(audioMessageId := None);
    if s1.navStack == [] then
      match StartText(env.catalog)
      case Some(greeting) => Outcome(s1, To(MainMenu), deleted + [Reply(greeting, StartMenu)])
      case None => Outcome(s1, To(MainMenu), deleted + [Reply(t.common.errorGeneric, StartMenu)])
    else
      var prev := s1.navStack[|s1.navStack| - 1];
      var s2 := s1.(navStack := s1.navStack[..|s1.navStack| - 1]);
      match prev
      case MainMenu => Outcome(s2, To(MainMenu), deleted + [Reply(t.common.goToMainMenu, StartMenu)])
      case UniversityMenu => After(deleted, HandleUniversityInfo(t, env, s2))
      case PracticesMenu => After(deleted, HandlePractices(t, env, s2))
      case PracticeCategory =>
        if s2.currentCategory != "" then After(deleted, ShowPracticeCategory(t, env, s2, s2.currentCategory))
        else After(deleted, HandlePractices(t, env, s2))
      case FindPsychologist => After(deleted, HandleFindPsychologist(t, env, s2, text))
      case PracticeDetail => After(deleted, ShowPracticeDetail(t, env, s2))
      case ContactsMenu => After(deleted, HandleContacts(t, env, s2))
      case PartnersMenu => After(deleted, HandlePartners(t, env, s2, text))
      case ReportIssue => Outcome(s2, To(MainMenu), deleted + [Reply(t.common.unknownState, StartMenu)])
  }

  /**
   * `handle_find_psychologist`: back and home are handled before anything
   * else; otherwise `MainMenu` goes on top of the stack and the listing is
   * shown. Re-entered from `GoBack`, it sees the back text again.
   */
  function HandleFindPsychologist(t: Texts, env: Env, s: SessionData, text: string): Outcome
    decreases |s.navStack|, 1
  {
    if IsBack(t, text) then GoBack(t, env, s, text)
    else if IsHome(t, text) then ReturnToMainMenu(t, s)
    else
      var s1 := s.(navStack := PushMain(s.navStack));
      match Psychologists(env.catalog)
      case None => Outcome(s1, To(FindPsychologist), [Reply(t.common.errorGeneric, BackMenu)])
      case Some(ps) =>
        if ps == [] then Outcome(s1, To(FindPsychologist), [Reply(t.psychologists.noInfo, BackMenu)])
        else Outcome(s1, To(FindPsychologist), [Reply(PsychologistsView.PsychologistsText(t, ps), BackMenu)])
  }

  /** `handle_partners`, built like `HandleFindPsychologist`. */
  function HandlePartners(t: Texts, env: Env, s: SessionData, text: string): Outcome
    decreases |s.navStack|, 1
  {
    if IsBack(t, text) then GoBack(t, env, s, text)
    else if IsHome(t, text) then ReturnToMainMenu(t, s)
    else
      var s1 := s.(navStack := PushMain(s.navStack));
      match Partners(env.catalog)
      case None => Outcome(s1, To(PartnersMenu), [Reply(t.common.errorGeneric, BackMenu)])
      case Some(ps) =>
        if ps == [] then Outcome(s1, To(PartnersMenu), [Reply(t.partners.noInfo, BackMenu)])
        else Outcome(s1, To(PartnersMenu), [Reply(PartnersView.PartnersText(t, ps), BackMenu)])
  }

  /** `main_menu_handler`: empties the stack, then dispatches on the first word of the message. */
  function MainMenuHandler(t: Texts, env: Env, s: SessionData, text: string): Outcome {
    var word := SplitHead(text, " ");
    var s1 := s.(navStack := []);
    var entered := s1.(navStack := [MainMenu]);
    if word == "Узнать" then HandleUniversityInfo(t, env, entered)
    else if word == "Найти" then HandleFindPsychologist(t, env, entered, text)
    else if word == "Практики" then HandlePractices(t, env, entered)
    else if word == "Контакты" then HandleContacts(t, env, entered)
    else if word == "Наши" then HandlePartners(t, env, entered, text)
    else if word == "Сообщить" then Outcome(entered, To(ReportIssue), [Reply(t.report.prompt, BackMenu)])
    else Outcome(s1, To(MainMenu), [Reply(t.common.selectOption, StartMenu)])
  }

  /** The report forwarded to each admin, in the order of `admins`. */
  function AdminReports(admins: seq<int>, message: string): (r: seq<Out>)
    ensures |r| == |admins|
    ensures forall i :: 0 <= i < |admins| ==> r[i] == Send(admins[i], message, NoKeyboard)
  {
    if admins == [] then [] else AdminReports(admins[..|admins| - 1], message) + [Send(admins[|admins| - 1], message, NoKeyboard)]
  }

  /** `report_issue_handler`: back, home, or the text forwarded to every admin (`admins` is what `get_admin_ids` gave). */
  function ReportIssueHandler(t: Texts, env: Env, s: SessionData, text: string, admins: seq<int>): Outcome {
    if IsBack(t, text) then GoBack(t, env, s, text)
    else if IsHome(t, text) then ReturnToMainMenu(t, s)
    else if admins == [] then Outcome(s, To(ReportIssue), [Reply(t.report.sendError, BackMenu)])
    else
      var message := Fill2(t.report.adminMessage, IntToString(env.chat), text);
      Outcome(s, To(MainMenu), AdminReports(admins, message) + [Reply(t.report.thanks, StartMenu)])
  }
}
