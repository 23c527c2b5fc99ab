/**
 * What the navigation handlers promise: the main menu resets the stack, the
 * back button pops exactly one state, sections push `MainMenu` at most once,
 * reads that fail leave the stack alone, and the stack only ever holds the
 * three states the handlers push.
 */
module NavigationProps {
  import opened Wrappers
  import opened Strings
  import opened Config
  import opened Texts
  import opened Catalog
  import opened Render
  import opened Navigation
  import PracticesView

  // ---------------------------------------------------------------------
  // main_menu_handler, return_to_main_menu, start
  // ---------------------------------------------------------------------

  /** The main-menu words, the first word of each main-menu button. */
  predicate MenuWord(w: string) {
    w == "Узнать" || w == "Найти" || w == "Практики" || w == "Контакты" || w == "Наши" || w == "Сообщить"
  }

  /** An unrecognised first word re-prompts in the main menu with the stack emptied and nothing else changed. */
  lemma MainMenuUnknownWord(t: Texts, env: Env, s: SessionData, text: string)
    requires !MenuWord(SplitHead(text, " "))
    ensures MainMenuHandler(t, env, s, text)
         == Outcome(s.(navStack := []), To(MainMenu), [Reply(t.common.selectOption, StartMenu)])
  {
  }

  /** The section each main-menu word opens. */
  function MenuSection(w: string): State {
    if w == "Узнать" then UniversityMenu
    else if w == "Найти" then FindPsychologist
    else if w == "Практики" then PracticesMenu
    else if w == "Контакты" then ContactsMenu
    else if w == "Наши" then PartnersMenu
    else ReportIssue
  }

  /**
   * A recognised word runs its section's handler on the session with the
   * stack reset to `[MainMenu]`, whatever was there before; the user lands
   * in that section with exactly `[MainMenu]` on the stack, and "Сообщить"
   * waits for the report.
   */
  lemma MainMenuWordEntersSection(t: Texts, env: Env, s: SessionData, text: string)
    requires MenuWord(SplitHead(text, " "))
    requires !IsBack(t, text) && !IsHome(t, text)
    ensures var word := SplitHead(text, " ");
      var entered := s.(navStack := [MainMenu]);
      var o := MainMenuHandler(t, env, s, text);
      o.next == To(MenuSection(word)) && o.session.navStack == [MainMenu]
      && (word == "Узнать" ==> o == HandleUniversityInfo(t, env, entered))
      && (word == "Найти" ==> o == HandleFindPsychologist(t, env, entered, text))
      && (word == "Практики" ==> o == HandlePractices(t, env, entered))
      && (word == "Контакты" ==> o == HandleContacts(t, env, entered))
      && (word == "Наши" ==> o == HandlePartners(t, env, entered, text))
      && (word == "Сообщить" ==> o == Outcome(entered, To(ReportIssue), [Reply(t.report.prompt, BackMenu)]))
  {
    assert PushMain([MainMenu]) == [MainMenu];
  }

  /** `return_to_main_menu` forgets the whole history and keeps the rest of the session. */
  lemma ReturnToMainMenuResets(t: Texts, s: SessionData)
    ensures var o := ReturnToMainMenu(t, s);
      o.session == s.(navStack := []) && o.next == To(MainMenu)
  {
  }

  /** A registered user with a readable catalog starts in the main menu with an empty stack. */
  lemma StartResets(t: Texts, env: Env, s: SessionData, registered: bool)
    ensures var o := Start(t, env, s, registered);
      (registered && env.catalog.online <==> o.next == To(MainMenu))
      && (o.next == End || o.session.navStack == [])
      && (registered ==> o.session == s.(navStack := []))
  {
  }

  // ---------------------------------------------------------------------
  // go_back
  // ---------------------------------------------------------------------

  /** With nothing to go back to, the user lands in the main menu with the stack still empty. */
  lemma GoBackEmptyStack(t: Texts, env: Env, s: SessionData, text: string)
    requires s.navStack == []
    ensures var o := GoBack(t, env, s, text);
      o.next == To(MainMenu) && o.session.navStack == [] && o.session.audioMessageId == None
  {
  }

  /** Popping `MainMenu` shows the main menu with the rest of the stack. */
  lemma GoBackToMainMenu(t: Texts, env: Env, s: SessionData, text: string)
    requires s.navStack != [] && s.navStack[|s.navStack| - 1] == MainMenu
    ensures var o := GoBack(t, env, s, text);
      o.next == To(MainMenu) && o.session.navStack == s.navStack[..|s.navStack| - 1]
  {
  }

  /**
   * Popping `PracticeCategory` re-shows the remembered category, or the
   * category menu when none is remembered.
   */
  lemma GoBackToPracticeCategory(t: Texts, env: Env, s: SessionData, text: string)
    requires s.navStack != [] && s.navStack[|s.navStack| - 1] == PracticeCategory
    ensures var o := GoBack(t, env, s, text);
      var rest := s.(audioMessageId := None, navStack := s.navStack[..|s.navStack| - 1]);
      (s.currentCategory != "" ==> o.next == To(PracticeCategory)
                                   && o.session == ShowPracticeCategory(t, env, rest, s.currentCategory).session
                                   && o.out == (if s.audioMessageId.Some? then [Delete(s.audioMessageId.value)] else [])
                                               + ShowPracticeCategory(t, env, rest, s.currentCategory).out)
      && (s.currentCategory == "" ==> o.next == To(PracticesMenu)
                                      && o.session == HandlePractices(t, env, rest).session)
  {
    var rest := s.(audioMessageId := None, navStack := s.navStack[..|s.navStack| - 1]);
    if s.currentCategory != "" {
      var o := ShowPracticeCategory(t, env, rest, s.currentCategory);
      assert o.next == To(PracticeCategory);
    }
  }

  /** A state nothing pushes, such as `ReportIssue`, popped from the stack leads to the main menu. */
  lemma GoBackFromReportIssue(t: Texts, env: Env, s: SessionData, text: string)
    requires s.navStack != [] && s.navStack[|s.navStack| - 1] == ReportIssue
    ensures var o := GoBack(t, env, s, text);
      o.next == To(MainMenu) && o.session.navStack == s.navStack[..|s.navStack| - 1]
  {
  }

  /**
   * `go_back` deletes the audio message of the last practice shown before
   * anything else, and the old id is forgotten: afterwards the session holds
   * no id, or the id of an audio sent while going back.
   */
  lemma {:induction false} GoBackForgetsAudio(t: Texts, env: Env, s: SessionData, text: string)
    ensures var o := GoBack(t, env, s, text);
      (s.audioMessageId.Some? ==> |o.out| > 0 && o.out[0] == Delete(s.audioMessageId.value))
      && (o.session.audioMessageId == None || o.session.audioMessageId == Some(env.audioMessageId))
    decreases |s.navStack|, 0
  {
    var s1 := s.(audioMessageId := None);
    if s1.navStack != [] {
      var s2 := s1.(navStack := s1.navStack[..|s1.navStack| - 1]);
      match s1.navStack[|s1.navStack| - 1]
      case FindPsychologist => FindPsychologistKeepsNoAudio(t, env, s2, text);
      case PartnersMenu => PartnersKeepsNoAudio(t, env, s2, text);
      case _ =>
    }
  }

  lemma {:induction false} FindPsychologistKeepsNoAudio(t: Texts, env: Env, s: SessionData, text: string)
    requires s.audioMessageId == None
    ensures var o := HandleFindPsychologist(t, env, s, text);
      o.session.audioMessageId == None || o.session.audioMessageId == Some(env.audioMessageId)
    decreases |s.navStack|, 1
  {
    if IsBack(t, text) {
      GoBackForgetsAudio(t, env, s, text);
    }
  }

  lemma {:induction false} PartnersKeepsNoAudio(t: Texts, env: Env, s: SessionData, text: string)
    requires s.audioMessageId == None
    ensures var o := HandlePartners(t, env, s, text);
      o.session.audioMessageId == None || o.session.audioMessageId == Some(env.audioMessageId)
    decreases |s.navStack|, 1
  {
    if IsBack(t, text) {
      GoBackForgetsAudio(t, env, s, text);
    }
  }

  // ---------------------------------------------------------------------
  // The stack only holds what the handlers push
  // ---------------------------------------------------------------------

  /** The states a handler ever pushes: `MainMenu`, `PracticesMenu` and `PracticeCategory`. */
  predicate Pushed(x: State) {
    x == MainMenu || x == PracticesMenu || x == PracticeCategory
  }

  predicate StackOk(stack: seq<State>) {
    forall i :: 0 <= i < |stack| ==> Pushed(stack[i])
  }

  lemma StackOkPop(stack: seq<State>)
    requires StackOk(stack) && stack != []
    ensures StackOk(stack[..|stack| - 1]) && Pushed(stack[|stack| - 1])
  {
  }

  lemma StackOkPush(stack: seq<State>, x: State)
    requires StackOk(stack) && Pushed(x)
    ensures StackOk(stack + [x]) && StackOk(PushMain(stack))
  {
  }

  /**
   * On a stack the handlers built, going back pops `MainMenu`,
   * `PracticesMenu` or `PracticeCategory` and the stack stays one the
   * handlers could have built.
   */
  lemma {:induction false} GoBackKeepsStackOk(t: Texts, env: Env, s: SessionData, text: string)
    requires StackOk(s.navStack)
    ensures StackOk(GoBack(t, env, s, text).session.navStack)
    ensures s.navStack != [] ==>
      GoBack(t, env, s, text).next in {To(MainMenu), To(PracticesMenu), To(PracticeCategory)}
    decreases |s.navStack|, 0
  {
    var s1 := s.(audioMessageId := None);
    if s1.navStack != [] {
      StackOkPop(s.navStack);
      var s2 := s1.(navStack := s1.navStack[..|s1.navStack| - 1]);
      StackOkPush(s2.navStack, MainMenu);
      match s1.navStack[|s1.navStack| - 1]
      case MainMenu =>
      case PracticesMenu =>
      case PracticeCategory =>
    }
  }

  lemma {:induction false} FindPsychologistKeepsStackOk(t: Texts, env: Env, s: SessionData, text: string)
    requires StackOk(s.navStack)
    ensures StackOk(HandleFindPsychologist(t, env, s, text).session.navStack)
    decreases |s.navStack|, 1
  {
    StackOkPush(s.navStack, MainMenu);
    if IsBack(t, text) {
      GoBackKeepsStackOk(t, env, s, text);
    }
  }

  lemma {:induction false} PartnersKeepsStackOk(t: Texts, env: Env, s: SessionData, text: string)
    requires StackOk(s.navStack)
    ensures StackOk(HandlePartners(t, env, s, text).session.navStack)
    decreases |s.navStack|, 1
  {
    StackOkPush(s.navStack, MainMenu);
    if IsBack(t, text) {
      GoBackKeepsStackOk(t, env, s, text);
    }
  }

  lemma UniversityMenuKeepsStackOk(t: Texts, env: Env, s: SessionData, text: string)
    requires StackOk(s.navStack)
    ensures StackOk(UniversityMenuHandler(t, env, s, text).session.navStack)
  {
    if IsBack(t, text) {
      GoBackKeepsStackOk(t, env, s, text);
    }
  }

  lemma PracticesMenuKeepsStackOk(t: Texts, env: Env, s: SessionData, text: string)
    requires StackOk(s.navStack)
    ensures StackOk(PracticesMenuHandler(t, env, s, text).session.navStack)
  {
    StackOkPush(s.navStack, PracticesMenu);
    if IsBack(t, text) {
      GoBackKeepsStackOk(t, env, s, text);
    }
  }

  lemma ButtonKeepsStackOk(t: Texts, env: Env, s: SessionData, data: string)
    requires StackOk(s.navStack)
    ensures StackOk(ButtonHandler(t, env, s, data).session.navStack)
  {
    if StartsWith(data, PracticesView.CallbackPrefix) && env.catalog.online {
      match ParseInt(AfterLast(data, '_'))
      case None =>
      case Some(id) =>
        match PracticesView.FindPractice(env.catalog.practices, id)
        case None =>
        case Some(p) =>
          var s1 := s.(navStack := s.navStack + [PracticeCategory], currentPracticeId := Some(id));
          assert ButtonHandler(t, env, s, data)
              == ShowPractice(t, env, s1, p, Edit(PracticesView.DetailText(t, p)));
          StackOkPush(s.navStack, PracticeCategory);
    }
  }

  lemma PracticeDetailKeepsStackOk(t: Texts, env: Env, s: SessionData, text: string)
    requires StackOk(s.navStack)
    ensures StackOk(PracticeDetailHandler(t, env, s, text).session.navStack)
  {
    if IsBack(t, text) {
      GoBackKeepsStackOk(t, env, s, text);
    }
  }

  lemma ReportIssueKeepsStackOk(t: Texts, env: Env, s: SessionData, text: string, admins: seq<int>)
    requires StackOk(s.navStack)
    ensures StackOk(ReportIssueHandler(t, env, s, text, admins).session.navStack)
  {
    if IsBack(t, text) {
      GoBackKeepsStackOk(t, env, s, text);
    }
  }

  lemma MainMenuKeepsStackOk(t: Texts, env: Env, s: SessionData, text: string)
    ensures StackOk(MainMenuHandler(t, env, s, text).session.navStack)
  {
    var entered := s.(navStack := [MainMenu]);
    StackOkPush([], MainMenu);
    assert [] + [MainMenu] == [MainMenu];
    FindPsychologistKeepsStackOk(t, env, entered, text);
    PartnersKeepsStackOk(t, env, entered, text);
  }

  // ---------------------------------------------------------------------
  // Entering a section
  // ---------------------------------------------------------------------

  /**
   * `handle_practices` leaves `MainMenu` on top, pushing it only when it is
   * not there already, and stores the categories only when there are some.
   */
  lemma PracticesPushRule(t: Texts, env: Env, s: SessionData)
    ensures var o := HandlePractices(t, env, s);
      o.next == To(PracticesMenu) && o.session.navStack == PushMain(s.navStack)
      && (o.session.practiceCategories == s.practiceCategories || o.session.practiceCategories != [])
      && (env.catalog.online && env.catalog.practices == [] ==> o.session.practiceCategories == s.practiceCategories)
  {
  }

  /** Entering the practices section again does not grow the stack. */
  lemma PracticesReentry(t: Texts, env: Env, s: SessionData)
    ensures var o := HandlePractices(t, env, s);
      HandlePractices(t, env, o.session).session.navStack == o.session.navStack
  {
    PushMainIdempotent(s.navStack);
  }

  /**
   * `handle_university_info` reads first: a failed read leaves the stack
   * alone; otherwise `MainMenu` ends on top, and the snapshot is stored
   * exactly when the listing is not empty.
   */
  lemma UniversitiesPushRule(t: Texts, env: Env, s: SessionData)
    ensures var o := HandleUniversityInfo(t, env, s);
      o.next == To(UniversityMenu)
      && (!env.catalog.online ==> o.session == s)
      && (env.catalog.online ==> o.session.navStack == PushMain(s.navStack))
      && (env.catalog.online && env.catalog.universities != [] ==> o.session.universities == env.catalog.universities)
      && (env.catalog.online && env.catalog.universities == [] ==> o.session.universities == s.universities)
  {
  }

  /** `handle_contacts` reads first, so a failed read leaves the stack alone; it never leaves the contacts menu. */
  lemma ContactsPushRule(t: Texts, env: Env, s: SessionData)
    ensures var o := HandleContacts(t, env, s);
      o.next == To(ContactsMenu)
      && (!env.catalog.online ==> o.session == s)
      && (env.catalog.online ==> o.session == s.(navStack := PushMain(s.navStack)))
  {
  }

  /** Back and home are dispatched before the psychologists section touches anything; otherwise it pushes at most one `MainMenu`. */
  lemma FindPsychologistRule(t: Texts, env: Env, s: SessionData, text: string)
    ensures IsBack(t, text) ==> HandleFindPsychologist(t, env, s, text) == GoBack(t, env, s, text)
    ensures !IsBack(t, text) && IsHome(t, text) ==> HandleFindPsychologist(t, env, s, text) == ReturnToMainMenu(t, s)
    ensures !IsBack(t, text) && !IsHome(t, text) ==>
      var o := HandleFindPsychologist(t, env, s, text);
      o.next == To(FindPsychologist) && o.session == s.(navStack := PushMain(s.navStack))
  {
  }

  /** The partners section: back and home first, then at most one push, and every other path stays in the partners menu. */
  lemma PartnersRule(t: Texts, env: Env, s: SessionData, text: string)
    ensures IsBack(t, text) ==> HandlePartners(t, env, s, text) == GoBack(t, env, s, text)
    ensures !IsBack(t, text) && IsHome(t, text) ==> HandlePartners(t, env, s, text) == ReturnToMainMenu(t, s)
    ensures !IsBack(t, text) && !IsHome(t, text) ==>
      var o := HandlePartners(t, env, s, text);
      o.next == To(PartnersMenu) && o.session == s.(navStack := PushMain(s.navStack))
      && (env.catalog.online && env.catalog.partners == [] ==> o.out == [Reply(t.partners.noInfo, BackMenu)])
  {
  }

  // ---------------------------------------------------------------------
  // Choosing within a section
  // ---------------------------------------------------------------------

  /**
   * A label outside the stored snapshot re-prompts with the stack unchanged;
   * one inside it pushes `PracticesMenu` once and shows that category.
   */
  lemma PracticesMenuChoice(t: Texts, env: Env, s: SessionData, text: string)
    requires !IsBack(t, text) && !IsHome(t, text) && t.practices.categorySuffix != ""
    ensures var name := SplitHead(text, t.practices.categorySuffix);
      var o := PracticesMenuHandler(t, env, s, text);
      (name !in s.practiceCategories ==> o.next == To(PracticesMenu) && o.session == s)
      && (name in s.practiceCategories ==>
            o.next == To(PracticeCategory) && o.session.navStack == s.navStack + [PracticesMenu])
  {
  }

  /**
   * A chosen category with practices to show is listed and remembered; the
   * remembered category changes in no other case.
   */
  lemma CategoryRemembered(t: Texts, env: Env, s: SessionData, category: string)
    ensures var o := ShowPracticeCategory(t, env, s, category);
      o.next == To(PracticeCategory) && o.session.navStack == s.navStack
      && (o.session.currentCategory != s.currentCategory ==>
            category != "" && o.session.currentCategory == category
            && env.catalog.online && InCategory(env.catalog.practices, category) != [])
    ensures var o := ShowPracticeCategory(t, env, s, category);
      var ps := InCategory(env.catalog.practices, category);
      category != "" && env.catalog.online && ps != [] ==>
        o.session == s.(currentCategory := category)
        && o.out == [Reply(PracticesView.CategoryListing(t, category, ps), InlineKeys(PracticesView.PracticeButtons(ps))),
                     Reply(t.common.navigationHint, BackMenu)]
  {
  }

  /** Choosing a university never pushes and never leaves the university menu; a name not in the snapshot says so. */
  lemma UniversityChoice(t: Texts, env: Env, s: SessionData, text: string)
    requires !IsBack(t, text) && !IsHome(t, text) && t.universities.universitySuffix != ""
    ensures var o := UniversityMenuHandler(t, env, s, text);
      o.next == To(UniversityMenu) && o.session == s
      && ((forall u :: u in s.universities ==> u.name != SplitHead(text, t.universities.universitySuffix)) ==>
            o.out == [Reply(t.universities.notFound, BackMenu)])
  {
  }

  /**
   * A press on a practice button: callback data that does not name a
   * practice of the catalog leaves the stack alone and stays with the
   * listing; one that does pushes `PracticeCategory`, remembers the id and
   * shows the practice.
   */
  lemma ButtonOutcomes(t: Texts, env: Env, s: SessionData, data: string)
    requires StartsWith(data, PracticesView.CallbackPrefix)
    ensures var o := ButtonHandler(t, env, s, data);
      var id := ParseInt(AfterLast(data, '_'));
      (id.None? ==> o.session == s && o.next == To(PracticeCategory))
      && ((id.Some? && env.catalog.online && PracticesView.FindPractice(env.catalog.practices, id.value).None?) ==>
            o.session == s && o.next == To(PracticeCategory))
      && ((id.Some? && env.catalog.online && PracticesView.FindPractice(env.catalog.practices, id.value).Some?) ==>
            o.next == To(PracticeDetail) && o.session.navStack == s.navStack + [PracticeCategory]
            && o.session.currentPracticeId == id)
  {
  }

  /**
   * Pressing the button a listing shows for a practice with an id opens
   * that very practice (the first one of the catalog with that id).
   */
  lemma {:induction false} PressingListedButtonOpensPractice(t: Texts, env: Env, s: SessionData, index: nat, p: Practice)
    requires env.catalog.online && p in env.catalog.practices && p.id.Some?
    ensures var o := ButtonHandler(t, env, s, PracticesView.PracticeButton(index, p).callback);
      o.next == To(PracticeDetail) && o.session.currentPracticeId == p.id
      && o.session.navStack == s.navStack + [PracticeCategory]
      && o.session.currentCategory == s.currentCategory
      && o.out[0] == Edit(PracticesView.DetailText(t, PracticesView.FindPractice(env.catalog.practices, p.id.value).value))
  {
    var data := PracticesView.PracticeButton(index, p).callback;
    var id := p.id.value;
    PracticesView.ButtonCallbackRoundTrip(index, p);
    assert ParseInt(AfterLast(data, '_')) == Some(id);
    var ps := env.catalog.practices;
    var k :| 0 <= k < |ps| && ps[k] == p;
    assert ps[k].id == Some(id);
    var q := PracticesView.FindPractice(ps, id).value;
    var s1 := s.(navStack := s.navStack + [PracticeCategory], currentPracticeId := Some(id));
    assert ButtonHandler(t, env, s, data) == ShowPractice(t, env, s1, q, Edit(PracticesView.DetailText(t, q)));
  }

  /** On the practice page only back and home do anything; other text keeps the page. */
  lemma PracticeDetailRule(t: Texts, env: Env, s: SessionData, text: string)
    ensures IsBack(t, text) ==> PracticeDetailHandler(t, env, s, text) == GoBack(t, env, s, text)
    ensures !IsBack(t, text) && IsHome(t, text) ==> PracticeDetailHandler(t, env, s, text) == ReturnToMainMenu(t, s)
    ensures !IsBack(t, text) && !IsHome(t, text) ==>
      PracticeDetailHandler(t, env, s, text) == Outcome(s, To(PracticeDetail), [Reply(t.common.navigationHint, BackMenu)])
  {
  }

  /**
   * Choosing a category and then going back returns to the category menu,
   * with the stack as it was before the choice, `MainMenu` on top.
   */
  lemma {:induction false} ChooseThenBack(t: Texts, env: Env, s: SessionData, text: string, back: string)
    requires !IsBack(t, text) && !IsHome(t, text) && t.practices.categorySuffix != ""
    requires SplitHead(text, t.practices.categorySuffix) in s.practiceCategories
    ensures var o := GoBack(t, env, PracticesMenuHandler(t, env, s, text).session, back);
      o.next == To(PracticesMenu) && o.session.navStack == PushMain(s.navStack)
  {
    var name := SplitHead(text, t.practices.categorySuffix);
    var o1 := PracticesMenuHandler(t, env, s, text);
    CategoryRemembered(t, env, s.(navStack := s.navStack + [PracticesMenu]), name);
    assert o1.session.navStack == s.navStack + [PracticesMenu];
    assert o1.session.navStack[..|o1.session.navStack| - 1] == s.navStack;
  }

  /**
   * The remembered category at work: choosing a category with practices
   * lists it, pressing one of its practices opens that practice, and going
   * back from the practice shows the same listing again, with the stack as
   * the choice left it.
   */
  lemma {:induction false} ChooseOpenBack(t: Texts, env: Env, s: SessionData, text: string, index: nat, p: Practice, back: string)
    requires !IsBack(t, text) && !IsHome(t, text) && t.practices.categorySuffix != ""
    requires SplitHead(text, t.practices.categorySuffix) in s.practiceCategories
    requires SplitHead(text, t.practices.categorySuffix) != ""
    requires env.catalog.online && p.id.Some?
    requires p in InCategory(env.catalog.practices, SplitHead(text, t.practices.categorySuffix))
    ensures var o1 := PracticesMenuHandler(t, env, s, text);
      var o2 := ButtonHandler(t, env, o1.session, PracticesView.PracticeButton(index, p).callback);
      var o3 := GoBack(t, env, o2.session, back);
      o1.next == To(PracticeCategory) && o1.session.currentCategory == SplitHead(text, t.practices.categorySuffix)
      && o2.next == To(PracticeDetail) && o2.session.currentPracticeId == p.id
      && o3.next == To(PracticeCategory) && o3.session.navStack == o1.session.navStack
      && o3.session.currentCategory == o1.session.currentCategory
      && |o3.out| >= 2 && o3.out[|o3.out| - 2..] == o1.out
  {
    var name := SplitHead(text, t.practices.categorySuffix);
    var ps := InCategory(env.catalog.practices, name);
    var s0 := s.(navStack := s.navStack + [PracticesMenu]);
    var o1 := PracticesMenuHandler(t, env, s, text);
    assert o1 == ShowPracticeCategory(t, env, s0, name);
    CategoryRemembered(t, env, s0, name);
    assert o1.session == s0.(currentCategory := name);
    var o2 := ButtonHandler(t, env, o1.session, PracticesView.PracticeButton(index, p).callback);
    PressingListedButtonOpensPractice(t, env, o1.session, index, p);
    var s2 := o2.session.(audioMessageId := None, navStack := o1.session.navStack);
    assert o2.session.navStack[..|o2.session.navStack| - 1] == o1.session.navStack;
    GoBackToPracticeCategory(t, env, o2.session, back);
    CategoryRemembered(t, env, s2, name);
  }

  /**
   * A report (neither back nor home) leaves the session alone. With admins,
   * each gets one message holding the user's chat and text, in the order of
   * `admins`, then the user is thanked and lands in the main menu; with none,
   * the user is told the report could not be sent and stays in the form.
   */
  lemma ReportIssueForwards(t: Texts, env: Env, s: SessionData, text: string, admins: seq<int>)
    requires !IsBack(t, text) && !IsHome(t, text)
    ensures var o := ReportIssueHandler(t, env, s, text, admins);
      var message := Fill2(t.report.adminMessage, IntToString(env.chat), text);
      o.session == s
      && (admins == [] ==> o.next == To(ReportIssue) && o.out == [Reply(t.report.sendError, BackMenu)])
      && (admins != [] ==>
            o.next == To(MainMenu) && |o.out| == |admins| + 1
            && (forall i :: 0 <= i < |admins| ==> o.out[i] == Send(admins[i], message, NoKeyboard))
            && o.out[|admins|] == Reply(t.report.thanks, StartMenu))
  {
  }
}
