/**
 * A user's session as the handlers keep it: `context.user_data`, changed in
 * place. Each method is one handler under commands/; its postcondition says
 * that the new session, the next step of the conversation and what the user
 * was shown are exactly what the matching function of `Navigation` gives
 * for the old session.
 */
module Sessions {
  import opened Wrappers
  import opened Strings
  import opened Config
  import opened Texts
  import opened Catalog
  import opened Render
  import opened Navigation
  import PracticesView
  import UniversitiesView
  import PsychologistsView
  import PartnersView
  import ContactsView
  import Routing

  class Session {
    var navStack: seq<State>
    var currentCategory: string
    var currentPracticeId: Option<int>
    var practiceCategories: seq<string>
    var universities: seq<University>
    var audioMessageId: Option<int>

    /** The session as a value. */
    function Data(): SessionData
      reads this
    {
      SessionData(navStack, currentCategory, currentPracticeId, practiceCategories, universities, audioMessageId)
    }

    constructor ()
      ensures Data() == EmptySession
    {
      navStack := [];
      currentCategory := "";
      currentPracticeId := None;
      practiceCategories := [];
      universities := [];
      audioMessageId := None;
    }

    /** Makes sure `MainMenu` is on top of the navigation stack. */
    method PushMainMenu()
      modifies this
      ensures Data() == old(Data()).(navStack := PushMain(old(navStack)))
    {
      if navStack == [] || navStack[|navStack| - 1] != MainMenu {
        navStack := navStack + [MainMenu];
      }
    }

    method Start(t: Texts, env: Env, registered: bool) returns (next: Next, out: seq<Out>)
      modifies this
      ensures Outcome(Data(), next, out) == Navigation.Start(t, env, old(Data()), registered)
    {
      if !registered {
        return End, [Reply(t.common.errorGeneric, NoKeyboard)];
      }
      navStack := [];
      var greeting := StartText(env.catalog);
      if greeting.None? {
        return End, [Reply(t.common.errorGeneric, NoKeyboard)];
      }
      return To(MainMenu), [Reply(greeting.value, StartMenu)];
    }

    method ReturnToMainMenu(t: Texts) returns (next: Next, out: seq<Out>)
      modifies this
      ensures Outcome(Data(), next, out) == Navigation.ReturnToMainMenu(t, old(Data()))
    {
      navStack := [];
      return To(MainMenu), [Reply(t.common.goToMainMenu, StartMenu)];
    }

    method HandleUniversityInfo(t: Texts, env: Env) returns (next: Next, out: seq<Out>)
      modifies this
      ensures Outcome(Data(), next, out) == Navigation.HandleUniversityInfo(t, env, old(Data()))
    {
      var listing := Universities(env.catalog);
      if listing.None? {
        return To(UniversityMenu), [Reply(t.common.errorGeneric, BackMenu)];
      }
      PushMainMenu();
      if listing.value == [] {
        return To(UniversityMenu), [Reply(t.universities.noInfo, BackMenu)];
      }
      var keyboard := BuildMenuKeyboard(UniversitiesView.Names(listing.value), t.universities.universitySuffix,
                                        t.common.backButton, t.common.mainMenuButton);
      out := [Reply(t.universities.selectPrompt, ReplyKeys(keyboard))];
      universities := listing.value;
      next := To(UniversityMenu);
    }

    method UniversityMenuHandler(t: Texts, env: Env, text: string) returns (next: Next, out: seq<Out>)
      modifies this
      decreases |navStack|, 1
      ensures Outcome(Data(), next, out) == Navigation.UniversityMenuHandler(t, env, old(Data()), text)
    {
      if IsBack(t, text) {
        next, out := GoBack(t, env, text);
        return;
      } else if IsHome(t, text) {
        next, out := ReturnToMainMenu(t);
        return;
      }
      if t.universities.universitySuffix == "" {
        return To(UniversityMenu), [Reply(t.common.errorGeneric, BackMenu)];
      }
      var name := SplitHead(text, t.universities.universitySuffix);
      var university := UniversitiesView.FindUniversity(universities, name);
      if university.None? {
        return To(UniversityMenu), [Reply(t.universities.notFound, BackMenu)];
      }
      var events := UniversityEvents(env.catalog, university.value.id);
      if events.None? {
        return To(UniversityMenu), [Reply(t.common.errorGeneric, BackMenu)];
      }
      var page := UniversitiesView.BuildUniversityText(t, university.value, events.value);
      return To(UniversityMenu), [Reply(page, BackMenu)];
    }

    method HandlePractices(t: Texts, env: Env) returns (next: Next, out: seq<Out>)
      modifies this
      ensures Outcome(Data(), next, out) == Navigation.HandlePractices(t, env, old(Data()))
    {
      PushMainMenu();
      var categories := PracticeCategories(env.catalog);
      if categories.None? {
        return To(PracticesMenu), [Reply(t.common.errorGeneric, BackMenu)];
      }
      if categories.value == [] {
        return To(PracticesMenu), [Reply(t.practices.noInfo, BackMenu)];
      }
      var keyboard := BuildMenuKeyboard(categories.value, t.practices.categorySuffix,
                                        t.common.backButton, t.common.mainMenuButton);
      practiceCategories := categories.value;
      return To(PracticesMenu), [Reply(t.practices.selectCategory, ReplyKeys(keyboard))];
    }

    method ShowPracticeCategory(t: Texts, env: Env, category: string) returns (next: Next, out: seq<Out>)
      modifies this
      ensures Outcome(Data(), next, out) == Navigation.ShowPracticeCategory(t, env, old(Data()), category)
    {
      var name := category;
      if name == "" {
        name := currentCategory;
        if name == "" {
          return To(PracticeCategory), [Reply(t.common.unknownState, BackMenu)];
        }
      }
      var practices := PracticesByCategory(env.catalog, name);
      if practices.None? {
        return To(PracticeCategory), [Reply(t.common.errorGeneric, BackMenu)];
      }
      if practices.value == [] {
        return To(PracticeCategory), [Reply(Fill(t.practices.noPractices, name), BackMenu)];
      }
      var listing, rows := PracticesView.BuildCategoryListing(t, name, practices.value);
      currentCategory := name;
      return To(PracticeCategory), [Reply(listing, InlineKeys(rows)), Reply(t.common.navigationHint, BackMenu)];
    }

    method PracticesMenuHandler(t: Texts, env: Env, text: string) returns (next: Next, out: seq<Out>)
      modifies this
      decreases |navStack|, 1
      ensures Outcome(Data(), next, out) == Navigation.PracticesMenuHandler(t, env, old(Data()), text)
    {
      if IsBack(t, text) {
        next, out := GoBack(t, env, text);
        return;
      } else if IsHome(t, text) {
        next, out := ReturnToMainMenu(t);
        return;
      }
      if t.practices.categorySuffix == "" {
        return To(PracticesMenu), [Reply(t.common.errorGeneric, BackMenu)];
      }
      var name := SplitHead(text, t.practices.categorySuffix);
      if name !in practiceCategories {
        return To(PracticesMenu), [Reply(t.common.fallback, BackMenu)];
      }
      navStack := navStack + [PracticesMenu];
      next, out := ShowPracticeCategory(t, env, name);
    }

    /** Sends the audio of `p`, if it has one, after `shown`, and remembers the audio's message id. */
    method ShowPractice(t: Texts, env: Env, p: Practice, shown: Out) returns (next: Next, out: seq<Out>)
      modifies this
      ensures Outcome(Data(), next, out) == Navigation.ShowPractice(t, env, old(Data()), p, shown)
    {
      out := [shown];
      if p.audioUrl != "" {
        out := out + [Audio(p.audioUrl)];
        audioMessageId := Some(env.audioMessageId);
      }
      next := To(PracticeDetail);
    }

    method ShowPracticeDetail(t: Texts, env: Env) returns (next: Next, out: seq<Out>)
      modifies this
      ensures Outcome(Data(), next, out) == Navigation.ShowPracticeDetail(t, env, old(Data()))
    {
      var id := currentPracticeId;
      if id.None? || id == Some(0) {
        return To(PracticeCategory), [Reply(t.common.unknownState, BackMenu)];
      }
      var practices := Practices(env.catalog);
      if practices.None? {
        return To(PracticeCategory), [Reply(t.common.errorGeneric, BackMenu)];
      }
      var practice := PracticesView.FindPractice(practices.value, id.value);
      if practice.None? {
        return To(PracticeCategory), [Reply(t.practices.practiceNotFound, BackMenu)];
      }
      next, out := ShowPractice(t, env, practice.value, Reply(PracticesView.DetailText(t, practice.value), BackMenu));
    }

    method ButtonHandler(t: Texts, env: Env, data: string) returns (next: Next, out: seq<Out>)
      modifies this
      ensures Outcome(Data(), next, out) == Navigation.ButtonHandler(t, env, old(Data()), data)
    {
      if !StartsWith(data, PracticesView.CallbackPrefix) {
        return Stay, [];
      }
      var id := ParseInt(AfterLast(data, '_'));
      if id.None? {
        return To(PracticeCategory), [Edit(t.practices.practiceError)];
      }
      var practices := Practices(env.catalog);
      if practices.None? {
        return To(PracticeCategory), [Reply(t.practices.practiceError, BackMenu)];
      }
      var practice := PracticesView.FindPractice(practices.value, id.value);
      if practice.None? {
        return To(PracticeCategory), [Edit(t.practices.practiceNotFound)];
      }
      navStack := navStack + [PracticeCategory];
      currentPracticeId := Some(id.value);
      next, out := ShowPractice(t, env, practice.value, Edit(PracticesView.DetailText(t, practice.value)));
    }

    method PracticeDetailHandler(t: Texts, env: Env, text: string) returns (next: Next, out: seq<Out>)
      modifies this
      decreases |navStack|, 1
      ensures Outcome(Data(), next, out) == Navigation.PracticeDetailHandler(t, env, old(Data()), text)
    {
      if IsBack(t, text) {
        next, out := GoBack(t, env, text);
      } else if IsHome(t, text) {
        next, out := ReturnToMainMenu(t);
      } else {
        next, out := To(PracticeDetail), [Reply(t.common.navigationHint, BackMenu)];
      }
    }

    method HandleContacts(t: Texts, env: Env) returns (next: Next, out: seq<Out>)
      modifies this
      ensures Outcome(Data(), next, out) == Navigation.HandleContacts(t, env, old(Data()))
    {
      var contacts := Contacts(env.catalog);
      if contacts.None? {
        return To(ContactsMenu), [Reply(t.common.errorGeneric, BackMenu)];
      }
      PushMainMenu();
      if contacts.value == [] {
        return To(ContactsMenu), [Reply(t.contacts.noInfo, BackMenu)];
      }
      var response := ContactsView.BuildContactsText(t, contacts.value);
      return To(ContactsMenu), [Reply(response, BackMenu)];
    }

    method GoBack(t: Texts, env: Env, text: string) returns (next: Next, out: seq<Out>)
      modifies this
      decreases |navStack|, 0
      ensures Outcome(Data(), next, out) == Navigation.GoBack(t, env, old(Data()), text)
    {
      var deleted: seq<Out> := [];
      if audioMessageId.Some? {
        deleted := [Delete(audioMessageId.value)];
      }
      audioMessageId := None;
      if navStack == [] {
        var greeting := StartText(env.catalog);
        if greeting.None? {
          return To(MainMenu), deleted + [Reply(t.common.errorGeneric, StartMenu)];
        }
        return To(MainMenu), deleted + [Reply(greeting.value, StartMenu)];
      }
      var prev := navStack[|navStack| - 1];
      navStack := navStack[..|navStack| - 1];
      match prev {
        case MainMenu =>
          next, out := To(MainMenu), [Reply(t.common.goToMainMenu, StartMenu)];
        case UniversityMenu =>
          next, out := HandleUniversityInfo(t, env);
        case PracticesMenu =>
          next, out := HandlePractices(t, env);
        case PracticeCategory =>
          if currentCategory != "" {
            next, out := ShowPracticeCategory(t, env, currentCategory);
          } else {
            next, out := HandlePractices(t, env);
          }
        case FindPsychologist =>
          next, out := HandleFindPsychologist(t, env, text);
        case PracticeDetail =>
          next, out := ShowPracticeDetail(t, env);
        case ContactsMenu =>
          next, out := HandleContacts(t, env);
        case PartnersMenu =>
          next, out := HandlePartners(t, env, text);
        case ReportIssue =>
          next, out := To(MainMenu), [Reply(t.common.unknownState, StartMenu)];
      }
      out := deleted + out;
    }

    method HandleFindPsychologist(t: Texts, env: Env, text: string) returns (next: Next, out: seq<Out>)
      modifies this
      decreases |navStack|, 1
      ensures Outcome(Data(), next, out) == Navigation.HandleFindPsychologist(t, env, old(Data()), text)
    {
      if IsBack(t, text) {
        next, out := GoBack(t, env, text);
        return;
      } else if IsHome(t, text) {
        next, out := ReturnToMainMenu(t);
        return;
      }
      PushMainMenu();
      var psychologists := Psychologists(env.catalog);
      if psychologists.None? {
        return To(FindPsychologist), [Reply(t.common.errorGeneric, BackMenu)];
      }
      if psychologists.value == [] {
        return To(FindPsychologist), [Reply(t.psychologists.noInfo, BackMenu)];
      }
      var response := PsychologistsView.BuildPsychologistsText(t, psychologists.value);
      return To(FindPsychologist), [Reply(response, BackMenu)];
    }

    method HandlePartners(t: Texts, env: Env, text: string) returns (next: Next, out: seq<Out>)
      modifies this
      decreases |navStack|, 1
      ensures Outcome(Data(), next, out) == Navigation.HandlePartners(t, env, old(Data()), text)
    {
      if IsBack(t, text) {
        next, out := GoBack(t, env, text);
        return;
      } else if IsHome(t, text) {
        next, out := ReturnToMainMenu(t);
        return;
      }
      PushMainMenu();
      var partners := Partners(env.catalog);
      if partners.None? {
        return To(PartnersMenu), [Reply(t.common.errorGeneric, BackMenu)];
      }
      if partners.value == [] {
        return To(PartnersMenu), [Reply(t.partners.noInfo, BackMenu)];
      }
      var response := PartnersView.BuildPartnersText(t, partners.value);
      return To(PartnersMenu), [Reply(response, BackMenu)];
    }

    method MainMenuHandler(t: Texts, env: Env, text: string) returns (next: Next, out: seq<Out>)
      modifies this
      ensures Outcome(Data(), next, out) == Navigation.MainMenuHandler(t, env, old(Data()), text)
    {
      ghost var s0 := Data();
      var word := SplitHead(text, " ");
      if word == "Узнать" {
        navStack := [MainMenu];
        assert Data() == s0.(navStack := [MainMenu]);
        next, out := HandleUniversityInfo(t, env);
      } else if word == "Найти" {
        navStack := [MainMenu];
        assert Data() == s0.(navStack := [MainMenu]);
        next, out := HandleFindPsychologist(t, env, text);
      } else if word == "Практики" {
        navStack := [MainMenu];
        assert Data() == s0.(navStack := [MainMenu]);
        next, out := HandlePractices(t, env);
      } else if word == "Контакты" {
        navStack := [MainMenu];
        assert Data() == s0.(navStack := [MainMenu]);
        next, out := HandleContacts(t, env);
      } else if word == "Наши" {
        navStack := [MainMenu];
        assert Data() == s0.(navStack := [MainMenu]);
        next, out := HandlePartners(t, env, text);
      } else if word == "Сообщить" {
        navStack := [MainMenu];
        next, out := To(ReportIssue), [Reply(t.report.prompt, BackMenu)];
      } else {
        navStack := [];
        next, out := To(MainMenu), [Reply(t.common.selectOption, StartMenu)];
      }
    }

    /** `admins` is what `get_admin_ids` returned for this message. */
    method ReportIssueHandler(t: Texts, env: Env, text: string, admins: seq<int>) returns (next: Next, out: seq<Out>)
      modifies this
      decreases |navStack|, 1
      ensures Outcome(Data(), next, out) == Navigation.ReportIssueHandler(t, env, old(Data()), text, admins)
    {
      if IsBack(t, text) {
        next, out := GoBack(t, env, text);
        return;
      } else if IsHome(t, text) {
        next, out := ReturnToMainMenu(t);
        return;
      }
      if admins == [] {
        return To(ReportIssue), [Reply(t.report.sendError, BackMenu)];
      }
      var message := Fill2(t.report.adminMessage, IntToString(env.chat), text);
      out := [];
      var i := 0;
      while i < |admins|
        invariant 0 <= i <= |admins|
        invariant out == AdminReports(admins[..i], message)
        modifies {}
      {
        assert admins[..i + 1][..i] == admins[..i];
        out := out + [Send(admins[i], message, NoKeyboard)];
        i := i + 1;
      }
      assert admins[..i] == admins;
      out := out + [Reply(t.report.thanks, StartMenu)];
      next := To(MainMenu);
    }

    /** Runs handler `h` on update `u` against this session. */
    method Run(t: Texts, env: Env, h: Routing.Handler, u: Routing.Update, registered: bool, admins: seq<int>)
      returns (next: Next, out: seq<Out>)
      modifies this
      ensures Outcome(Data(), next, out) == Routing.Dispatch(t, env, old(Data()), h, u, registered, admins)
    {
      var text := if u.TextMessage? then u.text else "";
      match h {
      case StartH => next, out := Start(t, env, registered);
      case MainMenuH => next, out := MainMenuHandler(t, env, text);
      case ReturnToMainMenuH => next, out := ReturnToMainMenu(t);
      case GoBackH => next, out := GoBack(t, env, text);
      case UniversityMenuH => next, out := UniversityMenuHandler(t, env, text);
      case FindPsychologistH => next, out := HandleFindPsychologist(t, env, text);
      case PracticesMenuH => next, out := PracticesMenuHandler(t, env, text);
      case ButtonH => next, out := ButtonHandler(t, env, if u.CallbackQuery? then u.data else "");
      case PracticeDetailH => next, out := PracticeDetailHandler(t, env, text);
      case ReportIssueH => next, out := ReportIssueHandler(t, env, text, admins);
      case PartnersH => next, out := HandlePartners(t, env, text);
      case FallbackH => next, out := To(MainMenu), [Reply(t.common.fallback, StartMenu)];
      case Ignored => next, out := Stay, [];
      }
    }

    /**
     * One update as bot.py's table routes it (no handlers in the partners
     * state): the table picks the handler, which runs on this session; the
     * conversation state follows its result.
     */
    method HandleUpdate(t: Texts, env: Env, c: Routing.Conv, u: Routing.Update, registered: bool, admins: seq<int>)
      returns (conv: Routing.Conv, out: seq<Out>)
      modifies this
      ensures var r := Routing.StepAsWritten(t, env, c, old(Data()), u, registered, admins);
        conv == r.conv && Data() == r.outcome.session && out == r.outcome.out
    {
      var next: Next;
      next, out := Run(t, env, Routing.RouteAsWritten(env.botUsername, c, u), u, registered, admins);
      conv := Routing.Advance(c, next);
    }

    /** One update as the table with the partners state added routes it. */
    method HandleUpdateCorrected(t: Texts, env: Env, c: Routing.Conv, u: Routing.Update, registered: bool, admins: seq<int>)
      returns (conv: Routing.Conv, out: seq<Out>)
      modifies this
      ensures var r := Routing.Step(t, env, c, old(Data()), u, registered, admins);
        conv == r.conv && Data() == r.outcome.session && out == r.outcome.out
    {
      var next: Next;
      next, out := Run(t, env, Routing.Route(env.botUsername, c, u), u, registered, admins);
      conv := Routing.Advance(c, next);
    }
  }
}
