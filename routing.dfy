/**
 * The conversation table of bot.py: which handler an update reaches in
 * which state. Entry points apply only while no conversation is active;
 * in a state its own handlers are tried in order, then the fallbacks.
 */
module Routing {
  import opened Wrappers
  import opened Strings
  import opened Config
  import opened Texts
  import opened Render
  import opened Navigation
  import NavigationProps

  /** What reaches the bot: a text message, a press on an inline button, or a message without text. */
  datatype Update = TextMessage(text: string) | CallbackQuery(data: string) | OtherMessage

  /** No conversation yet (or it ended), or the state it is in. */
  datatype Conv = Idle | In(state: State)

  datatype Handler =
    | StartH | MainMenuH | ReturnToMainMenuH | GoBackH | UniversityMenuH | FindPsychologistH
    | PracticesMenuH | ButtonH | PracticeDetailH | ReportIssueH | PartnersH | FallbackH
      /** No handler matches: the update is dropped. */
    | Ignored

  /** The label of the home button, as the regexes of the table spell it. */
  const HomeLabel: string := "Вернуться в главное меню \U{1f3e0}"

  /** The label of the back button, as the regexes of the table spell it. */
  const BackLabel: string := "Назад \U{21a9}\U{fe0f}"

  /** `filters.Regex("^L$")`: `$` also matches before a final newline. */
  predicate MatchesLabel(text: string, expected: string) {
    text == expected || text == expected + "\n"
  }

  /** `filters.COMMAND`: the message starts with a bot command. */
  predicate IsCommand(text: string) {
    StartsWith(text, "/")
  }

  /** The characters a command name, and a bot's username, are made of. */
  predicate CommandChar(ch: char) {
    'a' <= ch <= 'z' || 'A' <= ch <= 'Z' || '0' <= ch <= '9' || ch == '_'
  }

  /** The longest prefix of `s` made of command characters. */
  function CommandWord(s: string): (r: string)
    ensures r <= s && forall i :: 0 <= i < |r| ==> CommandChar(r[i])
    ensures |r| == |s| || !CommandChar(s[|r|])
  {
    if s == [] || !CommandChar(s[0]) then [] else [s[0]] + CommandWord(s[1..])
  }

  /**
   * `CommandHandler("start")`: the message opens with a command entity
   * ('/', a name, then optionally '@' and a username) whose name is `start`
   * in any letter case and whose username, when it has one, is `bot`'s in
   * any letter case. What follows the entity (arguments, a new line) does
   * not matter.
   */
  predicate IsStartCommand(text: string, bot: string) {
    StartsWith(text, "/") && StartEntity(text[1..], bot)
  }

  /** The text after the '/' opens with the name `start`, addressed to no bot or to `bot`. */
  predicate StartEntity(s: string, bot: string) {
    var name := CommandWord(s);
    EqualIgnoringCase(name, "start") && AddressedTo(s[|name|..], bot)
  }

  /** What follows a command name names no bot, or names `bot`. */
  predicate AddressedTo(rest: string, bot: string) {
    rest == [] || rest[0] != '@' || CommandWord(rest[1..]) == [] || EqualIgnoringCase(CommandWord(rest[1..]), bot)
  }

  /** `fallbacks`: `/start`, else `fallback_handler` for any message; button presses match neither. */
  function Fallbacks(bot: string, u: Update): (h: Handler)
    ensures u.CallbackQuery? <==> h == Ignored
  {
    match u
    case TextMessage(text) => if IsStartCommand(text, bot) then StartH else FallbackH
    case CallbackQuery(_) => Ignored
    case OtherMessage => FallbackH
  }

  /** The home regex, the back regex, then `filters.TEXT & ~filters.COMMAND` for `other`. */
  function HomeBackOr(u: Update, back: bool, other: Handler): Option<Handler> {
    match u
    case TextMessage(text) =>
      if MatchesLabel(text, HomeLabel) then Some(ReturnToMainMenuH)
      else if back && MatchesLabel(text, BackLabel) then Some(GoBackH)
      else if !IsCommand(text) then Some(other)
      else None
    case _ => None
  }

  /** The handler list of each state in `states`, as written: `PartnersMenu` has none. */
  function StateHandlersAsWritten(st: State, u: Update): Option<Handler> {
    match st
    case MainMenu => if u.TextMessage? && !IsCommand(u.text) then Some(MainMenuH) else None
    case UniversityMenu => HomeBackOr(u, false, UniversityMenuH)
    case FindPsychologist => HomeBackOr(u, true, FindPsychologistH)
    case ContactsMenu => HomeBackOr(u, true, GoBackH)
    case PracticesMenu => HomeBackOr(u, false, PracticesMenuH)
    case PracticeCategory => if u.CallbackQuery? then Some(ButtonH) else HomeBackOr(u, true, GoBackH)
    case PracticeDetail => HomeBackOr(u, true, PracticeDetailH)
    case ReportIssue => HomeBackOr(u, true, ReportIssueH)
    case PartnersMenu => None
  }

  /** The table with `PartnersMenu` routed like the psychologists section, as `handle_partners` expects. */
  function StateHandlers(st: State, u: Update): Option<Handler> {
    if st == PartnersMenu then HomeBackOr(u, true, PartnersH) else StateHandlersAsWritten(st, u)
  }

  /** Entry points while idle: `/start`, any text, any command. */
  function EntryPoints(u: Update): Handler {
    if u.TextMessage? then StartH else Ignored
  }

  /** The `ConversationHandler` as written in bot.py. */
  function RouteAsWritten(bot: string, c: Conv, u: Update): Handler {
    match c
    case Idle => EntryPoints(u)
    case In(st) => StateHandlersAsWritten(st, u).GetOr(Fallbacks(bot, u))
  }

  /** The `ConversationHandler` with the partners state in its table. */
  function Route(bot: string, c: Conv, u: Update): Handler {
    match c
    case Idle => EntryPoints(u)
    case In(st) => StateHandlers(st, u).GetOr(Fallbacks(bot, u))
  }

  /**
   * Runs handler `h` on update `u`. `registered` is whether `add_user`
   * succeeded for `/start`; `admins` is what `get_admin_ids` gave for a
   * report.
   */
  function Dispatch(t: Texts, env: Env, s: SessionData, h: Handler, u: Update, registered: bool, admins: seq<int>): Outcome {
    var text := if u.TextMessage? then u.text else "";
    match h
    case StartH => Navigation.Start(t, env, s, registered)
    case MainMenuH => MainMenuHandler(t, env, s, text)
    case ReturnToMainMenuH => ReturnToMainMenu(t, s)
    case GoBackH => GoBack(t, env, s, text)
    case UniversityMenuH => UniversityMenuHandler(t, env, s, text)
    case FindPsychologistH => HandleFindPsychologist(t, env, s, text)
    case PracticesMenuH => PracticesMenuHandler(t, env, s, text)
    case ButtonH => ButtonHandler(t, env, s, if u.CallbackQuery? then u.data else "")
    case PracticeDetailH => PracticeDetailHandler(t, env, s, text)
    case ReportIssueH => ReportIssueHandler(t, env, s, text, admins)
    case PartnersH => HandlePartners(t, env, s, text)
    case FallbackH => Fallback(t, s)
    case Ignored => Outcome(s, Stay, [])
  }

  /** The conversation state after a handler: a state, unchanged for `None`, over for `END`. */
  function Advance(c: Conv, next: Next): Conv {
    match next
    case To(st) => In(st)
    case Stay => c
    case End => Idle
  }

  datatype StepResult = StepResult(conv: Conv, outcome: Outcome)

  /** One update handled by the table as written. */
  function StepAsWritten(t: Texts, env: Env, c: Conv, s: SessionData, u: Update, registered: bool, admins: seq<int>): StepResult {
    var o := Dispatch(t, env, s, RouteAsWritten(env.botUsername, c, u), u, registered, admins);
    StepResult(Advance(c, o.next), o)
  }

  /** One update handled by the corrected table. */
  function Step(t: Texts, env: Env, c: Conv, s: SessionData, u: Update, registered: bool, admins: seq<int>): StepResult {
    var o := Dispatch(t, env, s, Route(env.botUsername, c, u), u, registered, admins);
    StepResult(Advance(c, o.next), o)
  }

  // ---------------------------------------------------------------------
  // Properties of the table
  // ---------------------------------------------------------------------

  /** The two tables differ only in the partners state. */
  lemma RouteDiffersOnlyInPartners(bot: string, c: Conv, u: Update)
    ensures c != In(PartnersMenu) ==> Route(bot, c, u) == RouteAsWritten(bot, c, u)
    ensures RouteAsWritten(bot, In(PartnersMenu), u) == Fallbacks(bot, u)
  {
  }

  /** A command word made of command characters and ended by anything else is read whole. */
  lemma {:induction false} CommandWordAppend(w: string, rest: string)
    requires forall i :: 0 <= i < |w| ==> CommandChar(w[i])
    requires rest == [] || !CommandChar(rest[0])
    ensures CommandWord(w + rest) == w
  {
    if w != [] {
      assert (w + rest)[1..] == w[1..] + rest;
      CommandWordAppend(w[1..], rest);
    }
  }

  /** A start command name, in any letter case, followed by nothing or by a separator other than '@', is `/start`. */
  lemma StartFollowedBy(name: string, rest: string, bot: string)
    requires forall i :: 0 <= i < |name| ==> CommandChar(name[i])
    requires EqualIgnoringCase(name, "start")
    requires rest == [] || (!CommandChar(rest[0]) && rest[0] != '@')
    ensures IsStartCommand("/" + name + rest, bot)
  {
    var text := "/" + name + rest;
    assert text[1..] == name + rest;
    assert CommandWord(name + rest) == name by {
      CommandWordAppend(name, rest);
    }
    assert (name + rest)[|name|..] == rest;
    assert AddressedTo(rest, bot);
  }

  /** `/start` on its own is recognised. */
  lemma StartCommandPlain(bot: string)
    ensures IsStartCommand("/start", bot)
  {
    CommandWordAppend("start", []);
    assert "/start"[1..] == "start" + [];
  }

  /** `/start` is recognised in capitals too. */
  lemma StartCommandCapitals(bot: string)
    ensures IsStartCommand("/START", bot)
  {
    CommandWordAppend("START", []);
    assert "/START"[1..] == "START" + [];
    assert EqualIgnoringCase("START", "start") by {
      assert LowerChar('S') == 's' && LowerChar('T') == 't' && LowerChar('A') == 'a' && LowerChar('R') == 'r';
    }
  }

  /** `/start` is recognised followed by arguments or by more lines. */
  lemma StartCommandArgs(bot: string, args: string)
    ensures IsStartCommand("/start " + args, bot) && IsStartCommand("/start\n" + args, bot)
  {
    StartFollowedBy("start", " " + args, bot);
    assert "/" + "start" + (" " + args) == "/start " + args;
    StartFollowedBy("start", "\n" + args, bot);
    assert "/" + "start" + ("\n" + args) == "/start\n" + args;
  }

  /** A longer command name and text without the slash are not `/start`. */
  lemma StartCommandRejects(bot: string)
    ensures !IsStartCommand("/started", bot) && !IsStartCommand("start", bot)
  {
    CommandWordAppend("started", []);
    assert "/started"[1..] == "started" + [];
  }

  /** `/start@name` is recognised exactly when the name is this bot's, in any letter case. */
  lemma StartCommandAddressed(bot: string, name: string)
    requires name != [] && forall i :: 0 <= i < |name| ==> CommandChar(name[i])
    ensures IsStartCommand("/start@" + name, bot) <==> EqualIgnoringCase(name, bot)
  {
    var s := "start" + ("@" + name);
    assert ("/start@" + name)[1..] == s;
    assert CommandWord(s) == "start" by {
      CommandWordAppend("start", "@" + name);
    }
    assert s[5..] == "@" + name;
    assert CommandWord(("@" + name)[1..]) == name by {
      CommandWordAppend(name, []);
      assert ("@" + name)[1..] == name + [];
    }
  }

  /** Without a conversation, every text message, commands included, starts one; nothing else does. */
  lemma IdleEntersByStart(bot: string, c: Conv, u: Update)
    requires c == Idle
    ensures RouteAsWritten(bot, c, u) == StartH <==> u.TextMessage?
    ensures RouteAsWritten(bot, c, u) != StartH ==> RouteAsWritten(bot, c, u) == Ignored
  {
  }

  /** In every state but the main menu, the home label goes to `return_to_main_menu` before anything else. */
  lemma HomeTakesPrecedence(bot: string, st: State, text: string)
    requires st != MainMenu && MatchesLabel(text, HomeLabel)
    ensures Route(bot, In(st), TextMessage(text)) == ReturnToMainMenuH
    ensures st != PartnersMenu ==> RouteAsWritten(bot, In(st), TextMessage(text)) == ReturnToMainMenuH
  {
  }

  /** Button presses are handled only in the category listing; in every other state they are dropped. */
  lemma CallbacksOnlyInCategory(bot: string, c: Conv, data: string)
    ensures RouteAsWritten(bot, c, CallbackQuery(data)) != Ignored <==> c == In(PracticeCategory)
    ensures RouteAsWritten(bot, c, CallbackQuery(data)) != Ignored ==> RouteAsWritten(bot, c, CallbackQuery(data)) == ButtonH
    ensures Route(bot, c, CallbackQuery(data)) == RouteAsWritten(bot, c, CallbackQuery(data))
  {
  }

  /** In the contacts menu and the category listing, any text other than home and commands goes back. */
  lemma OtherTextGoesBack(bot: string, st: State, text: string)
    requires st == ContactsMenu || st == PracticeCategory
    requires !MatchesLabel(text, HomeLabel) && !IsCommand(text)
    ensures RouteAsWritten(bot, In(st), TextMessage(text)) == GoBackH
  {
  }

  /** The two labels are plain texts, neither a command nor the other label. */
  lemma LabelsAreText(bot: string)
    ensures !IsCommand(BackLabel) && !IsCommand(HomeLabel)
    ensures !IsStartCommand(BackLabel, bot) && !IsStartCommand(HomeLabel, bot)
    ensures !MatchesLabel(BackLabel, HomeLabel) && !MatchesLabel(HomeLabel, BackLabel)
  {
    assert BackLabel[0] != '/' && HomeLabel[0] != '/' && BackLabel[0] != HomeLabel[0];
  }

  /**
   * The university and practices menus have no back regex: the back label
   * reaches their own handler, which goes back itself when the label is the
   * one the texts define.
   */
  lemma BackReachesMenuHandler(t: Texts, env: Env, s: SessionData, st: State)
    requires st == UniversityMenu || st == PracticesMenu
    requires t.common.backButton == BackLabel
    ensures RouteAsWritten(env.botUsername, In(st), TextMessage(BackLabel))
         == (if st == UniversityMenu then UniversityMenuH else PracticesMenuH)
    ensures StepAsWritten(t, env, In(st), s, TextMessage(BackLabel), false, []).outcome == GoBack(t, env, s, BackLabel)
  {
    LabelsAreText(env.botUsername);
    var h := if st == UniversityMenu then UniversityMenuH else PracticesMenuH;
    assert RouteAsWritten(env.botUsername, In(st), TextMessage(BackLabel)) == h;
    assert IsBack(t, BackLabel);
    if st == UniversityMenu {
      assert UniversityMenuHandler(t, env, s, BackLabel) == GoBack(t, env, s, BackLabel);
    } else {
      assert PracticesMenuHandler(t, env, s, BackLabel) == GoBack(t, env, s, BackLabel);
    }
  }

  /** A registered user's first message, with the catalog readable, lands in the main menu with an empty stack. */
  lemma FirstMessageStarts(t: Texts, env: Env, s: SessionData, text: string)
    requires env.catalog.online
    ensures var r := StepAsWritten(t, env, Idle, s, TextMessage(text), true, []);
      r.conv == In(MainMenu) && r.outcome.session == s.(navStack := [])
  {
  }

  /**
   * A step of the table as written, from a session whose stack holds only
   * states the handlers push, leaves such a stack again, so going back
   * never meets any other state.
   */
  lemma {:induction false} StepAsWrittenKeepsStackOk(t: Texts, env: Env, c: Conv, s: SessionData, u: Update, registered: bool, admins: seq<int>)
    requires NavigationProps.StackOk(s.navStack)
    ensures NavigationProps.StackOk(StepAsWritten(t, env, c, s, u, registered, admins).outcome.session.navStack)
  {
    DispatchKeepsStackOk(t, env, s, RouteAsWritten(env.botUsername, c, u), u, registered, admins);
  }

  /** The same for the table with the partners state added. */
  lemma {:induction false} StepKeepsStackOk(t: Texts, env: Env, c: Conv, s: SessionData, u: Update, registered: bool, admins: seq<int>)
    requires NavigationProps.StackOk(s.navStack)
    ensures NavigationProps.StackOk(Step(t, env, c, s, u, registered, admins).outcome.session.navStack)
  {
    DispatchKeepsStackOk(t, env, s, Route(env.botUsername, c, u), u, registered, admins);
  }

  lemma {:induction false} DispatchKeepsStackOk(t: Texts, env: Env, s: SessionData, h: Handler, u: Update, registered: bool, admins: seq<int>)
    requires NavigationProps.StackOk(s.navStack)
    ensures NavigationProps.StackOk(Dispatch(t, env, s, h, u, registered, admins).session.navStack)
  {
    var text := if u.TextMessage? then u.text else "";
    match h
    case StartH =>
    case MainMenuH => NavigationProps.MainMenuKeepsStackOk(t, env, s, text);
    case ReturnToMainMenuH =>
    case GoBackH => NavigationProps.GoBackKeepsStackOk(t, env, s, text);
    case UniversityMenuH => NavigationProps.UniversityMenuKeepsStackOk(t, env, s, text);
    case FindPsychologistH => NavigationProps.FindPsychologistKeepsStackOk(t, env, s, text);
    case PracticesMenuH => NavigationProps.PracticesMenuKeepsStackOk(t, env, s, text);
    case ButtonH => NavigationProps.ButtonKeepsStackOk(t, env, s, if u.CallbackQuery? then u.data else "");
    case PracticeDetailH => NavigationProps.PracticeDetailKeepsStackOk(t, env, s, text);
    case ReportIssueH => NavigationProps.ReportIssueKeepsStackOk(t, env, s, text, admins);
    case PartnersH => NavigationProps.PartnersKeepsStackOk(t, env, s, text);
    case FallbackH =>
    case Ignored =>
  }

  // ---------------------------------------------------------------------
  // The partners state missing from the table
  // ---------------------------------------------------------------------

  /**
   * As written, the back button in the partners menu reaches
   * `fallback_handler`: the user is told the message was not understood,
   * lands in the main menu state, and the stack is not popped.
   */
  lemma PartnersBackAsWritten(t: Texts, env: Env, s: SessionData)
    ensures var r := StepAsWritten(t, env, In(PartnersMenu), s, TextMessage(BackLabel), false, []);
      r.conv == In(MainMenu) && r.outcome.session == s
      && r.outcome.out == [Reply(t.common.fallback, StartMenu)]
  {
    LabelsAreText(env.botUsername);
    assert RouteAsWritten(env.botUsername, In(PartnersMenu), TextMessage(BackLabel)) == FallbackH;
    assert Dispatch(t, env, s, FallbackH, TextMessage(BackLabel), false, []) == Fallback(t, s);
  }

  /** With the partners state in the table, its back button goes back, popping the stack, as in every other section. */
  lemma PartnersBackCorrected(t: Texts, env: Env, s: SessionData)
    requires s.navStack != [] && s.navStack[|s.navStack| - 1] == MainMenu
    ensures var r := Step(t, env, In(PartnersMenu), s, TextMessage(BackLabel), false, []);
      r.conv == In(MainMenu) && r.outcome.session.navStack == s.navStack[..|s.navStack| - 1]
      && r.outcome.out[|r.outcome.out| - 1] == Reply(t.common.goToMainMenu, StartMenu)
  {
    LabelsAreText(env.botUsername);
    assert Route(env.botUsername, In(PartnersMenu), TextMessage(BackLabel)) == GoBackH;
  }

  /** With the partners state in the table, its home button empties the stack. */
  lemma PartnersHomeCorrected(t: Texts, env: Env, s: SessionData)
    ensures var r := Step(t, env, In(PartnersMenu), s, TextMessage(HomeLabel), false, []);
      r.conv == In(MainMenu) && r.outcome.session.navStack == []
    ensures var r := StepAsWritten(t, env, In(PartnersMenu), s, TextMessage(HomeLabel), false, []);
      r.conv == In(MainMenu) && r.outcome.session == s
  {
    LabelsAreText(env.botUsername);
    assert Route(env.botUsername, In(PartnersMenu), TextMessage(HomeLabel)) == ReturnToMainMenuH;
    assert RouteAsWritten(env.botUsername, In(PartnersMenu), TextMessage(HomeLabel)) == FallbackH;
  }
}
