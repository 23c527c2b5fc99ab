# jarqyndos bot — a verified model of its conversation core

jarqyndos is a Telegram bot for students. It guides them through a menu:
universities and their events, psychologists, practices (exercises, some
with audio), contacts, partners, and a form for reporting a problem to the
administrators. A JSON document holds its data. Administrators fill it in
through step-by-step wizards. A periodic job tells every registered user
about practices that have just appeared.

This project models the core of that bot in Dafny and proves properties of
the model:

- **The conversation table** (module `Routing`, bot.py). It decides which
  handler an update reaches in each of the nine states (`Config`).
- **The per-user session** (`Navigation` as specification functions,
  `Sessions.Session` as a class whose fields are updated in place). This is
  the navigation stack, the remembered category and practice, the listing
  snapshots and the audio message id. `NavigationProps` proves the stack
  discipline: a handler pushes when the user goes forward and `go_back`
  pops.
- **What each section shows** (`PracticesView`, `UniversitiesView`,
  `PsychologistsView`, `PartnersView`, `ContactsView`, `Render`). Each text
  and keyboard is built by a loop, and the loop is proved equal to a
  specification function.
- **The new-practice job** (`NewPracticesJob`). It keeps a baseline set of
  ids, takes a set difference against it and replaces the baseline after
  every completed run.
- **The document operations of db.py** (`Db.Document`, `Markdown`). These
  are id generation, filtered deletion, user registration, MarkdownV2
  escaping and numbered listings.
- **The validators of utils.py** (`Validators`) and **the admin wizards**
  (`AdminWizards`): the step machines, the delete maps and the deletion
  confirmation.

The catalog the handlers read is a value (`Catalog.Catalog`). Its `online`
flag stands for whether the document could be fetched. The texts of
language.json are a record of strings (`Texts.Texts`). Telegram calls
become an output log (`Render.Out`).

Two defects of the code (see Findings) are modelled both ways. The session
class runs the program as written: `Sessions.Session.HandleUpdate` follows
bot.py's table, which has no partners state, and the admin deletion methods
list and delete under `psychologist` and `university` when their `corrected`
argument is false. `Sessions.Session.HandleUpdateCorrected` and
`corrected := true` give the intended behaviour, and lemmas compare the two.

The model follows the code where the bot's own description differs from it:

- db.py has no read cache and no time-to-live, so none is modelled.
- The accessors the commands call (`get_practice_categories`,
  `get_practices_by_category`, `get_university_events`, `get_partners`,
  `get_start_text`) are not defined in db.py. db.py's own `get_practices`
  and the like return formatted strings, while the commands use lists of
  records. The model follows the commands: the accessors are projections of
  the `Catalog` value that fail when the catalog is offline.
- In `confirm_deletion_handler` (helpers.py), an exception raised by
  `delete_bot_info` leaves the handler before the two `pop` calls. The
  wizard keys are therefore cleared only when no exception interrupts it.
- `delete_by_id` stops with a `KeyError` on an entry of the category
  without an id. The model reports this as a database error, and nothing is
  written.
- In the university wizard, a missing `university_name` raises before the
  `try` block. Nothing is then stored and nothing is cleared.
- `/start` is recognised as `CommandHandler("start")` recognises it, from
  the command entity: any letter case, arguments after it, and an
  `@username` suffix only when it names this bot.
- Both documented `escape_markdown` examples are proved for every text of
  their shape. The pieces between reserved characters are parameters that
  hold no reserved character, so the examples are particular instances.

## Model

| member | source | states |
|---|---|---|
| Config.Code | config.py:16-17 | every state is numbered below 9, as `range(9)` numbers them |
| Config.CodeBijection | config.py:16-17 | the numbering is a bijection between the states and 0..8 |
| Routing.Fallbacks | bot.py:64 | button presses, and nothing else, match no fallback: a text goes to `start` when it is a `/start` command and to `fallback_handler` otherwise |
| Routing.StartFollowedBy | bot.py:23 | `/` then "start" in any letter case, followed by nothing or by a character that ends a command and is not '@', is a `/start` command for every bot |
| Routing.StartCommandPlain | bot.py:23 | "/start" is a `/start` command |
| Routing.StartCommandCapitals | bot.py:23 | "/START" is a `/start` command |
| Routing.StartCommandArgs | bot.py:23 | "/start " or "/start\n" followed by any arguments is a `/start` command |
| Routing.StartCommandRejects | bot.py:23 | "/started" and "start" (no slash) are not `/start` commands |
| Routing.StartCommandAddressed | bot.py:64 | "/start@name" is a `/start` command exactly when the name is the bot's username, letter case aside |
| Routing.RouteDiffersOnlyInPartners | bot.py:27-64 | the corrected table differs from the written one only in the partners state, where the written table applies only the fallbacks |
| Routing.IdleEntersByStart | bot.py:22-26 | in the table as written, with no conversation, every text message, commands included, enters by `start`, and nothing else enters |
| Routing.HomeTakesPrecedence | bot.py:29-62 | in both tables, in every state but the main menu (and, as written, the partners menu), the home label reaches `return_to_main_menu` before any other handler |
| Routing.CallbacksOnlyInCategory | bot.py:47-48 | in the table as written, button presses reach `button_handler` in the category listing and are dropped in every other state; the corrected table routes them the same way |
| Routing.OtherTextGoesBack | bot.py:38-52 | in the table as written, in the contacts menu and the category listing, any other text that is not a command goes back |
| Routing.LabelsAreText | bot.py:30-35 | the back and home labels are neither commands nor each other |
| Routing.BackReachesMenuHandler | bot.py:29-46 | in the table as written, the university and practices menus have no back regex, so the back label reaches their own handler, which goes back |
| Routing.FirstMessageStarts | commands/system.py:28-40 | through the table as written, a registered user's first message, with the catalog readable, lands in the main menu with an empty stack |
| Routing.StepAsWrittenKeepsStackOk | bot.py:21-65 | through the table as written, every update keeps the stack holding only states a handler pushes |
| Routing.StepKeepsStackOk | bot.py:21-65 | through the table with the partners state added, every update keeps the same stack invariant |
| Routing.DispatchKeepsStackOk | bot.py:27-64 | every handler of the table keeps that stack invariant |
| Routing.PartnersBackAsWritten | bot.py:27-64 | as written, the back button in the partners menu reaches `fallback_handler`: a "not understood" reply, the main menu state and an unpopped stack |
| Routing.PartnersBackCorrected | commands/partners.py:17-18 | with the partners state in the table and the main menu on top of the stack, back pops it and returns to the main menu |
| Routing.PartnersHomeCorrected | bot.py:27-64 | with the partners state in the table, home empties the stack; as written, the stack is kept |
| Navigation.PushMain | commands/practices.py:16-21 | the stack gains the main menu on top, at most once, and keeps what was below |
| Navigation.PushMainIdempotent | commands/practices.py:19-21 | pushing the main menu twice is the same as pushing it once |
| NavigationProps.MainMenuUnknownWord | commands/system.py:49-53 | an unrecognised first word stays in the main menu with an empty stack |
| NavigationProps.MainMenuWordEntersSection | commands/system.py:55-82 | each recognised word enters its own section ("Узнать" universities, "Найти" psychologists, "Практики" practices, "Контакты" contacts, "Наши" partners, "Сообщить" the report form) with the stack exactly `[MAIN_MENU]`; the outcome is that section's handler run on that stack, and "Сообщить" answers with the report prompt |
| NavigationProps.ReturnToMainMenuResets | commands/system.py:162-171 | the main menu, with the stack emptied and nothing else changed |
| NavigationProps.StartResets | commands/system.py:28-44 | the main menu exactly when registration and the start text succeed; the stack is emptied unless the conversation ends |
| NavigationProps.GoBackEmptyStack | commands/system.py:108-115 | with an empty stack: the main menu, the stack stays empty, no audio id remains |
| NavigationProps.GoBackToMainMenu | commands/system.py:117-124 | popping the main menu removes exactly the top and returns to the main menu |
| NavigationProps.GoBackToPracticeCategory | commands/system.py:131-139 | popping the category listing re-shows the remembered category, or the practices menu when none is remembered, with the audio id dropped; the replies are the deletion of the audio message, when there is one, then that listing's replies |
| NavigationProps.GoBackFromReportIssue | commands/system.py:152-156 | popping the report state, which has no branch of its own, returns to the main menu with the top removed |
| NavigationProps.GoBackForgetsAudio | commands/system.py:97-106 | a stored audio message is deleted first, and afterwards no audio id is kept unless the re-shown practice sent a new one |
| NavigationProps.FindPsychologistKeepsNoAudio | commands/psychologists.py:22-73 | with no audio id stored, the psychologist section leaves none, or only the one of a practice it re-showed |
| NavigationProps.PartnersKeepsNoAudio | commands/partners.py:11-52 | with no audio id stored, the partners section leaves none, or only the one of a practice it re-showed |
| NavigationProps.StackOkPop | commands/system.py:117-118 | popping a well-formed stack leaves a well-formed stack and yields a pushed state |
| NavigationProps.StackOkPush | commands/practices.py:71 | pushing a state a handler pushes keeps the stack well formed |
| NavigationProps.GoBackKeepsStackOk | commands/system.py:92-160 | going back keeps the stack well formed, and from a non-empty stack lands in the main menu, the practices menu or the category listing |
| NavigationProps.FindPsychologistKeepsStackOk | commands/psychologists.py:34-40 | the psychologist section keeps the stack well formed |
| NavigationProps.PartnersKeepsStackOk | commands/partners.py:23-29 | the partners section keeps the stack well formed |
| NavigationProps.UniversityMenuKeepsStackOk | commands/universities.py:46-105 | the university menu keeps the stack well formed |
| NavigationProps.PracticesMenuKeepsStackOk | commands/practices.py:48-76 | the practices menu keeps the stack well formed |
| NavigationProps.ButtonKeepsStackOk | commands/practices.py:164-231 | a button press keeps the stack well formed |
| NavigationProps.PracticeDetailKeepsStackOk | commands/practices.py:233-249 | the practice view keeps the stack well formed |
| NavigationProps.ReportIssueKeepsStackOk | commands/system.py:177-207 | the report form keeps the stack well formed |
| NavigationProps.ReportIssueForwards | commands/system.py:187-203 | a report leaves the session unchanged; with no admins it answers `send_error` and stays in the report state; otherwise each admin, in order, gets exactly one message holding the chat id and the text, then the user gets the thanks reply and the main menu |
| NavigationProps.MainMenuKeepsStackOk | commands/system.py:46-90 | the main menu leaves a well-formed stack from any stack |
| NavigationProps.PracticesPushRule | commands/practices.py:11-42 | the practices menu puts the main menu on top at most once; the stored categories change only to a non-empty list, and an empty catalog keeps them |
| NavigationProps.PracticesReentry | commands/practices.py:19-21 | entering the practices menu again does not grow the stack |
| NavigationProps.UniversitiesPushRule | commands/universities.py:11-40 | a failed fetch changes nothing; otherwise the main menu is on top once, and the snapshot is stored only for a non-empty listing |
| NavigationProps.ContactsPushRule | commands/contacts.py:11-36 | a failed fetch changes nothing; otherwise only the main menu is pushed, at most once |
| NavigationProps.FindPsychologistRule | commands/psychologists.py:28-40 | back and home are dispatched before anything else; otherwise the main menu is pushed at most once and the state is kept |
| NavigationProps.PartnersRule | commands/partners.py:17-36 | back and home are dispatched first; otherwise the main menu is pushed at most once, and an empty list shows the "no info" text |
| NavigationProps.PracticesMenuChoice | commands/practices.py:60-72 | a label not in the snapshot re-prompts with the session unchanged; a known one pushes the practices menu once and shows the category |
| NavigationProps.CategoryRemembered | commands/practices.py:91-115 | the listing keeps the stack, and the remembered category changes only to a category that has practices; when the category has practices and the catalog is readable, it becomes the remembered category, and the replies are the numbered listing with its buttons and then the navigation hint |
| NavigationProps.ChooseOpenBack | commands/practices.py:115 | choosing a category, pressing one of its practices and going back returns to the same category's listing: the same stack and remembered category, and the last two replies are the listing shown first |
| NavigationProps.UniversityChoice | commands/universities.py:58-101 | a selection in the university menu never changes the session or the state, and a name no university has shows "not found" |
| NavigationProps.ButtonOutcomes | commands/practices.py:172-220 | for a `show_practice_` callback: a malformed id or an unknown id stays in the listing without pushing; a found id pushes the listing, records the id and opens the practice |
| NavigationProps.PressingListedButtonOpensPractice | commands/practices.py:172-200 | pressing a button the listing built opens exactly that practice and keeps the remembered category |
| NavigationProps.PracticeDetailRule | commands/practices.py:238-245 | back goes back, home goes home, any other text re-prompts and stays |
| NavigationProps.ChooseThenBack | commands/practices.py:68-72 | choosing a category and then going back returns to the practices menu with the stack as before the choice |
| Sessions.Session.constructor | commands/system.py:33 | a new session is empty |
| Sessions.Session.PushMainMenu | commands/practices.py:16-21 | updates the stack in place as `PushMain` says |
| Sessions.Session.Start | commands/system.py:28-44 | updates the session in place and returns the next state and the replies exactly as `Navigation.Start` gives them; `NavigationProps.StartResets` states what they are |
| Sessions.Session.ReturnToMainMenu | commands/system.py:162-175 | updates the session in place and returns the next state and the replies exactly as `Navigation.ReturnToMainMenu` gives them; `NavigationProps.ReturnToMainMenuResets` states what they are |
| Sessions.Session.HandleUniversityInfo | commands/universities.py:11-44 | updates the session in place and returns the next state and the replies exactly as `Navigation.HandleUniversityInfo` gives them; `NavigationProps.UniversitiesPushRule` states what they are |
| Sessions.Session.UniversityMenuHandler | commands/universities.py:46-105 | updates the session in place and returns the next state and the replies exactly as `Navigation.UniversityMenuHandler` gives them; `NavigationProps.UniversityChoice` states what they are |
| Sessions.Session.HandlePractices | commands/practices.py:11-46 | updates the session in place and returns the next state and the replies exactly as `Navigation.HandlePractices` gives them; `NavigationProps.PracticesPushRule` states what they are |
| Sessions.Session.ShowPracticeCategory | commands/practices.py:78-126 | updates the session in place and returns the next state and the replies exactly as `Navigation.ShowPracticeCategory` gives them; `NavigationProps.CategoryRemembered` states what they are |
| Sessions.Session.PracticesMenuHandler | commands/practices.py:48-76 | updates the session in place and returns the next state and the replies exactly as `Navigation.PracticesMenuHandler` gives them; `NavigationProps.PracticesMenuChoice` states what they are |
| Sessions.Session.ShowPractice | commands/practices.py:145-158 | updates the session in place and returns the next state and the replies exactly as `Navigation.ShowPractice` gives them |
| Sessions.Session.ShowPracticeDetail | commands/practices.py:128-162 | updates the session in place and returns the next state and the replies exactly as `Navigation.ShowPracticeDetail` gives them |
| Sessions.Session.ButtonHandler | commands/practices.py:164-231 | updates the session in place and returns the next state and the replies exactly as `Navigation.ButtonHandler` gives them; `NavigationProps.ButtonOutcomes` states what they are |
| Sessions.Session.PracticeDetailHandler | commands/practices.py:233-249 | updates the session in place and returns the next state and the replies exactly as `Navigation.PracticeDetailHandler` gives them; `NavigationProps.PracticeDetailRule` states what they are |
| Sessions.Session.HandleContacts | commands/contacts.py:11-40 | updates the session in place and returns the next state and the replies exactly as `Navigation.HandleContacts` gives them; `NavigationProps.ContactsPushRule` states what they are |
| Sessions.Session.GoBack | commands/system.py:92-160 | updates the session in place and returns the next state and the replies exactly as `Navigation.GoBack` gives them; `NavigationProps.GoBackKeepsStackOk` states what they are |
| Sessions.Session.HandleFindPsychologist | commands/psychologists.py:22-73 | updates the session in place and returns the next state and the replies exactly as `Navigation.HandleFindPsychologist` gives them; `NavigationProps.FindPsychologistRule` states what they are |
| Sessions.Session.HandlePartners | commands/partners.py:11-52 | updates the session in place and returns the next state and the replies exactly as `Navigation.HandlePartners` gives them; `NavigationProps.PartnersRule` states what they are |
| Sessions.Session.MainMenuHandler | commands/system.py:46-90 | updates the session in place and returns the next state and the replies exactly as `Navigation.MainMenuHandler` gives them; `NavigationProps.MainMenuWordEntersSection` states what they are |
| Sessions.Session.ReportIssueHandler | commands/system.py:177-207 | updates the session in place and returns the next state and the replies exactly as `Navigation.ReportIssueHandler` gives them; `NavigationProps.ReportIssueKeepsStackOk` states what they are |
| Sessions.Session.Run | bot.py:27-64 | running the handler the table chose updates the session in place and returns the state and replies that `Routing.Dispatch` gives |
| Sessions.Session.HandleUpdate | bot.py:21-65 | one update through the table as written (no partners state) changes the session and the conversation state as `Routing.StepAsWritten` says; `Routing.StepAsWrittenKeepsStackOk` states the invariant it keeps |
| Sessions.Session.HandleUpdateCorrected | bot.py:27-64 | the same through the table with the partners state added, as `Routing.Step` says |
| Catalog.CategoriesOf | commands/practices.py:23 | the distinct categories of the practices, each once |
| Catalog.CategoriesOfFirstSeen | commands/practices.py:23 | the categories come in the order of their first practice |
| Catalog.InCategory | commands/practices.py:88 | a practice is listed exactly when it is in the catalog with that category |
| Catalog.EventsOf | commands/universities.py:90 | an event is listed exactly when it belongs to the university |
| Catalog.OfferedCategoryIsNonEmpty | commands/practices.py:23-42 | a category offered in the menu always has a practice to list |
| PracticesView.FindIndex | commands/practices.py:182-185 | the first practice with the id, or none has it |
| PracticesView.FindPractice | commands/practices.py:137-138 | a practice is found exactly when one has the id, and the one found has it |
| PracticesView.NumberedButtonsShape | commands/practices.py:98-104 | one button per practice, numbered from 1, with callback `show_practice_<id>` |
| PracticesView.PracticeButtonsShape | commands/practices.py:95-112 | the buttons in order, in rows of two, where only the last row may be shorter |
| PracticesView.ButtonCallbackRoundTrip | commands/practices.py:172-174 | the id read back from a button's callback is the practice's id |
| PracticesView.BuildCategoryListing | commands/practices.py:95-117 | the listing loop builds the listing text and the paired keyboard |
| UniversitiesView.Names | commands/universities.py:30-31 | the names of the universities, in order |
| UniversitiesView.InstagramUrl | commands/universities.py:71-76 | the Instagram prefix, then the handle without at most one leading '@' |
| UniversitiesView.LinkLineCases | commands/universities.py:81-86 | the link line for each combination of url and title, and none when both are missing |
| UniversitiesView.FindIndex | commands/universities.py:61 | the first university with the name, or none has it |
| UniversitiesView.BuildUniversityText | commands/universities.py:70-98 | the page loop builds the page; the events part appears only when there are events |
| PsychologistsView.FormatPriceUnknown | commands/psychologists.py:12-18 | a price that is not an integer, or is 0, is written as unknown |
| PsychologistsView.FormatPricePositive | commands/psychologists.py:19-20 | another price is its digits grouped by threes with spaces, then "₸" |
| PsychologistsView.ZeroPriceListedUnknown | commands/psychologists.py:56-61 | a missing or zero price is replaced before formatting and shows as unknown |
| PsychologistsView.BuildPsychologistsText | commands/psychologists.py:49-66 | the listing loop builds one block per psychologist, in order |
| PartnersView.BuildPartnersText | commands/partners.py:38-45 | the listing loop builds the title and one block per partner, with a link line only when there is a link |
| ContactsView.BuildContactsText | commands/contacts.py:29-33 | the listing loop builds the header and one block per contact with `tel:` and `mailto:` links |
| NewPracticesJob.IdsOf | commands/system.py:255 | exactly the ids that some practice has |
| NewPracticesJob.Announced | commands/system.py:263 | a practice is announced exactly when its id is among the new ids |
| NewPracticesJob.Sends | commands/system.py:280-287 | the same message and keyboard to every user, in turn |
| NewPracticesJob.FailedFetchKeepsBaseline | commands/system.py:291-292 | a failed fetch keeps the baseline and sends nothing |
| NewPracticesJob.BaselineIsCurrent | commands/system.py:290 | a completed run replaces the baseline by the fetched ids |
| NewPracticesJob.FirstRunIsSilent | commands/system.py:257-260 | an empty baseline is filled in silently |
| NewPracticesJob.AnnouncesExactlyTheNew | commands/system.py:261-287 | a message goes out exactly when the fetch succeeds, the baseline is not empty, some id is new and there are users; message i goes to user i and lists exactly the practices with new ids |
| NewPracticesJob.NoRepeatedAnnouncement | commands/system.py:261-290 | a second run over the same practices announces nothing |
| NewPracticesJob.ExampleAnnouncesFour | commands/system.py:255-290 | from baseline {1, 2, 3} and ids {1, 3, 4}, only practice 4 is announced and {1, 3, 4} is kept |
| NewPracticesJob.BuildAnnouncement | commands/system.py:265-278 | the loop builds the announcement text and the paired keyboard |
| NewPracticesJob.PracticeWatcher.constructor | config.py:20 | the baseline starts empty |
| NewPracticesJob.PracticeWatcher.CheckNewPractices | commands/system.py:250-292 | one run updates the stored baseline and sends as `Run` says |
| Render.PairsShape | commands/practices.py:95-112 | pairing keeps every item in order, in (n + 1) / 2 rows of two where only the last row may be shorter |
| Render.LabelRowsShape | commands/practices.py:32-33 | one row per label, the label followed by the suffix |
| Render.MenuKeyboardShape | commands/practices.py:30-36 | the label rows in order, then back, then home |
| Render.BuildMenuKeyboard | commands/universities.py:29-34 | the keyboard loop builds the menu keyboard |
| Strings.SplitHead | commands/system.py:49 | the text before the first separator: a prefix with no separator before its end |
| Strings.AfterLast | commands/practices.py:174 | the text after the last separator: a suffix without the separator |
| Strings.ParseIntOfIntToString | commands/practices.py:171-174 | reading back a written integer gives the integer |
| Strings.IntToStringInjective | categories/psychologist.py:87-89 | distinct integers are written differently, so the keys `str(i)` of a delete map are distinct |
| Strings.GroupDigitsShape | commands/psychologists.py:19 | removing the spaces gives back the digits, and a space stands exactly at every fourth position from the right |
| Validators.ValidTextNotEmpty | utils.py:20-22 | a valid text is never empty or all blank |
| Validators.ValidTextWeakerMinimum | utils.py:20-22 | a valid text stays valid under a smaller minimum |
| Validators.UrlNeedsKnownStart | utils.py:24-26 | a valid link starts with 'h' or '@', and `t.me/` links are refused |
| Validators.ValidPriceOfWrittenInt | utils.py:28-34 | a written integer is a valid price exactly when it is not negative |
| Validators.ValidPriceShape | utils.py:28-34 | a valid price is not empty and starts with a digit or a sign |
| Validators.HasValidFields | utils.py:40-44 | true exactly when every required key is present with a text of two or more characters, not all blank |
| Validators.PsychologistDataFields | utils.py:38-44 | a psychologist record needs name, specialty, instagram and price, each valid with minimum 2 |
| Validators.PracticeAuthorIgnored | utils.py:56-62 | a practice record's author is neither required nor checked |
| Validators.UniversityDataNeedsBoth | utils.py:47-53 | a university record needs a valid name and a valid Instagram link |
| Validators.ContactDataPhone | utils.py:65-71 | a contact record needs a valid phone |
| Db.MaxId | db.py:205 | the largest id, with a missing id counting as 0 and an empty list giving 0 |
| Db.NextId | db.py:205 | the new id is larger than every id present |
| Db.AppendNextIdKeepsUnique | db.py:205-213 | appending an entry with the new id keeps the ids unique |
| Db.KeepUnlessInfo | db.py:258 | exactly the entries that do not match the category and info; the length changes exactly when one matched |
| Db.KeepUnlessId | db.py:272 | fails exactly on an entry of the category without an id; otherwise exactly the entries without that category and id |
| Db.WithUser | db.py:293-296 | the users with the id, appended at the end only when it is new |
| Db.WithUserIdempotent | db.py:294-298 | registering twice is registering once, and a known user changes nothing |
| Db.AdminIdsOf | db.py:307 | every admin id as a number, or a failure when one is not a number |
| Db.Document.constructor | db.py:24-36 | a document with the given contents, nothing written yet |
| Db.Document.AddBotInfo | db.py:182-222 | `ValueError` exactly for an empty category or info, before any read; otherwise the new entry with the next id is appended and returned, or a database error changes nothing |
| Db.Document.DeleteBotInfo | db.py:252-264 | removes exactly the matching entries and tells whether one existed; a database error changes nothing |
| Db.Document.DeleteById | db.py:266-278 | removes exactly the entries with the category and id and says whether one existed; an entry of the category without an id, or a read or write failure, is a database error that changes nothing |
| Db.Document.AddUser | db.py:289-301 | appends the id once; a known id causes no write; a read failure, or a write failure for a new id, changes nothing |
| Db.Document.GetUsers | db.py:280-287 | the users, or `[]` when the document cannot be read |
| Db.Document.GetAdminIds | db.py:303-310 | the admin ids, or `[]` when the document cannot be read or an id is not a number |
| Db.AddedIdIsFresh | db.py:205-211 | the new entry's id differs from every existing id |
| Db.DeleteRemovesExactly | db.py:258-261 | nothing matching is left, every other entry is kept, and deleting again changes nothing |
| Db.KeepUnlessInfoIdempotent | db.py:258 | filtering twice is filtering once |
| Db.KeepUnlessInfoNoMatch | db.py:257-261 | with nothing matching, the list is kept whole |
| Db.KeepUnlessInfoAppend | db.py:258 | the filter keeps order: filtering `a + b` is filtering `a`, then `b` |
| Db.KeepUnlessIdAppend | db.py:272 | the filter by id keeps order: when neither part fails, filtering `a + b` is filtering `a`, then `b` |
| Markdown.EscapeMarkdown | db.py:57-61 | the loop over the 19 reserved characters produces the escaped text |
| Markdown.UnescapeEscape | db.py:57-61 | escaping loses nothing: removing one backslash before each reserved character gives the text back |
| Markdown.EscapedIsSafe | db.py:57-61 | in the escaped text, every reserved character has a backslash before it |
| Markdown.EscapeOne | db.py:57-60 | one character is escaped alone exactly when it is reserved |
| Markdown.EscapePlain | db.py:59-61 | a text without reserved characters is left as it is |
| Markdown.EscapeSnocPlain | db.py:59-60 | appending plain text appends it unchanged |
| Markdown.EscapeSnocSpecial | db.py:59-60 | appending a reserved character appends it after one backslash |
| Markdown.EscapePriceExample | db.py:49-50 | "Hello! Cost: $5.99" escapes to "Hello\\! Cost: \\$5\\.99", as does every text of that shape |
| Markdown.EscapeEmphasisExample | db.py:51-52 | "\*bold\* \_italic\_" escapes with a backslash before each '\*' and '\_', as does every text of that shape |
| Markdown.NonStringNotEscaped | db.py:54-55 | a value that is not a string is only converted, so a negative number keeps a bare '-' |
| Markdown.FormatAll | db.py:121-178 | one formatted entry per entry |
| Markdown.FormatAllNumbers | db.py:123-178 | entry i of the listing is entry i + 1 formatted on its own |
| Markdown.FormatEntryNumbered | db.py:135-176 | every entry of a known category, and every old-format entry, starts with its number and an escaped dot |
| Markdown.UnknownCategoryIsEmpty | db.py:124-126 | a record of an unknown category is an empty entry |
| Markdown.MissingPriceIsUnknown | db.py:144-147 | a psychologist without a price, or with price 0, null or empty, ends with the "no price" line |
| Markdown.FormatListEntries | db.py:119-180 | the loop formats every entry and joins them with blank lines |
| Markdown.FormatAllNonePrefix | db.py:121-178 | an entry that cannot be formatted makes the whole listing fail |
| AdminWizards.PsychologistStepOrder | categories/psychologist.py:24-50 | a missing step counts as name; the steps advance name, specialty, instagram, price only on valid input; a refusal changes no key; an invalid price re-prompts; an unknown step is ignored |
| AdminWizards.PsychologistFinish | categories/psychologist.py:50-75 | an entry is stored, or a key found missing, only at the price step with a valid price, and then the wizard keys and the pending action are cleared and the delete maps kept |
| AdminWizards.PsychologistStored | categories/psychologist.py:55-67 | the stored text has name, specialty, Instagram and price lines in that order |
| AdminWizards.PriceTextReadsBack | categories/psychologist.py:57-58 | a positive price reads back from "N тг."; 0 gives the "no price" text |
| AdminWizards.UniversitySteps | categories/university.py:25-51 | a name needs two or more characters and moves on to the link; a stored entry is "name\nlink" under `university_info` with the keys cleared; a refusal changes nothing |
| AdminWizards.UniversityNameReadsBack | categories/university.py:41-42 | the first line of the stored text is the name |
| AdminWizards.TextWizards | categories/practices.py:27-39 | a practice (10 or more characters) or a contact (5 or more) is stored verbatim exactly when valid; a refusal keeps the pending action |
| AdminWizards.Rows | categories/psychologist.py:80 | exactly the entries of the category |
| AdminWizards.DeleteMapLookup | categories/psychologist.py:85-91 | key `str(i)` holds the info of row i, and there are no other keys |
| AdminWizards.DeleteButtonRows | categories/university.py:62-66 | one button per row, in order, captioned by the info (for a university, the info up to the first ';') and naming key `str(i)` |
| AdminWizards.DeleteButtonNamesKey | helpers.py:12 | pressing row i's button names key `str(i)` |
| AdminWizards.Capitalize | helpers.py:16 | capitalising keeps the length |
| AdminWizards.AdminSession.constructor | categories/psychologist.py:17 | no wizard is in progress |
| AdminWizards.AdminSession.AddHandler | categories/psychologist.py:16-19 | each category marks its pending action, starts at its first step, and answers with one edited message |
| AdminWizards.AdminSession.StoreEntry | categories/psychologist.py:67-69 | `add_bot_info` followed by the success reply, or a database error |
| AdminWizards.AdminSession.ProcessPsychologistInput | categories/psychologist.py:21-75 | the wizard keys, reply and document after one message are those of `PsychologistPlan` |
| AdminWizards.AdminSession.ProcessUniversityInput | categories/university.py:22-51 | the wizard keys, reply and document after one message are those of `UniversityPlan` |
| AdminWizards.AdminSession.ProcessPracticeInput | categories/practices.py:27-39 | the wizard keys, reply and document after one message are those of `PracticePlan` |
| AdminWizards.AdminSession.ProcessContactInput | categories/contacts.py:17-29 | the wizard keys, reply and document after one message are those of `ContactPlan` |
| AdminWizards.ListedCategoryCorrection | categories/psychologist.py:80 | the category the delete handlers use as written differs from the one the wizards store under exactly for psychologists and universities |
| AdminWizards.AdminSession.DeleteHandler | categories/psychologist.py:77-96 | rows of `ListedCategory(c, corrected)`, the written `psychologist` or `university` when `corrected` is false: "nothing to delete" when there are no rows; otherwise the delete map and one button per row, then "Назад"; a read failure changes nothing |
| AdminWizards.AdminSession.ClearDeletion | helpers.py:19-20 | removes the pending-delete key and the delete map |
| AdminWizards.AdminSession.ConfirmDeletion | helpers.py:5-21 | with no info for the key, the error text; otherwise the entries of `ListedCategory(c, corrected)` (as written when `corrected` is false) with that info are deleted and the text says whether any was there; a database error raises before the keys are cleared; otherwise the keys are cleared and the menu offered again |
| AdminWizards.AddedEntryNotListedAsWritten | categories/psychologist.py:80 | as written, an added psychologist or university never appears in the delete listing |
| AdminWizards.AddedEntryIsDeletable | categories/university.py:45 | with listing under the stored category, an added entry is the last row, its key resolves to it, and deleting removes it |

## Left out

- Telegram transport (`reply_text`, `edit_message_text`, `send_audio`, `delete_message`, `query.answer`, parse modes, link previews): each becomes an entry of an output log. Send failures in the job and in reports are only logged by the bot, so every user or admin gets an entry.
- HTTP access (`fetch_db`, `update_db` and the `handle_api_errors` decorator): the document is an in-memory value with `readable` and `writable` flags. A failure is all-or-nothing, with no partial reads or writes.
- Scheduling, `heartbeat_job`, `run_polling` and async/await: each handler run and each job run is one atomic step.
- `error_handler` in commands/system.py: it sorts foreign Telegram exception classes. Exceptions are modelled as results instead.
- main.py, admin.py and web/script.js are not part of this model: they are the older router, the admin dispatch and the browser page.
- Loading language.json, env.json and the logger (language.py, config.py, logger.py): the texts are a record passed in, and the state constants are an enumeration.
- classes.py declares types only. Its shapes appear as the datatypes of `Catalog`.
- Python `int()` accepts surrounding whitespace, underscores and non-ASCII digits. `Strings.ParseInt` accepts only an optional sign and ASCII digits.
- `filters.COMMAND` is modelled as "the text starts with '/'", not by Telegram's command entities.
- Routing.IsStartCommand: Telegram's own recognition of a command entity is approximated. A command name and a username are taken to be ASCII letters, digits and '_', and letter case is compared for ASCII letters only.
- Edited messages and updates without a message reach the handlers in the bot but are not modelled; `Routing.Update` has text messages, button presses and other messages.
- JSON `null` and missing keys are modelled only where the handlers test for them (the price, the link fields, contact fields, ids). Elsewhere the record fields are plain strings.
- Float prices are not modelled; a price is missing, an integer, a string or null.
- Markdown.FormatEntry: the `str()` of a nested object (a dict or a list) is not modelled. Such an entry gives `None`, and so does the whole listing.
- AdminWizards.Capitalize: `str.capitalize` is modelled for ASCII letters only. Cyrillic and other letters are left unchanged, so only the length is stated.
- The reply after a successful `add_bot_info` can itself fail. That failure is not modelled; the entry then stays stored.
- The `validate_admin_action` check of the admin menus belongs to admin.py's dispatch and is not modelled.
- The texts of the main-menu keyboard and the labels of language.json are parameters. The routing table's own regexes use the literal labels of bot.py.

## Findings

| source | as written | input that shows it | evidently intended | confidence | as-written member | corrected member |
|---|---|---|---|---|---|---|
| bot.py:27-64 | the `states` table has no entry for `PARTNERS_MENU`, although `handle_partners` returns it and handles the back and home labels itself | in the partners menu, press the back button "Назад ↩️": only the fallbacks apply, so `fallback_handler` answers "not understood", returns `MAIN_MENU` and leaves the navigation stack unpopped | route the partners state like the psychologist section: home, back, then `handle_partners` | not executed | Routing.PartnersBackAsWritten | Routing.PartnersBackCorrected |
| categories/psychologist.py:80 | the wizards store entries under `find_psychologist` and `university_info` (categories/psychologist.py:67, categories/university.py:45), but the delete handlers list and delete under `psychologist` and `university` | add a psychologist through the wizard, then open its delete menu: the new entry is not listed, and the handler shows "Нет психологов для удаления." | list and delete under the category the wizard stores under | not executed | AdminWizards.AddedEntryNotListedAsWritten | AdminWizards.AddedEntryIsDeletable |
