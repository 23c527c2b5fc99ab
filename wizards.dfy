/**
 * The admin side of the bot (categories/ and helpers.py): the step-by-step
 * wizards that add a psychologist, a university, a practice or a contact
 * to `bot_info`, the handlers that list a category's entries for deletion
 * under `str(index)` keys, and the confirmation that resolves the pressed
 * key and deletes the entry. What the wizards keep between messages lives
 * in the admin's `user_data`, modelled by the class `AdminSession`.
 */
module AdminWizards {
  import opened Wrappers
  import opened Strings
  import opened Render
  import opened Validators
  import opened Db
  import PracticesView

  // ---------------------------------------------------------------------
  // The four admin categories
  // ---------------------------------------------------------------------

  datatype AdminCategory = Psychologists | Universities | PracticesCategory | ContactsCategory

  /** The `category` the wizard stores its entries under (categories/psychologist.py:67, categories/university.py:45). */
  function StoredCategory(c: AdminCategory): string {
    match c
    case Psychologists => "find_psychologist"
    case Universities => "university_info"
    case PracticesCategory => "practices"
    case ContactsCategory => "contacts"
  }

  /**
   * The admin's own name of the category: it appears in callback data, in
   * the `pending_delete_` key, and, as written, in the category the delete
   * handlers filter and delete by.
   */
  function Tag(c: AdminCategory): string {
    match c
    case Psychologists => "psychologist"
    case Universities => "university"
    case PracticesCategory => "practices"
    case ContactsCategory => "contacts"
  }

  /** The `user_data` key that holds the category's delete map. */
  function MapKey(c: AdminCategory): string {
    match c
    case Psychologists => "delete_psychologist"
    case Universities => "delete_universities"
    case PracticesCategory => "delete_practices"
    case ContactsCategory => "delete_contacts"
  }

  /**
   * The bot_info category the delete handlers list and delete by: as
   * written, the admin's tag; `corrected`, the category the wizard stores
   * its entries under.
   */
  function ListedCategory(c: AdminCategory, corrected: bool): string {
    if corrected then StoredCategory(c) else Tag(c)
  }

  /** The correction changes only the psychologist and university handlers. */
  lemma ListedCategoryCorrection(c: AdminCategory)
    ensures ListedCategory(c, false) == ListedCategory(c, true) <==> c != Psychologists && c != Universities
  {
  }

  // ---------------------------------------------------------------------
  // What the admin's user_data holds
  // ---------------------------------------------------------------------

  /** The wizard keys of `user_data`; `None` is a missing key. */
  datatype AdminData = AdminData(
    pendingAction: Option<string>,
    psychologistStep: Option<string>,
    psychologistName: Option<string>,
    psychologistSpecialty: Option<string>,
    psychologistInstagram: Option<string>,
    universityStep: Option<string>,
    universityName: Option<string>,
    practicesStep: Option<string>,
    deleteMaps: map<string, map<string, string>>,
    pendingDeletes: set<string>)

  /** What a wizard raises: a `ValidationError`, a `KeyError` for a missing `user_data` key, or a database error. */
  datatype WizardError = Invalid(message: string) | MissingKey(key: string) | Db(error: DbError)

  /**
   * What one message to a wizard does: nothing (an unknown step), refuse
   * the text, ask again, move on to the next question, add an entry and
   * clear the wizard's keys, or fail on a missing key.
   */
  datatype Plan =
    | Ignore
    | Reject(message: string)
    | Reprompt(prompt: string)
    | Ask(data: AdminData, prompt: string)
    | Store(category: string, info: string, data: AdminData, success: string)
    | Broken(key: string, data: AdminData)

  /** The wizard keys after the plan is carried out. */
  function After(p: Plan, d: AdminData): AdminData {
    if p.Ask? || p.Store? || p.Broken? then p.data else d
  }

  /** What the handler returns or raises, given whether the document can be read and written. */
  function Outcome(p: Plan, canWrite: bool): Result<seq<Out>, WizardError> {
    match p
    case Ignore => Ok([])
    case Reject(m) => Err(Invalid(m))
    case Reprompt(m) => Ok([Reply(m, NoKeyboard)])
    case Ask(_, m) => Ok([Reply(m, NoKeyboard)])
    case Store(_, _, _, m) => if canWrite then Ok([Reply(m, NoKeyboard)]) else Err(Db(DatabaseError))
    case Broken(k, _) => Err(MissingKey(k))
  }

  /** The `bot_info` list after the plan: one entry more when an entry is stored and the document can be written. */
  function Entries(p: Plan, es: seq<Entry>, canWrite: bool): seq<Entry> {
    if p.Store? && canWrite then es + [Entry(Some(NextId(es)), p.category, p.info)] else es
  }

  // ---------------------------------------------------------------------
  // process_psychologist_input
  // ---------------------------------------------------------------------

  const PsychologistNameError: string := "Имя и фамилия должны содержать минимум 5 символов"
  const PsychologistSpecialtyError: string := "Специализация должна содержать минимум 5 символов"
  const PsychologistUrlError: string := "Некорректная ссылка. Должна начинаться с @ или https://"
  const PsychologistPricePrompt: string := "Введите стоимость сессии (если нет цены, введите 0):"
  const PsychologistPriceRetry: string := "Пожалуйста, введите корректное число для цены:"
  const PriceUnknownText: string := "Цена не указана"

  /** The price line's text: "N тг." for a positive price, otherwise the "no price" text. */
  function PriceText(price: int): string {
    if price > 0 then IntToString(price) + " тг." else PriceUnknownText
  }

  /** The stored text of a psychologist: name, specialty, Instagram and price, one per line. */
  function PsychologistInfo(name: string, specialty: string, instagram: string, price: int): string {
    name + "\nСпециализация: " + specialty + "\nInstagram: " + instagram + "\nСтоимость: " + PriceText(price)
  }

  /** The psychologist wizard's keys and the pending action removed, as the `finally` block does. */
  function PsychologistCleared(d: AdminData): AdminData {
    d.(psychologistStep := None, psychologistName := None, psychologistSpecialty := None,
       psychologistInstagram := None, pendingAction := None)
  }

  /** One message to the psychologist wizard; a missing step counts as `name`. */
  function PsychologistPlan(d: AdminData, text: string): Plan {
    var step := d.psychologistStep.GetOr("name");
    if step == "name" then
      if !ValidateText(text, 5) then Reject(PsychologistNameError)
      else Ask(d.(psychologistName := Some(text), psychologistStep := Some("specialty")), "Введите специализацию психолога:")
    else if step == "specialty" then
      if !ValidateText(text, 5) then Reject(PsychologistSpecialtyError)
      else Ask(d.(psychologistSpecialty := Some(text), psychologistStep := Some("instagram")), "Введите Instagram психолога:")
    else if step == "instagram" then
      if !ValidateUrl(text) then Reject(PsychologistUrlError)
      else Ask(d.(psychologistInstagram := Some(text), psychologistStep := Some("price")), PsychologistPricePrompt)
    else if step == "price" then
      if !ValidatePrice(text) then Reprompt(PsychologistPriceRetry)
      else if d.psychologistName.None? then Broken("psychologist_name", PsychologistCleared(d))
      else if d.psychologistSpecialty.None? then Broken("psychologist_specialty", PsychologistCleared(d))
      else if d.psychologistInstagram.None? then Broken("psychologist_instagram", PsychologistCleared(d))
      else
        var info := PsychologistInfo(d.psychologistName.value, d.psychologistSpecialty.value,
                                     d.psychologistInstagram.value, ParseInt(text).value);
        Store("find_psychologist", info, PsychologistCleared(d), "Психолог успешно добавлен!")
    else Ignore
  }

  /** The step that follows each step of the psychologist wizard. */
  function NextPsychologistStep(step: string): string {
    if step == "name" then "specialty"
    else if step == "specialty" then "instagram"
    else "price"
  }

  /**
   * The steps go name, specialty, instagram, price, and only on valid
   * input; refused input changes nothing; a missing step is `name`.
   */
  lemma PsychologistStepOrder(d: AdminData, text: string)
    ensures var step := d.psychologistStep.GetOr("name");
      var p := PsychologistPlan(d, text);
      (step in {"name", "specialty", "instagram"} ==>
        (p.Ask? <==> (if step == "instagram" then ValidateUrl(text) else ValidateText(text, 5)))
        && (p.Ask? ==> p.data.psychologistStep == Some(NextPsychologistStep(step)))
        && (!p.Ask? ==> p.Reject? && After(p, d) == d))
      && (step == "price" ==> (p.Reprompt? <==> !ValidatePrice(text)))
      && (step !in {"name", "specialty", "instagram", "price"} ==> p == Ignore)
  {
  }

  /**
   * Only a valid price ends the wizard, and then the four wizard keys and
   * the pending action are gone, whether or not the entry could be added.
   */
  lemma PsychologistFinish(d: AdminData, text: string)
    ensures var p := PsychologistPlan(d, text);
      (p.Store? || p.Broken?) ==>
        d.psychologistStep.GetOr("name") == "price" && ValidatePrice(text)
        && After(p, d).psychologistStep.None? && After(p, d).psychologistName.None?
        && After(p, d).psychologistSpecialty.None? && After(p, d).psychologistInstagram.None?
        && After(p, d).pendingAction.None?
        && After(p, d).deleteMaps == d.deleteMaps
  {
  }

  /**
   * A stored psychologist has its four lines in order under
   * `find_psychologist`, and the price line shows the price typed in, or
   * "Цена не указана" for 0.
   */
  lemma PsychologistStored(d: AdminData, text: string)
    requires PsychologistPlan(d, text).Store?
    ensures var p := PsychologistPlan(d, text);
      p.category == "find_psychologist"
      && d.psychologistName.Some? && d.psychologistSpecialty.Some? && d.psychologistInstagram.Some?
      && ParseInt(text).Some? && ParseInt(text).value >= 0
      && p.info == d.psychologistName.value + "\nСпециализация: " + d.psychologistSpecialty.value
                   + "\nInstagram: " + d.psychologistInstagram.value + "\nСтоимость: " + PriceText(ParseInt(text).value)
  {
  }

  /** A positive price reads back from its price text; 0 has none. */
  lemma PriceTextReadsBack(price: int)
    requires price >= 0
    ensures price > 0 ==> var t := PriceText(price);
      |t| > 4 && t[|t| - 4..] == " тг." && ParseInt(t[..|t| - 4]) == Some(price)
    ensures price == 0 ==> PriceText(price) == PriceUnknownText
  {
    if price > 0 {
      var t := PriceText(price);
      assert t[..|t| - 4] == IntToString(price);
      ParseIntOfIntToString(price);
    }
  }

  // ---------------------------------------------------------------------
  // process_university_input, process_practice_input, process_contact_input
  // ---------------------------------------------------------------------

  const UniversityNameError: string := "Название университета должно содержать минимум 2 символа"
  const UniversityUrlError: string := "Некорректная ссылка. Должна начинаться с http://, https://, @ или t.me/"

  function UniversityCleared(d: AdminData): AdminData {
    d.(universityStep := None, universityName := None, pendingAction := None)
  }

  /**
   * One message to the university wizard. The name is read before the
   * `try`, so a missing name raises with nothing cleared.
   */
  function UniversityPlan(d: AdminData, text: string): Plan {
    var step := d.universityStep.GetOr("name");
    if step == "name" then
      if !ValidateText(text, 2) then Reject(UniversityNameError)
      else Ask(d.(universityName := Some(text), universityStep := Some("instagram")),
               "Теперь введите ссылку на Instagram студенческой организации:")
    else if step == "instagram" then
      if !ValidateUrl(text) then Reject(UniversityUrlError)
      else if d.universityName.None? then Broken("university_name", d)
      else
        var name := d.universityName.value;
        Store("university_info", name + "\n" + text, UniversityCleared(d), "Университет '" + name + "' успешно добавлен!")
    else Ignore
  }

  /**
   * The university wizard asks for a name of two or more characters, then a
   * link, and stores "name\nlink"; the name is read back as the first line
   * when it has no line break; the wizard keys are cleared after the attempt.
   */
  lemma UniversitySteps(d: AdminData, text: string)
    ensures var p := UniversityPlan(d, text);
      var step := d.universityStep.GetOr("name");
      (step == "name" ==> (p.Ask? <==> ValidateText(text, 2)) && (p.Ask? ==> p.data.universityStep == Some("instagram") && p.data.universityName == Some(text)))
      && ((p.Store?) ==>
            step == "instagram" && ValidateUrl(text) && p.category == "university_info"
            && d.universityName.Some? && p.info == d.universityName.value + "\n" + text
            && After(p, d).universityStep.None? && After(p, d).universityName.None? && After(p, d).pendingAction.None?)
      && (p.Reject? ==> After(p, d) == d)
  {
  }

  /** The stored university text gives back the name as its first line. */
  lemma UniversityNameReadsBack(name: string, link: string)
    requires '\n' !in name
    ensures SplitHead(name + "\n" + link, "\n") == name
  {
    var s := name + "\n" + link;
    var r := SplitHead(s, "\n");
    assert OccursAt(s, "\n", |name|) by {
      assert s[|name|..|name| + 1] == "\n";
    }
    assert |r| <= |name|;
    assert r != s;
    assert OccursAt(s, "\n", |r|);
    assert s[|r|] == '\n';
    assert s[..|name|] == name;
  }

  const PracticeTextError: string := "Текст практики должен содержать минимум 10 символов"
  const ContactTextError: string := "Контактная информация должна содержать минимум 5 символов"

  /** One message to the practice wizard: ten or more characters, not all blank, are stored verbatim. */
  function PracticePlan(d: AdminData, text: string): Plan {
    if !ValidateText(text, 10) then Reject(PracticeTextError)
    else Store("practices", text, d.(pendingAction := None, practicesStep := None), "Практика успешно добавлена!")
  }

  /** One message to the contact wizard: five or more characters, not all blank, are stored verbatim. */
  function ContactPlan(d: AdminData, text: string): Plan {
    if !ValidateText(text, 5) then Reject(ContactTextError)
    else Store("contacts", text, d.(pendingAction := None), "Контакт успешно добавлен!")
  }

  /**
   * A practice or contact is stored exactly when its text is long enough;
   * a refused text keeps the pending action; a stored one removes it.
   */
  lemma TextWizards(d: AdminData, text: string)
    ensures PracticePlan(d, text).Store? <==> ValidateText(text, 10)
    ensures ContactPlan(d, text).Store? <==> ValidateText(text, 5)
    ensures PracticePlan(d, text).Store? ==> PracticePlan(d, text).info == text && PracticePlan(d, text).category == "practices"
    ensures ContactPlan(d, text).Store? ==> ContactPlan(d, text).info == text && ContactPlan(d, text).category == "contacts"
    ensures After(PracticePlan(d, text), d).pendingAction == (if ValidateText(text, 10) then None else d.pendingAction)
    ensures After(ContactPlan(d, text), d).pendingAction == (if ValidateText(text, 5) then None else d.pendingAction)
  {
  }

  // ---------------------------------------------------------------------
  // delete_handler and confirm_deletion_handler
  // ---------------------------------------------------------------------

  /** `[entry for entry in bot_info if entry["category"] == category]` */
  function Rows(es: seq<Entry>, category: string): (r: seq<Entry>)
    ensures forall e :: e in r <==> e in es && e.category == category
    ensures |r| <= |es|
  {
    if es == [] then []
    else Rows(es[..|es| - 1], category) + (if es[|es| - 1].category == category then [es[|es| - 1]] else [])
  }

  /** The delete map: `str(index)` to the entry's info, for the rows in order. */
  function DeleteMap(rows: seq<Entry>): map<string, string> {
    if rows == [] then map[] else DeleteMap(rows[..|rows| - 1])[NatToString(|rows| - 1) := rows[|rows| - 1].info]
  }

  /** Key `str(i)` holds the info of row `i`, and there are no other keys. */
  lemma {:induction false} DeleteMapLookup(rows: seq<Entry>)
    ensures forall i :: 0 <= i < |rows| ==> NatToString(i) in DeleteMap(rows) && DeleteMap(rows)[NatToString(i)] == rows[i].info
    ensures forall k :: k in DeleteMap(rows) ==> exists i :: 0 <= i < |rows| && k == NatToString(i)
  {
    if rows != [] {
      var init := rows[..|rows| - 1];
      DeleteMapLookup(init);
      forall i | 0 <= i < |rows|
        ensures NatToString(i) in DeleteMap(rows) && DeleteMap(rows)[NatToString(i)] == rows[i].info
      {
        if i < |init| {
          IntToStringInjective(i, |init|);
          assert IntToString(i) == NatToString(i) && IntToString(|init|) == NatToString(|init|);
          assert rows[i] == init[i];
        }
      }
    }
  }

  /** The caption of a delete button: the info, or for a university the info up to the first ';'. */
  function DeleteCaption(c: AdminCategory, info: string): string {
    if c == Universities then SplitHead(info, ";") else info
  }

  /** The callback data of the delete button with key `key`. */
  function DeleteCallback(c: AdminCategory, key: string): string {
    "delete_" + Tag(c) + "_" + key
  }

  /** One button per row, in order. */
  function DeleteButtonRows(c: AdminCategory, rows: seq<Entry>): (r: seq<seq<Button>>)
    ensures |r| == |rows|
    ensures forall i :: 0 <= i < |rows| ==> r[i] == [Button(DeleteCaption(c, rows[i].info), DeleteCallback(c, NatToString(i)))]
  {
    if rows == [] then []
    else DeleteButtonRows(c, rows[..|rows| - 1]) + [[Button(DeleteCaption(c, rows[|rows| - 1].info), DeleteCallback(c, NatToString(|rows| - 1)))]]
  }

  /** One more row adds its key to the delete map and its button to the listing. */
  lemma DeleteListingStep(c: AdminCategory, rows: seq<Entry>, i: nat)
    requires i < |rows|
    ensures DeleteMap(rows[..i + 1]) == DeleteMap(rows[..i])[NatToString(i) := rows[i].info]
    ensures DeleteButtonRows(c, rows[..i + 1])
         == DeleteButtonRows(c, rows[..i]) + [[Button(DeleteCaption(c, rows[i].info), DeleteCallback(c, NatToString(i)))]]
  {
    assert rows[..i + 1][..i] == rows[..i];
  }

  /** The delete keyboard: the row buttons, then "Назад" back to the category's admin menu. */
  function DeleteKeyboard(c: AdminCategory, rows: seq<Entry>): seq<seq<Button>> {
    DeleteButtonRows(c, rows) + [[Button("Назад", "admin_category_" + Tag(c))]]
  }

  function NothingToDeleteText(c: AdminCategory): string {
    match c
    case Psychologists => "Нет психологов для удаления."
    case Universities => "Нет университетов для удаления."
    case PracticesCategory => "Нет практик для удаления."
    case ContactsCategory => "Нет контактов для удаления."
  }

  function ChooseText(c: AdminCategory): string {
    match c
    case Psychologists => "Выберите психолога для удаления:"
    case Universities => "Выберите университет для удаления:"
    case PracticesCategory => "Выберите практику для удаления:"
    case ContactsCategory => "Выберите контакт для удаления:"
  }

  /** The key a confirmation callback names: the text after its last '_'. */
  function DeletionKey(callbackData: string): string {
    AfterLast(callbackData, '_')
  }

  /** Pressing the button of row `i` names key `str(i)`. */
  lemma DeleteButtonNamesKey(c: AdminCategory, i: nat)
    ensures DeletionKey(DeleteCallback(c, NatToString(i))) == NatToString(i)
  {
    var d := NatToString(i);
    assert '_' !in d by {
      assert AllDigits(d);
    }
    PracticesView.AfterLastAppend("delete_" + Tag(c) + "_", '_', d);
  }

  /** `delete_map.get(key)` when it is truthy: the info to delete. */
  function DeletionTarget(d: AdminData, c: AdminCategory, callbackData: string): Option<string> {
    var m := if MapKey(c) in d.deleteMaps then d.deleteMaps[MapKey(c)] else map[];
    var key := DeletionKey(callbackData);
    if key in m && m[key] != "" then Some(m[key]) else None
  }

  /** `s.capitalize()` for ASCII letters: the first letter in upper case, the others in lower case. */
  function Capitalize(s: string): (r: string)
    ensures |r| == |s|
  {
    if s == [] then [] else [UpperChar(s[0])] + seq(|s| - 1, i requires 0 <= i < |s| - 1 => LowerChar(s[i + 1]))
  }

  /** The message after a successful deletion: the psychologist handler's own, or helpers.py's for the others. */
  function DeletedText(c: AdminCategory): string {
    if c == Psychologists then "Психолог удалён." else Capitalize(Tag(c)) + " удалён."
  }

  const DeletionErrorText: string := "Ошибка при удалении."
  const AnotherActionText: string := "Выберите другое действие или вернитесь:"

  /** The keys the confirmation removes, whatever the outcome, when no exception interrupts it. */
  function DeletionCleared(d: AdminData, c: AdminCategory): AdminData {
    d.(pendingDeletes := d.pendingDeletes - {"pending_delete_" + Tag(c)}, deleteMaps := d.deleteMaps - {MapKey(c)})
  }

  /** What a confirmation returns, the wizard keys after it, and the `bot_info` list after it. */
  datatype Confirmed = Confirmed(r: Result<seq<Out>, DbError>, data: AdminData, entries: seq<Entry>)

  /**
   * The confirmation of a deletion: with no info for the key, the error
   * text; otherwise the entries of the listed category (as written unless
   * `corrected`) with that info are deleted (a database
   * error raises before anything is cleared) and the text says whether any
   * was there. Either way the pending action and the map are then removed.
   */
  function Confirmation(d: AdminData, c: AdminCategory, corrected: bool, callbackData: string, menu: Keyboard,
                        es: seq<Entry>, canWrite: bool): Confirmed {
    match DeletionTarget(d, c, callbackData)
    case None => Confirmed(Ok([Edit(DeletionErrorText), Reply(AnotherActionText, menu)]), DeletionCleared(d, c), es)
    case Some(info) =>
      if !canWrite then Confirmed(Err(DatabaseError), d, es)
      else
        var text := if HasEntry(es, ListedCategory(c, corrected), info) then DeletedText(c) else DeletionErrorText;
        Confirmed(Ok([Edit(text), Reply(AnotherActionText, menu)]), DeletionCleared(d, c), KeepUnlessInfo(es, ListedCategory(c, corrected), info))
  }

  // ---------------------------------------------------------------------
  // The admin's session
  // ---------------------------------------------------------------------

  /** The admin's `user_data`, as far as the wizards use it. */
  class AdminSession {
    var pendingAction: Option<string>
    var psychologistStep: Option<string>
    var psychologistName: Option<string>
    var psychologistSpecialty: Option<string>
    var psychologistInstagram: Option<string>
    var universityStep: Option<string>
    var universityName: Option<string>
    var practicesStep: Option<string>
    var deleteMaps: map<string, map<string, string>>
    var pendingDeletes: set<string>

    function Data(): AdminData
      reads this
    {
      AdminData(pendingAction, psychologistStep, psychologistName, psychologistSpecialty, psychologistInstagram,
                universityStep, universityName, practicesStep, deleteMaps, pendingDeletes)
    }

    constructor ()
      ensures Data() == AdminData(None, None, None, None, None, None, None, None, map[], {})
    {
      pendingAction, psychologistStep, psychologistName, psychologistSpecialty, psychologistInstagram := None, None, None, None, None;
      universityStep, universityName, practicesStep := None, None, None;
      deleteMaps, pendingDeletes := map[], {};
    }

    /** The `add_handler` of each category: marks the pending action and starts the wizard at its first step. */
    method AddHandler(c: AdminCategory) returns (out: seq<Out>)
      modifies this
      ensures c == Psychologists ==> Data() == old(Data()).(pendingAction := Some("add_psychologist"), psychologistStep := Some("name"))
      ensures c == Universities ==> Data() == old(Data()).(pendingAction := Some("add_university"), universityStep := Some("name"))
      ensures c == PracticesCategory ==> Data() == old(Data()).(pendingAction := Some("add_practices"), practicesStep := Some("content"))
      ensures c == ContactsCategory ==> Data() == old(Data()).(pendingAction := Some("add_contacts"))
      ensures |out| == 1 && out[0].Edit?
    {
      match c {
        case Psychologists =>
          pendingAction := Some("add_psychologist");
          psychologistStep := Some("name");
          out := [Edit("Введите имя и фамилию психолога:")];
        case Universities =>
          pendingAction := Some("add_university");
          universityStep := Some("name");
          out := [Edit("Введите название университета:")];
        case PracticesCategory =>
          pendingAction := Some("add_practices");
          practicesStep := Some("content");
          out := [Edit("Введите текст практики.\nМожно использовать абзацы и форматирование.")];
        case ContactsCategory =>
          pendingAction := Some("add_contacts");
          out := [Edit("Введите новые данные для контакта")];
      }
    }

    /** `add_bot_info(category, info)` followed by the success reply; a database error is raised on. */
    method StoreEntry(category: string, info: string, success: string, doc: Document)
      returns (r: Result<seq<Out>, WizardError>)
      requires category != "" && info != ""
      modifies doc
      ensures r == (if old(doc.readable && doc.writable) then Ok([Reply(success, NoKeyboard)]) else Err(Db(DatabaseError)))
      ensures doc.botInfo == (if old(doc.readable && doc.writable)
                              then old(doc.botInfo) + [Entry(Some(NextId(old(doc.botInfo))), category, info)]
                              else old(doc.botInfo))
      ensures doc.users == old(doc.users) && doc.adminIds == old(doc.adminIds)
      ensures doc.readable == old(doc.readable) && doc.writable == old(doc.writable)
    {
      var added := doc.AddBotInfo(category, info);
      if added.Err? {
        return Err(Db(added.error));
      }
      return Ok([Reply(success, NoKeyboard)]);
    }

    /** `process_psychologist_input` */
    method ProcessPsychologistInput(text: string, doc: Document) returns (r: Result<seq<Out>, WizardError>)
      modifies this, doc
      ensures var p := PsychologistPlan(old(Data()), text);
        Data() == After(p, old(Data()))
        && r == Outcome(p, old(doc.readable && doc.writable))
        && doc.botInfo == Entries(p, old(doc.botInfo), old(doc.readable && doc.writable))
      ensures doc.users == old(doc.users) && doc.adminIds == old(doc.adminIds)
      ensures doc.readable == old(doc.readable) && doc.writable == old(doc.writable)
    {
      ghost var d0 := Data();
      ghost var p := PsychologistPlan(d0, text);
      var step := psychologistStep.GetOr("name");
      if step == "name" {
        if !ValidateText(text, 5) {
          return Err(Invalid(PsychologistNameError));
        }
        assert p == Ask(d0.(psychologistName := Some(text), psychologistStep := Some("specialty")), "Введите специализацию психолога:");
        psychologistName := Some(text);
        psychologistStep := Some("specialty");
        return Ok([Reply("Введите специализацию психолога:", NoKeyboard)]);
      } else if step == "specialty" {
        if !ValidateText(text, 5) {
          return Err(Invalid(PsychologistSpecialtyError));
        }
        assert p == Ask(d0.(psychologistSpecialty := Some(text), psychologistStep := Some("instagram")), "Введите Instagram психолога:");
        psychologistSpecialty := Some(text);
        psychologistStep := Some("instagram");
        return Ok([Reply("Введите Instagram психолога:", NoKeyboard)]);
      } else if step == "instagram" {
        if !ValidateUrl(text) {
          return Err(Invalid(PsychologistUrlError));
        }
        assert p == Ask(d0.(psychologistInstagram := Some(text), psychologistStep := Some("price")), PsychologistPricePrompt);
        psychologistInstagram := Some(text);
        psychologistStep := Some("price");
        return Ok([Reply(PsychologistPricePrompt, NoKeyboard)]);
      } else if step == "price" {
        if !ValidatePrice(text) {
          return Ok([Reply(PsychologistPriceRetry, NoKeyboard)]);
        }
        var name, specialty, instagram := psychologistName, psychologistSpecialty, psychologistInstagram;
        // the `finally` block: the wizard's keys go, whatever happens in the `try`
        psychologistStep, psychologistName, psychologistSpecialty, psychologistInstagram := None, None, None, None;
        pendingAction := None;
        assert Data() == PsychologistCleared(d0);
        if name.None? {
          return Err(MissingKey("psychologist_name"));
        } else if specialty.None? {
          return Err(MissingKey("psychologist_specialty"));
        } else if instagram.None? {
          return Err(MissingKey("psychologist_instagram"));
        }
        var price := ParseInt(text).value;
        var info := PsychologistInfo(name.value, specialty.value, instagram.value, price);
        assert p == Store("find_psychologist", info, PsychologistCleared(d0), "Психолог успешно добавлен!");
        r := StoreEntry("find_psychologist", info, "Психолог успешно добавлен!", doc);
      } else {
        return Ok([]);
      }
    }

    /** `process_university_input` */
    method ProcessUniversityInput(text: string, doc: Document) returns (r: Result<seq<Out>, WizardError>)
      modifies this, doc
      ensures var p := UniversityPlan(old(Data()), text);
        Data() == After(p, old(Data()))
        && r == Outcome(p, old(doc.readable && doc.writable))
        && doc.botInfo == Entries(p, old(doc.botInfo), old(doc.readable && doc.writable))
      ensures doc.users == old(doc.users) && doc.adminIds == old(doc.adminIds)
      ensures doc.readable == old(doc.readable) && doc.writable == old(doc.writable)
    {
      var step := universityStep.GetOr("name");
      if step == "name" {
        if !ValidateText(text, 2) {
          return Err(Invalid(UniversityNameError));
        }
        universityName := Some(text);
        universityStep := Some("instagram");
        return Ok([Reply("Теперь введите ссылку на Instagram студенческой организации:", NoKeyboard)]);
      } else if step == "instagram" {
        if !ValidateUrl(text) {
          return Err(Invalid(UniversityUrlError));
        }
        if universityName.None? {
          return Err(MissingKey("university_name"));
        }
        var name := universityName.value;
        var info := name + "\n" + text;
        r := StoreEntry("university_info", info, "Университет '" + name + "' успешно добавлен!", doc);
        universityStep, universityName, pendingAction := None, None, None;
      } else {
        return Ok([]);
      }
    }

    /** `process_practice_input`: the text is checked before the `try`, so a refusal keeps the pending action. */
    method ProcessPracticeInput(text: string, doc: Document) returns (r: Result<seq<Out>, WizardError>)
      modifies this, doc
      ensures var p := PracticePlan(old(Data()), text);
        Data() == After(p, old(Data()))
        && r == Outcome(p, old(doc.readable && doc.writable))
        && doc.botInfo == Entries(p, old(doc.botInfo), old(doc.readable && doc.writable))
      ensures doc.users == old(doc.users) && doc.adminIds == old(doc.adminIds)
      ensures doc.readable == old(doc.readable) && doc.writable == old(doc.writable)
    {
      if !ValidateText(text, 10) {
        return Err(Invalid(PracticeTextError));
      }
      r := StoreEntry("practices", text, "Практика успешно добавлена!", doc);
      pendingAction := None;
      practicesStep := None;
    }

    /** `process_contact_input` */
    method ProcessContactInput(text: string, doc: Document) returns (r: Result<seq<Out>, WizardError>)
      modifies this, doc
      ensures var p := ContactPlan(old(Data()), text);
        Data() == After(p, old(Data()))
        && r == Outcome(p, old(doc.readable && doc.writable))
        && doc.botInfo == Entries(p, old(doc.botInfo), old(doc.readable && doc.writable))
      ensures doc.users == old(doc.users) && doc.adminIds == old(doc.adminIds)
      ensures doc.readable == old(doc.readable) && doc.writable == old(doc.writable)
    {
      if !ValidateText(text, 5) {
        return Err(Invalid(ContactTextError));
      }
      r := StoreEntry("contacts", text, "Контакт успешно добавлен!", doc);
      pendingAction := None;
    }

    /**
     * `delete_handler` of a category: lists the entries of the listed
     * category (as written unless `corrected`) with a button each and stores
     * the map from `str(index)` to their info; with no entries it says so
     * and stores nothing.
     */
    method DeleteHandler(c: AdminCategory, corrected: bool, doc: Document) returns (r: Result<seq<Out>, DbError>)
      modifies this
      ensures !doc.readable ==> r == Err(DatabaseError) && Data() == old(Data())
      ensures doc.readable && Rows(doc.botInfo, ListedCategory(c, corrected)) == [] ==>
        r == Ok([Edit(NothingToDeleteText(c))]) && Data() == old(Data())
      ensures doc.readable && Rows(doc.botInfo, ListedCategory(c, corrected)) != [] ==>
        var rows := Rows(doc.botInfo, ListedCategory(c, corrected));
        r == Ok([EditMenu(ChooseText(c), InlineKeys(DeleteKeyboard(c, rows)))])
        && Data() == old(Data()).(deleteMaps := old(deleteMaps)[MapKey(c) := DeleteMap(rows)])
    {
      if !doc.readable {
        return Err(DatabaseError);
      }
      var rows := Rows(doc.botInfo, ListedCategory(c, corrected));
      if rows == [] {
        return Ok([Edit(NothingToDeleteText(c))]);
      }
      var buttons: seq<seq<Button>> := [];
      var deleteMap: map<string, string> := map[];
      var idx := 0;
      while idx < |rows|
        invariant 0 <= idx <= |rows|
        invariant deleteMap == DeleteMap(rows[..idx])
        invariant buttons == DeleteButtonRows(c, rows[..idx])
        modifies {}
      {
        DeleteListingStep(c, rows, idx);
        var key := NatToString(idx);
        deleteMap := deleteMap[key := rows[idx].info];
        buttons := buttons + [[Button(DeleteCaption(c, rows[idx].info), DeleteCallback(c, key))]];
        idx := idx + 1;
      }
      assert rows[..idx] == rows;
      ghost var d0 := Data();
      deleteMaps := deleteMaps[MapKey(c) := deleteMap];
      assert Data() == d0.(deleteMaps := d0.deleteMaps[MapKey(c) := DeleteMap(rows)]);
      buttons := buttons + [[Button("Назад", "admin_category_" + Tag(c))]];
      return Ok([EditMenu(ChooseText(c), InlineKeys(buttons))]);
    }

    /** `user_data.pop(f'pending_delete_{category}')` and `user_data.pop(delete_map_key)` */
    method ClearDeletion(c: AdminCategory)
      modifies this
      ensures Data() == DeletionCleared(old(Data()), c)
    {
      pendingDeletes := pendingDeletes - {"pending_delete_" + Tag(c)};
      deleteMaps := deleteMaps - {MapKey(c)};
    }

    /**
     * `confirm_deletion_handler` (and the psychologist's own copy of it):
     * deletes the entries of the listed category (as written unless
     * `corrected`) with the info the button's key names, when the map holds it;
     * then removes the pending action and the map. A database error raises
     * before that removal.
     */
    method ConfirmDeletion(c: AdminCategory, corrected: bool, callbackData: string, menu: Keyboard, doc: Document)
      returns (r: Result<seq<Out>, DbError>)
      modifies this, doc
      ensures Confirmed(r, Data(), doc.botInfo)
           == Confirmation(old(Data()), c, corrected, callbackData, menu, old(doc.botInfo), old(doc.readable && doc.writable))
      ensures doc.users == old(doc.users) && doc.adminIds == old(doc.adminIds)
      ensures doc.readable == old(doc.readable) && doc.writable == old(doc.writable)
    {
      // `info = delete_map.get(key)`, tested for truthiness
      var target := DeletionTarget(Data(), c, callbackData);
      var deleted := false;
      if target.Some? {
        var d := doc.DeleteBotInfo(ListedCategory(c, corrected), target.value);
        if d.Err? {
          return Err(d.error);
        }
        deleted := d.value;
      }
      var first := Edit(if deleted then DeletedText(c) else DeletionErrorText);
      ClearDeletion(c);
      return Ok([first, Reply(AnotherActionText, menu)]);
    }
  }

  // ---------------------------------------------------------------------
  // From adding to deleting
  // ---------------------------------------------------------------------

  /**
   * As written, the psychologist and university delete handlers list the
   * entries of `psychologist` and `university`, but the wizards store under
   * `find_psychologist` and `university_info`: an added entry never shows up
   * in the delete list.
   */
  lemma AddedEntryNotListedAsWritten(c: AdminCategory, es: seq<Entry>, id: Option<int>, info: string)
    requires c == Psychologists || c == Universities
    ensures Rows(es + [Entry(id, StoredCategory(c), info)], ListedCategory(c, false)) == Rows(es, ListedCategory(c, false))
  {
    assert (es + [Entry(id, StoredCategory(c), info)])[..|es|] == es;
  }

  /**
   * With the listed category equal to the stored one, an entry the wizard
   * adds is the last row of the delete list, its button names its key,
   * the key resolves to its info, and confirming removes it.
   */
  lemma AddedEntryIsDeletable(c: AdminCategory, es: seq<Entry>, id: Option<int>, info: string, d: AdminData)
    requires info != ""
    ensures var e := Entry(id, StoredCategory(c), info);
      var rows := Rows(es + [e], ListedCategory(c, true));
      var key := NatToString(|rows| - 1);
      var d' := d.(deleteMaps := d.deleteMaps[MapKey(c) := DeleteMap(rows)]);
      |rows| > 0 && rows[|rows| - 1] == e
      && DeletionTarget(d', c, DeleteCallback(c, key)) == Some(info)
      && e !in KeepUnlessInfo(es + [e], ListedCategory(c, true), info)
  {
    var e := Entry(id, StoredCategory(c), info);
    assert (es + [e])[..|es|] == es;
    var rows := Rows(es + [e], ListedCategory(c, true));
    DeleteMapLookup(rows);
    DeleteButtonNamesKey(c, |rows| - 1);
  }
}
