/**
 * What the university section shows: the menu of universities and the page
 * of one university with its link line, its Instagram link and its events.
 */
module UniversitiesView {
  import opened Wrappers
  import opened Strings
  import opened Texts
  import opened Catalog
  import opened Render

  const InstagramPrefix: string := "https://instagram.com/"

  /** The names of `us`, in order. */
  function Names(us: seq<University>): (r: seq<string>)
    ensures |r| == |us| && forall i :: 0 <= i < |us| ==> r[i] == us[i].name
  {
    if us == [] then [] else Names(us[..|us| - 1]) + [us[|us| - 1].name]
  }

  /** The menu of universities: one row per university (name and suffix), then back, then home. */
  function UniversityKeyboard(t: Texts, us: seq<University>): seq<seq<string>> {
    MenuKeyboard(Names(us), t.universities.universitySuffix, t.common.backButton, t.common.mainMenuButton)
  }

  /**
   * The Instagram address of a handle: the handle without one leading `@`,
   * after the Instagram prefix.
   */
  function InstagramUrl(handle: string): (r: string)
    ensures StartsWith(r, InstagramPrefix)
    ensures StartsWith(handle, "@") ==> r[|InstagramPrefix|..] == handle[1..]
    ensures !StartsWith(handle, "@") ==> r[|InstagramPrefix|..] == handle
  {
    InstagramPrefix + (if StartsWith(handle, "@") then handle[1..] else handle)
  }

  /** A field Python treats as true: present, not null and not empty. */
  predicate Truthy(o: Option<string>) {
    o.Some? && o.value != ""
  }

  function Anchor(href: string, caption: string): string {
    "<a href='" + href + "'>" + caption + "</a>\n\n"
  }

  /** The link line of a university page, chosen by which of the link's url and title are set. */
  function LinkLine(t: Texts, link: Link, instagram: string): string {
    if Truthy(link.url) && Truthy(link.title) then Anchor(link.url.value, link.title.value)
    else if Truthy(link.title) && !Truthy(link.url) then Anchor(instagram, link.title.value)
    else if Truthy(link.url) && !Truthy(link.title) then Anchor(link.url.value, t.universities.visitWebsite)
    else ""
  }

  /**
   * The four cases of the link line: the link's own url and title; the
   * title pointing at Instagram; the url under the "visit website" caption;
   * and no line at all.
   */
  lemma LinkLineCases(t: Texts, link: Link, instagram: string)
    ensures Truthy(link.url) && Truthy(link.title) ==> LinkLine(t, link, instagram) == Anchor(link.url.value, link.title.value)
    ensures !Truthy(link.url) && Truthy(link.title) ==> LinkLine(t, link, instagram) == Anchor(instagram, link.title.value)
    ensures Truthy(link.url) && !Truthy(link.title) ==> LinkLine(t, link, instagram) == Anchor(link.url.value, t.universities.visitWebsite)
    ensures LinkLine(t, link, instagram) == "" <==> !Truthy(link.url) && !Truthy(link.title)
  {
  }

  function EventBlock(t: Texts, e: Event): string {
    "<strong>" + e.title + "</strong>\n"
    + Fill(t.universities.eventDate, e.date) + "\n"
    + Fill(t.universities.eventDescription, e.description) + "\n"
    + "<a href='" + e.link + "'>" + t.universities.eventLink + "</a>\n\n"
  }

  /** The blocks of `es`, in order. */
  function EventBlocks(t: Texts, es: seq<Event>): string {
    if es == [] then "" else EventBlocks(t, es[..|es| - 1]) + EventBlock(t, es[|es| - 1])
  }

  /** The top of a university page: bold name, description, link line and Instagram link. */
  function PageHead(t: Texts, u: University): string {
    var instagram := InstagramUrl(u.instagram);
    "<strong>" + u.name + t.universities.universitySuffix + "</strong>\r\n\r\n"
    + u.description + "\r\n\r\n"
    + LinkLine(t, u.link, instagram)
    + "<a href='" + instagram + "'>Instagram 📱</a>\n\n"
  }

  /** The page of university `u` with its events `es`; the events part appears only when there are events. */
  function UniversityText(t: Texts, u: University, es: seq<Event>): string {
    PageHead(t, u) + (if es == [] then "" else t.universities.eventsHeader + EventBlocks(t, es))
  }

  /** The position of the first university of `us` named `name`. */
  function FindIndex(us: seq<University>, name: string): (r: Option<nat>)
    ensures r.Some? ==> r.value < |us| && us[r.value].name == name
    ensures r.Some? ==> forall j :: 0 <= j < r.value ==> us[j].name != name
    ensures r.None? ==> forall j :: 0 <= j < |us| ==> us[j].name != name
  {
    if us == [] then None
    else if us[0].name == name then Some(0)
    else
      match FindIndex(us[1..], name)
      case Some(k) => Some(k + 1)
      case None => None
  }

  /** `next((u for u in us if u.get("name") == name), None)` */
  function FindUniversity(us: seq<University>, name: string): Option<University> {
    match FindIndex(us, name)
    case Some(k) => Some(us[k])
    case None => None
  }

  /** One more event appends its block to the page so far. */
  lemma EventsStep(t: Texts, head: string, es: seq<Event>, i: nat)
    requires i < |es|
    ensures head + EventBlocks(t, es[..i + 1]) == (head + EventBlocks(t, es[..i])) + EventBlock(t, es[i])
  {
    assert es[..i + 1][..i] == es[..i];
  }

  /** The page of a university, with the loop over its events. */
  method BuildUniversityText(t: Texts, u: University, es: seq<Event>) returns (text: string)
    ensures text == UniversityText(t, u, es)
  {
    text := PageHead(t, u);
    if es != [] {
      var head := text + t.universities.eventsHeader;
      text := head;
      var i := 0;
      while i < |es|
        invariant 0 <= i <= |es|
        invariant text == head + EventBlocks(t, es[..i])
      {
        EventsStep(t, head, es, i);
        text := text + EventBlock(t, es[i]);
        i := i + 1;
      }
      assert es[..i] == es;
    }
    assert es == [] ==> text == UniversityText(t, u, es);
  }
}
