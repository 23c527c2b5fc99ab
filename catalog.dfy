/**
 * The content the menus show, as the command modules read it: universities
 * with their events, psychologists, practices, contacts, partners and the
 * greeting. `online` is false when the remote document cannot be read; every
 * accessor then fails (returns `None`), which is the exception the handlers
 * catch.
 *
 * A text field that the source reads with `.get(key, '')` is the empty
 * string when absent.
 */
module Catalog {
  import opened Wrappers

  datatype Link = Link(title: Option<string>, url: Option<string>)

  datatype University = University(id: int, name: string, instagram: string, description: string, link: Link)

  datatype Event = Event(universityId: int, title: string, date: string, description: string, link: string)

  /** The `price` field of a psychologist: missing, an integer, a string, or JSON null. */
  datatype Price = NoPrice | IntPrice(n: int) | TextPrice(s: string) | NullPrice

  datatype Psychologist = Psychologist(name: string, specialty: string, instagram: string, phone: string, price: Price)

  /** `audioUrl` is the empty string when the practice has no `audio.url`. */
  datatype Practice = Practice(
    id: Option<int>,
    name: string,
    category: string,
    content: string,
    author: string,
    description: string,
    audioUrl: string)

  datatype Contact = Contact(name: string, phone: Option<string>, email: Option<string>)

  datatype Partner = Partner(name: string, description: string, link: string)

  datatype Catalog = Catalog(
    online: bool,
    startText: string,
    practices: seq<Practice>,
    universities: seq<University>,
    events: seq<Event>,
    psychologists: seq<Psychologist>,
    contacts: seq<Contact>,
    partners: seq<Partner>)

  /** Some practice of `ps` belongs to category `x`. */
  predicate HasCategory(ps: seq<Practice>, x: string) {
    exists k :: 0 <= k < |ps| && ps[k].category == x
  }

  lemma HasCategorySnoc(ps: seq<Practice>)
    requires ps != []
    ensures forall x :: HasCategory(ps, x) <==> HasCategory(ps[..|ps| - 1], x) || x == ps[|ps| - 1].category
  {
    forall x | HasCategory(ps, x) && x != ps[|ps| - 1].category ensures HasCategory(ps[..|ps| - 1], x) {
      var k :| 0 <= k < |ps| && ps[k].category == x;
      assert ps[..|ps| - 1][k] == ps[k];
    }
    forall x | HasCategory(ps[..|ps| - 1], x) ensures HasCategory(ps, x) {
      var k :| 0 <= k < |ps| - 1 && ps[..|ps| - 1][k].category == x;
      assert ps[k].category == x;
    }
  }

  /** The distinct `category` values of `ps`, each once, in order of first appearance. */
  function CategoriesOf(ps: seq<Practice>): (r: seq<string>)
    ensures forall i, j :: 0 <= i < j < |r| ==> r[i] != r[j]
    ensures forall x :: x in r <==> HasCategory(ps, x)
  {
    if ps == [] then []
    else
      var prev := CategoriesOf(ps[..|ps| - 1]);
      var c := ps[|ps| - 1].category;
      HasCategorySnoc(ps);
      if c in prev then prev else prev + [c]
  }

  /** A category comes before another exactly when its first practice does. */
  lemma {:induction false} CategoriesOfFirstSeen(ps: seq<Practice>, i: nat, j: nat)
    requires i < j < |CategoriesOf(ps)|
    ensures exists a :: 0 <= a < |ps| && ps[a].category == CategoriesOf(ps)[i] &&
                        (forall b :: 0 <= b <= a ==> ps[b].category != CategoriesOf(ps)[j])
  {
    var prev := CategoriesOf(ps[..|ps| - 1]);
    var c := ps[|ps| - 1].category;
    var r := CategoriesOf(ps);
    if j < |prev| {
      assert r[i] == prev[i] && r[j] == prev[j];
      var init := ps[..|ps| - 1];
      CategoriesOfFirstSeen(init, i, j);
      var a :| 0 <= a < |init| && init[a].category == prev[i] &&
               (forall b :: 0 <= b <= a ==> init[b].category != prev[j]);
      assert ps[a].category == r[i];
      forall b | 0 <= b <= a ensures ps[b].category != r[j] {
        assert ps[b] == init[b];
      }
    } else {
      assert r == prev + [c] && j == |prev| && r[j] == c && c !in prev;
      assert r[i] == prev[i] && prev[i] in prev;
      var a :| 0 <= a < |ps| - 1 && ps[..|ps| - 1][a].category == prev[i];
      assert ps[a].category == r[i];
      forall b | 0 <= b <= a ensures ps[b].category != r[j] {
        assert ps[b] == ps[..|ps| - 1][b];
        assert ps[b].category in prev;
      }
    }
  }

  /** The practices of `ps` whose category is `name`, in order. */
  function InCategory(ps: seq<Practice>, name: string): (r: seq<Practice>)
    ensures |r| <= |ps|
    ensures forall p :: p in r <==> p in ps && p.category == name
  {
    if ps == [] then []
    else InCategory(ps[..|ps| - 1], name) + (if ps[|ps| - 1].category == name then [ps[|ps| - 1]] else [])
  }

  /** The events of `es` that belong to university `id`, in order. */
  function EventsOf(es: seq<Event>, id: int): (r: seq<Event>)
    ensures forall e :: e in r <==> e in es && e.universityId == id
  {
    if es == [] then []
    else EventsOf(es[..|es| - 1], id) + (if es[|es| - 1].universityId == id then [es[|es| - 1]] else [])
  }

  // Accessors (`db.get_...`). Each one reads the whole document; `None` is a failed read.

  function StartText(c: Catalog): Option<string> {
    if c.online then Some(c.startText) else None
  }

  function Practices(c: Catalog): Option<seq<Practice>> {
    if c.online then Some(c.practices) else None
  }

  function PracticeCategories(c: Catalog): Option<seq<string>> {
    if c.online then Some(CategoriesOf(c.practices)) else None
  }

  function PracticesByCategory(c: Catalog, name: string): Option<seq<Practice>> {
    if c.online then Some(InCategory(c.practices, name)) else None
  }

  function Universities(c: Catalog): Option<seq<University>> {
    if c.online then Some(c.universities) else None
  }

  function UniversityEvents(c: Catalog, id: int): Option<seq<Event>> {
    if c.online then Some(EventsOf(c.events, id)) else None
  }

  function Psychologists(c: Catalog): Option<seq<Psychologist>> {
    if c.online then Some(c.psychologists) else None
  }

  function Contacts(c: Catalog): Option<seq<Contact>> {
    if c.online then Some(c.contacts) else None
  }

  function Partners(c: Catalog): Option<seq<Partner>> {
    if c.online then Some(c.partners) else None
  }

  /** A category offered in the practices menu always has at least one practice. */
  lemma OfferedCategoryIsNonEmpty(c: Catalog, name: string)
    requires c.online && name in CategoriesOf(c.practices)
    ensures PracticesByCategory(c, name).Some? && |PracticesByCategory(c, name).value| > 0
  {
    var k :| 0 <= k < |c.practices| && c.practices[k].category == name;
    assert c.practices[k] in c.practices;
    assert c.practices[k] in InCategory(c.practices, name);
  }
}
