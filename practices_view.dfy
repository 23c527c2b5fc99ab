/**
 * What the practices section shows: the category menu, the numbered listing
 * of a category with its inline buttons, and the text of one practice.
 */
module PracticesView {
  import opened Wrappers
  import opened Strings
  import opened Texts
  import opened Catalog
  import opened Render

  /** The callback data of a practice button starts with this. */
  const CallbackPrefix: string := "show_practice_"

  /** A practice id as an f-string prints it: the number, or `None` when the id is absent. */
  function IdText(id: Option<int>): string {
    match id
    case Some(n) => IntToString(n)
    case None => "None"
  }

  /** The button of the `index`-th practice of a listing (counting from 1). */
  function PracticeButton(index: nat, p: Practice): Button {
    Button(NatToString(index), CallbackPrefix + IdText(p.id))
  }

  /** The buttons of a listing, numbered from 1. */
  function NumberedButtons(ps: seq<Practice>): seq<Button> {
    if ps == [] then [] else NumberedButtons(ps[..|ps| - 1]) + [PracticeButton(|ps|, ps[|ps| - 1])]
  }

  /** The inline keyboard of a listing: its buttons in rows of two. */
  function PracticeButtons(ps: seq<Practice>): seq<seq<Button>> {
    Pairs(NumberedButtons(ps))
  }

  /** One entry of a listing: its number, the name in bold, and the description line when there is one. */
  function PracticeEntry(index: nat, p: Practice): string {
    NatToString(index) + ". <strong>" + p.name + "</strong>\n" + (if p.description != "" then p.description + "\n" else "")
  }

  /** The listing of the practices `ps` of `category`. */
  function CategoryListing(t: Texts, category: string, ps: seq<Practice>): string {
    Fill(t.practices.categoryHeader, category) + ConcatNumbered(ps, PracticeEntry) + t.practices.selectPractice
  }

  /** The text of one practice: bold name with the category suffix, the content, and the author line when there is an author. */
  function DetailText(t: Texts, p: Practice): string {
    "<strong>" + p.name + t.practices.categorySuffix + "</strong>\n\n" + p.content
    + (if p.author != "" then "\n\n" + Fill(t.practices.author, p.author) else "")
  }

  /** The position of the first practice of `ps` whose id is `id`. */
  function FindIndex(ps: seq<Practice>, id: int): (r: Option<nat>)
    ensures r.Some? ==> r.value < |ps| && ps[r.value].id == Some(id)
    ensures r.Some? ==> forall j :: 0 <= j < r.value ==> ps[j].id != Some(id)
    ensures r.None? ==> forall j :: 0 <= j < |ps| ==> ps[j].id != Some(id)
  {
    if ps == [] then None
    else if ps[0].id == Some(id) then Some(0)
    else
      match FindIndex(ps[1..], id)
      case Some(k) => Some(k + 1)
      case None => None
  }

  /** `next((p for p in ps if p.get("id") == id), None)` */
  function FindPractice(ps: seq<Practice>, id: int): (r: Option<Practice>)
    ensures r.Some? <==> exists j :: 0 <= j < |ps| && ps[j].id == Some(id)
    ensures r.Some? ==> r.value in ps && r.value.id == Some(id)
  {
    match FindIndex(ps, id)
    case Some(k) => Some(ps[k])
    case None => None
  }

  lemma {:induction false} NumberedButtonsShape(ps: seq<Practice>)
    ensures |NumberedButtons(ps)| == |ps|
    ensures forall i :: 0 <= i < |ps| ==> NumberedButtons(ps)[i] == PracticeButton(i + 1, ps[i])
  {
    if ps != [] {
      NumberedButtonsShape(ps[..|ps| - 1]);
    }
  }

  /**
   * The `i`-th button (from 0) is labelled `i + 1` and carries the id of the
   * `i`-th practice; the buttons come two to a row, only the last row may
   * hold one.
   */
  lemma PracticeButtonsShape(ps: seq<Practice>)
    ensures Flatten(PracticeButtons(ps)) == NumberedButtons(ps)
    ensures |NumberedButtons(ps)| == |ps|
    ensures forall i :: 0 <= i < |ps| ==>
      NumberedButtons(ps)[i].caption == NatToString(i + 1)
      && NumberedButtons(ps)[i].callback == CallbackPrefix + IdText(ps[i].id)
    ensures forall r :: 0 <= r < |PracticeButtons(ps)| - 1 ==> |PracticeButtons(ps)[r]| == 2
    ensures PracticeButtons(ps) != [] ==> 1 <= |PracticeButtons(ps)[|PracticeButtons(ps)| - 1]| <= 2
  {
    NumberedButtonsShape(ps);
    PairsShape(NumberedButtons(ps));
  }

  lemma {:induction false} AfterLastAppend(s: string, c: char, d: string)
    requires |s| > 0 && s[|s| - 1] == c && c !in d
    ensures AfterLast(s + d, c) == d
  {
    if d == [] {
      assert s + d == s;
    } else {
      AfterLastAppend(s, c, d[..|d| - 1]);
      assert (s + d)[..|s + d| - 1] == s + d[..|d| - 1];
    }
  }

  /**
   * A button of a listing leads back to its practice: the text after the
   * last `_` of its callback data reads back as the practice id.
   */
  lemma ButtonCallbackRoundTrip(index: nat, p: Practice)
    requires p.id.Some?
    ensures StartsWith(PracticeButton(index, p).callback, CallbackPrefix)
    ensures ParseInt(AfterLast(PracticeButton(index, p).callback, '_')) == Some(p.id.value)
  {
    var d := IntToString(p.id.value);
    assert '_' !in d by {
      if p.id.value < 0 {
        assert d == "-" + NatToString(-p.id.value);
        assert forall k :: 1 <= k < |d| ==> IsDigit(d[k]);
      } else {
        assert AllDigits(d);
      }
    }
    AfterLastAppend(CallbackPrefix, '_', d);
    ParseIntOfIntToString(p.id.value);
    assert PracticeButton(index, p).callback[..|CallbackPrefix|] == CallbackPrefix;
  }

  lemma ListingStep(header: string, ps: seq<Practice>, i: nat)
    requires i < |ps|
    ensures header + ConcatNumbered(ps[..i + 1], PracticeEntry)
         == (header + ConcatNumbered(ps[..i], PracticeEntry)) + PracticeEntry(i + 1, ps[i])
  {
    assert ps[..i + 1][..i] == ps[..i];
  }

  /**
   * The loop of the category listing: it appends one entry per practice to
   * the text and one button per practice to the current row, moving the row
   * into the keyboard when it holds two buttons.
   */
  method BuildCategoryListing(t: Texts, category: string, ps: seq<Practice>)
    returns (text: string, rows: seq<seq<Button>>)
    ensures text == CategoryListing(t, category, ps)
    ensures rows == PracticeButtons(ps)
  {
    NumberedButtonsShape(ps);
    ghost var all := NumberedButtons(ps);
    var header := Fill(t.practices.categoryHeader, category);
    text := header;
    rows := [];
    var row: seq<Button> := [];
    var i := 0;
    while i < |ps|
      invariant 0 <= i <= |ps|
      invariant text == header + ConcatNumbered(ps[..i], PracticeEntry)
      invariant RowsSoFar(all, i, row, rows)
    {
      ListingStep(header, ps, i);
      text := text + PracticeEntry(i + 1, ps[i]);
      assert all[i] == PracticeButton(i + 1, ps[i]);
      RowsStep(all, i, row, rows);
      row := row + [PracticeButton(i + 1, ps[i])];
      if |row| == 2 {
        rows := rows + [row];
        row := [];
      }
      i := i + 1;
    }
    assert ps[..i] == ps;
    RowsFinish(all, row, rows);
    if row != [] {
      rows := rows + [row];
    }
    text := text + t.practices.selectPractice;
  }
}
