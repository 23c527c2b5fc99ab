/**
 * The MarkdownV2 text of db.py: `escape_markdown`, which puts a backslash
 * before each of the characters the Telegram Bot API reserves in
 * "MarkdownV2 style", and `format_list_entries`, which numbers the entries
 * of a listing and joins them with blank lines.
 */
module Markdown {
  import opened Wrappers
  import opened Strings

  /** The reserved characters, in the order `escape_markdown` replaces them. */
  const Specials: seq<char> := ['_', '*', '[', ']', '(', ')', '~', '`', '>', '#', '+', '-', '=', '|', '{', '}', '.', '!', '$']

  predicate IsSpecial(c: char) {
    c in Specials
  }

  /** `c` with a backslash before it when it is one of `marks`. */
  function EscapeCharIn(c: char, marks: seq<char>): string {
    if c in marks then ['\\', c] else [c]
  }

  /** Every character of `s` that is one of `marks` gets a backslash before it; the others stay as they are. */
  function EscapeIn(s: string, marks: seq<char>): string {
    if s == [] then [] else EscapeIn(s[..|s| - 1], marks) + EscapeCharIn(s[|s| - 1], marks)
  }

  /** MarkdownV2 escaping: a backslash before every reserved character and nothing else changed. */
  function Escape(s: string): string {
    EscapeIn(s, Specials)
  }

  /** `s.replace(c, r)` for a single character `c`. */
  function ReplaceChar(s: string, c: char, r: string): string {
    if s == [] then [] else ReplaceChar(s[..|s| - 1], c, r) + (if s[|s| - 1] == c then r else [s[|s| - 1]])
  }

  lemma {:induction false} ReplaceCharAppend(a: string, b: string, c: char, r: string)
    ensures ReplaceChar(a + b, c, r) == ReplaceChar(a, c, r) + ReplaceChar(b, c, r)
  {
    if b == [] {
      assert a + b == a;
    } else {
      var b', x := b[..|b| - 1], b[|b| - 1];
      assert a + b == (a + b') + [x];
      ReplaceCharAppend(a, b', c, r);
    }
  }

  lemma {:induction false} EscapeInAppend(a: string, b: string, marks: seq<char>)
    ensures EscapeIn(a + b, marks) == EscapeIn(a, marks) + EscapeIn(b, marks)
  {
    if b == [] {
      assert a + b == a;
    } else {
      var b', x := b[..|b| - 1], b[|b| - 1];
      assert a + b == (a + b') + [x];
      EscapeInAppend(a, b', marks);
    }
  }

  lemma {:induction false} EscapeInNothing(s: string)
    ensures EscapeIn(s, []) == s
  {
    if s != [] {
      EscapeInNothing(s[..|s| - 1]);
    }
  }

  /**
   * Replacing `c` by backslash-`c` in text already escaped for `marks` escapes
   * it for `marks + [c]`, because neither the backslash nor an escaped
   * character is `c`.
   */
  lemma {:induction false} ReplaceExtendsEscape(s: string, marks: seq<char>, c: char)
    requires c !in marks && c != '\\'
    ensures ReplaceChar(EscapeIn(s, marks), c, ['\\', c]) == EscapeIn(s, marks + [c])
  {
    if s != [] {
      var init, x := s[..|s| - 1], s[|s| - 1];
      var r := ['\\', c];
      ReplaceExtendsEscape(init, marks, c);
      ReplaceCharAppend(EscapeIn(init, marks), EscapeCharIn(x, marks), c, r);
      assert EscapeIn(s, marks + [c]) == EscapeIn(init, marks + [c]) + EscapeCharIn(x, marks + [c]);
      if x in marks {
        assert x != c;
        assert ReplaceChar(['\\', x], c, r) == ReplaceChar(['\\'], c, r) + [x] by {
          assert ['\\', x][..1] == ['\\'];
        }
        assert ReplaceChar(['\\'], c, r) == ['\\'] by {
          assert ['\\'][..0] == [];
        }
      } else {
        assert ReplaceChar([x], c, r) == (if x == c then r else [x]) by {
          assert [x][..0] == [];
        }
      }
    }
  }

  /** The reserved characters are all different. */
  lemma SpecialsDistinct(k: nat)
    requires k < |Specials|
    ensures Specials[k] !in Specials[..k]
  {
    assert forall i, j :: 0 <= i < j < |Specials| ==> Specials[i] != Specials[j];
  }

  /** One more `replace` escapes one more reserved character. */
  lemma EscapeStep(text: string, k: nat)
    requires k < |Specials|
    ensures ReplaceChar(EscapeIn(text, Specials[..k]), Specials[k], ['\\', Specials[k]]) == EscapeIn(text, Specials[..k + 1])
  {
    SpecialsDistinct(k);
    ReplaceExtendsEscape(text, Specials[..k], Specials[k]);
    assert Specials[..k + 1] == Specials[..k] + [Specials[k]];
  }

  /** `escape_markdown` on a string: one `replace` per reserved character, in order. */
  method EscapeMarkdown(text: string) returns (r: string)
    ensures r == Escape(text)
  {
    r := text;
    EscapeInNothing(text);
    var k := 0;
    while k < |Specials|
      invariant 0 <= k <= |Specials|
      invariant r == EscapeIn(text, Specials[..k])
    {
      var c := Specials[k];
      EscapeStep(text, k);
      r := ReplaceChar(r, c, ['\\', c]);
      k := k + 1;
    }
    assert Specials[..k] == Specials;
  }

  /** Reads escaped text back: a backslash before a reserved character is dropped. */
  function Unescape(s: string): string
    decreases |s|
  {
    if s == [] then []
    else if |s| >= 2 && s[0] == '\\' && IsSpecial(s[1]) then [s[1]] + Unescape(s[2..])
    else [s[0]] + Unescape(s[1..])
  }

  lemma EscapeFront(x: char, rest: string)
    ensures Escape([x] + rest) == EscapeCharIn(x, Specials) + Escape(rest)
  {
    EscapeInAppend([x], rest, Specials);
    assert EscapeIn([x], Specials) == EscapeIn([], Specials) + EscapeCharIn(x, Specials);
  }

  /** Escaped text never starts with a reserved character. */
  lemma EscapeStartsSafe(s: string)
    requires s != []
    ensures Escape(s) != [] && !IsSpecial(Escape(s)[0])
  {
    assert s == [s[0]] + s[1..];
    EscapeFront(s[0], s[1..]);
  }

  /** Unescaping gives back the original text: no two texts escape alike. */
  lemma {:induction false} UnescapeEscape(s: string)
    ensures Unescape(Escape(s)) == s
    decreases |s|
  {
    if s != [] {
      var x, rest := s[0], s[1..];
      assert s == [x] + rest;
      EscapeFront(x, rest);
      var e := Escape(rest);
      UnescapeEscape(rest);
      if IsSpecial(x) {
        assert Escape(s) == ['\\', x] + e;
        assert (['\\', x] + e)[2..] == e;
      } else {
        assert Escape(s) == [x] + e;
        assert ([x] + e)[1..] == e;
        if e != [] {
          EscapeStartsSafe(rest);
          assert ([x] + e)[1] == e[0];
        }
      }
    }
  }

  /** In escaped text every reserved character has a backslash just before it. */
  lemma {:induction false} EscapedIsSafe(s: string)
    ensures forall i :: 0 <= i < |Escape(s)| && IsSpecial(Escape(s)[i]) ==> i > 0 && Escape(s)[i - 1] == '\\'
  {
    if s != [] {
      var init, x := s[..|s| - 1], s[|s| - 1];
      EscapedIsSafe(init);
      var a, b := Escape(init), EscapeCharIn(x, Specials);
      assert Escape(s) == a + b;
      forall i | 0 <= i < |a + b| && IsSpecial((a + b)[i]) ensures i > 0 && (a + b)[i - 1] == '\\' {
        if i < |a| {
          assert (a + b)[i] == a[i] && (a + b)[i - 1] == a[i - 1];
        } else if x in Specials {
          assert b == ['\\', x];
          assert !IsSpecial('\\');
        }
      }
    }
  }

  /** Text without reserved characters is left as it is. */
  lemma {:induction false} EscapePlain(s: string)
    requires Plain(s)
    ensures Escape(s) == s
  {
    if s != [] {
      EscapePlain(s[..|s| - 1]);
    }
  }

  /** A single character escapes as `EscapeCharIn` says. */
  lemma EscapeOne(c: char)
    ensures Escape([c]) == EscapeCharIn(c, Specials)
  {
    assert [c][..0] == [];
    assert EscapeIn([c], Specials) == EscapeIn([], Specials) + EscapeCharIn(c, Specials);
  }

  /** Text that holds none of the reserved characters. */
  predicate Plain(s: string) {
    forall i :: 0 <= i < |s| ==> !IsSpecial(s[i])
  }

  /** Appending text without reserved characters appends it unchanged. */
  lemma EscapeSnocPlain(done: string, escaped: string, piece: string)
    requires Escape(done) == escaped && Plain(piece)
    ensures Escape(done + piece) == escaped + piece
  {
    EscapePlain(piece);
    EscapeInAppend(done, piece, Specials);
  }

  /** Appending a reserved character appends it with a backslash before it. */
  lemma EscapeSnocSpecial(done: string, escaped: string, c: char)
    requires Escape(done) == escaped && IsSpecial(c)
    ensures Escape(done + [c]) == escaped + ['\\', c]
  {
    assert (done + [c])[..|done|] == done;
  }

  /*
   * The two examples of the documentation of `escape_markdown`, stated for
   * every choice of the plain pieces between the reserved characters, so
   * that the result is built piece by piece and `Escape` is never unfolded
   * on a whole literal.
   */

  /** "Hello! Cost: $5.99" escapes to "Hello\\! Cost: \\$5\\.99", and so does every text of that shape. */
  lemma EscapePriceExample(hello: string, cost: string, five: string, cents: string)
    requires Plain(hello) && Plain(cost) && Plain(five) && Plain(cents)
    ensures Escape(hello + "!" + cost + "$" + five + "." + cents) == hello + "\\!" + cost + "\\$" + five + "\\." + cents
  {
    EscapeSnocPlain([], [], hello);
    assert [] + hello == hello;
    var t, e := hello, hello;
    EscapeSnocSpecial(t, e, '!');
    t, e := t + "!", e + "\\!";
    EscapeSnocPlain(t, e, cost);
    t, e := t + cost, e + cost;
    EscapeSnocSpecial(t, e, '$');
    t, e := t + "$", e + "\\$";
    EscapeSnocPlain(t, e, five);
    t, e := t + five, e + five;
    EscapeSnocSpecial(t, e, '.');
    t, e := t + ".", e + "\\.";
    EscapeSnocPlain(t, e, cents);
  }

  /** "*bold* _italic_" escapes to "\\*bold\\* \\_italic\\_", and so does every text of that shape. */
  lemma EscapeEmphasisExample(bold: string, space: string, italic: string)
    requires Plain(bold) && Plain(space) && Plain(italic)
    ensures Escape("*" + bold + "*" + space + "_" + italic + "_") == "\\*" + bold + "\\*" + space + "\\_" + italic + "\\_"
  {
    EscapeSnocSpecial([], [], '*');
    assert [] + ['*'] == "*";
    var t, e := "*", "\\*";
    EscapeSnocPlain(t, e, bold);
    t, e := t + bold, e + bold;
    EscapeSnocSpecial(t, e, '*');
    t, e := t + "*", e + "\\*";
    EscapeSnocPlain(t, e, space);
    t, e := t + space, e + space;
    EscapeSnocSpecial(t, e, '_');
    t, e := t + "_", e + "\\_";
    EscapeSnocPlain(t, e, italic);
    t, e := t + italic, e + italic;
    EscapeSnocSpecial(t, e, '_');
  }

  // ---------------------------------------------------------------------
  // format_list_entries
  // ---------------------------------------------------------------------

  /** A JSON value of an entry. */
  datatype Value = JStr(s: string) | JInt(n: int) | JBool(b: bool) | JNull | JObj(fields: map<string, Value>)

  /** Python truthiness. */
  predicate Truthy(v: Value) {
    match v
    case JStr(s) => s != ""
    case JInt(n) => n != 0
    case JBool(b) => b
    case JNull => false
    case JObj(m) => m != map[]
  }

  /** `str(v)`; the text of a nested object is not modelled (`None`). */
  function PyStr(v: Value): Option<string> {
    match v
    case JStr(s) => Some(s)
    case JInt(n) => Some(IntToString(n))
    case JBool(b) => Some(if b then "True" else "False")
    case JNull => Some("None")
    case JObj(_) => None
  }

  /** `escape_markdown(v)`: strings are escaped, anything else is only converted with `str`. */
  function EscapeValue(v: Value): Option<string> {
    if v.JStr? then Some(Escape(v.s)) else PyStr(v)
  }

  /**
   * A value that is not a string is converted and not escaped: a negative
   * number keeps its reserved '-' bare.
   */
  lemma NonStringNotEscaped(v: Value)
    requires !v.JStr?
    ensures EscapeValue(v) == PyStr(v)
    ensures v.JInt? && v.n < 0 ==> EscapeValue(v).Some? && EscapeValue(v).value[0] == '-' && IsSpecial('-')
  {
  }

  /** `d.get(key, default)` */
  function Get(d: map<string, Value>, key: string, default: Value): Value {
    if key in d then d[key] else default
  }

  /** The two texts one after the other, when both exist. */
  function Then(a: Option<string>, b: Option<string>): (r: Option<string>)
    ensures r.Some? <==> a.Some? && b.Some?
    ensures r.Some? ==> r.value == a.value + b.value
  {
    if a.Some? && b.Some? then Some(a.value + b.value) else None
  }

  /** `prefix + text` when the value is truthy, else nothing. */
  function IfTruthy(v: Value, prefix: string, suffix: string): Option<string> {
    if Truthy(v) then Then(Then(Some(prefix), EscapeValue(v)), Some(suffix)) else Some("")
  }

  /** An element of the `bot_info` list: a record, or a bare value of the old format. */
  datatype ListEntry = Record(fields: map<string, Value>) | Legacy(v: Value)

  const PriceUnknownLine: string := "\r\nСтоимость: Цена не указана"

  /** The line a psychologist's `contacts.phone` adds; a truthy `contacts` that is not an object fails. */
  function PhoneLine(contacts: Value): Option<string> {
    if !Truthy(contacts) then Some("")
    else if !contacts.JObj? then None
    else IfTruthy(Get(contacts.fields, "phone", JStr("")), "\r\nТелефон: ", "")
  }

  function PriceLine(price: Value): Option<string> {
    if Truthy(price) then
      match PyStr(price)
      case None => None
      case Some(p) => Some("\r\nСтоимость: " + Escape(p) + " тг\\.")
    else Some(PriceUnknownLine)
  }

  /** The number every entry starts with. */
  function Number(idx: nat): string {
    NatToString(idx) + "\\. "
  }

  /** The categories `format_list_entries` knows how to lay out. */
  predicate KnownCategory(category: string) {
    category == "psychologists" || category == "practices" || category == "university_info" || category == "contacts"
  }

  /** The text of entry number `idx`; `None` when it would need the text of a nested object. */
  function FormatEntry(idx: nat, e: ListEntry, category: string): Option<string> {
    match e
    case Legacy(v) =>
      (match PyStr(v)
       case None => None
       case Some(text) => Some(Number(idx) + Escape(text)))
    case Record(f) =>
      if category == "psychologists" then
        var name := Then(Then(Some(Number(idx) + "*"), EscapeValue(Get(f, "name", JStr("")))), Some("*"));
        var specialty := IfTruthy(Get(f, "specialty", JStr("")), "\r\nСпециализация: ", "");
        var instagram := IfTruthy(Get(f, "instagram", JNull), "\r\nInstagram: ", "");
        Then(Then(Then(Then(name, specialty), instagram), PhoneLine(Get(f, "contacts", JNull))), PriceLine(Get(f, "price", JNull)))
      else if category == "practices" then
        var name := Then(Then(Some(Number(idx) + "*"), EscapeValue(Get(f, "name", JStr("")))), Some("*"));
        var content := IfTruthy(Get(f, "content", JStr("")), "\r\n", "");
        var author := IfTruthy(Get(f, "author", JNull), "\r\n\r\n_Автор: ", "_");
        Then(Then(name, content), author)
      else if category == "university_info" then
        var name := Then(Some(Number(idx)), EscapeValue(Get(f, "name", JStr(""))));
        Then(name, IfTruthy(Get(f, "instagram", JStr("")), "\r\nInstagram: ", ""))
      else if category == "contacts" then
        Then(Some(Number(idx)), EscapeValue(Get(f, "phone", JStr(""))))
      else Some("")
  }

  /** The formatted entries, numbered from 1 in order; `None` when one of them fails. */
  function FormatAll(entries: seq<ListEntry>, category: string): (r: Option<seq<string>>)
    ensures r.Some? ==> |r.value| == |entries|
  {
    if entries == [] then Some([])
    else
      match FormatAll(entries[..|entries| - 1], category)
      case None => None
      case Some(init) =>
        match FormatEntry(|entries|, entries[|entries| - 1], category)
        case None => None
        case Some(last) => Some(init + [last])
  }

  /** `format_list_entries(entries, category)` */
  function FormatList(entries: seq<ListEntry>, category: string): Option<string> {
    match FormatAll(entries, category)
    case None => None
    case Some(parts) => Some(JoinWith(parts, "\n\n"))
  }

  /** Entry `i` of the listing is entry `i + 1` formatted on its own. */
  lemma {:induction false} FormatAllNumbers(entries: seq<ListEntry>, category: string)
    requires FormatAll(entries, category).Some?
    ensures forall i :: 0 <= i < |entries| ==>
      FormatEntry(i + 1, entries[i], category) == Some(FormatAll(entries, category).value[i])
  {
    if entries != [] {
      var init := entries[..|entries| - 1];
      FormatAllNumbers(init, category);
      forall i | 0 <= i < |entries| ensures FormatEntry(i + 1, entries[i], category) == Some(FormatAll(entries, category).value[i]) {
        if i < |init| {
          assert entries[i] == init[i];
        }
      }
    }
  }

  /** Every entry of a known category, and every entry in the old format, starts with its number. */
  lemma FormatEntryNumbered(idx: nat, e: ListEntry, category: string)
    requires e.Legacy? || KnownCategory(category)
    requires FormatEntry(idx, e, category).Some?
    ensures StartsWith(FormatEntry(idx, e, category).value, Number(idx))
  {
  }

  /** A record of a category the function does not know renders as an empty entry. */
  lemma UnknownCategoryIsEmpty(idx: nat, f: map<string, Value>, category: string)
    requires !KnownCategory(category)
    ensures FormatEntry(idx, Record(f), category) == Some("")
  {
  }

  /** A psychologist without a price, or with price 0, is listed with the price-unknown line last. */
  lemma MissingPriceIsUnknown(idx: nat, f: map<string, Value>)
    requires "price" !in f || f["price"] == JInt(0) || f["price"] == JNull || f["price"] == JStr("")
    requires FormatEntry(idx, Record(f), "psychologists").Some?
    ensures var text := FormatEntry(idx, Record(f), "psychologists").value;
      |text| >= |PriceUnknownLine| && text[|text| - |PriceUnknownLine|..] == PriceUnknownLine
  {
  }

  /** A listing loop: formats entry after entry, then joins them with blank lines. */
  method FormatListEntries(entries: seq<ListEntry>, category: string) returns (r: Option<string>)
    ensures r == FormatList(entries, category)
  {
    var formatted: seq<string> := [];
    var i := 0;
    while i < |entries|
      invariant 0 <= i <= |entries|
      invariant FormatAll(entries[..i], category) == Some(formatted)
    {
      assert entries[..i + 1][..i] == entries[..i];
      var entry := FormatEntry(i + 1, entries[i], category);
      if entry.None? {
        FormatAllNonePrefix(entries, i + 1, category);
        return None;
      }
      formatted := formatted + [entry.value];
      i := i + 1;
    }
    assert entries[..i] == entries;
    return Some(JoinWith(formatted, "\n\n"));
  }

  /** An entry that fails makes the whole listing fail. */
  lemma {:induction false} FormatAllNonePrefix(entries: seq<ListEntry>, k: nat, category: string)
    requires 0 < k <= |entries| && FormatAll(entries[..k], category).None?
    ensures FormatAll(entries, category).None?
    decreases |entries| - k
  {
    if k < |entries| {
      assert entries[..k + 1][..k] == entries[..k];
      FormatAllNonePrefix(entries, k + 1, category);
    } else {
      assert entries[..k] == entries;
    }
  }
}
