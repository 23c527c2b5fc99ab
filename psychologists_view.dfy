/** What the psychologist section shows: one block per psychologist, with the price written out. */
module PsychologistsView {
  import opened Wrappers
  import opened Strings
  import opened Texts
  import opened Catalog
  import UniversitiesView

  /** The sign for tenge, written after a price. */
  const Tenge: char := '₸'

  /** `int(price)`: `None` stands for the `ValueError` or `TypeError` Python raises. */
  function PriceValue(p: Price): Option<int> {
    match p
    case IntPrice(n) => Some(n)
    case TextPrice(s) => ParseInt(s)
    case NoPrice => None
    case NullPrice => None
  }

  /** `format_price`: the price grouped by thousands with spaces and followed by the tenge sign, or the "unknown" text. */
  function FormatPrice(t: Texts, p: Price): string {
    match PriceValue(p)
    case None => t.psychologists.priceUnknown
    case Some(n) => if n == 0 then t.psychologists.priceUnknown else ThousandsSeparated(n) + [Tenge]
  }

  /** A price that cannot be read as an integer, or reads as 0, is written as unknown. */
  lemma FormatPriceUnknown(t: Texts, p: Price)
    requires PriceValue(p).None? || PriceValue(p) == Some(0)
    ensures FormatPrice(t, p) == t.psychologists.priceUnknown
  {
  }

  /**
   * A positive price is written as its digits, in groups of three separated
   * by spaces, followed by the tenge sign; removing the spaces gives back
   * the decimal digits of the price.
   */
  lemma FormatPricePositive(t: Texts, p: Price, n: int)
    requires PriceValue(p) == Some(n) && n > 0
    ensures var r := FormatPrice(t, p);
      |r| > 0 && r[|r| - 1] == Tenge
      && Without(r[..|r| - 1], ' ') == IntToString(n)
      && SpacedByFours(r[..|r| - 1])
  {
    var r := FormatPrice(t, p);
    assert r == GroupDigits(NatToString(n)) + [Tenge];
    assert r[..|r| - 1] == GroupDigits(NatToString(n));
    assert ' ' !in NatToString(n) by {
      assert AllDigits(NatToString(n));
    }
    GroupDigitsShape(NatToString(n));
  }

  /**
   * The listing first replaces a missing price or a price of 0 by the
   * "unknown" text (`psychologist.get("price", 0) == 0`).
   */
  function NormalizePrice(t: Texts, p: Price): Price {
    if p == NoPrice || p == IntPrice(0) then TextPrice(t.psychologists.priceUnknown) else p
  }

  /**
   * A missing or zero price is listed as unknown, as long as the "unknown"
   * text does not itself read as a non-zero number.
   */
  lemma ZeroPriceListedUnknown(t: Texts, p: Price)
    requires p == NoPrice || p == IntPrice(0)
    requires ParseInt(t.psychologists.priceUnknown).None? || ParseInt(t.psychologists.priceUnknown) == Some(0)
    ensures FormatPrice(t, NormalizePrice(t, p)) == t.psychologists.priceUnknown
  {
  }

  function PsychologistBlock(t: Texts, p: Psychologist): string {
    "<strong>" + p.name + t.psychologists.titleSuffix + "</strong>\r\n"
    + Fill(t.psychologists.specialty, p.specialty) + "\r\n"
    + Fill(t.psychologists.price, FormatPrice(t, NormalizePrice(t, p.price))) + "\r\n"
    + Fill(t.psychologists.phone, "<a href=\"tel:" + p.phone + "\">" + p.phone + "</a>") + "\r\n"
    + "<a href='" + UniversitiesView.InstagramUrl(p.instagram) + "'>Instagram 📱</a>\n\n"
  }

  /** The listing of `ps`: their blocks in order. */
  function PsychologistsText(t: Texts, ps: seq<Psychologist>): string {
    if ps == [] then "" else PsychologistsText(t, ps[..|ps| - 1]) + PsychologistBlock(t, ps[|ps| - 1])
  }

  /** One more psychologist appends its block to the listing so far. */
  lemma PsychologistsStep(t: Texts, ps: seq<Psychologist>, i: nat)
    requires i < |ps|
    ensures PsychologistsText(t, ps[..i + 1]) == PsychologistsText(t, ps[..i]) + PsychologistBlock(t, ps[i])
  {
    assert ps[..i + 1][..i] == ps[..i];
  }

  /** The loop of the psychologist listing. */
  method BuildPsychologistsText(t: Texts, ps: seq<Psychologist>) returns (text: string)
    ensures text == PsychologistsText(t, ps)
  {
    text := "";
    var i := 0;
    while i < |ps|
      invariant 0 <= i <= |ps|
      invariant text == PsychologistsText(t, ps[..i])
    {
      PsychologistsStep(t, ps, i);
      text := text + PsychologistBlock(t, ps[i]);
      i := i + 1;
    }
    assert ps[..i] == ps;
  }
}
