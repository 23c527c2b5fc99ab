/** What the partners section shows: the title and one block per partner. */
module PartnersView {
  import opened Texts
  import opened Catalog

  /** Name and description, then the link line when the partner has a link, otherwise an empty line. */
  function PartnerBlock(t: Texts, p: Partner): string {
    "<strong>" + p.name + "</strong>\n" + p.description + "\n"
    + (if p.link != "" then "<a href='" + p.link + "'>" + t.partners.visitLink + "</a>\n\n" else "\n")
  }

  function PartnerBlocks(t: Texts, ps: seq<Partner>): string {
    if ps == [] then "" else PartnerBlocks(t, ps[..|ps| - 1]) + PartnerBlock(t, ps[|ps| - 1])
  }

  function PartnersText(t: Texts, ps: seq<Partner>): string {
    t.partners.title + PartnerBlocks(t, ps)
  }

  /** One more partner appends its block to the listing so far. */
  lemma PartnersStep(t: Texts, ps: seq<Partner>, i: nat)
    requires i < |ps|
    ensures t.partners.title + PartnerBlocks(t, ps[..i + 1])
         == (t.partners.title + PartnerBlocks(t, ps[..i])) + PartnerBlock(t, ps[i])
  {
    assert ps[..i + 1][..i] == ps[..i];
  }

  /** The loop of the partner listing. */
  method BuildPartnersText(t: Texts, ps: seq<Partner>) returns (text: string)
    ensures text == PartnersText(t, ps)
  {
    text := t.partners.title;
    var i := 0;
    while i < |ps|
      invariant 0 <= i <= |ps|
      invariant text == t.partners.title + PartnerBlocks(t, ps[..i])
    {
      PartnersStep(t, ps, i);
      text := text + PartnerBlock(t, ps[i]);
      i := i + 1;
    }
    assert ps[..i] == ps;
  }
}
