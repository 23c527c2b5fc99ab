/** What the contacts section shows: the header and one block per contact. */
module ContactsView {
  import opened Wrappers
  import opened Texts
  import opened Catalog

  /** A contact field as an f-string prints `contact.get(key)`: its text, or `None` when absent. */
  function FieldText(o: Option<string>): string {
    match o
    case Some(s) => s
    case None => "None"
  }

  /** Name, a `tel:` link and a `mailto:` link. */
  function ContactBlock(t: Texts, c: Contact): string {
    var phone := FieldText(c.phone);
    var email := FieldText(c.email);
    "<strong>" + c.name + "</strong>\r\n"
    + Fill(t.contacts.phone, "<a href=\"tel:" + phone + "\">" + phone + "</a>") + "\r\n"
    + Fill(t.contacts.email, "<a href=\"mailto:" + email + "\">" + email + "</a>") + "\n\n"
  }

  function ContactBlocks(t: Texts, cs: seq<Contact>): string {
    if cs == [] then "" else ContactBlocks(t, cs[..|cs| - 1]) + ContactBlock(t, cs[|cs| - 1])
  }

  function ContactsText(t: Texts, cs: seq<Contact>): string {
    t.contacts.header + ContactBlocks(t, cs)
  }

  /** One more contact appends its block to the listing so far. */
  lemma ContactsStep(t: Texts, cs: seq<Contact>, i: nat)
    requires i < |cs|
    ensures t.contacts.header + ContactBlocks(t, cs[..i + 1])
         == (t.contacts.header + ContactBlocks(t, cs[..i])) + ContactBlock(t, cs[i])
  {
    assert cs[..i + 1][..i] == cs[..i];
  }

  /** The loop of the contact listing. */
  method BuildContactsText(t: Texts, cs: seq<Contact>) returns (text: string)
    ensures text == ContactsText(t, cs)
  {
    text := t.contacts.header;
    var i := 0;
    while i < |cs|
      invariant 0 <= i <= |cs|
      invariant text == t.contacts.header + ContactBlocks(t, cs[..i])
    {
      ContactsStep(t, cs, i);
      text := text + ContactBlock(t, cs[i]);
      i := i + 1;
    }
    assert cs[..i] == cs;
  }
}
