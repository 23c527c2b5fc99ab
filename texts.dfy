/**
 * The language table (`language.json`, read into `textjson`) as a typed
 * record. Its strings are not part of the repository, so every message is a
 * field here; a message with one `{placeholder}` is a `Template`.
 */
module Texts {

  /** A message with one placeholder: `before{x}after`. */
  datatype Template = Template(before: string, after: string)

  /** `template.format(x=value)` */
  function Fill(t: Template, value: string): string {
    t.before + value + t.after
  }

  /** A message with two placeholders: `a{x}b{y}c`. */
  datatype Template2 = Template2(a: string, b: string, c: string)

  function Fill2(t: Template2, x: string, y: string): string {
    t.a + x + t.b + y + t.c
  }

  datatype CommonTexts = CommonTexts(
    backButton: string,
    mainMenuButton: string,
    selectOption: string,
    errorGeneric: string,
    goToMainMenu: string,
    unknownState: string,
    fallback: string,
    navigationHint: string)

  datatype ReportTexts = ReportTexts(
    prompt: string,
    sendError: string,
    thanks: string,
    adminMessage: Template2)

  datatype PracticeTexts = PracticeTexts(
    noInfo: string,
    categorySuffix: string,
    selectCategory: string,
    noPractices: Template,
    categoryHeader: Template,
    selectPractice: string,
    practiceNotFound: string,
    author: Template,
    practiceError: string,
    newPractices: string)

  datatype UniversityTexts = UniversityTexts(
    noInfo: string,
    universitySuffix: string,
    selectPrompt: string,
    notFound: string,
    visitWebsite: string,
    eventsHeader: string,
    eventDate: Template,
    eventDescription: Template,
    eventLink: string)

  datatype PsychologistTexts = PsychologistTexts(
    noInfo: string,
    titleSuffix: string,
    specialty: Template,
    price: Template,
    priceUnknown: string,
    phone: Template)

  datatype PartnerTexts = PartnerTexts(noInfo: string, title: string, visitLink: string)

  datatype ContactTexts = ContactTexts(noInfo: string, header: string, phone: Template, email: Template)

  datatype Texts = Texts(
    common: CommonTexts,
    report: ReportTexts,
    practices: PracticeTexts,
    universities: UniversityTexts,
    psychologists: PsychologistTexts,
    partners: PartnerTexts,
    contacts: ContactTexts)
}
