/**
 * The input checks of utils.py that the admin wizards use: text length and
 * blankness, link prefixes, prices, and the record validators of
 * `DataValidator`.
 */
module Validators {
  import opened Wrappers
  import opened Strings

  /**
   * `validate_text(text, min_length, max_length)`: the length is within the
   * bounds and the text is not made of whitespace only (so the empty text
   * never passes).
   */
  predicate ValidateText(text: string, minLength: int := 1, maxLength: int := 1000) {
    minLength <= |text| <= maxLength && !AllSpace(text)
  }

  /** A valid text is never empty, whatever the bounds. */
  lemma ValidTextNotEmpty(text: string, minLength: int, maxLength: int)
    requires ValidateText(text, minLength, maxLength)
    ensures text != [] && exists i :: 0 <= i < |text| && !IsSpace(text[i])
  {
  }

  /** A text valid under a minimum stays valid under any smaller one. */
  lemma ValidTextWeakerMinimum(text: string, minLength: int, weaker: int, maxLength: int)
    requires weaker <= minLength && ValidateText(text, minLength, maxLength)
    ensures ValidateText(text, weaker, maxLength)
  {
  }

  /** `validate_url(url)`: the text starts with `http://`, `https://` or `@`. */
  predicate ValidateUrl(url: string) {
    StartsWith(url, "http://") || StartsWith(url, "https://") || StartsWith(url, "@")
  }

  /** A link written as `t.me/...` is refused, and so is any text not starting with `h` or `@`. */
  lemma UrlNeedsKnownStart(url: string)
    requires ValidateUrl(url)
    ensures |url| > 0 && (url[0] == 'h' || url[0] == '@')
    ensures !StartsWith(url, "t.me/")
  {
  }

  /** `validate_price(price)`: the text reads as an integer that is not negative. */
  predicate ValidatePrice(price: string) {
    ParseInt(price).Some? && ParseInt(price).value >= 0
  }

  /** The written form of an integer is a valid price exactly when the integer is not negative. */
  lemma ValidPriceOfWrittenInt(n: int)
    ensures ValidatePrice(IntToString(n)) <==> n >= 0
  {
    ParseIntOfIntToString(n);
  }

  /** A valid price is not empty and starts with a digit or a sign. */
  lemma ValidPriceShape(price: string)
    requires ValidatePrice(price)
    ensures |price| > 0 && (IsDigit(price[0]) || price[0] == '+' || price[0] == '-')
  {
  }

  /**
   * The loop of each `DataValidator` method: every key of `required` is
   * present and its value passes `validate_text` with minimum length 2;
   * the first failing key ends the check.
   */
  function HasValidFields(data: map<string, string>, required: seq<string>): (ok: bool)
    ensures ok <==> forall i :: 0 <= i < |required| ==> required[i] in data && ValidateText(data[required[i]], 2)
  {
    if required == [] then true
    else if required[0] !in data || !ValidateText(data[required[0]], 2) then false
    else HasValidFields(data, required[1..])
  }

  /** `DataValidator.psychologist` */
  predicate PsychologistData(data: map<string, string>) {
    HasValidFields(data, ["name", "specialty", "instagram", "price"])
  }

  /** `DataValidator.university` */
  predicate UniversityData(data: map<string, string>) {
    HasValidFields(data, ["name", "instagram"])
  }

  /** `DataValidator.practice`: only the name and the content are checked. */
  predicate PracticeData(data: map<string, string>) {
    HasValidFields(data, ["name", "content"])
  }

  /** `DataValidator.contact` */
  predicate ContactData(data: map<string, string>) {
    HasValidFields(data, ["phone"])
  }

  /** A psychologist record passes exactly when its four fields are present and each holds two or more characters, not all blank. */
  lemma PsychologistDataFields(data: map<string, string>)
    ensures PsychologistData(data) <==>
      (forall k :: k in ["name", "specialty", "instagram", "price"] ==> k in data && ValidateText(data[k], 2))
  {
    var req := ["name", "specialty", "instagram", "price"];
    if PsychologistData(data) {
      forall k | k in req ensures k in data && ValidateText(data[k], 2) {
        var i :| 0 <= i < |req| && req[i] == k;
      }
    }
  }

  /** The author of a practice is neither required nor checked. */
  lemma PracticeAuthorIgnored(data: map<string, string>, author: string)
    ensures PracticeData(data) <==> PracticeData(data["author" := author])
    ensures PracticeData(data) <==> PracticeData(data - {"author"})
  {
    var req := ["name", "content"];
    var d1, d2 := data["author" := author], data - {"author"};
    assert forall i :: 0 <= i < |req| ==> req[i] != "author";
    assert forall i :: 0 <= i < |req| ==> (req[i] in data <==> req[i] in d1) && (req[i] in data ==> data[req[i]] == d1[req[i]]);
    assert forall i :: 0 <= i < |req| ==> (req[i] in data <==> req[i] in d2) && (req[i] in data ==> data[req[i]] == d2[req[i]]);
  }

  /** A university record needs both its name and its Instagram link. */
  lemma UniversityDataNeedsBoth(data: map<string, string>)
    ensures UniversityData(data) ==> "name" in data && "instagram" in data
    ensures UniversityData(data) <==> "name" in data && ValidateText(data["name"], 2) && "instagram" in data && ValidateText(data["instagram"], 2)
  {
    var req := ["name", "instagram"];
    assert req[0] == "name" && req[1] == "instagram";
  }

  /** A contact record passes exactly when its phone is present and passes `validate_text` with minimum 2. */
  lemma ContactDataPhone(data: map<string, string>)
    ensures ContactData(data) <==> "phone" in data && ValidateText(data["phone"], 2)
  {
    assert ["phone"][0] == "phone";
  }
}
