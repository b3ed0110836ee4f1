/** `calc_weight_if_needed` and `normalize_and_validate`: the two routines that
    rewrite a lead dictionary in place. Each is given twice: as a function of the
    old dictionary (what the routine computes) and as a method of `LeadDict`, the
    mutable dictionary, proved to compute it. The lemmas at the end state what
    the routines promise about the fields they clean. */
module Validation {
  import opened Text
  import opened Values
  import opened Fields

  /** The only countries a lead may name, as `title()` writes them. */
  const AllowedCountries: set<string> := {"Украина", "Россия", "Беларусь"}

  /** The two country keys, in the order they are checked. */
  const CountryKeys: seq<string> := ["from_country", "to_country"]

  /** Substrings that mark a forbidden document type (passports, goods, money,
      currency, valuables), matched against the lower-cased `doc_type`. */
  const BannedWords: seq<string> := ["паспорт", "passport", "товар", "деньги", "валю", "ценн"]

  /** One complaint of the validator; each names the field it cleared. */
  datatype ValidationError = BadCountry(key: string) | BadPhone | BadDocType {
    /** The key that was set to `""` together with this complaint. */
    function Field(): string {
      match this
      case BadCountry(k) => k
      case BadPhone => "phone"
      case BadDocType => "doc_type"
    }

    /** The text appended to the error list. */
    function Message(): string {
      match this
      case BadCountry(k) => k + ": недопустимая страна"
      case BadPhone => "phone: формат должен начинаться с +380 / +7 / +375"
      case BadDocType => "doc_type: недопустимый тип (паспорт/товары/ценности)"
    }
  }

  /** A dictionary together with the complaints collected while cleaning it. */
  datatype Normalized = Normalized(data: Dict, errors: seq<ValidationError>)

  // ---------------------------------------------------------------------------
  // calc_weight_if_needed

  /** `int(d.get("pages_a4") or 0)`, with 0 when `int()` raises. */
  function Pages(d: Dict): int {
    var v := Get(d, "pages_a4");
    match PyInt(if Truthy(v) then v else Int(0))
    case Returned(n) => n
    case Raised => 0
  }

  /** The weight counts as unknown when it is falsy or `int()` makes it 0. */
  predicate WeightUnknown(d: Dict) {
    var w := Get(d, "weight_grams");
    !Truthy(w) || PyInt(w) == Returned(0)
  }

  /** `calc_weight_if_needed(d)`. The condition `(not w or int(w) == 0) and
      pages > 0` calls `int(w)` on every truthy weight, whatever the page
      count, so a weight string that is not a number raises. */
  function CalcWeight(d: Dict): Outcome<Dict> {
    var pages := Pages(d);
    var w := Get(d, "weight_grams");
    var unknown: Outcome<bool> :=
      if !Truthy(w) then Returned(true)
      else match PyInt(w) case Returned(n) => Returned(n == 0) case Raised => Raised;
    match unknown
    case Raised => Raised
    case Returned(b) =>
      Returned(if b && pages > 0 then d["weight_grams" := Int((pages * 6 + 5) / 6 * 6)] else d)
  }

  /** Rounding `pages * 6` up to a multiple of 6 leaves it as it is. */
  lemma SixGramsPerPage(pages: int)
    requires pages > 0
    ensures (pages * 6 + 5) / 6 * 6 == 6 * pages
  {
    assert (pages * 6 + 5) / 6 == pages by {
      assert 6 * pages <= pages * 6 + 5 < 6 * (pages + 1);
    }
  }

  /** `calc_weight_if_needed` raises exactly on a non-empty weight string that
      `int()` rejects; otherwise it sets the weight to 6 g per page when there
      are pages and the weight is unknown, and changes nothing else. */
  lemma CalcWeightEffect(d: Dict)
    ensures CalcWeight(d).Raised? <==>
              Truthy(Get(d, "weight_grams")) && Get(d, "weight_grams").Str?
              && ParseInt(Get(d, "weight_grams").s).None?
    ensures CalcWeight(d).Returned? ==>
              CalcWeight(d).value == if Pages(d) > 0 && WeightUnknown(d)
                                     then d["weight_grams" := Int(6 * Pages(d))] else d
  {
    if Pages(d) > 0 {
      SixGramsPerPage(Pages(d));
    }
  }

  /** The page count the backfill uses: positive only when `int()` read a
      positive number from `pages_a4`, and 0 when the key is missing or falsy
      or `int()` raised on it. */
  lemma PagesEffect(d: Dict)
    ensures Pages(d) > 0 ==> PyInt(Get(d, "pages_a4")) == Returned(Pages(d))
    ensures !Truthy(Get(d, "pages_a4")) || PyInt(Get(d, "pages_a4")).Raised? ==> Pages(d) == 0
  {
  }

  /** A weight typed as a decimal fraction makes the backfill raise, even
      with a valid page count. */
  lemma DecimalWeightRaises()
    ensures CalcWeight(map["pages_a4" := Int(3), "weight_grams" := Str("12.5")]).Raised?
  {
    ParseIntRejectsExamples();
    CalcWeightEffect(map["pages_a4" := Int(3), "weight_grams" := Str("12.5")]);
  }

  // ---------------------------------------------------------------------------
  // normalize_and_validate

  /** `str(v or "").strip().title()`: the text of a country value. */
  function CountryText(v: Value): string {
    Title(Strip(AsText(v)))
  }

  /** A country is rejected when its cleaned text is non-empty and not allowed. */
  predicate CountryRejected(v: Value) {
    CountryText(v) != [] && CountryText(v) !in AllowedCountries
  }

  /** What the country loop stores for a value: its cleaned text, or `""`. */
  function CleanCountry(v: Value): Value {
    if CountryRejected(v) then Str("") else Str(CountryText(v))
  }

  /** One round of the country loop, on key `k`. */
  function CheckCountry(d: Dict, k: string): Normalized {
    var v := Get(d, k);
    Normalized(d[k := CleanCountry(v)], if CountryRejected(v) then [BadCountry(k)] else [])
  }

  /** The country loop run over the first `n` keys of `ks`, in order. */
  function CheckCountries(d: Dict, ks: seq<string>, n: nat): Normalized
    requires n <= |ks|
  {
    if n == 0 then Normalized(d, [])
    else
      var prev := CheckCountries(d, ks, n - 1);
      var last := CheckCountry(prev.data, ks[n - 1]);
      Normalized(last.data, prev.errors + last.errors)
  }

  /** `str(v or "").strip()`: the text of a phone value. */
  function PhoneText(v: Value): string {
    Strip(AsText(v))
  }

  /** The three international prefixes a phone number may start with. */
  predicate PhonePrefixOk(p: string) {
    StartsWith(p, "+380") || StartsWith(p, "+7") || StartsWith(p, "+375")
  }

  predicate PhoneRejected(v: Value) {
    PhoneText(v) != [] && !PhonePrefixOk(PhoneText(v))
  }

  /** The phone check: a rejected phone becomes `""`; an accepted one is left
      exactly as it was (not even stripped). */
  function CheckPhone(d: Dict): Normalized {
    if PhoneRejected(Get(d, "phone")) then Normalized(d["phone" := Str("")], [BadPhone])
    else Normalized(d, [])
  }

  /** `any(b in doc for b in bad_keywords)`. */
  predicate HasBannedWord(doc: string) {
    exists i :: 0 <= i < |BannedWords| && Contains(doc, BannedWords[i])
  }

  /** `str(v or "").lower()`: the text of a document-type value. */
  function DocTypeText(v: Value): string {
    Lower(AsText(v))
  }

  predicate DocTypeRejected(v: Value) {
    HasBannedWord(DocTypeText(v))
  }

  /** The document-type check. */
  function CheckDocType(d: Dict): Normalized {
    if DocTypeRejected(Get(d, "doc_type")) then Normalized(d["doc_type" := Str("")], [BadDocType])
    else Normalized(d, [])
  }

  /** `normalize_and_validate` up to, not including, the weight backfill. */
  function Checked(d: Dict): Normalized {
    var c := CheckCountries(d, CountryKeys, |CountryKeys|);
    var p := CheckPhone(c.data);
    var t := CheckDocType(p.data);
    Normalized(t.data, c.errors + p.errors + t.errors)
  }

  /** `normalize_and_validate(d)`: the cleaned dictionary and its error list, or
      `Raised` when the weight backfill raises. */
  function Normalize(d: Dict): Outcome<Normalized> {
    var c := Checked(d);
    match CalcWeight(c.data)
    case Raised => Raised
    case Returned(w) => Returned(Normalized(w, c.errors))
  }

  // ---------------------------------------------------------------------------
  // The dictionary, updated in place

  /** A Python dict that the two routines mutate. */
  class LeadDict {
    var entries: Dict

    constructor (d: Dict)
      ensures entries == d
    {
      entries := d;
    }

    /** `calc_weight_if_needed(self)`; on `raised` nothing has been changed. */
    method CalcWeightIfNeeded() returns (raised: bool)
      modifies this
      ensures raised <==> CalcWeight(old(entries)).Raised?
      ensures entries == if raised then old(entries) else CalcWeight(old(entries)).value
    {
      var pages: int;
      var p := Get(entries, "pages_a4");
      match PyInt(if Truthy(p) then p else Int(0)) {
        case Returned(n) => pages := n;
        case Raised => pages := 0;
      }
      var w := Get(entries, "weight_grams");
      var unknown: bool;
      if !Truthy(w) {
        unknown := true;
      } else {
        match PyInt(w) {
          case Raised =>
            raised := true;
            return;
          case Returned(n) =>
            unknown := n == 0;
        }
      }
      if unknown && pages > 0 {
        entries := entries["weight_grams" := Int((pages * 6 + 5) / 6 * 6)];
      }
      raised := false;
    }

    /** `normalize_and_validate(self)`, section by section. When the weight
        backfill raises, the country, phone and document-type changes already
        made stay in place. */
    method NormalizeAndValidate() returns (errors: seq<ValidationError>, raised: bool)
      modifies this
      ensures raised <==> Normalize(old(entries)).Raised?
      ensures !raised ==> Normalize(old(entries)) == Returned(Normalized(entries, errors))
      ensures raised ==> entries == Checked(old(entries)).data
    {
      var countryErrors := CheckCountriesInPlace();
      var phoneErrors := CheckPhoneInPlace();
      var docErrors := CheckDocTypeInPlace();
      errors := countryErrors + phoneErrors + docErrors;
      raised := CalcWeightIfNeeded();
    }

    /** The loop over the two country keys: each is stored stripped and
        title-cased, or as `""` with a complaint when it is not allowed. */
    method CheckCountriesInPlace() returns (errors: seq<ValidationError>)
      modifies this
      ensures Normalized(entries, errors) == CheckCountries(old(entries), CountryKeys, |CountryKeys|)
    {
      errors := [];
      for i := 0 to |CountryKeys|
        invariant Normalized(entries, errors) == CheckCountries(old(entries), CountryKeys, i)
      {
        var k := CountryKeys[i];
        var v := CountryText(Get(entries, k));
        if v != [] && v !in AllowedCountries {
          errors := errors + [BadCountry(k)];
          entries := entries[k := Str("")];
        } else {
          entries := entries[k := Str(v)];
        }
      }
    }

    /** The phone check. */
    method CheckPhoneInPlace() returns (errors: seq<ValidationError>)
      modifies this
      ensures Normalized(entries, errors) == CheckPhone(old(entries))
    {
      errors := [];
      var phone := PhoneText(Get(entries, "phone"));
      if phone != [] && !PhonePrefixOk(phone) {
        errors := [BadPhone];
        entries := entries["phone" := Str("")];
      }
    }

    /** The document-type check. */
    method CheckDocTypeInPlace() returns (errors: seq<ValidationError>)
      modifies this
      ensures Normalized(entries, errors) == CheckDocType(old(entries))
    {
      errors := [];
      var doc := DocTypeText(Get(entries, "doc_type"));
      if HasBannedWord(doc) {
        errors := [BadDocType];
        entries := entries["doc_type" := Str("")];
      }
    }
  }
}
