/** What `normalize_and_validate` promises about a lead dictionary: which
    fields it may clear, that every complaint matches exactly one cleared
    required field, how the weight is filled in, and that cleaning twice
    changes nothing more. */
module ValidationFacts {
  import opened Text
  import opened Values
  import opened Fields
  import opened Validation

  /** The complaint the country loop makes about the value `v` under `k`, if any. */
  function CountryComplaint(v: Value, k: string): seq<ValidationError> {
    if CountryRejected(v) then [BadCountry(k)] else []
  }

  /** The dictionary the three field checks leave behind, key by key. */
  function CheckedData(d: Dict): Dict {
    var d1 := d["from_country" := CleanCountry(Get(d, "from_country"))]
               ["to_country" := CleanCountry(Get(d, "to_country"))];
    var d2 := if PhoneRejected(Get(d, "phone")) then d1["phone" := Str("")] else d1;
    if DocTypeRejected(Get(d, "doc_type")) then d2["doc_type" := Str("")] else d2
  }

  /** The complaints of the four checks, given which of them rejected, in the
      order the checks run. */
  function Complaints(fromBad: bool, toBad: bool, phoneBad: bool, docBad: bool): seq<ValidationError> {
    (if fromBad then [BadCountry("from_country")] else [])
    + (if toBad then [BadCountry("to_country")] else [])
    + (if phoneBad then [BadPhone] else [])
    + (if docBad then [BadDocType] else [])
  }

  /** The error list `normalize_and_validate` returns, in the order it is built. */
  function ExpectedErrors(d: Dict): seq<ValidationError> {
    Complaints(CountryRejected(Get(d, "from_country")), CountryRejected(Get(d, "to_country")),
               PhoneRejected(Get(d, "phone")), DocTypeRejected(Get(d, "doc_type")))
  }

  /** The keys `normalize_and_validate` may rewrite. */
  predicate Cleaned(k: string) {
    k == "from_country" || k == "to_country" || k == "phone" || k == "doc_type" || k == "weight_grams"
  }

  /** The weight `int()` cannot read: a non-empty string that is not a number. */
  predicate WeightUnreadable(d: Dict) {
    var w := Get(d, "weight_grams");
    Truthy(w) && w.Str? && ParseInt(w.s).None?
  }

  /** Updating one key leaves every other key's value as it was. */
  lemma GetUpdated(m: Dict, k: string, v: Value, j: string)
    requires j != k
    ensures j in m[k := v] <==> j in m
    ensures Get(m[k := v], j) == Get(m, j)
  {
  }

  /** The first round of the country loop. */
  lemma FirstCountry(d: Dict)
    ensures CheckCountries(d, CountryKeys, 1)
            == Normalized(d["from_country" := CleanCountry(Get(d, "from_country"))],
                          CountryComplaint(Get(d, "from_country"), "from_country"))
  {
    assert CountryKeys[0] == "from_country";
    assert [] + CountryComplaint(Get(d, "from_country"), "from_country")
           == CountryComplaint(Get(d, "from_country"), "from_country");
  }

  /** The country loop, key by key: the two countries are rewritten, each from
      the value the caller passed in, and every other key is left alone. */
  lemma CountriesEffect(d: Dict)
    ensures CheckCountries(d, CountryKeys, |CountryKeys|)
            == Normalized(d["from_country" := CleanCountry(Get(d, "from_country"))]
                           ["to_country" := CleanCountry(Get(d, "to_country"))],
                          CountryComplaint(Get(d, "from_country"), "from_country")
                          + CountryComplaint(Get(d, "to_country"), "to_country"))
  {
    FirstCountry(d);
    var d1 := d["from_country" := CleanCountry(Get(d, "from_country"))];
    assert CountryKeys[1] == "to_country";
    assert Get(d1, "to_country") == Get(d, "to_country");
  }

  /** The phone check on a dictionary whose phone is `v`. */
  lemma PhoneStep(c: Dict, v: Value)
    requires Get(c, "phone") == v
    ensures CheckPhone(c) == Normalized(if PhoneRejected(v) then c["phone" := Str("")] else c,
                                        if PhoneRejected(v) then [BadPhone] else [])
  {
  }

  /** The document-type check on a dictionary whose document type is `v`. */
  lemma DocTypeStep(c: Dict, v: Value)
    requires Get(c, "doc_type") == v
    ensures CheckDocType(c) == Normalized(if DocTypeRejected(v) then c["doc_type" := Str("")] else c,
                                          if DocTypeRejected(v) then [BadDocType] else [])
  {
  }

  /** `Checked` in closed form: the four checks touch only their own keys, and
      each sees the value the caller passed in. */
  lemma CheckedEffect(d: Dict)
    ensures Checked(d) == Normalized(CheckedData(d), ExpectedErrors(d))
  {
    var d1 := d["from_country" := CleanCountry(Get(d, "from_country"))]
               ["to_country" := CleanCountry(Get(d, "to_country"))];
    var d2 := if PhoneRejected(Get(d, "phone")) then d1["phone" := Str("")] else d1;
    GetUpdated(d, "from_country", CleanCountry(Get(d, "from_country")), "phone");
    GetUpdated(d["from_country" := CleanCountry(Get(d, "from_country"))], "to_country",
               CleanCountry(Get(d, "to_country")), "phone");
    GetUpdated(d, "from_country", CleanCountry(Get(d, "from_country")), "doc_type");
    GetUpdated(d["from_country" := CleanCountry(Get(d, "from_country"))], "to_country",
               CleanCountry(Get(d, "to_country")), "doc_type");
    GetUpdated(d1, "phone", Str(""), "doc_type");
    PhoneStep(d1, Get(d, "phone"));
    DocTypeStep(d2, Get(d, "doc_type"));
    CountriesEffect(d);
  }

  /** The weight backfill as seen from the caller's dictionary `d`, applied to
      the already cleaned dictionary `e`. */
  function Backfilled(d: Dict, e: Dict): Dict {
    if Pages(d) > 0 && WeightUnknown(d) then e["weight_grams" := Int(6 * Pages(d))] else e
  }

  /** The three field checks leave every key they do not own as it was, the
      page count and the weight in particular. */
  lemma CheckedDataKeeps(d: Dict, j: string)
    requires j != "from_country" && j != "to_country" && j != "phone" && j != "doc_type"
    ensures j in CheckedData(d) <==> j in d
    ensures Get(CheckedData(d), j) == Get(d, j)
  {
    var d0 := d["from_country" := CleanCountry(Get(d, "from_country"))];
    var d1 := d0["to_country" := CleanCountry(Get(d, "to_country"))];
    var d2 := if PhoneRejected(Get(d, "phone")) then d1["phone" := Str("")] else d1;
    GetUpdated(d, "from_country", CleanCountry(Get(d, "from_country")), j);
    GetUpdated(d0, "to_country", CleanCountry(Get(d, "to_country")), j);
    GetUpdated(d1, "phone", Str(""), j);
    GetUpdated(d2, "doc_type", Str(""), j);
  }

  /** The weight backfill reads the page count and the weight the caller
      passed in. */
  lemma CheckedKeepsWeightInputs(d: Dict)
    ensures Pages(CheckedData(d)) == Pages(d)
    ensures Get(CheckedData(d), "weight_grams") == Get(d, "weight_grams")
    ensures WeightUnknown(CheckedData(d)) == WeightUnknown(d)
  {
    CheckedDataKeeps(d, "pages_a4");
    CheckedDataKeeps(d, "weight_grams");
  }

  /** `normalize_and_validate` in closed form: it raises exactly when the weight
      is a non-empty string that is not a number, and otherwise returns the
      cleaned dictionary, with the weight backfilled, and the complaints in the
      order the checks make them. */
  lemma NormalizeClosed(d: Dict)
    ensures Normalize(d).Raised? <==> WeightUnreadable(d)
    ensures Normalize(d).Returned? ==>
              Normalize(d).value == Normalized(Backfilled(d, CheckedData(d)), ExpectedErrors(d))
  {
    CheckedEffect(d);
    CheckedKeepsWeightInputs(d);
    CalcWeightEffect(CheckedData(d));
  }

  /** With a readable weight, `normalize_and_validate` returns. */
  lemma NormalizeReturns(d: Dict)
    requires !WeightUnreadable(d)
    ensures Normalize(d).Returned?
  {
    NormalizeClosed(d);
  }

  /** With a readable weight, the error list is the expected one. */
  lemma NormalizeErrorList(d: Dict)
    requires !WeightUnreadable(d)
    ensures Normalize(d).Returned? && Normalize(d).value.errors == ExpectedErrors(d)
  {
    NormalizeClosed(d);
  }

  /** The backfill changes no key but the weight. */
  lemma BackfilledKeeps(d: Dict, e: Dict, j: string)
    requires j != "weight_grams"
    ensures j in Backfilled(d, e) <==> j in e
    ensures Get(Backfilled(d, e), j) == Get(e, j)
  {
    GetUpdated(e, "weight_grams", Int(6 * Pages(d)), j);
  }

  /** After the country loop each country key holds its cleaned value. */
  lemma CountriesData(d: Dict, k: string)
    requires k == "from_country" || k == "to_country"
    ensures var d1 := d["from_country" := CleanCountry(Get(d, "from_country"))]
                       ["to_country" := CleanCountry(Get(d, "to_country"))];
            k in d1 && Get(d1, k) == CleanCountry(Get(d, k))
  {
    if k == "from_country" {
      GetUpdated(d["from_country" := CleanCountry(Get(d, "from_country"))], "to_country",
                 CleanCountry(Get(d, "to_country")), k);
    }
  }

  /** The phone and document-type checks, whether or not they clear their
      field, keep every other key. */
  lemma LaterChecksKeep(d1: Dict, phoneCleared: bool, docCleared: bool, k: string)
    requires k != "phone" && k != "doc_type"
    ensures var d2 := if phoneCleared then d1["phone" := Str("")] else d1;
            var d3 := if docCleared then d2["doc_type" := Str("")] else d2;
            (k in d3 <==> k in d1) && Get(d3, k) == Get(d1, k)
  {
    var d2 := if phoneCleared then d1["phone" := Str("")] else d1;
    GetUpdated(d1, "phone", Str(""), k);
    GetUpdated(d2, "doc_type", Str(""), k);
  }

  /** Each country key is present after the checks and holds its cleaned value. */
  lemma CheckedDataCountry(d: Dict, k: string)
    requires k == "from_country" || k == "to_country"
    ensures k in CheckedData(d) && Get(CheckedData(d), k) == CleanCountry(Get(d, k))
  {
    var d1 := d["from_country" := CleanCountry(Get(d, "from_country"))]
               ["to_country" := CleanCountry(Get(d, "to_country"))];
    CountriesData(d, k);
    LaterChecksKeep(d1, PhoneRejected(Get(d, "phone")), DocTypeRejected(Get(d, "doc_type")), k);
  }

  /** After the checks the phone is `""` when it was rejected and untouched otherwise. */
  lemma CheckedDataPhone(d: Dict)
    ensures Get(CheckedData(d), "phone") == if PhoneRejected(Get(d, "phone")) then Str("") else Get(d, "phone")
  {
    var d0 := d["from_country" := CleanCountry(Get(d, "from_country"))];
    var d1 := d0["to_country" := CleanCountry(Get(d, "to_country"))];
    var d2 := if PhoneRejected(Get(d, "phone")) then d1["phone" := Str("")] else d1;
    GetUpdated(d, "from_country", CleanCountry(Get(d, "from_country")), "phone");
    GetUpdated(d0, "to_country", CleanCountry(Get(d, "to_country")), "phone");
    GetUpdated(d2, "doc_type", Str(""), "phone");
  }

  /** After the checks the document type is `""` when it was rejected and
      untouched otherwise. */
  lemma CheckedDataDocType(d: Dict)
    ensures Get(CheckedData(d), "doc_type") == if DocTypeRejected(Get(d, "doc_type")) then Str("") else Get(d, "doc_type")
  {
    var d0 := d["from_country" := CleanCountry(Get(d, "from_country"))];
    var d1 := d0["to_country" := CleanCountry(Get(d, "to_country"))];
    GetUpdated(d, "from_country", CleanCountry(Get(d, "from_country")), "doc_type");
    GetUpdated(d0, "to_country", CleanCountry(Get(d, "to_country")), "doc_type");
    GetUpdated(d1, "phone", Str(""), "doc_type");
  }

  /** `normalize_and_validate` raises exactly when the weight is a non-empty
      string that is not a number; otherwise the weight becomes 6 g per page
      when there are pages and the weight is unknown, and is kept otherwise. */
  lemma NormalizeWeight(d: Dict)
    ensures Normalize(d).Raised? <==> WeightUnreadable(d)
    ensures Normalize(d).Returned? ==>
              Get(Normalize(d).value.data, "weight_grams")
              == if Pages(d) > 0 && WeightUnknown(d) then Int(6 * Pages(d)) else Get(d, "weight_grams")
    ensures Normalize(d).Returned? ==>
              Get(Normalize(d).value.data, "pages_a4") == Get(d, "pages_a4")
  {
    NormalizeClosed(d);
    CheckedDataKeeps(d, "weight_grams");
    CheckedDataKeeps(d, "pages_a4");
    BackfilledKeeps(d, CheckedData(d), "pages_a4");
  }

  /** Every key outside the five it cleans leaves `normalize_and_validate`
      exactly as it came in, present or absent. */
  lemma NormalizeKeepsOtherKeys(d: Dict, k: string)
    requires !WeightUnreadable(d) && !Cleaned(k)
    ensures Normalize(d).Returned?
    ensures k in Normalize(d).value.data <==> k in d
    ensures Get(Normalize(d).value.data, k) == Get(d, k)
  {
    NormalizeClosed(d);
    CheckedDataKeeps(d, k);
    BackfilledKeeps(d, CheckedData(d), k);
  }

  /** Outside the weight, the returned dictionary is the checked one. */
  lemma NormalizedAt(d: Dict, k: string)
    requires !WeightUnreadable(d) && k != "weight_grams"
    ensures Normalize(d).Returned?
    ensures k in Normalize(d).value.data <==> k in CheckedData(d)
    ensures Get(Normalize(d).value.data, k) == Get(CheckedData(d), k)
  {
    NormalizeClosed(d);
    BackfilledKeeps(d, CheckedData(d), k);
  }

  /** The country loop stores either `""` or one of the allowed countries. */
  lemma CleanCountryAllowed(v: Value)
    ensures CleanCountry(v) == Str("") || CleanCountry(v).s in AllowedCountries
  {
  }

  /** A complaint is in the list exactly when its check rejected; nothing
      else is in it, so it has at most one entry per check. */
  lemma ComplaintsMembers(fromBad: bool, toBad: bool, phoneBad: bool, docBad: bool)
    ensures var es := Complaints(fromBad, toBad, phoneBad, docBad);
            && (BadCountry("from_country") in es <==> fromBad)
            && (BadCountry("to_country") in es <==> toBad)
            && (BadPhone in es <==> phoneBad)
            && (BadDocType in es <==> docBad)
            && |es| <= 4
            && (forall k :: BadCountry(k) in es ==> k == "from_country" || k == "to_country")
  {
    assert "from_country" != "to_country";
  }

  /** Which complaints `normalize_and_validate` makes, in terms of the caller's values. */
  lemma ErrorsMembers(d: Dict)
    ensures BadCountry("from_country") in ExpectedErrors(d) <==> CountryRejected(Get(d, "from_country"))
    ensures BadCountry("to_country") in ExpectedErrors(d) <==> CountryRejected(Get(d, "to_country"))
    ensures BadPhone in ExpectedErrors(d) <==> PhoneRejected(Get(d, "phone"))
    ensures BadDocType in ExpectedErrors(d) <==> DocTypeRejected(Get(d, "doc_type"))
    ensures |ExpectedErrors(d)| <= 4
    ensures forall k :: BadCountry(k) in ExpectedErrors(d) ==> k == "from_country" || k == "to_country"
  {
    ComplaintsMembers(CountryRejected(Get(d, "from_country")), CountryRejected(Get(d, "to_country")),
                      PhoneRejected(Get(d, "phone")), DocTypeRejected(Get(d, "doc_type")));
  }

  /** Each country key ends up present and either `""` or one of the three
      allowed countries; a non-empty value outside them is cleared, and it is
      complained about exactly when it was cleared for that reason. */
  lemma NormalizeCountry(d: Dict, k: string)
    requires !WeightUnreadable(d)
    requires k == "from_country" || k == "to_country"
    ensures Normalize(d).Returned?
    ensures var n := Normalize(d).value;
            && k in n.data
            && n.data[k] == CleanCountry(Get(d, k))
            && (n.data[k] == Str("") || n.data[k].s in AllowedCountries)
            && (BadCountry(k) in n.errors <==> CountryRejected(Get(d, k)))
  {
    NormalizedAt(d, k);
    CheckedDataCountry(d, k);
    CleanCountryAllowed(Get(d, k));
    NormalizeClosed(d);
    ErrorsMembers(d);
  }

  /** The phone is cleared, with a complaint, when its stripped text is
      non-empty and starts with none of +380, +7, +375; otherwise it is kept
      unchanged, so a kept phone is blank after stripping or well prefixed. */
  lemma NormalizePhone(d: Dict)
    requires !WeightUnreadable(d)
    ensures Normalize(d).Returned?
    ensures var n := Normalize(d).value;
            && Get(n.data, "phone") == (if PhoneRejected(Get(d, "phone")) then Str("") else Get(d, "phone"))
            && (BadPhone in n.errors <==> PhoneRejected(Get(d, "phone")))
            && !PhoneRejected(Get(n.data, "phone"))
  {
    NormalizedAt(d, "phone");
    CheckedDataPhone(d);
    NormalizeClosed(d);
    ErrorsMembers(d);
  }

  /** No banned word occurs in the empty text. */
  lemma EmptyDocTypeAllowed()
    ensures !DocTypeRejected(Str(""))
  {
    assert DocTypeText(Str("")) == [];
    forall i | 0 <= i < |BannedWords|
      ensures !Contains([], BannedWords[i])
    {
      assert BannedWords[i] != [];
    }
  }

  /** The document type is cleared, with a complaint, when its lower-cased text
      contains one of the banned words, and is kept unchanged otherwise. */
  lemma NormalizeDocType(d: Dict)
    requires !WeightUnreadable(d)
    ensures Normalize(d).Returned?
    ensures var n := Normalize(d).value;
            && Get(n.data, "doc_type") == (if DocTypeRejected(Get(d, "doc_type")) then Str("") else Get(d, "doc_type"))
            && (BadDocType in n.errors <==> DocTypeRejected(Get(d, "doc_type")))
            && !DocTypeRejected(Get(n.data, "doc_type"))
  {
    NormalizedAt(d, "doc_type");
    CheckedDataDocType(d);
    NormalizeClosed(d);
    ErrorsMembers(d);
    EmptyDocTypeAllowed();
  }

  /** The document-type check ignores case: a lower-cased text is rejected
      exactly when the original is. */
  lemma DocTypeIgnoresCase(s: string)
    ensures DocTypeRejected(Str(Lower(s))) <==> DocTypeRejected(Str(s))
  {
    LowerIdempotent(s);
  }

  /** The four fields the validator may clear are required fields. */
  lemma CleanedFieldsRequired()
    ensures "from_country" in RequiredFields && "to_country" in RequiredFields
    ensures "phone" in RequiredFields && "doc_type" in RequiredFields
  {
    assert RequiredFields[0] == "doc_type" && RequiredFields[1] == "from_country";
    assert RequiredFields[3] == "to_country" && RequiredFields[9] == "phone";
  }

  /** A phone complaint comes with a cleared phone. */
  lemma PhoneComplaintClears(d: Dict)
    requires !WeightUnreadable(d)
    ensures Normalize(d).Returned?
    ensures BadPhone in Normalize(d).value.errors ==> Get(Normalize(d).value.data, "phone") == Str("")
  {
    NormalizePhone(d);
  }

  /** A document-type complaint comes with a cleared document type. */
  lemma DocTypeComplaintClears(d: Dict)
    requires !WeightUnreadable(d)
    ensures Normalize(d).Returned?
    ensures BadDocType in Normalize(d).value.errors ==> Get(Normalize(d).value.data, "doc_type") == Str("")
  {
    NormalizeDocType(d);
  }

  /** An expected country complaint names a country key whose value was rejected. */
  lemma ExpectedCountryComplaint(d: Dict, k: string)
    requires BadCountry(k) in ExpectedErrors(d)
    ensures (k == "from_country" || k == "to_country") && CountryRejected(Get(d, k))
  {
    ErrorsMembers(d);
  }

  /** A country complaint names a country key and comes with that key cleared. */
  lemma CountryComplaintClears(d: Dict, k: string)
    requires !WeightUnreadable(d)
    ensures Normalize(d).Returned?
    ensures BadCountry(k) in Normalize(d).value.errors ==>
              (k == "from_country" || k == "to_country") && Get(Normalize(d).value.data, k) == Str("")
  {
    NormalizeErrorList(d);
    if BadCountry(k) in Normalize(d).value.errors {
      ExpectedCountryComplaint(d, k);
      NormalizeCountry(d, k);
    }
  }

  /** The field a complaint names is required and was set to `""`. */
  lemma ComplaintClears(d: Dict, e: ValidationError)
    requires !WeightUnreadable(d)
    ensures Normalize(d).Returned?
    ensures e in Normalize(d).value.errors ==>
              e.Field() in RequiredFields && Get(Normalize(d).value.data, e.Field()) == Str("")
  {
    NormalizeReturns(d);
    CleanedFieldsRequired();
    match e
    case BadPhone => PhoneComplaintClears(d);
    case BadDocType => DocTypeComplaintClears(d);
    case BadCountry(k) => CountryComplaintClears(d, k);
  }

  /** Every complaint names a required field that was set to `""`, so a
      dictionary the validator complained about is never complete. */
  lemma NormalizeErrors(d: Dict)
    requires !WeightUnreadable(d)
    ensures Normalize(d).Returned?
    ensures var n := Normalize(d).value;
            && n.errors == ExpectedErrors(d)
            && |n.errors| <= 4
            && (forall e :: e in n.errors ==>
                  e.Field() in RequiredFields && Get(n.data, e.Field()) == Str(""))
            && (n.errors != [] ==> !IsComplete(n.data))
  {
    NormalizeClosed(d);
    var n := Normalize(d).value;
    ErrorsMembers(d);
    forall e | e in n.errors
      ensures e.Field() in RequiredFields && Get(n.data, e.Field()) == Str("")
    {
      ComplaintClears(d, e);
    }
    if n.errors != [] {
      ComplaintClears(d, n.errors[0]);
    }
  }

  /** A capitalised word is its own stripped, title-cased form. */
  lemma CapitalisedIsClean(c: string)
    requires c != [] && IsUpper(c[0])
    requires forall i :: 1 <= i < |c| ==> IsLower(c[i])
    ensures CountryText(Str(c)) == c
  {
    StripTrimmed(c);
    TitleCapitalised(c);
  }

  lemma UkraineIsClean()
    ensures CountryText(Str("Украина")) == "Украина"
  {
    var c := "Украина";
    assert IsUpper(c[0]) && IsLower(c[1]) && IsLower(c[2]) && IsLower(c[3]);
    assert IsLower(c[4]) && IsLower(c[5]) && IsLower(c[6]) && |c| == 7;
    CapitalisedIsClean(c);
  }

  lemma RussiaIsClean()
    ensures CountryText(Str("Россия")) == "Россия"
  {
    var c := "Россия";
    assert IsUpper(c[0]) && IsLower(c[1]) && IsLower(c[2]) && IsLower(c[3]);
    assert IsLower(c[4]) && IsLower(c[5]) && |c| == 6;
    CapitalisedIsClean(c);
  }

  lemma BelarusIsClean()
    ensures CountryText(Str("Беларусь")) == "Беларусь"
  {
    var c := "Беларусь";
    assert IsUpper(c[0]) && IsLower(c[1]) && IsLower(c[2]) && IsLower(c[3]);
    assert IsLower(c[4]) && IsLower(c[5]) && IsLower(c[6]) && IsLower(c[7]) && |c| == 8;
    CapitalisedIsClean(c);
  }

  /** The three allowed countries are their own stripped, title-cased form. */
  lemma AllowedCountriesAreClean(c: string)
    requires c in AllowedCountries
    ensures CountryText(Str(c)) == c
  {
    if c == "Украина" {
      UkraineIsClean();
    } else if c == "Россия" {
      RussiaIsClean();
    } else {
      assert c == "Беларусь";
      BelarusIsClean();
    }
  }

  /** A country value the validator produced passes the country check unchanged. */
  lemma CleanCountryIsFixed(v: Value)
    requires v == Str("") || (v.Str? && v.s in AllowedCountries)
    ensures !CountryRejected(v) && CleanCountry(v) == v
  {
    if v != Str("") {
      AllowedCountriesAreClean(v.s);
    }
  }

  /** Writing back the value a key already holds changes nothing. */
  lemma UpdateSame(m: Dict, k: string, v: Value)
    requires k in m && m[k] == v
    ensures m[k := v] == m
  {
  }

  /** A dictionary whose four checked fields already pass is left as it is by
      the checks, without complaints. */
  lemma CheckedDataFixed(e: Dict)
    requires "from_country" in e && CleanCountry(Get(e, "from_country")) == Get(e, "from_country")
    requires "to_country" in e && CleanCountry(Get(e, "to_country")) == Get(e, "to_country")
    requires !CountryRejected(Get(e, "from_country")) && !CountryRejected(Get(e, "to_country"))
    requires !PhoneRejected(Get(e, "phone")) && !DocTypeRejected(Get(e, "doc_type"))
    ensures CheckedData(e) == e && ExpectedErrors(e) == []
  {
    UpdateSame(e, "from_country", Get(e, "from_country"));
    UpdateSame(e, "to_country", Get(e, "to_country"));
  }

  /** A dictionary `e` with the pages of `d` and the weight the backfill gives
      `d` needs no further backfill, and its weight is readable when `d`'s was. */
  lemma WeightSettled(d: Dict, e: Dict)
    requires Get(e, "pages_a4") == Get(d, "pages_a4")
    requires Get(e, "weight_grams")
             == if Pages(d) > 0 && WeightUnknown(d) then Int(6 * Pages(d)) else Get(d, "weight_grams")
    requires !WeightUnreadable(d)
    ensures !WeightUnreadable(e) && Backfilled(e, e) == e
  {
    assert Pages(e) == Pages(d);
  }

  /** After `normalize_and_validate` the weight is readable and needs no
      further backfill. */
  lemma NormalizeWeightSettled(d: Dict)
    requires !WeightUnreadable(d)
    ensures Normalize(d).Returned?
    ensures var e := Normalize(d).value.data;
            !WeightUnreadable(e) && Backfilled(e, e) == e
  {
    NormalizeWeight(d);
    WeightSettled(d, Normalize(d).value.data);
  }

  /** `normalize_and_validate` is idempotent: run on its own output it changes
      nothing and complains about nothing. */
  lemma NormalizeIdempotent(d: Dict)
    requires !WeightUnreadable(d)
    ensures Normalize(d).Returned?
    ensures var e := Normalize(d).value.data;
            Normalize(e) == Returned(Normalized(e, []))
  {
    NormalizeReturns(d);
    var e := Normalize(d).value.data;
    NormalizeCountry(d, "from_country");
    NormalizeCountry(d, "to_country");
    CleanCountryIsFixed(Get(e, "from_country"));
    CleanCountryIsFixed(Get(e, "to_country"));
    NormalizePhone(d);
    NormalizeDocType(d);
    CheckedDataFixed(e);
    NormalizeWeightSettled(d);
    NormalizeClosed(e);
  }
}
