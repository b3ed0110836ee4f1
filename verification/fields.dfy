/** The fixed form of a shipment request: the twelve required keys, in the order
    the bot asks for them, the completeness test and the scan that picks the next
    question. */
module Fields {
  import opened Values

  /** `REQUIRED_FIELDS`, in asking order. */
  const RequiredFields: seq<string> := [
    "doc_type",
    "from_country", "from_city",
    "to_country", "to_city",
    "pages_a4", "weight_grams",
    "urgency",
    "name", "phone", "email", "best_time"
  ]

  /** The question the bot sends for each required key. */
  const Questions: map<string, string> := map[
    "doc_type" := "Какой тип документа? (например: доверенность, диплом, свидетельство)",
    "from_country" := "Из какой страны отправляем? (Украина/Россия/Беларусь)",
    "from_city" := "Из какого города отправляем?",
    "to_country" := "В какую страну доставляем? (Украина/Россия/Беларусь)",
    "to_city" := "В какой город доставляем?",
    "pages_a4" := "Сколько листов A4? (число)",
    "weight_grams" := "Если знаете точный вес в граммах — укажите, иначе оставим по расчёту.",
    "urgency" := "Срочность: обычная или срочная?",
    "name" := "Как к вам обращаться (имя/фамилия)?",
    "phone" := "Контактный телефон (+380 / +7 / +375):",
    "email" := "Электронная почта:",
    "best_time" := "Когда вам удобнее принимать звонок/сообщение?"
  ]

  /** Every required key has a question, so looking one up never fails. */
  lemma QuestionsCoverForm()
    ensures forall i :: 0 <= i < |RequiredFields| ==> RequiredFields[i] in Questions
  {
  }

  /** The test `is_complete` applies to one key: present and not None, "" or 0. */
  predicate Filled(d: Dict, k: string) {
    k in d && Truthy(d[k])
  }

  /** The loop of `is_complete` over `ks`: false at the first key that is
      missing or falsy, true after the last. */
  function AllFilled(d: Dict, ks: seq<string>): (r: bool)
    ensures r <==> forall i :: 0 <= i < |ks| ==> Filled(d, ks[i])
  {
    if ks == [] then true
    else if !Filled(d, ks[0]) then false
    else AllFilled(d, ks[1..])
  }

  /** `is_complete(d)`. */
  function IsComplete(d: Dict): (r: bool)
    ensures r <==> forall k :: k in RequiredFields ==> k in d && Truthy(d[k])
  {
    AllFilled(d, RequiredFields)
  }

  /** The question-selection loop of the collecting turn over `ks`: the index of
      the first key with `not d.get(key)`, or `|ks|` when there is none. */
  function FirstUnfilled(d: Dict, ks: seq<string>): (i: nat)
    ensures i <= |ks|
    ensures forall j :: 0 <= j < i ==> Truthy(Get(d, ks[j]))
    ensures i < |ks| ==> !Truthy(Get(d, ks[i]))
  {
    if ks == [] then 0
    else if !Truthy(Get(d, ks[0])) then 0
    else 1 + FirstUnfilled(d, ks[1..])
  }

  /** The question loop and `is_complete` agree: the loop runs off the end of
      the form exactly when the dictionary is complete. */
  lemma CompleteIffNoQuestion(d: Dict)
    ensures IsComplete(d) <==> FirstUnfilled(d, RequiredFields) == |RequiredFields|
  {
    var i := FirstUnfilled(d, RequiredFields);
    if i < |RequiredFields| {
      assert RequiredFields[i] in RequiredFields;
    }
  }
}
