/** What `extract_fields_via_openai` does with the text the language model
    sends back: strip it, try to read it as JSON, and when that fails read the
    part between the first `{` and the last `}`. The JSON reader itself is a
    parameter. */
module Extraction {
  import opened Text
  import opened Values

  /** The scan of `s.find(c)` from index `i` on: the first index at or after
      `i` that holds `c`, or -1. */
  function FindFrom(s: string, c: char, i: nat): (r: int)
    requires i <= |s|
    ensures r == -1 || i <= r < |s|
    ensures r >= 0 ==> s[r] == c
    ensures forall j :: i <= j < |s| && (r == -1 || j < r) ==> s[j] != c
    decreases |s| - i
  {
    if i == |s| then -1
    else if s[i] == c then i
    else FindFrom(s, c, i + 1)
  }

  /** `s.find(c)`: the first index of `c` in `s`, or -1 when there is none. */
  function Find(s: string, c: char): (r: int)
    ensures -1 <= r < |s|
    ensures r == -1 <==> c !in s
    ensures r >= 0 ==> s[r] == c && forall j :: 0 <= j < r ==> s[j] != c
  {
    FindFrom(s, c, 0)
  }

  /** The scan of `s.rfind(c)` over `s[..n]`, from the back. */
  function FindBelow(s: string, c: char, n: nat): (r: int)
    requires n <= |s|
    ensures -1 <= r < n
    ensures r >= 0 ==> s[r] == c
    ensures forall j :: r < j < n ==> s[j] != c
  {
    if n == 0 then -1
    else if s[n - 1] == c then n - 1
    else FindBelow(s, c, n - 1)
  }

  /** `s.rfind(c)`: the last index of `c` in `s`, or -1 when there is none. */
  function RFind(s: string, c: char): (r: int)
    ensures -1 <= r < |s|
    ensures r == -1 <==> c !in s
    ensures r >= 0 ==> s[r] == c && forall j :: r < j < |s| ==> s[j] != c
  {
    FindBelow(s, c, |s|)
  }

  /** `raw[s:e+1] if s >= 0 and e >= 0 else None`, with `s` the first `{` and
      `e` the last `}`. Python's slice is empty when the last `}` comes before
      the first `{`. */
  function BraceSlice(raw: string): (r: Option<string>)
    ensures r.None? <==> '{' !in raw || '}' !in raw
  {
    var s := Find(raw, '{');
    var e := RFind(raw, '}');
    if s >= 0 && e >= 0 then Some(if s <= e then raw[s..e + 1] else []) else None
  }

  /** The slice runs from the outermost `{` to the outermost `}`: nothing
      before it is a `{`, nothing after it is a `}`, and it is empty exactly
      when every `}` comes before the first `{`. */
  lemma BraceSliceOutermost(raw: string)
    requires '{' in raw && '}' in raw
    ensures var t := BraceSlice(raw).value;
            var s := Find(raw, '{');
            var e := RFind(raw, '}');
            && 0 <= s && 0 <= e
            && (t == [] <==> e < s)
            && (s <= e ==> t == raw[s..e + 1] && t[0] == '{' && t[|t| - 1] == '}')
            && (forall j :: 0 <= j < s ==> raw[j] != '{')
            && (forall j :: e < j < |raw| ==> raw[j] != '}')
  {
  }

  /** A reply that already is a brace-delimited object is sliced to itself. */
  lemma BraceSliceOfObject(raw: string)
    requires |raw| >= 2 && raw[0] == '{' && raw[|raw| - 1] == '}'
    ensures BraceSlice(raw) == Some(raw)
  {
    assert raw[0] in raw && raw[|raw| - 1] in raw;
    assert raw[..|raw|] == raw;
  }

  /** What `json.loads` makes of a text: not JSON at all (it raises), JSON that
      is not an object, or an object. */
  datatype Parsed = NotJson | NotObject | Object(fields: Dict)

  /** The body of `extract_fields_via_openai` after the model has answered:
      the stripped reply is parsed; when that raises, the brace slice is parsed,
      or `{}` is used when there is no slice; when that second parse raises,
      the outer handler returns `{}`; and anything that is not an object
      becomes `{}`. */
  function ExtractedFields(content: string, loads: string -> Parsed): (r: Dict)
    ensures loads(Strip(content)).Object? ==> r == loads(Strip(content)).fields
    ensures loads(Strip(content)).NotObject? ==> r == map[]
  {
    var raw := Strip(content);
    var parsed :=
      if !loads(raw).NotJson? then loads(raw)
      else match BraceSlice(raw)
           case None => Object(map[])
           case Some(t) => loads(t);
    if parsed.Object? then parsed.fields else map[]
  }

  /** Without an object in the stripped reply, or with a slice that is not one
      either, the extracted map is empty. */
  lemma ExtractedFieldsFallback(content: string, loads: string -> Parsed)
    requires loads(Strip(content)).NotJson?
    ensures var raw := Strip(content);
            && ('{' !in raw || '}' !in raw ==> ExtractedFields(content, loads) == map[])
            && (BraceSlice(raw).Some? && loads(BraceSlice(raw).value).Object? ==>
                  ExtractedFields(content, loads) == loads(BraceSlice(raw).value).fields)
            && (BraceSlice(raw).Some? && !loads(BraceSlice(raw).value).Object? ==>
                  ExtractedFields(content, loads) == map[])
  {
  }
}
