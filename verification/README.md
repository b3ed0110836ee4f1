# DocuBridge lead collection, modelled in Dafny

The DocuBridge Telegram bot (`main.py`) collects requests to forward documents
between Ukraine, Russia and Belarus. A chat enters the `collecting` state with
`/consult`. From then on every message goes to the catch-all handler, which
does the following in order:

- takes the field map a language model extracted from the message;
- merges it over the fields stored for the chat;
- cleans the result with `normalize_and_validate`:
  - restricts the two countries to Украина, Россия and Беларусь;
  - restricts the phone to the prefixes +380, +7 and +375;
  - clears forbidden document types;
  - backfills the weight at 6 g per page;
- stores the cleaned map;
- then either files a lead and moves the chat to `completed`, or asks for the
  first of the twelve required fields that is still missing.

This project models that core and proves what it promises.

| file | module | contents |
|---|---|---|
| `text.dfy` | `Text` | the Python string behaviour the code relies on: `strip`, `lower`, `title`, `startswith`, substring `in`, `str(int)` and `int(str)`, with round-trip and idempotence lemmas |
| `values.dfy` | `Values` | dictionary values (`None`, string, integer), Python truthiness, `d.get`, `str(v or "")`, and `int(v)`, which may raise |
| `fields.dfy` | `Fields` | `REQUIRED_FIELDS`, the question for each field, `is_complete`, and the scan that picks the next question |
| `validation.dfy` | `Validation` | `calc_weight_if_needed` and `normalize_and_validate`, each as a function of the old dictionary and as a method of `LeadDict` (the dictionary mutated in place) proved to compute that function |
| `validation_facts.dfy` | `ValidationFacts` | what the validator promises: the closed form, field by field, complaint by complaint, the weight, and idempotence |
| `extraction.dfy` | `Extraction` | how the language model's reply becomes a field map: `find`/`rfind`, the brace slice, and the parse fallbacks, with the JSON reader as a parameter |
| `conversation.dfy` | `Conversation` | the `user_state` and `leads` tables; the `set_state`/`update_data` upserts; the merge; the turn as a function; and the `Bot` class, whose `Consult` and `Fallback` methods are proved against that function |

How Python's behaviour is represented:

- An exception is a value. `Outcome.Raised` means the call raised, and
  `Reply.NoReply` means the handler raised before answering.
- The database is the two fields of `Bot`.
- What the language model extracts is an input to a turn.

Where the bot's stated intent and `main.py` differ, the model follows `main.py`:

- `/consult` only sets the state (`main.py:336`). Data collected earlier
  survives. After a finished lead, a turn whose extraction is empty files the
  same lead again (`Conversation.ConsultResubmits`).
- The merge `{**data, **extracted}` lets an extracted empty value overwrite a
  stored, valid one (`Conversation.MergeOverwritesWithEmpty`).
- A phone made only of whitespace strips to `""`, so it passes the phone check
  and is stored unchanged.
- The weight test `not w or int(w) == 0` calls `int` on every non-empty
  weight. A weight string that is not a number therefore raises whatever the
  page count is. The handler then stops before writing anything
  (`Conversation.TurnCrashChangesNothing`).
- Because every complaint clears a required field, the error-list reply and
  the fall-through chat reply of the collecting branch can never be reached
  (`Conversation.CollectingReplies`).

## Model

| member | source | states |
|---|---|---|
| `Text.StripRemovesOnlyWhitespace` | main.py:225 | `strip()` (`Strip`) returns a contiguous slice of the input with only whitespace before and after it, and that slice is empty or starts and ends with a non-whitespace character |
| `Text.StripIdempotent` | main.py:225 | stripping twice is stripping once |
| `Text.Lower` | main.py:232 | `lower()` keeps the length and leaves no upper-case letter; a character that is not upper-case is kept, and an upper-case one becomes the lower-case letter whose upper case it is |
| `Text.LowerIdempotent` | main.py:232 | lower-casing twice is lower-casing once |
| `Text.TitleShape` | main.py:217 | `title()` (`Title`, via `TitleFrom`) keeps the length, upper-cases a character at the start of the text or after an uncased one, lower-cases one after a cased one, and keeps uncased characters |
| `Text.TitleIdempotent` | main.py:217 | `title()` of a title-cased string is that string |
| `Text.TitleCapitalised` | main.py:215-217 | a capitalised word (upper-case first letter, lower-case rest) is its own `title()` |
| `Text.StartsWithSplit` | main.py:226 | `startswith(p)` holds exactly when the text is `p` followed by something |
| `Text.ContainsSplit` | main.py:233 | substring `in` holds exactly when the text is something, then the substring, then something |
| `Text.IntToString` | main.py:217 | `str(n)` is non-empty, has no surrounding whitespace, and starts with a sign or a digit |
| `Text.ParseIntStrips` | main.py:207 | `int(s)` (`ParseInt`) ignores surrounding whitespace: it gives the same result on the stripped text |
| `Text.ParseIntRejects` | main.py:207 | `int(s)` fails when the stripped text holds a character that is not a digit or `_`, other than a leading sign |
| `Text.ParseIntRejectsExamples` | main.py:207 | `int` fails on `"12.5"`, `"abc"` and a blank string |
| `Text.ParseIntDigits` | main.py:203 | a run of digits with single underscores between them parses to its decimal value |
| `Text.ParseIntSigned` | main.py:203 | a sign followed by such a run parses to that value, negated for `-` |
| `Text.IntRoundTrip` | main.py:207 | `int(str(n)) == n` for every integer |
| `Values.FalsyValues` | main.py:207 | a value is falsy (`Truthy` fails) exactly when it is `None`, `""` or 0 |
| `Values.AsText` | main.py:217 | `str(v or "")` is empty exactly for the falsy values and is the string itself for a string |
| `Values.PyInt` | main.py:207 | `int(v)` returns an integer unchanged and raises exactly on `None` and on a string that does not parse |
| `Fields.QuestionsCoverForm` | main.py:413-429 | every required field has a question, so the lookup `questions[key]` never fails |
| `Fields.AllFilled` | main.py:241-245 | the scan is true exactly when every listed key is present with a value other than `None`, `""` or 0 |
| `Fields.IsComplete` | main.py:241-245 | `is_complete` holds exactly when all twelve required keys are present and truthy |
| `Fields.FirstUnfilled` | main.py:427-432 | the question scan stops at the first required key whose value is falsy; every key before it is truthy |
| `Fields.CompleteIffNoQuestion` | main.py:427-432 | the question scan runs off the end of the form exactly when `is_complete` holds |
| `Validation.SixGramsPerPage` | main.py:209 | `(pages*6+5)//6*6` equals `6*pages` |
| `Validation.CalcWeightEffect` | main.py:201-210 | the backfill (`CalcWeight`, with `Pages` and `WeightUnknown`) raises exactly on a non-empty weight string that is not a number; otherwise it sets the weight to `6*pages` when pages are positive and the weight is missing or 0, and changes nothing else |
| `Validation.PagesEffect` | main.py:202-205 | the page count `Pages` is the parsed value when positive, and 0 when `pages_a4` is falsy or does not parse |
| `Validation.DecimalWeightRaises` | main.py:206-207 | a weight of `"12.5"` makes the backfill raise even with a positive page count |
| `Validation.LeadDict.CalcWeightIfNeeded` | main.py:201-210 | the in-place backfill leaves the dictionary as the backfill function says, and unchanged when it raises |
| `Validation.LeadDict.NormalizeAndValidate` | main.py:212-239 | the in-place validator returns the errors and leaves the dictionary that `Normalize` describes; when the backfill raises, the country, phone and document-type edits stay in place |
| `Validation.LeadDict.CheckCountriesInPlace` | main.py:215-222 | the loop over the two country keys writes each key's cleaned value or `""`, and appends one complaint per rejected key, in order |
| `Validation.LeadDict.CheckPhoneInPlace` | main.py:224-228 | a rejected phone becomes `""` with one complaint; an accepted one is untouched |
| `Validation.LeadDict.CheckDocTypeInPlace` | main.py:230-235 | a document type containing a banned word becomes `""` with one complaint; any other is untouched |
| `ValidationFacts.CountriesEffect` | main.py:215-222 | the country loop (`CheckCountries` applying `CheckCountry` to each key) rewrites exactly the two country keys, each from the caller's value, and complains about them in order |
| `ValidationFacts.CheckedEffect` | main.py:212-235 | the three checks (`Checked`: countries, then `CheckPhone`, then `CheckDocType`) in closed form: each touches only its own key, sees the caller's value, and the complaints come in check order |
| `ValidationFacts.CheckedKeepsWeightInputs` | main.py:237-238 | the backfill reads the page count and the weight the caller passed in |
| `ValidationFacts.NormalizeClosed` | main.py:212-239 | `normalize_and_validate` (`Normalize`) raises exactly on an unreadable weight; otherwise it returns the checked map, backfilled, and the complaints |
| `ValidationFacts.CleanCountryAllowed` | main.py:215-222 | the value the country loop stores is `""` or one of the three allowed countries |
| `ValidationFacts.NormalizeWeight` | main.py:201-210 | after validation the weight is `6*pages` when pages are positive and the weight was missing or 0, and is unchanged otherwise; the page count is unchanged |
| `ValidationFacts.NormalizeKeepsOtherKeys` | main.py:212-239 | with a readable weight, validation returns and every key other than the two countries, phone, doc_type and weight is unchanged, present or absent |
| `ValidationFacts.NormalizeCountry` | main.py:215-222 | with a readable weight, validation returns, each country key ends up present and is `""` or one of the three allowed countries; it carries a complaint exactly when its stripped, title-cased value was non-empty and not allowed |
| `ValidationFacts.NormalizePhone` | main.py:224-228 | with a readable weight, validation returns; the phone is cleared with a complaint exactly when its stripped text is non-empty and lacks the three prefixes; otherwise it is unchanged; the result always passes the phone check |
| `ValidationFacts.DocTypeIgnoresCase` | main.py:232-233 | the banned-word test gives the same answer on a document type and on its lower-cased form |
| `ValidationFacts.NormalizeDocType` | main.py:230-235 | with a readable weight, validation returns; the document type is cleared with a complaint exactly when its lower-cased text contains a banned word; the result always passes the check |
| `ValidationFacts.ErrorsMembers` | main.py:212-235 | each of the four complaints is present exactly when its check rejected; there are at most four; a country complaint names one of the two country keys |
| `ValidationFacts.ComplaintClears` | main.py:212-235 | with a readable weight, validation returns, and the field each complaint names is a required field set to `""` |
| `ValidationFacts.NormalizeErrors` | main.py:212-245 | with a readable weight, validation returns; the error list has at most four entries, each naming a required field set to `""`, so a map with complaints is never complete |
| `ValidationFacts.AllowedCountriesAreClean` | main.py:215-217 | the three allowed countries survive strip and title unchanged |
| `ValidationFacts.CleanCountryIsFixed` | main.py:215-222 | a country value the validator produced passes the country check unchanged |
| `ValidationFacts.NormalizeWeightSettled` | main.py:201-210 | with a readable weight, validation returns, and afterwards the weight is still readable and needs no further backfill |
| `ValidationFacts.NormalizeIdempotent` | main.py:212-239 | with a readable weight, validation returns, and validating its output again returns, changes nothing and makes no complaint |
| `Extraction.Find` | main.py:286 | `find` returns -1 exactly when the character is absent, and otherwise its first index |
| `Extraction.RFind` | main.py:286 | `rfind` returns -1 exactly when the character is absent, and otherwise its last index |
| `Extraction.BraceSlice` | main.py:286-287 | there is a slice exactly when the reply holds both a `{` and a `}` |
| `Extraction.BraceSliceOutermost` | main.py:286-287 | the slice runs from the first `{` to the last `}`, and is empty exactly when that `}` comes before that `{` |
| `Extraction.BraceSliceOfObject` | main.py:286-287 | a reply that is already brace-delimited is sliced to itself |
| `Extraction.ExtractedFields` | main.py:282-291 | a reply that parses as an object gives that object, and one that parses as anything else gives `{}` |
| `Extraction.ExtractedFieldsFallback` | main.py:282-291 | when the reply does not parse, the result is the parsed slice if that is an object, and `{}` otherwise or without braces |
| `Conversation.SetStateIn` | main.py:133-149 | `set_state` changes only the state of its chat's row, keeps the data, and creates a row with no data when there is none; other chats are unchanged |
| `Conversation.UpdateDataIn` | main.py:151-167 | `update_data` changes only the data of its chat's row and creates a `collecting` row when there is none; other chats are unchanged |
| `Conversation.Merge` | main.py:373 | the merged map has the keys of both; an extracted key takes the extracted value; any other stored key keeps its value |
| `Conversation.MergeNothing` | main.py:373 | merging an empty extraction leaves the stored data as it is |
| `Conversation.MergeOverwritesWithEmpty` | main.py:373 | an extracted empty phone overwrites a stored valid one |
| `Conversation.TurnOutsideCollecting` | main.py:442-444 | outside `collecting` a turn gives the chat reply and changes neither table |
| `Conversation.TurnCrashChangesNothing` | main.py:373-375 | when the merged weight is unreadable, validation raises and the turn writes nothing and gives no reply |
| `Conversation.TurnFinishes` | main.py:370-376 | when the merged weight is readable, validation returns and the collecting turn (`Turn`, via `CollectingTurn`) finishes on the cleaned merge |
| `Conversation.FinishOutcome` | main.py:376-410 | finishing (`Finish`) confirms exactly when the map is complete without complaints; it then appends one lead and sets `completed`, and otherwise keeps the chat collecting; the cleaned map is stored either way and no other chat changes |
| `Conversation.FinishAsks` | main.py:427-432 | when complaints imply incompleteness, a finish without confirmation asks for the first falsy required key |
| `Conversation.TurnFinalises` | main.py:379-410 | when the merged weight is readable, a collecting turn (`Turn`) confirms exactly when the cleaned merge is complete and has no complaints; it then files that map as a lead and moves the chat to `completed` |
| `Conversation.TurnAsks` | main.py:427-432 | when the merged weight is readable and the cleaned merge is incomplete or has complaints, the turn asks for the first falsy required key, keeps the chat collecting with the cleaned map stored, and adds no lead |
| `Conversation.CollectingReplies` | main.py:370-439 | a collecting turn confirms, asks, or raises; it never lists errors and never falls through to a chat reply |
| `Conversation.TurnAppendsOnlyConfirmed` | main.py:379-393 | a turn appends exactly the confirmed map as one lead after the earlier ones, and nothing without a confirmation |
| `Conversation.ConfirmedPayload` | main.py:379-393 | a turn that confirms was a collecting turn with a readable merged weight, and its payload is the cleaned merge, complete and without complaints |
| `Conversation.LeadIsClean` | main.py:379-393 | the payload of any confirmation is complete, names two allowed countries, and validates again unchanged without complaint |
| `Conversation.ConsultResubmits` | main.py:335-336 | when a turn confirms, a following `/consult` restores `collecting` with the payload as the stored data, and a turn with an empty extraction then confirms the same payload and files it as a second lead |
| `Conversation.Bot.GetState` | main.py:116-131 | `get_state` returns the stored row, or `greeting` with no data for an unknown chat |
| `Conversation.Bot.SetState` | main.py:133-149 | updates the rows as `SetStateIn` describes and leaves the leads alone |
| `Conversation.Bot.UpdateData` | main.py:151-167 | updates the rows as `UpdateDataIn` describes and leaves the leads alone |
| `Conversation.Bot.InsertLead` | main.py:380-393 | appends one lead and leaves the rows alone |
| `Conversation.Bot.Consult` | main.py:335-339 | puts the chat in `collecting` and keeps its data |
| `Conversation.Bot.Fallback` | main.py:360-444 | leaves both tables, and returns the reply, as `Turn` describes |
| `Conversation.Bot.Collect` | main.py:370-410 | the collecting branch leaves both tables, and returns the reply, as `CollectingTurn` describes |
| `Conversation.Bot.NextQuestion` | main.py:427-439 | the question loop asks for the key `FirstUnfilled` names, and otherwise gives the error list or the chat reply |

## Left out

- The Flask webhook routes, webhook registration and environment bootstrap
  are HTTP and configuration plumbing.
- The database calls are replaced by the two fields of `Conversation.Bot`.
  Connection failures are not modelled, so every write succeeds:
  - `get_state` falling back to `greeting` on an error;
  - `set_state`, `update_data` and the lead insert swallowing errors.
- Running without `DATABASE_URL` is not modelled; in that mode the writes do
  nothing.
- The `chat_history` log (`save_message`) and the admin notifications only
  record text, so they are left out.
- The language model calls are inputs:
  - a turn takes the extracted map as a parameter;
  - `ExtractedFields` takes the reply text and a JSON reader as parameters.
  `json.loads` itself is not modelled.
- The typing indicator, keyboards, and the `/start`, `/news` and `/ai`
  handlers are UI and change no state.
- A failed Telegram send is not modelled; every send succeeds. This matters
  once: `bot.send_message` at `main.py:408` sits outside any `try`, so if it
  raised, `set_state(..., "completed")` at `main.py:409` would be skipped. The
  lead would stay filed, the chat would stay `collecting`, and the next message
  would file the lead again. `Conversation.FinishOutcome` and
  `Conversation.TurnFinalises` state `completed` on the assumption that the
  send succeeds.
- Reply texts are left out: the confirmation, the question texts' delivery and
  the error-list sentence. The model names the reply (`Confirmation`, `Ask`,
  `ErrorList`) and its payload instead.
- Dictionary values are `None`, strings and integers. Floats, booleans, lists
  and nested objects that JSON could also produce are not modelled.
- `Text.ParseInt`: `int()` is modelled for ASCII digits, an optional sign and
  single underscores between digits; the other Unicode decimal digits Python
  accepts are not.
- `Text.IsSpace` covers Python's whitespace set. `Text.ToLower` and
  `Text.ToUpper` map only ASCII letters, the Cyrillic letters U+0400–U+045F,
  and Ґ/ґ (U+0490/U+0491). The rest of the Cyrillic block (U+0460–U+04FF) and
  all other scripts are treated as uncased and left unchanged, and `title()`
  treats only the mapped letters as cased.
