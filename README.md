# acord-filler in Dafny

A model of the deterministic core of acord-filler, the toolkit that fills
ACORD insurance forms (the 125/140 commercial application, the ACORD 24
and 25 certificates and the ACORD 37 statement of no loss) from structured
JSON data, together with proofs about that model.

The core has four parts:

- **Schema mappers.** These turn nested JSON into a flat `field name -> value` dict.
  - `_build_field_data` covers the ACORD 125/140: direct keys, dates, transaction and entity checkboxes, address splitting, up to four locations on the ACORD 125 and two property sections on the ACORD 140, the Texas defaults, the ACORD 140 header, the prior carrier, up to three loss rows, raw checkboxes and overrides applied last.
  - `map_to_acord25` covers the ACORD 25: insurer slots A–E with a legacy single-carrier fallback, the producer, the named insured, four coverage lines with default insurer letters and legacy date and policy-number fallbacks, the certificate holder, the remark text and the additional-insured codes. It exists in two copies, in map_acord25.py and server.py.
- **Widget fillers.** These apply such a dict to a document: the generic `_fill_widgets` / `fill_acord_form` loops with their counts and skipped lists, and the page-0 loops of `fill_acord24`, `fill_acord25` and `fill_acord37`.
- **Flattening and overlays.** This covers the `skip_gl` page selection, the general-information Y/N overlay, the prior-carrier Property column, and the centred signature rectangle.
- **Broker notes.** This covers the greedy word wrap, the box heights and the page breaks of both notes generators. The server's extraction quality counter `_calc_quality` is modelled alongside.

A PDF document is abstract here:
- a `Pdf` object holds a sequence of pages;
- a page has a size and a sequence of widgets `(name, value)`;
- flattening yields image pages of the same size;
- overlays are lists of draw commands `(page, x, y, text, size)`.

The JSON input is the datatype `Json.Json`, with Python truthiness (`Truthy`), `dict.get` (`GetOr`) and `str()` (`PyStr`). The dicts the mappers build are insertion-ordered association lists (`FieldMap`). Assignment (`Put`) replaces a key in place or appends it, so key order follows Python's.

Each mapper is imperative in the source, and imperative here.
- A chain of `Put*` methods assigns the fields step by step, with loops over locations, sections, exposure directions, losses, insurers, checkboxes and remark parts.
- Each method is proved equal to `PutAll(fields, W)`, where `W` is the list of assignments the source performs in program order (a `Writes` value).
- The properties are lemmas about `LastValue(W, k)`, the last value assigned to `k`. `PutAllLookup` connects the two views.

The form-type dispatch of the `/api/generate` endpoint is modelled as `FieldDataFor`:
- the ACORD 25 goes through the server's copy of the mapper;
- any other form uses the `{**policy, **holder}` merge.

The date of the run, the signature width and the outcome of the OCR subprocess are parameters.

Two behaviours of the code deserve a note, because a reader would easily expect otherwise:
- **Notes box height.** The appended notes page of fill_acord.py sizes each box from the body length (`len(body) // 90 + 2` lines), not from the wrapped line count. `FillAcord.BodyFitsIff` characterises when the wrapped body still fits inside the box.
- **`filled_count`.** It counts widget occurrences, not keys. So it is not the number of matched keys when a name occurs on several widgets. The key-level split into matched and skipped keys is `WidgetFill.UnmatchedPartition`.

The two copies of `map_to_acord25` name two general-liability limit fields differently.
- map_acord25.py uses `MedicalExpense_AnyOnePersonLimitAmount` and `ProductsCompletedOperationsAggregate_LimitAmount`.
- server.py, like the widget table of fill_acord25.py, uses `MedicalExpense_EachPersonLimitAmount` and `ProductsAndCompletedOperations_AggregateLimitAmount`.
- Both are modelled with their own names. `ServerForms.CopiesAgree` proves the two dicts agree on every other field.

## Model

| member | source | states |
|---|---|---|
| FieldMap.Put | acord_filler.py:129 | `d[k] = v` changes the value at `k` to `v` and the value at no other key |
| FieldMap.PutKeys | acord_filler.py:385 | assigning an existing key keeps the key order; a new key goes last, so dict order is first-assignment order |
| FieldMap.PutValid | acord_filler.py:103 | assignment never makes a key occur twice |
| FieldMap.LookupKeys | acord_filler.py:380 | a name is a key of the dict exactly when looking it up finds a value |
| FieldMap.DictGet | fill_acord25.py:135-136 | looking a widget name up in a dict literal finds a value exactly when some entry carries that name |
| FieldData.PutAllLookup | acord_filler.py:103-363 | after a run of assignments a key holds the last value assigned to it, or its old value when none was |
| FieldData.LastValueAppend | acord_filler.py:357-363 | a later run of assignments wins over an earlier one at every key it assigns |
| FieldData.LastValueWritten | acord_filler.py:103-363 | a key is assigned exactly when one of the assignments names it, and then holds one of the values assigned to it |
| FieldData.PutAllKeys | acord_filler.py:103-363 | the dict built by any run of assignments has no duplicate keys |
| FieldData.BuildFieldData | acord_filler.py:97-365 | `_build_field_data` returns exactly the dict its assignments, in program order, leave |
| FieldData.PutApplicant | acord_filler.py:105-161 | the direct keys, the two dates, the transaction and the entity checkboxes are assigned in source order |
| FieldData.PutDirect | acord_filler.py:127-129 | the direct-key loop performs one `str()` copy per key the configuration has, in list order |
| FieldData.DirectCopies | acord_filler.py:107-129 | a direct key holds `str` of the configuration's value exactly when the configuration has it, and no other key is assigned (within the step's own assignments; `FieldResults.DirectField` states it for the returned dict) |
| FieldData.TransactionChoice | acord_filler.py:137-147 | at most one transaction box is set, always to "Yes"; it is the quote box when no type is given, and one is set exactly when the type is one of the six known ones (within the step's own assignments; `FieldResults.TransactionField` states it for the returned dict) |
| FieldData.EntityChoice | acord_filler.py:150-161 | at most one entity box is set, exactly when the lower-cased type is one of the seven known ones; two spellings that lower-case alike pick the same box (within the step's own assignments; `FieldResults.EntityField` states it for the returned dict) |
| FieldData.LowerIdempotent | acord_filler.py:150 | lower-casing an already lower-cased type changes nothing |
| FieldData.PutProperty | acord_filler.py:163-320 | the locations are read in sorted key order, then the ACORD 125 loop, the ACORD 140 loop and the header are assigned in order |
| FieldData.LocationValues | acord_filler.py:167-168 | the j-th location value is `locations[loc_keys[j]]` |
| FieldData.PutLocations | acord_filler.py:167-201 | the ACORD 125 loop assigns the fields of the first `min(4, n)` locations, location by location |
| FieldFacts.LocationOrder | acord_filler.py:164-165 | the location keys are visited in ascending order, each key exactly as often as the configuration has it |
| FieldFacts.AddressSplit | acord_filler.py:172-182 | fewer than three comma parts set nothing; otherwise Street and City are the stripped first and second parts, and State and ZIP are the first and second tokens of the third part, each set only when that token exists (within the step's own assignments; `FieldResults.AddressField` states it for the returned dict) |
| FieldFacts.AddressParts | acord_filler.py:176-182 | the four address fields are distinct, so each holds its own part |
| FieldFacts.LocationKeysPrefixed | acord_filler.py:170-201 | every field location `n` assigns starts with `ACORD_Location{n}_` |
| FieldFacts.LocationCap | acord_filler.py:167 | every field of the location loop belongs to one of the first `count` locations, so at most four reach the ACORD 125 (within the step's own assignments; `FieldResults.LocationCapField` states it for the returned dict) |
| FieldData.PutSections | acord_filler.py:204-207 | the ACORD 140 loop assigns the sections of the first `min(2, n)` locations, in key order |
| FieldData.PutSection | acord_filler.py:205-302 | one property section: identification, construction, the exposure loop, the coverage row, the Texas defaults and the breakdown box, in order |
| FieldData.PutExposures | acord_filler.py:242-250 | the exposure loop assigns the description and distance of each direction present, front, rear, left then right |
| FieldFacts.RuleStores | acord_filler.py:224-279 | a field whose stem no other rule shares holds the rule's value (through `str()` where the source converts) exactly when the key is present or the rule has a default |
| FieldFacts.SectionKeysTagged | acord_filler.py:206-302 | a section writes only fields ending in its letter (A or B) or in its first coverage row (A or G) |
| FieldFacts.SectionCap | acord_filler.py:204-207 | every field of the section loop carries the tag of the first section or, with two or more locations, of the second (within the step's own assignments; `FieldResults.SectionCapField` states it for the returned dict) |
| FieldFacts.SectionSplit | acord_filler.py:203-302 | the section's assignments are its body, then the Texas defaults, then the breakdown box |
| FieldFacts.SectionBodyShort | acord_filler.py:209-279 | the section's fields before the Texas defaults have names of at most 53 characters, so none of them is a Texas field |
| FieldFacts.TexasDefaults | acord_filler.py:281-296 | both "no" boxes of a section are "Yes" exactly when its state is `"TX"`, and are not assigned otherwise (within the step's own assignments; `FieldResults.TexasField` states it for the returned dict) |
| FieldFacts.TexasState | acord_filler.py:282-288 | the state is `"TX"` exactly when the location says so, or gives no state and the first token of the third address part is `TX` |
| FieldFacts.HeaderStored | acord_filler.py:304-320 | with a location, each header field holds `config.get(key, "")`, the producer is the agency name's first line and the completion date is the run's date; with none, nothing is written (within the step's own assignments; `FieldResults.HeaderField` states it for the returned dict) |
| FieldData.PutHistory | acord_filler.py:322-354 | the prior carrier, the "no losses" box and the loss rows are assigned in order |
| HistoryFacts.PriorStored | acord_filler.py:322-333 | with truthy prior-carrier data each of its five fields holds `prior.get(key, "")`; without it none is written (within the step's own assignments; `FieldResults.PriorField` states it for the returned dict) |
| HistoryFacts.LossNoneHistory | acord_filler.py:336-337 | the "no losses" box is "Yes" exactly when `loss_history_none` is missing or truthy (within the step's own assignments; `FieldResults.LossNoneField` states it for the returned dict) |
| FieldData.PutLosses | acord_filler.py:339-354 | the loss loop assigns the rows of the first `min(3, n)` losses, in order |
| FieldData.PutLossRow | acord_filler.py:342-354 | one row assigns each column the loss has in either case, in column order |
| FieldData.LossKeyStep | acord_filler.py:353-354 | one more column is assigned exactly when the loss has it in either case |
| HistoryFacts.LossKeyStores | acord_filler.py:343-354 | within a row a column is written exactly when the loss has it in either case, as `str()` of the corresponding value |
| HistoryFacts.LossCap | acord_filler.py:340-342 | every field the loss loop writes is `ACORD_LossHistory_{n}_<column>` for one of the first `count` losses |
| HistoryFacts.LossRowsStore | acord_filler.py:340-354 | among at most nine rows, row `n` alone decides its own fields |
| HistoryFacts.HistoryLossRows | acord_filler.py:339-354 | at most three loss rows are written, and each column of such a row is decided by that loss alone (within the step's own assignments; `FieldResults.LossRowField` states it for the returned dict) |
| HistoryFacts.LossValueChoice | acord_filler.py:353-354 | the exact-case key wins, the lower-case key is the fallback, and the value is "" only when the loss has neither |
| HistoryFacts.RowsMissNone | acord_filler.py:337-354 | no loss-row field is the "no losses" box |
| HistoryFacts.PriorMissesNone | acord_filler.py:326-337 | no prior-carrier field is the "no losses" box |
| FieldData.PutCheckboxes | acord_filler.py:357-359 | the checkbox loop assigns each entry, in order, "Yes" or "" |
| OverrideFacts.CheckboxLast | acord_filler.py:358-359 | a raw checkbox holds "Yes" when its last entry is truthy and "" otherwise |
| OverrideFacts.FieldDataLookup | acord_filler.py:97-365 | the returned dict holds, at each name, the last value the whole run assigned to it |
| OverrideFacts.OverridesWin | acord_filler.py:361-363 | an override name holds its last override value, whatever any earlier step wrote |
| OverrideFacts.CheckboxesWin | acord_filler.py:356-363 | a raw checkbox that is not overridden holds "Yes" or "" by the truthiness of its last entry, whatever any earlier step wrote |
| OverrideFacts.EarlierStand | acord_filler.py:356-363 | a name in neither the checkboxes nor the overrides keeps what the mapping steps before them left |
| OverrideFacts.FieldDataValid | acord_filler.py:103-365 | the returned dict has no duplicate names, and holds a name exactly when some step assigned it |
| FieldLookups.GroupDecides | acord_filler.py:103-363 | for a name no raw checkbox and no override names, the returned dict holds what the applicant, property or history run, whichever owns the name, assigned it last |
| FieldResults.DirectField | acord_filler.py:107-129 | in the returned dict, for a name no raw checkbox and no override names, a direct key holds `str` of the configuration's value when the configuration has that key, and is missing otherwise |
| FieldResults.DateFields | acord_filler.py:132-134 | in the returned dict, for a name no raw checkbox and no override names, both date fields hold the form's date |
| FieldResults.TransactionField | acord_filler.py:137-147 | in the returned dict, for a name no raw checkbox and no override names, the box of a known transaction type is "Yes" exactly when the configured type is that one, and missing otherwise; with no type given only the quote box is "Yes" |
| FieldResults.TransactionOneBox | acord_filler.py:137-147 | in the returned dict at most one transaction box is "Yes" |
| FieldResults.EntityField | acord_filler.py:150-161 | in the returned dict, for a name no raw checkbox and no override names, the box of a known entity type is "Yes" exactly when the lower-cased configured type is that one, and missing otherwise |
| FieldResults.EntityOneBox | acord_filler.py:150-161 | in the returned dict at most one entity box is "Yes" |
| FieldResults.LocationCapField | acord_filler.py:167-170 | in the returned dict, for a name no raw checkbox and no override names, no field of a location numbered beyond `min(4, n)` is present |
| FieldResults.AddressField | acord_filler.py:172-182 | in the returned dict, for a name no raw checkbox and no override names, each address part of each of the first four locations is what `AddressPartOf` makes of that location's address (stripped comma parts and the tokens of the third), and missing when it has no address |
| FieldResults.SectionCapField | acord_filler.py:204-207 | in the returned dict, for a name no raw checkbox and no override names, an ACORD 140 section field tagged for no section present is missing |
| FieldResults.TexasField | acord_filler.py:281-296 | in the returned dict, for a name no raw checkbox and no override names, both "no" boxes of section `i` are "Yes" exactly when the `i`-th location exists and is in Texas, and missing otherwise |
| FieldResults.HeaderField | acord_filler.py:304-320 | in the returned dict, for a name no raw checkbox and no override names, with at least one location each header field holds `config.get(key, "")`; with none it is missing |
| FieldResults.ProducerFields | acord_filler.py:304-320 | in the returned dict, with at least one location, the producer is the first line of the agency name and the completion date is the form's date; with none both are missing |
| FieldResults.PriorField | acord_filler.py:322-333 | in the returned dict, for a name no raw checkbox and no override names, with truthy prior-carrier data each prior-carrier field holds `prior.get(key, "")`; without it each is missing |
| FieldResults.LossNoneField | acord_filler.py:335-337 | in the returned dict, unless a raw checkbox or an override names it, the "no losses" box is "Yes" when `loss_history_none` is missing or truthy, and missing otherwise |
| FieldResults.LossRowField | acord_filler.py:339-354 | in the returned dict, for a name no raw checkbox and no override names, loss row `n` (of at most nine) holds, per column, `str` of the value of loss `n` when that is one of the first three losses and has the column, and is missing otherwise |
| OverrideFacts.KeysAssigned | acord_filler.py:358-363 | a name is among the entries of a checkbox or override dict exactly when applying them assigns it |
| Text.SplitCount | acord_filler.py:174 | `split(sep)` yields exactly one more part than the separator occurs in the text, proved by induction over the text |
| Text.SplitJoin | acord_filler.py:174 | joining the parts of `split(sep)` with the separator gives back the text, proved by induction over the text |
| Text.SplitParts | acord_filler.py:174 | `split(sep)` yields parts none of which holds the separator, exactly one more part than the separator occurs in the text, and joining the parts with the separator gives back the text |
| Text.StripLeftTrims | acord_filler.py:176 | `lstrip` returns a suffix of the text, empty or starting with a non-space, and every character it removed is whitespace |
| Text.StripRightTrims | acord_filler.py:176 | `rstrip` returns a prefix of the text, empty or ending with a non-space, and every character it removed is whitespace |
| Text.StripTrims | acord_filler.py:176-178 | `strip()` returns the slice of the text that starts where `lstrip` stops; it neither starts nor ends with whitespace, and what it drops on either side is whitespace only |
| Text.WordsSplit | acord_filler.py:178 | `split()` yields the maximal whitespace-free runs in order: each token is non-empty and holds no whitespace, and the text is the tokens interleaved with whitespace-only gaps, one more gap than tokens, every gap between two tokens non-empty |
| Text.FirstWord | acord_filler.py:178 | the first token is the longest whitespace-free prefix |
| Text.Lower | acord_filler.py:150 | `lower()` on ASCII: A–Z become a–z, every other character is kept, and the length is kept |
| Text.Upper | acord_filler.py:421 | `upper()` on ASCII: a–z become A–Z, every other character is kept, and the length is kept |
| Text.NatToDecimal | acord_filler.py:170 | `str(n)` of a positive single digit is that digit, and is never empty |
| Text.SortStringsCorrect | acord_filler.py:165 | `sorted` returns the strings in ascending code-point order, each as often as given |
| Text.LessEqTotal | acord_filler.py:165 | any two strings are ordered one way or the other |
| Text.LessEqTransitive | acord_filler.py:165 | string order is transitive |
| Text.LessEqAntisymmetric | acord_filler.py:165 | strings ordered both ways are equal |
| Json.GetOr | acord_filler.py:137 | `get(k, d)` is the value at `k` when present and `d` otherwise |
| Json.PyStr | acord_filler.py:129 | `str()` of a string is the string itself and of an integer its decimal digits |
| Document.NamesOf | acord_filler.py:378-379 | the name set of a page is exactly the names its widgets carry |
| Document.AllNames | acord_filler.py:374-379 | the name set of a document is the union of its pages' names |
| Document.Flatten | acord_filler.py:616-622 | flattening yields one image page per source page, in order, with the source's size and content |
| WidgetFill.FilledWidget | acord_filler.py:378-383 | a widget keeps its name; it holds `str(value)` exactly when its name is a key, and is untouched otherwise |
| WidgetFill.FillKeepsShape | acord_filler.py:377-383 | filling keeps the page count, each page's size and its widget count |
| WidgetFill.FillKeepsNames | acord_filler.py:377-383 | filling changes no widget name, so the document's name set is unchanged |
| WidgetFill.FillIdempotent | acord_filler.py:377-383 | filling twice with the same dict is filling once |
| WidgetFill.MatchCountBounds | acord_filler.py:380-383 | a page's count is at most its widget count; it is all of them exactly when every name is a key, and zero exactly when none is |
| WidgetFill.MatchCountPagesBound | acord_filler.py:377-383 | `filled` never exceeds the number of widgets in the document |
| WidgetFill.UnmatchedMembers | acord_filler.py:385 | a key is skipped exactly when no widget carries its name |
| WidgetFill.UnmatchedPartition | fill_acord.py:68-70 | every key is either matched or skipped, never both: the two lists split the keys |
| WidgetFill.UnmatchedAppend | fill_acord.py:68-70 | the skipped list keeps the dict's order |
| AcordFiller.FillWidgets | acord_filler.py:368-386 | every widget is filled from the dict, `filled` counts the widget occurrences whose name is a key, and `skipped` lists, in dict order, the keys no widget carries |
| AcordFiller.FillPageWidgets | acord_filler.py:377-383 | one page's widgets are filled in place and the other pages are unchanged |
| AcordFiller.FillWidgetRun | acord_filler.py:378-383 | the inner loop fills each widget whose name is a key, collects the names and counts the matches |
| AcordFiller.WidgetsStep | acord_filler.py:379-383 | one more widget adds its name, and counts exactly when its name is a key |
| AcordFiller.PagesStep | acord_filler.py:377-383 | one more page adds its names and its matches |
| AcordFiller.PagesToKeep | acord_filler.py:606-608 | no more indices are kept than there are pages |
| AcordFiller.GlPageRange | acord_filler.py:70 | the general-liability pages are 0-based pages 4 to 7 |
| AcordFiller.PagesToKeepMembers | acord_filler.py:606-608 | the kept indices are exactly the page indices outside the general-liability pages |
| AcordFiller.PagesToKeepIncreasing | acord_filler.py:606-610 | the kept pages stay in their original order |
| AcordFiller.PagesToKeepCount | acord_filler.py:606-608 | up to 4 pages are all kept, 5 to 8 pages keep the first 4, and longer documents lose exactly 4 |
| AcordFiller.FlattenWithoutGl | acord_filler.py:604-614 | with `skip_gl` the output is the kept pages, in order, each rendered at its own size |
| AcordFiller.UpperIsY | acord_filler.py:421 | a value upper-cases to "Y" exactly when it is "Y" or "y" |
| AcordFiller.YnDrawPlaced | acord_filler.py:415-428 | a falsy answer draws nothing; a string answer draws its upper-cased text once, on its question's row, at the Y column exactly when it is "Y" in either case |
| AcordFiller.AllNoDrawsEveryRow | acord_filler.py:412-428 | with `general_info_all_no` and no answers given, every question is answered "N" at its N column, in table order |
| AcordFiller.YnDrawsRows | acord_filler.py:408-428 | each question draws at most one answer, so there are no more draws than questions, and every drawn answer is on the overlay page, on a question's row |
| AcordFiller.PriorRowsPlaced | acord_filler.py:446-463 | each Property value is drawn at x = 355, size 7, on its row, exactly when the value is truthy, as `str()` of the value |
| AcordFiller.CreateBrokerNotes | acord_filler.py:490-555 | the notes document is the heading plus each note's box and wrapped lines at the cursor the earlier notes leave |
| AcordFiller.NotesStep | acord_filler.py:515-552 | adding a note adds its box and lines at the cursor the notes before it leave, and moves the cursor past it |
| AcordFiller.NoteSized | acord_filler.py:518-531 | a note's box is `20 + 12 * lines + 8` high, where `lines` is the wrap of its words at 85 characters |
| AcordFiller.DrawNote | acord_filler.py:531-552 | one note: the box is placed (breaking the page when needed), its lines are drawn 12 apart from `y + 14`, and y advances by the box height plus 6 |
| AcordFiller.NoteLinesInBox | acord_filler.py:539-550 | every wrapped line of an ACORD 125 note lies inside its box |
| WordWrap.WrapWords | acord_filler.py:518-529 | the wrap loop returns the greedy wrap of the words |
| WordWrap.WrapWidth | acord_filler.py:521-527 | no wrapped line is longer than the width unless it is a single word longer on its own |
| WordWrap.WrapContent | acord_filler.py:518-529 | rejoining the non-empty wrapped lines with spaces gives back the words: nothing is lost, duplicated, reordered or split |
| WordWrap.WrapBlankFirstLine | acord_filler.py:522-525 | an empty line is emitted only first, and exactly when the first word alone is longer than the width |
| NotesLayout.Consecutive | acord_filler.py:533-552 | the next box starts a new page at y = 50 exactly when it would reach below y = 750; otherwise it sits on the same page, the gap below the previous one |
| NotesLayout.PlaceAllAt | acord_filler.py:515-552 | box `i` is placed at the cursor the boxes before it leave |
| NotesLayout.PlaceAllFits | acord_filler.py:533-536 | no box reaches below y = 750 unless it is taller than a whole page allows |
| NotesLayout.PlaceAllTops | acord_filler.py:533-536 | no box starts above y = 50, and the boxes use at most one new page each |
| NotesLayout.EndCursorBelow | acord_filler.py:533-552 | the cursor never moves above y = 50 and gains at most one page per box |
| AcordPipeline.CountWidgets | acord_filler.py:592 | `total_fields` is the number of widget occurrences in the document |
| AcordPipeline.FillKeepsTotal | acord_filler.py:591-592 | counting after filling gives the form's own widget total |
| AcordPipeline.FillForm | acord_filler.py:590-592 | filling returns the match count, the widget total and the skipped keys, with the count never above the total |
| AcordPipeline.FlatPages | acord_filler.py:604-622 | flattening keeps every page, or the non-general-liability pages under `skip_gl` |
| AcordPipeline.ItemTexts | acord_filler.py:643-645 | the notes list is usable exactly when every note is a string, and then gives their texts in order |
| AcordPipeline.WriteOutput | acord_filler.py:594-635 | the `flatten` branch returns the flattened pages with both overlays drawn, and the other branch the filled editable pages |
| AcordPipeline.WriteNotes | acord_filler.py:642-645 | notes are produced exactly when a path was given and the list is non-empty |
| AcordPipeline.FillWith | acord_filler.py:589-654 | once the dict is built, the summary holds the match count, widget total, skipped keys and OCR outcome of the run; the run fails exactly when an overlay or the notes fail |
| AcordPipeline.FillAcord | acord_filler.py:558-654 | `fill_acord`: the document is filled with `_build_field_data`'s dict and the summary is as for `FillWith` |
| MapAcord25.LineDate | map_acord25.py:74-77 | a line's date is its own when present, else the legacy policy's, else "" |
| MapAcord25.MapToAcord25 | map_acord25.py:17-160 | the method performs the mapper's assignments in source order and raises exactly where the source does |
| MapAcord25.StagedFields | map_acord25.py:17-160 | the dict is what the insurers table, the middle steps and the tail leave, one after the other |
| MapAcord25.PutHead | map_acord25.py:33-46 | the insurers table and the slot-A copy, raising on the first unusable letter |
| MapAcord25.PutInsurers | map_acord25.py:37-41 | the insurer loop writes two slot fields per insurer for the first five insurers |
| MapAcord25.LaterFailures | map_acord25.py:37-39 | once an insurer's letter raises, the loop's result is that error however many insurers follow |
| MapAcord25.PutMiddle | map_acord25.py:48-141 | the completion date, the parties, the coverage lines and the holder's fields are assigned in order |
| MapAcord25.PutCoverages | map_acord25.py:79-132 | the four `if line.get("has")` blocks run in order GL, automobile, umbrella, workers' compensation |
| MapAcord25.PutLine | map_acord25.py:80-95 | one line's block assigns its entries only when `has` is truthy |
| MapAcord25.BuildRemark | map_acord25.py:144-152 | the remark parts are collected in the fixed order of the four flags |
| MapAcord25.PutTail | map_acord25.py:143-158 | the remark and the additional-insured codes are assigned last |
| Acord25Insurers.LastOfLetter | map_acord25.py:37-41 | finds the last of the first `count` insurers with a given letter, or reports that there is none |
| Acord25Insurers.InsurerLoopSucceeds | map_acord25.py:37-41 | the loop raises exactly when an insurer it reads has a letter `ord` refuses, and writes two fields per insurer otherwise |
| Acord25Insurers.LoopSlot | map_acord25.py:37-41 | a slot filled by the loop holds the last insurer with its letter |
| Acord25Insurers.HeadSlot | map_acord25.py:33-46 | slot A shows the first insurer, whatever its letter; any other slot shows the last of the first five insurers with its letter |
| Acord25Insurers.InsurerFields | map_acord25.py:33-46 | the returned dict's slot fields are as `HeadSlot` says, whatever the later steps write |
| Acord25Insurers.LegacyInsurer | map_acord25.py:33-35 | with falsy `insurers` and a legacy carrier, the table is one slot-A insurer carrying the legacy carrier and NAIC code |
| Acord25Insurers.NoInsurers | map_acord25.py:37-46 | without insurers no slot field is written |
| Acord25Insurers.Acord25Succeeds | map_acord25.py:37-146 | the mapper raises exactly when one of the first five insurers has a letter `ord` refuses, or the holder is an additional insured without a name |
| Acord25Insurers.HeadSucceeds | map_acord25.py:37-39 | the insurers table raises exactly when one of the first five letters is unusable |
| Acord25Lookups.ReadsLast | map_acord25.py:17-160 | the dict at any field is the last value the insurers table, the middle steps and the tail assign to it |
| Acord25Lookups.HeadDecides | map_acord25.py:33-46 | an insurer field is decided by the insurers table alone |
| Acord25Lookups.PartyDecides | map_acord25.py:48-71 | a date, producer or insured field is decided by the parties alone |
| Acord25Lookups.CoverageDecides | map_acord25.py:79-132 | a coverage-line field is decided by the coverage lines alone |
| Acord25Lookups.HolderDecides | map_acord25.py:134-158 | a holder field is decided by the holder's entries unless the remark or the codes assign it later |
| Acord25Lookups.CoverageField | map_acord25.py:79-132 | a coverage-line field holds its entry's value when the line's `has` is truthy and is not assigned otherwise |
| Acord25Lookups.FormCoverageField | map_acord25.py:79-132 | the same, for the lines of map_acord25.py |
| Acord25Lookups.FormLimitsOk | map_acord25.py:90-95 | the general-liability limits of map_acord25.py are distinct copy fields apart from the line's head |
| Acord25Lines.GlLetter | map_acord25.py:80-86 | the GL insurer letter is `insurer_letter`, defaulting to A, when GL has coverage |
| Acord25Lines.AutoLetter | map_acord25.py:98-101 | the automobile insurer letter defaults to B |
| Acord25Lines.UmbrellaLetter | map_acord25.py:111-114 | the umbrella insurer letter defaults to C |
| Acord25Lines.WcLetter | map_acord25.py:122-125 | the workers' compensation insurer letter defaults to D |
| Acord25Lines.GlPolicyNumber | map_acord25.py:87 | the GL policy number falls back to the legacy policy's number, then "" |
| Acord25Lines.AutoPolicyNumber | map_acord25.py:102 | the automobile policy number falls back to "" only |
| Acord25Lines.DateField | map_acord25.py:74-77 | a line's date field holds its line date when the line has coverage and is not assigned otherwise |
| Acord25Lines.FormDate | map_acord25.py:82-89 | the same, for the lines of map_acord25.py |
| Acord25Lines.IndicatorField | map_acord25.py:84-85 | an indicator is "Yes" exactly when its line has coverage and its flag is truthy, and is never assigned anything else |
| Acord25Lines.FormIndicator | map_acord25.py:106-108 | the same, for the indicators of map_acord25.py |
| Acord25Parties.ProducerAddressLines | map_acord25.py:52-55 | the producer's address line is `address_line1` (else `address`), then a line break and `address_line2` only when that is truthy |
| Acord25Parties.DateLookup | map_acord25.py:48 | the completion date is the date of the run |
| Acord25Parties.ProducerLookup | map_acord25.py:50-61 | the producer's name, address line and contact fields come from the agency, with "" for a missing value |
| Acord25Parties.ProducerKeys | map_acord25.py:50-61 | any producer field of the dict is what the producer's assignments leave |
| Acord25Parties.InsuredLookup | map_acord25.py:63-71 | the named insured's name and address fields come from `insured`, with "" for a missing value; the address line is `address_line1`, followed by a line break and `address_line2` when that is truthy |
| Acord25Parties.InsuredKeys | map_acord25.py:63-71 | any named-insured field of the dict is what the insured's assignments leave |
| Acord25Holder.HolderField | map_acord25.py:135-141 | the holder's name and address fields hold the holder's values, with "" for a missing value |
| Acord25Holder.RemarkLookup | map_acord25.py:143-154 | the remark is present exactly when some sentence applies, and is the sentences joined by line breaks |
| Acord25Holder.RemarkPresent | map_acord25.py:144-153 | the remark has a sentence exactly when one of the four flags is truthy |
| Acord25Holder.RemarkRaises | map_acord25.py:145-146 | building the remark raises exactly when the holder is an additional insured without a name |
| Acord25Holder.CodeLookup | map_acord25.py:156-158 | a GL or automobile additional-insured code is "Y" exactly when the holder is an additional insured and the line has coverage, and is not assigned otherwise |
| ServerForms.ServerMapToAcord25 | server.py:412-555 | the server's copy of the mapper performs the same steps with its own two GL limit names |
| ServerForms.CopiesDiffer | server.py:485-490 | the two copies read the same keys into the same GL limit fields except the medical-expense and products limits |
| ServerForms.ServerLimitsOk | server.py:485-490 | the server's GL limits are distinct copy fields apart from the line's head |
| ServerForms.CopiesAgree | server.py:474-490 | two mappers differing only in their GL limits raise together with the same error and agree on every other field |
| ServerForms.ServerAgrees | server.py:412-555 | the server's dict and map_acord25.py's agree on every field except the renamed limits, and raise together |
| ServerForms.LimitField | server.py:485-490 | a GL limit field of either copy holds `gl.get(key, "")` when GL has coverage and is not assigned otherwise |
| ServerForms.MergeLookup | server.py:717 | the merge holds the holder's value wherever it has the key and the policy's otherwise, and no other keys |
| ServerForms.MergeValid | server.py:717 | the merge has no duplicate keys |
| ServerForms.MergeRaises | server.py:717 | the merge raises exactly when the policy or the holder is not a dict |
| ServerForms.EndpointAcord25 | server.py:714-715 | for form "25" the endpoint's dict agrees with map_acord25.py's everywhere except the renamed limits, and raises when it does |
| ServerForms.EndpointOtherForm | server.py:716-717 | every other form gets the merge, the holder's keys winning over the policy's |
| ServerQuality.Counter.constructor | server.py:626 | the counters start at zero |
| ServerQuality.Counter.Count | server.py:627-638 | `_count` adds the value's filled and total tallies to the counters |
| ServerQuality.Counter.CountMembers | server.py:630-636 | the member loop adds each member's tally |
| ServerQuality.Counter.CountMember | server.py:632-636 | one member: skipped when hidden, counted, filled when truthy, then walked at depth + 1 |
| ServerQuality.Counter.CountItems | server.py:637-638 | the list loop adds each element's tally at depth + 1, counting no element itself |
| ServerQuality.CalcQuality | server.py:625-640 | the score is the rounded percentage of filled keys, 0 when nothing is counted, and at most 100 |
| ServerQuality.FilledIsTruthy | server.py:634 | a key is filled exactly when its value is truthy; the extra comparisons decide nothing |
| ServerQuality.TallyBounded | server.py:633-635 | no more keys are filled than are counted |
| ServerQuality.ScoreBounded | server.py:640 | the score is between 0 and 100: 0 when nothing is filled, 100 when everything is |
| ServerQuality.RoundNearest | server.py:640 | `round` lies within a half of the exact quotient and is even at a tie |
| ServerQuality.RoundAtMost | server.py:640 | a quotient of at most `q` rounds to at most `q` |
| ServerQuality.RoundNone | server.py:640 | a zero quotient rounds to zero |
| ServerQuality.RoundFull | server.py:640 | an exact integer quotient rounds to itself |
| ServerQuality.HiddenAddsNothing | server.py:632 | a key starting with "_" adds nothing, whatever its value holds |
| ServerQuality.DeepNothing | server.py:629 | below depth 5 nothing is counted |
| ServerQuality.PlainItemsNothing | server.py:637-638 | a list of plain values adds nothing: elements are visited, not counted |
| ServerQuality.PlainTally | server.py:633-636 | a counted member with nothing to walk adds one key, filled exactly when its value is truthy |
| FillAcord.FillAcordForm | fill_acord.py:34-98 | the widgets are filled from the dict; `filled_count` counts matched widget occurrences, `total_fields` counts distinct names, and `skipped` lists the unmatched keys in dict order; flattening renders every page |
| FillAcord.FillLoop | fill_acord.py:54-60 | the first loop fills the document page by page and counts the matched widgets |
| FillAcord.FillPageLoop | fill_acord.py:55-60 | the inner loop fills one page in place |
| FillAcord.CollectNames | fill_acord.py:63-66 | the second loop collects exactly the document's widget names |
| FillAcord.SkippedKeys | fill_acord.py:68-70 | the third loop lists, in dict order, the keys no widget carries |
| FillAcord.AddBrokerNotes | fill_acord.py:101-169 | the notes pages are the heading plus each note's box, title and body at the cursor the earlier notes leave, over as many pages as the breaks need |
| FillAcord.NotesStep | fill_acord.py:126-163 | adding a note adds its marks at the cursor the notes before it leave, and moves the cursor past it |
| FillAcord.DrawNote | fill_acord.py:128-163 | one note: the box is sized from the body length, placed (breaking the page when needed), the title drawn at `y + 14`, the wrapped body drawn from `y + 28`, and y advances by the box height plus 8 |
| FillAcord.DrawBody | fill_acord.py:149-161 | the body loop draws the greedy 90-character wrap of the words 11 apart |
| FillAcord.BodyFitsIff | fill_acord.py:129-161 | the wrapped body fits inside its box exactly when it has at most `len(body) // 90 + 3` lines |
| FirstPageFill.FillFirstPage | fill_acord25.py:130-147 | only page 0 is filled; an empty document raises; the counters count the text fields set and the boxes ticked |
| FirstPageFill.FillWidgets | fill_acord25.py:133-147 | the widget loop fills each widget by the two tables and counts both kinds |
| FirstPageFill.FillOne | fill_acord25.py:134-147 | the text table is consulted first; a truthy value sets `str(value)` or ticks the box, and counts once |
| FirstPageFill.FillWidgetUntouched | fill_acord25.py:133-147 | a widget named in neither table is unchanged, and a change is always a text value or a ticked box |
| FirstPageFill.CountsBound | fill_acord25.py:131-147 | the two counters together never exceed the number of page-0 widgets |
| FirstPageFill.NoCheckboxTable | fill_acord37.py:89-97 | without a checkbox table nothing is ticked |
| FirstPageFill.FlatFirstPage | fill_acord25.py:150-153 | the flattened certificate is one image page of page 0's size |
| FirstPageFill.SignatureRect | fill_acord25.py:161-164 | the signature is `sig_w` wide and 22 high with its top at y = 721 |
| FirstPageFill.SignatureCentred | fill_acord25.py:163-164 | a signature no wider than the 280-point line sits inside it with margins differing by at most one point; a wider one overhangs on the left |
| FirstPageFill.FillCertificate | fill_acord24.py:75-108 | fill page 0, flatten it to one page of the same size, and place the signature when one is given |
| FillAcord24.Fill | fill_acord24.py:73-124 | `fill_acord24` with its own text and checkbox tables: fails exactly when the document has no page and then leaves it unchanged; otherwise page 0 alone gets its widgets filled, the counts are those of the filled widgets, and the returned image page has page 0's size and shows its filled widgets |
| FillAcord25.Fill | fill_acord25.py:116-181 | `fill_acord25` with its own text and checkbox tables: fails exactly when the document has no page and then leaves it unchanged; otherwise page 0 alone gets its widgets filled, the counts are those of the filled widgets, and the returned image page has page 0's size and shows its filled widgets |
| FillAcord37.Fill | fill_acord37.py:74-124 | `fill_acord37`: text fields only, page 0 only, returning `fields_filled` and the one image page, which has page 0's size and shows its filled widgets; fails exactly when the document has no page and then leaves it unchanged |

## Left out

- PyMuPDF is abstracted. Page sizes, widget values, image pages and draw commands are values; rendering, pixmaps, fonts, colours, `widget.update()`, opening and saving files, and the temporary files are not modelled.
- `_apply_ocr` and the ocrmypdf step of the ACORD 24/25/37 fillers are external processes. `fill_acord` takes the OCR outcome as the parameter `ocrSucceeds`; the other fillers leave the step out.
- The signature's aspect ratio is a floating-point computation from the image file. The fillers take the resulting integer `sig_w` as input.
- The date of the run (`datetime.now`, `date.today`) is the parameter `today`, so date formatting is left out.
- JSON floats are not modelled; numbers are integers.
- Text.Lower: maps only A–Z, where Python's `str.lower()` maps all of Unicode. The decisions it feeds are unaffected: the entity types, the interests (`owner`, `tenant`) and the loss columns it is compared with or applied to contain no "k", and the only non-ASCII character that lower-cases to a single ASCII letter is U+212A KELVIN SIGN, which becomes "k".
- Text.Upper: maps only a–z, where Python's `str.upper()` maps all of Unicode. Which column a Y/N answer goes to is unaffected, since no other character upper-cases to "Y"; but the drawn text of an answer with non-ASCII letters keeps them as given, where Python would upper-case them (or expand them, as "ß" to "SS").
- `ServerQuality.CalcQuality`: the score is the exact rational `filled * 100 / total` rounded half to even, as Python's `round` does. The floating-point error of `filled / total * 100` is left out.
- JSON objects with duplicate keys are left out. `Find` reads the first member while Python's `json.loads` keeps the last.
- Wrong-typed JSON is read leniently where Python would raise: `.get` on a non-object answers the default, a non-string reads as "" for `.split`/`.lower`, and a non-list reads as empty for `insurers` and `loss_history`. The raises the model keeps are these:
  - `ord` on a letter that is not one character;
  - `ch['name']` for a nameless additional insured;
  - `.upper()` on a non-string Y/N answer;
  - a non-string broker note;
  - `{**policy, **holder}` on a non-dict;
  - `doc[0]` on an empty document.
- `str()` of a nested list or dict follows Python's `repr` layout for strings without quotes or escapes. Escaping inside strings is not modelled.
- `idx = ord(letter) - ord("A")` in the insurer loop is computed and never used. The model keeps only the raise that `ord` can cause.
- The field names of the ACORD 25 mapper are modelled as a page prefix, a table prefix and a name. This only groups the names; the dict holds the concatenated strings.
- `list_fields`, `extract_policy_pages`, `_flatten_to_images` (used by no modelled path) and the command-line `main` functions are argument parsing and thin wrappers. They are not modelled.
- The rest of server.py is not part of this model: the FastAPI endpoints other than the form-type dispatch, authentication, the sqlite telemetry store, logging, file handling and the AI extraction. These are I/O, network and storage.
- The typed-signature width estimate in server.py is floating point, and is not modelled.
