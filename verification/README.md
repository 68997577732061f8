# Experiment designer: store, selection, templates and video tab

A Dafny model of the browser-side core of the experiment designer. The
designer is a web page where a science teacher picks a curriculum from four
cascading dropdowns: school level, grade group, subject and unit. The
teacher then selects content elements and submits a topic and a teaching
intent. Three tabs react to this through a shared publish/subscribe store:
an experiment design, a student report template, and recommended videos.

The model covers four parts, one module each, plus a module of shared pieces:

- `Store` (`data_store.dfy`) is the central `DataStore` of
  `shared/data-store.js`. It is a class with the state record, the
  subscriber registry and two traces: every `emit` call, and every handler
  call it makes. Each setter is proved to:
  - write exactly its slot;
  - emit exactly its events, in order;
  - reach exactly the subscribed handlers, in registration order.

  A handler is an id plus the payloads on which it throws. A throwing
  handler is recorded as such and the remaining handlers still run.
- `Selection` (`selection.dfy`) covers the curriculum editing of `main.js`:
  - the dropdown change handlers;
  - toggling and removing content elements;
  - clearing the elements;
  - the checks and default texts of the submit handler.

  These drive a `DataStore`.
- `Utils` (`utils.dfy`) holds `renderTemplate` and `formatPrerequisiteContent`
  from `shared/utils.js`. The renderer is the `{{key}}` scan of the
  regular expression `/\{\{(\w+)\}\}/g`. The prerequisite formatter has two
  stages, both imperative methods proved against recursive functions:
  - the `forEach` that builds a nested, insertion-ordered dictionary;
  - the four nested `for…in` loops that print it.
- `VideoTab` (`video.dfy`) is the video recommendation tab of
  `video/video.js`. It holds:
  - `formatDuration` and `formatViewCount`, including the `parseInt` read of
    the count;
  - the lookup-table, translation and fallback rule for the curriculum
    query;
  - the search and filter queries;
  - the search and paging state as a class: `performSearch`,
    `loadVideos`, `loadMoreVideos`, `handleSearch`, filter tags and
    `loadCurriculumVideos`.
- `Common` (`common.dfy`) holds the JavaScript behaviour the others use:
  - `String.prototype.trim` with the ECMAScript whitespace set;
  - `Array.prototype.join`;
  - decimal printing and reading of integers.

The DOM, the network and the translation service are not modelled. What a
handler reads from them is a parameter:
- the dropdown values and the typed texts;
- the search API's response, as `SearchResponse`;
- the translation result, as an `Option<string>` that is `None` when the
  request fails.

## Model

| member | source | states |
|---|---|---|
| Common.Trim | main.js:499-505 | `trim()` is the text with its leading and trailing runs of ECMAScript whitespace removed: what it cuts on each side is blank and the middle is kept. It is empty exactly when the text is all whitespace, and a non-empty result neither starts nor ends with whitespace. |
| Common.JoinAppend | main.js:500 | `join(sep)` of two non-empty lists one after the other is the join of the first, `sep`, then the join of the second. |
| Common.JoinSnoc | main.js:500 | Appending an item to a non-empty list appends the separator and the item to its join. |
| Common.Dec | video/video.js:390 | The decimal text of a non-negative integer is all digits, has no leading zero except for 0 itself, and is one character long exactly for 0 to 9. |
| Common.ParseDec | video/video.js:385 | Reading the printed decimal text of `n` back gives `n`. |
| Common.DigitRunOf | video/video.js:371 | A greedy `\d+` over a digit string followed by a non-digit consumes exactly that string. |
| Store.Subscribed | shared/data-store.js:34-39 | `subscribe` appends the handler at the end of the event's list and creates the list if it is missing. Every other event's list is unchanged. |
| Store.Deliver | shared/data-store.js:44-50 | `emit` calls each handler once, in order. A handler that throws is recorded as throwing and the handlers after it are still called. |
| Store.CallEach | shared/data-store.js:44-50 | The `forEach` loop of `emit` makes exactly the calls `Deliver` describes. |
| Store.FanoutAppend | shared/data-store.js:42-52 | The calls made by two runs of events, one after the other, are the first run's calls followed by the second run's. |
| Store.UnsubscribedEventReachesNobody | shared/data-store.js:43 | An event nobody subscribed to calls no handler. |
| Store.SubscribeThenEmit | shared/data-store.js:34-52 | A handler subscribed last is called last, after every earlier subscriber, and after the same calls as before. |
| Store.Combine | shared/data-store.js:75-80 | The flat record holds every curriculum field and every form field it was built from. |
| Store.CombineSplit | shared/data-store.js:75-80 | Splitting a submission into curriculum and form data and recombining them gives it back. |
| Store.DataStore.constructor | shared/data-store.js:4-31 | The initial state: empty curriculum, empty form fields, no experiment, no template, no videos, no subscribers. |
| Store.DataStore.Subscribe | shared/data-store.js:34-39 | The registry becomes `Subscribed(old, event, handler)`. Data and traces are unchanged. |
| Store.DataStore.Emit | shared/data-store.js:42-52 | The event is recorded, and the calls to the event's handlers are appended. Data and registry are unchanged. |
| Store.DataStore.GetCurriculum | shared/data-store.js:59-61 | The stored curriculum (a copy; values are not shared here). No contract of its own; the setters' contracts read their slot back through it. |
| Store.DataStore.GetFormData | shared/data-store.js:69-71 | The stored form data. No contract of its own; `SetFormData` reads it back. |
| Store.DataStore.GetExperiment | shared/data-store.js:96-98 | The stored experiment. No contract of its own; `SetExperiment` reads it back. |
| Store.DataStore.GetTemplate | shared/data-store.js:107-109 | The stored template. No contract of its own; `SetTemplate` reads it back. |
| Store.DataStore.GetVideos | shared/data-store.js:121-123 | The stored video list. No contract of its own; `SetVideos` states it. |
| Store.DataStore.GetCompleteFormData | shared/data-store.js:75-80 | The result's curriculum part is the stored curriculum and its form part the stored form data. |
| Store.DataStore.SetCurriculum | shared/data-store.js:55-62 | Only the curriculum slot changes. `GetCurriculum` returns it. Exactly one 'curriculum-changed' event is emitted, carrying it. |
| Store.DataStore.SetFormData | shared/data-store.js:65-72 | Only the form slot changes. `GetFormData` returns it. Exactly one 'form-data-changed' event is emitted. |
| Store.DataStore.SetExperiment | shared/data-store.js:83-98 | Only the experiment changes. `GetExperiment` returns it. 'experiment-generated' and then 'experiment-changed' are emitted, both with the text. |
| Store.DataStore.SetTemplate | shared/data-store.js:101-109 | Only the template changes. `GetTemplate` returns it. 'template-generated' and then 'template-changed' are emitted, both with the text. |
| Store.DataStore.SetVideos | shared/data-store.js:112-123 | The list becomes old ++ v when appending and v otherwise. One 'videos-updated' is emitted, carrying the resulting list. |
| Store.DataStore.Reset | shared/data-store.js:126-148 | Every slot gets the constructor's value back. Subscribers stay. 'data-reset' is emitted. |
| Store.DataStore.StartNewExperiment | shared/data-store.js:151-159 | Experiment and template become absent and videos empty. Curriculum and form data are unchanged. 'new-experiment-started' is emitted. |
| Store.DataStore.SubmitForm | shared/data-store.js:162-180 | The five curriculum fields and three form fields are copied, so `GetCompleteFormData` returns the submission. 'curriculum-changed', 'form-data-changed' and 'form-submitted' are emitted in that order, and each reaches its handlers in that order. |
| Selection.Without | main.js:371 | The filter leaves no occurrence of the element, keeps every other element, and removes exactly that element's occurrences (as a multiset). |
| Selection.WithoutConcat | main.js:371 | Filtering distributes over concatenation, so kept elements keep their order. |
| Selection.Toggle | main.js:328-334 | The element is present afterwards exactly when it was absent before, and no other element changes membership. An absent element is appended at the end. |
| Selection.ToggleTwiceAbsent | main.js:328-334 | Toggling an absent element twice gives back the original list. |
| Selection.TogglePresentTwice | main.js:328-334 | Toggling a present element twice removes all its occurrences and puts it once at the end. |
| Selection.RemoveIdempotent | main.js:369-376 | Removing an element twice is the same as removing it once. |
| Selection.ToggleKeepsDistinct | main.js:328-334 | Toggling keeps a list without duplicates free of duplicates. |
| Selection.ToggleIn | main.js:337-340 | Only `selectedElements` changes: school level, grade group, subject and unit are copied through. The element's membership flips. |
| Selection.RemoveFrom | main.js:369-376 | Only `selectedElements` changes. The element is gone and every other element keeps its membership. |
| Selection.ToggleElementSelection | main.js:324-343 | The store holds the toggled curriculum and one 'curriculum-changed' is emitted with it. |
| Selection.RemoveSelectedElement | main.js:369-386 | The store holds the curriculum without the element and one 'curriculum-changed' is emitted with it. |
| Selection.ClearContentElements | main.js:389-406 | The store holds the same curriculum with no element selected and one 'curriculum-changed' is emitted. |
| Selection.AfterChange | main.js:178-301 | The dropdowns down to the changed one keep their values and every deeper field becomes null. No element stays selected. |
| Selection.OnDropdownChange | main.js:178-301 | The store ends with `AfterChange`. Each handler first clears the elements (the unit handler only when some value is blank), so one or two 'curriculum-changed' events are emitted, in that order, and each reaches the subscribed handlers in registration order. |
| Selection.PrepareSubmission | main.js:472-505 | The submission is refused exactly when a dropdown is blank or no element is selected; the blank dropdown is reported first. A blank topic or intent becomes the joined elements plus the fixed suffix; any other text is kept as typed. |
| Selection.DefaultTextForOneElement | main.js:499-505 | With empty boxes and one element, the topic is "element 관련 실험" and the intent "element에 대한 이해를 높이기 위한 실험". |
| Selection.HandleFormSubmit | main.js:472-517 | A refused submission shows its alert and leaves the store untouched. An accepted one replaces the curriculum and form slots (content is kept), so `getCompleteFormData` returns it. The three submit events are emitted and reach their handlers in order. |
| Utils.WordRunOf | shared/utils.js:5 | `\w+` over a word string followed by a non-word character consumes exactly that string. |
| Utils.PlaceholderAtOf | shared/utils.js:5 | `{{key}}` with a non-empty word key is recognised as a placeholder for that key. |
| Utils.RenderBound | shared/utils.js:4-8 | A placeholder whose key is bound is replaced by its value, and the scan continues after it. |
| Utils.RenderUnbound | shared/utils.js:6 | In the corrected renderer (see Findings), a placeholder whose key is unbound stays literally in the output. As written, this fails for inherited member names. |
| Utils.RenderPlainChar | shared/utils.js:5 | A character other than an opening brace is copied unchanged. |
| Utils.RenderPlainPrefix | shared/utils.js:5 | Text without an opening brace is copied unchanged. |
| Utils.RenderNothingBound | shared/utils.js:4-8 | In the corrected renderer, a template in which no placeholder has a bound key comes back unchanged. |
| Utils.RenderEmptyMap | shared/utils.js:4-8 | In the corrected renderer, an empty variable map leaves every template unchanged. As written, `{{toString}}` and the other inherited names are still replaced. |
| Utils.RenderSinglePass | shared/utils.js:5 | A substituted value that looks like a placeholder is kept verbatim and is not expanded again. |
| Utils.RenderEmptyBraces | shared/utils.js:5 | `{{}}` is left intact. |
| Utils.RenderSpacedKey | shared/utils.js:5 | `{{a b}}` is left intact. |
| Utils.RenderSingleBraces | shared/utils.js:5 | Single-brace `{x}` is left intact. |
| Utils.RenderReportPrompt | template/template-prompts.js:4-66 | The report prompt's `{{experimentDesign}}` receives the experiment text. The rest of the prompt is kept, including its single-brace instruction lines and any placeholder of another key. |
| Utils.AsWrittenReplacesInheritedKey | shared/utils.js:6 | As written, an unbound `{{toString}}` becomes the text of a native function, where the intended renderer keeps the placeholder. |
| Utils.Put | shared/utils.js:21-33 | Assigning a key sets its value. A new key goes last and an existing key keeps its place, so keys stay listed once each. |
| Utils.RenderTemplate | shared/utils.js:4-8 | The corrected renderer: the left-to-right `{{\w+}}` scan with only the map's own keys bound. No contract of its own; `RenderBound`, `RenderUnbound`, `RenderNothingBound` and `RenderSinglePass` state its behaviour. |
| Utils.RenderTemplateAsWritten | shared/utils.js:4-8 | The renderer as written, where inherited member names count as bound. No contract of its own; `AsWrittenReplacesInheritedKey` states where it departs from `RenderTemplate`. |
| Utils.Insert | shared/utils.js:21-33 | One grouping step, the later entry winning. No contract of its own; `LookupInsert` states what it changes and `AddEntry` is proved equal to it. |
| Utils.Group | shared/utils.js:20-34 | The grouping of all entries. No contract of its own; `GroupValid`, `GroupKeys` and `GroupKeepsLastEntry` state its keys and values. |
| Utils.PutPut | shared/utils.js:21-33 | Creating a key and then assigning it is the same as assigning it. |
| Utils.GroupValid | shared/utils.js:20-34 | Grouping lists every key once at every level. |
| Utils.GroupKeepsLastEntry | shared/utils.js:33 | The elements stored for a school, grade, subject and unit are those of the last entry with them. |
| Utils.LookupInsert | shared/utils.js:21-33 | One grouping step sets the entry's own unit and leaves every other school, grade, subject and unit lookup as it was. |
| Utils.GroupKeys | shared/utils.js:20-34 | The school keys are exactly the entries' schools, and a school's grade keys exactly the grade groups entered with it. So there is one header per distinct pair. |
| Utils.AddEntry | shared/utils.js:21-33 | The `forEach` body creates the missing levels and assigns the unit; the result is the grouping step `Insert`. |
| Utils.GroupEntries | shared/utils.js:20-34 | The `forEach` builds `Group` of the entries. |
| Utils.PrintUnits | shared/utils.js:42-45 | One line "  - unit: e1, e2" per unit, in key order. |
| Utils.PrintSubjects | shared/utils.js:41-46 | The unit lines of each subject, subject after subject, with no line of their own. |
| Utils.PrintGrades | shared/utils.js:38-47 | For each grade group in key order, the "- school grade:" header, then its unit lines. |
| Utils.PrintGrouped | shared/utils.js:37-48 | Every school's grade groups, in key order. |
| Utils.GroupTwoUnits | shared/utils.js:20-34 | Two entries differing only in unit build one school, one grade group, one subject and both units in input order. |
| Utils.RenderTwoUnitDict | shared/utils.js:37-48 | A dictionary of two units under one school, grade and subject prints one header and then both unit lines in key order. |
| Utils.PrintedSharedHeader | shared/utils.js:37-48 | Those two entries print one header followed by both unit lines, in input order. |
| Utils.FormatPrerequisiteContent | shared/utils.js:11-51 | Missing or empty input gives "선수학습 내용이 없습니다.". Otherwise the result is the grouped entries printed school by school. |
| VideoTab.FindPT | video/video.js:371 | The unanchored match starts at the first "PT", and there is none when the text has no "PT". |
| VideoTab.Pad2 | video/video.js:378-380 | `padStart(2, '0')` gives digits that read back as the number: exactly two below 10 (one zero added), the plain decimal text otherwise. |
| VideoTab.FormatDuration | video/video.js:369-382 | `formatDuration` as written. No contract of its own; `FormatDurationOfTime`, `FormatDurationWithoutPT` and `AsWrittenDropsDayDurations` state its output. |
| VideoTab.FormatDurationWithDays | video/video.js:369-382 | The corrected formatter that reads the day designator. No contract of its own; `FormatDurationWithDaysOfIso`, `FormatDurationWithDaysOfDate` and `FormattersAgreeWithoutDays` state its output. |
| VideoTab.ParseInt | video/video.js:385 | `parseInt` on integer texts. No contract of its own; `ParseIntDec` states that it reads printed decimals back. |
| VideoTab.FormatViewCount | video/video.js:384-393 | `formatViewCount`. No contract of its own; `FormatViewCountTruncates` and `FormatViewCountNaN` state its output. |
| VideoTab.SearchTerm | video/video.js:601-633 | The term of the curriculum query. No contract of its own; `MappedElementIgnoresTranslation`, `UnmappedElementFallsBack` and `OnlyFirstElementCounts` state the rule. |
| VideoTab.FormatDurationOfTime | video/video.js:369-382 | For every `PT[hH][mM][sS]`, the shown clock has those hours, minutes and seconds, each absent part counting as 0. |
| VideoTab.FormatDurationWithoutPT | video/video.js:372 | Text without "PT" gives "0:00". |
| VideoTab.ClockReadsBack | video/video.js:378-381 | With hours it is "h:mm:ss", otherwise "m:ss". Each field reads back as the value shown. |
| VideoTab.DaysShownAsZero | video/video.js:371-372 | As written, "P1DT2H" is shown as "0:00". |
| VideoTab.AsWrittenDropsDayDurations | video/video.js:371-372 | As written, every duration with a day part `P{d}DT…` is shown as "0:00". |
| VideoTab.FormatDurationWithDaysOfIso | video/video.js:369-382 | With the day designator read, every `P[nD]T[hH][mM][sS]` is shown with each day as 24 hours. |
| VideoTab.FormatDurationWithDaysOfDate | video/video.js:369-382 | A duration of whole days only, `P[nD]`, is shown as 24 hours per day. |
| VideoTab.DaysShownAsHours | video/video.js:369-382 | Read with its days, "P1DT2H" is shown as 26 hours. |
| VideoTab.FormattersAgreeWithoutDays | video/video.js:369-382 | On durations without days, both formatters show the same clock. |
| VideoTab.ParseIntDec | video/video.js:385 | `parseInt` reads the decimal text of `n` back as `n`. |
| VideoTab.Tenths | video/video.js:388-390 | One decimal is printed only when it is not 0, so a trailing ".0" never appears. |
| VideoTab.TenthsReadBack | video/video.js:388-390 | The printed tenths read back as the number of tenths printed. |
| VideoTab.FormatViewCountTruncates | video/video.js:384-393 | From 1,000,000 on, the text is millions truncated to one decimal plus "M". From 1,000 on, thousands the same way plus "K". Below that, the plain number. |
| VideoTab.FormatViewCountNaN | video/video.js:385-386 | Text that holds no number is shown as "NaN": every text that, after its leading whitespace and at most one sign, is empty or starts with a non-digit. |
| VideoTab.Lookup | video/video.js:498-599 | The table has an entry exactly when one of its rows has the key, and the value found is that of a row with the key. |
| VideoTab.QueryTermOfTermQuery | video/video.js:636 | The search term can be read back out of "science {term} experiment education". |
| VideoTab.BaseQuery | video/video.js:491-636 | No query exactly when the curriculum's subject or unit is falsy. Otherwise the query is built around `SearchTerm`. |
| VideoTab.MappedElementIgnoresTranslation | video/video.js:608-611 | A first element in the table is searched by its table entry whatever the translation. |
| VideoTab.UnmappedElementFallsBack | video/video.js:612-628 | A first element outside the table is searched by its translation, or by itself when translation fails. |
| VideoTab.OnlyFirstElementCounts | video/video.js:604-609 | Only the first selected element shapes the term. |
| VideoTab.ExperimentalGroupLookup | video/video.js:498-599 | The table entry for "실험군" is "experimental group". |
| VideoTab.SearchQuery | video/video.js:210-236 | No search exactly when the base query is empty. Blank input searches the base query. Other input searches base query, a space and the trimmed input. |
| VideoTab.FilterQuery | video/video.js:153-166 | No search exactly when the base query is empty. Otherwise the search is the base query, a space and the filter. |
| VideoTab.ErrorMessage | video/video.js:281-289 | The shown error is never empty. It is the response's error, or the exception's message, when that is non-empty. Otherwise it is "영상 검색 중 오류가 발생했습니다." for a failed response and "영상을 불러오는 중 오류가 발생했습니다." for an exception. |
| VideoTab.VideoRecommendationTab.constructor | video/video.js:5-18 | Empty lists, queries, token and filter, not loading, more videos expected. |
| VideoTab.VideoRecommendationTab.BeginLoad | video/video.js:259-270 | Loading starts, the error box is hidden, and one request goes out with the current query, 12 per page and the current token. |
| VideoTab.VideoRecommendationTab.FinishLoad | video/video.js:271-293 | A page is appended to both lists and sets the token, with more expected exactly when the token is non-empty. A failure shows its message and changes no list. Loading ends either way. |
| VideoTab.VideoRecommendationTab.LoadVideos | video/video.js:259-294 | One request; afterwards not loading, with the page appended or the error shown. Both lists stay equal. |
| VideoTab.VideoRecommendationTab.PerformSearch | video/video.js:238-252 | Nothing changes while loading. Otherwise the query becomes current, lists, token and filter are reset, and the first page is requested with an empty token; afterwards the lists hold that page, or are empty with the failure's message shown. |
| VideoTab.VideoRecommendationTab.LoadMoreVideos | video/video.js:254-257 | No request unless not loading, more expected and a current query. Otherwise the next page, with the stored token, is appended and the error box is hidden, or the failure's message is shown with the lists and token kept. |
| VideoTab.VideoRecommendationTab.HandleSearch | video/video.js:210-236 | Without a base query, only the error box changes, to the missing-base-query message. While a load runs, nothing changes. Otherwise the state is that of a completed search for the combined query (`Searched`): lists, token, filter, error box and the one request. |
| VideoTab.VideoRecommendationTab.ApplyFilter | video/video.js:149-167 | Without a base query, only the error box changes. While a load runs, nothing changes. Otherwise the state is that of a completed search for the base query, a space and the filter. |
| VideoTab.VideoRecommendationTab.LoadCurriculumVideos | video/video.js:481-658 | With a falsy subject or unit, only the error box changes, to the curriculum message. Otherwise the query becomes the base query. While a load runs nothing else changes; if none runs, the state is that of a completed search for it. |
| VideoTab.VideoRecommendationTab.CanLoadMore | video/video.js:184 | The guard of `loadMoreVideos` and of the scroll trigger: not loading, more expected, and a current query. `LoadMoreVideos` is proved to do nothing when it fails. |

## Left out

- The DOM is not modelled. This covers rendering of dropdown options, element tags, video cards, counts, the loading spinner and the "no results" box. Handlers receive what they read from the page as parameters.
- The network is not modelled. The search API, the per-video detail fetch and the translation API are inputs: `SearchResponse`, and an `Option<string>` for the translation.
- Timers are not modelled. This covers the `IntersectionObserver`, the 1500 ms debounce, the retry-polling loops and the auto-hide of the error box. The scroll trigger's guard is `CanLoadMore`.
- Interleaving across `await` is not modelled. Each handler runs to completion. `loadVideos` is split at its `await` into `BeginLoad` and `FinishLoad`, so its pending state can be stated, but other handlers running in between are not modelled.
- Handler side effects are not modelled: a handler is an id plus the payloads on which it throws. A handler that calls back into the store is not modelled. The `console.error` of a caught exception is only the `threw` flag.
- Console logging in `setExperiment` and `handleFormSubmit` is left out.
- Store.DataStore.SetCurriculum: the store keeps a shallow copy but emits the caller's object. A later mutation of the caller's array would show in the store. Only values are modelled, so this aliasing is not.
- Selection.ToggleElementSelection: the source pushes into the array `getCurriculum` returned, which is the store's own array, before calling `setCurriculum`. The final state is the same and is what is modelled; the aliasing in between is not.
- Utils.RenderTemplate: values are strings. A non-string value such as `null` would be printed by `String()`; that conversion is not modelled.
- Utils.FormatPrerequisiteContent: JavaScript lists integer-like object keys (for example "1") in numeric order before other keys. The model keeps plain insertion order for every key.
- Utils.FormatPrerequisiteContent: the `!grouped[...]` tests assume each level is created as an object. A school, grade or subject named like an inherited member (for example "constructor") is not modelled. Neither is a unit named "__proto__": assigning it (shared/utils.js:33) replaces the subject object's prototype instead of adding a key, so the `for...in` at shared/utils.js:42 would list the array's indices.
- VideoTab.Lookup: a first element named like an inherited member (for example "toString") would be found on `elementMapping`'s prototype. The model sees only the written entries.
- VideoTab.FormatViewCount: counts are unbounded integers. Precision loss above 2^53 and exponent notation are not modelled, and `parseInt` is modelled on the integer texts the API returns (no fraction or exponent).
- VideoTab.FormatDuration: the hour, minute and second fields are unbounded integers. The precision loss of `parseInt` above 2^53 is not modelled.
- VideoTab.VideoRecommendationTab.FinishLoad: `renderVideos` runs inside the `try`, so a rendering exception would show the load-failed message with the page already appended. Rendering is not modelled and never throws here.
- VideoTab.VideoRecommendationTab.LoadCurriculumVideos: the curriculum is always a record. The source reads `curriculum.selectedElements` for logging (video/video.js:484) before its `!curriculum` test (video/video.js:491), so a null curriculum would throw there and the test cannot fire. Both callers pass an object: the 'curriculum-changed' payload and a checked form object. The null case is therefore not modelled.
- `formatDate` is left out because it depends on the clock.
- `renderVideos`, `updateVideoCount`, `showNoResults`, `markdownToHtml`, `downloadAsDocx` and `readFileContent` are left out because they are DOM, library or file I/O.
- The server relay, the API wrappers and the experiment and template tabs are not part of this model. Their only logic here is calls to `renderTemplate` and the store setters.

## Findings

| source | as written | input that shows it | evidently intended | confidence | as-written member | corrected member |
|---|---|---|---|---|---|---|
| shared/utils.js:6 | `variables[key] !== undefined` also finds members every object inherits from `Object.prototype` | template "{{toString}}" with variables {} gives "function toString() { [native code] }" | an unbound placeholder stays literally in the output | not executed | Utils.AsWrittenReplacesInheritedKey | Utils.RenderUnbound |
| video/video.js:371 | the pattern requires "PT" and has no day designator | "P1DT2H" (one day, two hours) is shown as "0:00" | the whole ISO 8601 duration is shown, each day as 24 hours | not executed | VideoTab.AsWrittenDropsDayDurations | VideoTab.FormatDurationWithDaysOfIso |
