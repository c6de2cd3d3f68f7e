# cronograma-ipred in Dafny

cronograma-ipred fetches a university's class schedule ("cronograma") from its portal and shows it as a weekly calendar.

The back end is an Express `POST /cronograma` handler:

- It resolves the query (`programa`, `sede`, and `recurso` or `jornada`) from the request body, falling back to defaults.
- It looks the query up in a TTL result cache keyed by `programa-sede-recurso`.
- On a miss it drives a headless browser through the portal's form, retrying with linear backoff.
- It stores the JSON payload it captured, or answers 500 with the error's message.

The front end has two variants, `public/script.js` and the older `script.js`. Each one:

- filters the payload by group and by the Monday-to-Sunday week being viewed;
- groups the activities by the date part of `fecha_inicio`;
- renders one calendar row per date, in ascending date order;
- builds the group picker.

In the logic modelled here, the two variants differ in four places:

- The newer one uses a multi-select of checkboxes, with `EN1` and `DN1` checked by default.
- The older one uses a single select, with `EN1` selected by default.
- The newer one also sorts each day's activities by start time.
- The newer one gives each group a stable colour for its badge (`getColorForGroup`). The older one draws badges without a colour (`script.js`, line 207).

They also differ in the request they send, which is outside the model. The newer one posts `programa`, `sede` and `jornada` from its form to `BASE_URL`. The older one posts to a fixed `http://localhost:3000` with no body, so the handler always resolves the defaults for it (`Controller.ResolveParams` with no body).

The model has seven modules, one file each:

- `Values`: the optional value, the JSON payload with JavaScript truthiness, and the body fields.
- `Helpers`: `isNumStr` and the cache key.
- `ResultCache`: the module-level `Map` as a class whose `store` the methods update.
- `Controller`: parameter resolution, the retry loop and the handler.
- `Text`: `split(" ")[0]` and the default string order of `Array.prototype.sort`.
- `Week`: `getSemana`, `fechaEstaEnSemana` and the week navigation state.
- `Schedule`: the filter, the grouping, the calendar rows, the group lists and the colour map.

Conventions:

- Days are integers counted from 1970-01-01, which was a Thursday. `getDay()` becomes `(day + 4) % 7`.
- The clock, the parse of a date string and the outcome of each browser attempt are parameters.
- Cleanup of the browser and the page is recorded in a ghost event log. A replay of that log checks that every handle opened is closed once, in order, before the next attempt, sleep or return.

How the code handles the browser and the retries:

- The code launches a browser for every attempt (`newOptimizedPage` in `utils/browser.js`). The controller closes it at the end of that attempt once `newOptimizedPage` has returned it. When the page set-up throws first, the browser is never closed (see Findings). The open/close log of the retry loop models a corrected `newOptimizedPage` that closes what it opened before rethrowing. `Controller.TraceAsWrittenClean` covers the code as written.
- Every failure of an attempt is retried, a missing `#search` button included. The code sleeps 1000·k ms after the k-th failure, and does not sleep after the last one.

## Model

| member | source | states |
|---|---|---|
| Helpers.DigitsOnly | utils/helpers.js:1 | true exactly when every character is a decimal digit |
| Helpers.IsNumStr | utils/helpers.js:1 | accepts exactly the strings of one or more ASCII digits; non-strings (JSON numbers included) and "" are rejected |
| Helpers.CacheKey | utils/helpers.js:2-3 | the key is programa, then '-', then sede, then '-', then recurso: its length, each of the three fields in its place, and both separators |
| Helpers.CacheKeyInjective | controllers/cronogramaController.js:87-88 | for digit-only queries, two keys are equal if and only if the queries are equal, so different queries never share a cache entry |
| Helpers.CacheKeyOrderSensitive | utils/helpers.js:2-3 | for digit-only queries, exchanging two different fields changes the key |
| ResultCache.Cache.constructor | utils/cache.js:1-2 | the cache starts empty, with a positive TTL |
| ResultCache.Cache.GetFromCache | utils/cache.js:4-12 | absent key: null, nothing changes; entry older than the TTL (strictly): null and exactly that key is evicted; otherwise its payload, with the timestamp not refreshed; other keys untouched |
| ResultCache.Cache.SetCache | utils/cache.js:14 | the key now maps to the payload stamped with the current time; every other entry is unchanged |
| ResultCache.HitWithinTtl | utils/cache.js:4-14 | a payload stored at t0 is served at any time up to and including t0 + TTL |
| ResultCache.MissAfterExpiry | utils/cache.js:7-9 | once a read finds an entry expired, that read and an immediate second read both miss, and the entry is gone |
| Controller.OrDefault | controllers/cronogramaController.js:79-80 | a digit-string body value is taken; otherwise the default stays; the resolved field is a digit string exactly when the body's value is one or the default is |
| Controller.ResolveParams | controllers/cronogramaController.js:78-87 | a missing body gives the defaults; with digit-only defaults the resolved query is always digit-only |
| Controller.ResolveFieldsIndependent | controllers/cronogramaController.js:79-80 | programa and sede each depend on their own body field only, and fall back to their own default |
| Controller.RecursoPriority | controllers/cronogramaController.js:81-85 | a numeric jornada wins and makes recurso irrelevant; otherwise a numeric recurso; otherwise the default |
| Controller.ResolveIdempotent | controllers/cronogramaController.js:78-87 | for any defaults, resolving a body that already holds a resolved query gives the same query back |
| Controller.AttemptLogClean | controllers/cronogramaController.js:60-67 | with a corrected `newOptimizedPage` that closes what it opened before rethrowing, each attempt closes exactly what it opened: launch failure, `newPage` failure, page configuration failure, protocol failure, success |
| Controller.SetupFailureLeaksBrowser | utils/browser.js:38-53 | as written, a `newPage` failure leaves the browser open, a configuration failure leaves the browser and the page open, and a second `newPage` failure launches with the first browser still open |
| Controller.UntilSuccess | controllers/cronogramaController.js:10-63 | counts the attempts up to and including the first success: none before it succeeded, and it is either a success or the last attempt |
| Controller.Made | controllers/cronogramaController.js:10-69 | at most retries + 1 attempts are made (none for negative retries), all failing except possibly the last, and all retries + 1 are used when the last one failed |
| Controller.TraceLeavesNothingOpen | controllers/cronogramaController.js:11-71 | with a corrected `newOptimizedPage`, over any number of attempts and backoffs, every page and browser is closed exactly once, before the next attempt, sleep or return |
| Controller.TraceAsWrittenState | utils/browser.js:38-53 | as written, the loop's log is clean while no attempt has failed inside `newOptimizedPage`; after the first such failure it either misuses a handle or ends with a browser open |
| Controller.TraceAsWrittenClean | utils/browser.js:38-53 | as written, the attempts made leave nothing open if and only if none of them failed inside `newOptimizedPage` |
| Controller.LinearBackoff | controllers/cronogramaController.js:70 | the backoff schedule is 1000, 2000, …, 1000·n ms |
| Controller.TraceSleeps | controllers/cronogramaController.js:68-70 | while every attempt fails, the k-th failure is followed by a 1000·k ms sleep, except the one that exhausts the retries |
| Controller.AllFailuresExhaustRetries | controllers/cronogramaController.js:64-74 | when every attempt fails, exactly retries + 1 attempts are made (two with the default of one retry) and the last error is thrown |
| Controller.StopsAtFirstSuccess | controllers/cronogramaController.js:57-63 | the loop stops at the first success and returns that attempt's payload |
| Controller.RunAttempt | controllers/cronogramaController.js:11-67 | one pass of the loop body with a corrected `newOptimizedPage`: the failure it reports is the attempt's error (none on success), and its events are the attempt's open/close log |
| Controller.RetryLoop | controllers/cronogramaController.js:10-74 | the loop stops with the payload of the first success, all earlier attempts having failed, or after retries + 1 failures (none for negative retries) with the last error; its log is the trace of the attempts it ran, with a corrected `newOptimizedPage` |
| Controller.FetchCronograma | controllers/cronogramaController.js:6-75 | returns the first success, or throws the last error (the generic error when no attempt ran); its log is the trace of the attempts made, which leaves nothing open given a corrected `newOptimizedPage` |
| Controller.GetCronograma | controllers/cronogramaController.js:77-106 | a truthy, unexpired cached payload is served with cached = true, without fetching and without changing the cache; otherwise one fetch runs, and a success is stored under the key and served with cached = false, while an error becomes a 500 with its message and the cache only loses the expired entry; the status is 500 exactly when the fetch ran and threw |
| Values.Truthy | controllers/cronogramaController.js:92 | exactly null, false, 0 and "" are falsy, so an empty array or object is a cache hit |
| Text.Below | public/script.js:171 | the default string order is strict (never between equal strings) and puts a proper prefix before its extensions |
| Text.DatePrefix | public/script.js:116 | the text before the first space: a prefix of the input without spaces, followed by a space or the end |
| Text.SortStrings | public/script.js:171 | the result is in ascending string order and is a permutation of the input |
| Text.SortDistinct | public/script.js:286 | sorting a list without repeats gives a strictly ascending list with the same elements |
| Week.Weekday | public/script.js:32 | `getDay()` is between 0 and 6; 1970-01-01 and every seventh day from it are Thursdays (4), 1970-01-05 and every seventh day from it are Mondays (1) |
| Week.MondayOf | public/script.js:81-91 | the Monday of the Monday-to-Sunday week holding a day: it is a Monday and the day lies within the six days after it |
| Week.GetSemana | public/script.js:26-50 | the week is Monday to Sunday; a weekday (after the week offset) lies inside it; a Saturday moves to the Monday two days later and a Sunday to the Monday one day later |
| Week.NextOffsetShiftsWeek | script.js:23-47 | offset + 1 shows the week seven days later and offset − 1 the week seven days earlier |
| Week.MondayOfUnique | public/script.js:81-91 | every day of the seven starting on a Monday has that Monday as its week's Monday |
| Week.FechaEstaEnSemana | public/script.js:81-91 | a date is in the viewed week if and only if it parses and its own week's Monday is the viewed Monday; an invalid date never is |
| Week.WeekendRollsForward | script.js:29-36 | a weekday is in its own viewed week; a Saturday or Sunday is not, and the Monday after it is |
| Week.WeekLabel | public/script.js:64-67 | "(Semana Actual)" exactly for offset 0, "(Semana Pasada)" exactly for negative offsets, "(Próxima Semana)" exactly for positive ones |
| Week.WeekNavigator.constructor | public/script.js:5 | the viewed week starts at offset 0 |
| Week.WeekNavigator.CambiarSemana | public/script.js:72-73 | the offset moves by the given direction |
| Week.WeekNavigator.Reset | public/script.js:421 | loading a schedule returns to the current week |
| Week.WeekNavigator.ActualizarInfoSemana | public/script.js:52-70 | the shown range is the Monday and Sunday of the viewed week, with the label of its offset |
| Schedule.PassesGroup | public/script.js:111-113 | in both variants (the older at script.js:108-109), a group passes exactly when nothing is selected or it is one of the selected groups |
| Schedule.Keep | public/script.js:109-120 | an activity is kept exactly when its group passes and the day of its start date parses and lies between the viewed Monday and Sunday |
| Schedule.FilterCourse | public/script.js:122-125 | the course keeps its name, professor and capacity; an activity is in its list exactly when it was there and is kept |
| Schedule.SingleSelectionAsSet | script.js:108-109 | the single select equals the multi-select with at most that one group checked; "" checks none and so shows all groups |
| Schedule.FilterActivities | public/script.js:109-120 | the surviving activities are no more than the input, and each passes the group and week filters |
| Schedule.FilterActivitiesCount | public/script.js:109-120 | each activity that passes survives as many times as it occurs; one that fails does not survive |
| Schedule.FilterCourses | public/script.js:107-127 | no more courses come out than went in |
| Schedule.FilterCoursesFrom | public/script.js:107-127 | every course kept has at least one activity and is an input course with its activities filtered |
| Schedule.FilterLevels | public/script.js:103-132 | no more levels come out than went in |
| Schedule.FilterLevelsFrom | public/script.js:103-132 | only levels holding an array are kept, each under its own name with a nonempty list of its filtered courses |
| Schedule.FilterPrograms | public/script.js:100-101 | one program comes out for every program that went in, even when all its levels were dropped |
| Schedule.FilterProgramsKeepsNames | public/script.js:100-101 | each program keeps its name and its place |
| Schedule.FiltrarNiveles | public/script.js:103-132 | filtering the levels one at a time gives the filtered level list |
| Schedule.FiltrarPorGrupoYSemana | public/script.js:93-136 | null and empty data are returned unchanged; otherwise the result is the filtered schedule, computed level by level |
| Schedule.FilterKeepsPassingActivities | public/script.js:93-136 | the filtered schedule holds exactly the passing activities of the input, in input order and with their multiplicities |
| Schedule.OnDate | public/script.js:151-160 | every activity grouped under a date starts on that date |
| Schedule.OnDateCount | public/script.js:149-161 | each activity is placed under its own date once per occurrence, and under no other date |
| Schedule.Dates | public/script.js:152-154 | the dictionary's keys have no repeats |
| Schedule.DatesMembers | public/script.js:151-154 | a date is a key exactly when some activity starts on it |
| Schedule.OnDateNonEmpty | public/script.js:152-155 | a date has activities exactly when it is a key, so no key holds an empty list |
| Schedule.ByDate | public/script.js:151-160 | every date's list is nonempty, and the date of the activity just pushed is a key |
| Schedule.ByDateGroups | public/script.js:151-160 | the dictionary that the pushes build has as keys exactly the dates seen, in insertion order, and holds under each date exactly the activities on it, in order |
| Schedule.PushOne | public/script.js:151-160 | creating the date's list when missing and pushing the activity gives the dictionary and key order of the activities seen so far plus this one |
| Schedule.PushCourse | public/script.js:150-161 | pushing a course's activities, each carrying the course's name, professor and capacity, extends the dictionary by them in order |
| Schedule.PushCourses | public/script.js:149-162 | pushing the courses of a level extends the dictionary by all their activities in order |
| Schedule.PushLevels | public/script.js:143-163 | pushing the levels of a program extends the dictionary by the activities of its array levels, skipping the others |
| Schedule.OrganizarPorFecha | public/script.js:138-167 | the dictionary is the one built from every activity in traversal order: it maps each date, in insertion order, to its activities; keys are distinct and none is empty |
| Schedule.PlacedOnce | public/script.js:138-167 | each activity of the schedule is placed once per occurrence, under its own date only |
| Schedule.PlacedAreActivities | public/script.js:155-160 | the placed entries are the schedule's activities in traversal order, one for one |
| Schedule.SortedDates | public/script.js:171-175 | the sorted keys ascend strictly, cover exactly the dates with activities, and are empty exactly when there are no activities |
| Schedule.InsertByStart | public/script.js:191-193 | inserting keeps order by start instant and adds exactly the one activity |
| Schedule.SortByStart | public/script.js:191-193 | a day's activities come out in order of start instant, as a permutation of the input |
| Schedule.RowActivities | public/script.js:191-193 | a row's activities are a permutation of the date's list, sorted by start in the newer variant and left in grouping order in the older one (script.js:186) |
| Schedule.RowHolds | public/script.js:189-193 | a row holds a permutation of exactly its date's activities, start-sorted in the newer variant and in grouping order in the older one |
| Schedule.BuildRows | public/script.js:189-234 | one row per date, in the given order, each showing that date's activities |
| Schedule.CrearTablaCalendario | public/script.js:169-243 | the no-data message exactly when nothing is left; otherwise rows in strictly ascending date order, one for each date that has activities, each holding a permutation of exactly that date's activities, start-sorted in the newer variant and in grouping order in the older one |
| Schedule.DistinctGroups | script.js:237-245 | each group once, and exactly the groups of the payload |
| Schedule.MarkDefaults | public/script.js:292-305 | checked are exactly the listed groups among EN1 and DN1, in list order |
| Schedule.GroupCheckboxes | public/script.js:284-305 | one checkbox per distinct group in strictly ascending order; checked are exactly the present groups among EN1 and DN1, in ascending order |
| Schedule.GroupOptions | script.js:235-263 | "Todos los grupos" first, then each distinct group in strictly ascending order; EN1 selected when present, otherwise the first option |
| Schedule.GroupColors.constructor | public/script.js:246 | no group has a colour yet |
| Schedule.GroupColors.GetColorForGroup | public/script.js:265-275 | a group keeps the colour it first got; a new group gets palette entry (groups coloured so far) mod 15, and the map grows by exactly that group |

## Left out

- The request code of both front ends is not modelled (`cargarCronogramaXHR`, the form reading and the `BASE_URL` choice). The model starts from the body the handler receives.
- `getBrowser` in `utils/browser.js` is not modelled: its launch flags and its choice of engine by environment. An attempt's launch is an abstract outcome.
- The portal protocol of one attempt is not modelled step by step: navigation, waiting for selectors, the selections, the click and the matching of the response, with their timeouts. Each attempt is one of five outcomes: launch fails, `newPage` fails, page configuration fails, protocol fails, or success with a payload.
- The request filter and the viewport and user agent that `newOptimizedPage` sets are not modelled: they do not affect the logic.
- `server.js` and `routes/cronograma.js` are not part of this model: the Express wiring and the JSON body parser.
- `config/constants` is not part of this model: `CACHE_TTL_MS` and `DEFAULTS` are parameters (`ttl`, `defaults`), and the portal URL is not used.
- Timers and clocks are parameters: the backoff `setTimeout` is a `Sleep` event, and `Date.now()` is the `now` and `later` of the handler.
- Concurrent requests are not modelled. Each handler call runs alone against the cache, so interleavings and last-writer-wins races are not covered.
- The `platform` field of the 500 response and the `console.error` logging are not modelled.
- The payload is opaque (`Json`), with integer numbers only. Floating-point numbers are not modelled, and only the truthiness the handler tests matters.
- Controller.GetCronograma: the cache write and the response are one step. An error thrown by `res.json` itself is not modelled.
- DOM work is not modelled: HTML strings, `formatearFecha`/`formatearHora` locale formatting, the location text, the dropdown and search box, the event listeners and the `aplicarFiltros` glue.
- Date parsing is a parameter: `dayOf` maps a date string to a day (None for an Invalid Date), and `startOf` maps a timestamp to an instant. Time zones and daylight saving are not modelled.
- Schedule.SortByStart: comparisons with an Invalid Date (a `NaN` comparator result) are not modelled. Every start time is a number.
- Schedule.SortByStart: the stability that `Array.prototype.sort` has is not stated, only order by start and permutation.
- Schedule.Keep: the clock that `getSemana` reads is one value (`today`) for a whole filtering pass.
- JavaScript crashes are not modelled:
  - `organizarPorFecha` on null or empty data;
  - a course without an `actividades` array;
  - a non-string `fecha_inicio`;
  - a `datos[2]` that is not iterable.
  The calendar takes a schedule value.
- Inherited `Object.prototype` keys are not modelled: a date or group named like `constructor` would be truthy before any push or colour assignment. Dictionaries are plain maps.
- The key order of `Object.keys` is taken as insertion order. JavaScript lists integer-like keys first. This changes only the order of programs and levels and the unsorted date list.
- Text.SortStrings compares characters, not UTF-16 code units. The two orders agree outside surrogate pairs.
- Activity fields the logic does not read (`numero_aula`, `nombre_edificio`, `fecha_fin` display) are carried or dropped without effect.

## Findings

| source | as written | input that shows it | evidently intended | confidence | as-written member | corrected member |
|---|---|---|---|---|---|---|
| utils/browser.js:38-53 | `newOptimizedPage` launches a browser and then opens and configures a page. If any of those steps throws, the browser is never returned, so the controller's `browser` stays undefined and the catch block cannot close it. | an attempt whose `browser.newPage()` or `page.setViewport(...)` rejects: the launched browser (and the page, if it opened) stays open, and the retry launches a second one; over the loop, see Controller.TraceAsWrittenClean | close the page and the browser before rethrowing, so every attempt closes what it opened | medium (not executed) | Controller.SetupFailureLeaksBrowser | Controller.AttemptLogClean |
