# Developool server middleware: request construction and response classification

The Developool middleware is the Android client library behind the Developool app. It offers fourteen
operations on the Developool web API: authenticate and register; create, list, fetch, update, delete,
join and leave projects; and read, create and update profiles. Every operation works the same way:

1. It validates its arguments. A null or empty argument is refused with an `IllegalArgumentException`,
   and no request is made.
2. It builds the URL from a fixed endpoint table. Some operations append an id as the last path
   segment. `getAllProjects` builds a query string from a filter.
3. It builds a JSON body by conditional `put`s, sets the headers, and fills a status table. The table
   is an Android `SparseArray` that maps an HTTP status to the exception to report.
4. It hands all of this to `makeRequest`. `makeRequest` opens the connection and looks the status up
   in the table. Otherwise it reads the response line by line and classifies the text it read.

The model is written in Dafny and has these modules:

- `Outcomes`: the `Result` of an operation, either `Success(text)` or `Failure(kind, message)`.
- `Models`: the value records. These are `Project`, `Profile`, `Education`, `PastExperience` and
  `ProjectFilter`. Every Java field may be null, so each is an `Option`; elements of a list are not.
- `Endpoints`: the (HTTP method, route) table and the URL of the id-taking operations.
- `Bodies`: the request bodies. Each body is a list of candidate fields, and `Collect` gives the
  object that the conditional `put`s leave behind. `PutPresent` is the `put` loop. Lemmas describe
  each body key by key.
- `ProjectQuery`: the `getAllProjects` query string. `BuildAllProjectsUrl` is the StringBuilder code,
  proved against `AllProjectsUrl`. Lemmas cover its order and counts.
- `Executor`: `makeRequest`. `MakeRequest` is proved to compute `Execute`. It is built from the
  status-lookup loop (`LookupStatus`) and the line-reading loop (`ReadResponse`).
- `StatusTables`: `SparseArray.put` and `SparseArray.append`, and the status table of every
  operation. Lemmas say, per operation, which statuses are reported and which one is lost.
- `Middleware`: the fourteen operations. Each returns its `Result` together with the call it made.

The network is an input of type `Exchange`. Either the connection failed with some message, or the
server answered with a status and a body. The body is the lines `readLine` returned, or the
exception that reading raised. For an error status, `HttpURLConnection.getInputStream` raises an
exception, which is the `ReadFailed` case.

Details of `makeRequest` that a reader might not expect:

- Only 200 is treated as success; any other status is looked up in the table.
- An empty response is reported as an `IOException` with the message "No response from server".
- The status lookup skips the last entry of every table.
- A status that is not found falls through to reading the body, exactly like 200.

## Model

| member | source | states |
|---|---|---|
| Endpoints.Endpoint | servermiddleware/src/main/java/com/federlizer/servermiddleware/DevelopoolMiddleware.java:40-55 | Every endpoint uses GET, POST, PUT or DELETE. Its route lies under `http://developool.com/api/` and ends in `/`. |
| Endpoints.WithId | servermiddleware/src/main/java/com/federlizer/servermiddleware/DevelopoolMiddleware.java:274 | The URL of an id-taking operation is the route followed by the id as its last path segment. |
| Bodies.CollectHas | servermiddleware/src/main/java/com/federlizer/servermiddleware/DevelopoolMiddleware.java:609-646 | A key is in the body exactly when some `put` of that key was made, that is, when its guard let the value through. |
| Bodies.CollectAt | servermiddleware/src/main/java/com/federlizer/servermiddleware/DevelopoolMiddleware.java:609-646 | With distinct keys, each key is present exactly when its value is given, and then it holds that value. |
| Bodies.CollectKeys | servermiddleware/src/main/java/com/federlizer/servermiddleware/DevelopoolMiddleware.java:609-646 | A body has no key beyond the keys the operation may `put`. |
| Bodies.PutPresent | servermiddleware/src/main/java/com/federlizer/servermiddleware/DevelopoolMiddleware.java:688-725 | The run of conditional `put`s on a fresh JSON object builds exactly `Collect` of the candidate fields. |
| Bodies.CredentialsBody | servermiddleware/src/main/java/com/federlizer/servermiddleware/DevelopoolMiddleware.java:79-86 | The authenticate body has exactly the keys "email" and "password", holding the two credentials. |
| Bodies.RegistrationBody | servermiddleware/src/main/java/com/federlizer/servermiddleware/DevelopoolMiddleware.java:135-143 | The register body has exactly username, email, password and password2, with the confirmation under "password2". |
| Bodies.NewProjectBody | servermiddleware/src/main/java/com/federlizer/servermiddleware/DevelopoolMiddleware.java:219-237 | The createNewProject body always holds the title and the privacy flag. The descriptions and interests appear exactly when given. "skills" appears exactly when skills are given, and it holds the interests. |
| Bodies.NewProjectSkillsFromInterests | servermiddleware/src/main/java/com/federlizer/servermiddleware/DevelopoolMiddleware.java:232-234 | A project with interests ["go"] and skills ["rust"] is sent with "skills" = ["go"]. |
| Bodies.NewProjectBodyIntended | servermiddleware/src/main/java/com/federlizer/servermiddleware/DevelopoolMiddleware.java:229-234 | With the corrected field list, "skills" appears exactly when skills are given, and it holds the skills. |
| Bodies.ProjectUpdateBody | servermiddleware/src/main/java/com/federlizer/servermiddleware/DevelopoolMiddleware.java:370-392 | The updateProject body has a key exactly for each given field, the flag under "private", and no other key. |
| Bodies.ProfileKeysDistinct | servermiddleware/src/main/java/com/federlizer/servermiddleware/DevelopoolMiddleware.java:609-646 | The profile body's eleven keys are pairwise distinct. |
| Bodies.ProfileBody | servermiddleware/src/main/java/com/federlizer/servermiddleware/DevelopoolMiddleware.java:609-646 | The profile body has a key exactly for each given field, and no other key. Educations go under "education", past experiences under "pastExperience" and linkedIn under "linkedin". The account id is never sent. |
| ProjectQuery.AppendEach | servermiddleware/src/main/java/com/federlizer/servermiddleware/DevelopoolMiddleware.java:322-335 | The for-each loop appends one `key=value&` piece per list element, in list order. |
| ProjectQuery.AppendScalars | servermiddleware/src/main/java/com/federlizer/servermiddleware/DevelopoolMiddleware.java:307-321 | Appends exactly the title, public and private pieces, each only when its criterion is set, in that order. |
| ProjectQuery.AppendList | servermiddleware/src/main/java/com/federlizer/servermiddleware/DevelopoolMiddleware.java:322-335 | A null or empty list criterion appends nothing. Otherwise one piece is appended per element, in order. |
| ProjectQuery.JoinAppend | servermiddleware/src/main/java/com/federlizer/servermiddleware/DevelopoolMiddleware.java:302-335 | Appending two runs of pieces to the StringBuilder joins their concatenation. |
| ProjectQuery.BuildAllProjectsUrl | servermiddleware/src/main/java/com/federlizer/servermiddleware/DevelopoolMiddleware.java:302-335 | The StringBuilder code builds exactly the route, then `?`, then the title, public and private pieces when set, then one piece per interest and one per skill. |
| ProjectQuery.EmptyFilterUrl | servermiddleware/src/main/java/com/federlizer/servermiddleware/DevelopoolMiddleware.java:304-335 | There are no query pieces exactly when every criterion is null or empty. Then the URL is the route followed by a bare `?`. |
| ProjectQuery.PiecesEndWithAmpersand | servermiddleware/src/main/java/com/federlizer/servermiddleware/DevelopoolMiddleware.java:307-335 | Every query piece ends in `&`, the last one included. |
| ProjectQuery.InterestPieceCount | servermiddleware/src/main/java/com/federlizer/servermiddleware/DevelopoolMiddleware.java:322-328 | The query carries exactly one `interests[]=` piece per interest. |
| ProjectQuery.SkillPieceCount | servermiddleware/src/main/java/com/federlizer/servermiddleware/DevelopoolMiddleware.java:329-335 | The query carries exactly one `skills[]=` piece per skill. |
| ProjectQuery.InterestPiecesInOrder | servermiddleware/src/main/java/com/federlizer/servermiddleware/DevelopoolMiddleware.java:322-328 | The i-th interest piece comes right after the scalar pieces, in list order. |
| ProjectQuery.TwoInterestsUrl | servermiddleware/src/main/java/com/federlizer/servermiddleware/DevelopoolMiddleware.java:302-335 | The filter {interests: ["go", "rust"]} gives the route, `?`, `interests[]=go&` and `interests[]=rust&`. |
| Executor.FirstMatch | servermiddleware/src/main/java/com/federlizer/servermiddleware/DevelopoolMiddleware.java:799-803 | The entry found has the status looked up. Nothing is found exactly when no entry has that status. |
| Executor.FirstMatchAt | servermiddleware/src/main/java/com/federlizer/servermiddleware/DevelopoolMiddleware.java:799-803 | The entry at the first index with a matching status is the one reported. |
| Executor.Consulted | servermiddleware/src/main/java/com/federlizer/servermiddleware/DevelopoolMiddleware.java:797-799 | The loop visits the entries at indices 0 to size-2: every entry but the last. |
| Executor.LookupStatus | servermiddleware/src/main/java/com/federlizer/servermiddleware/DevelopoolMiddleware.java:797-803 | The loop bounded by `size - 1` returns the first matching entry among the consulted ones. |
| Executor.AccumulateSnoc | servermiddleware/src/main/java/com/federlizer/servermiddleware/DevelopoolMiddleware.java:811-814 | Reading one more line extends the response by that line and a line separator. |
| Executor.AccumulateEmpty | servermiddleware/src/main/java/com/federlizer/servermiddleware/DevelopoolMiddleware.java:811-814 | The accumulated response is empty exactly when no line was read. |
| Executor.FirstNewline | servermiddleware/src/main/java/com/federlizer/servermiddleware/DevelopoolMiddleware.java:811 | Gives the index of the first line separator: nothing before it is a separator. |
| Executor.AccumulateSplitLines | servermiddleware/src/main/java/com/federlizer/servermiddleware/DevelopoolMiddleware.java:811-814 | Splitting the accumulated response at line separators gives back the lines read. |
| Executor.ReadResponse | servermiddleware/src/main/java/com/federlizer/servermiddleware/DevelopoolMiddleware.java:807-814 | The reader loop yields the lines, each followed by a line separator. |
| Executor.Classify | servermiddleware/src/main/java/com/federlizer/servermiddleware/DevelopoolMiddleware.java:831-836 | A non-empty response is a success carrying it. An empty one is the IOException "No response from server". |
| Executor.MakeRequest | servermiddleware/src/main/java/com/federlizer/servermiddleware/DevelopoolMiddleware.java:746-841 | `makeRequest` computes `Execute`: a URL without a scheme fails, then a connection failure is reported. A non-200 status consulted in the table gives its exception. Otherwise the body (or "200" when none is read) is classified. |
| Executor.MappedStatus | servermiddleware/src/main/java/com/federlizer/servermiddleware/DevelopoolMiddleware.java:794-803 | A non-200 status first found before the last entry yields that entry's exception, whatever the body. |
| Executor.UnmappedStatusActsAsOk | servermiddleware/src/main/java/com/federlizer/servermiddleware/DevelopoolMiddleware.java:794-817 | A status the lookup does not find is handled exactly like 200. |
| Executor.LastEntryNeverMapped | servermiddleware/src/main/java/com/federlizer/servermiddleware/DevelopoolMiddleware.java:799 | The last entry's status, unless listed earlier, is handled like 200. |
| Executor.SingleEntryTableMapsNothing | servermiddleware/src/main/java/com/federlizer/servermiddleware/DevelopoolMiddleware.java:799 | With a one-entry table, every status is handled like 200. |
| Executor.OkResponse | servermiddleware/src/main/java/com/federlizer/servermiddleware/DevelopoolMiddleware.java:807-836 | A 200 whose body is read is a success carrying the accumulated lines exactly when at least one line came back. Otherwise it is "No response from server". |
| Executor.OkWithoutBody | servermiddleware/src/main/java/com/federlizer/servermiddleware/DevelopoolMiddleware.java:815-817 | When no body is read, a 200 is the success "200". |
| Executor.NoSchemeFails | servermiddleware/src/main/java/com/federlizer/servermiddleware/DevelopoolMiddleware.java:759 | A URL without a scheme fails with a malformed-URL exception, whatever the network does. |
| Executor.IntendedMapsEveryEntry | servermiddleware/src/main/java/com/federlizer/servermiddleware/DevelopoolMiddleware.java:799-803 | The corrected lookup maps the status of every entry, the last one included, to that entry's exception. |
| StatusTables.PutMembers | servermiddleware/src/main/java/com/federlizer/servermiddleware/DevelopoolMiddleware.java:473-477 | A `put` adds the new entry: it is in the result, and every other entry of the result was already in the table. |
| StatusTables.PutAscending | servermiddleware/src/main/java/com/federlizer/servermiddleware/DevelopoolMiddleware.java:473-477 | A `put` keeps the table's keys ascending. |
| StatusTables.PutLookup | servermiddleware/src/main/java/com/federlizer/servermiddleware/DevelopoolMiddleware.java:473-477 | After a `put`, its key maps to the new entry and every other key maps as before. |
| StatusTables.PutSize | servermiddleware/src/main/java/com/federlizer/servermiddleware/DevelopoolMiddleware.java:473-477 | A `put` grows the table exactly when its key was absent. |
| StatusTables.PutAfterAll | servermiddleware/src/main/java/com/federlizer/servermiddleware/DevelopoolMiddleware.java:93-95 | A key above every present key is added at the end. |
| StatusTables.AppendIsPut | servermiddleware/src/main/java/com/federlizer/servermiddleware/DevelopoolMiddleware.java:93-95 | On an ascending table, `append` and `put` give the same table. |
| StatusTables.AscendingKept | servermiddleware/src/main/java/com/federlizer/servermiddleware/DevelopoolMiddleware.java:473-477 | Entries given in ascending key order are kept as given, by `append` and by `put` alike. |
| StatusTables.EntriesAscending | servermiddleware/src/main/java/com/federlizer/servermiddleware/DevelopoolMiddleware.java:93-95 | Every operation lists its statuses in ascending order, except updateOwnProfile, which lists 404 twice. |
| StatusTables.UpdateOwnProfileTableCollapses | servermiddleware/src/main/java/com/federlizer/servermiddleware/DevelopoolMiddleware.java:735-738 | The two 404 appends leave one entry, the second message "Account wasn't found". |
| StatusTables.EntryReported | servermiddleware/src/main/java/com/federlizer/servermiddleware/DevelopoolMiddleware.java:799-801 | On an ascending table, the status of an entry before the last yields that entry's exception. |
| StatusTables.LastEntryLost | servermiddleware/src/main/java/com/federlizer/servermiddleware/DevelopoolMiddleware.java:799 | On an ascending table, the last entry's status is handled like 200, though the corrected lookup reports it. |
| StatusTables.AscendingOutcomes | servermiddleware/src/main/java/com/federlizer/servermiddleware/DevelopoolMiddleware.java:797-803 | On an ascending table, every entry but the last is reported and the last is lost: handled like 200, though the corrected lookup reports it. |
| StatusTables.TablesAsBuilt | servermiddleware/src/main/java/com/federlizer/servermiddleware/DevelopoolMiddleware.java:735-738 | Every operation's table is its list of entries, except updateOwnProfile's, which keeps one entry. |
| StatusTables.AuthenticateOutcomes | servermiddleware/src/main/java/com/federlizer/servermiddleware/DevelopoolMiddleware.java:93-96 | authenticate reports 400 and 401. Its 403 (email not verified) is lost. |
| StatusTables.RegisterOutcomes | servermiddleware/src/main/java/com/federlizer/servermiddleware/DevelopoolMiddleware.java:152-154 | register reports 400. Its 409 (account exists) is lost. |
| StatusTables.GetOwnProjectsOutcomes | servermiddleware/src/main/java/com/federlizer/servermiddleware/DevelopoolMiddleware.java:186-187 | getOwnProjects' only status, 401, is lost. |
| StatusTables.CreateNewProjectOutcomes | servermiddleware/src/main/java/com/federlizer/servermiddleware/DevelopoolMiddleware.java:246-248 | createNewProject reports 400. Its 409 (duplicate title) is lost. |
| StatusTables.GetProjectByIdOutcomes | servermiddleware/src/main/java/com/federlizer/servermiddleware/DevelopoolMiddleware.java:281-282 | getProjectById's only status, 404, is lost. |
| StatusTables.GetAllProjectsOutcomes | servermiddleware/src/main/java/com/federlizer/servermiddleware/DevelopoolMiddleware.java:338-339 | getAllProjects' only status, 500, is lost. |
| StatusTables.UpdateProjectOutcomes | servermiddleware/src/main/java/com/federlizer/servermiddleware/DevelopoolMiddleware.java:402-405 | updateProject reports 400 and 401. Its 404 is lost. |
| StatusTables.DeleteProjectOutcomes | servermiddleware/src/main/java/com/federlizer/servermiddleware/DevelopoolMiddleware.java:438-440 | deleteProject reports 401. Its 404 is lost. |
| StatusTables.JoinProjectOutcomes | servermiddleware/src/main/java/com/federlizer/servermiddleware/DevelopoolMiddleware.java:473-478 | joinProject, whose table is filled with `put`, reports 400, 401, 403 and 404. Its 409 (already a member) is lost. |
| StatusTables.LeaveProjectOutcomes | servermiddleware/src/main/java/com/federlizer/servermiddleware/DevelopoolMiddleware.java:511-515 | leaveProject's table, were it consulted by a call with an http URL, would report 400, 401 and 403 and lose 404. leaveProject itself never consults it, because every call fails at `new URL` first. |
| StatusTables.GetOwnProfileOutcomes | servermiddleware/src/main/java/com/federlizer/servermiddleware/DevelopoolMiddleware.java:548-550 | getOwnProfile reports 401. Its 404 (no profile yet) is lost. |
| StatusTables.GetProfileByAccountIdOutcomes | servermiddleware/src/main/java/com/federlizer/servermiddleware/DevelopoolMiddleware.java:578-580 | getProfileByAccountID reports 400. Its 404 is lost. |
| StatusTables.CreateOwnProfileOutcomes | servermiddleware/src/main/java/com/federlizer/servermiddleware/DevelopoolMiddleware.java:656-659 | createOwnProfile reports 404. Its 409 (profile exists) is lost. |
| StatusTables.UpdateOwnProfileOutcomes | servermiddleware/src/main/java/com/federlizer/servermiddleware/DevelopoolMiddleware.java:735-738 | updateOwnProfile's one-entry table loses its 404. The first 404 message is never reported. |
| StatusTables.UnverifiedEmailNotReported | servermiddleware/src/main/java/com/federlizer/servermiddleware/DevelopoolMiddleware.java:93-96 | An authenticate answered with 403 never yields EmailNotVerified. With a failed read it yields the caught exception. The corrected lookup yields "Email hasn't been verified". |
| Middleware.Authenticate | servermiddleware/src/main/java/com/federlizer/servermiddleware/DevelopoolMiddleware.java:66-102 | Refuses a null or empty email or password with no request. Otherwise it POSTs the credentials to `auth/` with the JSON content type and returns what `makeRequest` returns. |
| Middleware.Register | servermiddleware/src/main/java/com/federlizer/servermiddleware/DevelopoolMiddleware.java:114-160 | Refuses any null or empty argument. Otherwise it POSTs the four fields to `register/` with the JSON content type and its status table. |
| Middleware.GetOwnProjects | servermiddleware/src/main/java/com/federlizer/servermiddleware/DevelopoolMiddleware.java:169-193 | Refuses a null or empty token. Otherwise it GETs `accounts/projects/` with the token as Authorization and no body. |
| Middleware.CreateNewProject | servermiddleware/src/main/java/com/federlizer/servermiddleware/DevelopoolMiddleware.java:203-254 | A missing token or project gets the generic message. Then a null title or privacy flag gets its own message; an empty title passes. Otherwise it POSTs the as-written body to `project/` with both headers. |
| Middleware.GetProjectById | servermiddleware/src/main/java/com/federlizer/servermiddleware/DevelopoolMiddleware.java:264-288 | Refuses a null or empty token or id. Otherwise it GETs `project/<id>` with the token. |
| Middleware.GetAllProjects | servermiddleware/src/main/java/com/federlizer/servermiddleware/DevelopoolMiddleware.java:297-345 | Never refuses. It GETs the filter's query URL with no headers and the 500 table. |
| Middleware.UpdateProject | servermiddleware/src/main/java/com/federlizer/servermiddleware/DevelopoolMiddleware.java:356-411 | Refuses a missing token, id or project. Otherwise it PUTs the given fields to `project/<id>`; a project with nothing given is sent as an empty object. |
| Middleware.DeleteProject | servermiddleware/src/main/java/com/federlizer/servermiddleware/DevelopoolMiddleware.java:421-446 | Refuses a null or empty token or id. Otherwise it DELETEs `project/<id>` with the token. |
| Middleware.JoinProject | servermiddleware/src/main/java/com/federlizer/servermiddleware/DevelopoolMiddleware.java:456-484 | Refuses a null or empty token or id. Otherwise it POSTs to `project/join/<id>` with the token and the table filled by `put`. |
| Middleware.LeaveProject | servermiddleware/src/main/java/com/federlizer/servermiddleware/DevelopoolMiddleware.java:494-521 | Refuses a null or empty token or id. Otherwise its URL is the endpoint object's default text (class name, `@`, hexadecimal hash) followed by the id, so every call fails with "no protocol: ...". |
| Middleware.GetOwnProfile | servermiddleware/src/main/java/com/federlizer/servermiddleware/DevelopoolMiddleware.java:530-556 | Refuses a null or empty token. Otherwise it GETs `profile/` with the token. |
| Middleware.GetProfileByAccountId | servermiddleware/src/main/java/com/federlizer/servermiddleware/DevelopoolMiddleware.java:565-586 | Refuses a null or empty account id. Otherwise it GETs `profile/<id>` with no headers. |
| Middleware.CreateOwnProfile | servermiddleware/src/main/java/com/federlizer/servermiddleware/DevelopoolMiddleware.java:596-665 | Refuses a missing token or profile. Otherwise it POSTs the profile body to `profile/` with both headers. |
| Middleware.UpdateOwnProfile | servermiddleware/src/main/java/com/federlizer/servermiddleware/DevelopoolMiddleware.java:675-744 | Refuses a missing token or profile. Otherwise it PUTs the profile body to `profile/` with the collapsed one-entry table. |

## Left out

- The callback and `RequestTask`, the AsyncTask that runs each operation in the background. An
  operation returns the `Result` the callback would receive.
- `HttpURLConnection` and the streams: opening, writing the body bytes, chunked mode and closing.
  What the server and the network do is the `Exchange` parameter.
- The exception objects themselves. A failure carries the exception's kind and the text the
  source passes to its constructor; for a caught exception that text is the one the network input
  supplies.
- The message of `NotFoundException`, `InvalidCredentialsException`, `EmailNotVerifiedException`
  and `UserAlreadyExistsException`. These keep their text as a key and never pass it to `super`, so
  their `getMessage()` is "null", a line separator and the key
  (exceptions/NotFoundException.java:6-8 and 15-16). A `Failure` holds the key as its message.
- Null elements inside a list. Fields of the value records may be null and are `Option`s, but a
  list of strings is a `seq<string>` whose elements are always given. In the source a null
  interest or skill appends `interests[]=null&` (or `skills[]=null&`) to the `getAllProjects` URL
  and puts a JSON null into a body array; the model cannot express either.
- How org.json writes a body out as bytes, and how it reflects educations and past experiences into
  JSON. Bodies are kept as maps from key to value.
- The `JSONException` handlers. With the literal keys used here, no `put` can raise one.
- The null filter passed to `getAllProjects`. It dereferences the filter and throws a
  `NullPointerException` from the background task, so a filter value is always given.
- Header order and how `HttpURLConnection` applies headers. A null header map is modelled as the empty
  one; both are skipped.
- The text of the leaveProject endpoint object. It is the default `Object.toString`, which
  depends on a hash code, so it is the parameter `requestText`. That text is the class name
  `com.federlizer.servermiddleware.Request`, an `@` and a hexadecimal hash; the `@` makes the part
  before any `:` an invalid scheme, so `new URL` always fails with "no protocol", which is why the
  URL is modelled as `NoScheme`.
- `SparseArray.put` is modelled by a linear walk, where Android uses a binary search; both yield
  the same table.
- The corrected lookup (`ExecuteIntended`) and the corrected body (`NewProjectFieldsIntended`)
  are not used by the operations. The operations keep the source's behaviour, and the corrected
  definitions appear only in the lemmas of the findings below.

## Findings

| source | as written | input that shows it | evidently intended | confidence | as-written member | corrected member |
|---|---|---|---|---|---|---|
| servermiddleware/src/main/java/com/federlizer/servermiddleware/DevelopoolMiddleware.java:799 | the status lookup loops `i < size - 1`, so the last table entry is never consulted | authenticate answered with 403: no EmailNotVerified, only whatever reading the body gives | every entry is consulted (`i < size`) | not executed | StatusTables.UnverifiedEmailNotReported | Executor.IntendedMapsEveryEntry |
| servermiddleware/src/main/java/com/federlizer/servermiddleware/DevelopoolMiddleware.java:233 | createNewProject puts `new JSONArray(newProject.interests)` under "skills" | a project with interests ["go"] and skills ["rust"] is sent with "skills" = ["go"] | the skills are sent under "skills" | not executed | Bodies.NewProjectSkillsFromInterests | Bodies.NewProjectBodyIntended |
