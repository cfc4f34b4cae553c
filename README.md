# Uni-Pal core, modelled in Dafny

Uni-Pal is a study-abroad assistant. It collects a student profile, asks a
language model and a search service for universities, scholarships and
visa rules, and keeps the student's records in a JSON file and a sqlite
database. This project models the deterministic rules underneath, once the
model, the network and the disk are abstracted:

- the pydantic records and their required, optional and defaulted fields
  (`models.dfy`);
- the fixed-rate currency conversions (`currency.dfy`);
- the two first-match visa lookups (`visa.dfy`);
- the progress and defaults of `manage_state` (`management.dfy`);
- the extraction guard around the model call (`ai_utils.dfy`);
- the workflow's state merge and node order (`graph_workflow.dfy`);
- the parsing of scholarship replies, in both agents (`scholarship_info.dfy`,
  `scholarship_search.dfy`);
- the allowed-domain derivation from search results (`allowed_websites.dfy`);
- the JSON student store (`json_storage.dfy`);
- the sqlite upsert, clear, create and bulk load (`database.dfy`).

Two shared modules model the Python the core relies on:

- `py_json.dfy`: JSON-like values, truthiness, ordered dicts (`get`,
  `d[k] = v`, `update`) and iteration.
- `py_str.dfy`: `strip`, `split`, `join` and `replace`.

A Python call that can raise returns an `Outcome`, either `Returned(value)`
or `Raised(error)`. The language model is a function parameter that answers
or fails. Search responses and file contents are inputs. The JSON file and
the database are fields of the classes that own them, so their operations
are methods with `modifies` clauses. Each method is tied to a pure function
of the old state, and the lemmas state the source's promises about those
functions.

## Model

| member | source | states |
|---|---|---|
| Models.StrItemsRoundTrip | src/models.py:16 | a `List[str]` field validates back to the list it was dumped from |
| Models.ValidateStudentInfo | src/models.py:4-18 | `StudentInfo(**kw)`: a built record carries the passed name, contact_info and btech_branch, and the marks, btech_cgpa and preferred_countries were passed |
| Models.DumpStudentInfo | src/models.py:8-18 | `model_dump()` gives the eleven fields as keys in declaration order |
| Models.StudentInfoRoundTrip | src/models.py:4-18 | validating `model_dump()` of any StudentInfo gives the same StudentInfo |
| Models.StudentInfoParts | src/models.py:8-18 | a StudentInfo validates exactly when each of its eleven fields does, and the optional fields take their validated values |
| Models.StudentInfoDefaults | src/models.py:8-18 | ielts_score, toefl_score, work_experience and interested_field_for_masters are None when not passed; the seven other fields must be passed |
| Models.UniversityRoundTrip | src/models.py:21-33 | validating the dump of any University gives it back |
| Models.UniversityParts | src/models.py:25-33 | a University validates exactly when every field does |
| Models.UniversityFields | src/models.py:25-33 | ranking, tuition_fees, currency, eligibility_criteria and deadlines must be passed although nullable; course_curriculum and scholarship_options default to None |
| Models.ValidateUniversity | src/models.py:21-33 | `University(**kw)`: a built record carries the passed name and url, and the five nullable fields without a default were passed |
| Models.DumpUniversity | src/models.py:25-33 | `model_dump()` gives the nine fields as keys in declaration order |
| Models.VisaInfoRoundTrip | src/models.py:36-43 | validating the dump of any VisaInfo gives it back |
| Models.VisaInfoRequired | src/models.py:40-43 | country, requirements, fees and currency must all be passed |
| Models.ValidateVisaInfo | src/models.py:36-43 | `VisaInfo(**kw)`: a built record carries the passed country, fees and currency, and requirements was passed |
| Models.DumpVisaInfo | src/models.py:40-43 | `model_dump()` gives country, requirements, fees and currency as keys in that order |
| Models.ScholarshipInfoRoundTrip | src/models.py:45-52 | validating the dump of any ScholarshipInfo gives it back |
| Models.ScholarshipInfoFields | src/models.py:49-52 | ScholarshipInfo validates exactly when name, description, eligibility and amount are strings; other keywords are ignored |
| Models.ValidateScholarshipInfo | src/models.py:45-52 | `ScholarshipInfo(**kw)`: a built record carries the four passed strings |
| Models.DumpScholarshipInfo | src/models.py:49-52 | `model_dump()` gives name, description, eligibility and amount as keys in that order |
| Models.DocumentRoundTrip | src/models.py:54-62 | validating the dump of any Document gives it back |
| Models.DocumentDefaults | src/models.py:58-62 | id, name and status must be passed; required defaults to True and description to None |
| Models.ValidateDocument | src/models.py:54-62 | `Document(**kw)`: a built record carries the passed name and status, and id was passed |
| Models.DumpDocument | src/models.py:58-62 | `model_dump()` gives id, name, status, description and required as keys in that order |
| CurrencyUtils.ConvertCurrency | src/currency_utils.py:9-36 | a non-zero result needs a table source, target INR and a non-zero amount; a non-negative amount gives a non-negative result |
| CurrencyUtils.SupportedPairs | src/currency_utils.py:21-33 | USD, GBP, EUR, AUD and CAD to INR multiply by 82, 103, 89, 54 and 60 |
| CurrencyUtils.Unsupported | src/currency_utils.py:30-32 | a source outside the table (INR included) or a target other than INR gives 0 |
| CurrencyUtils.Linear | src/currency_utils.py:33 | on a supported pair the conversion is linear |
| CurrencyUtils.ZeroAmbiguous | src/currency_utils.py:30-33 | a zero amount and an unsupported pair both give 0 |
| CurrencyUtils.SupportedNonZero | src/currency_utils.py:21-33 | a non-zero amount on a supported pair never gives 0 |
| Utils.ConvertCurrency | src/utils.py:47-56 | only USD, GBP and AUD to INR give a non-zero result; non-negative amounts stay non-negative |
| Utils.AgreesWithTable | src/utils.py:50-56 | the mock agrees with the rate table on USD, GBP and AUD, and gives 0 for EUR and CAD where the table does not |
| Utils.SearchWeb | src/utils.py:42-45 | the mock search returns no result for any query |
| Utils.LoadSampleData | src/utils.py:58-64 | the parsed document, or a falsy `{}` when the file cannot be read |
| VisaRequirementAgent.CountryOf | src/agents/visa_requirement_agent.py:7 | `v['country']` returns exactly for a dict holding `country`, and returns that value |
| VisaRequirementAgent.Find | src/agents/visa_requirement_agent.py:6-9 | a returned record has the requested country |
| VisaRequirementAgent.FetchVisaInfo | src/agents/visa_requirement_agent.py:4-9 | a returned record has the requested country |
| VisaRequirementAgent.FindFirstMatch | src/agents/visa_requirement_agent.py:6-8 | the first matching entry is the one built, when all earlier entries have another country |
| VisaRequirementAgent.FindNone | src/agents/visa_requirement_agent.py:6-9 | the result is None exactly when every entry has a different country |
| VisaRequirementAgent.FindMissingCountry | src/agents/visa_requirement_agent.py:6-7 | an entry without `country` before any match raises |
| VisaRequirementAgent.EmptyData | src/agents/visa_requirement_agent.py:5-9 | an unreadable file, `[]` and `{}` give None |
| VisaInfoAgent.FetchVisaInfo | src/agents/visa_info_agent.py:7-27 | a returned record has the requested country |
| VisaInfoAgent.AgreesWhenNoError | src/agents/visa_info_agent.py:17-27 | same result as the unguarded lookup when that returns; None when it raises |
| VisaInfoAgent.FirstMatch | src/agents/visa_info_agent.py:20-22 | the first match is validated and returned, or None if it does not validate |
| VisaInfoAgent.MissingCountry | src/agents/visa_info_agent.py:20-27 | an entry lacking `country` before any match gives None |
| ManagementAgent.DumpIfModel | src/agents/management_agent.py:50-55 | a model becomes its dump; anything else is kept |
| ManagementAgent.DumpAll | src/agents/management_agent.py:53 | the comprehension returns exactly when every item is a model, giving their dumps in order |
| ManagementAgent.DumpListIfModels | src/agents/management_agent.py:52-59 | falsy values and lists whose first item is plain are kept; a list headed by a model is dumped when all its items are models; dumping keeps truthiness |
| ManagementAgent.CountTrue | src/agents/management_agent.py:101-108 | the number of true steps is at most the number of steps |
| ManagementAgent.Progress | src/agents/management_agent.py:101-108 | progress is 20 times the number of truthy components, within 0..100 |
| ManagementAgent.OrDefault | src/agents/management_agent.py:114-119 | a truthy value is kept, a falsy one is replaced by the default |
| ManagementAgent.ManageState | src/agents/management_agent.py:35-121 | returns exactly when the three list components dump without raising; progress is 20 times the number of truthy dumped components; a truthy component comes back as its dump, a falsy one as `{}` or `[]` |
| ManagementAgent.CountTrueSet | src/agents/management_agent.py:101-108 | turning one false step true adds one to the count |
| ManagementAgent.ProgressStep | src/agents/management_agent.py:101-108 | making one falsy component truthy raises progress by exactly 20 |
| ManagementAgent.ProgressOfModels | src/agents/management_agent.py:50-121 | only a student model gives progress 20 with the other components defaulted; adding a visa model gives 40 |
| ManagementAgent.DumpsModelLists | src/agents/management_agent.py:52-59 | a list of models comes back as the list of their dumps, in order |
| ManagementAgent.MixedListRaises | src/agents/management_agent.py:52-59 | a list headed by a model but holding a plain item raises |
| ManagementAgent.PlainFirstKept | src/agents/management_agent.py:52-59 | a list whose first item is plain is kept as is |
| AiUtils.Truncate | src/ai_utils.py:43-44 | the prompt content is the prefix of length min(len, 12000) |
| AiUtils.ErrorRecord | src/ai_utils.py:74-76 | an error record has empty `extracted_content`, the message under `error`, and no timestamp |
| AiUtils.Body | src/ai_utils.py:38-76 | the body never raises; empty input makes no call and gives the error record; otherwise one call with the truncated page, and a failed call gives the error record |
| AiUtils.Retry | src/ai_utils.py:19-26 | the first of three attempts that returns wins; when all raise, the callback's record carries the last error |
| AiUtils.ExtractContentWithAi | src/ai_utils.py:19-76 | at most one model call per invocation |
| AiUtils.SingleAttempt | src/ai_utils.py:19-76 | the decorator stops after the first attempt, because the body never raises |
| AiUtils.EmptyContent | src/ai_utils.py:38-39 | empty content gives `{"extracted_content": "", "error": "No content to analyze"}` and no call |
| AiUtils.Success | src/ai_utils.py:67-72 | a reply gives `extracted_content` and `timestamp` and no `error` |
| AiUtils.Failure | src/ai_utils.py:74-76 | a failed call gives empty `extracted_content` with the error message and no timestamp |
| AiUtils.TruncateCommonPrefix | src/ai_utils.py:43-44 | pages that share their first 12000 characters produce the same prompt content |
| GraphWorkflow.UpdateState | src/graph_workflow.py:29-42 | a dict is merged with `update` (its keys read as in it, the others as before); anything else changes nothing; the same object is returned |
| GraphWorkflow.UniversityRecommendationsNode | src/graph_workflow.py:53-55 | `universities` becomes `[]` and no other key changes |
| GraphWorkflow.HandleError | src/graph_workflow.py:13-27 | the state is returned unchanged |
| GraphWorkflow.UpdateIdempotent | src/graph_workflow.py:40-41 | applying the same updates twice reads the same as applying them once |
| GraphWorkflow.Successors | src/graph_workflow.py:99-108 | a node's successors are exactly the targets of its edges |
| GraphWorkflow.Walk | src/graph_workflow.py:96-108 | a walk starts at its node, each next node is the single successor of the one before, and it stops early only at a node without exactly one successor |
| GraphWorkflow.FixedOrder | src/graph_workflow.py:96-108 | the run is student_info, university_recommendations, management, END |
| ReplyParsing.Entries | src/agents/scholarship_info_agent.py:56 | splitting on a blank line always gives at least one entry |
| ReplyParsing.NonBlank | src/agents/scholarship_info_agent.py:56-57 | the number of non-blank entries is at most the number of entries |
| ReplyParsing.Kept | src/agents/scholarship_info_agent.py:57-68 | an entry contributes its parsed record exactly when it is non-blank and parses, and nothing otherwise |
| ReplyParsing.Collect | src/agents/scholarship_info_agent.py:55-69 | at most one record per non-blank entry |
| ReplyParsing.KeepEntry | src/agents/scholarship_info_agent.py:57-68 | one turn keeps the parsed record of a non-blank entry that parses, and nothing otherwise |
| ReplyParsing.CollectEntries | src/agents/scholarship_info_agent.py:55-69 | the loop over the entries keeps exactly the records `Collect` defines, in order |
| ReplyParsing.CollectSkip | src/agents/scholarship_info_agent.py:57-68 | an entry that contributes nothing does not disturb the entries around it |
| ReplyParsing.CollectFrom | src/agents/scholarship_info_agent.py:55-69 | every collected record is the parse of some non-blank entry |
| ReplyParsing.CollectNone | src/agents/scholarship_info_agent.py:55-69 | a parser that rejects everything collects nothing |
| ReplyParsing.CollectAll | src/agents/scholarship_info_agent.py:55-69 | a parser that accepts every entry collects one record per non-blank entry |
| ScholarshipInfoAgent.AsValue | src/agents/scholarship_info_agent.py:18-19 | a StudentInfo instance becomes its dump, which is truthy |
| ScholarshipInfoAgent.Countries | src/agents/scholarship_info_agent.py:27 | `preferred_countries` when present, `['USA']` otherwise |
| ScholarshipInfoAgent.CleanPlain | src/agents/scholarship_info_agent.py:61-64 | a line without its marker is only stripped |
| ScholarshipInfoAgent.Clean | src/agents/scholarship_info_agent.py:61-64 | `line.replace(marker, '').strip()`: the field has no surrounding whitespace left to strip |
| ScholarshipInfoAgent.EntryFields | src/agents/scholarship_info_agent.py:60-65 | the keyword dict has exactly the keys name, description, eligibility and amount, in that order |
| ScholarshipInfoAgent.ParseEntry | src/agents/scholarship_info_agent.py:58-68 | the per-entry `try`: an entry of fewer than four lines is never accepted |
| ScholarshipInfoAgent.ParseEntryResult | src/agents/scholarship_info_agent.py:58-68 | an entry parses exactly when it has four lines or more; the fields are those lines with the markers removed and stripped, and later lines are ignored |
| ScholarshipInfoAgent.ParseReply | src/agents/scholarship_info_agent.py:54-69 | the loop keeps, in order, the records of the non-blank entries that parse, at most one per non-blank entry |
| ScholarshipInfoAgent.FetchScholarshipInfo | src/agents/scholarship_info_agent.py:18-73 | a falsy profile gives None with no model call; a non-dict raises; a failed call gives None; a reply gives the parsed list |
| ScholarshipInfoAgent.WellFormedReply | src/agents/scholarship_info_agent.py:56-69 | when every entry has four lines or more, there is one scholarship per non-blank entry |
| ScholarshipInfoAgent.WellFormedAll | src/agents/scholarship_info_agent.py:56-69 | entries that all parse give one record per non-blank entry |
| ScholarshipInfoAgent.SkippedEntry | src/agents/scholarship_info_agent.py:56-68 | blank entries and entries of fewer than four lines are skipped without affecting the others |
| ScholarshipSearchAgent.SearchKwargs | src/agents/scholarship_search_agent.py:58-64 | the agent's keywords never include `description` |
| ScholarshipSearchAgent.SearchEntryFields | src/agents/scholarship_search_agent.py:58-64 | the keywords built from an entry's first five lines never include `description` |
| ScholarshipSearchAgent.ParseSearchEntry | src/agents/scholarship_search_agent.py:56-67 | the per-entry `try` as written: an entry of fewer than five lines is never accepted |
| ScholarshipSearchAgent.SearchEntryRejected | src/agents/scholarship_search_agent.py:58-67 | no entry ever validates as a ScholarshipInfo |
| ScholarshipSearchAgent.ParseSearchReply | src/agents/scholarship_search_agent.py:53-67 | the loop collects exactly what the per-entry parse keeps, which is nothing |
| ScholarshipSearchAgent.NothingCollected | src/agents/scholarship_search_agent.py:53-67 | whatever the entries, nothing is collected |
| ScholarshipSearchAgent.DumpAll | src/agents/scholarship_search_agent.py:79 | one dump per scholarship, in order |
| ScholarshipSearchAgent.FetchScholarshipInfo | src/agents/scholarship_search_agent.py:15-84 | a falsy profile or a failed call gives `{}`; a non-dict raises; a reply gives `{'scholarships': []}` |
| ScholarshipSearchAgent.SearchKwargsAccepted | src/agents/scholarship_search_agent.py:58-64 | a record with the agent's five fields accepts its keywords and keeps each value |
| ScholarshipSearchAgent.ValidateSearchScholarship | src/agents/scholarship_search_agent.py:58-64 | the record the keywords were written for: a built record carries the five passed strings |
| ScholarshipSearchAgent.ParseSearchEntryIntended | src/agents/scholarship_search_agent.py:56-67 | the intended per-entry parse: an entry of fewer than five lines is never accepted |
| ScholarshipSearchAgent.IntendedAccepts | src/agents/scholarship_search_agent.py:58-64 | with that record, every entry of five lines or more is accepted, its fields being the cleaned lines |
| ScholarshipSearchAgent.IntendedKeepsWellFormed | src/agents/scholarship_search_agent.py:53-67 | with that record, a reply of well-formed entries gives one scholarship per non-blank entry, where the code as written gives none |
| ScholarshipSearchAgent.IntendedAll | src/agents/scholarship_search_agent.py:53-67 | entries of five lines or more all give a record under the intended parse |
| AllowedWebsites.HitOf | create_allowed_websites.py:38-41 | a dict result gives its `title` and `link` (None when absent); anything else raises |
| AllowedWebsites.MapAll | create_allowed_websites.py:31-49 | the result loop inside the `try`: when it completes it gives one item per result |
| AllowedWebsites.HitsDefined | create_allowed_websites.py:37-41 | the result loop completes exactly when every organic result is a dict |
| AllowedWebsites.MapAllPointwise | create_allowed_websites.py:37-41 | when the loop completes, hit `i` is built from result `i`, in order |
| AllowedWebsites.SearchResults | create_allowed_websites.py:8-49 | no API key, a failed request or a body that is not JSON gives `[]` |
| AllowedWebsites.SearchWeb | create_allowed_websites.py:8-49 | the append loop returns the hits the search defines, `[]` on any error |
| AllowedWebsites.NoHitsAfterFailure | create_allowed_websites.py:37-49 | one result that is not a dict makes the whole search give `[]` |
| AllowedWebsites.SearchKeepsOrder | create_allowed_websites.py:36-41 | one hit per organic result, keeping only title and link, in response order |
| AllowedWebsites.NoKeyNoLinks | create_allowed_websites.py:18-21 | without an API key no link is collected |
| AllowedWebsites.Links | create_allowed_websites.py:66-70 | the links one search adds to `all_links` are all truthy |
| AllowedWebsites.QueryLinks | create_allowed_websites.py:63-70 | every link collected over the queries is truthy |
| AllowedWebsites.LinksMembers | create_allowed_websites.py:66-70 | a link is collected exactly when it is truthy and appears in some result |
| AllowedWebsites.Domain | create_allowed_websites.py:74-76 | a link has a domain exactly when it splits into more than two parts |
| AllowedWebsites.DomainsOf | create_allowed_websites.py:72-77 | no allowed domain contains `/`, and component 2 of every string link of more than two components is allowed |
| AllowedWebsites.CreateAllowedWebsites | create_allowed_websites.py:52-77 | the allowed domains are those of all the collected links; it raises exactly when a collected link is not a string |
| AllowedWebsites.CollectLinks | create_allowed_websites.py:63-70 | the query loop collects every search's truthy links |
| AllowedWebsites.AddLinks | create_allowed_websites.py:66-70 | one search adds exactly its truthy links |
| AllowedWebsites.Domains | create_allowed_websites.py:72-77 | the domain loop yields the domains of the links, or raises on a link that is not a string |
| AllowedWebsites.DomainsBound | create_allowed_websites.py:72-77 | there are never more domains than links |
| AllowedWebsites.DomainsFromLinks | create_allowed_websites.py:72-77 | a domain is allowed exactly when it is component 2 of some collected string link |
| AllowedWebsites.ShortLinkIgnored | create_allowed_websites.py:75 | a link with at most two components adds no domain |
| JsonStore.Loaded | src/json_storage.py:16-29 | the stored document, or `{"students": {}}` when the file is missing or unreadable |
| JsonStore.ContactOf | src/json_storage.py:54-58 | a profile is filed exactly when `contact_info` is a non-empty string, under that string |
| JsonStore.Updated | src/json_storage.py:52-66 | a document is saved only with a usable contact and a dict document, and the saved document is a dict; without `replace_existing` it is saved exactly when `students` is a dict |
| JsonStore.StudentOf | src/json_storage.py:71-78 | a non-empty answer is the profile stored under the contact in the `students` dict |
| JsonStore.JsonStorage.constructor | src/json_storage.py:7-14 | a missing file starts as `{"students": {}}` when it can be written |
| JsonStore.JsonStorage.LoadData | src/json_storage.py:16-29 | the load follows `Loaded` |
| JsonStore.JsonStorage.SaveData | src/json_storage.py:31-39 | True and the file replaced, or False and the file unchanged |
| JsonStore.JsonStorage.ClearData | src/json_storage.py:41-43 | on success the file holds `{"students": {}}` |
| JsonStore.JsonStorage.UpdateStudentInfo | src/json_storage.py:45-69 | True exactly when the update applies and the save succeeds; the file is then the updated document, and otherwise unchanged |
| JsonStore.JsonStorage.GetStudentInfo | src/json_storage.py:71-78 | the profile stored under the contact, or `{}` |
| JsonStore.NoContactRefused | src/json_storage.py:54-58 | a missing or falsy contact is refused, so nothing is saved |
| JsonStore.ReplaceLeavesOne | src/json_storage.py:60-65 | with replace_existing, `students` holds exactly the new profile |
| JsonStore.AddKeepsOthers | src/json_storage.py:65 | without replace_existing, the profile is set under its contact and every other student and key is kept |
| JsonStore.UpdateThenGet | src/json_storage.py:65-75 | after a saved update, `get_student_info(contact)` returns the profile |
| JsonStore.AbsentIsEmpty | src/json_storage.py:75 | a contact never filed reads as `{}` |
| JsonStore.EmptyHasNoStudents | src/json_storage.py:71-78 | a missing, unreadable or cleared store reads `{}` for every contact |
| JsonStore.EmptyAcceptsProfile | src/json_storage.py:60-66 | a fresh store accepts any profile with a contact and then holds only it |
| Db.NewRow | src/database.py:72-75 | an inserted row has exactly the table's columns |
| Db.SetColumns | src/database.py:61-66 | an updated row keeps its columns |
| Db.MatchCount | src/database.py:54-57 | the count is zero exactly when no row has the contact |
| Db.DumpLists | src/database.py:46-48 | each entry is converted on its own, in place |
| Db.DumpListsEffect | src/database.py:46-48 | keys stay in order, lists become their JSON text, other values are untouched, and no list remains |
| Db.UpdateMatching | src/database.py:59-66 | the rows with the contact are overwritten, the others kept, the count unchanged |
| Db.Upsert | src/database.py:50-79 | `insert_data`'s commit: the same tables, no other table changed, the named table keeps its columns and gains at most one row |
| Db.Created | src/database.py:25-35 | `CREATE TABLE IF NOT EXISTS`: existing tables are untouched; the table exists afterwards exactly when it did or the columns are non-empty and distinct, and a new one is empty |
| Db.Cleared | src/database.py:96-97 | `DELETE FROM`: the same tables with the same columns, the named one emptied and the others unchanged |
| Db.Loaded | src/database.py:114-127 | `load_from_json`'s commit: the same tables, no other table changed, the named table keeps its columns |
| Db.LoadRows | src/database.py:119-124 | the load succeeds exactly when every item is a dict whose values fit the columns; row i is then item i's values under `columns`, in file order |
| Db.Database.constructor | src/database.py:8-11 | a new object has no connection |
| Db.Database.Connect | src/database.py:13-19 | succeeds exactly for sqlite with a directory in the URL, and opens the connection |
| Db.Database.Close | src/database.py:21-23 | a connection that was opened is closed |
| Db.Database.CreateTable | src/database.py:25-35 | raises only when connecting fails; otherwise the tables follow `CREATE TABLE IF NOT EXISTS` and the connection is closed |
| Db.Database.InsertData | src/database.py:37-87 | raises only when connecting fails; otherwise the caller's lists become JSON text in place and the upsert is committed |
| Db.Database.DumpListsInPlace | src/database.py:46-48 | the loop replaces each list value of the caller's dict by its JSON text |
| Db.Database.ClearTable | src/database.py:89-103 | raises only when connecting fails; otherwise the table is emptied |
| Db.Database.LoadFromJson | src/database.py:114-129 | raises only when connecting fails; otherwise all rows or none are committed |
| Db.LoadRowsFail | src/database.py:119-127 | one failing insert fails the whole load |
| Db.FalsyContactUnchanged | src/database.py:51-53 | a falsy `contact_info` executes nothing |
| Db.UpsertOtherTables | src/database.py:53-79 | no other table changes |
| Db.UpsertUpdates | src/database.py:59-70 | an existing contact's rows are overwritten, the other rows kept, the row count unchanged |
| Db.UpsertInserts | src/database.py:71-79 | a new contact appends exactly one row holding the profile's values |
| Db.CreateIdempotent | src/database.py:31 | creating the same table twice is the same as once |
| Db.CreateExisting | src/database.py:31 | an existing table is left as it is |
| Db.ClearEmpties | src/database.py:96-97 | a cleared table has no rows and keeps its columns |
| Db.LoadAllOrNothing | src/database.py:119-127 | either nothing changes or, after the existing rows, the table gains one row per item holding that item's values, in file order |
| Db.LoadBadItem | src/database.py:119-127 | an item that is not a dict or does not fit the columns loses the whole file |

## Left out

- The Streamlit UI is not modelled. This covers every `st.*` call, `display_results`, and the display loops of `manage_state`. It also covers `src/agents/student_info_agent.py`, both document-management agents, `src/main.py`, `test.py` and `src/agents/university_recommendation_agent.py`.
- ManagementAgent.ManageState: the display code's `.get` calls are not modelled. They raise on a truthy component that is not a dict, or whose items are not dicts. The model returns a state where the source would raise there.
- CurrencyUtils.ConvertCurrency, Utils.ConvertCurrency, CurrencyUtils.Linear: amounts are exact reals and IEEE double rounding is not modelled, so `Linear` holds of the model only. In doubles `(0.1 + 0.2) * 82.0` and `0.1 * 82.0 + 0.2 * 82.0` differ in the last place.
- ManagementAgent.Progress: the arithmetic is exact. In IEEE floats `3 / 5 * 100` is `60.00000000000001`, not 60.
- The network clients are not modelled: `src/web_utils.py`, `src/travily_search.py`, `src/search_utils.py` and the `scrape_website*` helpers of `src/utils.py`. The HTTP call in `create_allowed_websites.py` is an input, `Response`. The same holds for `is_allowed_domain`, a wrapper over an external library.
- AllowedWebsites.CreateAllowedWebsites: the source raises a TypeError when it adds a list or dict link to the set. The model raises later, in the domain loop, with the same outcome. Writing `allowed_websites.json` is left out: the result is the set of domains, and the order of `list(...)` is unspecified.
- The language model (`query_llm`) is a function parameter that answers or fails. The prompts are values carrying the data put into them; the prompt wording is left out.
- `time.sleep`, the retry backoff timing and `datetime.now()` are left out. The timestamp is a parameter.
- File and sqlite I/O are abstracted. File contents are a field (`Disk`) or an input (`FileRead`). The database's committed tables are a field. SQL strings and `fetch_data`'s arbitrary query are left out.
- Db.Database.InsertData: `json.dumps` is a parameter. SQLite's TEXT affinity and its type conversions are not modelled, so values are stored and compared as given.
- Db.Database.LoadFromJson: the column names must be distinct. SQLite's handling of a repeated column in an INSERT is not modelled.
- Db.Created, Db.Upsert, Db.Loaded: table and column names are compared exactly and assumed to be valid SQL identifiers that are distinct ignoring case. SQLite compares them ignoring case, and the source pastes them into the SQL unquoted. So a table differing only in case from an existing one, columns such as `name` and `Name`, and a reserved word such as `order` as a column all fail or do nothing in the source, while the model accepts them.
- Db.Database.Connect: only the dbType check and the empty directory name are modelled. Failures of `os.makedirs` or `sqlite3.connect` on an actual filesystem are not.
- JsonStore.ContactOf: a truthy `contact_info` that is a number or a boolean is refused here. The source would file it under a key that `json.dump` writes as text.
- Models.ValidateStudentInfo, Models.ValidateUniversity, Models.ValidateDocument: pydantic's lax coercions are not modelled, for example numeric strings to numbers or 0/1 to booleans. A float with no fractional part is accepted for an `int` field.
- JSON numbers are exact reals, so the int/float distinction is merged. A JSON object with a repeated key is read by its first occurrence.
- The langgraph graph construction and execution, `src/config.py`, `setup.py` and `src/file_utils.py` are not modelled.

## Findings

| source | as written | input that shows it | evidently intended | confidence | as-written member | corrected member |
|---|---|---|---|---|---|---|
| src/agents/scholarship_search_agent.py:58-64 | each entry's keywords (`name`, `country`, `eligibility_criteria`, `award_amount`, `application_deadline`) are passed to `ScholarshipInfo`, which requires `description`, `eligibility` and `amount`, so every entry fails validation | any reply, e.g. `"1. A\nCountry: UK\nEligibility Criteria: x\nAward Amount: y\nApplication Deadline: z"`, gives `{'scholarships': []}` | a record with the five fields the entries carry and the display code reads (lines 72-75), so each entry of five lines or more gives a scholarship | high, not executed | ScholarshipSearchAgent.SearchEntryRejected | ScholarshipSearchAgent.IntendedAccepts |
