# scholar-hunter: a Dafny model of the resume-and-drain core

scholar-hunter enriches a CSV of people (id, name, optional organisation) in
two phases. The *initial* phase resolves each person to a Google Scholar
profile link. The *details* phase fetches the picture, name, affiliation and
yearly citation counts from that profile. Each phase writes its results to an
output CSV that is also its resume marker: at start-up the ids already in
that file are skipped, and each completed fetch is appended to it at once.

This project models the bookkeeping under the web scraping, in eight modules:

- `Tables` (tables.dfy): cells, rows, tables, the column configuration, the errors.
- `Query` (query.dfy): the search query, the search URL, the organisation cell.
- `Citations` (citations.dfy): `dict(zip(years, citations))`.
- `Fetchers` (fetchers.dfy): `search_initial` and `search_details`, with their failure tuples and what their futures complete with.
- `Encodings` (encodings.dfy): `read_csv_with_encoding`.
- `Columns` (columns.dfy): `main`'s missing-column check and organisation fill.
- `Checkpoint` (checkpoint.dfy): the output file, the resume filter, and the drain loop shared by the two batch drivers.
- `Searcher` (searcher.dfy): the `GoogleScholarSearcher` class with its two batch drivers, `search_batch`'s mode dispatch, and `main`.

How the model is built:

- The output file is a `CsvFile` object. It has a `present` flag, a header and a sequence of rows, and the drivers update it in place.
- The thread pool is modelled by its observable effect. Every work row is submitted up front, one future per row. The drain loop then takes the pending futures in an order it does not choose. The order is picked nondeterministically, so every postcondition holds for every permutation. The method returns the order it took.
- The browser is a parameter of each task. It is a function from the address visited to what the page yields, plus two flags: whether the driver starts (this happens before the `try`) and whether `browser.quit()` succeeds (this happens in the `finally`).
- The encoding attempts are a function parameter from encoding to outcome.

Behaviour of the code that a reader might not expect, each shown by a member of the model:

- The code does not de-duplicate ids within the input (scholar_hunter.py:104 filters only against the checkpoint). `Checkpoint.PendingKeepsDuplicates` shows that every surviving input row keeps its multiplicity in the work set. `Checkpoint.CleanRunAppendsEveryFuture` shows that each of those rows is appended once, so an id repeated in the input appears repeatedly in the output.
- A future raises, and appends nothing, when `setup_driver` (scholar_hunter.py:37, 58, outside the `try`) or `browser.quit()` (lines 55, 87, in the `finally`) raises. `Checkpoint.RaisedItemIsRetried` shows that such an item is dispatched again by the next run. A failed *lookup* instead returns a failure tuple, which is recorded, so that item counts as processed (`Searcher.InitialFuturesKeepIds`).
- The citation-history container is located with `find_element` inside the `try` (scholar_hunter.py:66). A profile without it makes the whole details fetch return its failure tuple (`Fetchers.ProfilePage.ProfileFailed`), not a row with empty citation data.
- The query is put into the URL without URL encoding; only spaces become '+' (scholar_hunter.py:40, `Query.SearchUrlKeepsOtherCharacters`). A name or organisation holding '&' (such as "AT&T Labs") ends the `q` parameter there and drops the site filter from the search. A '#' cuts off the rest as a fragment, a '%' is percent-decoded by the server, and a '+' already in the query reads back as a space.
- `read_csv_with_encoding` lists cp1252 after iso-8859-1 (scholar_hunter.py:177), but iso-8859-1 decodes every byte, so in practice the third attempt never raises `UnicodeDecodeError`. The cp1252 attempt and the ValueError at line 183 are then unreachable. The model's attempts are an arbitrary function, which also covers these unreachable outcomes.
- `main` catches every exception (scholar_hunter.py:223-225), so a failed run still ends normally. The existing output file is read with plain `pd.read_csv` (lines 102, 141): utf-8 only, with no encoding fallback, and a 0-byte file raises `EmptyDataError`. Beyond that read, the drivers need only the id column of that file; without it a `KeyError` is raised before any work is done (`MissingIdColumn`). No other part of the header is checked.

A run can be killed part-way, for instance by interrupting the process. `Drain` and everything that calls it take a `killAfter` parameter: the number of completions processed before the kill, or None for a run that goes to the end. After k completions the file holds the seed plus the rows of those k completions. This is the state `Checkpoint.InterruptedRunResumes` resumes from.

Keying the result rows by id is only sound when the configured id column differs from the fixed output labels. A dict literal with a repeated key keeps the later value. The lemmas that track ids therefore require `IdColumnIsOwn`.

## Model

| member | source | states |
|---|---|---|
| `Query.SearchQuery` | scholar_hunter.py:39 | the query is the name, one space, the organisation slot, then " site:scholar.google.com", with exact lengths and positions |
| `Query.FalsyOrganizationsShareQuery` | scholar_hunter.py:39 | every falsy organisation (None or '') gives the same query, the name followed by two spaces and the site filter |
| `Query.PlusForSpace` | scholar_hunter.py:40 | `replace(" ", "+")` keeps the length, maps each space to '+', keeps every other character, and leaves no space |
| `Query.PlusForSpaceRoundTrip` | scholar_hunter.py:40 | for text without '+', reading '+' back as a space recovers the original |
| `Query.SearchUrl` | scholar_hunter.py:40 | the URL is the Google search endpoint followed by the query with its spaces replaced |
| `Query.SearchUrlWellFormed` | scholar_hunter.py:40 | the URL contains no space, and reading '+' back as a space in its query part recovers a query without '+' |
| `Query.SearchUrlKeepsOtherCharacters` | scholar_hunter.py:40 | no character other than the space is encoded: any other character except '+' is in the URL's query part exactly when it is in the query |
| `Query.OrganizationCell` | scholar_hunter.py:122 | the Organization cell of a result row is the organisation if truthy and '' otherwise, never None |
| `Citations.ZipDict` | scholar_hunter.py:76-78 | the citation map's keys are exactly the years among the first min(\|years\|, \|citations\|) positions |
| `Citations.ZipDictIgnoresSurplus` | scholar_hunter.py:78 | labels beyond the shorter list do not affect the map |
| `Citations.ZipDictLaterPairWins` | scholar_hunter.py:78 | a year maps to the count of the last pair carrying it |
| `Fetchers.SearchInitial` | scholar_hunter.py:36-53 | id, name and organisation are returned unchanged; the link is the first result's href, or None when the lookup raised |
| `Fetchers.SearchDetails` | scholar_hunter.py:57-85 | id and url are returned unchanged; a failed page gives four None fields; a loaded page gives the picture's src or '' when there is no picture, the name and affiliation element texts or '' when an element is absent, and the zipped citation map, or {} when the history cannot be parsed |
| `Fetchers.DetailsFailureShape` | scholar_hunter.py:79-85 | the citation data is None exactly when the profile page failed |
| `Fetchers.InitialTask` | scholar_hunter.py:36-55 | the future raises exactly when the driver cannot start or cannot quit; otherwise it returns search_initial's tuple |
| `Fetchers.DetailsTask` | scholar_hunter.py:57-87 | the same for search_details |
| `Encodings.ReadFrom` | scholar_hunter.py:177-183 | the outcome of trying the encodings from a position on; a table it returns is the one some attempt parsed |
| `Encodings.ReadCsvWithEncoding` | scholar_hunter.py:176-183 | returns the table of the first encoding in utf-8, utf-8-sig, iso-8859-1, cp1252 order that does not raise a decode error; another exception from that attempt propagates; ValueError exactly when all four raise decode errors; the loop's result is `ReadFrom` from the first encoding |
| `Columns.MissingColumns` | scholar_hunter.py:210 | a column is missing exactly when it is required and absent from the table |
| `Columns.MissingColumnsKeepsOrder` | scholar_hunter.py:210 | missing columns are listed in required order |
| `Columns.CheckColumns` | scholar_hunter.py:210-212 | the table is rejected exactly when some required column is absent, and the error lists exactly the absent ones |
| `Columns.FillOrganization` | scholar_hunter.py:214-219 | the organisation column exists afterwards and is added last if it was absent; it has '' in every cell that was missing or absent, keeps its non-missing cells, and every other cell is unchanged |
| `Columns.FillOrganizationIdempotent` | scholar_hunter.py:216-219 | filling the organisation column twice is the same as filling it once |
| `Checkpoint.CsvFile.CreateHeaderOnly` | scholar_hunter.py:107 | writing an empty DataFrame leaves a file holding only the given header |
| `Checkpoint.CsvFile.AppendRow` | scholar_hunter.py:127 | appending without a header adds one row at the end and keeps the header |
| `Checkpoint.Pending` | scholar_hunter.py:103-104 | a row is in the work set exactly when it is an input row whose id is not among the processed ids |
| `Checkpoint.PendingKeepsOrder` | scholar_hunter.py:104 | the work set keeps the input order |
| `Checkpoint.PendingKeepsDuplicates` | scholar_hunter.py:104 | the work set neither merges nor drops duplicate rows |
| `Checkpoint.PendingOfNothingDone` | scholar_hunter.py:106-107 | with a fresh output file the work set is the whole input |
| `Checkpoint.PendingOfAllDone` | scholar_hunter.py:101-104 | when every input id is already processed the work set is empty |
| `Checkpoint.Drain` | scholar_hunter.py:115-132 | the completions processed are distinct futures, all of them unless the process is killed after `killAfter`, and then exactly that many; the file is appended at each completion, so it holds the seed followed by the returned rows of exactly the completions processed, in completion order; the results equal the file rows; progress counts the completions processed |
| `Checkpoint.AppendedPlusRaised` | scholar_hunter.py:116-132 | appended rows plus raised completions equal the completions processed, so each completion moves progress by one |
| `Checkpoint.AppendedOrderIrrelevant` | scholar_hunter.py:116 | any two completion orders of the same futures append the same rows, each as often |
| `Checkpoint.AppendedWithoutRaises` | scholar_hunter.py:118-127 | with no raised future, the i-th appended row is the row of the i-th completion |
| `Checkpoint.CleanRunAppendsEveryFuture` | scholar_hunter.py:110-127 | with no raised future, whatever the completion order, each submitted future's row is appended exactly once |
| `Checkpoint.RunCheckpointIds` | scholar_hunter.py:101-127 | after a run the file's ids are the earlier ids plus the id of every dispatched row whose future returned |
| `Checkpoint.CleanRunLeavesNothingPending` | scholar_hunter.py:101-127 | after a run with no raised future, resuming over the same input finds nothing to do |
| `Checkpoint.RaisedItemIsRetried` | scholar_hunter.py:117-130 | a dispatched row all of whose futures raised stays in the next run's work set |
| `Checkpoint.InterruptedRunResumes` | scholar_hunter.py:101-127 | after any set of completions processed before a kill, the next run's work set is exactly the input rows whose id is neither in the earlier checkpoint nor the id of a processed completion that returned |
| `Checkpoint.AppendedKeepsShape` | scholar_hunter.py:127 | appending rows that hold exactly the header's columns keeps the file a well-formed table under that header |
| `Searcher.InitialRowShape` | scholar_hunter.py:119-124 | an initial result row has exactly the initial header's columns, carries its id, and has a non-None Organization |
| `Searcher.DetailsRowShape` | scholar_hunter.py:157-164 | a details result row has exactly the details header's columns and carries its id |
| `Searcher.InitialFuturesKeepIds` | scholar_hunter.py:110-124 | every initial future that returns carries its row's id, and it returns exactly when its driver starts and quits, so a failed lookup is still recorded |
| `Searcher.DetailsFuturesKeepIds` | scholar_hunter.py:149-164 | the same for details futures: a page that fails to load is still recorded |
| `Searcher.InitialRunWellFormed` | scholar_hunter.py:107-127 | a file that starts fresh, or well-formed under the initial header, is a well-formed table under that header after any initial run, killed or not |
| `Searcher.DetailsRunWellFormed` | scholar_hunter.py:146-167 | the same under the details header |
| `Searcher.ParseMode` | scholar_hunter.py:89-95 | 'initial' and 'details' are the only accepted modes, each mapped to its own mode; any other string is a ValueError |
| `Searcher.GoogleScholarSearcher.SearchBatchInitial` | scholar_hunter.py:97-134 | an existing file without an id column raises and changes nothing; otherwise an existing file seeds the results and its ids are skipped, and a missing file is created with [id, Name, Organization, Google Scholar Link]; the results are the seed plus the returned rows of the completions processed, in completion order; the file equals the results; progress counts the completions processed (`InitialBatchRan`) |
| `Searcher.GoogleScholarSearcher.SearchBatchDetails` | scholar_hunter.py:136-174 | the same with the details header [id, Google Scholar Link, img_link, google_scholar_name, google_scholar_organization, citation_data] (`DetailsBatchRan`) |
| `Searcher.GoogleScholarSearcher.SearchBatch` | scholar_hunter.py:89-95 | 'initial' has the whole effect of search_batch_initial on the initial output file and leaves the details file unchanged; 'details' is the reverse; an unknown mode raises ValueError before any file is touched |
| `Searcher.Run` | scholar_hunter.py:198-221 | an input that cannot be read fails with the read's error; a read table missing a required column (id and name in initial mode, id and 'Google Scholar Link' in details mode) fails with exactly the missing ones; otherwise initial mode runs the initial batch on the table with its organisation column filled, and details mode runs the details batch on the table as read, the other file unchanged; no failure changes either output file, and an invalid mode never reaches search_batch |
| `Searcher.InitialResumeIsIdempotent` | scholar_hunter.py:97-134 | after an initial run with no raised future, a second run over the same input dispatches nothing |
| `Searcher.DetailsResumeIsIdempotent` | scholar_hunter.py:136-174 | the same for the details phase |

## Left out

- Selenium and BeautifulSoup (driver setup, navigation, waits, element lookups, HTML parsing) are foreign library calls against live markup. Each page is a parameter that yields a `SearchPage` or a `ProfilePage`, and the year and count labels are given sequences.
- CSV serialisation is not modelled: None written as an empty cell, a dict written as its text form, and dtype inference when the file is read back. The model reads a file's rows back as the dicts that were appended. This holds only when the file's header lists the result dict's keys in the dict's order, because `to_csv(mode='a', header=False)` writes values by position. For the headers the drivers create this order match holds by the source text: line 107 lists the keys of lines 119-124 in order, and line 146 those of lines 157-164. The model proves only that the column sets match (`Searcher.InitialRunWellFormed`, `Searcher.DetailsRunWellFormed`).
- An existing output file whose header is some other arrangement of columns that includes the id column is accepted, but appended values then land under the wrong labels. The model does not capture this misplacement: its rows stay keyed correctly, so resuming from such a file behaves as for a driver-created one.
- Reading the existing output file is modelled as always succeeding. `pd.read_csv` there has no encoding fallback and rejects a 0-byte file, and those exceptions are not modelled.
- The two output files are assumed to be different files (`SearchBatch` and `Run` require it). With the same path configured for both, the two phases would write to one file.
- A failure of the append itself is not modelled. The source appends to `results` before writing the file, so a write error would leave a row in `results` that is missing from the file. The model treats file writes as infallible.
- Real concurrency and `max_workers` are not modelled. Only the single consumer loop over an arbitrary completion order is.
- NaN truthiness is not modelled. Python treats NaN as true, while the model treats every missing cell as falsy. `main` fills the organisation column before dispatch, so no missing organisation reaches the query.
- tqdm, logging, the YAML configuration, argparse and console output are I/O and UI. `Run` takes the mode as one of argparse's two choices. Error message texts are not modelled.
- The details phase reads `output_initial` through `read_csv_with_encoding`. The model takes that read as a parameter and does not tie it to the `outputInitial` object.
- FillOrganization: pandas updates the column of `df` in place. `df` is a local of `main` and is not shared, so the model returns the updated table as a value.
