# Security payload utilities and API client core, in Dafny

This project models the two parts of the Playwright test-automation framework
that hold real logic.

1. `utils/security_payloads.py`:
   - `SecurityPayloads` is a constant catalogue of attack strings. Its
     accessors flatten the SQL and XSS tables and take the leading three
     "critical" payloads.
   - `SecurityTestHelpers.check_for_sensitive_data_leak` scans an error message
     for sensitive keywords.
   - `SecurityTestHelpers.generate_fuzzing_data` makes one-character mutations
     of a base string.
2. `api/base_api.py`: how `BaseAPI` normalises its base URL, keeps the session
   headers, and builds the URL each HTTP verb requests.

Files:

- `wrappers.dfy`: `Option` and `Result`.
- `text.dfy` (module `Text`): Python's `str.lower()` per character, the
  substring test `k in s`, and `c * n`.
- `security_payloads.dfy` (module `SecurityPayloads`): the catalogue and the
  three accessors.
- `security_test_helpers.dfy` (module `SecurityTestHelpers`): the keyword
  scanner and the fuzz generator.
- `base_api.dfy` (module `BaseApi`): `rstrip`/`lstrip`, the URL rule, the
  case-insensitive header store and the `Client` class.

Modelling choices:

- A Python dict of lists is a `Table`: a sequence of named categories in
  declaration order. That is the order `dict.values()` yields them in.
- The accumulator loops are imperative methods, proved against specification
  functions. These are `FlattenCategories`, `ScanKeywords` and
  `GenerateFuzzingData`.
- The random source of `generate_fuzzing_data` becomes one `Draw` per round,
  supplied by the caller. Each `Draw` holds the insertion index and character,
  the deletion index, and the replacement index and character. `DrawFits`
  limits each draw to what `random.randint` and
  `random.choice(string.printable)` can return.
- With an empty base string and at least one round, the code calls
  `random.randint(0, -1)` for the replacement index. That raises `ValueError`,
  and the model returns `Failure(EmptyRandomRange)`. A negative count runs
  `range(mutations)` zero times, so it returns an empty list.
- The catalogue has flattening accessors only for the SQL and XSS tables; the
  other kinds are read as the class constants themselves.
- `requests` keeps session headers in a case-insensitive dict. It stores each
  entry under `key.lower()` together with the name as last written. The model
  does the same (`HeaderStore`). The headers a fresh `requests.Session()`
  starts with are a constructor parameter, because that library is not part of
  this model.
- Each verb method returns the `Request` (verb, URL, timeout) that it would hand
  to the session. The send itself is not modelled.

## Model

| member | source | states |
|---|---|---|
| SecurityPayloads.CatalogueShape | utils/security_payloads.py:9-196 | no category of the catalogue is empty; the buffer-overflow strings are runs of 'A' of lengths 100, 1000, 10000 and 100000 |
| SecurityPayloads.Find | utils/security_payloads.py:218-219 | `d[name]` returns the list stored under that key |
| SecurityPayloads.ConcatContents | utils/security_payloads.py:199-212 | flattening a table keeps exactly the payloads of its categories, and its length is the sum of their sizes |
| SecurityPayloads.FlattenCategories | utils/security_payloads.py:201-204 | the extend loop over `dict.values()` builds the concatenation of the lists in table order |
| SecurityPayloads.GetAllSqlPayloads | utils/security_payloads.py:198-204 | basic_or, union, time_based, error_based and boolean_based joined in that order, 39 payloads, starting with basic_or and ending with boolean_based |
| SecurityPayloads.GetAllXssPayloads | utils/security_payloads.py:206-212 | script_tags, event_handlers, javascript_protocol, iframe_attacks and attribute_injection joined in that order, 28 payloads |
| SecurityPayloads.Take | utils/security_payloads.py:218-221 | `s[:n]` is a prefix of `s` of length min(n, len(s)) |
| SecurityPayloads.GetCriticalPayloads | utils/security_payloads.py:214-222 | the keys are exactly sql, xss, command and ldap; each value is the first three entries of basic_or, script_tags, COMMAND_INJECTION and LDAP_INJECTION respectively |
| Text.Lower | utils/security_payloads.py:241 | `str.lower()` keeps the length and maps each character by `LowerChar` (ASCII capitals and KELVIN SIGN to small letters, everything else kept) |
| Text.LowerKeepsOccurrence | utils/security_payloads.py:241-244 | when `k` is in `s`, `k.lower()` is in `s.lower()` |
| Text.Occurs | utils/security_payloads.py:244 | the empty string is in every string, and nothing longer than `s` is in `s` |
| Text.OccursIff | utils/security_payloads.py:244 | the substring scan `k in s` holds exactly when `k` is the slice of `s` at some index |
| Text.OccursTransitive | utils/security_payloads.py:244 | a substring of a substring of `s` is a substring of `s` |
| SecurityTestHelpers.KeywordsInMembership | utils/security_payloads.py:240-247 | a keyword is reported exactly when it is in the list and occurs in the text |
| SecurityTestHelpers.KeywordsInOrder | utils/security_payloads.py:243-245 | the reported keywords are picked from the list at strictly increasing indices |
| SecurityTestHelpers.DistinctSelection | utils/security_payloads.py:243-245 | picking at increasing indices from a list without repeats gives no repeats |
| SecurityTestHelpers.SensitiveKeywordsDistinct | utils/security_payloads.py:231-238 | the 32 sensitive keywords are pairwise different |
| SecurityTestHelpers.ScanKeywords | utils/security_payloads.py:240-247 | the append loop returns exactly the keywords occurring in the lowered message, in list order, without repeats when the list has none |
| SecurityTestHelpers.CheckForSensitiveDataLeak | utils/security_payloads.py:228-247 | the result is exactly the sensitive keywords that occur in `error_message.lower()`, in keyword-list order, each once |
| SecurityTestHelpers.NothingInEmptyText | utils/security_payloads.py:243-245 | no non-empty keyword is found in an empty text |
| SecurityTestHelpers.EmptyMessageReportsNothing | utils/security_payloads.py:240-247 | an empty message yields `[]` |
| SecurityTestHelpers.OverlapsKept | utils/security_payloads.py:243-245 | when a reported keyword contains another keyword of the list, that one is reported too |
| SecurityTestHelpers.MysqlReportsBoth | utils/security_payloads.py:231-247 | a message whose lower case contains "mysql" reports both 'mysql' and 'sql' |
| SecurityTestHelpers.MysqlInAnyCase | utils/security_payloads.py:231-247 | any spelling of MySQL in the raw message ("MySQL", "MYSQL", ...) reports both 'mysql' and 'sql' |
| SecurityTestHelpers.PrintableCharacters | utils/security_payloads.py:279 | `string.printable` has 100 characters, exactly visible ASCII, space, and tab to carriage return |
| SecurityTestHelpers.Insert | utils/security_payloads.py:280 | the insertion has length len+1, holds the drawn character at p and the base around it |
| SecurityTestHelpers.Delete | utils/security_payloads.py:286 | the deletion has length len-1 and is the base with index p skipped |
| SecurityTestHelpers.Replace | utils/security_payloads.py:292 | the replacement has the base's length and equals it except at p, which holds the drawn character |
| SecurityTestHelpers.DeleteUndoesInsert | utils/security_payloads.py:278-281 | removing index p from the insertion variant gives back the base |
| SecurityTestHelpers.ReplaceUndone | utils/security_payloads.py:290-292 | writing the old character back at p undoes a replacement |
| SecurityTestHelpers.VariantsAreEdits | utils/security_payloads.py:277-293 | for any fitting draw, the three variants are a printable insertion, a one-index deletion and a printable one-index replacement of the base |
| SecurityTestHelpers.FuzzingData | utils/security_payloads.py:276-293 | the rounds' strings appended in order; the output holds 3 strings per round when len > 1, otherwise 2 |
| SecurityTestHelpers.FuzzingDataRound | utils/security_payloads.py:276-293 | round i occupies the strings from width*i to width*i + width, in the order insertion, deletion (if len > 1), replacement |
| SecurityTestHelpers.FuzzingDataAreEdits | utils/security_payloads.py:277-293 | whatever the draws, the strings of round i are an insertion, then a deletion when len > 1, then a replacement of the base |
| SecurityTestHelpers.FuzzingDataLengths | utils/security_payloads.py:277-293 | every output string is one longer than the base, one shorter (only when len > 1) or the same length |
| SecurityTestHelpers.SingleCharacterBase | utils/security_payloads.py:284-293 | a one-character base gives 2 strings per round, of lengths 2 and 1 |
| SecurityTestHelpers.OneRoundOnAb | utils/security_payloads.py:276-293 | one round on "ab" gives a length-3 string that loses one character to become "ab", then "a" or "b", then a length-2 string that keeps one character of "ab" in place |
| SecurityTestHelpers.GenerateFuzzingData | utils/security_payloads.py:269-295 | fails exactly when the base is empty and mutations >= 1; otherwise returns the rounds' variants in order, 3 (len > 1) or 2 (len == 1) per round, and `[]` when mutations <= 0 |
| SecurityTestHelpers.GenerateDefaultFuzzingData | utils/security_payloads.py:269 | with `mutations` at its default of 100: fails exactly on an empty base, otherwise 100 rounds of variants, 300 strings (200 for a one-character base) |
| BaseApi.RStrip | api/base_api.py:15 | the result is a prefix of the argument that does not end in '/', and only '/' follows it |
| BaseApi.RStripFixedPoint | api/base_api.py:15 | a base URL without a trailing '/' is kept unchanged, and stripping is idempotent |
| BaseApi.RStripUnique | api/base_api.py:15 | the prefix with no trailing '/' followed only by '/' is unique, so it is the stripped URL |
| BaseApi.LStrip | api/base_api.py:36 | the result is a suffix of the endpoint that does not begin with '/', and only '/' precedes it |
| BaseApi.JoinUrl | api/base_api.py:36 | the URL is the base URL, one '/', then the suffix of the endpoint left after removing only its leading '/' (the removed part is all '/', the rest does not begin with '/') |
| BaseApi.OneSlashAtSeam | api/base_api.py:15-36 | a base URL stripped by `__init__`, joined with any endpoint, has exactly one '/' where base and endpoint meet |
| BaseApi.JoinUrlIgnoresLeadingSlashes | api/base_api.py:36 | any number of leading '/' on the endpoint gives the same URL ("posts", "/posts", "//posts") |
| BaseApi.JoinUrlInjective | api/base_api.py:36 | two endpoints give the same URL exactly when they agree after their leading '/' are removed |
| BaseApi.WithHeader | api/base_api.py:28 | writing a header keeps the store keyed by lower-cased names |
| BaseApi.Lookup | api/base_api.py:20-32 | in a well-keyed store a header is found exactly when one is stored under a name equal to the asked name up to case, and its value is returned |
| BaseApi.WithHeaderThenLookup | api/base_api.py:32 | after writing, the name in any letter case maps to the new value, and every other name maps to what it did before |
| BaseApi.DefaultHeaders | api/base_api.py:20-24 | the update keeps the store keyed by lower-cased names and adds exactly content-type, accept and user-agent to the session's keys |
| BaseApi.DefaultHeadersPresent | api/base_api.py:20-24 | after construction Content-Type and Accept are application/json and User-Agent is Playwright-API-Tests/1.0; other session headers are kept |
| BaseApi.Client.constructor | api/base_api.py:13-24 | base_url is the argument with its trailing '/' removed, timeout is stored, and the headers are the session's with the three defaults written over them |
| BaseApi.Client.WithDefaultTimeout | api/base_api.py:13-24 | with `timeout` at its default, the client stores 30, the stripped base URL and the default headers |
| BaseApi.Client.UrlFor | api/base_api.py:36 | on a valid client the URL has a single '/' between the base URL and the endpoint |
| BaseApi.Client.SetAuthToken | api/base_api.py:26-28 | Authorization becomes "Bearer " + token; nothing else changes |
| BaseApi.Client.SetHeader | api/base_api.py:30-32 | the key maps to the value; headers under other lower-cased names, base_url and timeout are unchanged |
| BaseApi.Client.Get | api/base_api.py:34-39 | GET to `base_url + "/" + endpoint.lstrip('/')` with the client's timeout; the URL has a single '/' between base and endpoint |
| BaseApi.Client.Post | api/base_api.py:43-48 | POST to the URL given by the same rule, with the client's timeout; the URL has a single '/' between base and endpoint |
| BaseApi.Client.Put | api/base_api.py:52-57 | PUT to the URL given by the same rule, with the client's timeout; the URL has a single '/' between base and endpoint |
| BaseApi.Client.Patch | api/base_api.py:61-66 | PATCH to the URL given by the same rule, with the client's timeout; the URL has a single '/' between base and endpoint |
| BaseApi.Client.Delete | api/base_api.py:70-75 | DELETE to the URL given by the same rule, with the client's timeout; the URL has a single '/' between base and endpoint |

## Left out

- Text.LowerChar: models Python's `str.lower()` only as far as ASCII letters
  and KELVIN SIGN (which lowers to ASCII 'k'). Other characters are kept, so
  the model keeps the string's length. Full Unicode case mapping is not
  modelled. Other non-ASCII letters lower to non-ASCII letters, so they cannot
  change which ASCII keyword matches. U+0130 lowers to "i" followed by U+0307
  (a combining dot), so that "i" could only be the last character of a
  keyword match, and no sensitive keyword ends in "i". For header names,
  non-ASCII names that differ only in case are treated as different.
- SecurityPayloads.GetCriticalPayloads: a Dafny `map` has no order, so the
  insertion order sql, xss, command, ldap of the returned dict is not kept.
- The freshness of the accessors' lists: Dafny sequences are values, so the
  class constants cannot be changed through a returned list.
- The random number generator itself: its outputs are the `Draw` inputs, and
  their distribution (uniform) is not modelled.
- `SecurityTestHelpers.measure_response_time`: it reads the wall clock.
- `SecurityTestHelpers.check_for_xss_execution`: it calls into the browser.
- The HTTP send and receive of each verb method, the `params`/`data`/`json`
  arguments passed through to `requests`, logging, `assert_status_code`,
  `assert_response_contains`, `get_json_value` and `close`. These are all
  network I/O or JSON decoding of remote responses.
- BaseApi.Client.constructor: the session's own starting headers come from
  `requests` and are a parameter here. The model does not fix their content.
- Python strings may hold lone surrogate code points, but a Dafny `char` cannot.
- The page objects, the test files, `api/jsonplaceholder_api.py`,
  `run_tests.py`, `conftest.py` and `config/settings.py` are not part of this
  model. They drive a browser, the network, the file system or environment
  variables.
