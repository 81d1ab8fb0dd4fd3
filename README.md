# automation-exercise, modelled in Dafny

The project is a Playwright and pytest test framework for a web shop. Most of it glues libraries
together. What has behaviour of its own is modelled here, with one module per source file:

- **LocatorStrategy** (`core/locator_strategy.py`): the multi-locator fallback. `find_element` tries
  `(type, value)` candidates in order and skips those with an empty value or an unknown type. It returns
  the first locator that becomes visible; otherwise it raises a numbered summary of every failed attempt.
  `type_text` and `is_visible` are built on it.
- **DataLoader** (`utils/data_loader.py`): checks the file suffix, turns a parsed YAML/JSON document,
  or CSV rows, into a non-empty list of test cases, and wraps foreign errors.
- **Config** (`config/config_loader.py`): `ConfigLoader` keeps a name-to-document cache. It offers
  dotted-path lookup with a default, browser-profile lookup, and conversion of the legacy profile
  map into a browser matrix.
- **Driver** (`core/driver_factory.py`): `DriverFactory` maps a browser name to an engine, builds the
  launch and context option maps, converts timeouts to milliseconds, and creates the browser with a
  bounded retry loop that cleans up the four Playwright handles after each failure.
- **Reporting** (`reporting/manager.py`): `ReportingManager`, an init-once registry of the active
  reporter, with reset and guarded access.
- **SearchPage** (`pages/search_page.py`): `get_products_under_price` walks result pages and cards.
  It collects up to `limit` distinct links whose price qualifies, and stops on a page URL seen before.
- **FailureCapture** (`core/conftest.py`): sanitising the test name into a screenshot file name,
  reading the `browser` and `remote` markers, and the gate that takes a screenshot only for a failed test.

Three shared modules support these: `Wrappers` (Option, Result), `Text` (the `str` methods the code uses)
and `Values`. `Values` holds the JSON/YAML-like value type, with dictionaries as ordered association
lists so that Python's insertion order is kept. It also holds the Python exceptions and the
`in` / `[]` / `.get` / truthiness rules.

Everything the code hands to a library is a parameter of the model:
- the page, through a visibility oracle for locators, the result pages of a search, and Playwright's answers to each step of a driver attempt
- the disk, as a map from path to text
- the parsers, as functions from text to a parsed value or an error
- `float()` on a price, as a predicate

## Model

| member | source | states |
|---|---|---|
| LocatorStrategy.FindElement | core/locator_strategy.py:31-116 | Raises ValueError for an empty list. Otherwise returns the locator of the first entry, in list order, that is tried and becomes visible. When none does, raises the stripped summary of all attempts. Its trace of tried entries is exactly the candidates up to the success. |
| LocatorStrategy.BuildSummary | core/locator_strategy.py:111-116 | The `+=` loop yields the header followed by one "  k. error" line per error, numbered from 1 in order. |
| LocatorStrategy.FirstSuccess | core/locator_strategy.py:63-99 | A found index is in range, and that entry is tried and becomes visible. |
| LocatorStrategy.FirstSuccessIsFirst | core/locator_strategy.py:63-99 | The chosen entry succeeds and no earlier entry succeeds; when nothing is chosen, no entry succeeds. |
| LocatorStrategy.FirstSuccessOfPrefix | core/locator_strategy.py:95-99 | A success found among the first n entries is the overall first success, so no later entry is ever consulted. |
| LocatorStrategy.CandidatesAreTried | core/locator_strategy.py:63-90 | An entry is tried exactly when its value is non-empty and its lower-cased type is xpath, css, id, text or role; tried entries go in increasing order. |
| LocatorStrategy.ErrorCount | core/locator_strategy.py:101-108 | When nothing succeeds, the number of error lines equals the number of tried entries, which is at most the list length. |
| LocatorStrategy.SkippedEntryInvisible | core/locator_strategy.py:63-90 | An entry that is skipped, at any position in the list, changes neither the locator found, nor the error lines, nor the number of entries tried. |
| LocatorStrategy.SkippedEntriesIgnored | core/locator_strategy.py:58-90 | Inserting a skipped entry anywhere in a non-empty list changes neither whether the search succeeds nor the locator it returns. An empty list raises ValueError "<name>: No locators provided" for every name. |
| LocatorStrategy.FoundSnoc | core/locator_strategy.py:63-99 | Appending an entry keeps an earlier success; otherwise the new entry decides. |
| LocatorStrategy.FoundSpec | core/locator_strategy.py:58-116 | On a non-empty list the search succeeds exactly when some entry succeeds, and it returns that entry's locator. |
| LocatorStrategy.SummaryStartsWithCount | core/locator_strategy.py:111-116 | When every candidate fails, the message starts "name: All N locator(s) failed:", where N is the full list length including skipped entries. This holds for a name that does not begin with white space, since `strip()` would remove it. |
| LocatorStrategy.SummaryPrefix | core/locator_strategy.py:111-116 | `strip()` keeps the header of the summary intact. |
| LocatorStrategy.SelectorConstruction | core/locator_strategy.py:64-90 | For every type string and every non-empty value: a type that lower-cases to `id` gives "#"+value, `xpath` gives "xpath="+value, `css` the value unchanged, and `text` and `role` the text and role queries. The upper-cased spelling of a type is tried exactly when the original is, and gives the same locator. |
| LocatorStrategy.IsVisible | core/locator_strategy.py:191-210 | True exactly when the search finds a locator and that element is visible; a failed search gives False, never an exception. |
| LocatorStrategy.TypeText | core/locator_strategy.py:139-166 | Propagates the search's error. Otherwise it fills the found element, preceded by a clear of the same element when `clear_first` is set. |
| DataLoader.WrapError | utils/data_loader.py:98-104 | A DataLoaderError passes through unchanged; any other error becomes a DataLoaderError "Error loading <suffix> file <name>: <text>". |
| DataLoader.Load | utils/data_loader.py:45-123 | Every failure is a DataLoaderError. A success is a non-empty list, for an existing file whose lower-cased suffix is supported. |
| DataLoader.LoadTestData | utils/data_loader.py:255-293 | An absolute or existing path is loaded as given. A relative path that does not exist is loaded from the project root. The result is non-empty or a DataLoaderError. |
| DataLoader.UnsupportedFormatRefused | utils/data_loader.py:82-88 | A lower-cased suffix outside .yaml/.yml/.json/.csv raises DataLoaderError naming it. |
| DataLoader.RootListIsFirstQualifying | utils/data_loader.py:156-160 | The root-key search returns the list under the first key, in order, that holds a list; absent keys and non-list values are passed over. |
| DataLoader.MappingWithoutRootKey | utils/data_loader.py:162-167 | A mapping with no root key holding a list becomes the one-case list `[content]`, in YAML and in JSON. |
| DataLoader.RootKeyOrder | utils/data_loader.py:156-160 | `tests` wins over `data`, whatever the dictionary order; a `tests` entry that is not a list is passed over. |
| DataLoader.YamlJsonAgree | utils/data_loader.py:144-218 | Apart from a null YAML document, both normalisers accept and return the same; a parsed list is returned unchanged. |
| DataLoader.ScalarDocumentsRefused | utils/data_loader.py:169-172 | A document that is neither list nor mapping raises DataLoaderError in both normalisers. |
| DataLoader.EmptyDatasetRefused | utils/data_loader.py:106-110 | A well-formed YAML or JSON file whose dataset is empty (an empty list, or `tests: []` under the first root key holding a list) raises DataLoaderError "Empty dataset in <name>". |
| DataLoader.CsvChecks | utils/data_loader.py:240-252 | No header row raises DataLoaderError, and so do headers without rows; otherwise the rows are returned. |
| Config.ReadYamlFile | config/config_loader.py:42-72 | A missing file raises FileNotFoundError. An empty (null) document reads as `{}`, any other document comes back as parsed, and a parse error is re-raised. A loaded document is never None. |
| Config.ConfigLoader.LoadConfig | config/config_loader.py:74-98 | A cache hit returns the cached document and leaves the cache as it was. A miss reads the file and stores the document under that name. |
| Config.CacheHitIgnoresDisk | config/config_loader.py:86-98 | Once cached, a document is returned whatever the disk holds later, and loading one name never disturbs the others. |
| Config.ConfigLoader.Resolve | config/config_loader.py:124-145 | The dotted loop returns the value nested under each segment in turn, or the default as soon as a segment is missing or the value is not a mapping. A plain key gives the top-level value or the default. |
| Config.ConfigLoader.Get | config/config_loader.py:100-152 | Returns that lookup on the loaded document; any failure to load yields the default. |
| Config.DescendConcat | config/config_loader.py:127-135 | Walking a path is walking its first part, then the rest from where that stopped. |
| Config.DottedLookupStops | config/config_loader.py:127-135 | A missing segment, or a non-mapping reached before the last segment, gives the default whatever follows. |
| Config.DottedLookupPeels | config/config_loader.py:124-136 | A dotted key `a.rest` looks up `rest` in the value under `a`, and gives the default when `a` is missing; applied segment by segment, a dotted key finds the value nested under each segment in turn. |
| Config.DottedLookupFinds | config/config_loader.py:124-136 | "a.b" yields the value under `b` inside the mapping under `a`. |
| Config.ConfigLoader.ReloadConfig | config/config_loader.py:166-180 | Reloading forgets only that name and reads it again; every other cache entry is unchanged. |
| Config.ConfigLoader.ClearCache | config/config_loader.py:182-185 | The cache is empty afterwards. |
| Config.BrowserProfile | config/config_loader.py:202-220 | Returns the profile stored under the name in `browsers`. A missing `browsers` key raises ValueError. |
| Config.BrowserProfileLookup | config/config_loader.py:206-220 | Wherever `browsers` sits among the document's keys: a present profile is returned as stored, and an absent one raises ValueError naming it and listing the available profiles in order. A document without `browsers` raises ValueError "Invalid browsers configuration structure". |
| Config.ConfigLoader.GetBrowserConfig | config/config_loader.py:187-220 | Loads browsers.yaml through the cache, then does the profile lookup; a load failure is raised. |
| Config.ConfigLoader.GetDefaultBrowser | config/config_loader.py:222-229 | `default_browser` from browsers.yaml, "chrome_127" when it is absent or the file cannot be loaded. |
| Config.BrowserMatrix | config/config_loader.py:231-264 | A present `matrix` must be a non-empty list (otherwise ValueError) and is returned as-is. Without one, the legacy conversion is used. |
| Config.ConfigLoader.GetBrowserMatrix | config/config_loader.py:231-264 | Loads browsers.yaml through the cache, then returns the matrix, or the legacy conversion when there is none. |
| Config.ConfigLoader.LegacyBrowserMatrix | config/config_loader.py:266-301 | The append loop builds exactly the legacy conversion. |
| Config.LegacyEntryNonMapping | config/config_loader.py:292-296 | `dict.update` on a profile that is not a mapping: an empty string or list leaves only the name, a null, boolean or number raises TypeError "not iterable", and a list of `[key, value]` pairs assigns each pair in turn. |
| Config.LegacyEntryString | config/config_loader.py:292-296 | A non-empty string profile raises ValueError "dictionary update sequence element #0 has length 1; 2 is required". |
| Config.LegacyEntriesShape | config/config_loader.py:292-301 | For profiles that are mappings: one entry per profile, in dictionary order. `name` is the profile's own `name` field if it has one, else its key; all other fields are the profile's. |
| Config.LegacyMatrixNeedsProfiles | config/config_loader.py:279-289 | Without `matrix`, wherever the keys sit: a missing `browsers` section raises ValueError "missing both 'matrix' and 'browsers'", and one that is not a mapping or is empty raises ValueError "Invalid legacy browsers configuration". |
| Config.ErrorPersists | config/config_loader.py:292-296 | A profile that fails to convert makes the whole conversion fail with its error. |
| Values.GetUpdate | config/config_loader.py:294-295 | After `dict.update`, a key of the update holds its last assigned value; other keys are untouched. |
| Driver.EngineMapping | core/driver_factory.py:74-96 | For every string name and any other profile fields: the name and its upper-cased spelling map alike. A name that lower-cases to chromium, chrome, msedge or edge gives chromium, firefox gives firefox, webkit or safari gives webkit, and any other name gives chromium. A missing `browserName` gives chromium, and a non-string one raises. |
| Driver.LaunchOptionsGet | core/driver_factory.py:98-132 | The value each option key holds, and None for every key that is not set. |
| Driver.LaunchOptionsKeys | core/driver_factory.py:98-132 | `headless` comes from the profile, else the framework configuration, else False. `args` appears exactly when non-empty, with the profile's value. `slow_mo` appears exactly when `slow_motion` is positive, with that value. `channel` appears exactly for chrome/msedge/edge on the chromium engine, with edge launched as msedge. No other key is present. |
| Driver.ContextOptionsGet | core/driver_factory.py:134-180 | The value each context option key holds, and None for every key that is not set. |
| Driver.ContextOptionsKeys | core/driver_factory.py:134-180 | The viewport comes from the profile with per-field defaults 1920/1080, else from framework `browser_width`/`browser_height` with the same defaults. `locale` defaults to "en-US" and `accept_downloads` is always True. `user_agent`, `timezone_id` and `permissions` appear exactly when set, each with the framework's value. No other key is present. |
| Driver.TimeoutDefaults | core/driver_factory.py:254-277 | Without a page nothing is set. Timeouts are seconds times 1000, 10 s and 30 s by default. |
| Driver.DriverFactory.ApplyTimeouts | core/driver_factory.py:254-277 | The setter calls made are exactly the timeout conversion for the current page. |
| Driver.CleanupProperties | core/driver_factory.py:339-355 | Cleanup only forgets handles. When no close fails, all four handles are None. Running it twice leaves the same state as once. |
| Driver.DriverFactory.QuitDriver | core/driver_factory.py:357-369 | The same cleanup as `_cleanup`; the timeouts and the log are unchanged. |
| Driver.DriverFactory.Cleanup | core/driver_factory.py:339-355 | Closes page, context, browser and Playwright in that order, forgetting each; a failing close stops it with the rest untouched. |
| Driver.AttemptObtainsInOrder | core/driver_factory.py:182-224 | Handles are obtained in order: Playwright, browser, context, page. A page is obtained exactly when the attempt succeeds, and it is the result. A successful attempt replaces all four stored handles. |
| Driver.DriverFactory.CreateLocalDriver | core/driver_factory.py:182-224 | Each step stores its handle. On success the page is the result and the timeouts are applied. On failure the partial handles are cleaned up and the step's error is raised. |
| Driver.DriverFactory.TryAttempt | core/driver_factory.py:309-313 | The attempt's outcome is the remote refusal in remote mode and the local creation otherwise; remote mode touches no handle. |
| Driver.DriverFactory.Sleep | core/driver_factory.py:302-307 | Logs the sleep, and raises ValueError for a negative delay and TypeError for one that is not a number; the handles are unchanged. |
| Driver.DriverFactory.Pass | core/driver_factory.py:301-333 | One pass of the `try` block: a retry sleeps first, and a refused sleep fails the pass before any attempt. A failed pass is cleaned up and ends with the handles of one more failed pass. A successful pass is the first success. |
| Driver.DriverFactory.RetryLoop | core/driver_factory.py:300-337 | The loop stops at its first successful pass, or after the last pass with every pass failed; a negative count raises "Driver creation failed" without a pass. |
| Driver.DriverFactory.GetDriver | core/driver_factory.py:279-337 | A retry count that is not a number raises, and a negative one raises "Driver creation failed", both with nothing changed. Otherwise it makes at most retries+1 passes, with the log of exactly those passes. It returns the page of the first successful pass, with timeouts applied and the handles that pass left. When every pass fails, it raises the last pass's error, and the handles are what the failed passes and their cleanups leave. |
| Driver.RetryLogShape | core/driver_factory.py:300-307 | With a delay `time.sleep` accepts, n passes log n attempt starts in order and exactly n-1 sleeps, each directly before a retry. With a delay it refuses, only the first attempt is made and each retry logs only its sleep. |
| Driver.LogAfterAppends | core/driver_factory.py:300-307 | Logging pass by pass appends exactly the log of those passes. |
| Driver.DriverFactory.FirstSuccessIsFirst | core/driver_factory.py:300-318 | A pass found is below the bound and succeeds, and every earlier pass fails. |
| Driver.DriverFactory.FirstSuccessNone | core/driver_factory.py:300-333 | When no pass is found, every pass below the bound fails. |
| Driver.DriverFactory.FirstSuccessStable | core/driver_factory.py:300-318 | Once a pass has succeeded, allowing more passes changes nothing. |
| Driver.DriverFactory.StopsAtFirstSuccess | core/driver_factory.py:300-333 | A loop that returns at the first success, or gives up after the last pass, stops at the first pass that succeeds. |
| Driver.HandlesAfterAllClosed | core/driver_factory.py:319-355 | When every close succeeds, nothing is left after failed passes, and a later successful pass holds only its own handles. |
| Driver.RemoteAlwaysFails | core/driver_factory.py:226-252 | In remote mode every attempt raises NotImplementedError, so no page is ever returned. |
| Reporting.ReportingManager.Init | reporting/manager.py:31-68 | A no-op when already initialised. Otherwise the lower-cased type is recorded: "allure" in any case initialises, any other type raises ValueError and leaves the instance None. |
| Reporting.InitIgnoresCase | reporting/manager.py:48-68 | Two managers in the same state, initialised with a type and with its upper-cased spelling, end in the same state, and either both succeed or both raise. |
| Reporting.ReportingManager.Reporter | reporting/manager.py:70-90 | Raises RuntimeError exactly when not initialised; otherwise returns the instance. |
| Reporting.ReportingManager.Reset | reporting/manager.py:92-102 | Both the instance and the type are None afterwards. |
| Reporting.ReportingManager.IsInitialized | reporting/manager.py:104-112 | True exactly when an instance is held. |
| Reporting.ReportingManager.LogInfo | reporting/manager.py:114-128 | Forwards the message to the reporter exactly when initialised, and never raises. |
| Reporting.ReportingManager.AttachRemoteCapabilities | reporting/manager.py:130-144 | Attaches the serialised capabilities as "Remote Capabilities" exactly when initialised, and never raises. |
| Reporting.ResetThenRefused | reporting/manager.py:55-101 | After a reset, an unsupported type leaves the manager uninitialised with the type recorded, and the reporter is refused. |
| SearchPage.GetProductsUnderPrice | pages/search_page.py:82-133 | The `while` loop over pages and the `for` loop over cards compute exactly the page walk `Collect` from the start page. |
| SearchPage.CollectProperties | pages/search_page.py:82-133 | At most `limit` links, none when `limit <= 0`, and no duplicates. Links found earlier come first, and each new link is a qualifying link of a page the walk scanned. When the walk ends below the limit, every qualifying link of every page it scanned is collected. Order and choice at the limit are stated by `CollectInOrder`. |
| SearchPage.ScanCardsProperties | pages/search_page.py:89-116 | The card loop only appends, stays within the limit, adds no duplicate, and adds only qualifying links of the cards scanned. When it ends below the limit, every qualifying link of those cards is present. Order and choice at the limit are stated by `ScanCardsInOrder`. |
| SearchPage.ScanCardsInOrder | pages/search_page.py:89-116 | The card loop's result is the starting links followed by the new qualifying links in card order, each kept once, cut at `limit`: at the limit the loop keeps the earliest links. |
| SearchPage.DedupConcat | pages/search_page.py:113-114 | Skipping links already collected over two runs of cards is the same as over their concatenation, so page after page the walk keeps first occurrences. |
| SearchPage.CollectInOrder | pages/search_page.py:82-133 | The page walk's result is the starting links followed by the new qualifying links in walk order (page by page, card by card), each kept once, cut at `limit`. At the limit the walk keeps the earliest links it met. |
| SearchPage.NextButtonStops | pages/search_page.py:120-132 | Below the limit, on a page with a grid, a missing, disabled or hidden next button ends the walk with exactly that page's card loop result. |
| SearchPage.ScanOnePage | pages/search_page.py:89-116 | On one page, the new links qualify on that page, and below the limit all of its qualifying links are kept. |
| SearchPage.ScanCardsSaturated | pages/search_page.py:90-91 | Once the limit is reached, the remaining cards change nothing, so the loop's `break` is safe. |
| SearchPage.NonPositiveLimit | pages/search_page.py:85 | A limit of 0 or less returns no links at once. |
| SearchPage.RevisitStops | pages/search_page.py:120-125 | On a page whose URL was seen before, its cards are scanned and the walk ends there. |
| SearchPage.Remove | pages/search_page.py:98 | `replace(c, '')` leaves no `c` and adds no character. |
| SearchPage.PriceDigitsAlphabet | pages/search_page.py:105 | The filtered price holds only digits and '.', each taken from the input. |
| SearchPage.PriceDigitsKeepsPriceText | pages/search_page.py:105 | A text of digits and '.' passes the filter unchanged. |
| SearchPage.PriceDigitsIdempotent | pages/search_page.py:105 | Filtering twice is filtering once. |
| FailureCapture.SafeChar | core/conftest.py:183-186 | The result is always a safe character, and equals the input exactly when the input is safe. |
| FailureCapture.SafeNameProperties | core/conftest.py:183-186 | Same length as the test name. Letters, digits, '-' and '_' are kept in place and anything else becomes '_'. Only safe characters remain, sanitising is idempotent, and a name is unchanged exactly when it is already safe. |
| FailureCapture.ScreenshotFileNameShape | core/conftest.py:188 | The name is `safe_name + "_" + timestamp + ".png"`; with a safe timestamp it holds no '/'. |
| FailureCapture.MarkerSelection | core/conftest.py:150-155 | The `browser` marker picks the profile exactly when its first argument is truthy. A missing marker, a marker without arguments or an empty name falls back to the default browser. |
| FailureCapture.RemoteMarkerNeverYieldsPage | core/conftest.py:158-160 | A test marked `remote` gets a factory on which no pass of `get_driver` succeeds; an unmarked test gets local attempts. |
| FailureCapture.FailureGate | core/conftest.py:163-200 | A screenshot is taken exactly when a call-phase report exists, has failed, and a page exists. An attachment only follows it, under the same path, as "failure_<name>". |
| Text.SplitJoin | config/config_loader.py:125 | `key.split('.')` loses nothing: joining the pieces gives the key back, and no piece contains '.'. |

## Left out

- Playwright itself (locating, waiting, clearing, filling, clicking, screenshots, launching, closing) is foreign. The model receives its answers as oracle parameters.
- `LocatorUtility.click_element` and `get_text` are the same fallback followed by one page call. They are not modelled separately.
- A locator dictionary whose `type` or `value` is present but not a string is not modelled; in the model both are optional strings. In the source a non-string `type` raises AttributeError from `.lower()` before the `try` block. A non-string `value` is only truth-tested: a falsy one is skipped like an empty string, and any other one reaches the `try` block and is formatted into the selector.
- LocatorStrategy.FindElement: Playwright's answer to a locator is a function of the locator alone, so two entries that build the same locator (`css` "#a" and `id` "a") get the same outcome. In the source each entry is a separate wait against a live page, whose answer may change between waits.
- The per-call `timeout` of the locator utility only reaches Playwright, so it is not modelled.
- YAML, JSON and CSV parsing, and file existence, opening and reading, are foreign. Files are a map from path to text, and parsers are functions from text to a value or an error.
- Paths are plain strings: there is no `pathlib` normalisation, `Path.absolute()` in messages is the path as given, and `project_root / path` is joining with '/'.
- White space (`isspace`, `strip`) is Python's full set, including \x1c-\x1f and the Unicode separators. Letters, digits and case mapping (`isalnum`, `isdigit`, `lower`, `upper`) are the ASCII ones; Python's Unicode letter and case tables are not modelled.
- Floating point is not modelled. `float()` of a price and the comparison with `max_price` are the `priceOk` parameter. A float `slow_motion` or timeout is not modelled either (integers and booleans are).
- Dictionary keys are strings. `dict.update` with a mapping, a list of pairs or a string is modelled.
- Config.PairOf: a pair whose key is a number, a boolean or null raises TypeError in the model. Python would store it under that non-string key.
- Config.ConfigLoader: the cache holds values, so a document returned by `load_config`, `get_browser_config` or `get_browser_matrix` is a copy. In the source it is the cached object itself, so a caller that mutated it would change later results; no caller in the core does.
- DataLoader.UnsupportedFormatRefused: the message renders the supported formats in the order `{'.yaml', '.yml', '.json', '.csv'}`. The source formats a Python set of strings, whose order varies between runs with hash randomisation.
- `ConfigLoader.get_all` and the module-level `get_config_loader` singleton are not modelled; the configuration directory is a constructor argument.
- `DriverFactory.__init__` loads its two configuration maps through `ConfigLoader`, which is modelled on its own. The factory takes both maps as constructor arguments, assumed to be mappings.
- `get_browser`, `get_context` and `get_page` are plain field reads, so they are not modelled.
- Loguru logging and the computed-but-only-logged element timeout are not modelled. `time.sleep` is recorded in `log` as an event, without waiting. Its errors are modelled: a negative delay raises ValueError, and a delay that is not a number raises TypeError inside the `try` block, so that pass fails before any driver is created.
- Driver.CleanupProperties: a close is a function of the handle alone, so a close that failed once fails again. The source cleans up twice after a failed local attempt (once in `_create_local_driver`, once in `get_driver`), and a real second close may succeed where the first failed. The idempotence and the final handles of Driver.DriverFactory.GetDriver rely on this.
- Driver.DriverFactory.GetDriver: the handles left after a failure are stated through `HandlesAfter`, under a close oracle that answers per handle (see the previous line).
- Driver.DriverFactory: the browser type and the launch and context options are computed once, in the constructor (`SettingsOf`), where the source computes them at each attempt. They depend only on configuration that never changes, so every attempt gets the same values either way.
- Driver.Millis: a string or list timeout multiplied by 1000 is treated as making the Playwright setter raise. The setter's own validation is not modelled.
- SearchPage.GetProductsUnderPrice: the message raised when the products grid is missing is the page's `gridFailure` text, not the locator summary. `product_links[:limit]` is the identity here, because the list never grows past `limit`.
- A next button whose target page is outside the list of pages is treated like a failed navigation, which ends the walk.
- Reporting.ReportingManager.Init: the ImportError of a missing Allure installation is the `allure` parameter's error, raised as a foreign exception. Reporter calls are returned as values; their own failures are swallowed in the source and are not modelled.
- The Allure reporter and the abstract reporter interface are library wrappers, so they are not modelled.
- FailureCapture: the timestamp, the run directory and whether `page.screenshot` succeeds are parameters. Creating the directory and the pytest hooks and fixtures are not modelled.
- Parallel execution under pytest-xdist is not modelled.
