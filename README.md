# log4jstats in Dafny

A Dafny model of the core of log4jstats, a Swing tool that reads log4j log files and turns them into event tables and statistics. The model covers the logic under the GUI, in these parts:

- **Line classification and configuration state.**
  - `LogLevels` gives the six severities and their tokens.
  - `SuperService` holds the state every service shares: the levels still shown, the application events configured as `name;value` pairs and kept in name order, and the date window bounded by `maxNumberOfDates`.
  - `SuperService` also classifies a line's level and quotes lists for SQL.
- **Reading the log files.**
  - `TableService` reads a file backwards one line at a time, one character per byte. It screens each line (level asked for, date window, shown levels, application event, keyword), numbers the lines that pass, and keeps those between `start` and `end`. It also renders the rows as CSV and HTML.
  - `StatisticsService` reads files front to back and counts events per date, per level, and per (date, level, application event). It also holds the comparator that orders the dates.
- **The SQLite side.**
  - The database is split into one file per month or per week of a year, `<base>__<period>_<year>`.
  - `SuperSQLService` maps a query window to the partition files.
  - `TableSQLService` and `StatisticsSQLService` build one query per partition, with a date condition on the first and the last partition only, and fold the returned rows. A row counter runs across all partitions.
  - Executing a query is a parameter, from a path and an SQL text to the rows it returns.
- **The ingestion tool.** `Sqlite4JavaTool` is a do-while loop over batches of table rows. It has three exits: no progress, a batch of fewer than two rows, or the window's end or cancellation.
  - Each row is written to the partition of its date, opening a new connection only when the path changes (ignoring case).
  - Tables are created on demand.
  - An inserted-row counter is kept.
  - The databases are modelled by the statements they accepted, in order.
- **Small utilities.**
  - `StatisticsUtils` extracts the `%d{...}` date pattern.
  - `ExportFilter` handles export extensions and options.
  - `DataTablePanel` holds the paging arithmetic of the events table.

Dates are milliseconds. The calendar fields of a date (month from 0, week of year, year), date parsing and formatting are supplied as parameters. Java `null` returns and thrown exceptions are `Option` and `Result` values. A `TreeMap<String, String>` is the list of its entries in key order (`SortedMap`). Where a Java class updates its fields in place, the model is a class with those fields and methods, each proved against a function of the old state.

`getRowCounter` of `TableSQLService` is the `rowCounter` field of `TableSQL`, whose final value `GetEventsData` states.

## Model

| member | source | states |
|---|---|---|
| LogLevels.Token | src/main/java/net/luisalbertogh/log4jstats/utils/LogLevels.java:15-31 | each constant's token is a word of at least four letters (its own name, see TokenRoundTrip) |
| LogLevels.TokenRoundTrip | src/main/java/net/luisalbertogh/log4jstats/utils/LogLevels.java:15-51 | getLevel returns the token given to the constructor, and reading a token back gives the constant it came from and only that one |
| LogLevels.TokensDistinct | src/main/java/net/luisalbertogh/log4jstats/utils/LogLevels.java:15-31 | two constants have the same token exactly when they are the same constant |
| LogLevels.AllTokens | src/main/java/net/luisalbertogh/log4jstats/utils/LogLevels.java:58-67 | getLogLevels holds the token of every level and nothing that is not a level's token |
| LogLevels.AllTokensCount | src/main/java/net/luisalbertogh/log4jstats/utils/LogLevels.java:58-67 | getLogLevels has exactly six elements |
| StatisticsUtils.GetDatePattern | src/main/java/net/luisalbertogh/log4jstats/utils/StatisticsUtils.java:44-66 | a null pattern gives ""; a pattern without `%d{`, or with no `}` after its first `%d{`, gives the default `yyyy-MM-dd HH:mm:ss,sss` |
| StatisticsUtils.DatePatternEnclosed | src/main/java/net/luisalbertogh/log4jstats/utils/StatisticsUtils.java:52-60 | the intended result r is what the first `%d{` and the first `}` after it enclose: the pattern reads `%d{` r `}` there and r holds no `}` |
| StatisticsUtils.AtStartAsIntended | src/main/java/net/luisalbertogh/log4jstats/utils/StatisticsUtils.java:52-60 | when `%d{` opens the pattern, the code as written returns the text strictly between the braces |
| StatisticsUtils.PrefixIndices | src/main/java/net/luisalbertogh/log4jstats/utils/StatisticsUtils.java:52-56 | in `p%d{x}q` the opening is found at index abs(p) and the `}` at index 3 + abs(x) of the text from the opening on, a relative index |
| StatisticsUtils.PrefixShiftsEnd | src/main/java/net/luisalbertogh/log4jstats/utils/StatisticsUtils.java:52-60 | with text p before `%d{x}`, the code as written returns x less its last abs(p) characters, or throws when p is longer than x, while the intended result is x |
| StatisticsUtils.ShiftedPatternTruncated | src/main/java/net/luisalbertogh/log4jstats/utils/StatisticsUtils.java:55-60 | on `%p %d{HH:mm} %m` the code as written returns `HH` where `HH:mm` is meant |
| StatisticsUtils.LateOpeningThrows | src/main/java/net/luisalbertogh/log4jstats/utils/StatisticsUtils.java:55-60 | on `%c - %d{HH}` the code as written throws where `HH` is meant |
| ExportFilter.LastIndexOf | src/main/java/net/luisalbertogh/log4jstats/utils/ExportFilter.java:76 | lastIndexOf returns -1 or an index holding the character, with no later occurrence |
| ExportFilter.GetExtension | src/main/java/net/luisalbertogh/log4jstats/utils/ExportFilter.java:73-81 | the extension is null exactly for a null file |
| ExportFilter.GetExtensionSpec | src/main/java/net/luisalbertogh/log4jstats/utils/ExportFilter.java:73-81 | the extension holds no dot, is the lower-cased end of the name, and is preceded by a dot unless it is the whole name |
| ExportFilter.ExtensionOfJoined | src/main/java/net/luisalbertogh/log4jstats/utils/ExportFilter.java:73-81 | the name base.ext has ext, lower-cased, as its extension |
| ExportFilter.IsValidExtension | src/main/java/net/luisalbertogh/log4jstats/utils/ExportFilter.java:111-120 | true exactly when some extension constant equals the option ignoring case |
| ExportFilter.ValidExtensionIff | src/main/java/net/luisalbertogh/log4jstats/utils/ExportFilter.java:111-120 | an option is valid exactly when it is csv or html ignoring case |
| ExportFilter.AcceptSpec | src/main/java/net/luisalbertogh/log4jstats/utils/ExportFilter.java:50-65 | a file base.ext is accepted exactly when ext is csv or html ignoring case (directories are always accepted) |
| ExportFilter.GetExportOptions | src/main/java/net/luisalbertogh/log4jstats/utils/ExportFilter.java:89-103 | the options are the comma tokens in order with empty ones dropped; empty input gives no options |
| ExportFilter.NonEmptySnoc | src/main/java/net/luisalbertogh/log4jstats/utils/ExportFilter.java:92-96 | one more comma field read adds a token exactly when the field is non-empty, and the tokens read so far are unchanged |
| ExportFilter.ExportOptionsRoundTrip | src/main/java/net/luisalbertogh/log4jstats/utils/ExportFilter.java:89-103 | when no comma field is empty, joining the options with commas gives the input back |
| DataTablePanel.Target | src/main/java/net/luisalbertogh/log4jstats/panels/DataTablePanel.java:401-438 | every move but custom keeps a span of gap; forward starts after the old end, backward ends before the old start, fast forward starts 2(gap + 1) after the old start, fast backward ends 2(gap + 1) before the old end, init starts at 1, end ends at the row counter, custom is exactly the given pair, and an unknown subaction keeps the window |
| DataTablePanel.MovesAreInverse | src/main/java/net/luisalbertogh/log4jstats/panels/DataTablePanel.java:405-423 | on a window spanning gap, backward undoes forward and fast backward undoes fast forward, which moves the start by 2·gap + 2 |
| DataTablePanel.Pager.constructor | src/main/java/net/luisalbertogh/log4jstats/panels/DataTablePanel.java:425-428 | the panel starts on the window from 1 to 1 + gap |
| DataTablePanel.Pager.CalculateTableIndeces | src/main/java/net/luisalbertogh/log4jstats/panels/DataTablePanel.java:401-449 | answers true exactly when the computed start is not negative (0 is accepted) and then stores the computed window; otherwise keeps the old one |
| DataTablePanel.ComboTailSpec | src/main/java/net/luisalbertogh/log4jstats/panels/DataTablePanel.java:618-627 | from a start there are windows iff the start is below the total; each spans gap, each starts right after the previous end, and the last reaches row total - 1 |
| DataTablePanel.ComboWindowsSpec | src/main/java/net/luisalbertogh/log4jstats/panels/DataTablePanel.java:613-627 | the list always has a first window 1 - (1 + gap); each spans gap, follows the previous one, and the last reaches total - 1 unless only the first is there |
| DataTablePanel.ComboTailCoversRows | src/main/java/net/luisalbertogh/log4jstats/panels/DataTablePanel.java:618-627 | every row from the start to total - 1 lies in one of the windows offered from there |
| DataTablePanel.ComboCoversRows | src/main/java/net/luisalbertogh/log4jstats/panels/DataTablePanel.java:613-627 | every row from 1 to total - 1 lies in one of the offered windows |
| DataTablePanel.LabelsCons | src/main/java/net/luisalbertogh/log4jstats/panels/DataTablePanel.java:619 | the first window's text comes first |
| DataTablePanel.ComboTextsAreLabels | src/main/java/net/luisalbertogh/log4jstats/panels/DataTablePanel.java:618-627 | the texts the loop adds are the labels of the offered windows, in order |
| DataTablePanel.OfferFrom | src/main/java/net/luisalbertogh/log4jstats/panels/DataTablePanel.java:620-627 | the do-while loop and the last interval add exactly the texts of the windows from its start on |
| DataTablePanel.GetComboModel | src/main/java/net/luisalbertogh/log4jstats/panels/DataTablePanel.java:613-633 | the drop-down entries are `start - end` of each offered window, in order |
| DataTablePanel.DigitsHoldNoSeparator | src/main/java/net/luisalbertogh/log4jstats/panels/DataTablePanel.java:462-463 | a decimal number never contains " - ", so split finds the separator of a label |
| DataTablePanel.ParseLabelRoundTrip | src/main/java/net/luisalbertogh/log4jstats/panels/DataTablePanel.java:461-464 | splitting an entry on " - " and parsing both sides gives back the window it was made from |
| SuperService.Rank | src/main/java/net/luisalbertogh/log4jstats/services/SuperService.java:159-181 | the position of each level in the order getLevel tries them |
| SuperService.ClassifyLevel | src/main/java/net/luisalbertogh/log4jstats/services/SuperService.java:159-181 | getLevel returns a level whose token occurs in the line (case-sensitive) and no level tried before it occurs; INFO when no token occurs |
| SuperService.RemoveFirst | src/main/java/net/luisalbertogh/log4jstats/services/SuperService.java:363-365 | List.remove drops one occurrence of the level: the multiset of levels loses exactly that one |
| SuperService.AvailableIffListed | src/main/java/net/luisalbertogh/log4jstats/services/SuperService.java:273-282 | a level's token is available exactly when the level is in the list |
| SuperService.SkipMakesUnavailable | src/main/java/net/luisalbertogh/log4jstats/services/SuperService.java:273-282 | after setSkipLogLevels(l) on a list holding l at most once, isLogLevelAvailable(l) is false and every other level is as available as before |
| SuperService.PrecedenceListsEachOnce | src/main/java/net/luisalbertogh/log4jstats/services/SuperService.java:77-85 | initLogLevels lists every level exactly once, so each is available |
| SuperService.ParseAppEventSpec | src/main/java/net/luisalbertogh/log4jstats/services/SuperService.java:96-99 | a token gives a pair iff split(";") leaves a second part (a non-empty field after the first `;`); the pair is the first two fields, otherwise the code throws |
| SuperService.BuildAppEventsStep | src/main/java/net/luisalbertogh/log4jstats/services/SuperService.java:95-101 | one pass of the token loop: a token that throws ends the loop, else its pair is put and the loop goes on |
| SuperService.BuildAppEventsOk | src/main/java/net/luisalbertogh/log4jstats/services/SuperService.java:92-102 | the map stays in name order and the loop completes exactly when every token parses |
| SuperService.PairsMapLastWins | src/main/java/net/luisalbertogh/log4jstats/services/SuperService.java:100 | when a name is put several times, the value of its last token stays |
| SuperService.PairsMapKeys | src/main/java/net/luisalbertogh/log4jstats/services/SuperService.java:100 | the names in the map are exactly the names of the tokens |
| SuperService.PairsMapPrepend | src/main/java/net/luisalbertogh/log4jstats/services/SuperService.java:95-101 | putting one pair and then the rest is the pair's binding overridden by the rest |
| SuperService.BuildAppEventsSpec | src/main/java/net/luisalbertogh/log4jstats/services/SuperService.java:92-102 | a completed initAppEvents holds each configured name with the value of its last token, and nothing else |
| SuperService.MatchAppEvent | src/main/java/net/luisalbertogh/log4jstats/services/SuperService.java:290-304 | getAppEvent returns the first entry in name order whose value, lower-cased, occurs in the lower-cased line, and null only when no entry's value occurs |
| SuperService.AddAppEvent | src/main/java/net/luisalbertogh/log4jstats/services/SuperService.java:312-316 | addAppEvent adds the pair only when its name is absent and never overwrites an existing mapping |
| SuperService.KeyToRemove | src/main/java/net/luisalbertogh/log4jstats/services/SuperService.java:110-118 | when some entry matches (value equal ignoring case, or name equal) the key is the name of the first such entry in name order; when none does it is "" |
| SuperService.NoMatchRemovesEmptyName | src/main/java/net/luisalbertogh/log4jstats/services/SuperService.java:110-120 | when nothing matches, removeAppEvent removes the key "" and so drops an event configured with an empty name |
| SuperService.LevelTokens | src/main/java/net/luisalbertogh/log4jstats/services/SuperService.java:348-353 | the tokens of the listed levels, one per level, in list order |
| SuperService.Service.constructor | src/main/java/net/luisalbertogh/log4jstats/services/SuperService.java:65-72 | the default window ends one day after the clock and starts defaultNumberDates days before that |
| SuperService.Service.InitLogLevels | src/main/java/net/luisalbertogh/log4jstats/services/SuperService.java:77-85 | the shown levels become FATAL, ERROR, DEBUG, INFO, WARN, TRACE and nothing else changes |
| SuperService.Service.SetSkipLogLevels | src/main/java/net/luisalbertogh/log4jstats/services/SuperService.java:363-365 | removes the first occurrence of the level from the shown levels and changes nothing else |
| SuperService.Service.IsLogLevelAvailable | src/main/java/net/luisalbertogh/log4jstats/services/SuperService.java:273-282 | true exactly when some shown level has this token |
| SuperService.Service.InitAppEvents | src/main/java/net/luisalbertogh/log4jstats/services/SuperService.java:92-102 | the map is rebuilt from empty by the token loop, ok is false where a token throws, and the map stays in name order |
| SuperService.Service.RemoveAppEvent | src/main/java/net/luisalbertogh/log4jstats/services/SuperService.java:109-121 | removes exactly the key KeyToRemove picks, the first matching entry in name order (or "" when none matches); every other entry stays |
| SuperService.Service.SetDatesInterval | src/main/java/net/luisalbertogh/log4jstats/services/SuperService.java:131-151 | returns true iff the start plus maxNumberOfDates days is strictly after the end, and then stores both dates and calendars; otherwise nothing changes |
| SuperService.Service.GetAppEvent | src/main/java/net/luisalbertogh/log4jstats/services/SuperService.java:290-304 | the loop returns the entry MatchAppEvent describes |
| SuperService.Service.SkipLogLevelsCommaSeparated | src/main/java/net/luisalbertogh/log4jstats/services/SuperService.java:346-356 | the shown levels' tokens, each single-quoted, in list order, joined by commas |
| SuperService.Service.AppEventsListAsString | src/main/java/net/luisalbertogh/log4jstats/services/SuperService.java:399-410 | the configured names, each single-quoted, in name order, joined by commas |
| Strings.QuotedListFields | src/main/java/net/luisalbertogh/log4jstats/services/SuperService.java:346-356 | the quoted list is "" exactly for no items, and when no item holds a comma it splits at its commas back into the items, each single-quoted |
| SortedMap.PutSpec | src/main/java/net/luisalbertogh/log4jstats/services/SuperService.java:100 | TreeMap.put keeps the entries in name order and binds the name to the value |
| SortedMap.RemoveSpec | src/main/java/net/luisalbertogh/log4jstats/services/SuperService.java:120 | TreeMap.remove keeps the entries in name order and drops exactly that key |
| SortedMap.PutIfAbsentSpec | src/main/java/net/luisalbertogh/log4jstats/services/SuperService.java:313-315 | the pair is put only when the name is absent |
| SuperSQLService.PartitionPathShape | src/main/java/net/luisalbertogh/log4jstats/services/sqlite/SuperSQLService.java:64 | a partition file name starts with the base name and "__" and ends with the year |
| SuperSQLService.PartitionsSpec | src/main/java/net/luisalbertogh/log4jstats/services/sqlite/SuperSQLService.java:62-77 | from start to limit in one year: no path when start > limit, else limit - start + 1 paths with consecutive counters, all in the start calendar's year |
| SuperSQLService.GetDBFilepaths | src/main/java/net/luisalbertogh/log4jstats/services/sqlite/SuperSQLService.java:41-89 | on a window whose loop exits, the paths are the partitions from the start calendar's MONTH or WEEK_OF_YEAR to the end calendar's, in the start calendar's year (the end year is never read), each pass appending one path after the earlier ones |
| SuperSQLService.PartitionsAppend | src/main/java/net/luisalbertogh/log4jstats/services/sqlite/SuperSQLService.java:65-74 | appending one path to the collected list keeps the earlier paths and consumes the first pending partition |
| SuperSQLService.NeverExits | src/main/java/net/luisalbertogh/log4jstats/services/sqlite/SuperSQLService.java:62-85 | once the limit reaches the cap (WEEKS_IN_YEAR 52, MONTHS_IN_YEAR 12), after any number of passes the counter is still at most the limit, so the loop never exits |
| SuperSQLService.WeekFiftyTwoHangs | src/main/java/net/luisalbertogh/log4jstats/services/sqlite/SuperSQLService.java:62-85 | a WEEK window from week 50 to week 52 keeps the loop running for ever |
| SuperSQLService.CrossingYearIsEmpty | src/main/java/net/luisalbertogh/log4jstats/services/sqlite/SuperSQLService.java:47-62 | a MONTH window from December to January visits no partition at all |
| SuperSQLService.Span | src/main/java/net/luisalbertogh/log4jstats/services/sqlite/SuperSQLService.java:20-24 | a year has as many periods as its counter range holds, from the value a wrap restarts at to the last month or week |
| SuperSQLService.NextPeriod | src/main/java/net/luisalbertogh/log4jstats/services/sqlite/SuperSQLService.java:76-85 | the intended next period is a valid counter and exactly one further on in the order of periods across years |
| SuperSQLService.PeriodAfter | src/main/java/net/luisalbertogh/log4jstats/services/sqlite/SuperSQLService.java:76-85 | the period k steps on is a valid counter |
| SuperSQLService.PeriodAfterOrdinal | src/main/java/net/luisalbertogh/log4jstats/services/sqlite/SuperSQLService.java:76-85 | periods k steps apart are k apart across years, so the intended enumeration visits no period twice |
| SuperSQLService.WindowPartitionsLength | src/main/java/net/luisalbertogh/log4jstats/services/sqlite/SuperSQLService.java:41-89 | the intended enumeration has one path per period from the start to the end period, across years |
| SuperSQLService.WindowPartitionsAt | src/main/java/net/luisalbertogh/log4jstats/services/sqlite/SuperSQLService.java:64 | its k-th path is that of the period k steps after the start |
| SuperSQLService.WindowAgreesWithinYear | src/main/java/net/luisalbertogh/log4jstats/services/sqlite/SuperSQLService.java:62-77 | within one year the intended enumeration is what getDBFilepaths computes |
| SuperSQLService.WindowCrossingYear | src/main/java/net/luisalbertogh/log4jstats/services/sqlite/SuperSQLService.java:41-89 | the intended enumeration of December to January visits both months |
| SuperSQLService.GetWindowFilepaths | src/main/java/net/luisalbertogh/log4jstats/services/sqlite/SuperSQLService.java:41-89 | the corrected loop, run while the period has not passed the end calendar's (year included) and wrapping after the last month or week, returns exactly the intended enumeration from the start calendar's period and year to the end calendar's |
| SuperSQLService.WindowPartitionsAppend | src/main/java/net/luisalbertogh/log4jstats/services/sqlite/SuperSQLService.java:64-85 | each pass of the corrected loop appends the first pending partition and moves on to the next period |
| SuperSQLService.OrdinalInjective | src/main/java/net/luisalbertogh/log4jstats/services/sqlite/SuperSQLService.java:76-85 | two valid periods at the same place in the order across years are the same period of the same year |
| SuperSQLService.WindowPartitionsCover | src/main/java/net/luisalbertogh/log4jstats/services/sqlite/SuperSQLService.java:41-89 | every period between the window's first and last, across years, has its partition in the intended enumeration |
| SuperSQLService.DivisionName | src/main/java/net/luisalbertogh/sqlite4java/Sqlite4JavaTool.java:90-113 | a division's name is MONTH or WEEK |
| SuperSQLService.DivisionNamesDiffer | src/main/java/net/luisalbertogh/sqlite4java/Sqlite4JavaTool.java:90-113 | two divisions have the same name exactly when they are the same division |
| SuperSQLService.FanOutAdmits | src/main/java/net/luisalbertogh/log4jstats/services/sqlite/TableSQLService.java:103-115 | of a window's partitions, the first enforces the lower date bound, the last the upper, a single partition both, and the ones between no bound |
| SuperSQLService.DatePredicate | src/main/java/net/luisalbertogh/log4jstats/services/sqlite/TableSQLService.java:103-115 | a partition's date condition is empty exactly when it has no bound, and otherwise opens with WHERE |
| SuperSQLService.AddCondition | src/main/java/net/luisalbertogh/log4jstats/services/sqlite/TableSQLService.java:117-138 | after a condition is added the query has a WHERE |
| SuperSQLService.ConditionsChain | src/main/java/net/luisalbertogh/log4jstats/services/sqlite/TableSQLService.java:103-129 | on a base SELECT without WHERE, the first condition opens the WHERE exactly when the partition has no date condition, and every later condition is joined by AND |
| SuperSQLService.AddConditionJoins | src/main/java/net/luisalbertogh/log4jstats/services/sqlite/TableSQLService.java:118-119 | once the query has a WHERE, a further condition is joined by AND |
| SuperSQLService.FetchStep | src/main/java/net/luisalbertogh/log4jstats/services/sqlite/TableSQLService.java:99-175 | the rows of one more partition follow those of the earlier partitions, in partition order |
| SuperSQLService.Observed | src/main/java/net/luisalbertogh/log4jstats/services/sqlite/TableSQLService.java:150-154 | the events seen are kept in name order |
| SuperSQLService.ObservedSpec | src/main/java/net/luisalbertogh/log4jstats/services/sqlite/TableSQLService.java:150-154 | the events seen map exactly the events of the result rows, each to itself, the first sighting kept |
| TableSQLService.EventsQuery | src/main/java/net/luisalbertogh/log4jstats/services/sqlite/TableSQLService.java:98-138 | every partition's query carries a WHERE |
| TableSQLService.EventsQueryShape | src/main/java/net/luisalbertogh/log4jstats/services/sqlite/TableSQLService.java:98-138 | a partition's query is the base SELECT, its date condition, the shown levels (opening the WHERE only when there is no date condition), the configured events joined by AND, and the keyword search joined by AND only when a keyword is set |
| TableSQLService.InWindowSlice | src/main/java/net/luisalbertogh/log4jstats/services/sqlite/TableSQLService.java:161-167 | the rows kept are one contiguous run: rows numbered start to end counting from 1, cut to those that exist |
| TableSQLService.RowSnoc | src/main/java/net/luisalbertogh/log4jstats/services/sqlite/TableSQLService.java:143-167 | reading one more row keeps it exactly when its number is in the window, adds its level to the levels seen and its event to the events seen |
| TableSQLService.CsvLines | src/main/java/net/luisalbertogh/log4jstats/services/sqlite/TableSQLService.java:257-262 | one CSV record per row |
| TableSQLService.CsvBodyJoin | src/main/java/net/luisalbertogh/log4jstats/services/sqlite/TableSQLService.java:254-265 | the CSV body is the records joined by newlines, each record ended by one |
| TableSQLService.CsvLinesRoundTrip | src/main/java/net/luisalbertogh/log4jstats/services/sqlite/TableSQLService.java:249-266 | when no column holds a newline, splitting the CSV text at newlines gives back the header, one record per row in order, and the empty text after the last newline |
| TableSQLService.HtmlBodyAppend | src/main/java/net/luisalbertogh/log4jstats/services/sqlite/TableSQLService.java:283-290 | the HTML body of two row lists is the body of the first followed by that of the second |
| TableSQLService.HtmlBodyRowAt | src/main/java/net/luisalbertogh/log4jstats/services/sqlite/TableSQLService.java:283-290 | row k's table row stands in the body right after the table rows of the rows before it |
| TableSQLService.HtmlRowsInOrder | src/main/java/net/luisalbertogh/log4jstats/services/sqlite/TableSQLService.java:272-296 | in the whole page, row k's table row stands right after the table head and the rows before it |
| TableSQLService.PartitionQueries | src/main/java/net/luisalbertogh/log4jstats/services/sqlite/TableSQLService.java:95-99 | one query per partition of the window |
| TableSQLService.TableSQL.constructor | src/main/java/net/luisalbertogh/log4jstats/services/sqlite/TableSQLService.java:54-62 | the dates are set from the default number of days, maxNumberOfDates is stored, and the division is WEEK exactly when the argument is "WEEK", MONTH otherwise |
| TableSQLService.TableSQL.Queries | src/main/java/net/luisalbertogh/log4jstats/services/sqlite/TableSQLService.java:98-138 | the query of each partition is built from the window's formatted dates, the shown levels, the configured events and the keyword |
| TableSQLService.TableSQL.GetEventsData | src/main/java/net/luisalbertogh/log4jstats/services/sqlite/TableSQLService.java:76-185 | without both calendars the call fails; otherwise the result is the rows of all partitions of the window (every period from the start calendar's to the end calendar's, across years, as the corrected enumeration GetWindowFilepaths gives them; the code as written differs, see Left out), in partition order, numbered from 1 and kept when the number is in [start, end], the counter ends at one past the rows read, and the levels and events seen are exactly those of the rows read |
| TableSQLService.TableSQL.ReadPartitions | src/main/java/net/luisalbertogh/log4jstats/services/sqlite/TableSQLService.java:88-175 | the levels, events and counter start afresh, and then the same result and state as GetEventsData over the given paths |
| TableSQLService.TableSQL.BuildQuery | src/main/java/net/luisalbertogh/log4jstats/services/sqlite/TableSQLService.java:98-138 | the query text built for a partition is the one EventsQuery specifies |
| TableSQLService.TableSQL.ReadRows | src/main/java/net/luisalbertogh/log4jstats/services/sqlite/TableSQLService.java:143-168 | reading one partition's rows extends the kept rows, the counter, the levels and the events as if those rows had followed the earlier ones |
| TableSQLService.TableSQL.ReadRow | src/main/java/net/luisalbertogh/log4jstats/services/sqlite/TableSQLService.java:145-167 | reading one row does the same for that row |
| TableSQLService.TableSQL.SetKeyword | src/main/java/net/luisalbertogh/log4jstats/services/sqlite/TableSQLService.java:239-243 | a given keyword is stored trimmed and lower-cased; a missing one leaves the keyword unchanged; nothing else changes |
| TableSQLService.TableSQL.GetEventsCSV | src/main/java/net/luisalbertogh/log4jstats/services/sqlite/TableSQLService.java:249-266 | the CSV text is the header line then one record per row, which CsvLinesRoundTrip splits back |
| TableSQLService.TableSQL.GetEventsHTML | src/main/java/net/luisalbertogh/log4jstats/services/sqlite/TableSQLService.java:272-296 | the HTML text is the table head, one table row per row in order (HtmlRowsInOrder), then the closing tags |
| StatisticsSQLService.PerDateQueryShape | src/main/java/net/luisalbertogh/log4jstats/services/sqlite/StatisticsSQLService.java:92-134 | a partition's per-date query is the count SELECT, its date condition, the level condition (the given level, else every level shown), which opens the WHERE only when there is no date condition, the chart condition joined by AND exactly when charts are asked for, then GROUP BY date |
| StatisticsSQLService.PerDateQueries | src/main/java/net/luisalbertogh/log4jstats/services/sqlite/StatisticsSQLService.java:93-148 | one per-date query per partition of the window |
| StatisticsSQLService.AppEventsQueryShape | src/main/java/net/luisalbertogh/log4jstats/services/sqlite/StatisticsSQLService.java:237-280 | a partition's table query is the grouped SELECT, its date condition, the shown levels, the event filter only when one is given, always the chart condition, then GROUP BY date, level, event |
| StatisticsSQLService.FilteredTail | src/main/java/net/luisalbertogh/log4jstats/services/sqlite/StatisticsSQLService.java:264-278 | after the level condition, the event filter and the chart condition are both joined by AND |
| StatisticsSQLService.AppEventsQueries | src/main/java/net/luisalbertogh/log4jstats/services/sqlite/StatisticsSQLService.java:239-309 | one table query per partition of the window |
| StatisticsSQLService.MergedSnoc | src/main/java/net/luisalbertogh/log4jstats/services/sqlite/StatisticsSQLService.java:137-141 | putting one more row sets its date to its count and leaves the other dates |
| StatisticsSQLService.DatesSnoc | src/main/java/net/luisalbertogh/log4jstats/services/sqlite/StatisticsSQLService.java:137-141 | one more row adds exactly its date to the dates seen |
| StatisticsSQLService.MergedKeys | src/main/java/net/luisalbertogh/log4jstats/services/sqlite/StatisticsSQLService.java:137-141 | the per-date counts have exactly the dates of the rows as keys |
| StatisticsSQLService.MergedLast | src/main/java/net/luisalbertogh/log4jstats/services/sqlite/StatisticsSQLService.java:137-141 | each date holds the count of the last row with that date |
| StatisticsSQLService.MergedSpec | src/main/java/net/luisalbertogh/log4jstats/services/sqlite/StatisticsSQLService.java:93-148 | the per-date counts have one key per date returned by any partition, and a date returned twice holds the later count, which replaces the earlier one rather than adding to it |
| StatisticsSQLService.LaterCountReplaces | src/main/java/net/luisalbertogh/log4jstats/services/sqlite/StatisticsSQLService.java:140 | two partitions returning the same date: the result holds only the second count |
| StatisticsSQLService.SlotOf | src/main/java/net/luisalbertogh/log4jstats/services/sqlite/StatisticsSQLService.java:289-290 | the position found holds the key and is its first occurrence, and -1 means the key is absent |
| StatisticsSQLService.LinkedPutSpec | src/main/java/net/luisalbertogh/log4jstats/services/sqlite/StatisticsSQLService.java:289-290 | a LinkedHashMap put keeps the keys distinct and the earlier keys in their places, adds the key last only when it was absent, maps it to the new row, and leaves every other key's row as it was |
| StatisticsSQLService.RowKeysSnoc | src/main/java/net/luisalbertogh/log4jstats/services/sqlite/StatisticsSQLService.java:289 | one more row adds exactly its date_level_event key |
| StatisticsSQLService.GroupedDistinct | src/main/java/net/luisalbertogh/log4jstats/services/sqlite/StatisticsSQLService.java:283-302 | the table never holds a key twice |
| StatisticsSQLService.GroupedKeys | src/main/java/net/luisalbertogh/log4jstats/services/sqlite/StatisticsSQLService.java:283-302 | a key is in the table exactly when some row has it |
| StatisticsSQLService.GroupedLast | src/main/java/net/luisalbertogh/log4jstats/services/sqlite/StatisticsSQLService.java:283-302 | each key holds the last row filed under it |
| StatisticsSQLService.GroupedSpec | src/main/java/net/luisalbertogh/log4jstats/services/sqlite/StatisticsSQLService.java:239-309 | the table has one entry per date_level_event key, exactly the keys of the rows, each holding the last row filed under it |
| StatisticsSQLService.GroupedSnoc | src/main/java/net/luisalbertogh/log4jstats/services/sqlite/StatisticsSQLService.java:283-302 | one more row is put under its key, adds its level to the levels seen and its event to the events seen |
| StatisticsSQLService.EventsOf | src/main/java/net/luisalbertogh/log4jstats/services/sqlite/StatisticsSQLService.java:294-296 | one event name per row |
| StatisticsSQLService.StatisticsSQL.constructor | src/main/java/net/luisalbertogh/log4jstats/services/sqlite/StatisticsSQLService.java:47-56 | the dates are set from the default number of days, every level is shown, and the division is MONTH exactly when the argument is "MONTH", WEEK otherwise |
| StatisticsSQLService.StatisticsSQL.GetNEventsPerDate | src/main/java/net/luisalbertogh/log4jstats/services/sqlite/StatisticsSQLService.java:63-66 | the charted per-date counts |
| StatisticsSQLService.StatisticsSQL.GetNEventsPerDateCharted | src/main/java/net/luisalbertogh/log4jstats/services/sqlite/StatisticsSQLService.java:78-158 | without both calendars the call fails; otherwise the result is the (count, date) rows of every partition of the window, across years as the corrected enumeration gives them (see Left out), put by date in partition order |
| StatisticsSQLService.StatisticsSQL.CountPartitions | src/main/java/net/luisalbertogh/log4jstats/services/sqlite/StatisticsSQLService.java:91-148 | the loop over the partitions gives the rows of all of them merged in order |
| StatisticsSQLService.StatisticsSQL.CountPartition | src/main/java/net/luisalbertogh/log4jstats/services/sqlite/StatisticsSQLService.java:94-147 | one pass queries the next partition and merges its rows after those already read |
| StatisticsSQLService.StatisticsSQL.BuildPerDateQuery | src/main/java/net/luisalbertogh/log4jstats/services/sqlite/StatisticsSQLService.java:96-134 | the query text built is the one PerDateQueryShape describes |
| StatisticsSQLService.StatisticsSQL.PutCounts | src/main/java/net/luisalbertogh/log4jstats/services/sqlite/StatisticsSQLService.java:137-141 | putting a partition's rows gives the counts merged over the earlier rows and these |
| StatisticsSQLService.StatisticsSQL.GetNDiffEventsPerDate | src/main/java/net/luisalbertogh/log4jstats/services/sqlite/StatisticsSQLService.java:164-182 | a level's token is a key exactly when the level is shown and has uncharted per-date counts, and then it holds them; every key is a level token; without a window the call fails exactly when some level is shown |
| StatisticsSQLService.StatisticsSQL.CollectLevels | src/main/java/net/luisalbertogh/log4jstats/services/sqlite/StatisticsSQLService.java:170-176 | the same, stated against the per-level counts the loop reads |
| StatisticsSQLService.StatisticsSQL.LevelCounts | src/main/java/net/luisalbertogh/log4jstats/services/sqlite/StatisticsSQLService.java:172 | one level's counts are its uncharted per-date counts, or the failure without a window |
| StatisticsSQLService.StatisticsSQL.KeepLevel | src/main/java/net/luisalbertogh/log4jstats/services/sqlite/StatisticsSQLService.java:173-175 | a level's counts are kept under its token exactly when there are any, and the other levels' entries stay |
| StatisticsSQLService.StatisticsSQL.GetTotalEventNumbers | src/main/java/net/luisalbertogh/log4jstats/services/sqlite/StatisticsSQLService.java:188-209 | one total per level of the input, each the sum of that level's per-date counts |
| StatisticsSQLService.StatisticsSQL.GetAppEventsTableData | src/main/java/net/luisalbertogh/log4jstats/services/sqlite/StatisticsSQLService.java:215-326 | without both calendars the call fails and nothing changes; otherwise the bundle is the grouping, levels and events of the rows of every partition of the window, across years as the corrected enumeration gives them (see Left out), in order, and those levels and events become the object's own |
| StatisticsSQLService.StatisticsSQL.TabulatePartitions | src/main/java/net/luisalbertogh/log4jstats/services/sqlite/StatisticsSQLService.java:237-309 | the loop over the partitions tabulates the rows of all of them in order |
| StatisticsSQLService.StatisticsSQL.TabulatePartition | src/main/java/net/luisalbertogh/log4jstats/services/sqlite/StatisticsSQLService.java:240-308 | one pass queries the next partition and tabulates its rows after those already read |
| StatisticsSQLService.StatisticsSQL.BuildAppEventsQuery | src/main/java/net/luisalbertogh/log4jstats/services/sqlite/StatisticsSQLService.java:243-280 | the query text built is the one AppEventsQueryShape describes |
| StatisticsSQLService.StatisticsSQL.FileRows | src/main/java/net/luisalbertogh/log4jstats/services/sqlite/StatisticsSQLService.java:283-302 | tabulating a partition's rows extends the table as if those rows followed the earlier ones |
| StatisticsSQLService.StatisticsSQL.FileRow | src/main/java/net/luisalbertogh/log4jstats/services/sqlite/StatisticsSQLService.java:284-301 | one row is filed under its key, and its level and event are recorded |
| TableService.LineStart | src/main/java/net/luisalbertogh/log4jstats/services/logfiles/TableService.java:59-72 | a backward read from p stops at the nearest line terminator at or before p, or at the first byte of the file, and meets no terminator on the way |
| TableService.Latin1Append | src/main/java/net/luisalbertogh/log4jstats/services/logfiles/TableService.java:67 | decoding bytes one at a time as ISO-8859-1 distributes over concatenation |
| TableService.BackLinesCover | src/main/java/net/luisalbertogh/log4jstats/services/logfiles/TableService.java:113-125 | the lines read backwards, put back in file order, are exactly the file up to the read position: nothing skipped or read twice |
| TableService.BackLinesShape | src/main/java/net/luisalbertogh/log4jstats/services/logfiles/TableService.java:59-74 | every line read is non-empty, holds no terminator after its first character, and starts with one unless it starts the file |
| TableService.ReadFileLine | src/main/java/net/luisalbertogh/log4jstats/services/logfiles/TableService.java:55-75 | the line read from p is the bytes from the line start up to p, in file order |
| TableService.Screen | src/main/java/net/luisalbertogh/log4jstats/services/logfiles/TableService.java:132-187 | a line that passes is kept with its own text as the row text |
| TableService.PassMeans | src/main/java/net/luisalbertogh/log4jstats/services/logfiles/TableService.java:132-187 | a passing line holds the level asked for, its first two words form its date, which parses and lies inside the window, its level is shown, it matches a configured application event (which is the event recorded) and, when a keyword is set, its lower-cased text contains it |
| TableService.RowLevelsSnoc | src/main/java/net/luisalbertogh/log4jstats/services/logfiles/TableService.java:207 | one more row adds exactly its level to the levels |
| TableService.RecordedSnoc | src/main/java/net/luisalbertogh/log4jstats/services/logfiles/TableService.java:207-209 | appending an admitted row whose event is recorded keeps every row admitted and recorded |
| TableService.KeepRowSound | src/main/java/net/luisalbertogh/log4jstats/services/logfiles/TableService.java:189-209 | keeping an admitted row numbered inside the window keeps the scan invariant |
| TableService.KeepRowEvents | src/main/java/net/luisalbertogh/log4jstats/services/logfiles/TableService.java:207-209 | keeping an admitted row leaves the events sorted by name, with every kept row's event recorded and no event that no kept row carries |
| TableService.EventsSnoc | src/main/java/net/luisalbertogh/log4jstats/services/logfiles/TableService.java:207-209 | after the event is put if absent, the event names are exactly those of the kept rows and each stored value is the value of some kept row's event under that name |
| TableService.TakeSound | src/main/java/net/luisalbertogh/log4jstats/services/logfiles/TableService.java:189-209 | handling any screened line keeps the scan invariant and never lowers the counter |
| TableService.TakePassSound | src/main/java/net/luisalbertogh/log4jstats/services/logfiles/TableService.java:189-209 | handling a passing line keeps the scan invariant and never lowers the counter |
| TableService.SkipRowSound | src/main/java/net/luisalbertogh/log4jstats/services/logfiles/TableService.java:193-195 | counting a passing line the window does not keep keeps the scan invariant |
| TableService.KeptStep | src/main/java/net/luisalbertogh/log4jstats/services/logfiles/TableService.java:189-199 | the next passing line adds one to the kept count exactly when its number is not below start and not above end |
| TableService.ScanLinesSound | src/main/java/net/luisalbertogh/log4jstats/services/logfiles/TableService.java:123-210 | scanning a file's lines keeps the scan invariant and never lowers the counter |
| TableService.ScanFilesSound | src/main/java/net/luisalbertogh/log4jstats/services/logfiles/TableService.java:109-219 | scanning the files keeps the scan invariant |
| TableService.ScanSound | src/main/java/net/luisalbertogh/log4jstats/services/logfiles/TableService.java:88-229 | every row kept is what screening makes of its own text with its event recorded, the levels are exactly the rows' levels, the event names are exactly those of the rows' events and each name maps to the value of one of them, the events stay in name order, and one row is kept per passing line numbered inside [start, end], so at most end - start + 1 |
| TableService.ScanComplete | src/main/java/net/luisalbertogh/log4jstats/services/logfiles/TableService.java:88-229 | a scan from nothing keeps exactly the passing lines it reaches, in read order, whose numbers counting from 1 lie inside [start, end]: each file's passing lines up to its first line that ends the scan, the next file read only when none did and fewer than `end` lines have passed |
| TableService.ScanFilesReach | src/main/java/net/luisalbertogh/log4jstats/services/logfiles/TableService.java:109-219 | over the files, the rows gain exactly the reached passing lines, numbered on from the count and kept by the window |
| TableService.ScanLinesReach | src/main/java/net/luisalbertogh/log4jstats/services/logfiles/TableService.java:123-210 | over one file, the rows gain exactly its passing lines up to the first line that ends the scan, numbered on from the count and kept by the window; the file ends the scan iff it holds such a line, unless a passing line numbered above `end` broke it off first |
| TableService.TakeAllReach | src/main/java/net/luisalbertogh/log4jstats/services/logfiles/TableService.java:123-210 | the same, stated over the file's screened lines |
| TableService.ScanFilesTake | src/main/java/net/luisalbertogh/log4jstats/services/logfiles/TableService.java:109-219 | reading the files line by line gives the same scan as taking their lines screened one by one, since screening a line does not depend on the lines before it |
| TableService.TakeFilesReach | src/main/java/net/luisalbertogh/log4jstats/services/logfiles/TableService.java:109-219 | over screened files, the rows gain exactly the reached passing lines, numbered on from the count and kept by the window |
| TableService.TakeStep | src/main/java/net/luisalbertogh/log4jstats/services/logfiles/TableService.java:153-209 | a line ending the scan stops it and changes nothing, any other failing line is skipped, and a passing line is counted, kept exactly when its number is inside the window, and breaks the file only when that number is above `end` |
| TableService.NumberedPastEnd | src/main/java/net/luisalbertogh/log4jstats/services/logfiles/TableService.java:197-199 | once the count has reached a bounded `end`, no later passing line is kept |
| TableService.NumberedAppend | src/main/java/net/luisalbertogh/log4jstats/services/logfiles/TableService.java:189-209 | numbering runs on from one file's passing lines to the next's |
| TableService.StopLineEndsScan | src/main/java/net/luisalbertogh/log4jstats/services/logfiles/TableService.java:152-163 | a line before the window (reading files) or after it (over HTTP) is the last one read: what follows it in its file, and every later file, leaves the rows, levels and events as they were |
| TableService.OpenEndReadsOneFile | src/main/java/net/luisalbertogh/log4jstats/services/logfiles/TableService.java:216-218 | with end -1 the check after a file always stops the scan, so only the first file read is scanned |
| TableService.ScanLinesCounter | src/main/java/net/luisalbertogh/log4jstats/services/logfiles/TableService.java:190 | scanning lines never lowers the counter |
| TableService.ScanLinesCons | src/main/java/net/luisalbertogh/log4jstats/services/logfiles/TableService.java:123-210 | the scan of a line followed by others handles the line first and goes on only when it did not stop |
| TableService.ScanLinesAt | src/main/java/net/luisalbertogh/log4jstats/services/logfiles/TableService.java:262-344 | the same from any index of a fetched file |
| TableService.Table.constructor | src/main/java/net/luisalbertogh/log4jstats/services/logfiles/TableService.java:42-45 | the dates are set from the default number of days and maxNumberOfDates is stored; no level shown, no events, no keyword |
| TableService.Table.Filtering | src/main/java/net/luisalbertogh/log4jstats/services/logfiles/TableService.java:132-187 | the screening uses the object's keyword, shown levels, events and date window |
| TableService.Table.ScreenLine | src/main/java/net/luisalbertogh/log4jstats/services/logfiles/TableService.java:132-187 | the checks of the loop body give what Screen specifies |
| TableService.Table.TakeLine | src/main/java/net/luisalbertogh/log4jstats/services/logfiles/TableService.java:153-209 | the end of the loop body updates the counter, rows, levels and events and decides the flow as Take specifies |
| TableService.Table.ProcessLine | src/main/java/net/luisalbertogh/log4jstats/services/logfiles/TableService.java:127-209 | one line handled in the loop body: leading terminator dropped, screened, taken |
| TableService.Table.ReadFileEvents | src/main/java/net/luisalbertogh/log4jstats/services/logfiles/TableService.java:111-213 | a file's lines read backwards from the last are scanned as ScanLines specifies |
| TableService.Table.GetEventsData | src/main/java/net/luisalbertogh/log4jstats/services/logfiles/TableService.java:88-229 | the rows, levels and events are those of the scan of all files, newest line first; so the rows are exactly the reached passing lines numbered inside the window, in read order, a line before the window ending the scan, the levels are the rows' levels and the event names those of the rows' events |
| TableService.Table.ReadFetchedEvents | src/main/java/net/luisalbertogh/log4jstats/services/logfiles/TableService.java:262-344 | a fetched file's lines, first to last, are scanned as ScanLines specifies |
| TableService.Table.GetEventsDataByHTTP | src/main/java/net/luisalbertogh/log4jstats/services/logfiles/TableService.java:243-356 | the same for fetched files read from the first line, a line after the window ending the scan and one before it passed over |
| TableService.Table.SetKeyword | src/main/java/net/luisalbertogh/log4jstats/services/logfiles/TableService.java:466-470 | a given keyword is stored trimmed and lower-cased; a missing one leaves it; nothing else changes |
| TableService.Table.GetEventsCSV | src/main/java/net/luisalbertogh/log4jstats/services/logfiles/TableService.java:365-381 | the CSV text is the header line then one record per row, which CsvLinesRoundTrip splits back |
| TableService.Table.GetEventsHTML | src/main/java/net/luisalbertogh/log4jstats/services/logfiles/TableService.java:390-412 | the HTML text is the table head, one table row per row in order, then the closing tags |
| TableService.LowerTwice | src/main/java/net/luisalbertogh/log4jstats/services/logfiles/TableService.java:468 | lower-casing twice is lower-casing once |
| TableService.KeywordNormalised | src/main/java/net/luisalbertogh/log4jstats/services/logfiles/TableService.java:468 | a stored keyword is already lower-case and has no blank at either end |
| TableService.CsvLines | src/main/java/net/luisalbertogh/log4jstats/services/logfiles/TableService.java:372-378 | one CSV record per row |
| TableService.CsvBodyJoin | src/main/java/net/luisalbertogh/log4jstats/services/logfiles/TableService.java:372-378 | the CSV body is the records joined by newlines, each record ended by one |
| TableService.CsvLinesRoundTrip | src/main/java/net/luisalbertogh/log4jstats/services/logfiles/TableService.java:365-381 | when no column holds a newline, splitting the CSV text at newlines gives back the header, one record per row in order, and the empty text after the last newline |
| TableService.HtmlBodyAppend | src/main/java/net/luisalbertogh/log4jstats/services/logfiles/TableService.java:399-406 | the HTML body of two row lists is the body of the first followed by that of the second |
| TableService.HtmlBodyRowAt | src/main/java/net/luisalbertogh/log4jstats/services/logfiles/TableService.java:399-406 | row k's table row stands in the body right after the table rows of the rows before it |
| TableService.HtmlRowsInOrder | src/main/java/net/luisalbertogh/log4jstats/services/logfiles/TableService.java:390-412 | in the whole table, row k's table row stands right after the head and the rows before it |
| StatisticsService.NewDateComparator | src/main/java/net/luisalbertogh/log4jstats/services/logfiles/StatisticsService.java:331-345 | the comparator's pattern is the text before the first space of the given one and holds no space; the order is the one given, "desc" by default |
| StatisticsService.Compare | src/main/java/net/luisalbertogh/log4jstats/services/logfiles/StatisticsService.java:348-373 | the comparison is -1, 0 or 1 |
| StatisticsService.CompareSpec | src/main/java/net/luisalbertogh/log4jstats/services/logfiles/StatisticsService.java:348-373 | the comparison is antisymmetric; it is 0 exactly when either text does not parse or both are the same instant; "asc" puts the earlier date first and any other order the later, the two orders being opposite |
| StatisticsService.TallyCounts | src/main/java/net/luisalbertogh/log4jstats/services/logfiles/StatisticsService.java:122-129 | after counting dates, a date is a key exactly when it was a key or was counted, its count grows by the number of times it was counted, and every count stays at least 1 |
| StatisticsService.DateVerdict | src/main/java/net/luisalbertogh/log4jstats/services/logfiles/StatisticsService.java:87-129 | a counted line has at least two words, is counted under its first word, its two words parse to an instant inside the window, and it holds the level asked for |
| StatisticsService.RemainingStep | src/main/java/net/luisalbertogh/log4jstats/services/logfiles/StatisticsService.java:87-130 | reading the next line of a file: a skipped line leaves the dates still to count, a stopping line ends them, a counted one puts its date first |
| StatisticsService.TotalRemove | src/main/java/net/luisalbertogh/log4jstats/services/logfiles/StatisticsService.java:184-187 | the sum of a map's counts is any one count plus the sum of the rest, whatever order the keys are visited in |
| StatisticsService.BumpTotal | src/main/java/net/luisalbertogh/log4jstats/services/logfiles/StatisticsService.java:122-129 | counting one line adds one to the total |
| StatisticsService.TallyTotal | src/main/java/net/luisalbertogh/log4jstats/services/logfiles/StatisticsService.java:122-129 | counting dates adds their number to the total |
| StatisticsService.CountedTotal | src/main/java/net/luisalbertogh/log4jstats/services/logfiles/StatisticsService.java:176-196 | the total getTotalEventNumbers computes for a level's per-date counts is the number of lines getNEventsPerDate counted |
| StatisticsService.BumpEventSpec | src/main/java/net/luisalbertogh/log4jstats/services/logfiles/StatisticsService.java:301-309 | counting a key in the LinkedHashMap keeps the keys distinct, adds the key last only when it is new, and adds one to that key's count and nothing to the others |
| StatisticsService.NotInCountZero | src/main/java/net/luisalbertogh/log4jstats/services/logfiles/StatisticsService.java:304 | a key not in the table counts 0 |
| StatisticsService.Classify | src/main/java/net/luisalbertogh/log4jstats/services/logfiles/StatisticsService.java:234-309 | a line that only records its level has a shown level and no application event; a counted line has a shown level and the application event it is counted under |
| StatisticsService.KindsLines | src/main/java/net/luisalbertogh/log4jstats/services/logfiles/StatisticsService.java:234-310 | the lines of a file that change the bundle are the ones that record a level or count an event |
| StatisticsService.KindsFiles | src/main/java/net/luisalbertogh/log4jstats/services/logfiles/StatisticsService.java:230-312 | the same over all files |
| StatisticsService.KindsStep | src/main/java/net/luisalbertogh/log4jstats/services/logfiles/StatisticsService.java:234-310 | reading the next line: an ignored line leaves the rest, a halting line ends it, any other puts its kind first |
| StatisticsService.AbsorbAllCounts | src/main/java/net/luisalbertogh/log4jstats/services/logfiles/StatisticsService.java:301-309 | absorbing lines keeps one table row per key and counts each key once per line that has it |
| StatisticsService.AbsorbAllLevels | src/main/java/net/luisalbertogh/log4jstats/services/logfiles/StatisticsService.java:284-288 | absorbing lines records the level of every line, with or without an application event |
| StatisticsService.AbsorbAllEvents | src/main/java/net/luisalbertogh/log4jstats/services/logfiles/StatisticsService.java:290-295 | the event map stays in name order, gains exactly the names of the events counted, and keeps the first value of each |
| StatisticsService.EventNamesCons | src/main/java/net/luisalbertogh/log4jstats/services/logfiles/StatisticsService.java:295 | the event names of a list of kinds are those of the first kind and those of the rest |
| StatisticsService.AbsorbCons | src/main/java/net/luisalbertogh/log4jstats/services/logfiles/StatisticsService.java:234-310 | absorbing a kind and then others is absorbing the others into the bundle the first one gives |
| StatisticsService.Statistics.constructor | src/main/java/net/luisalbertogh/log4jstats/services/logfiles/StatisticsService.java:42-46 | the dates are set from the default number of days, maxNumberOfDates is stored, and every level is shown |
| StatisticsService.Statistics.ForDates | src/main/java/net/luisalbertogh/log4jstats/services/logfiles/StatisticsService.java:54-59 | the given window is stored and every level is shown |
| StatisticsService.Statistics.Dating | src/main/java/net/luisalbertogh/log4jstats/services/logfiles/StatisticsService.java:87-121 | the per-date filter uses the object's date window and the level asked for |
| StatisticsService.Statistics.DateLine | src/main/java/net/luisalbertogh/log4jstats/services/logfiles/StatisticsService.java:88-121 | the checks of the loop body give what DateVerdict specifies |
| StatisticsService.Statistics.GetNEventsPerDate | src/main/java/net/luisalbertogh/log4jstats/services/logfiles/StatisticsService.java:74-137 | the counts are the tally of the dates of every counted line, file after file, up to the line before the window |
| StatisticsService.Statistics.GetNDiffEventsPerDate | src/main/java/net/luisalbertogh/log4jstats/services/logfiles/StatisticsService.java:149-166 | a level's token is a key exactly when the level is shown and has per-date counts, and then it holds them; every key is a level token |
| StatisticsService.Statistics.GetTotalEventNumbers | src/main/java/net/luisalbertogh/log4jstats/services/logfiles/StatisticsService.java:176-196 | one total per level of the input, each the sum of that level's per-date counts |
| StatisticsService.Statistics.Apps | src/main/java/net/luisalbertogh/log4jstats/services/logfiles/StatisticsService.java:234-294 | the table filter uses the object's shown levels, application events and date window |
| StatisticsService.Statistics.ClassifyLine | src/main/java/net/luisalbertogh/log4jstats/services/logfiles/StatisticsService.java:235-294 | the checks of the loop body give what Classify specifies |
| StatisticsService.Statistics.AbsorbLine | src/main/java/net/luisalbertogh/log4jstats/services/logfiles/StatisticsService.java:288-309 | a passing line is absorbed as Absorb specifies and the events stay in name order |
| StatisticsService.Statistics.GetAppEventsTableData | src/main/java/net/luisalbertogh/log4jstats/services/logfiles/StatisticsService.java:210-324 | the bundle is every passing line of every file absorbed in order, up to the line before the window, and its levels and events become the object's |
| Sqlite4JavaTool.SqlTextsDiffer | src/main/java/net/luisalbertogh/sqlite4java/Sqlite4JavaTool.java:49-72 | the five prepared statements have different SQL texts, so a statement is known by its text |
| Sqlite4JavaTool.LaunchedSpec | src/main/java/net/luisalbertogh/sqlite4java/Sqlite4JavaTool.java:120-155 | main prints the usage exactly when it has fewer than two arguments, dumps exactly when both dates parse, and dumps by WEEK exactly when a third argument is "WEEK" |
| Sqlite4JavaTool.LaunchedNamesRoundTrip | src/main/java/net/luisalbertogh/sqlite4java/Sqlite4JavaTool.java:120-155 | a division name offered by getTimeDivisions, given back as the third argument, selects that division; any other third argument gives MONTH |
| Sqlite4JavaTool.Probe | src/main/java/net/luisalbertogh/sqlite4java/Sqlite4JavaTool.java:513-525 | the probe of areTablesInDB is the SELECT on the file, with nothing bound |
| Sqlite4JavaTool.DayBeforeSpace | src/main/java/net/luisalbertogh/sqlite4java/Sqlite4JavaTool.java:443 | the DATE value of a datetime "day time" is its day |
| Sqlite4JavaTool.BlankDayThrows | src/main/java/net/luisalbertogh/sqlite4java/Sqlite4JavaTool.java:443 | a datetime of spaces only has no day, and the row is not inserted |
| Sqlite4JavaTool.ChartFlagAsWritten | src/main/java/net/luisalbertogh/sqlite4java/Sqlite4JavaTool.java:440-461 | the first five values are the day, datetime, level, event name and line; a chart event binds all seven with SOURCE "" and CHART "1", and any other event overwrites SOURCE with "0" and leaves CHART unbound |
| Sqlite4JavaTool.RowParamsSpec | src/main/java/net/luisalbertogh/sqlite4java/Sqlite4JavaTool.java:440-461 | a row gets values exactly when its datetime has a day and an application event matches its line; the values are those ChartFlagAsWritten describes for the row's day, datetime, level, matching event name and line, charted exactly when some charted event occurs in the line ignoring case |
| Sqlite4JavaTool.ExecSpec | src/main/java/net/luisalbertogh/sqlite4java/Sqlite4JavaTool.java:624-635 | a statement is appended to what the database holds exactly when it is accepted, and nothing else changes |
| Sqlite4JavaTool.CreatedSpec | src/main/java/net/luisalbertogh/sqlite4java/Sqlite4JavaTool.java:489-504 | createTables restarts the row counter at 0 and adds only the two CREATE statements, on its connection |
| Sqlite4JavaTool.SteppedSpec | src/main/java/net/luisalbertogh/sqlite4java/Sqlite4JavaTool.java:464-476 | the two inserts of a row are on its connection, bind its values, create nothing, and the counter goes up by one exactly when the text insert went through |
| Sqlite4JavaTool.RowInsertedSpec | src/main/java/net/luisalbertogh/sqlite4java/Sqlite4JavaTool.java:440-479 | a row without values adds nothing; otherwise its inserts are those of SteppedSpec |
| Sqlite4JavaTool.InsertedSpec | src/main/java/net/luisalbertogh/sqlite4java/Sqlite4JavaTool.java:432-480 | insertData only adds statements on its connection, creates tables only when asked, binds only the row's values, restarts the counter with new tables and counts the row exactly when its text went in |
| Sqlite4JavaTool.RowFileQueried | src/main/java/net/luisalbertogh/sqlite4java/Sqlite4JavaTool.java:240-251 | the partition a row is written to is among the partitions the SQL services enumerate for any window whose first and last periods enclose the row's |
| Sqlite4JavaTool.ConnectSpec | src/main/java/net/luisalbertogh/sqlite4java/Sqlite4JavaTool.java:253-268 | the connection always names the row's file up to case; it is kept exactly when the paths are equal ignoring case, and tables are created only on a new connection, exactly when the file is missing or the probe fails |
| Sqlite4JavaTool.FirstRowOpens | src/main/java/net/luisalbertogh/sqlite4java/Sqlite4JavaTool.java:201-268 | as prevFilepath starts empty, the first row always opens a connection to its own file |
| Sqlite4JavaTool.RowWrittenSpec | src/main/java/net/luisalbertogh/sqlite4java/Sqlite4JavaTool.java:240-271 | a written row adds statements only to its own partition and leaves the flags and checks alone |
| Sqlite4JavaTool.RowStepSpec | src/main/java/net/luisalbertogh/sqlite4java/Sqlite4JavaTool.java:229-272 | one row counts one cancel check, adds statements only to its partition, sets the flag exactly when it was set or another thread sets it now, and then adds nothing and stops the loop |
| Sqlite4JavaTool.RowStepFlags | src/main/java/net/luisalbertogh/sqlite4java/Sqlite4JavaTool.java:229-272 | one row counts one check, and a row that sees the flag stops the loop |
| Sqlite4JavaTool.RowsSpec | src/main/java/net/luisalbertogh/sqlite4java/Sqlite4JavaTool.java:229-272 | the for loop adds statements only to the partitions of its rows, makes at most one check per row, and adds nothing once the flag is set |
| Sqlite4JavaTool.RowsCancel | src/main/java/net/luisalbertogh/sqlite4java/Sqlite4JavaTool.java:229-233 | when another thread sets the flag at check k, the for loop makes no check after it and, having reached it, ends with the flag set |
| Sqlite4JavaTool.Window | src/main/java/net/luisalbertogh/sqlite4java/Sqlite4JavaTool.java:216 | the window of a pass is [from, now] reading the log files, [now, to] over HTTP |
| Sqlite4JavaTool.NewWindow | src/main/java/net/luisalbertogh/sqlite4java/Sqlite4JavaTool.java:216 | the window the table service ends with is the one asked for exactly when it spans less than MAX_NUMBER_DATES days, else the one it had |
| Sqlite4JavaTool.BatchSpec | src/main/java/net/luisalbertogh/sqlite4java/Sqlite4JavaTool.java:209-277 | one pass keeps the statements, stops on a repeated date exactly when now equals the previous now, on a short batch without writing, on the window's end and on cancellation with the flag set, and goes on only with progress to a new date and the flag clear |
| Sqlite4JavaTool.BatchesGrows | src/main/java/net/luisalbertogh/sqlite4java/Sqlite4JavaTool.java:209-277 | the do-while loop keeps every statement and never takes back a check |
| Sqlite4JavaTool.BatchesExits | src/main/java/net/luisalbertogh/sqlite4java/Sqlite4JavaTool.java:209-277 | each way the loop ends holds of its final state: a repeated date, a short batch, the window's end, the flag set |
| Sqlite4JavaTool.CancelledWritesNothing | src/main/java/net/luisalbertogh/sqlite4java/Sqlite4JavaTool.java:229-233 | with the flag already set, the next pass writes nothing and ends the loop with the flag still set |
| Sqlite4JavaTool.BatchCancel | src/main/java/net/luisalbertogh/sqlite4java/Sqlite4JavaTool.java:229-277 | one pass makes no check after the one at which the flag is set, and a pass that reached it stops by cancellation, the window's end or an exception |
| Sqlite4JavaTool.BatchesCancel | src/main/java/net/luisalbertogh/sqlite4java/Sqlite4JavaTool.java:209-277 | when another thread sets the flag at check k, the dump makes no check after it, and having reached it ends with the flag set |
| Sqlite4JavaTool.CancelledDumpExit | src/main/java/net/luisalbertogh/sqlite4java/Sqlite4JavaTool.java:209-277 | a dump that reached the check at which the flag is set ends by cancellation, the window's end or an exception |
| Sqlite4JavaTool.StalledBatchEnds | src/main/java/net/luisalbertogh/sqlite4java/Sqlite4JavaTool.java:211-213 | a pass whose last row carries the date it started from is followed by the no-progress exit |
| Sqlite4JavaTool.DumpedRuns | src/main/java/net/luisalbertogh/sqlite4java/Sqlite4JavaTool.java:166-289 | with both event lists read and the date pattern extracted without an exception, the dump is the do-while loop from the table service's default window and prevNow null |
| Sqlite4JavaTool.DumpedSpec | src/main/java/net/luisalbertogh/sqlite4java/Sqlite4JavaTool.java:166-289 | a dump keeps every statement the databases had, and one whose event configuration or date-pattern extraction throws ends as Failed and changes nothing |
| Sqlite4JavaTool.LateOpeningStopsDump | src/main/java/net/luisalbertogh/sqlite4java/Sqlite4JavaTool.java:188-191 | with the conversion pattern `%c - %d{HH}` the date-pattern extraction throws, so the dump ends as Failed with nothing inserted |
| Sqlite4JavaTool.Tool.constructor | src/main/java/net/luisalbertogh/sqlite4java/Sqlite4JavaTool.java:75-83 | a new tool has no rows counted, is not cancelled, has written nothing and has empty event lists |
| Sqlite4JavaTool.Tool.SetCancel | src/main/java/net/luisalbertogh/sqlite4java/Sqlite4JavaTool.java:683-685 | only the cancel flag changes, to the value given |
| Sqlite4JavaTool.Tool.InitAppEvents | src/main/java/net/luisalbertogh/sqlite4java/Sqlite4JavaTool.java:532-542 | the event list is the one the comma tokens build, false where a token throws; nothing else changes |
| Sqlite4JavaTool.Tool.InitAppEvents4Charts | src/main/java/net/luisalbertogh/sqlite4java/Sqlite4JavaTool.java:549-559 | the same for the charted event list |
| Sqlite4JavaTool.Tool.GetAppEvent | src/main/java/net/luisalbertogh/sqlite4java/Sqlite4JavaTool.java:567-581 | the first event in name order whose value occurs in the line ignoring case, or none |
| Sqlite4JavaTool.Tool.IsAppEvent4Chart | src/main/java/net/luisalbertogh/sqlite4java/Sqlite4JavaTool.java:589-600 | true exactly when some charted event's value occurs in the line ignoring case |
| Sqlite4JavaTool.Tool.Execute | src/main/java/net/luisalbertogh/sqlite4java/Sqlite4JavaTool.java:624-635 | the statement is kept exactly when its database accepts it, and the result says which |
| Sqlite4JavaTool.Tool.CreateTables | src/main/java/net/luisalbertogh/sqlite4java/Sqlite4JavaTool.java:489-504 | the state after createTables is Created's, whose effects CreatedSpec states |
| Sqlite4JavaTool.Tool.AreTablesInDB | src/main/java/net/luisalbertogh/sqlite4java/Sqlite4JavaTool.java:513-525 | true exactly when the probe SELECT on the file goes through |
| Sqlite4JavaTool.Tool.InsertData | src/main/java/net/luisalbertogh/sqlite4java/Sqlite4JavaTool.java:432-480 | the state after insertData is Inserted's, whose effects InsertedSpec states; the event lists do not change |
| Sqlite4JavaTool.Tool.InsertRow | src/main/java/net/luisalbertogh/sqlite4java/Sqlite4JavaTool.java:440-479 | the part after the tables: the state is RowInserted's |
| Sqlite4JavaTool.Tool.RowValues | src/main/java/net/luisalbertogh/sqlite4java/Sqlite4JavaTool.java:440-461 | the values bound are those of RowParams, or the exception that ends the row |
| Sqlite4JavaTool.Tool.InsertValues | src/main/java/net/luisalbertogh/sqlite4java/Sqlite4JavaTool.java:464-476 | the event row, its text and the count, each only if the one before went through |
| Sqlite4JavaTool.Tool.DumpRow | src/main/java/net/luisalbertogh/sqlite4java/Sqlite4JavaTool.java:229-271 | one row of the for loop ends in the state RowStep gives |
| Sqlite4JavaTool.Tool.DumpRows | src/main/java/net/luisalbertogh/sqlite4java/Sqlite4JavaTool.java:229-272 | the for loop over a batch ends in the state Rows gives |
| Sqlite4JavaTool.Tool.DumpBatch | src/main/java/net/luisalbertogh/sqlite4java/Sqlite4JavaTool.java:209-277 | one pass of the do-while loop ends as Batch gives, stopping or going on |
| Sqlite4JavaTool.Tool.DumpFetched | src/main/java/net/luisalbertogh/sqlite4java/Sqlite4JavaTool.java:217-277 | the part of a pass after setDatesInterval ends as Fetched gives |
| Sqlite4JavaTool.Tool.Dump | src/main/java/net/luisalbertogh/sqlite4java/Sqlite4JavaTool.java:166-289 | the event lists are read, then the date pattern is extracted (an exception in either fails the dump before any row), then the loop runs: the exit and state are Dumped's, whose properties DumpedSpec and the loop lemmas state |
| Sqlite4JavaTool.Tool.DumpRun | src/main/java/net/luisalbertogh/sqlite4java/Sqlite4JavaTool.java:201-289 | once both lists are read, the dump is the loop from the default window |
| Sqlite4JavaTool.Tool.NewTableService | src/main/java/net/luisalbertogh/sqlite4java/Sqlite4JavaTool.java:195-201 | the dump's table service is new, its window ends a day after the clock and spans the default number of days, it accepts MAX_NUMBER_DATES, and its levels and events are read |
| Sqlite4JavaTool.Tool.DumpLoop | src/main/java/net/luisalbertogh/sqlite4java/Sqlite4JavaTool.java:209-277 | the do-while loop ends as Batches gives |
| Sqlite4JavaTool.Tool.DumpFilesToDB | src/main/java/net/luisalbertogh/sqlite4java/Sqlite4JavaTool.java:166-289 | dumpFilesToDB is the dump from the end date backwards, with the configured conversion pattern |
| Sqlite4JavaTool.Tool.DumpFilesToDBbyHTTP | src/main/java/net/luisalbertogh/sqlite4java/Sqlite4JavaTool.java:299-422 | dumpFilesToDBbyHTTP is the dump from the start date forwards, with the configured conversion pattern |
| Sqlite4JavaTool.Tool.GetTimeDivisions | src/main/java/net/luisalbertogh/sqlite4java/Sqlite4JavaTool.java:656-667 | the names of the divisions, in declaration order |

## Left out

- The GUI is not part of this model: all panels except the two paging methods of `DataTablePanel`, the charts (JFreeChart), renderers, table models and the launcher. They are presentation code.
- HTTP fetching and HTML parsing of the log listing are left out. The lines `getEventsDataByHTTP` receives, and the batches the tool gets from the table service, are inputs.
- Reading `labels.properties`, `charts.properties` and the log4j configuration is left out. The configured strings (application events, charted events, default days) are parameters.
- SQLite is not interpreted. Whether a database accepts a statement, and the rows a query returns, are parameters. Full-text `MATCH` is not evaluated.
- `openDBConnection` is assumed to succeed.
- The 500-row bound a batch asks for (`MAX_NUMBER_EVENTS`) belongs to the table service's input and is not enforced.
- File-system calls are inputs: the sorted list of log files and `File.exists`. `TableService` receives each file's contents as bytes, which it reads backwards as `RandomAccessFile` does. `StatisticsService` receives each file as its sequence of lines, as `BufferedReader.readLine` returns them.
- `SimpleDateFormat` and `Calendar` are parameters: parsing, formatting and the calendar fields of a date. Adding a day is adding 86 400 000 ms, so a daylight-saving shift is not modelled.
- Threads and the `wait`/`notifyAll` handshakes are left out. Another thread's `setCancel(true)` is the row check at which the tool first sees the flag set (`cancelAt`).
- Console and text-area output, and stack traces, are left out.
- Sqlite4JavaTool.Batches: the do-while loop is modelled for at most `fuel` passes and then ends with `OutOfFuel`. A dump that would run longer is not followed past that bound.
- Java `int` and `long` counters (`rowCounter`, `insertedRows`, per-date counts) are unbounded integers. Overflow is not modelled.
- Strings.Lower: `toLowerCase` and `equalsIgnoreCase` are modelled for ASCII letters only.
- SortedMap.Less: orders strings character by character, where a character is a Unicode scalar value. Java's `compareTo` orders by UTF-16 code units, so the two orders differ for supplementary characters: in Java U+10000 (lead surrogate D800) sorts before U+FFFF, and here it sorts after.
- The service constructors start with no level shown, no application events and empty level and event sets. In Java, `skipLogLevels`, `appEventList`, `logLevels` and `appEvents` stay null until `initLogLevels`, `initAppEvents` or `getEventsData` runs. Null before initialisation is modelled as empty; every caller initialises first (DataTablePanel.java:111-116, Sqlite4JavaTool.java:196-201 and 326-331).
- SuperService.AddAppEvent returns the extended map instead of updating the caller's map in place. Aliasing of that map is not modelled.
- StatisticsService.Statistics.GetNEventsPerDate keys its counts by the date text. The Java TreeMap with `DateComparator` would merge two different texts that the comparator finds equal (or cannot parse); the model keeps them apart.
- StatisticsService.Statistics.GetAppEventsTableData keys its rows by the triple (date, level, event). Java keys them by the joined text `date_level_event`, which can merge triples whose fields contain `_`.
- TableSQLService.TableSQL.GetEventsData: lists the partitions with the corrected `GetWindowFilepaths`, where the code calls `getDBFilepaths` as written (see Findings). On a window that crosses a year, such as December to January, the code as written queries no partition and returns no rows, with `rowCounter` 1. On a WEEK window that ends in week 52 or 53, the code as written never returns. The model does not promise either behaviour.
- TableSQLService.TableSQL.GetEventsData: also requires the start calendar's field to be a month 0-11 or a week 1-52, because the corrected enumeration is defined from such a period. A window starting in week 53 is not modelled.
- StatisticsSQLService.StatisticsSQL.GetNEventsPerDateCharted: lists the partitions with the corrected `GetWindowFilepaths` too. On a year-crossing window the code as written returns no counts. On a WEEK window that ends in week 52 or 53, the code as written never returns. It also requires a start period of month 0-11 or week 1-52.
- StatisticsSQLService.StatisticsSQL.GetNEventsPerDate: the same as `GetNEventsPerDateCharted`, which it calls.
- StatisticsSQLService.StatisticsSQL.GetNDiffEventsPerDate: the same for each level shown. On a year-crossing window the code as written keeps no level, and on a WEEK window that ends in week 52 or 53 it never returns.
- StatisticsSQLService.StatisticsSQL.CollectLevels: the same as `GetNDiffEventsPerDate`, whose loop it is.
- StatisticsSQLService.StatisticsSQL.LevelCounts: the same for one level's counts.
- StatisticsSQLService.StatisticsSQL.GetAppEventsTableData: lists the partitions with the corrected `GetWindowFilepaths` too. On a year-crossing window the code as written returns an empty table, and on a WEEK window that ends in week 52 or 53 it never returns. It also requires a start period of month 0-11 or week 1-52.
- SuperSQLService.GetDBFilepaths: requires a window on which the loop as written exits. `NeverExits` states the windows on which it runs for ever.
- The date pattern from `getDatePattern` configures `SimpleDateFormat`, and date parsing is a parameter here. The pattern text itself feeds nothing else. The dump does follow the code as written in one respect: an exception thrown by `getDatePattern` ends the dump before any row (`Dumped`, `LateOpeningStopsDump`). The corrected `DatePattern` never throws.
- DataTablePanel.GetComboModel: takes the gap as a `nat`. With a negative `tablegap` the Java do-while makes no progress and, once the first window ends below the row count, never ends. That case is not modelled.
- Sqlite4JavaTool.Source: `present` is a fixed function of the path. So a partition file the dump itself creates still reads as absent if the tool reconnects to it later in the same dump, and its CREATE statements are issued again.

## Findings

| source | as written | input that shows it | evidently intended | confidence | as-written member | corrected member |
|---|---|---|---|---|---|---|
| src/main/java/net/luisalbertogh/log4jstats/services/sqlite/SuperSQLService.java:61-85 | the period runs from the start calendar's to the end calendar's inside the start calendar's year. The end year is never read, and a wrap only restarts the counter below the limit | MONTH from December 2012 to January 2013 gives no partition. WEEK from week 50 to week 52 never exits | every period from the start's (period, year) to the end's, wrapping into the next year after December or week 52 | not executed | SuperSQLService.CrossingYearIsEmpty | SuperSQLService.GetWindowFilepaths |
| src/main/java/net/luisalbertogh/log4jstats/utils/StatisticsUtils.java:52-60 | the index of `}` is found in the text after `%d{` but used as an index into the whole pattern | `%p %d{HH:mm} %m` gives `HH` | the text enclosed by the first `%d{` and the next `}` | not executed | StatisticsUtils.ShiftedPatternTruncated | StatisticsUtils.DatePatternEnclosed |
