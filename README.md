# Sulu contact CSV import and Nominatim response mapping, in Dafny

This project models two parts of the Sulu CMS.

- **The contact import engine** (`Import.php`). It reads an accounts CSV file and a contacts
  CSV file, maps every column header to a canonical key, and builds Account and Contact
  entities. Those entities get emails, phones, faxes, urls, notes, an address, bank
  accounts, a category and tags. The engine persists them through an entity manager.
  A second pass over the accounts file links every account to its parent account.
- **`NominatimGeolocator::locate`**. It turns a Nominatim/MapQuest HTTP response into a
  list of geolocator locations, or into the exception `locate` throws.

Modules:

- `Wrappers`: `Option` and `Result`.
- `PhpBuiltins`: the PHP built-ins the core relies on:
  - `array_search` followed by a truthiness test;
  - `trim` with a one-character list;
  - ASCII upper-casing;
  - array assignment built from pairs.
- `ImportRules`: the entities and the settings.
  - Also the per-row rules as pure functions: header mapping, country code and account
    type mapping, the numbered-column series, the address decision, the bank loop, and the
    category and tag choice from the caches.
  - Also the records each step persists.
- `ImportSteps`: the per-row callbacks of the three passes (account, parent, contact) as
  functions from the importer state to an outcome.
  - Also the CSV driver loop `processCsvLoop` as a recursive function, with lemmas about
    order, limits, flushes, aborts and the row-key index.
- `ImportEngine`: class `Importer`. It holds the importer's fields:
  - the configuration: the column mappings, id mappings, options, country mappings,
    account-type mappings and the limit;
  - the `accounts` list and the `associativeAccounts` index;
  - the category and tag caches;
  - a log of the `persist` and `flush` calls.

  Each of its methods is proved against the functions of `ImportRules` and `ImportSteps`.
- `Nominatim`: the decoded JSON value, `GeolocatorLocation`, the response mapping as the
  function `ResponseFor`, and the imperative `Locate` built on class `GeolocatorResponse`.

Modelling choices:

- **Inputs instead of I/O.** The CSV files are given as their lines (`seq<seq<string>>`).
  Other outside behaviour becomes parameters:
  - in `Env`: the value-object type defaults, the datastore's countries, the `DateTime`
    parser as a predicate, and the street-splitting regular expression as a function;
  - the datastore's categories and tags are arguments of the `Importer` constructor;
  - Doctrine's instance identity is a serial number for new instances, the field
    `Importer.serial`.
- **Exceptions are data.** A row's callback either succeeds (`Processed`) or raises:
  - an `\Exception`, which the loop catches (`Raised(MissingIdColumn(column))`,
    `Raised(UnknownCountry(code))`, `Raised(InvalidBirthday(text))`);
  - the uncaught `Error` of a method call on null (`Raised(CallOnNull)`), which aborts the
    loop.
- **Entities are values.** An account is addressed by its position in the `accounts`
  list (its handle). The index maps row keys to handles.

Points where the code behaves differently from what one might expect, modelled as the code
behaves:

- `array_search` is applied to the column mappings, so an alias table is read as
  `{canonical key: CSV header}`. The first entry whose value is the header gives the key,
  and only when that key is truthy.
- `addAddress` attaches an address only when a street is present and the city and country
  are not missing. The postal code never decides.
- The category and tag caches are filled only when the importer is built. A new name
  that appears on two rows therefore gives two new instances (`NewNameTwiceGivesTwoInstances`).
- The account note joins `note1`..`note9` with the literal two characters backslash-n, and it
  skips gaps, because the loop's `break` is commented out. Contact notes stop at the
  first gap.
- The limit test runs on the header line too, so a limit of 0 or less processes no row.
  A row that raises skips the flush, the limit test and the counter increment.
- On an unknown country the partly built account stays in the account list.
- Both files are modelled under PHP 7 semantics. In particular `count(null)` is 0 and
  `count` of a scalar is 1.

## Model

| member | source | states |
|---|---|---|
| ImportEngine.Importer.constructor | src/Sulu/Bundle/ContactBundle/Import/Import.php:177-186 | the declared default id mappings, options and account types; an empty account list and index; the caches loaded from the stored categories and tags, keyed by name |
| ImportEngine.Importer.LoadAccountCategories | src/Sulu/Bundle/ContactBundle/Import/Import.php:850-857 | each stored category is assigned under its name, a later record overriding an earlier one; nothing else changes |
| ImportEngine.Importer.LoadTags | src/Sulu/Bundle/ContactBundle/Import/Import.php:859-866 | each stored tag is assigned under its name; nothing else changes |
| ImportRules.CacheFromStore | src/Sulu/Bundle/ContactBundle/Import/Import.php:850-866 | the loaded cache has one entry per stored name, holding the last record with that name |
| ImportEngine.Importer.SetOptions | src/Sulu/Bundle/ContactBundle/Import/Import.php:1030-1033 | array_merge: the keys of both tables; the given value wins, other old values stay |
| ImportEngine.Importer.SetColumnMappings | src/Sulu/Bundle/ContactBundle/Import/Import.php:953-956 | replaces only the column mappings |
| ImportEngine.Importer.SetIdMappings | src/Sulu/Bundle/ContactBundle/Import/Import.php:998-1001 | replaces only the id mappings |
| ImportEngine.Importer.SetCountryMappings | src/Sulu/Bundle/ContactBundle/Import/Import.php:982-985 | replaces only the country mappings |
| ImportEngine.Importer.SetAccountTypeMappings | src/Sulu/Bundle/ContactBundle/Import/Import.php:1014-1017 | replaces only the account type mappings |
| ImportEngine.Importer.SetLimit | src/Sulu/Bundle/ContactBundle/Import/Import.php:936-939 | replaces only the limit |
| ImportEngine.Applied | src/Sulu/Bundle/ContactBundle/Import/Import.php:242-256 | each group the mappings file has replaces the current one; options are merged; missing groups and the limit stay |
| ImportEngine.Importer.ProcessMappings | src/Sulu/Bundle/ContactBundle/Import/Import.php:234-260 | no content gives false with nothing changed; a falsy decode raises "no valid JSON in mappings file"; otherwise the file's groups are applied and the result is `Ok(true)`, which stands for the truthiness of the decoded array that Import.php:259 returns (`execute` never uses that value) |
| ImportRules.MapHeader | src/Sulu/Bundle/ContactBundle/Import/Import.php:841-845 | the canonical key is the first truthy alias key whose value is the header, else the header itself |
| ImportRules.MapRowContents | src/Sulu/Bundle/ContactBundle/Import/Import.php:836-848 | the row's keys are exactly the mapped headers of its columns; each key holds the cell of the last column mapped to it |
| ImportRules.UnmappedHeaderPassesThrough | src/Sulu/Bundle/ContactBundle/Import/Import.php:841-845 | a header no alias names is kept as the key and holds the cell of the last column with that header |
| ImportRules.MapRowToAssociativeArray | src/Sulu/Bundle/ContactBundle/Import/Import.php:836-848 | the foreach over the cells builds exactly the mapped row |
| ImportRules.Opt | src/Sulu/Bundle/ContactBundle/Import/Import.php:784-787 | an optional column is set exactly when it is present and non-empty, with its cell |
| ImportRules.CountryCode | src/Sulu/Bundle/ContactBundle/Import/Import.php:873-880 | an alias maps to its first truthy key; any other code is upper-cased |
| ImportRules.AccountType | src/Sulu/Bundle/ContactBundle/Import/Import.php:887-894 | the first non-zero type whose alias is the text; otherwise TYPE_BASIC |
| ImportRules.DefaultAccountTypes | src/Sulu/Bundle/ContactBundle/Import/Import.php:142-147 | with the default table each alias gives its constant; every other text, the empty alias included, gives TYPE_BASIC |
| ImportRules.SeriesIsLongestPresentRun | src/Sulu/Bundle/ContactBundle/Import/Import.php:398-408 | a numbered series is exactly the longest run of present columns from suffix 1, at most 9, ended by a gap |
| ImportRules.CollectSeries | src/Sulu/Bundle/ContactBundle/Import/Import.php:398-408 | the suffix loop with its break yields the series |
| ImportRules.PresentUpToKeepsEveryPresent | src/Sulu/Bundle/ContactBundle/Import/Import.php:461-467 | the gap-skipping scan keeps the value of every present column up to n, and nothing else |
| ImportRules.CollectPresent | src/Sulu/Bundle/ContactBundle/Import/Import.php:461-467 | the note loop, whose break is commented out, yields the gap-skipping scan |
| ImportRules.AccountNoteKeepsGaps | src/Sulu/Bundle/ContactBundle/Import/Import.php:460-473 | an account has at most one note, and none exactly when no note column is present |
| ImportRules.AccountNoteText | src/Sulu/Bundle/ContactBundle/Import/Import.php:460-473 | with js every present suffix of note1..note9 in rising order, there is no note when js is empty, else one note joining the values of those columns in that order with the literal backslash-n |
| ImportRules.PresentUpToInOrder | src/Sulu/Bundle/ContactBundle/Import/Import.php:461-467 | value k of the gap-skipping scan is the column of the k-th present suffix; the suffixes rise strictly and every present column is among them |
| ImportRules.AddressFor | src/Sulu/Bundle/ContactBundle/Import/Import.php:526-580 | an unknown country raises; an address is attached exactly when a street is present and the city and country are not missing |
| ImportRules.ZipDoesNotDecide | src/Sulu/Bundle/ContactBundle/Import/Import.php:549-552 | changing the postal code never changes whether an address is attached |
| ImportEngine.Importer.AddAddress | src/Sulu/Bundle/ContactBundle/Import/Import.php:526-580 | the decision is the address rule's; the address is persisted only when attached |
| ImportRules.BankStepShape | src/Sulu/Bundle/ContactBundle/Import/Import.php:586-640 | one iteration in closed form: a present iban adds a bank account; a present blz extends the first note or creates one |
| ImportRules.BankFromBanks | src/Sulu/Bundle/ContactBundle/Import/Import.php:586-641 | the bank accounts are the present ibans in suffix order, gaps skipped |
| ImportRules.BankFromFirstNote | src/Sulu/Bundle/ContactBundle/Import/Import.php:620-640 | with a note, every legacy bank text is appended to the first note and no other note changes |
| ImportRules.BankFromNoNote | src/Sulu/Bundle/ContactBundle/Import/Import.php:620-640 | without a note, the first legacy text starts one and the later ones are appended; with no legacy text there stays no note |
| ImportRules.BankFromNewNote | src/Sulu/Bundle/ContactBundle/Import/Import.php:620-640 | on an entity without a note, the first present blz starts the note with its legacy text and the later ones are appended |
| ImportRules.BlzTextEmptyIff | src/Sulu/Bundle/ContactBundle/Import/Import.php:620-640 | no legacy text is contributed exactly when no blz column is present |
| ImportEngine.Importer.AddBankAccounts | src/Sulu/Bundle/ContactBundle/Import/Import.php:583-641 | the loop over suffixes 1..9 yields the bank loop's notes, bank accounts and persist calls |
| ImportRules.PickCategory | src/Sulu/Bundle/ContactBundle/Import/Import.php:493-499 | a cached name gives the cached instance; otherwise a new instance of that name |
| ImportRules.PickTag | src/Sulu/Bundle/ContactBundle/Import/Import.php:510-516 | a cached name gives the cached tag; otherwise a new tag of that name |
| ImportEngine.Importer.AddCategory | src/Sulu/Bundle/ContactBundle/Import/Import.php:491-501 | the chosen category; a new one is persisted and takes a fresh serial; the cache is unchanged |
| ImportEngine.Importer.AddTag | src/Sulu/Bundle/ContactBundle/Import/Import.php:508-518 | the chosen tag; a new one is persisted and takes a fresh serial; the cache is unchanged |
| ImportRules.NewNameTwiceGivesTwoInstances | src/Sulu/Bundle/ContactBundle/Import/Import.php:491-501 | an uncached name looked up twice gives two distinct new instances |
| ImportRules.AccountForKeepsFields | src/Sulu/Bundle/ContactBundle/Import/Import.php:476-479 | the address and bank steps change only the addresses, notes and bank accounts of an account |
| ImportRules.AccountForSeriesFields | src/Sulu/Bundle/ContactBundle/Import/Import.php:398-456 | a complete account's emails, phones, faxes and urls are those the suffix loops set |
| ImportRules.WithSeriesRuns | src/Sulu/Bundle/ContactBundle/Import/Import.php:398-456 | the emails, phones, faxes and urls are the gapless present runs from suffix 1, in order, each with its default type; a present phone_isdn adds one last phone with the isdn type |
| ImportRules.AccountForNote | src/Sulu/Bundle/ContactBundle/Import/Import.php:460-481 | a complete account's note is the joined note columns followed by every legacy bank text; without note columns it is the legacy texts less the leading backslash-n |
| ImportRules.AccountForRest | src/Sulu/Bundle/ContactBundle/Import/Import.php:366-484 | a complete account has its name, no parent, the present ibans as bank accounts, at most one note, and an address exactly when the rule attaches one |
| ImportSteps.RowIndex | src/Sulu/Bundle/ContactBundle/Import/Import.php:355-361 | the index gains the account's handle under the row's id value, or is unchanged without one |
| ImportSteps.AccountRow | src/Sulu/Bundle/ContactBundle/Import/Import.php:348-484 | exactly one account is appended; a missing id column raises; an unnamed row persists nothing; an unknown country raises |
| ImportSteps.UnnamedRowIsIndexed | src/Sulu/Bundle/ContactBundle/Import/Import.php:351-372 | an unnamed row with an id is indexed under the handle of the empty account appended for it, and persists nothing |
| ImportSteps.ProcessedAccountRow | src/Sulu/Bundle/ContactBundle/Import/Import.php:348-484 | a complete row appends the completed account and persists it last |
| ImportEngine.Importer.CreateAccount | src/Sulu/Bundle/ContactBundle/Import/Import.php:348-484 | the result, the new state and the persist calls are those of the account row rule |
| ImportEngine.Importer.CreateNamedAccount | src/Sulu/Bundle/ContactBundle/Import/Import.php:366-484 | after the name check: the result, state and persist calls of the named-row rule |
| ImportEngine.Importer.CompleteAccount | src/Sulu/Bundle/ContactBundle/Import/Import.php:476-483 | an unknown country raises with nothing more persisted; otherwise the account gets its address, notes and bank accounts and is persisted last |
| ImportEngine.Importer.FinishAccount | src/Sulu/Bundle/ContactBundle/Import/Import.php:479-481 | the bank loop's notes and accounts are stored at the handle; its records, then the account, are persisted |
| ImportEngine.Importer.AddAccountSeries | src/Sulu/Bundle/ContactBundle/Import/Import.php:398-473 | the emails, phones, faxes, urls and note of the row, with one persist per value |
| ImportSteps.ContactRow | src/Sulu/Bundle/ContactBundle/Import/Import.php:649-779 | a rejected birthday raises with nothing persisted; an unknown country raises; otherwise the contact is persisted last; the accounts and the index never change |
| ImportSteps.ProcessedContactRow | src/Sulu/Bundle/ContactBundle/Import/Import.php:695-776 | a complete contact row persists the contact last, with a new tag's record first |
| ImportRules.ContactForShape | src/Sulu/Bundle/ContactBundle/Import/Import.php:659-711 | missing names are the empty text; the account is the indexed account of a present contact_parent, none for an unknown key |
| ImportRules.ContactForNotes | src/Sulu/Bundle/ContactBundle/Import/Import.php:765-774 | a contact's notes are the present run from note1, one note per column |
| ImportEngine.Importer.CreateContact | src/Sulu/Bundle/ContactBundle/Import/Import.php:649-779 | the result, the new state and the persist calls are those of the contact row rule |
| ImportEngine.Importer.CompleteContact | src/Sulu/Bundle/ContactBundle/Import/Import.php:713-778 | an unknown country raises with nothing persisted; otherwise the address, the series and the contact are persisted in that order |
| ImportEngine.Importer.AddContactSeries | src/Sulu/Bundle/ContactBundle/Import/Import.php:717-776 | the contact's emails, phones, faxes and notes, each persisted, then the contact |
| ImportSteps.AccountByKey | src/Sulu/Bundle/ContactBundle/Import/Import.php:971-977 | the indexed handle exactly when the key is indexed, else null |
| ImportEngine.Importer.GetAccountByKey | src/Sulu/Bundle/ContactBundle/Import/Import.php:971-977 | some handle exactly when the key is in the index, and then the indexed one |
| ImportSteps.Relinked | src/Sulu/Bundle/ContactBundle/Import/Import.php:795-803 | a present account_parent sets the indexed parent, or null for an unknown key; without the column the account is unchanged |
| ImportSteps.ParentRow | src/Sulu/Bundle/ContactBundle/Import/Import.php:792-804 | only the account at row - 1 is relinked; a missing account there is the fatal call on null; nothing is persisted |
| ImportEngine.Importer.CreateAccountParentRelation | src/Sulu/Bundle/ContactBundle/Import/Import.php:792-804 | the result and the state of the parent row rule, with no entity manager call |
| ImportSteps.AccountRowKeepsHandles | src/Sulu/Bundle/ContactBundle/Import/Import.php:351-360 | after an account row every index entry and every parent names an account in the list |
| ImportSteps.ParentRowKeepsHandles | src/Sulu/Bundle/ContactBundle/Import/Import.php:798-802 | a parent is always taken from the index, so every handle stays valid |
| ImportSteps.CallbackKeepsHandles | src/Sulu/Bundle/ContactBundle/Import/Import.php:266-296 | every pass keeps the handles valid |
| ImportSteps.CallbackShapes | src/Sulu/Bundle/ContactBundle/Import/Import.php:266-296 | only the parent pass can raise the uncaught Error; the account pass appends one account per row |
| ImportSteps.LoopLines | src/Sulu/Bundle/ContactBundle/Import/Import.php:311-323 | lines are handed over in file order without gaps, never past the end |
| ImportSteps.LoopRows | src/Sulu/Bundle/ContactBundle/Import/Import.php:325-335 | the row counter advances exactly on the lines whose callback did not raise |
| ImportSteps.LoopAborts | src/Sulu/Bundle/ContactBundle/Import/Import.php:311-335 | a run aborts exactly when its last step raised the uncaught Error |
| ImportSteps.LoopGoesOnBeforeLast | src/Sulu/Bundle/ContactBundle/Import/Import.php:311-335 | every step but the last neither raised the Error nor reached the limit |
| ImportSteps.LoopStopsEarly | src/Sulu/Bundle/ContactBundle/Import/Import.php:325-329 | the loop stops before the end of the file only on the Error, or at the limit after a row that did not raise |
| ImportSteps.NeverFatalCompletes | src/Sulu/Bundle/ContactBundle/Import/Import.php:311-335 | a callback that never raises the Error never aborts the loop |
| ImportSteps.OneFlushPerRow | src/Sulu/Bundle/ContactBundle/Import/Import.php:320-323 | the flushes are exactly one per row whose callback did not raise |
| ImportSteps.LimitBoundsRows | src/Sulu/Bundle/ContactBundle/Import/Import.php:326-329 | with limit n the rows that did not raise are at most n - row + 1 |
| ImportSteps.LoopKeepsHandles | src/Sulu/Bundle/ContactBundle/Import/Import.php:311-335 | a callback that keeps handles valid keeps them valid over a whole run |
| ImportSteps.LoopAppendsAccounts | src/Sulu/Bundle/ContactBundle/Import/Import.php:311-335 | a callback that appends one account per row appends one per line handed over |
| ImportSteps.CsvLoopSkipsHeader | src/Sulu/Bundle/ContactBundle/Import/Import.php:313-329 | an empty file or a limit of at most 0 does nothing; otherwise line 0 is the header and data starts at row 1 |
| ImportSteps.CsvLoopOrder | src/Sulu/Bundle/ContactBundle/Import/Import.php:304-339 | step k is data line k + 1; the first row is 1; the counter skips raised lines |
| ImportSteps.CsvLoopWithoutLimit | src/Sulu/Bundle/ContactBundle/Import/Import.php:304-339 | without a limit a run that does not abort hands every data line over |
| ImportSteps.CsvLoopLimitAndFlushes | src/Sulu/Bundle/ContactBundle/Import/Import.php:320-329 | with limit n at most n rows succeed (none when n <= 0), and exactly those are flushed |
| ImportEngine.Importer.ProcessCsvLoop | src/Sulu/Bundle/ContactBundle/Import/Import.php:304-339 | the while loop yields the driver loop's end, steps, state and calls |
| ImportEngine.Importer.HandleDataLine | src/Sulu/Bundle/ContactBundle/Import/Import.php:318-323 | a data line is mapped, handed to the callback, and flushed unless it raised |
| ImportSteps.IndexFromLastWins | src/Sulu/Bundle/ContactBundle/Import/Import.php:355-361 | an id is indexed under the handle of the last line that carries it |
| ImportSteps.IndexFromKeeps | src/Sulu/Bundle/ContactBundle/Import/Import.php:355-361 | an id no later line carries keeps its old handle |
| ImportSteps.IndexFromKeys | src/Sulu/Bundle/ContactBundle/Import/Import.php:355-361 | the index holds exactly its old ids and the ids of the lines |
| ImportSteps.AccountPassIndexes | src/Sulu/Bundle/ContactBundle/Import/Import.php:273-278 | without a limit the account pass never stops early and builds the index fold over the lines' ids |
| ImportSteps.ParentPassRelinks | src/Sulu/Bundle/ContactBundle/Import/Import.php:268-272 | without a limit the parent pass relinks the account before each line, leaves the others, and never aborts when every line has an account |
| ImportSteps.CsvLoopNeverAborts | src/Sulu/Bundle/ContactBundle/Import/Import.php:266-296 | the account and contact passes always complete |
| ImportSteps.TwoPassLinksParents | src/Sulu/Bundle/ContactBundle/Import/Import.php:266-282 | without a limit, every data line's account gets the parent its account_parent names in the finished index |
| ImportEngine.Importer.ProcessAccountFile | src/Sulu/Bundle/ContactBundle/Import/Import.php:266-282 | the account pass completes, then the parent pass runs over the same lines |
| ImportEngine.Importer.ProcessContactFile | src/Sulu/Bundle/ContactBundle/Import/Import.php:288-296 | the contact pass's state and calls |
| PhpBuiltins.SearchOr | src/Sulu/Bundle/ContactBundle/Import/Import.php:873-880 | array_search with a truthiness test: the key of the first entry holding the needle when truthy, else the fallback |
| PhpBuiltins.Trim | src/Sulu/Bundle/LocationBundle/Geolocator/Service/NominatimGeolocator.php:133 | the longest middle slice that neither starts nor ends with the character; only end copies are removed |
| PhpBuiltins.AssignContents | src/Sulu/Bundle/ContactBundle/Import/Import.php:839-846 | a key is in the built array exactly when a pair carries it, holding the last such value |
| Nominatim.ResponseFor | src/Sulu/Bundle/LocationBundle/Geolocator/Service/NominatimGeolocator.php:85-146 | a status other than 200 gives the HttpException; any statuscode other than the integer 0 gives the exception carrying info.messages[0], or, exactly when that message is an array, the `\Error` its constructor throws (`MessageRejected`); "No results found." exactly when results is missing or empty; otherwise one location per location entry |
| Nominatim.Locate | src/Sulu/Bundle/LocationBundle/Geolocator/Service/NominatimGeolocator.php:85-146 | the fresh response holds exactly the locations of ResponseFor, or the same error |
| Nominatim.AddAllLocations | src/Sulu/Bundle/LocationBundle/Geolocator/Service/NominatimGeolocator.php:110-138 | the outer foreach appends the locations of every result in order |
| Nominatim.AddResultLocations | src/Sulu/Bundle/LocationBundle/Geolocator/Service/NominatimGeolocator.php:113-137 | the inner foreach appends one location per entry, in order |
| Nominatim.BuildLocation | src/Sulu/Bundle/LocationBundle/Geolocator/Service/NominatimGeolocator.php:114-134 | the setters build the location of the entry |
| Nominatim.CopyFieldsReadsKeys | src/Sulu/Bundle/LocationBundle/Geolocator/Service/NominatimGeolocator.php:116-125 | the setter loop copies street, postalCode, adminArea5 and adminArea1 |
| Nominatim.LocationForFields | src/Sulu/Bundle/LocationBundle/Geolocator/Service/NominatimGeolocator.php:114-134 | each field comes from its key; coordinates only when latLng is set; the id is the entry key; the title comes from the copied fields |
| Nominatim.TitleOf | src/Sulu/Bundle/LocationBundle/Geolocator/Service/NominatimGeolocator.php:133 | the title never starts or ends with a comma |
| Nominatim.ArrayMessageIsRejected | src/Sulu/Bundle/LocationBundle/Geolocator/Service/NominatimGeolocator.php:142-143 | status 200 with statuscode 1 and the message `["x"]` ends with the constructor's `\Error`, not the upstream exception |
| Nominatim.TitleKeepsSpaces | src/Sulu/Bundle/LocationBundle/Geolocator/Service/NominatimGeolocator.php:133 | a location with only a country is titled " , " followed by the country |
| Nominatim.MapLocations | src/Sulu/Bundle/LocationBundle/Geolocator/Service/NominatimGeolocator.php:113-137 | one location per entry, entry j giving location j |
| Nominatim.LocationsOfAppend | src/Sulu/Bundle/LocationBundle/Geolocator/Service/NominatimGeolocator.php:110-137 | the locations of two runs of results concatenate |
| Nominatim.LocationsOfAt | src/Sulu/Bundle/LocationBundle/Geolocator/Service/NominatimGeolocator.php:110-137 | location j of result r sits right after the locations of the results before r |
| Nominatim.IdsRestartPerResult | src/Sulu/Bundle/LocationBundle/Geolocator/Service/NominatimGeolocator.php:113-132 | the ids of every result that is a JSON list restart at 0 |

## Left out

- `execute` (Import.php:191-229) is not modelled. It does the file existence checks,
  the optional database clearing and the timing. The modelled methods it calls are the
  mappings file, the account file and the contact file.
- `clearDatabase` and `clearTable` (Import.php:809-830) are left out: they are raw
  database statements.
- `fopen`, `fgetcsv` and `fclose` are left out. A file is given as its lines. The
  1000-byte line limit of `fgetcsv` is not modelled.
- The `print` of a caught exception is left out, because it is output only.
- The `setChanged`/`setCreated` timestamps of the entities are left out, together with
  the clock.
- The file setters and getters (`setContactFile`, `setAccountFile`, `setMappingsFile`
  and the `get…` accessors) are left out. They only store and return a field.
- `getDefaults` (Import.php:1049-1093) is not modelled as code. Its values are the
  parameter `Env.defaults`.
- `array_search` is modelled with strict comparison. PHP's loose `==` between the
  header strings is not modelled.
- The `\DateTime` parsing of the birthday is the predicate `Env.parsesDate`. The contact
  keeps the raw birthday text; the parsed `\DateTime` object is not modelled.
- The regular expression of the street split is the function `Env.splitStreet`.
- `mb_strtoupper` is modelled on ASCII letters only.
- The message of the missing-id exception (Import.php:357) is left out; the model raises
  `Raised(MissingIdColumn)`. That message is built with the numeric `+`. Under PHP 7 it
  only warns and gives 0, so `new \Exception(0)` is thrown and caught like any other
  row exception. Under PHP 8 the `+` raises a TypeError that the loop's catch does not
  catch; PHP 8 is not modelled.
- Errors thrown by `flush` (database errors) are left out.
- The Nominatim HTTP request, its query parameters, the client type check in the
  constructor and `json_decode` are left out. `ResponseFor` and `Locate` take the status
  and the decoded body.
- The text of the HttpException message is left out. It keeps only the status.
- Nominatim under PHP 8 is left out. Under PHP 8 an offset read into null, a number or a
  boolean still gives null with a warning, as in the model. Only two reads throw a
  TypeError there: `count` of a value that is not an array, and a non-numeric offset read
  into a string.
- Nominatim.At: an offset into a JSON string reads as null. PHP 7 instead gives the
  string's first character, with an "Illegal string offset" warning. So a string-valued
  `info.messages` or `latLng` is not modelled as PHP reads it. An offset into a number,
  a boolean or null reads as null, as in PHP 7.
- The exceptions of NominatimGeolocator.php:140 and :143 are of class
  `PHPUnit\Util\Exception`, imported at line 15. The model keeps only which error it is
  and the message. Its constructor is PHP's own Exception constructor. That constructor
  turns a null, boolean or number message into a string, and it throws an `\Error` for an
  array. The model returns `MessageRejected` for that `\Error`. The text of the `\Error`
  (and the TypeError, under PHP 8) is left out.
- The options table is modelled as `map<string, bool>`. PHP truthiness of a non-boolean
  option value from the mappings file is not modelled.
- A `JFloat` is kept as its JSON text. A float in a title is rendered by that text, not
  by PHP's float-to-string conversion.
- Duplicate keys in a decoded JSON object are read by their first occurrence. The
  decoder is an input.
