# Google Maps scraper: a verified model of its core

This project models the core of a TypeScript service that scrapes business
listings from the Google Places text-search endpoint for every province or
comune of an Italian State → Region → Province → Comune hierarchy. The parts
modelled are:

- **the hierarchical scraping engine** `MapScraperClass`:
  - geographic names normalised to tree keys (`normalizeName`);
  - pruning of the reference hierarchy by region and province allow-lists;
  - the paginated search (`startMaps`);
  - the walk that builds the result tree `res[state][region][province]`, annotating every record with its coordinates (`runMaps`);
  - the two views of the tree: the ten-field export (`cleanExportData`, `getExportByMaps`) and the path read-back for bulk insert (`transformForMongo`);
- **its older module-level twin**, `mapsScraping.ts`:
  - a `startMaps` that never sends the query and can filter the results down to stores;
  - a `runMaps` whose query string accumulates across searches and whose tree keys are normalised while the annotations keep the raw names;
- **the dotted-key codec** `flattenObject` / `unflattenObject` and the database-error classifier `dbErrorParser`;
- **the scan-request parameter normalisation** and the export-request argument defaulting of the scraping controller;
- **the mailer's `{{key}}` template substitution** and its option merge.

Modules:

| file | module | models |
|---|---|---|
| `seqs.dfy`, `wrappers.dfy` | `Seqs`, `Wrappers` | sequence lemmas, `Option` / `Result` |
| `assoc.dfy` | `AssocList` | a JS object as an ordered list of entries: lookup, assignment (replace in place or append), `Object.keys` |
| `json.dfy` | `Js` | JS values, truthiness, property reads, `String(n)`, `for ... in` enumeration, `split` / `join` |
| `names.dfy` | `Names` | `normalizeName` |
| `paging.dfy` | `Paging` | the pagination protocol over a script of endpoint answers |
| `hierarchy.dfy` | `Hierarchy` | region selection and province pruning in `runMaps` |
| `tree.dfy` | `ResultTree` | the result tree, record annotation, `transformForMongo` |
| `clean_export.dfy` | `CleanExport` | `cleanExportData` as a function |
| `map_scraper.dfy` | `MapScraper` | the class `MapScraper`, with its methods proved against the functions above |
| `maps_scraping.dfy` | `MapsScraping` | the module-level twin |
| `flatten.dfy`, `flatten_props.dfy` | `Flattening`, `FlattenProps` | the dotted-key codec and its round trip |
| `db_errors.dfy` | `DbErrors` | `dbErrorParser` |
| `scan_params.dfy` | `ScanParams` | the scraping controller's argument handling |
| `mailer.dfy` | `Mailer` | `loadTemplate` and the `sendMail` option merge |

The network is an oracle: the answers the endpoint gives to the successive
requests of one pagination run. A request past the end of that script fails
like a network error, so every run is finite. The 2000 ms pauses are counted
(`waits`), not taken. Writing files, MongoDB inserts and reading the template
file are left to the caller: their inputs or outputs are parameters or
results.

Two behaviours of the code a reader might not expect:

- `normalizeName` does not fold accents. "Forlì-Cesena" becomes `forl_cesena`, not `forli_cesena` (`Names.AccentsAreNotFolded`).
- `startMaps` pauses after every page, including the last. So three pages take three pauses, not two (`Paging.FetchAllPages`).

## Model

| member | source | states |
|---|---|---|
| Names.NormalizeName | src/lib/scraper/MapScraperClass.ts:95-97 | `normalizeName`: the key is empty exactly when the name is, is no longer than the name, and starts with the lower-cased first letter or with `_` when the name starts with a non-letter. |
| Names.NormalizeShape | src/lib/scraper/MapScraperClass.ts:95-97 | The normalised name holds only `a`-`z` and `_`, never two `_` in a row, is no longer than the input, and starts with the image of the input's first character. |
| Names.NormalizedIsFixed | src/lib/scraper/MapScraperClass.ts:95-97 | A name already in normalised shape is left unchanged. |
| Names.NormalizeIdempotent | src/lib/scraper/MapScraperClass.ts:95-97 | Normalising twice gives the same key as normalising once. |
| Names.NormalizeKeepsLetters | src/lib/scraper/MapScraperClass.ts:95-97 | The ASCII letters of the input come out in order, lower-cased, and are the only characters besides `_`. |
| Names.NormalizeIsClassifyThenSquash | src/lib/scraper/MapScraperClass.ts:95-97 | Every maximal run of non-ASCII-letters, accented letters included, becomes exactly one `_`. |
| Names.NormalizeLettersFirst | src/lib/scraper/MapScraperClass.ts:95-97 | A leading run of ASCII letters is only lower-cased. |
| Names.AccentsAreNotFolded | src/lib/scraper/MapScraperClass.ts:95-97 | "Forlì-Cesena" normalises to `forl_cesena`, a key different from that of "forli_cesena". |
| Paging.PagesRead | src/lib/scraper/MapScraperClass.ts:48-84 | A run reads at most one page per scripted answer. |
| Paging.FetchAllPages | src/lib/scraper/MapScraperClass.ts:48-84 | When every page but the last carries a token, the run reads all pages, returns their results concatenated in order, sends one request per page and pauses after each page, the last included. |
| Paging.FetchStopsAtFailure | src/lib/scraper/MapScraperClass.ts:47-87 | A failure after `k` token-carrying pages ends the run with the results of those `k` pages, after `k + 1` requests. |
| Paging.FetchEndsAtPage | src/lib/scraper/MapScraperClass.ts:75-79 | The first page without a token is the last page read. |
| Paging.PagesReadAfter | src/lib/scraper/MapScraperClass.ts:79 | Pages that carry a token never end the run. |
| Paging.PageStep | src/lib/scraper/MapScraperClass.ts:70-75 | Reading a page appends its results and hands its token to the next request. |
| Paging.RunsOnPage | src/lib/scraper/MapScraperClass.ts:70-81 | At a reachable request answered by a page, the results are appended; with a token the run goes on, without one it ends there with exactly these results and requests. |
| Paging.RunsOnFailure | src/lib/scraper/MapScraperClass.ts:85-87 | A failing reachable request ends the run with the pages read before it. |
| Paging.RequestFollowsToken | src/lib/scraper/MapScraperClass.ts:50-53 | Every request after the first follows a page that carried a non-empty token. |
| MapScraper.ParamsMissing | src/lib/scraper/MapScraperClass.ts:55-61 | The request lacks `query`, `location` and `radius` exactly when there is no query, no radius, and not both of latitude and longitude. |
| MapScraper.RequestTokens | src/lib/scraper/MapScraperClass.ts:50-53 | The first request carries no `pagetoken`; each later one carries the token of the page read just before it. |
| MapScraper.MapScraper.constructor | src/lib/scraper/MapScraperClass.ts:15-34 | The key, base URL and reference hierarchy come from the configuration. |
| MapScraper.MapScraper.StartMaps | src/lib/scraper/MapScraperClass.ts:38-92 | Missing parameters give `[]` with no request and no pause; otherwise the result is the paginated fetch, with one pause per page read and requests built from the token chain. |
| MapScraper.MapScraper.Paginate | src/lib/scraper/MapScraperClass.ts:47-87 | The while loop returns the concatenated pages of the run, with one pause per page read and one request per token received. |
| Hierarchy.NormalizeAll | src/lib/scraper/MapScraperClass.ts:167 | The province allow-list, each name normalised, in order. |
| Hierarchy.CopyProvinces | src/lib/scraper/MapScraperClass.ts:147-154 | The loop copies a region's provinces under their normalised keys, with normalised comune lists. |
| Hierarchy.SelectRegions | src/lib/scraper/MapScraperClass.ts:144-157 | The selection fails exactly when some named region's normalised key is not in the reference data, and the error names such a region; on success every named region's key is selected, and there are no more keys than names. |
| Hierarchy.SelectRegionsGet | src/lib/scraper/MapScraperClass.ts:144-157 | On success, each named region's normalised key holds that region's provinces under their normalised keys, with their uuid and normalised comuni. |
| Hierarchy.SelectRegionsKeys | src/lib/scraper/MapScraperClass.ts:144-157 | On success, every selected key is the normalised name of some named region. |
| Hierarchy.SelectLoop | src/lib/scraper/MapScraperClass.ts:144-157 | The `regioni.forEach` builds the selection of the named regions, and fails at the first name with no region. |
| Hierarchy.PruneLoop | src/lib/scraper/MapScraperClass.ts:162-179 | The deletion loop leaves each selected region with only the provinces on the allow-list. |
| Hierarchy.FilterRegions | src/lib/scraper/MapScraperClass.ts:123-179 | Selection, then pruning only when regions were named, in the source's order. |
| Hierarchy.KeepProvinces | src/lib/scraper/MapScraperClass.ts:164-175 | A province stays exactly when its normalised key is allowed, and with the value it had. |
| Hierarchy.PruneAll | src/lib/scraper/MapScraperClass.ts:162-179 | Every region keeps its key and is pruned. |
| Hierarchy.SelectRegionsFailurePersists | src/lib/scraper/MapScraperClass.ts:144-147 | Once one region name is unknown, the run fails whatever names follow. |
| Hierarchy.NoRegionsSelectsAll | src/lib/scraper/MapScraperClass.ts:123-138 | With no region named, every region of the reference data is selected in order and no province is pruned. |
| Hierarchy.ProvinceFilterKeepsNamed | src/lib/scraper/MapScraperClass.ts:162-177 | With regions named, a province stays exactly when some name of the province list normalises to its key. |
| Hierarchy.EmptyProvinceListEmptiesRegions | src/lib/scraper/MapScraperClass.ts:123-177 | With regions named and an empty province list, every selected region is left with no provinces. |
| Hierarchy.SelectedRegionsCanonical | src/lib/scraper/MapScraperClass.ts:149-153 | Every province key of a selected region is already normalised. |
| Hierarchy.FilterDistinct | src/lib/scraper/MapScraperClass.ts:140-177 | The pruned hierarchy holds no region twice and no province twice within a region. |
| ResultTree.Annotate | src/lib/scraper/MapScraperClass.ts:219-224 | An annotated record has exactly the fields it had plus the coordinate fields written. |
| ResultTree.CoordinatesKeys | src/lib/scraper/MapScraperClass.ts:219-224 | The annotation writes `provinciaID`, `provinciaUUID`, `state` and `regione`, then `city` at comune level, each once. |
| ResultTree.AnnotateFields | src/lib/scraper/MapScraperClass.ts:267-273 | An annotated record holds each coordinate, whatever it held before. |
| ResultTree.AnnotateKeepsOthers | src/lib/scraper/MapScraperClass.ts:219-224 | Every other field of the record is unchanged. |
| ResultTree.AnnotateAll | src/lib/scraper/MapScraperClass.ts:219-227 | The `forEach`/`push` loop gives one annotated record per fetched record, in fetch order. |
| ResultTree.TransformForMongo | src/lib/scraper/MapScraperClass.ts:365-416 | It fails exactly when the state key is missing, the one step outside the try block. |
| ResultTree.TransformMissingPath | src/lib/scraper/MapScraperClass.ts:389-407 | With the state present, a missing region or province gives `[]`. |
| ResultTree.TransformAfterStore | src/lib/scraper/MapScraperClass.ts:278-283 | Right after a comune's records are stored, reading back that path returns exactly those records. |
| MapScraper.MapScraper.WalkComuni | src/lib/scraper/MapScraperClass.ts:241-285 | The comune loop builds the comune walk: the queries it sends, the batches it fetches and the `comuni` node it stores. |
| MapScraper.MapScraper.WalkProvince | src/lib/scraper/MapScraperClass.ts:198-286 | The province body: one search at provincia level, the comune loop at comune level, nothing at any other level. |
| MapScraper.MapScraper.WalkProvinces | src/lib/scraper/MapScraperClass.ts:190-288 | The province loop builds the region walk. |
| MapScraper.MapScraper.WalkRegions | src/lib/scraper/MapScraperClass.ts:181-290 | The region loop builds the state walk. |
| MapScraper.MapScraper.RunMaps | src/lib/scraper/MapScraperClass.ts:112-309 | runMaps equals its specification: skip, or filter, walk and write, with the export crash as its own outcome. |
| MapScraper.RegionWalkStep | src/lib/scraper/MapScraperClass.ts:196-229 | One province pass assigns its node under its key and appends its queries and batches. |
| MapScraper.ComuniWalkStep | src/lib/scraper/MapScraperClass.ts:244-278 | One comune pass stores the annotated results under the comune's name. |
| MapScraper.ComuniWalkGet | src/lib/scraper/MapScraperClass.ts:253-278 | Every listed comune holds the annotated results of its own search, the query being `` `${query}, ${comune}, ${uuid}, ${state}` ``. |
| MapScraper.RegionWalkGet | src/lib/scraper/MapScraperClass.ts:202-229 | Each province of a region holds its own walk's node. |
| MapScraper.StateWalkGet | src/lib/scraper/MapScraperClass.ts:186-190 | Each region holds its own walk's node. |
| MapScraper.StateWalkEntries | src/lib/scraper/MapScraperClass.ts:186-190 | Every region node of the tree comes from one region of the selection. |
| MapScraper.RegionWalkEntries | src/lib/scraper/MapScraperClass.ts:196-202 | Every province node of a region comes from one of its provinces. |
| MapScraper.RunMapsLeaf | src/lib/scraper/MapScraperClass.ts:181-290 | A run stores, under `state / region / province`, the walk of that kept province. |
| MapScraper.ProvinciaLeaf | src/lib/scraper/MapScraperClass.ts:209-229 | At provincia level, the leaf is the search for `` `${query} provincia ${province}` `` with every record annotated by province, uuid, state and region, in fetch order. |
| MapScraper.ComuneLeaf | src/lib/scraper/MapScraperClass.ts:238-278 | At comune level, a province with comuni gets the leaf `{comuni: ...}`, where every comune holds its own annotated search results, `city` included; a province without comuni keeps the `{}` placeholder. |
| MapScraper.ComuniOptionIgnored | src/lib/scraper/MapScraperClass.ts:112-124 | For any array `comuni`, the option has no effect on a run. |
| MapScraper.WalkLeafAt | src/lib/scraper/MapScraperClass.ts:196-202 | Where in the tree the leaf of a given province sits. |
| MapScraper.LeafOrigin | src/lib/scraper/MapScraperClass.ts:196-202 | Which province of the selection a tree leaf comes from. |
| MapScraper.BadProvinceBreaksExport | src/lib/scraper/MapScraperClass.ts:301-318 | A kept province whose leaf has no `comuni` map makes the clean export throw. |
| MapScraper.ExportBreaksAtBadProvince | src/lib/scraper/MapScraperClass.ts:301-318 | The clean export throws only because of such a province. |
| MapScraper.ExportFailsUnlessComuni | src/lib/scraper/MapScraperClass.ts:293-302 | A run that writes a non-mongo result crashes exactly when some kept province has no `comuni` map, e.g. every province at provincia level. |
| CleanExport.Project | src/lib/scraper/MapScraperClass.ts:327-338 | An exported record has exactly the ten listed fields, in order, each read from the record (absent reads `undefined`). |
| CleanExport.ProjectAll | src/lib/scraper/MapScraperClass.ts:327 | The projection keeps the length and order of a comune's array. |
| CleanExport.CleanComuni | src/lib/scraper/MapScraperClass.ts:318-338 | A province's comuni keep their keys. |
| CleanExport.CleanComuniLoop | src/lib/scraper/MapScraperClass.ts:318-339 | The comune loop computes the cleaned comuni. |
| CleanExport.CleanProvincesLoop | src/lib/scraper/MapScraperClass.ts:317-341 | The province loop computes the cleaned region. |
| CleanExport.CleanRegionsLoop | src/lib/scraper/MapScraperClass.ts:316-342 | The region loop computes the cleaned state. |
| MapScraper.MapScraper.CleanExportData | src/lib/scraper/MapScraperClass.ts:312-345 | The state loop computes the cleaned tree. |
| CleanExport.CollectErr | src/lib/scraper/MapScraperClass.ts:316-342 | A level of the export fails exactly when one of its entries fails. |
| CleanExport.CollectFailurePersists | src/lib/scraper/MapScraperClass.ts:316-342 | Once an entry throws, the whole export throws. |
| CleanExport.CollectGet | src/lib/scraper/MapScraperClass.ts:321-324 | A key appears in the output exactly when its entry cleaned to something non-empty, holding that value. |
| CleanExport.CollectKeys | src/lib/scraper/MapScraperClass.ts:321-324 | Every output key is an input key. |
| CleanExport.CleanRegionFails | src/lib/scraper/MapScraperClass.ts:317-318 | A region fails exactly when one of its provinces has no `comuni` map. |
| CleanExport.CleanFails | src/lib/scraper/MapScraperClass.ts:312-345 | cleanExportData throws exactly when some province of the tree has no `comuni` map. |
| CleanExport.CleanOneState | src/lib/scraper/MapScraperClass.ts:315 | A one-state tree fails exactly when that state does. |
| CleanExport.CleanLookup | src/lib/scraper/MapScraperClass.ts:318-338 | Reading `state / region / province` of the export gives the projected comuni of the stored leaf, and nothing for a province with no comuni. |
| MapScraper.MapScraper.GetExportByMaps | src/lib/scraper/MapScraperClass.ts:347-351 | Without `clean` the data comes back as read; with `clean` it fails exactly when a province has no `comuni` map and is otherwise the cleaned tree. |
| MapScraper.MapScraper.GetExportLookup | src/lib/scraper/MapScraperClass.ts:347-351 | The cleaned export read at a path gives the projected comuni stored there. |
| MapsScraping.StoreFilter | src/lib/scraper/mapsScraping.ts:51 | The filter succeeds exactly when every record has a `types` that supports `includes`; otherwise it fails at the first record without one. |
| MapsScraping.StoreFilterMembers | src/lib/scraper/mapsScraping.ts:51 | The filter keeps exactly the records whose `types` include `'store'`. |
| MapsScraping.StoreFilterAppend | src/lib/scraper/mapsScraping.ts:51 | The filter works record by record and keeps the original order. |
| MapsScraping.StoreFilterErrPersists | src/lib/scraper/mapsScraping.ts:51 | A failure in the first records is the failure of the whole filter. |
| MapsScraping.StoreFilterOne | src/lib/scraper/mapsScraping.ts:51 | One record is kept exactly when its `types` include `'store'`. |
| MapsScraping.StartMaps | src/lib/scraper/mapsScraping.ts:13-55 | The result is the paginated fetch, store-filtered when `filter` is truthy, with one pause per page. |
| MapsScraping.Paginate | src/lib/scraper/mapsScraping.ts:21-49 | The while loop returns the concatenated pages of the run, with one pause per page and requests following the token chain. |
| MapsScraping.RequestsOfRun | src/lib/scraper/mapsScraping.ts:23-29 | No request carries the query; each carries key, `` `${latitude},${longitude}` `` and radius, and `pagetoken` only after a token was received. |
| MapsScraping.LevelOf | src/lib/scraper/mapsScraping.ts:118-149 | Which loop a `level` string selects. |
| MapsScraping.SearchComune | src/lib/scraper/mapsScraping.ts:155-185 | One comune pass: the query grows by `` `, ${comune}, ${uuid}, ${state}` `` and the annotated results are stored under the comune's normalised name. |
| MapsScraping.WalkComuni | src/lib/scraper/mapsScraping.ts:149-192 | The comune loop builds the comune walk. |
| MapsScraping.WalkProvince | src/lib/scraper/mapsScraping.ts:108-193 | The province body: one search at provincia level, the comune loop at comune level. |
| MapsScraping.WalkProvinces | src/lib/scraper/mapsScraping.ts:102-195 | The province loop builds the region walk. |
| MapsScraping.WalkRegions | src/lib/scraper/mapsScraping.ts:99-197 | The region loop builds the state walk. |
| MapsScraping.RunMaps | src/lib/scraper/mapsScraping.ts:69-212 | runMaps equals its specification. |
| MapsScraping.ExtendIs | src/lib/scraper/mapsScraping.ts:104-138 | A child's walk is stored under its key; its queries and batches follow the parent's. |
| MapsScraping.ExtendGet | src/lib/scraper/mapsScraping.ts:104-138 | After storing a child, its key reads its node and every other key is unchanged. |
| MapsScraping.ComuniWalkStep | src/lib/scraper/mapsScraping.ts:155-185 | One comune pass extends the walk by that comune's search, under its normalised name. |
| MapsScraping.RegionWalkStep | src/lib/scraper/mapsScraping.ts:107-138 | One province pass extends the walk by that province's walk. |
| MapsScraping.StateWalkStep | src/lib/scraper/mapsScraping.ts:99-104 | One region pass extends the walk by that region's walk. |
| MapsScraping.RunMapsQueries | src/lib/scraper/mapsScraping.ts:121-162 | The query is never reset: the k-th search sends the original query plus all k suffixes so far (`" provincia <name>"` per province, `", <comune>, <uuid>, <state>"` per comune). |
| MapsScraping.StateAccumulate | src/lib/scraper/mapsScraping.ts:121-162 | The queries of the region loop accumulate one suffix per search. |
| MapsScraping.RegionAccumulate | src/lib/scraper/mapsScraping.ts:121-162 | The queries of the province loop accumulate one suffix per search. |
| MapsScraping.ComuniAccumulate | src/lib/scraper/mapsScraping.ts:162 | The queries of the comune loop accumulate one suffix per comune. |
| MapsScraping.ComuniCount | src/lib/scraper/mapsScraping.ts:155-166 | The comune loop makes one search per comune. |
| MapsScraping.StateCount | src/lib/scraper/mapsScraping.ts:99-197 | The walk makes one search per suffix. |
| MapsScraping.ProvinciaSearches | src/lib/scraper/mapsScraping.ts:118-124 | At provincia level each province makes one search. |
| MapsScraping.SearchesCover | src/lib/scraper/mapsScraping.ts:99-197 | The searches of a region follow those of the regions before it. |
| MapsScraping.OtherLevelSearchesNothing | src/lib/scraper/mapsScraping.ts:104-149 | At any level other than provincia and comune, nothing is searched and `res` stays `{}`. |
| MapsScraping.RunMapsResult | src/lib/scraper/mapsScraping.ts:140-185 | `res` is `{[state]: temp}` exactly when some search was made. |
| MapsScraping.ComuniWalkGet | src/lib/scraper/mapsScraping.ts:158-183 | With distinct normalised names, the comune's key holds the annotated results of its own search, tagged with the raw names. |
| MapsScraping.ComuniWalkLater | src/lib/scraper/mapsScraping.ts:158-183 | With distinct normalised names, no later comune overwrites an earlier one's entry. |
| MapsScraping.RegionWalkGet | src/lib/scraper/mapsScraping.ts:109-138 | With distinct normalised names, the province's key holds its own walk's node. |
| MapsScraping.StateWalkGet | src/lib/scraper/mapsScraping.ts:101-104 | With distinct normalised names, the region's key holds its own walk's node. |
| MapsScraping.StateRegionGet | src/lib/scraper/mapsScraping.ts:99-104 | A region's walk starts after the searches of the regions before it. |
| MapsScraping.RegionProvinceGet | src/lib/scraper/mapsScraping.ts:107-138 | A province's walk starts after the searches of the provinces before it. |
| MapsScraping.ProvinciaNode | src/lib/scraper/mapsScraping.ts:124-138 | At provincia level, a province's node is the annotated results of its one search. |
| MapsScraping.ComuneNode | src/lib/scraper/mapsScraping.ts:150-183 | At comune level, a province's node is `{comuni: ...}` and each comune holds the results of its own search. |
| MapsScraping.ProvinciaLeaf | src/lib/scraper/mapsScraping.ts:118-140 | At provincia level the tree holds, under the normalised region and province keys, the results of that province's search, tagged with the raw names. |
| MapsScraping.ComuneLeaf | src/lib/scraper/mapsScraping.ts:149-185 | At comune level the tree holds, under the normalised keys, each comune's results, tagged with the raw names and the comune as `city`. |
| Js.Member | src/lib/web/utilities.ts:122-123 | A property read throws exactly on `undefined` and `null`. |
| Js.ForInEntry | src/lib/web/utilities.ts:23 | `for ... in` gives an object's own entries, an array's elements under `"0"`, `"1"`, …, and a string's characters. |
| Js.NatToString | src/lib/web/utilities.ts:62-65 | `String(i)` is a non-empty digit string with no leading zero. |
| Js.DigitsValueOfNatToString | src/lib/web/utilities.ts:59-65 | `Number(String(i)) == i`. |
| Js.Split | src/lib/web/utilities.ts:51 | `split` gives at least one piece. |
| Js.SplitPieces | src/lib/web/utilities.ts:51 | No piece holds the separator. |
| Js.JoinSplit | src/lib/web/utilities.ts:51 | Joining the pieces with the separator gives back the text. |
| Js.SplitJoin | src/lib/web/utilities.ts:24-51 | Splitting a join of separator-free pieces gives back the pieces. |
| Flattening.ConvertObjectId | src/lib/web/utilities.ts:80-85 | The result is never an ObjectId. |
| Flattening.JoinInjective | src/lib/web/utilities.ts:27-32 | Distinct dot-free paths get distinct dotted keys. |
| Flattening.Flattener.constructor | src/lib/web/utilities.ts:20 | The shared result starts empty. |
| Flattening.Flattener.Recurse | src/lib/web/utilities.ts:22-35 | `recurse(current, path)` writes every leaf below `current` under `path`, in enumeration order. |
| Flattening.Flattener.Visit | src/lib/web/utilities.ts:23-34 | One pass of the `for ... in` loop writes the leaves below that key. |
| Flattening.FlattenObject | src/lib/web/utilities.ts:19-39 | flattenObject computes the flattening. |
| Flattening.Insert | src/lib/web/utilities.ts:54-67 | One dotted key's insertion keeps an object an object and an array an array, and throws on a primitive. At the last key, an object gets the property, or throws on a numeric key (`push` on an object); an array gets the value pushed on a numeric key. |
| Flattening.UnflattenObject | src/lib/web/utilities.ts:47-72 | unflattenObject inserts the entries in key order, each by its dotted key. |
| Flattening.UnflattenStops | src/lib/web/utilities.ts:50-69 | An error thrown while inserting an entry ends the whole call. |
| FlattenProps.FlattenLeaves | src/lib/web/utilities.ts:25-33 | No value of the result is an ObjectId; with nothing skipped, none is an object or array. |
| FlattenProps.FlattenDistinct | src/lib/web/utilities.ts:27-32 | The result holds no key twice. |
| FlattenProps.FlattenIsJoined | src/lib/web/utilities.ts:19-39 | For a good object, the result has one entry per leaf, keyed by its dotted path, in walk order. |
| FlattenProps.ShapeAll | src/lib/web/utilities.ts:22-35 | The leaf paths of a good object are distinct and dot-free; a non-empty one has leaves. |
| FlattenProps.ForInDistinct | src/lib/web/utilities.ts:23 | A good object or array enumerates no key twice. |
| FlattenProps.IndexKey | src/lib/web/utilities.ts:59-62 | An array index key is numeric and dot-free, and reads back as the index. |
| FlattenProps.UnflattenJoined | src/lib/web/utilities.ts:50-51 | Splitting each dotted key gives back its path. |
| FlattenProps.ObjFirst | src/lib/web/utilities.ts:65-66 | The first path below a new key creates the container its next segment calls for. |
| FlattenProps.ObjChild | src/lib/web/utilities.ts:65-66 | A path below an existing container reuses it. |
| FlattenProps.ArrFirst | src/lib/web/utilities.ts:59-66 | Below the next array index the first path creates that element. |
| FlattenProps.ArrChild | src/lib/web/utilities.ts:59-66 | A path below the last array element reuses that element. |
| FlattenProps.InsertSegsKind | src/lib/web/utilities.ts:54-67 | Inserting into an object gives an object, into an array an array. |
| FlattenProps.BuildAll | src/lib/web/utilities.ts:50-69 | Inserting all the leaves of a good object or array rebuilds it. |
| FlattenProps.RoundTrip | src/lib/web/utilities.ts:12-72 | unflattenObject(flattenObject(o)) == o for a good object: dot-free, non-numeric keys, no empty containers, no ObjectIds, nothing skipped. |
| DbErrors.MessageOf | src/lib/web/utilities.ts:122-123 | `e.message` of an entry that does not throw: an object's own `message` property, or `undefined` when it has none; `undefined` for any other value. |
| DbErrors.Messages | src/lib/web/utilities.ts:119-124 | The messages in key order, or none when one read throws. |
| DbErrors.CollectMessages | src/lib/web/utilities.ts:119-124 | The `for ... in` loop collects those messages. |
| DbErrors.Parse | src/lib/web/utilities.ts:106-133 | Code 11000 gives `{400, 'Resource already exists'}` first, then `CastError` gives `{404, 'Resource not found'}`, then a `ValidationError` with `errors` gives the messages joined by `', '`, or, when reading one entry's `message` throws, the error itself through the `catch`; otherwise the error comes back unchanged. |
| DbErrors.DbErrorParser | src/lib/web/utilities.ts:106-133 | dbErrorParser computes that classification. |
| DbErrors.EmptyErrorsGiveEmptyText | src/lib/web/utilities.ts:118-125 | An empty `errors` object gives the empty string. |
| DbErrors.OneMessage | src/lib/web/utilities.ts:118-125 | One validation message comes back as the bare text. |
| ScanParams.ListOf | src/lib/web/router/v1/controller/scraping.ts:33-35 | An empty value gives `[]`; otherwise the pieces of the first element, which join back to it with no comma inside. |
| ScanParams.Required | src/lib/web/router/v1/controller/scraping.ts:33-34 | An absent `regioni` or `province` throws. |
| ScanParams.Optional | src/lib/web/router/v1/controller/scraping.ts:35 | An absent `comuni` gives `[]`. |
| ScanParams.ScanParams | src/lib/web/router/v1/controller/scraping.ts:31-35 | The handler throws exactly when `regioni` or `province` is absent; otherwise the three lists replace those keys and every other query field is copied unchanged. |
| ScanParams.FirstOccurrenceOnly | src/lib/web/router/v1/controller/scraping.ts:33-35 | Occurrences after the first are ignored. |
| ScanParams.SingleOccurrenceFirstChar | src/lib/web/router/v1/controller/scraping.ts:33 | Given a raw, unvalidated single string value, the handler indexes it as a string, so only its first character is split. |
| ScanParams.ExtractionArgs | src/lib/web/router/v1/controller/scraping.ts:43-45 | `filename` or `''` when absent, and `clean` true exactly when present and non-empty. |
| ScanParams.CleanFalseIsTrue | src/lib/web/router/v1/controller/scraping.ts:45 | Given the raw, unvalidated string `"false"` as `clean`, the handler still asks for the clean export. |
| Mailer.IndexOf | src/lib/utils/mailer.ts:39 | `indexOf` finds the first occurrence at or after the start, or reports none. |
| Mailer.ReplaceFirst | src/lib/utils/mailer.ts:39 | `replace` with a string pattern replaces only the first occurrence, leaving the text unchanged when there is none. |
| Mailer.Expand | src/lib/utils/mailer.ts:39 | The `$` patterns of a replacement: a replacement without `$` is inserted as it is, and `$&` inserts the matched text. |
| Mailer.Placeholder | src/lib/utils/mailer.ts:39 | `` `{{${k}}}` `` is four characters longer than the key. |
| Mailer.LoadTemplate | src/lib/utils/mailer.ts:34-43 | loadTemplate fills the read text entry by entry when the data is truthy. |
| Mailer.EmptyDataUnchanged | src/lib/utils/mailer.ts:37-41 | With no data entries the template comes back as read. |
| Mailer.SecondPlaceholderKept | src/lib/utils/mailer.ts:39 | A second placeholder of the same key survives. |
| Mailer.PlaceholdersApart | src/lib/utils/mailer.ts:39 | Placeholders of different brace-free keys never overlap. |
| Mailer.SamePlaceholder | src/lib/utils/mailer.ts:39 | Two brace-free placeholders at the same place are the same. |
| Mailer.ReplaceKeepsOther | src/lib/utils/mailer.ts:39 | Filling one key leaves a placeholder of another key in place. |
| Mailer.AbsentKeyKept | src/lib/utils/mailer.ts:37-41 | A placeholder whose key is not in the data stays. |
| Mailer.Sequential | src/lib/utils/mailer.ts:38-40 | An example: text inserted by one entry (`{{a}}` filled with `{{b}}`) is matched by a later entry's placeholder (`b` filled with `x`). |
| Mailer.DollarAmpersandKeepsPlaceholder | src/lib/utils/mailer.ts:39 | For every template and key, the value `$&` puts the placeholder itself back, leaving the template unchanged. |
| Mailer.MergeOptions | src/lib/utils/mailer.ts:47 | The merged options have exactly the keys of the defaults and of the caller's options. |
| Mailer.MergeOverrides | src/lib/utils/mailer.ts:47 | Each option reads the caller's value when given, the default otherwise. |
| Mailer.DefaultFrom | src/lib/utils/mailer.ts:12-14 | The default `from` survives exactly when the caller gives none. |

## Left out

- Network, files and the database are not modelled:
  - the endpoint's answers are a script given as a parameter;
  - reading the export file in `getExportByMaps` and the template file in `loadTemplate` are parameters;
  - `writeResultOnJsonFile`, `insertData`, `mongoose.connect`/`disconnect` and the nodemailer transport are not modelled. `sendMail` is modelled only as its option merge.
- The 2000 ms pauses are counted, not timed. Logging is not modelled.
- MapScraper.MapScraper.RunMaps: the provincia-level mongo branch is a precondition, not modelled. It calls `transformForMongo` without a state key and fails outside its try block (MapScraperClass.ts:233, mapsScraping.ts:144). The same holds for `MapsScraping.RunMaps`.
- MapsScraping.StartMaps: the twin checks no parameters. The model builds every request from the same location and radius, and treats the returned array as a value rather than an alias of the accumulator.
- MapScraper.ComuniWalkGet, MapScraper.ComuneLeaf: the endpoint is a function of the query string, so repeated identical queries are assumed to get identical answers. Two comuni that normalise to the same key send the same query twice, and the later answer overwrites the earlier one; a real endpoint could answer the two calls differently.
- MapScraper.ComuniOptionIgnored: `comuni` is modelled as an array. The parameter pattern `comuni: []` iterates the value before the body runs, so a missing or non-iterable `comuni` throws a TypeError even with `skipFinding`; the only caller (controller/scraping.ts:35) always passes an array.
- MapsScraping.ComuniWalkGet and the other twin lookup lemmas assume distinct normalised names. When two names collide, the later search overwrites the earlier one; that case is only covered by the step lemmas.
- `!isNaN(Number(...))` is modelled only on digit strings: a segment is numeric exactly when it is made of decimal digits, the empty string included (`Number("")` is 0). Segments such as `" 1"`, `"1e3"` or `"0x1"` are treated as non-numeric, where JavaScript treats them as numeric; for such a last segment `Flattening.Insert` assigns a property on an object (the code throws on `push`) and gives `Unmodelled` on an array (the code pushes).
- JS numbers are integers; floating point is not modelled.
- Integer-like object keys, which JavaScript enumerates first, are not modelled. Objects enumerate in insertion order.
- `Object.prototype` and inherited properties are not modelled, including an error's inherited `name`. Of the strict-mode assignment errors, only a property written on a primitive is modelled (`Flattening.Insert` gives `TypeError`); writes the model does not follow give `Unmodelled`.
- Array holes and extra array properties are not modelled.
- ObjectId is an opaque leaf with no enumerable keys.
- Flattening.UnflattenObject: the `current` pointer into the result is modelled as a value update of the result tree, not as aliasing. The input object is not shared with the result.
- FlattenProps.RoundTrip: the round trip holds only for good objects. Keys that contain dots, numeric object keys, empty nested containers, ObjectIds or skipped keys break it, as in the code.
- ScanParams.ScanParams: the handlers are modelled on raw, unvalidated query values, each a string or an array of strings. The route's schema validation and type coercion are not modelled: it declares `regioni`, `province` and `comuni` as arrays and `clean` as a boolean (routers/scraping.ts:66-77, :117), so with the default coercion a single string reaches the handler as a one-element array and `"false"` as `false`. `ScanParams.SingleOccurrenceFirstChar` and `ScanParams.CleanFalseIsTrue` describe the handler alone.
- Js.Member: only named property reads are modelled; `length` and index reads are left out.
- Mailer.ReplaceFirst: a function-valued replacement is not modelled. A non-string value is converted with `String(v)` only for the JSON-like values of the model.
- Mailer.AbsentKeyKept: requires keys without braces. With braces, placeholders can overlap and a replacement can destroy another one.
- Mailer.MergeOverrides: requires distinct keys, which every object literal has.
- The HTTP plumbing around the two controller handlers is not modelled: request and reply objects, and `JSON.stringify` of the result.
