# GTFS viewer core in Dafny

A model of the deterministic core of the GTFS-Realtime viewer (a Flask
backend in Python and a browser front end in JavaScript), with proofs of
what each part promises.

The model covers:

- **The decoded feed** (`Feed`). It follows `gtfs-realtime.proto`
  (FeedMessage, FeedEntity, TripUpdate/StopTimeUpdate, VehiclePosition,
  Alert). Every optional field is an `Option`, so each `HasField` test in
  the source is a `Some?` test here. The enum names and wire numbers are
  pure functions.
- **The three record normalisers**, each modelled as written:
  - `AppNormalizer` is app.py. Its delay takes the departure's value first.
    Its translation fold prefers French. In an informed entity, the trip's
    route overrides the entity's route. It also joins the route table.
  - `DataRoutes` is app/api/data_routes.py. A missing feed gives `[]`. The
    header is the first translation that has text. An informed entity gets
    no route type and no trip route.
  - `GtfsRtReader` is app/core/gtfs_rt_reader.py. Its delay takes the
    arrival event first. A missing route id defaults to `N/A`. A
    missing trip or stop id reads as `''`. It fills four columns in lockstep. It also has the description truncation rule.
  - Lemmas relate the copies where they agree and show concrete inputs
    where they differ.
- **The statistics** over those records (`AppStats`, the statistics block
  of `DataRoutes`, with the generic folds in `Aggregate`):
  - count, mean, min and max of delays;
  - speeds, keeping only those present;
  - per-status histograms;
  - counts of distinct ids.
- **The source configuration.** `ConfigManager` is the state machine of
  config_manager.py: a class holding the list of sources and the current
  index. Request validation and default filling come in two variants:
  - `ConfigRoutes`, for the blueprint in config_routes.py;
  - `AppConfigApi`, for the handlers of app.py, which change the
    configuration themselves.
- **Browser decisions.**
  - `Dashboard` (main_new.js): marker classes, status labels and
    alert-card classes. It also has the vehicle filter and the marker
    list, and the sorted route-filter list with the selection restore.
  - `ConfigPage` (config.js): form validation, request payloads, and the
    line shown for each URL test result.

Boundaries of the model:

- The outcome of `save_config`, the routes CSV table and HTTP fetches are
  parameters.
- A timestamp rendered by `strftime` is the abstract value
  `LocalTime(epoch)`.
- JSON values are `Json.Json`. Its truthiness is the one both Python and
  JavaScript give to null, booleans, numbers and strings.

## Model

| member | source | states |
|---|---|---|
| AppNormalizer.StopRecord | app.py:128-156 | trip and route ids from the trip, stop id from the update, each 'Unknown' when unset; the delay is the departure's delay when it is set, else the arrival's when that is set, else 0; an arrival/departure time, the rendering of that event's `time`, exactly when the event sets it; delay in minutes = seconds / 60 |
| AppNormalizer.ProcessTripUpdates | app.py:120-158 | no feed gives None; otherwise the records are `TripRecords` of the entities: each trip-update entity's stop-time updates in order, nothing from other entities |
| AppNormalizer.AppendStopRecords | app.py:131-156 | the inner loop appends exactly the entity's block of records after the ones already collected |
| AppNormalizer.TripRecordsCount | app.py:125-156 | one record per stop-time update over all trip-update entities |
| AppNormalizer.TripRecordsAppend | app.py:125-156 | records of concatenated entity lists are the concatenated records, so each entity's block stays contiguous and in feed order |
| AppNormalizer.TripRecordOrigin | app.py:131-156 | every record is `StopRecord` of some trip update's stop-time update |
| AppNormalizer.CellValue | app.py:221-224 | a column's value as pandas read it (text or number), or '' when the column is missing or the cell is NaN |
| AppNormalizer.LoadRoutesData | app.py:210-229 | an absent table, or one with a row lacking `route_id` (which raises in the source), gives the empty table; otherwise the per-row table built in row order |
| AppNormalizer.RouteTableKeys | app.py:219-225 | a route id is in the table exactly when some row carries it |
| AppNormalizer.LastRowWins | app.py:219-225 | the entry for an id is built from the last row that carries that id |
| AppNormalizer.VehicleRecordOf | app.py:172-205 | ids default to 'Unknown'; latitude, longitude, bearing and speed are the proto values, None exactly when unset, never 0; status is the enum name, or 'UNKNOWN' exactly when unset; the timestamp is the rendering of the proto timestamp, None exactly when unset; the four route fields come from the table entry of the text route id, or are all '' when there is none |
| AppNormalizer.NumericRouteIdsNeverMatch | app.py:189-204 | when every `route_id` cell was read as a number, no vehicle's text route id finds a row, so the four route fields are all '' |
| AppNormalizer.ProcessVehiclePositions | app.py:161-207 | no feed gives None; otherwise one `VehicleRecordOf` per vehicle entity, in order |
| AppNormalizer.VehicleRecordsPerEntity | app.py:169-205 | exactly one record per vehicle entity, the k-th record built from the k-th such entity |
| AppNormalizer.FoldTranslations | app.py:242-253 | the loop's result is the left fold over the translations that takes a French text, or any text when the current one is empty; '' without a text block |
| AppNormalizer.FrFoldLastFrenchWins | app.py:246-248 | a French translation with text and no later French one decides the result |
| AppNormalizer.FrFoldWithoutFrench | app.py:246-248 | without any French translation the fold keeps the first non-empty text |
| AppNormalizer.FirstNonEmptyAppend | app.py:246-248 | appending a translation changes the first non-empty text only when there was none |
| AppNormalizer.FrenchPreferredExample | app.py:246-248 | an English "Delay" followed by a French "Retard" gives "Retard" |
| AppNormalizer.LastSetIsLastIndex | app.py:263-269 | the last set value of a sequence is None exactly when no value is set, and otherwise the value of the last index that sets one |
| AppNormalizer.ActiveTimes | app.py:260-269 | the loop leaves start and end at `ActiveStart`/`ActiveEnd` of the periods |
| AppNormalizer.ActiveStartIsLastStart | app.py:264-266 | the start time comes from the last period that sets `start`, and is None when none does |
| AppNormalizer.ActiveEndIsLastEnd | app.py:264-269 | the end time comes from the last period that sets `end`, and is None when none does |
| AppNormalizer.EntityInfo | app.py:273-295 | a key exactly for each set field; the trip's `route_id` overwrites the entity's `route_id`; `trip_id` only when the trip sets it |
| AppNormalizer.AffectedEntities | app.py:272-295 | one `EntityInfo` per informed entity, in order |
| AppNormalizer.ProcessAlerts | app.py:232-307 | no feed gives None; otherwise one record per alert entity (texts, cause/effect names with their UNKNOWN defaults, time range, entities) |
| AppNormalizer.AlertRecordsPerEntity | app.py:237-305 | exactly one record per alert entity, the k-th built from the k-th such entity |
| AppStats.GetTripUpdateStats | app.py:332-344 | None exactly for absent or empty input; otherwise count = number of records, min ≤ mean ≤ max, every delay between min and max, and both extremes attained |
| AppStats.SpeedOrigin | app.py:352 | every listed speed is the speed of some vehicle |
| AppStats.SpeedListed | app.py:352 | every present speed is listed |
| AppStats.SpeedsEmpty | app.py:352 | the speed list is empty exactly when no vehicle has a speed |
| AppStats.SpeedExtremes | app.py:364-366 | min and max of the speeds bound every present speed and are attained |
| AppStats.CountStatuses | app.py:354-360 | the counting loop yields the histogram of the statuses |
| AppStats.GetVehicleStats | app.py:347-368 | None exactly for absent or empty input; count = number of records; status counts are the histogram (a key exactly for each status seen); the speed figures are Some exactly when some vehicle has a speed, with min ≤ mean ≤ max, bounding every speed, extremes attained |
| AppStats.StatusCountsTotal | app.py:354-360 | the status counts sum to the number of vehicle records |
| Aggregate.MeanBetweenMinAndMax | app.py:340-342 | the mean of a non-empty list lies between its minimum and maximum |
| Aggregate.Histogram | app.py:354-360 | a key exactly for each value seen, mapped to its number of occurrences |
| Aggregate.HistogramTotal | app.py:354-360 | the counts of a histogram, summed over its keys, equal the list's length |
| Aggregate.DistinctCountBounds | app/api/data_routes.py:366-377 | the number of distinct values is at most the length, and at least 1 for a non-empty list |
| DataRoutes.ProcessTripUpdates | app/api/data_routes.py:75-124 | no feed gives [] (not None); otherwise the same records as app.py, with the same departure-first delay and 'Unknown' defaults |
| DataRoutes.AppendStopRecords | app/api/data_routes.py:95-122 | the inner loop appends exactly the entity's block of records |
| DataRoutes.VehicleRecordOf | app/api/data_routes.py:143-172 | vehicle, trip and route ids are the proto values, each 'Unknown' when its descriptor or field is unset; latitude, longitude, bearing and speed are the proto values, None exactly when unset; status is the enum name, or 'UNKNOWN' exactly when unset; the timestamp is the rendering of the proto timestamp, None exactly when unset |
| DataRoutes.VehicleRecordIsAppRecordWithoutRoute | app/api/data_routes.py:143-172 | the record equals app.py's record with the four route fields dropped |
| DataRoutes.ProcessVehiclePositions | app/api/data_routes.py:127-174 | no feed gives []; otherwise one record per vehicle entity, in order |
| DataRoutes.VehicleRecordsPerEntity | app/api/data_routes.py:141-172 | exactly one record per vehicle entity, the k-th from the k-th such entity |
| DataRoutes.EntityInfo | app/api/data_routes.py:218-229 | agency, route, stop and trip id keys only when set; never `route_type`, never the trip's route |
| DataRoutes.EntityInfoAgainstApp | app/api/data_routes.py:218-229 | when the trip sets no route, the entity equals app.py's entity without `route_type` |
| DataRoutes.AffectedEntities | app/api/data_routes.py:217-229 | one `EntityInfo` per informed entity, in order |
| DataRoutes.ProcessAlerts | app/api/data_routes.py:177-239 | no feed gives []; otherwise one record per alert entity, built from the first translation with text for header and description, with no time range |
| DataRoutes.AlertRecordsPerEntity | app/api/data_routes.py:191-237 | exactly one record per alert entity, the k-th from the k-th such entity |
| DataRoutes.TripUpdateStatistics | app/api/data_routes.py:353-369 | None (an empty dict) exactly for no records; min ≤ average ≤ max bounding every delay; trips and routes are the numbers of distinct trip and route ids, between 1 and the record count |
| DataRoutes.VehicleStatistics | app/api/data_routes.py:371-380 | None exactly for no records; vehicles is the number of distinct vehicle ids; a status key exactly for each status seen, mapped to its count |
| DataRoutes.AllDataStatistics | app/api/data_routes.py:392-397 | the bundle of both statistics, and an alert count equal to the number of alerts |
| DataRoutes.StatusCountsTotal | app/api/data_routes.py:379-380 | the status counts sum to the number of vehicle records |
| GtfsRtReader.AppendStops | app/core/gtfs_rt_reader.py:92-100 | the inner loop extends the four lists in lockstep by one entry per stop-time update |
| GtfsRtReader.AnalyzeTripUpdates | app/core/gtfs_rt_reader.py:71-131 | no feed gives None; None also when no entry was collected; otherwise the four columns hold the entries in lockstep, and minutes × 60 = seconds |
| GtfsRtReader.EntriesCount | app/core/gtfs_rt_reader.py:86-100 | one entry per stop-time update, as many as app.py's records |
| GtfsRtReader.DelayRulesAgreeOnOneEvent | app/core/gtfs_rt_reader.py:93-94 | with at most one of arrival and departure present, the arrival-first rule and app.py's departure-first rule pick the same delay |
| GtfsRtReader.DelayRulesDifferOnBothEvents | app/core/gtfs_rt_reader.py:93-94 | with both events present the rules differ: the arrival's delay is used even when only the departure sets one |
| GtfsRtReader.VehicleRowOf | app/core/gtfs_rt_reader.py:149-163 | ids default to 'N/A'; latitude/longitude present exactly when a position is; bearing/speed need their own field; status is the raw number or None |
| GtfsRtReader.AnalyzeVehiclePositions | app/core/gtfs_rt_reader.py:134-192 | no feed or no vehicle gives None; otherwise one row per vehicle entity |
| GtfsRtReader.VehicleRowsPerEntity | app/core/gtfs_rt_reader.py:146-165 | exactly one row per vehicle entity, the k-th from the k-th such entity |
| GtfsRtReader.CoordinatesAgainstApp | app/core/gtfs_rt_reader.py:157-160 | the coordinates agree with app.py's whenever app.py has them; an unset latitude reads as 0 here but is None in app.py; speed and bearing always agree |
| GtfsRtReader.FirstText | app/core/gtfs_rt_reader.py:226-231 | the loop with `break` returns the first translation that has text, or '' |
| GtfsRtReader.FirstTextIsFirst | app/core/gtfs_rt_reader.py:228-231 | the first translation with text decides the result |
| GtfsRtReader.FirstTextNone | app/core/gtfs_rt_reader.py:226-231 | without any text the result is '' |
| GtfsRtReader.FirstTextMatchesAppFold | app/core/gtfs_rt_reader.py:228-231 | when every text is non-empty and none is French, this rule and app.py's fold agree |
| GtfsRtReader.FirstTextDiffersFromAppFold | app/core/gtfs_rt_reader.py:228-231 | an English text followed by a French one: this rule keeps the English one, app.py the French one |
| GtfsRtReader.EntityInfo | app/core/gtfs_rt_reader.py:214-223 | agency/route/stop keys when set; `trip_id` whenever a trip is present, '' when the trip sets none |
| GtfsRtReader.AffectedEntities | app/core/gtfs_rt_reader.py:212-223 | one `EntityInfo` per informed entity, in order |
| GtfsRtReader.AnalyzeAlerts | app/core/gtfs_rt_reader.py:195-268 | no feed or no alert gives None; otherwise one row per alert entity with the raw cause/effect numbers or None |
| GtfsRtReader.AlertRowsPerEntity | app/core/gtfs_rt_reader.py:207-250 | exactly one row per alert entity, the k-th from the k-th such entity |
| GtfsRtReader.Truncate | app/core/gtfs_rt_reader.py:262 | a description of at most 100 characters is unchanged; a longer one becomes its first 100 characters followed by '...' |
| GtfsRtReader.TruncateIdempotent | app/core/gtfs_rt_reader.py:262 | truncating twice is truncating once |
| ConfigManager.Default | app/utils/config_manager.py:11-23 | exactly one source, named 'Local Files', with `use_local_files` true, selected at index 0 |
| ConfigManager.Add | app/utils/config_manager.py:67-79 | append at the end; earlier sources and the current index unchanged; a failed save changes nothing |
| ConfigManager.Update | app/utils/config_manager.py:82-97 | in range, only the given slot is replaced; out of range, false and no change |
| ConfigManager.ClampCurrent | app/utils/config_manager.py:114-115 | the index is pulled back to max(0, n-1) only when it no longer fits, and otherwise kept |
| ConfigManager.Remove | app/utils/config_manager.py:100-117 | in range, exactly that source is deleted and the others keep their order; the index is clamped; out of range, false and no change |
| ConfigManager.SetCurrent | app/utils/config_manager.py:120-134 | the index is set only when in range; otherwise false and no change |
| ConfigManager.CurrentSource | app/utils/config_manager.py:137-147 | the selected source exactly when the index is in range, None otherwise |
| ConfigManager.OperationsKeepCurrentInRange | app/utils/config_manager.py:77-134 | an in-range index stays in range after every operation, given that sources remain |
| ConfigManager.RemoveKeepsIndexNotSource | app/utils/config_manager.py:114-115 | removing an earlier source keeps the index, which then names a different source |
| ConfigManager.RemoveLastSource | app/utils/config_manager.py:110-115 | removing the only source leaves an empty list and index 0 |
| ConfigManager.ConfigStore.constructor | app/utils/config_manager.py:11-23 | a fresh store holds the default configuration |
| ConfigManager.ConfigStore.AddSource | app/utils/config_manager.py:67-79 | the result and the new state are those of `Add` |
| ConfigManager.ConfigStore.UpdateSource | app/utils/config_manager.py:82-97 | the result and the new state are those of `Update` |
| ConfigManager.ConfigStore.RemoveSource | app/utils/config_manager.py:100-117 | the result and the new state are those of `Remove` |
| ConfigManager.ConfigStore.SetCurrentSource | app/utils/config_manager.py:120-134 | the result and the new state are those of `SetCurrent` |
| ConfigManager.ConfigStore.GetCurrentSource | app/utils/config_manager.py:137-147 | the selected source exactly when the index is in range |
| ConfigRoutes.DefaultsKeepPresent | app/api/config_routes.py:59-61 | a key already in the source keeps its value |
| ConfigRoutes.DefaultsFillMissing | app/api/config_routes.py:59-61 | a missing default key gets the default value |
| ConfigRoutes.DefaultsOnlyKnownKeys | app/api/config_routes.py:59-61 | every key of the filled source was in the source or is a default key |
| ConfigRoutes.DefaultsOnCompleteSource | app/api/config_routes.py:59-61 | a source that has every default key is left unchanged |
| ConfigRoutes.WithDefaultsIdempotent | app/api/config_routes.py:59-61 | filling defaults twice is filling them once |
| ConfigRoutes.ApplyDefaults | app/api/config_routes.py:51-61 | the loop over the defaults yields `WithDefaults` of the source |
| ConfigRoutes.FilledSourceHasAllKeys | app/api/config_routes.py:51-61 | the filled source has `active`, the three URLs and `use_local_files`, and `active`/`use_local_files` are true when they were missing |
| ConfigRoutes.ValidateSource | app/api/config_routes.py:42-48 | rejects with 400 exactly the sources without `name` |
| ConfigRoutes.ValidateRemove | app/api/config_routes.py:96-106 | index out of range: 400 'Invalid source index'; at most one source: 400 'Cannot remove the last source'; accepts otherwise |
| ConfigRoutes.ValidateIndex | app/api/config_routes.py:120-124 | rejects with 400 exactly the out-of-range indices |
| ConfigRoutes.RemoveRouteKeepsASource | app/api/config_routes.py:96-108 | a removal this route allows never empties the list, and keeps an in-range index in range |
| ConfigRoutes.AddSourceRoute | app/api/config_routes.py:34-65 | a source without `name` is rejected with no change; otherwise the defaults are filled and added, and the reply is the filled source, or 500 when saving fails |
| ConfigRoutes.UpdateSourceRoute | app/api/config_routes.py:68-86 | a source without `name` is rejected with no change; otherwise the state is `Update`'s, with reply 500 when the index is invalid or saving fails |
| ConfigRoutes.RemoveSourceRoute | app/api/config_routes.py:89-110 | rejected removals change nothing; otherwise the state is `Remove`'s, with reply 500 when saving fails |
| ConfigRoutes.SetCurrentSourceRoute | app/api/config_routes.py:113-128 | an out-of-range index is rejected with no change; otherwise the state is `SetCurrent`'s and the reply echoes the index, or 500 when saving fails |
| ConfigRoutes.TestSource | app/api/config_routes.py:131-156 | one boolean per feed type, starting false, true exactly when the URL key is present and truthy and the request answers 200 |
| AppConfigApi.IndexValue | app.py:451 | how a JSON index compares: an integer as itself, a boolean as 0/1; null or a string raises |
| AppConfigApi.AppDefaults | app.py:401-413 | missing URLs become '', a missing `use_local_files` becomes false, present keys keep their values, and `active` is not added |
| AppConfigApi.AddDefaultsDisagree | app.py:411-413 | for a source without `use_local_files` and `active`, app.py stores false and no `active`, while config_routes.py stores true and adds `active` |
| AppConfigApi.AppAddSource | app.py:392-427 | no `name`: 400 'Missing source name' and no change; otherwise the defaulted source is appended when saved, and the reply's index is the new last index, or -1 when saving fails |
| AppConfigApi.ValidateUpdate | app.py:435-452 | checks in order: 'Missing source index', 'Missing source data', 'Missing source name', a non-numeric index raising, 'Invalid source index', each a 400; accepts exactly a complete request with an in-range index |
| AppConfigApi.AppUpdateSource | app.py:429-462 | a rejected request changes nothing; otherwise the slot is replaced as by `Update`, and the reply carries the save outcome |
| AppConfigApi.ValidateIndexRequest | app.py:470-478 | 'Missing source index', a non-numeric index raising, then 'Invalid source index'; accepts exactly an in-range index |
| AppConfigApi.AppRemoveSource | app.py:464-492 | a rejected request changes nothing; otherwise deletion and clamping as in `Remove`, which may empty the list |
| AppConfigApi.AppSetCurrentSource | app.py:494-518 | a rejected request changes nothing; otherwise the index is set as in `SetCurrent` |
| AppConfigApi.OutcomeOf | app.py:533-542 | an answered request gives success exactly for status 200 and carries the code; a raised one gives the error text |
| AppConfigApi.AppTestSource | app.py:520-546 | a local-files source gives no results; otherwise an entry exactly for each feed whose URL key is present and truthy, holding the outcome of fetching that URL |
| Dashboard.MarkerClass | static/js/main_new.js:585-590 | the three statuses map to their marker classes, and every other value to 'marker-unknown' |
| Dashboard.StatusText | static/js/main_new.js:597-602 | the three statuses map to their labels, and every other value to 'Inconnu' |
| Dashboard.FeedStatusesAreKnown | static/js/main_new.js:585-602 | every feed status gets its own marker and label; the backend's 'UNKNOWN' gets the fallback ones |
| Dashboard.AlertClass | static/js/main_new.js:454-461 | 'danger' exactly for NO_SERVICE/SIGNIFICANT_DELAYS, 'info' exactly for ADDITIONAL_SERVICE/MODIFIED_SERVICE, 'warning' for every other effect |
| Dashboard.FeedEffectClasses | static/js/main_new.js:454-461 | over the feed's effect names, only two effects are 'danger' and two 'info'; the unknown placeholder is 'warning' |
| Dashboard.ShownVehicles | static/js/main_new.js:520-526 | a vehicle is kept exactly when it passes the position, route and status checks: every kept vehicle passes them, every vehicle that passes them is kept, and each one as often as it occurs in the input |
| Dashboard.MarkerPairs | static/js/main_new.js:520-569 | exactly two markers per shown vehicle, in order, the main map's first |
| Dashboard.MarkerCount | static/js/main_new.js:568-569 | the marker count is twice the number of shown vehicles |
| Dashboard.UnpositionedVehicleHidden | static/js/main_new.js:522 | a record built from an entity without a position never gets a marker |
| Dashboard.MarkerLayer.Update | static/js/main_new.js:509-578 | without data nothing changes; otherwise the old markers are cleared and the list becomes the markers of the shown vehicles |
| Dashboard.LessTransitive | static/js/main_new.js:620 | the string order of the default sort is transitive |
| Dashboard.LessTotal | static/js/main_new.js:620 | it is total on distinct strings |
| Dashboard.LessIrreflexive | static/js/main_new.js:620 | it is irreflexive |
| Dashboard.Sort | static/js/main_new.js:620 | the sort is a permutation of its input |
| Dashboard.InsertKeepsStrictOrder | static/js/main_new.js:620 | inserting a new string keeps a strictly ordered list strictly ordered |
| Dashboard.SortDistinct | static/js/main_new.js:620 | sorting distinct strings gives them in strictly increasing order |
| Dashboard.DistinctRouteIdsSpec | static/js/main_new.js:612-617 | the collected ids have no duplicate and are exactly the truthy route ids of the vehicles |
| Dashboard.RouteFilterOptions | static/js/main_new.js:608-620 | without data nothing is rebuilt; otherwise the list is strictly sorted and holds exactly the truthy route ids |
| Dashboard.Selection | static/js/main_new.js:638-640 | the previous selection is kept when it is non-empty and is 'all' or listed, and otherwise becomes 'all'; the result is always an offered option |
| ConfigPage.SourceFromForm | static/js/config.js:338-373 | an empty name is rejected first; without local files at least one URL is required; otherwise the payload has the name, the flag and the three URLs, all '' when using local files |
| ConfigPage.SubmittedSourceHasName | static/js/config.js:340-373 | a source the page sends passes both servers' name checks |
| ConfigPage.UpdateFromForm | static/js/config.js:453-501 | the same checks as adding; the body is the parsed index (null for NaN) with the source |
| ConfigPage.UpdateReachesIndexCheck | static/js/config.js:496-501 | for an update the page sends, app.py's only remaining check is the index: NaN raises, out of range is 'Invalid source index' |
| ConfigPage.TestRequest | static/js/config.js:199-225 | rejected exactly when all three URLs are empty; otherwise the body holds the three URLs only |
| ConfigPage.TestRequestTestsGivenUrls | static/js/config.js:204-225 | app.py then tests exactly the non-empty URLs, at least one |
| ConfigPage.FeedTypeLabel | static/js/config.js:293-297 | trip_update, vehicle_position and alert map to TripUpdate, VehiclePosition and Alert; anything else shows 'undefined' |
| ConfigPage.ResultLine | static/js/config.js:299-315 | `success === true` gives 'Code: N (OK)'; `success === false` gives the error, else 'Code: N (Erreur)' when a code is present, else 'Échec'; anything else gives 'Statut inconnu' |
| ConfigPage.DisplayTestResults | static/js/config.js:285-333 | one line per result, in the order of the answer's keys, each as `ResultLine` gives it |
| ConfigPage.AppOutcomesAreShown | static/js/config.js:303-315 | every outcome app.py reports shows as success or error, never unknown |
| ConfigPage.RouteOutcomesAreUnknown | static/js/config.js:299-315 | the bare booleans of config_routes.py show as 'Statut inconnu' |

## Left out

- Protobuf decoding (`ParseFromString`, `MessageToDict`) is a library call. The model takes the decoded `FeedMessage` as input.
- Feed downloads and the file layout are I/O (`download_gtfs_rt_from_url`, `get_gtfs_rt_feed`, `read_gtfs_rt_file`). A missing or unreadable feed is the `None` input.
- `load_config` and `save_config` are file I/O. The loaded configuration is the store's state; the save outcome is the `saved` parameter. A failed save leaves the store as it was. The fallback to `DEFAULT_CONFIG` on a read error is not modelled, nor is the aliasing of that shared dictionary, which gets mutated by later calls.
- Reading `routes.csv` with pandas is I/O. The table is an input of `LoadRoutesData`, given as a sequence of rows whose cells are text, integers or NaN.
- LoadRoutesData: the type inference of pandas is taken per cell, not per column. A numeric column that also has empty cells becomes floating point in pandas (`10.0`); the model keeps the integer.
- `datetime.fromtimestamp(...).strftime(...)` depends on the host timezone. It is the abstract `LocalTime(epoch)`.
- Floating point is not modelled:
  - Coordinates, speed and bearing are passed through as `real`.
  - `round(x, 1)` is left out. Delay minutes are the exact `seconds / 60`.
  - Means are exact real means.
- AppStats.GetTripUpdateStats and DataRoutes.TripUpdateStatistics: these do not round, and they leave out the chart (`generate_delay_chart`).
- DataRoutes.TripUpdateStatistics does not compute the median (pandas `median`).
- The pandas column checks (`'delay_minutes' in df.columns` and the like) always hold for non-empty record lists, so they are not modelled.
- DataRoutes.AllDataStatistics does not model the `feed_timestamps` block and the JSON response that are built next to it.
- The prints, plots and pandas frames of gtfs_rt_reader.py are left out. The frame is modelled by its columns (`TripFrame`) or its rows.
- GtfsRtReader.AnalyzeTripUpdates: proto reads of unset scalars give the proto default (`''`, `0`, `0.0`). `Option.GetOr` models this.
- app/core/visualizations.py, app/web/routes.py and the Flask wiring are not part of this model. That wiring covers routing, `jsonify`, `send_file`, `render_template`, CSV export and refresh.
- `requests.get` is a parameter `fetch` from URL to an answered status code or a raised error. The 10-second timeout in config_routes.py is part of that parameter.
- AppConfigApi handlers:
  - A request body that is not a JSON object (for which `'name' not in source` raises) is not modelled.
  - A boolean index is stored as 0/1, where Python would store the boolean itself.
  - Exception texts are the abstract `ExceptionText`.
- Browser plumbing is left out: jQuery DOM updates, Leaflet maps and `fitBounds`, DataTables, AJAX calls, `setInterval`/`setTimeout`, popups and notifications.
- The dashboard's vehicle objects are the records of data_routes.py. NaN coordinates, which JavaScript also treats as falsy, have no counterpart among them.
- Dashboard.Sort is a model on values of the in-place `Array.prototype.sort`. Its string order compares characters, which matches the UTF-16 code-unit order of JavaScript only for characters in the Basic Multilingual Plane.
- ConfigPage.DisplayTestResults models the result object's keys as a sequence in insertion order. Numbers are shown as integers. The icons are left out.
