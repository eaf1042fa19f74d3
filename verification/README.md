# Media Services Application Mapper: event normaliser and content cache

This project is a Dafny model of two pieces of the AWS Media Services Application
Mapper (MSAM) back end, with proofs about them.

- **The media-event normaliser** (`lambda_handler` and `get_pipeline_state` in
  `api/events/media_events.py`). It receives one CloudWatch event from a media
  service and does the following:
  - picks the monitored resource's ARN from the ARN-labelled values in the event;
  - reshapes MediaLive and MediaConnect alert payloads;
  - decides whether a MediaLive channel runs redundant pipelines;
  - builds the `type` string and the millisecond sort key;
  - applies the per-source ARN overrides for MediaLive, MediaPackage and MediaStore;
  - writes the event to the alert table, the history table, both or neither.

  `MediaEvents.Handle` is the handler written as a function. `MediaEvents.LambdaHandler`
  is the handler written step by step on the event record. It is proved equal to
  `Handle`, and the properties are lemmas about `Handle`.
- **The content cache** (`api/msam/chalicelib/cache.py`). It has three paginated
  queries (by service, by service and region, by ARN), and put and delete on the
  content table. The table is keyed by ARN.
  - `ContentCache.Paginate` is the shared query-and-page loop. Its contract is the
    predicate `PagedResult`.
  - The table is the class `ContentCache.ContentTable`. Its `rows` map is updated by
    `PutCachedData` and `DeleteCachedData`.

Modules:

- `Values` (values.dfy): parsed JSON values, and Python's `int(...)` on them.
- `Text` (text.dfy): the Python string operations the core uses: substring test,
  `lower()`, `split`/`join`, and `urllib.parse.unquote` on escapes of ASCII characters.
- `MediaEvents` (media_events.dfy): the normaliser.
- `ContentCache` (cache.dfy): the cache.

Outside services are inputs, not code:

- **MediaPackage `describe_origin_endpoint`**: a function from endpoint id to answer.
- **The content-table lookup of `get_pipeline_state`**: a function from ARN to answer.
- **Table writes that raise a ClientError**: flags, or the index of the failing put.
- **The pages a query returns**: a sequence of responses, one per call.
- **Epoch seconds of the event time**: a parameter.
- **`ITEM_TTL`**: a parameter.
- **The random jitter**: a parameter in 1..999.

Where the code does something other than what its own text suggests, the model
follows the code:

- **A HarvestJob event without an origin endpoint id** logs "Skipping this event.
  Origin ID not present in the HarvestJob event." (`api/events/media_events.py:112`),
  but nothing is skipped: an ARN found earlier by the generic extraction is kept, so
  the event is still written to the history table
  (`MediaEvents.HarvestJobWithoutOriginId`).
- **A MediaLive alert with no resource ARN** raises KeyError at line 137, before the
  alert write. It is therefore excluded by precondition (`AlertDefined`). "Every alert
  is written to the alert table" holds for every alert the handler gets through.
- **`get_pipeline_state` reads the un-lowered `detail["alarm_state"]`** and compares it
  with `"SET"` exactly. Lower-casing at line 66 writes a different field
  (`MediaEvents.LowerCaseSetIsRedundant`).

## Model

| member | source | states |
|---|---|---|
| MediaEvents.Excluded | api/events/media_events.py:50 | a candidate is excluded exactly when "user", "role" or "inputSecurityGroup" occurs at some position of it; an excluded candidate has at least four characters |
| MediaEvents.Survivors | api/events/media_events.py:45-53 | a candidate survives exactly when it is a candidate that contains none of "user", "role", "inputSecurityGroup"; the list is no longer than the candidates |
| MediaEvents.SurvivorsAppend | api/events/media_events.py:49-53 | filtering distributes over concatenation, so the survivors keep the candidates' order |
| MediaEvents.SurvivorsNone | api/events/media_events.py:49-53 | when every candidate is excluded, nothing survives |
| MediaEvents.FilterArns | api/events/media_events.py:46-53 | the loop building `arns` yields exactly the order-preserving filter of the candidates |
| MediaEvents.SelectArn | api/events/media_events.py:54-59 | an ARN is set exactly when some candidate survives or `resources[0]` exists without "vod"; with a survivor it is the decoding of a surviving candidate |
| MediaEvents.SelectArnFirstSurvivor | api/events/media_events.py:54-55 | the resource ARN is the URL-decoded first candidate not naming a user, role or security group, whatever precedes it |
| MediaEvents.SelectArnFallback | api/events/media_events.py:57-59 | with no survivor, the ARN is `resources[0]` undecoded when it exists and lacks "vod", otherwise none is set |
| MediaEvents.ConnectAlarmState | api/events/media_events.py:72-75 | the MediaConnect alarm state is "set" exactly when `errored == True` (also 1), else "cleared" |
| MediaEvents.ReshapeConnectDetail | api/events/media_events.py:76-79 | `error-code`/`error-message` move to `alert_type`/`message`, the old keys are gone, every other key is unchanged |
| MediaEvents.PipelineState | api/events/media_events.py:132-156 | false exactly for a MediaLive event whose un-lowered alarm state is "SET" and whose cached item is a multiplex or a STANDARD-class channel; true otherwise, also after a ClientError or with no Items |
| MediaEvents.MultiplexIsSinglePipeline | api/events/media_events.py:145-146 | a multiplex item means a single pipeline whatever its channel class |
| MediaEvents.LowerCaseSetIsRedundant | api/events/media_events.py:139 | a detail whose alarm state is "set" in lower case never reports a single pipeline |
| MediaEvents.AlertStage | api/events/media_events.py:62-79 | alarm id and alarm state are set together, exactly for MediaLive and MediaConnect alerts; any other alert keeps its detail; `eventName` is never added, removed or changed |
| MediaEvents.EventType | api/events/media_events.py:88-90 | `type` starts with the detail-type and is longer exactly when `eventName` is present, the rest then being ": " + eventName |
| MediaEvents.BatchScheduleArn | api/events/media_events.py:96-98 | when region, account and channel id hold no ':', the synthesised channel ARN splits on ':' into exactly arn, aws, medialive, region, account, channel, channel id |
| MediaEvents.ContainerArn | api/events/media_events.py:117-118 | the first two '/' pieces rejoined are a prefix of the object ARN holding exactly one '/' |
| MediaEvents.ContainerArnKeepsContainer | api/events/media_events.py:117-118 | an ARN that already holds exactly one '/' is kept unchanged |
| MediaEvents.SourceOverride | api/events/media_events.py:92-118 | an override never removes an ARN; only a MediaPackage event with an origin id can end in the describe ClientError; other sources keep the ARN |
| MediaEvents.Handle | api/events/media_events.py:32-129 | only alerts reach the alert table, and without `type`; a history item always carries an ARN and a `type`, and exists only when its write succeeds |
| MediaEvents.AlertTableDisposition | api/events/media_events.py:61-82 | an event reaches the alert table exactly when its detail-type contains "Alert" and that write succeeds, with or without an ARN; the item has the seconds timestamp, the TTL expiry and the selected ARN |
| MediaEvents.HistoryTableDisposition | api/events/media_events.py:120-126 | the history table is written exactly when no earlier ClientError stopped the run and an ARN is present after every override; the item carries that ARN |
| MediaEvents.EventNameUntouched | api/events/media_events.py:69-79 | the alert branch neither adds, removes nor changes `eventName` |
| MediaEvents.HistoryKeyAndType | api/events/media_events.py:38-90 | the history sort key lies in ts*1000+1 .. ts*1000+999, expiry is ts + ITEM_TTL, `type` is built from the original detail-type and eventName, `data` is the detail |
| MediaEvents.HarvestJobWithoutOriginId | api/events/media_events.py:104-112 | a MediaPackage event without an origin id is stored exactly when the generic extraction found an ARN |
| MediaEvents.HarvestJobUsesEndpointArn | api/events/media_events.py:99-110 | a HarvestJob event with an origin id is stored under the endpoint ARN MediaPackage reports, and not at all when that call fails |
| MediaEvents.BatchScheduleStored | api/events/media_events.py:93-98 | a MediaLive BatchUpdateSchedule event is always stored, under the synthesised channel ARN |
| MediaEvents.MediaStoreStoresContainer | api/events/media_events.py:113-118 | a MediaStore object state change is stored under a one-'/' prefix of the selected ARN |
| MediaEvents.AlertWithoutArn | api/events/media_events.py:120-126 | an alert with no derivable ARN, from a source without an override, goes to the alert table only |
| MediaEvents.MediaLiveAlertFields | api/events/media_events.py:64-67 | a MediaLive alert stores the alarm id, the lower-cased alarm state, and the pipeline state computed from the un-lowered detail |
| MediaEvents.MediaConnectAlertFields | api/events/media_events.py:70-79 | a MediaConnect alert is "set" exactly when errored is True, keeps the error id, and carries code and message under the new keys only |
| MediaEvents.Stamped | api/events/media_events.py:41 | the detail gains or replaces `time`, holding the event time, and every other key keeps its value |
| MediaEvents.SetAlertFields | api/events/media_events.py:62-79 | the step-by-step alert-branch updates set the alarm fields and detail `AlertStage` describes and leave every other field of the record unchanged |
| MediaEvents.NormaliseForAlert | api/events/media_events.py:38-79 | the step-by-step updates up to the alert write produce the record `AlertRecord` describes |
| MediaEvents.SetHistoryFields | api/events/media_events.py:84-90 | the step-by-step sort key, `data` and `type` updates produce `TypedRecord` |
| MediaEvents.ApplyOverrides | api/events/media_events.py:92-118 | the step-by-step per-source overrides produce the outcome `FinalArn` describes |
| MediaEvents.LambdaHandler | api/events/media_events.py:32-129 | the step-by-step handler writes exactly what `Handle` says, with ClientErrors ending the run |
| Text.Contains | api/events/media_events.py:50 | `t in s` holds exactly when `t` occurs at some index of `s`, so only when `t` is no longer than `s` (the same test is at lines 58, 62, 64, 70, 94, 100 and 116) |
| Text.Lower | api/events/media_events.py:66 | same length; every upper-case ASCII letter becomes its lower-case partner, every other character is kept, and no upper-case letter is left |
| Text.Split | api/events/media_events.py:117 | `split` yields one more piece than there are separators, no piece holds one, and joining the pieces gives back the string |
| Text.SplitJoin | api/events/media_events.py:117-118 | splitting undoes joining pieces that hold no separator |
| Text.Unquote | api/msam/chalicelib/cache.py:74 | decoding never lengthens a string, and shortens it only when it holds '%' |
| Text.UnquotePlain | api/events/media_events.py:55 | a string without '%' decodes to itself |
| Text.UnquoteRoundTrip | api/msam/chalicelib/cache.py:74 | decoding recovers every string from its encoding that escapes reserved ASCII characters and sends other characters as they are |
| Values.EqualsTrue | api/events/media_events.py:72 | `v == True` holds exactly for a number or boolean whose integer value is 1 |
| Values.IntOf | api/msam/chalicelib/cache.py:102-103 | `int(v)` is the integer itself, 0 or 1 for a boolean, defined on a string exactly when it is a decimal literal with an optional sign, and undefined on null, lists and objects |
| Values.IntOfDecimal | api/msam/chalicelib/cache.py:102-103 | `int(str(n)) == n`: a number sent as text is coerced back to the same integer |
| ContentCache.FlattenAppend | api/msam/chalicelib/cache.py:39 | the items of two runs of pages are the concatenation of each run's items |
| ContentCache.FlattenAround | api/msam/chalicelib/cache.py:36-41 | the result holds every page's items, in place, between the pages before it and the pages after it |
| ContentCache.FlattenStep | api/msam/chalicelib/cache.py:39 | fetching one more page appends exactly its items |
| ContentCache.Collected | api/msam/chalicelib/cache.py:34-39 | accumulating `items + response["Items"]` page by page yields the concatenation of the fetched pages' items, in fetch order (the same accumulation is at lines 59-62 and 79-82) |
| ContentCache.CallsExtend | api/msam/chalicelib/cache.py:36-38 | a page with a LastEvaluatedKey leads to one more call, with the same query, starting from that key |
| ContentCache.PagedResultUnique | api/msam/chalicelib/cache.py:33-41 | the calls made and the reply are determined by the query and the table's answers |
| ContentCache.Paginate | api/msam/chalicelib/cache.py:33-41 | paging continues exactly while the latest page has a LastEvaluatedKey, each call passes that key, and the reply is every page's items in fetch order or the ClientError's message |
| ContentCache.CachedByService | api/msam/chalicelib/cache.py:23-44 | the paged query on ServiceRegionIndex by service |
| ContentCache.CachedByServiceRegion | api/msam/chalicelib/cache.py:47-66 | the paged query on ServiceRegionIndex by the URL-decoded service and region |
| ContentCache.CachedByArn | api/msam/chalicelib/cache.py:69-86 | the paged query on the table key by the URL-decoded ARN |
| ContentCache.Coerce | api/msam/chalicelib/cache.py:101-103 | the coerced entry has the same keys, integer `expires` and `updated` equal to `int(...)` of the sent values, and every other field unchanged |
| ContentCache.LastWithKey | api/msam/chalicelib/cache.py:100-104 | the index of the last entry keyed k, with no later entry keyed k |
| ContentCache.Saved | api/msam/chalicelib/cache.py:100-104 | writing entries in list order keeps every old key and adds the ARN of every entry |
| ContentCache.SavedLookup | api/msam/chalicelib/cache.py:100-104 | after writing in list order, a key holds its last entry, coerced; every key no entry names keeps its old row or stays absent |
| ContentCache.SavedRowsAreNumeric | api/msam/chalicelib/cache.py:102-104 | every row the put writes has integer `expires` and `updated` |
| ContentCache.ContentTable.PutCachedData | api/msam/chalicelib/cache.py:89-108 | entries are coerced and written in list order up to the first failing put; the ones before it stay written; the reply is "saved" or the error message; every row stays keyed by its own ARN |
| ContentCache.ContentTable.DeleteCachedData | api/msam/chalicelib/cache.py:111-128 | only the row keyed by the decoded ARN is removed and the reply is "deleted"; on a ClientError the table is unchanged and the reply is its message |

## Left out

- **Chalice route wiring in api/msam/app.py**: not part of this model. This includes
  `update_nodes`, a loop driven by the Lambda's remaining time.
- **html/js/app/ui/overlays/mediaconnect_flow.js**: not part of this model (UI drawing).
- **`regions()`**: a pass-through of EC2 `describe_regions`, so there is nothing to model.
- **The JSONPath searches**: the ARN-labelled values and the origin endpoint ids are
  given as sequences in document order.
  - Only string candidates are modelled. A list or object value would not make the
    substring test raise: `in` then tests membership or keys, and the value is dropped
    when it holds one of the three words. It would raise only in `unquote`, and only
    when it is the first survivor.
- **`strptime`/`timestamp()`**: they depend on the local time zone, so the epoch seconds
  are a parameter.
- **`randint(1, 999)`**: the jitter is a parameter in 1..999.
- **`os.environ["ITEM_TTL"]`**: the TTL is a parameter.
- **`print` and logging**: dropped, including the pipeline log line in
  `get_pipeline_state`.
- **`json.dumps` of the detail and `json.loads` of a cached item's `data`**: data is
  kept as an already-parsed map, so `data` holds the detail itself rather than its
  JSON text.
- **Floating-point JSON numbers**: not modelled.
- **`int(...)` on strings**: ASCII decimal literals with an optional sign are
  modelled. Python also accepts surrounding whitespace, digit-group underscores and
  non-ASCII Unicode decimal digits (`int("１２") == 12`); for these the model gives
  `None`, as it does for a string Python rejects.
- **`str.lower()`**: modelled on ASCII letters only.
- **`unquote` of escapes `%80` to `%FF`**: Python decodes these bytes as UTF-8 (with
  U+FFFD for invalid sequences), so `%C3%A9` becomes one "é". The model decodes only
  escapes of ASCII characters (`%00` to `%7F`) and keeps the others as text, so for
  strings holding such escapes it does not give Python's result.
  `Text.PercentEncode` likewise escapes only ASCII characters; a UTF-8 client would
  escape a non-ASCII character as several `%XX` bytes.
- **Errors other than ClientError** (KeyError, TypeError, IndexError, ValueError): these
  propagate in the source. They are preconditions here: `HandleDefined`,
  `AlertDefined`, `OverrideDefined`, `ContentAnswerUsable` and `Coercible`.
- **DynamoDB's own query evaluation, key schema validation and TTL expiry**: not
  modelled. A put the table would reject must be given as a failing put.
- ContentCache.Paginate: requires that some answer ends the paging. A table that
  returns a LastEvaluatedKey forever makes the source loop without end, and that case
  is not modelled.
- **Aliasing of the event dict**: the item written to the alert table is a snapshot
  of the record. Later in-place updates of the dict are not seen by an item already
  written, as with DynamoDB, which copies the item at `put_item`.
