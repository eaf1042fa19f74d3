/** The media-event normaliser: one incoming service event is given a canonical
    resource ARN, alert payloads are reshaped, the `type` string and the history
    sort key are built, per-source ARN overrides are applied, and the event is
    written to the alert table and/or the history table. */
module MediaEvents {
  import opened Values
  import opened Text

  /** An incoming event. `arnMatches` and `originEndpointIds` are the values the
      JSONPath searches `$..arn|aRN|resource-arn|...` and `$..origin_endpoint_id`
      return, in document order. */
  datatype Event = Event(
    source: string,
    detailType: string,
    time: string,
    region: string,
    account: string,
    resources: seq<string>,
    detail: Dict,
    arnMatches: seq<string>,
    originEndpointIds: seq<string>)

  /** The event as it is stored: the envelope with the fields the handler adds. */
  datatype Record = Record(
    source: string,
    detailType: string,
    time: string,
    region: string,
    account: string,
    resources: seq<string>,
    detail: Dict,
    timestamp: int,
    expires: int,
    resourceArn: Option<string>,
    alarmId: Option<Value>,
    alarmState: Option<string>,
    typ: Option<string>,
    data: Option<Dict>)

  /** MediaPackage's answer to `describe_origin_endpoint`. */
  datatype EndpointAnswer = Endpoint(arn: string) | DescribeFailed(message: string)

  /** The content table's answer to the query by ARN; `items` is `None` when the
      response carries no "Items" key. */
  datatype ContentAnswer = QueryFailed(message: string) | QueryAnswer(items: Option<seq<Dict>>)

  /** Everything the handler takes from outside the event: the parsed epoch seconds
      of `time`, ITEM_TTL, the random jitter, the two service calls, and whether the
      alert-table and history-table writes raise a ClientError. */
  datatype Context = Context(
    epochSeconds: int,
    itemTtl: int,
    jitter: int,
    describeOriginEndpoint: string -> EndpointAnswer,
    queryContent: string -> ContentAnswer,
    alertPutFails: bool,
    historyPutFails: bool)

  /** What was written: the item put into the alert table, the item put into the history table. */
  datatype Disposition = Disposition(alertItem: Option<Record>, historyItem: Option<Record>)

  // ================================================================ ARN selection

  /** A candidate naming a user, a role or an input security group, not the monitored resource. */
  predicate Excluded(arn: string): (r: bool)
    ensures r <==> (exists i: nat :: OccursAt(arn, "user", i) || OccursAt(arn, "role", i) ||
                                     OccursAt(arn, "inputSecurityGroup", i))
    ensures r ==> |arn| >= 4
  {
    Contains(arn, "user") || Contains(arn, "role") || Contains(arn, "inputSecurityGroup")
  }

  /** The candidates that survive the filter, in their original order. */
  function Survivors(candidates: seq<string>): (r: seq<string>)
    ensures |r| <= |candidates|
    ensures forall a :: a in r <==> a in candidates && !Excluded(a)
  {
    if candidates == [] then []
    else (if Excluded(candidates[0]) then [] else [candidates[0]]) + Survivors(candidates[1..])
  }

  /** Filtering distributes over concatenation, so it keeps the candidates' order. */
  lemma {:induction false} SurvivorsAppend(a: seq<string>, b: seq<string>)
    ensures Survivors(a + b) == Survivors(a) + Survivors(b)
  {
    if a == [] {
      assert a + b == b;
    } else {
      assert (a + b)[1..] == a[1..] + b;
      SurvivorsAppend(a[1..], b);
    }
  }

  /** When every candidate is excluded, nothing survives. */
  lemma {:induction false} SurvivorsNone(candidates: seq<string>)
    requires forall j :: 0 <= j < |candidates| ==> Excluded(candidates[j])
    ensures Survivors(candidates) == []
  {
    if candidates != [] {
      SurvivorsNone(candidates[1..]);
    }
  }

  /** The loop building `arns` from `original_arns`. */
  method FilterArns(original: seq<string>) returns (arns: seq<string>)
    ensures arns == Survivors(original)
  {
    arns := [];
    var i := 0;
    while i < |original|
      invariant 0 <= i <= |original|
      invariant arns == Survivors(original[..i])
    {
      var arn := original[i];
      assert original[..i + 1] == original[..i] + [arn];
      SurvivorsAppend(original[..i], [arn]);
      if !Excluded(arn) {
        arns := arns + [arn];
      }
      i := i + 1;
    }
    assert original[..i] == original;
  }

  /** `resource_arn` after the generic extraction: the decoded first survivor, or
      else the first `resources` entry when it does not mention "vod". */
  function SelectArn(candidates: seq<string>, resources: seq<string>): (r: Option<string>)
    ensures r.Some? <==> Survivors(candidates) != [] || (resources != [] && !Contains(resources[0], "vod"))
    ensures Survivors(candidates) != [] ==>
      exists a :: a in candidates && !Excluded(a) && r == Some(Unquote(a))
  {
    var arns := Survivors(candidates);
    if arns != [] then Some(Unquote(arns[0]))
    else if resources != [] && !Contains(resources[0], "vod") then Some(resources[0])
    else None
  }

  /** The first candidate not naming a user, role or security group is chosen, decoded,
      whatever excluded candidates precede it and whatever `resources` holds. */
  lemma {:induction false} SelectArnFirstSurvivor(candidates: seq<string>, resources: seq<string>, i: nat)
    requires i < |candidates| && !Excluded(candidates[i])
    requires forall j :: 0 <= j < i ==> Excluded(candidates[j])
    ensures SelectArn(candidates, resources) == Some(Unquote(candidates[i]))
  {
    var before, after := candidates[..i], candidates[i..];
    assert candidates == before + after;
    SurvivorsAppend(before, after);
    SurvivorsNone(before);
    assert after[0] == candidates[i];
  }

  /** With no surviving candidate, the first `resources` entry is used undecoded unless
      it mentions "vod"; otherwise no ARN is set by this step. */
  lemma SelectArnFallback(candidates: seq<string>, resources: seq<string>)
    requires forall j :: 0 <= j < |candidates| ==> Excluded(candidates[j])
    ensures SelectArn(candidates, resources)
            == if resources != [] && !Contains(resources[0], "vod") then Some(resources[0]) else None
  {
    SurvivorsNone(candidates);
  }

  // ================================================================ alerts

  /** MediaConnect's alarm state: "set" exactly when `errored` is True. */
  function ConnectAlarmState(errored: Value): (state: string)
    ensures state == "set" <==> EqualsTrue(errored)
    ensures state == "set" || state == "cleared"
  {
    if EqualsTrue(errored) then "set" else "cleared"
  }

  predicate HasConnectFields(detail: Dict)
  {
    "error-id" in detail && "errored" in detail && "error-code" in detail && "error-message" in detail
  }

  /** A MediaConnect alert's detail with `error-code` renamed to `alert_type` and
      `error-message` renamed to `message`. */
  function ReshapeConnectDetail(detail: Dict): (r: Dict)
    requires HasConnectFields(detail)
    ensures r.Keys == detail.Keys - {"error-code", "error-message"} + {"alert_type", "message"}
    ensures r["alert_type"] == detail["error-code"] && r["message"] == detail["error-message"]
    ensures forall k :: k in detail && k != "error-code" && k != "error-message" && k != "alert_type" && k != "message"
                        ==> r[k] == detail[k]
  {
    var withType := detail["alert_type" := detail["error-code"]] - {"error-code"};
    var withMessage := withType["message" := withType["error-message"]] - {"error-message"};
    withMessage
  }

  predicate IsMultiplex(item: Dict)
  {
    "service" in item && item["service"] == Str("medialive-multiplex")
  }

  predicate IsStandardClass(data: Dict)
  {
    "ChannelClass" in data && data["ChannelClass"] == Str("STANDARD")
  }

  /** The answer has the shape the lookup reads without raising: a non-empty item
      list whose first item is a multiplex or carries its parsed `data` object. */
  predicate ContentAnswerUsable(answer: ContentAnswer)
  {
    answer.QueryAnswer? && answer.items.Some? ==>
      |answer.items.value| > 0 &&
      (IsMultiplex(answer.items.value[0]) ||
       ("data" in answer.items.value[0] && answer.items.value[0]["data"].Obj?))
  }

  /** `get_pipeline_state`: whether the channel runs redundant pipelines. It defaults to
      true, and is false only for a SET alarm (compared in the original, un-lowered
      detail) from MediaLive whose cached item is a multiplex or a STANDARD-class channel. */
  function PipelineState(source: string, detail: Dict, resourceArn: string,
                         queryContent: string -> ContentAnswer): (running: bool)
    requires source == "aws.medialive" ==> "alarm_state" in detail
    requires source == "aws.medialive" && detail["alarm_state"] == Str("SET")
             ==> ContentAnswerUsable(queryContent(resourceArn))
    ensures !running <==>
      source == "aws.medialive" && detail["alarm_state"] == Str("SET") &&
      queryContent(resourceArn).QueryAnswer? && queryContent(resourceArn).items.Some? &&
      (IsMultiplex(queryContent(resourceArn).items.value[0]) ||
       IsStandardClass(queryContent(resourceArn).items.value[0]["data"].fields))
  {
    if source == "aws.medialive" && detail["alarm_state"] == Str("SET") then
      match queryContent(resourceArn)
      case QueryFailed(_) => true
      case QueryAnswer(None) => true
      case QueryAnswer(Some(items)) =>
        var item := items[0];
        if IsMultiplex(item) then false
        else !IsStandardClass(item["data"].fields)
    else true
  }

  /** A multiplex entry means a single pipeline, whatever its channel class. */
  lemma MultiplexIsSinglePipeline(detail: Dict, resourceArn: string, queryContent: string -> ContentAnswer)
    requires "alarm_state" in detail && detail["alarm_state"] == Str("SET")
    requires queryContent(resourceArn).QueryAnswer? && queryContent(resourceArn).items.Some?
    requires |queryContent(resourceArn).items.value| > 0
    requires IsMultiplex(queryContent(resourceArn).items.value[0])
    ensures !PipelineState("aws.medialive", detail, resourceArn, queryContent)
  {
  }

  /** An alarm whose detail already says "set" in lower case never consults the
      cache and reports redundant pipelines. */
  lemma LowerCaseSetIsRedundant(detail: Dict, resourceArn: string, queryContent: string -> ContentAnswer)
    requires "alarm_state" in detail && detail["alarm_state"] == Str("set")
    ensures PipelineState("aws.medialive", detail, resourceArn, queryContent)
  {
  }

  /** The alarm fields of an alert and its detail after the alert branch. */
  datatype AlarmView = AlarmView(alarmId: Option<Value>, alarmState: Option<string>, detail: Dict)

  /** What the alert branch reads exists: the MediaLive fields, a resource ARN and a
      usable cache answer, or the four MediaConnect fields. */
  predicate AlertDefined(detailType: string, source: string, detail: Dict, arn: Option<string>,
                         queryContent: string -> ContentAnswer)
  {
    if Contains(detailType, "MediaLive") then
      "alarm_id" in detail && "alarm_state" in detail && detail["alarm_state"].Str? && arn.Some? &&
      (source == "aws.medialive" && detail["alarm_state"] == Str("SET") ==> ContentAnswerUsable(queryContent(arn.value)))
    else Contains(detailType, "MediaConnect") ==> HasConnectFields(detail)
  }

  /** The alert branch: MediaLive alerts copy the alarm id, lower-case the alarm state
      and record the pipeline state; MediaConnect alerts are reshaped; any other alert
      is stored as it is. */
  function AlertStage(detailType: string, source: string, detail: Dict, arn: Option<string>,
                      queryContent: string -> ContentAnswer): (r: AlarmView)
    requires AlertDefined(detailType, source, detail, arn, queryContent)
    ensures r.alarmId.Some? <==> Contains(detailType, "MediaLive") || Contains(detailType, "MediaConnect")
    ensures r.alarmState.Some? <==> r.alarmId.Some?
    ensures !Contains(detailType, "MediaLive") && !Contains(detailType, "MediaConnect") ==> r.detail == detail
    ensures "eventName" in r.detail <==> "eventName" in detail
    ensures "eventName" in detail ==> r.detail["eventName"] == detail["eventName"]
  {
    if Contains(detailType, "MediaLive") then
      AlarmView(Some(detail["alarm_id"]), Some(Lower(detail["alarm_state"].s)),
                detail["pipeline_state" := Bool(PipelineState(source, detail, arn.value, queryContent))])
    else if Contains(detailType, "MediaConnect") then
      AlarmView(Some(detail["error-id"]), Some(ConnectAlarmState(detail["errored"])), ReshapeConnectDetail(detail))
    else AlarmView(None, None, detail)
  }

  // ================================================================ type string

  /** The `type` field: the detail-type, followed by ": " and the event name when the
      detail carries one. */
  function EventType(detailType: string, detail: Dict): (typ: string)
    requires "eventName" in detail ==> detail["eventName"].Str?
    ensures StartsWith(typ, detailType)
    ensures |typ| > |detailType| <==> "eventName" in detail
    ensures "eventName" in detail ==> typ[|detailType|..] == ": " + detail["eventName"].s
  {
    if "eventName" in detail then detailType + ": " + detail["eventName"].s else detailType
  }

  // ================================================================ source overrides

  /** The text of the synthesised channel ARN, written field by field. */
  lemma ChannelArnShape(region: string, account: string, channelId: string)
    ensures "arn:aws:medialive:" + region + ":" + account + ":channel:" + channelId
            == "arn" + [':'] + ("aws" + [':'] + ("medialive" + [':'] +
               (region + [':'] + (account + [':'] + ("channel" + [':'] + channelId)))))
  {
  }

  /** A channel ARN built from fields free of ':' splits back into those fields. */
  lemma ChannelArnFields(region: string, account: string, channelId: string)
    requires ':' !in region && ':' !in account && ':' !in channelId
    ensures Split("arn:aws:medialive:" + region + ":" + account + ":channel:" + channelId, ':')
            == ["arn", "aws", "medialive", region, account, "channel", channelId]
  {
    var s5 := "channel" + [':'] + channelId;
    var s4 := account + [':'] + s5;
    var s3 := region + [':'] + s4;
    var s2 := "medialive" + [':'] + s3;
    var s1 := "aws" + [':'] + s2;
    var s0 := "arn" + [':'] + s1;
    ChannelArnShape(region, account, channelId);
    assert Split(s3, ':') == [region, account, "channel", channelId] by {
      SplitPlain(channelId, ':');
      SplitAtSeparator("channel", channelId, ':');
      SplitAtSeparator(account, s5, ':');
      SplitAtSeparator(region, s4, ':');
    }
    assert Split(s0, ':') == ["arn", "aws", "medialive"] + Split(s3, ':') by {
      SplitAtSeparator("medialive", s3, ':');
      SplitAtSeparator("aws", s2, ':');
      SplitAtSeparator("arn", s1, ':');
    }
  }

  /** The channel ARN synthesised for a MediaLive BatchUpdateSchedule event: when the
      region, the account and the channel id hold no ':', it has exactly the seven
      ':'-separated fields of a MediaLive channel ARN, ending with the channel id. */
  function BatchScheduleArn(region: string, account: string, channelId: string): (r: string)
    ensures ':' !in region && ':' !in account && ':' !in channelId ==>
            Split(r, ':') == ["arn", "aws", "medialive", region, account, "channel", channelId]
  {
    if ':' in region || ':' in account || ':' in channelId then
      "arn:aws:medialive:" + region + ":" + account + ":channel:" + channelId
    else
      ChannelArnFields(region, account, channelId);
      "arn:aws:medialive:" + region + ":" + account + ":channel:" + channelId
  }

  /** The first two `/` pieces of an ARN, rejoined, are a prefix of it holding one `/`. */
  lemma FirstTwoPieces(arn: string)
    requires Count(arn, '/') >= 1
    ensures var parts := Split(arn, '/');
            StartsWith(arn, parts[0] + "/" + parts[1]) && Count(parts[0] + "/" + parts[1], '/') == 1
  {
    var parts := Split(arn, '/');
    assert Join(parts, '/') == parts[0] + "/" + Join(parts[1..], '/');
    if |parts| > 2 {
      JoinHead(parts[1..], '/');
    }
    CountAppend(parts[0] + "/", parts[1], '/');
    CountAppend(parts[0], "/", '/');
    CountAbsent(parts[0], '/');
    CountAbsent(parts[1], '/');
  }

  /** A MediaStore object ARN cut back to its container: the first two `/` pieces. */
  function ContainerArn(arn: string): (r: string)
    requires Count(arn, '/') >= 1
    ensures StartsWith(arn, r)
    ensures Count(r, '/') == 1
  {
    FirstTwoPieces(arn);
    var parts := Split(arn, '/');
    parts[0] + "/" + parts[1]
  }

  /** An ARN that already names a container (one '/') is kept as it is. */
  lemma {:induction false} ContainerArnKeepsContainer(arn: string)
    requires Count(arn, '/') == 1
    ensures ContainerArn(arn) == arn
  {
    var parts := Split(arn, '/');
    assert |parts| == 2;
    assert Join(parts, '/') == parts[0] + "/" + Join(parts[1..], '/');
  }

  predicate HasChannelId(detail: Dict)
  {
    "requestParameters" in detail && detail["requestParameters"].Obj? &&
    "channelId" in detail["requestParameters"].fields &&
    detail["requestParameters"].fields["channelId"].Str?
  }

  /** The outcome of the per-source overrides: the ARN after them, or the ClientError
      `describe_origin_endpoint` raised. */
  datatype ArnOutcome = Resolved(arn: Option<string>) | DescribeError(message: string)

  /** What the overrides read exists: the channel id of a BatchUpdateSchedule event and
      a two-piece ARN for a MediaStore object state change. */
  predicate OverrideDefined(source: string, typ: string, detail: Dict, arn: Option<string>)
  {
    (source == "aws.medialive" && Contains(typ, "BatchUpdateSchedule") ==> HasChannelId(detail)) &&
    (source == "aws.mediastore" && Contains(typ, "MediaStore Object State Change") ==>
       arn.Some? && Count(arn.value, '/') >= 1)
  }

  /** The per-source overrides applied after the generic extraction. */
  function SourceOverride(ev: Event, typ: string, detail: Dict, arn: Option<string>,
                          describe: string -> EndpointAnswer): (r: ArnOutcome)
    requires OverrideDefined(ev.source, typ, detail, arn)
    ensures r.DescribeError? ==> ev.source == "aws.mediapackage" && ev.originEndpointIds != []
    ensures r.Resolved? && arn.Some? ==> r.arn.Some?
    ensures ev.source !in {"aws.medialive", "aws.mediapackage", "aws.mediastore"} ==> r == Resolved(arn)
  {
    if ev.source == "aws.medialive" then
      if Contains(typ, "BatchUpdateSchedule") then
        Resolved(Some(BatchScheduleArn(ev.region, ev.account, detail["requestParameters"].fields["channelId"].s)))
      else Resolved(arn)
    else if ev.source == "aws.mediapackage" then
      if Contains(typ, "HarvestJob") && ev.originEndpointIds != [] then
        match describe(ev.originEndpointIds[0])
        case Endpoint(endpointArn) => Resolved(Some(endpointArn))
        case DescribeFailed(message) => DescribeError(message)
      else Resolved(arn)
    else if ev.source == "aws.mediastore" then
      if Contains(typ, "MediaStore Object State Change") then Resolved(Some(ContainerArn(arn.value)))
      else Resolved(arn)
    else Resolved(arn)
  }

  // ================================================================ the whole handler

  /** The detail with the event time copied into it: `time` is added or replaced and
      every other key keeps its value. */
  function Stamped(ev: Event): (r: Dict)
    ensures r.Keys == ev.detail.Keys + {"time"}
    ensures r["time"] == Str(ev.time)
    ensures forall k :: k in ev.detail && k != "time" ==> r[k] == ev.detail[k]
  {
    ev.detail["time" := Str(ev.time)]
  }

  predicate IsAlert(ev: Event)
  {
    Contains(ev.detailType, "Alert")
  }

  /** The alarm fields and detail once the alert branch (if any) has run. */
  function AlarmOf(ev: Event, ctx: Context): AlarmView
    requires IsAlert(ev) ==>
      AlertDefined(ev.detailType, ev.source, Stamped(ev), SelectArn(ev.arnMatches, ev.resources), ctx.queryContent)
  {
    var detail := Stamped(ev);
    if IsAlert(ev) then AlertStage(ev.detailType, ev.source, detail, SelectArn(ev.arnMatches, ev.resources), ctx.queryContent)
    else AlarmView(None, None, detail)
  }

  /** The handler reads nothing that is missing (no KeyError, TypeError or IndexError):
      the alert branch's fields, and, when the run gets past the alert write, a string
      `eventName` and what the source override reads. */
  predicate HandleDefined(ev: Event, ctx: Context)
  {
    var arn := SelectArn(ev.arnMatches, ev.resources);
    (IsAlert(ev) ==> AlertDefined(ev.detailType, ev.source, Stamped(ev), arn, ctx.queryContent)) &&
    ((IsAlert(ev) && ctx.alertPutFails) ||
      var detail := AlarmOf(ev, ctx).detail;
      ("eventName" in detail ==> detail["eventName"].Str?) &&
      OverrideDefined(ev.source, EventType(ev.detailType, detail), detail, arn))
  }

  /** The event as it stands when the alert table is written:
      seconds timestamp and expiry, the selected ARN and the alert fields. */
  function AlertRecord(ev: Event, ctx: Context): Record
    requires IsAlert(ev) ==>
      AlertDefined(ev.detailType, ev.source, Stamped(ev), SelectArn(ev.arnMatches, ev.resources), ctx.queryContent)
  {
    var view := AlarmOf(ev, ctx);
    Record(ev.source, ev.detailType, ev.time, ev.region, ev.account, ev.resources,
           view.detail, ctx.epochSeconds, ctx.epochSeconds + ctx.itemTtl,
           SelectArn(ev.arnMatches, ev.resources), view.alarmId, view.alarmState, None, None)
  }

  /** The event once the millisecond sort key, `data` and `type` are set, before the
      per-source overrides. */
  function TypedRecord(ev: Event, ctx: Context): (r: Record)
    requires HandleDefined(ev, ctx)
    requires !(IsAlert(ev) && ctx.alertPutFails)
  {
    var base := AlertRecord(ev, ctx);
    base.(timestamp := base.timestamp * 1000 + ctx.jitter, data := Some(base.detail),
          typ := Some(EventType(base.detailType, base.detail)))
  }

  /** The ARN outcome after every step of the handler. */
  function FinalArn(ev: Event, ctx: Context): ArnOutcome
    requires HandleDefined(ev, ctx)
    requires !(IsAlert(ev) && ctx.alertPutFails)
  {
    var typed := TypedRecord(ev, ctx);
    SourceOverride(ev, typed.typ.value, typed.detail, typed.resourceArn, ctx.describeOriginEndpoint)
  }

  /** `lambda_handler` as a function of the event and its context: the items written
      to the alert table and to the history table. */
  function Handle(ev: Event, ctx: Context): (d: Disposition)
    requires HandleDefined(ev, ctx)
    ensures d.alertItem.Some? ==> IsAlert(ev) && d.alertItem.value.typ.None?
    ensures d.historyItem.Some? ==> d.historyItem.value.resourceArn.Some? && d.historyItem.value.typ.Some?
    ensures d.historyItem.Some? ==> !ctx.historyPutFails
  {
    if IsAlert(ev) && ctx.alertPutFails then Disposition(None, None)
    else
      var alertItem := if IsAlert(ev) then Some(AlertRecord(ev, ctx)) else None;
      match FinalArn(ev, ctx)
      case DescribeError(_) => Disposition(alertItem, None)
      case Resolved(finalArn) =>
        var history := TypedRecord(ev, ctx).(resourceArn := finalArn);
        Disposition(alertItem, if finalArn.Some? && !ctx.historyPutFails then Some(history) else None)
  }

  // ================================================================ properties of the handler

  /** Every alert is written to the alert table unless that write itself fails, whether
      or not an ARN was found; the item carries the seconds timestamp and no `type`. */
  lemma AlertTableDisposition(ev: Event, ctx: Context)
    requires HandleDefined(ev, ctx)
    ensures Handle(ev, ctx).alertItem.Some? <==> IsAlert(ev) && !ctx.alertPutFails
    ensures Handle(ev, ctx).alertItem.Some? ==>
      var r := Handle(ev, ctx).alertItem.value;
      r.resourceArn == SelectArn(ev.arnMatches, ev.resources) &&
      r.timestamp == ctx.epochSeconds && r.expires == ctx.epochSeconds + ctx.itemTtl &&
      r.typ.None? && r.data.None?
  {
  }

  /** The history table is written exactly when the run reaches it without a ClientError
      and an ARN is present after every override; the item carries that ARN. */
  lemma HistoryTableDisposition(ev: Event, ctx: Context)
    requires HandleDefined(ev, ctx)
    ensures Handle(ev, ctx).historyItem.Some? <==>
      !(IsAlert(ev) && ctx.alertPutFails) && FinalArn(ev, ctx).Resolved? &&
      FinalArn(ev, ctx).arn.Some? && !ctx.historyPutFails
    ensures Handle(ev, ctx).historyItem.Some? ==>
      Handle(ev, ctx).historyItem.value.resourceArn == FinalArn(ev, ctx).arn
  {
  }

  /** "eventName" is none of the keys the alert branch adds, renames or removes. */
  lemma EventNameUntouched(ev: Event, ctx: Context)
    requires IsAlert(ev) ==>
      AlertDefined(ev.detailType, ev.source, Stamped(ev), SelectArn(ev.arnMatches, ev.resources), ctx.queryContent)
    ensures "eventName" in AlarmOf(ev, ctx).detail <==> "eventName" in ev.detail
    ensures "eventName" in ev.detail ==> AlarmOf(ev, ctx).detail["eventName"] == ev.detail["eventName"]
  {
  }

  /** The history item's sort key lies within the millisecond of the event time, its
      expiry is the seconds timestamp plus the TTL, its `type` is built from the original
      detail-type and eventName, and `data` is its detail. */
  lemma HistoryKeyAndType(ev: Event, ctx: Context)
    requires 1 <= ctx.jitter <= 999
    requires HandleDefined(ev, ctx)
    ensures Handle(ev, ctx).historyItem.Some? ==>
      var r := Handle(ev, ctx).historyItem.value;
      ("eventName" in ev.detail ==> ev.detail["eventName"].Str?) &&
      ctx.epochSeconds * 1000 + 1 <= r.timestamp <= ctx.epochSeconds * 1000 + 999 &&
      r.expires == ctx.epochSeconds + ctx.itemTtl &&
      r.typ == Some(EventType(ev.detailType, ev.detail)) &&
      r.data == Some(r.detail)
  {
  }

  /** A HarvestJob event without an origin endpoint id is only logged: the ARN found by
      the generic extraction, if any, still leads to the history write. */
  lemma HarvestJobWithoutOriginId(ev: Event, ctx: Context)
    requires HandleDefined(ev, ctx)
    requires !(IsAlert(ev) && ctx.alertPutFails) && !ctx.historyPutFails
    requires ev.source == "aws.mediapackage" && ev.originEndpointIds == []
    ensures Handle(ev, ctx).historyItem.Some? <==> SelectArn(ev.arnMatches, ev.resources).Some?
  {
  }

  /** A HarvestJob event with an origin endpoint id is stored under the endpoint ARN
      MediaPackage reports, and not at all when that call fails. */
  lemma HarvestJobUsesEndpointArn(ev: Event, ctx: Context)
    requires HandleDefined(ev, ctx)
    requires !(IsAlert(ev) && ctx.alertPutFails) && !ctx.historyPutFails
    requires ev.source == "aws.mediapackage" && ev.originEndpointIds != []
    requires Contains(TypedRecord(ev, ctx).typ.value, "HarvestJob")
    ensures Handle(ev, ctx).historyItem.Some? <==> ctx.describeOriginEndpoint(ev.originEndpointIds[0]).Endpoint?
    ensures Handle(ev, ctx).historyItem.Some? ==>
      Handle(ev, ctx).historyItem.value.resourceArn == Some(ctx.describeOriginEndpoint(ev.originEndpointIds[0]).arn)
  {
  }

  /** A BatchUpdateSchedule event is always stored, under the synthesised channel ARN. */
  lemma BatchScheduleStored(ev: Event, ctx: Context)
    requires HandleDefined(ev, ctx)
    requires !(IsAlert(ev) && ctx.alertPutFails) && !ctx.historyPutFails
    requires ev.source == "aws.medialive" && Contains(TypedRecord(ev, ctx).typ.value, "BatchUpdateSchedule")
    ensures Handle(ev, ctx).historyItem.Some?
    ensures Handle(ev, ctx).historyItem.value.resourceArn ==
      Some(BatchScheduleArn(ev.region, ev.account, TypedRecord(ev, ctx).detail["requestParameters"].fields["channelId"].s))
  {
  }

  /** A MediaStore object state change is stored under a prefix of the selected ARN
      holding exactly one `/`: the container, not the object. */
  lemma MediaStoreStoresContainer(ev: Event, ctx: Context)
    requires HandleDefined(ev, ctx)
    requires !(IsAlert(ev) && ctx.alertPutFails) && !ctx.historyPutFails
    requires ev.source == "aws.mediastore" && Contains(TypedRecord(ev, ctx).typ.value, "MediaStore Object State Change")
    ensures SelectArn(ev.arnMatches, ev.resources).Some?
    ensures Handle(ev, ctx).historyItem.Some?
    ensures var stored := Handle(ev, ctx).historyItem.value.resourceArn.value;
      StartsWith(SelectArn(ev.arnMatches, ev.resources).value, stored) && Count(stored, '/') == 1
  {
  }

  /** An alert from which no ARN can be derived (and which no override gives one) is
      written to the alert table and not to the history table. */
  lemma AlertWithoutArn(ev: Event, ctx: Context)
    requires HandleDefined(ev, ctx)
    requires IsAlert(ev) && !ctx.alertPutFails
    requires SelectArn(ev.arnMatches, ev.resources).None?
    requires ev.source != "aws.medialive" && ev.source != "aws.mediapackage"
    ensures Handle(ev, ctx).alertItem.Some? && Handle(ev, ctx).historyItem.None?
  {
  }

  /** A MediaLive alert stores its alarm state lower-cased and the pipeline state that
      `get_pipeline_state` computes from the un-lowered detail. */
  lemma MediaLiveAlertFields(ev: Event, ctx: Context)
    requires HandleDefined(ev, ctx)
    requires IsAlert(ev) && Contains(ev.detailType, "MediaLive") && !ctx.alertPutFails
    ensures "alarm_state" in ev.detail && ev.detail["alarm_state"].Str?
    ensures var r := Handle(ev, ctx).alertItem.value;
      r.alarmState == Some(Lower(ev.detail["alarm_state"].s)) &&
      r.alarmId == Some(ev.detail["alarm_id"]) &&
      r.detail["pipeline_state"] ==
        Bool(PipelineState(ev.source, Stamped(ev), SelectArn(ev.arnMatches, ev.resources).value, ctx.queryContent))
  {
  }

  /** A MediaConnect alert is "set" exactly when `errored` is True, and carries the error
      code and message under `alert_type` and `message` only. */
  lemma MediaConnectAlertFields(ev: Event, ctx: Context)
    requires HandleDefined(ev, ctx)
    requires IsAlert(ev) && !Contains(ev.detailType, "MediaLive") && Contains(ev.detailType, "MediaConnect")
    requires !ctx.alertPutFails
    ensures HasConnectFields(ev.detail)
    ensures var r := Handle(ev, ctx).alertItem.value;
      (r.alarmState == Some("set") <==> EqualsTrue(ev.detail["errored"])) &&
      r.alarmId == Some(ev.detail["error-id"]) &&
      r.detail["alert_type"] == ev.detail["error-code"] && r.detail["message"] == ev.detail["error-message"] &&
      "error-code" !in r.detail && "error-message" !in r.detail
  {
  }

  /** The first part of `lambda_handler`, up to the alert write: timestamps, ARN
      selection and the alert branch, step by step on the event record. */
  method NormaliseForAlert(ev: Event, ctx: Context) returns (e: Record)
    requires IsAlert(ev) ==>
      AlertDefined(ev.detailType, ev.source, Stamped(ev), SelectArn(ev.arnMatches, ev.resources), ctx.queryContent)
    ensures e == AlertRecord(ev, ctx)
  {
    e := Record(ev.source, ev.detailType, ev.time, ev.region, ev.account, ev.resources, ev.detail,
                ctx.epochSeconds, 0, None, None, None, None, None);
    e := e.(expires := e.timestamp + ctx.itemTtl);
    e := e.(detail := e.detail["time" := Str(e.time)]);

    var arns := FilterArns(ev.arnMatches);
    if arns != [] {
      e := e.(resourceArn := Some(Unquote(arns[0])));
    }
    if arns == [] && e.resources != [] {
      if !Contains(e.resources[0], "vod") {
        e := e.(resourceArn := Some(e.resources[0]));
      }
    }
    assert e.resourceArn == SelectArn(ev.arnMatches, ev.resources);

    if Contains(e.detailType, "Alert") {
      e := SetAlertFields(e, ctx);
    }
  }

  /** The alert branch, step by step on the event record: the alarm fields and the
      reshaped detail of `AlertStage`, every other field unchanged. */
  method SetAlertFields(stamped: Record, ctx: Context) returns (e: Record)
    requires AlertDefined(stamped.detailType, stamped.source, stamped.detail, stamped.resourceArn, ctx.queryContent)
    requires stamped.alarmId.None? && stamped.alarmState.None?
    ensures var view := AlertStage(stamped.detailType, stamped.source, stamped.detail, stamped.resourceArn, ctx.queryContent);
            e == stamped.(alarmId := view.alarmId, alarmState := view.alarmState, detail := view.detail)
  {
    e := stamped;
    if Contains(e.detailType, "MediaLive") {
      e := e.(alarmId := Some(e.detail["alarm_id"]));
      e := e.(alarmState := Some(Lower(e.detail["alarm_state"].s)));
      var running := PipelineState(e.source, e.detail, e.resourceArn.value, ctx.queryContent);
      e := e.(detail := e.detail["pipeline_state" := Bool(running)]);
      assert e.detail == AlertStage(stamped.detailType, stamped.source, stamped.detail, stamped.resourceArn, ctx.queryContent).detail;
    } else if Contains(e.detailType, "MediaConnect") {
      e := e.(alarmId := Some(e.detail["error-id"]));
      if EqualsTrue(e.detail["errored"]) {
        e := e.(alarmState := Some("set"));
      } else {
        e := e.(alarmState := Some("cleared"));
      }
      e := e.(detail := e.detail["alert_type" := e.detail["error-code"]]);
      e := e.(detail := e.detail - {"error-code"});
      e := e.(detail := e.detail["message" := e.detail["error-message"]]);
      e := e.(detail := e.detail - {"error-message"});
      assert e.detail == ReshapeConnectDetail(stamped.detail);
      assert e.alarmState == Some(ConnectAlarmState(stamped.detail["errored"]));
    }
  }

  /** The history fields the handler sets after the alert write: the millisecond sort
      key, `data` and `type`. */
  method SetHistoryFields(ev: Event, ctx: Context, alerted: Record) returns (e: Record)
    requires HandleDefined(ev, ctx)
    requires !(IsAlert(ev) && ctx.alertPutFails)
    requires alerted == AlertRecord(ev, ctx)
    ensures e == TypedRecord(ev, ctx)
  {
    e := alerted;
    e := e.(timestamp := e.timestamp * 1000 + ctx.jitter);
    e := e.(data := Some(e.detail));
    e := e.(typ := Some(e.detailType));
    if "eventName" in e.detail {
      e := e.(typ := Some(e.typ.value + ": " + e.detail["eventName"].s));
    }
  }

  /** The per-source overrides of `resource_arn`, or the
      ClientError of `describe_origin_endpoint`. */
  method ApplyOverrides(ev: Event, ctx: Context, typed: Record) returns (outcome: ArnOutcome)
    requires HandleDefined(ev, ctx)
    requires !(IsAlert(ev) && ctx.alertPutFails)
    requires typed == TypedRecord(ev, ctx)
    ensures outcome == FinalArn(ev, ctx)
  {
    var e := typed;
    if e.source == "aws.medialive" {
      if Contains(e.typ.value, "BatchUpdateSchedule") {
        e := e.(resourceArn := Some("arn:aws:medialive:" + e.region + ":" + e.account + ":channel:" +
                                    e.detail["requestParameters"].fields["channelId"].s));
      }
    } else if e.source == "aws.mediapackage" {
      if Contains(e.typ.value, "HarvestJob") {
        if ev.originEndpointIds != [] {
          var answer := ctx.describeOriginEndpoint(ev.originEndpointIds[0]);
          if answer.DescribeFailed? {
            return DescribeError(answer.message);
          }
          e := e.(resourceArn := Some(answer.arn));
        }
      }
    } else if e.source == "aws.mediastore" {
      if Contains(e.typ.value, "MediaStore Object State Change") {
        var pieces := Split(e.resourceArn.value, '/');
        e := e.(resourceArn := Some(pieces[0] + "/" + pieces[1]));
      }
    }
    outcome := Resolved(e.resourceArn);
  }

  /** `lambda_handler`: the alert write, then the sort key, `type`, the per-source
      overrides and the history write, step by step on the event record. */
  method LambdaHandler(ev: Event, ctx: Context) returns (d: Disposition)
    requires 1 <= ctx.jitter <= 999
    requires HandleDefined(ev, ctx)
    ensures d == Handle(ev, ctx)
  {
    var e := NormaliseForAlert(ev, ctx);
    var alertItem: Option<Record> := None;
    if Contains(e.detailType, "Alert") {
      if ctx.alertPutFails {
        return Disposition(None, None);
      }
      alertItem := Some(e);
    }

    e := SetHistoryFields(ev, ctx, e);
    var outcome := ApplyOverrides(ev, ctx, e);
    if outcome.DescribeError? {
      return Disposition(alertItem, None);
    }
    e := e.(resourceArn := outcome.arn);

    var historyItem: Option<Record> := None;
    if e.resourceArn.Some? && !ctx.historyPutFails {
      historyItem := Some(e);
    }
    d := Disposition(alertItem, historyItem);
  }
}
