/** The validation-and-dispatch layer of the collection API
    (metadataStore/collectionapi/commands.py): `create`, `record`, `search`
    and `end_collection`. Each entry point checks loosely-typed dictionaries,
    fills the defaults of the omitted optional fields and forwards one call
    per record to the persistence gateway. */
module Commands {
  import opened PyValues
  import opened RawCommands

  /** The two environment reads of the source: `getpass.getuser()` and
      `datetime.datetime.utcnow()`. */
  datatype Env = Env(user: string, utcNow: int)

  /** The exceptions an entry point raises. */
  datatype Error =
    | TypeError(message: string)
    | ValueError(message: string)
    | GatewayFailure(cause: GatewayError)

  /** How a call into the collection API ends: it returns a value or raises. */
  datatype Outcome = Done(value: Value) | Failed(error: Error)

  /** The gateway calls an entry point issued, in order, and how it ended.
      A failing gateway call is listed: it was issued, then it raised. */
  datatype Trace = Trace(calls: seq<Call>, outcome: Outcome)

  /** The decision taken on one argument of `create` (or on the event of
      `record`): nothing to do for `None`, an exception, or one gateway call. */
  datatype Stage = Skip | Invalid(error: Error) | Send(call: Call)

  const HeaderNotDict := "Header must be a Python dictionary "
  const ScanIdRequired := "scan_id is a required field"
  const ScanIdNotInt := "scan_id must be an integer"
  const BeamlineConfigNotDict := "BeamlineConfig must be a Python dictionary"
  const DescriptorScanIdRequired := "scan_id is required for EventDescriptor entries"
  const DescriptorNameRequired := "descriptor_name is required for EventDescriptor"
  const EventDescriptorNotDict := "EventDescriptor must be a Python dictionary"
  const EventScanIdRequired := "scan_id is required in order to record an event"
  const EventDescriptorRequired := "Descriptor is required in order to record an event"
  const SeqNoRequired := "seq_no is required field"
  const InProgress := "In Progress"

  /** The default of every optional field of a header. */
  function HeaderDefaults(env: Env): Dict {
    map["start_time" := VDateTime(env.utcNow), "owner" := VStr(env.user),
        "beamline_id" := VNone, "custom" := EmptyDict, "status" := VStr(InProgress)]
  }

  /** The default of the optional field of a beamline configuration. */
  const BeamlineConfigDefaults: Dict := map["config_params" := EmptyDict]

  /** The default of every optional field of an event descriptor. */
  const EventDescriptorDefaults: Dict :=
    map["event_type_id" := VNone, "type_descriptor" := EmptyDict, "tag" := VNone]

  /** The default of every optional field of an event. */
  function EventDefaults(env: Env): Dict {
    map["owner" := VStr(env.user), "data" := EmptyDict, "description" := VNone]
  }

  // ---------------------------------------------------------------------
  // Validation of one record
  // ---------------------------------------------------------------------

  /** The checks and defaults `create` applies to a header dictionary. */
  function ValidateHeader(h: Dict, env: Env): (s: Stage)
    ensures !s.Skip?
    ensures s.Send? <==> "scan_id" in h && IsInstanceInt(h["scan_id"])
    ensures "scan_id" !in h ==> s == Invalid(ValueError(ScanIdRequired))
    ensures "scan_id" in h && !IsInstanceInt(h["scan_id"]) ==> s == Invalid(TypeError(ScanIdNotInt))
    ensures s.Send? ==>
      var m := HeaderDefaults(env) + h;
      s.call == SaveHeader(h["scan_id"], m["owner"], m["start_time"],
                           m["beamline_id"], m["status"], m["custom"])
  {
    if "scan_id" !in h then Invalid(ValueError(ScanIdRequired))
    else if !IsInstanceInt(h["scan_id"]) then Invalid(TypeError(ScanIdNotInt))
    else
      Send(SaveHeader(
        scanId := h["scan_id"],
        headerOwner := GetOr(h, "owner", VStr(env.user)),
        startTime := GetOr(h, "start_time", VDateTime(env.utcNow)),
        beamlineId := GetOr(h, "beamline_id", VNone),
        status := GetOr(h, "status", VStr(InProgress)),
        custom := GetOr(h, "custom", EmptyDict)))
  }

  /** The checks and defaults `create` applies to a beamline configuration:
      `scan_id` must be present, whatever its type. */
  function ValidateBeamlineConfig(c: Dict): (s: Stage)
    ensures !s.Skip?
    ensures s.Send? <==> "scan_id" in c
    ensures "scan_id" !in c ==> s == Invalid(ValueError(ScanIdRequired))
    ensures s.Send? ==>
      s.call == SaveBeamlineConfig(c["scan_id"], (BeamlineConfigDefaults + c)["config_params"])
  {
    if "scan_id" !in c then Invalid(ValueError(ScanIdRequired))
    else
      Send(SaveBeamlineConfig(
        scanId := c["scan_id"],
        configParams := GetOr(c, "config_params", EmptyDict)))
  }

  /** The checks and defaults `create` applies to an event descriptor:
      `scan_id` is checked before `descriptor_name`, neither for its type. */
  function ValidateEventDescriptor(d: Dict): (s: Stage)
    ensures !s.Skip?
    ensures s.Send? <==> "scan_id" in d && "descriptor_name" in d
    ensures "scan_id" !in d ==> s == Invalid(ValueError(DescriptorScanIdRequired))
    ensures "scan_id" in d && "descriptor_name" !in d ==>
      s == Invalid(ValueError(DescriptorNameRequired))
    ensures s.Send? ==>
      var m := EventDescriptorDefaults + d;
      s.call == InsertEventDescriptor(d["scan_id"], m["event_type_id"], d["descriptor_name"],
                                      m["type_descriptor"], m["tag"])
  {
    if "scan_id" !in d then Invalid(ValueError(DescriptorScanIdRequired))
    else
      var eventTypeId := GetOr(d, "event_type_id", VNone);
      if "descriptor_name" !in d then Invalid(ValueError(DescriptorNameRequired))
      else
        Send(InsertEventDescriptor(
          scanId := d["scan_id"],
          eventTypeId := eventTypeId,
          descriptorName := d["descriptor_name"],
          typeDescriptor := GetOr(d, "type_descriptor", EmptyDict),
          tag := GetOr(d, "tag", VNone)))
  }

  /** The checks and defaults `record` applies to an event: `scan_id`,
      `descriptor_name` and `seq_no` are required and checked in that order. */
  function ValidateEvent(e: Dict, env: Env): (s: Stage)
    ensures !s.Skip?
    ensures s.Send? <==> "scan_id" in e && "descriptor_name" in e && "seq_no" in e
    ensures "scan_id" !in e ==> s == Invalid(ValueError(EventScanIdRequired))
    ensures "scan_id" in e && "descriptor_name" !in e ==>
      s == Invalid(ValueError(EventDescriptorRequired))
    ensures "scan_id" in e && "descriptor_name" in e && "seq_no" !in e ==>
      s == Invalid(ValueError(SeqNoRequired))
    ensures s.Send? ==>
      var m := EventDefaults(env) + e;
      s.call == InsertEvent(e["scan_id"], e["descriptor_name"], m["owner"],
                            e["seq_no"], m["data"], m["description"])
  {
    if "scan_id" !in e then Invalid(ValueError(EventScanIdRequired))
    else if "descriptor_name" !in e then Invalid(ValueError(EventDescriptorRequired))
    else
      var description := GetOr(e, "description", VNone);
      var owner := GetOr(e, "owner", VStr(env.user));
      if "seq_no" !in e then Invalid(ValueError(SeqNoRequired))
      else
        Send(InsertEvent(
          scanId := e["scan_id"],
          descriptorName := e["descriptor_name"],
          owner := owner,
          seqNo := e["seq_no"],
          data := GetOr(e, "data", EmptyDict),
          description := description))
  }

  /** The `header` argument of `create`: skipped when `None`, refused when
      it is not a dictionary, validated otherwise. */
  function PrepareHeader(header: Value, env: Env): (s: Stage)
    ensures s.Skip? <==> header.VNone?
    ensures !header.VNone? && !IsInstanceDict(header) ==> s == Invalid(TypeError(HeaderNotDict))
    ensures header.VMap? ==> s == ValidateHeader(header.fields, env)
  {
    match header
    case VNone => Skip
    case VMap(h) => ValidateHeader(h, env)
    case _ => Invalid(TypeError(HeaderNotDict))
  }

  /** The `beamline_config` argument of `create`. */
  function PrepareBeamlineConfig(beamlineConfig: Value): (s: Stage)
    ensures s.Skip? <==> beamlineConfig.VNone?
    ensures !beamlineConfig.VNone? && !IsInstanceDict(beamlineConfig) ==>
      s == Invalid(TypeError(BeamlineConfigNotDict))
    ensures beamlineConfig.VMap? ==> s == ValidateBeamlineConfig(beamlineConfig.fields)
  {
    match beamlineConfig
    case VNone => Skip
    case VMap(c) => ValidateBeamlineConfig(c)
    case _ => Invalid(TypeError(BeamlineConfigNotDict))
  }

  /** The `event_descriptor` argument of `create`. */
  function PrepareEventDescriptor(eventDescriptor: Value): (s: Stage)
    ensures s.Skip? <==> eventDescriptor.VNone?
    ensures !eventDescriptor.VNone? && !IsInstanceDict(eventDescriptor) ==>
      s == Invalid(TypeError(EventDescriptorNotDict))
    ensures eventDescriptor.VMap? ==> s == ValidateEventDescriptor(eventDescriptor.fields)
  {
    match eventDescriptor
    case VNone => Skip
    case VMap(d) => ValidateEventDescriptor(d)
    case _ => Invalid(TypeError(EventDescriptorNotDict))
  }

  /** The three decisions `create` takes, in the order it takes them. */
  function CreateStages(env: Env, header: Value, beamlineConfig: Value, eventDescriptor: Value): seq<Stage> {
    [PrepareHeader(header, env), PrepareBeamlineConfig(beamlineConfig), PrepareEventDescriptor(eventDescriptor)]
  }

  // ---------------------------------------------------------------------
  // Dispatch
  // ---------------------------------------------------------------------

  /** The gateway calls of the stages that pass validation, in order. */
  function Sends(stages: seq<Stage>): (r: seq<Call>)
    ensures |r| <= |stages|
    ensures forall c | c in r :: exists i | 0 <= i < |stages| :: stages[i] == Send(c)
  {
    if stages == [] then []
    else (if stages[0].Send? then [stages[0].call] else []) + Sends(stages[1..])
  }

  /** Running one trace after another: the second counts only when the
      first returned, and its calls come after the first one's. */
  function Then(first: Trace, second: Trace): (t: Trace)
    ensures first.calls <= t.calls
    ensures first.outcome.Failed? ==> t == first
    ensures first.outcome.Done? ==> t.outcome == second.outcome && |t.calls| == |first.calls| + |second.calls|
  {
    if first.outcome.Failed? then first else Trace(first.calls + second.calls, second.outcome)
  }

  /** What one stage does on its own: nothing, raise its validation error,
      or issue its call and surface the gateway's exception unchanged. */
  function StageTrace(gw: Gateway, s: Stage): (t: Trace)
    ensures t.calls == (if s.Send? then [s.call] else [])
    ensures t.outcome.Done? ==> t.outcome.value == VNone
  {
    match s
    case Skip => Trace([], Done(VNone))
    case Invalid(e) => Trace([], Failed(e))
    case Send(c) =>
      match gw(c)
      case Returned(_) => Trace([c], Done(VNone))
      case Raised(e) => Trace([c], Failed(GatewayFailure(e)))
  }

  /** Processes the stages in order. The first exception stops everything,
      and nothing already written is undone. */
  function Run(gw: Gateway, stages: seq<Stage>): (t: Trace)
    ensures t.calls <= Sends(stages)
    ensures t.outcome.Done? ==> t.calls == Sends(stages) && t.outcome.value == VNone
  {
    if stages == [] then Trace([], Done(VNone))
    else Then(StageTrace(gw, stages[0]), Run(gw, stages[1..]))
  }

  // ---------------------------------------------------------------------
  // Entry points
  // ---------------------------------------------------------------------

  /** `create(header=None, beamline_config=None, event_descriptor=None)`. */
  function Create(gw: Gateway, env: Env, header: Value := VNone, beamlineConfig: Value := VNone,
                  eventDescriptor: Value := VNone): (t: Trace)
    ensures t.calls <= Sends(CreateStages(env, header, beamlineConfig, eventDescriptor))
    ensures t.outcome.Done? ==> t.outcome.value == VNone
  {
    Run(gw, CreateStages(env, header, beamlineConfig, eventDescriptor))
  }

  /** `record(event=dict())`. */
  function Record(gw: Gateway, env: Env, event: Dict := map[]): (t: Trace)
    ensures |t.calls| <= 1
    ensures t.outcome.Done? ==> t.outcome.value == VNone
  {
    Run(gw, [ValidateEvent(event, env)])
  }

  /** `search(scan_id=None, owner=None, start_time=None, beamline_id=None,
      end_time=None, data=False)`: one `find` call, whose result is returned
      as it is. */
  function Search(gw: Gateway, scanId: Value := VNone, owner: Value := VNone, startTime: Value := VNone,
                  beamlineId: Value := VNone, endTime: Value := VNone, data: Value := VBool(false)): (t: Trace)
    ensures |t.calls| == 1 && t.calls[0].Find?
    ensures gw(t.calls[0]).Returned? <==> t.outcome.Done?
  {
    var c := Find(scanId, owner, startTime, beamlineId, endTime, data);
    match gw(c)
    case Returned(v) => Trace([c], Done(v))
    case Raised(e) => Trace([c], Failed(GatewayFailure(e)))
  }

  /** `end_collection()`: does nothing. */
  function EndCollection(): (t: Trace)
    ensures t.calls == [] && t.outcome == Done(VNone)
  {
    Trace([], Done(VNone))
  }
}
