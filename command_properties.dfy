/** What `create`, `record` and `search` promise their callers: the error
    precedence, the default table, the order of the gateway calls and the
    absence of rollback. */
module CommandProperties {
  import opened PyValues
  import opened RawCommands
  import opened Commands
  import opened DispatchProperties

  /** `Create` unfolded into its three stages, run one after the other. */
  lemma CreateUnfold(gw: Gateway, env: Env, header: Value, beamlineConfig: Value, eventDescriptor: Value)
    ensures Create(gw, env, header, beamlineConfig, eventDescriptor) ==
      Then(StageTrace(gw, PrepareHeader(header, env)),
        Then(StageTrace(gw, PrepareBeamlineConfig(beamlineConfig)),
          Then(StageTrace(gw, PrepareEventDescriptor(eventDescriptor)), Trace([], Done(VNone)))))
  {
    var s := CreateStages(env, header, beamlineConfig, eventDescriptor);
    assert s[1..][0] == s[1] && s[1..][1..][0] == s[2];
    assert s[1..][1..][1..] == [];
    assert Run(gw, s[1..][1..]) == Then(StageTrace(gw, s[2]), Run(gw, []));
    assert Run(gw, s[1..]) == Then(StageTrace(gw, s[1]), Run(gw, s[1..][1..]));
  }

  // ---------------------------------------------------------------------
  // create: order and partial writes
  // ---------------------------------------------------------------------

  /** `create` handles the header first, then the beamline configuration,
      then the event descriptor; a later argument is looked at only when
      the earlier ones went through, and what they wrote stays written. */
  lemma CreateInOrder(gw: Gateway, env: Env, header: Value, beamlineConfig: Value, eventDescriptor: Value)
    ensures Create(gw, env, header, beamlineConfig, eventDescriptor) ==
      Then(Create(gw, env, header), Create(gw, env, VNone, beamlineConfig, eventDescriptor))
    ensures Create(gw, env, header, beamlineConfig, eventDescriptor) ==
      Then(Create(gw, env, header, beamlineConfig), Create(gw, env, VNone, VNone, eventDescriptor))
  {
    var h := PrepareHeader(header, env);
    var b := PrepareBeamlineConfig(beamlineConfig);
    var d := PrepareEventDescriptor(eventDescriptor);
    CreateUnfold(gw, env, header, beamlineConfig, eventDescriptor);
    CreateUnfold(gw, env, header, VNone, VNone);
    CreateUnfold(gw, env, header, beamlineConfig, VNone);
    CreateUnfold(gw, env, VNone, beamlineConfig, eventDescriptor);
    CreateUnfold(gw, env, VNone, VNone, eventDescriptor);
    var done := Trace([], Done(VNone));
    assert Then(done, done) == done;
    var th, tb, td := StageTrace(gw, h), StageTrace(gw, b), StageTrace(gw, d);
    assert Then(done, Then(tb, Then(td, done))) == Then(tb, Then(td, done)) by {
      assert [] + Then(tb, Then(td, done)).calls == Then(tb, Then(td, done)).calls;
    }
    assert Then(done, Then(done, Then(td, done))) == Then(td, done) by {
      assert [] + Then(td, done).calls == Then(td, done).calls;
    }
    assert Then(th, done) == th by {
      if th.outcome.Done? { assert th.calls + [] == th.calls; }
    }
    ThenAssociative(th, tb, Then(td, done));
    assert Then(tb, done) == tb by {
      if tb.outcome.Done? { assert tb.calls + [] == tb.calls; }
    }
    ThenAssociative(th, tb, done);
    ThenAssociative(Then(th, tb), td, done);
    ThenAssociative(th, Then(tb, done), Then(td, done));
  }

  /** A `header` that is neither `None` nor a dictionary raises `TypeError`
      before anything is written. */
  lemma CreateHeaderNotDict(gw: Gateway, env: Env, header: Value, beamlineConfig: Value, eventDescriptor: Value)
    requires !header.VNone? && !IsInstanceDict(header)
    ensures Create(gw, env, header, beamlineConfig, eventDescriptor) ==
      Trace([], Failed(TypeError(HeaderNotDict)))
  {
    CreateUnfold(gw, env, header, beamlineConfig, eventDescriptor);
  }

  /** A `beamline_config` that is neither `None` nor a dictionary raises
      `TypeError` after the header, if any, was saved; nothing is undone and
      the event descriptor is not looked at. */
  lemma CreateBeamlineConfigNotDict(gw: Gateway, env: Env, header: Value, beamlineConfig: Value, eventDescriptor: Value)
    requires Create(gw, env, header).outcome.Done?
    requires !beamlineConfig.VNone? && !IsInstanceDict(beamlineConfig)
    ensures Create(gw, env, header, beamlineConfig, eventDescriptor) ==
      Trace(Create(gw, env, header).calls, Failed(TypeError(BeamlineConfigNotDict)))
  {
    CreateInOrder(gw, env, header, beamlineConfig, eventDescriptor);
    CreateUnfold(gw, env, VNone, beamlineConfig, eventDescriptor);
    assert Create(gw, env, header).calls + [] == Create(gw, env, header).calls;
  }

  /** An `event_descriptor` that is neither `None` nor a dictionary raises
      `TypeError` after the earlier records were saved, without undoing them. */
  lemma CreateEventDescriptorNotDict(gw: Gateway, env: Env, header: Value, beamlineConfig: Value, eventDescriptor: Value)
    requires Create(gw, env, header, beamlineConfig).outcome.Done?
    requires !eventDescriptor.VNone? && !IsInstanceDict(eventDescriptor)
    ensures Create(gw, env, header, beamlineConfig, eventDescriptor) ==
      Trace(Create(gw, env, header, beamlineConfig).calls, Failed(TypeError(EventDescriptorNotDict)))
  {
    CreateInOrder(gw, env, header, beamlineConfig, eventDescriptor);
    CreateUnfold(gw, env, VNone, VNone, eventDescriptor);
    assert Create(gw, env, header, beamlineConfig).calls + [] == Create(gw, env, header, beamlineConfig).calls;
  }

  /** The number of arguments of `create` that are not `None`. */
  function SuppliedArguments(header: Value, beamlineConfig: Value, eventDescriptor: Value): (n: nat)
    ensures n <= 3
  {
    (if header.VNone? then 0 else 1) + (if beamlineConfig.VNone? then 0 else 1)
      + (if eventDescriptor.VNone? then 0 else 1)
  }

  /** `create` issues at most one gateway call per argument that is not
      `None`, and only write calls. */
  lemma CreateAtMostOneCallPerArgument(gw: Gateway, env: Env, header: Value, beamlineConfig: Value, eventDescriptor: Value)
    ensures |Create(gw, env, header, beamlineConfig, eventDescriptor).calls|
            <= SuppliedArguments(header, beamlineConfig, eventDescriptor)
    ensures forall c | c in Create(gw, env, header, beamlineConfig, eventDescriptor).calls :: c.IsWrite()
  {
    var s := CreateStages(env, header, beamlineConfig, eventDescriptor);
    RunAtMostOneCallPerStage(gw, s);
    assert s[1..][1..][1..] == [];
    assert Supplied(s[1..][1..]) == (if eventDescriptor.VNone? then 0 else 1);
    assert Supplied(s) == SuppliedArguments(header, beamlineConfig, eventDescriptor);
    assert Sends(s[1..][1..][1..]) == [];
    assert forall c | c in Sends(s) :: c.IsWrite();
  }

  /** With all three arguments valid and a gateway that accepts each write,
      `create` issues exactly three calls: save_header, save_beamline_config
      and insert_event_descriptor, in that order, and returns `None`. */
  lemma CreateAllThree(gw: Gateway, env: Env, h: Dict, c: Dict, d: Dict)
    requires ValidateHeader(h, env).Send? && ValidateBeamlineConfig(c).Send? && ValidateEventDescriptor(d).Send?
    requires gw(ValidateHeader(h, env).call).Returned?
    requires gw(ValidateBeamlineConfig(c).call).Returned?
    requires gw(ValidateEventDescriptor(d).call).Returned?
    ensures Create(gw, env, VMap(h), VMap(c), VMap(d)) ==
      Trace([ValidateHeader(h, env).call, ValidateBeamlineConfig(c).call, ValidateEventDescriptor(d).call],
            Done(VNone))
  {
    CreateUnfold(gw, env, VMap(h), VMap(c), VMap(d));
  }

  /** `create` returns `None` exactly when no argument is refused and the
      gateway accepts every write it is given. */
  lemma CreateSucceedsIff(gw: Gateway, env: Env, header: Value, beamlineConfig: Value, eventDescriptor: Value)
    ensures Create(gw, env, header, beamlineConfig, eventDescriptor).outcome.Done? <==>
      && !Rejects(gw, PrepareHeader(header, env))
      && !Rejects(gw, PrepareBeamlineConfig(beamlineConfig))
      && !Rejects(gw, PrepareEventDescriptor(eventDescriptor))
  {
    CreateUnfold(gw, env, header, beamlineConfig, eventDescriptor);
  }

  /** A write that the gateway answers by raising stops `create`: the
      exception surfaces unchanged, the failed call was the last one issued
      and the later arguments are not looked at, even invalid ones. */
  lemma CreateHeaderGatewayFailure(gw: Gateway, env: Env, h: Dict, beamlineConfig: Value, eventDescriptor: Value)
    requires ValidateHeader(h, env).Send? && gw(ValidateHeader(h, env).call).Raised?
    ensures Create(gw, env, VMap(h), beamlineConfig, eventDescriptor) ==
      Trace([ValidateHeader(h, env).call], Failed(GatewayFailure(gw(ValidateHeader(h, env).call).error)))
  {
    CreateUnfold(gw, env, VMap(h), beamlineConfig, eventDescriptor);
  }

  // ---------------------------------------------------------------------
  // create: the header
  // ---------------------------------------------------------------------

  /** A header without `scan_id` raises `ValueError`; one whose `scan_id` is
      not an int (or a bool, which Python counts as an int) raises
      `TypeError`. Either way save_header is not called. */
  lemma CreateHeaderErrors(gw: Gateway, env: Env, h: Dict, beamlineConfig: Value, eventDescriptor: Value)
    ensures "scan_id" !in h ==>
      Create(gw, env, VMap(h), beamlineConfig, eventDescriptor) == Trace([], Failed(ValueError(ScanIdRequired)))
    ensures "scan_id" in h && !(h["scan_id"].VInt? || h["scan_id"].VBool?) ==>
      Create(gw, env, VMap(h), beamlineConfig, eventDescriptor) == Trace([], Failed(TypeError(ScanIdNotInt)))
  {
    CreateUnfold(gw, env, VMap(h), beamlineConfig, eventDescriptor);
  }

  /** A valid header alone yields exactly one save_header call. Its
      `scan_id` is the header's; every optional field the header gives is
      forwarded unchanged (`owner` as `header_owner`), and every omitted one
      takes its default: the current time, the current user, `None`, an
      empty dictionary and `'In Progress'`. */
  lemma CreateHeaderDefaults(gw: Gateway, env: Env, h: Dict)
    requires "scan_id" in h && IsInstanceInt(h["scan_id"])
    ensures var t := Create(gw, env, VMap(h));
      && |t.calls| == 1
      && t.calls[0].SaveHeader?
      && t.calls[0].scanId == h["scan_id"]
      && t.calls[0].startTime == (if "start_time" in h then h["start_time"] else VDateTime(env.utcNow))
      && t.calls[0].headerOwner == (if "owner" in h then h["owner"] else VStr(env.user))
      && t.calls[0].beamlineId == (if "beamline_id" in h then h["beamline_id"] else VNone)
      && t.calls[0].custom == (if "custom" in h then h["custom"] else VMap(map[]))
      && t.calls[0].status == (if "status" in h then h["status"] else VStr("In Progress"))
      && (t.outcome.Done? <==> gw(t.calls[0]).Returned?)
  {
    CreateUnfold(gw, env, VMap(h), VNone, VNone);
  }

  // ---------------------------------------------------------------------
  // create: the beamline configuration and the event descriptor
  // ---------------------------------------------------------------------

  /** A beamline configuration needs only `scan_id`, of any type; it is
      saved with its `config_params`, or an empty dictionary. Without
      `scan_id` it raises `ValueError` and nothing is written. */
  lemma CreateBeamlineConfigFields(gw: Gateway, env: Env, c: Dict)
    ensures "scan_id" !in c ==>
      Create(gw, env, VNone, VMap(c)) == Trace([], Failed(ValueError(ScanIdRequired)))
    ensures "scan_id" in c ==>
      Create(gw, env, VNone, VMap(c)).calls ==
        [SaveBeamlineConfig(c["scan_id"], if "config_params" in c then c["config_params"] else VMap(map[]))]
  {
    CreateUnfold(gw, env, VNone, VMap(c), VNone);
  }

  /** An event descriptor checks `scan_id` before `descriptor_name`, neither
      for its type; the first missing one raises `ValueError` and nothing is
      written. A complete one is inserted with `event_type_id` and `tag`
      defaulting to `None` and `type_descriptor` to an empty dictionary. */
  lemma CreateEventDescriptorFields(gw: Gateway, env: Env, d: Dict)
    ensures "scan_id" !in d ==>
      Create(gw, env, VNone, VNone, VMap(d)) == Trace([], Failed(ValueError(DescriptorScanIdRequired)))
    ensures "scan_id" in d && "descriptor_name" !in d ==>
      Create(gw, env, VNone, VNone, VMap(d)) == Trace([], Failed(ValueError(DescriptorNameRequired)))
    ensures "scan_id" in d && "descriptor_name" in d ==>
      Create(gw, env, VNone, VNone, VMap(d)).calls ==
        [InsertEventDescriptor(
           d["scan_id"],
           if "event_type_id" in d then d["event_type_id"] else VNone,
           d["descriptor_name"],
           if "type_descriptor" in d then d["type_descriptor"] else VMap(map[]),
           if "tag" in d then d["tag"] else VNone)]
  {
    CreateUnfold(gw, env, VNone, VNone, VMap(d));
  }

  /** Only the header's `scan_id` is checked for its type: the same
      dictionary with a string `scan_id` is refused as a header and accepted
      as a beamline configuration and as an event descriptor. */
  lemma ScanIdTypeCheckedOnlyForHeader(gw: Gateway, env: Env)
    ensures var d := map["scan_id" := VStr("abc"), "descriptor_name" := VStr("ascan")];
      && Create(gw, env, VMap(d)).outcome == Failed(TypeError(ScanIdNotInt))
      && |Create(gw, env, VNone, VMap(d)).calls| == 1
      && |Create(gw, env, VNone, VNone, VMap(d)).calls| == 1
  {
    var d := map["scan_id" := VStr("abc"), "descriptor_name" := VStr("ascan")];
    CreateHeaderErrors(gw, env, d, VNone, VNone);
    CreateBeamlineConfigFields(gw, env, d);
    CreateEventDescriptorFields(gw, env, d);
  }

  // ---------------------------------------------------------------------
  // record
  // ---------------------------------------------------------------------

  /** `record` raises `ValueError` for the first of `scan_id`,
      `descriptor_name` and `seq_no` that is missing, and then calls
      nothing. */
  lemma RecordRequiredFields(gw: Gateway, env: Env, e: Dict)
    ensures "scan_id" !in e ==>
      Record(gw, env, e) == Trace([], Failed(ValueError(EventScanIdRequired)))
    ensures "scan_id" in e && "descriptor_name" !in e ==>
      Record(gw, env, e) == Trace([], Failed(ValueError(EventDescriptorRequired)))
    ensures "scan_id" in e && "descriptor_name" in e && "seq_no" !in e ==>
      Record(gw, env, e) == Trace([], Failed(ValueError(SeqNoRequired)))
  {
    RunSingle(gw, ValidateEvent(e, env));
  }

  /** A `record` call with the three required fields issues exactly one
      insert_event. The required fields and every optional field the event
      gives are forwarded unchanged; `owner` defaults to the current user,
      `data` to an empty dictionary and `description` to `None`. It returns
      `None` unless the gateway raises, whose exception surfaces unchanged. */
  lemma RecordDefaults(gw: Gateway, env: Env, e: Dict)
    requires "scan_id" in e && "descriptor_name" in e && "seq_no" in e
    ensures var c := InsertEvent(
        e["scan_id"], e["descriptor_name"],
        if "owner" in e then e["owner"] else VStr(env.user),
        e["seq_no"],
        if "data" in e then e["data"] else VMap(map[]),
        if "description" in e then e["description"] else VNone);
      && Record(gw, env, e).calls == [c]
      && Record(gw, env, e).outcome ==
           (if gw(c).Returned? then Done(VNone) else Failed(GatewayFailure(gw(c).error)))
  {
    RunSingle(gw, ValidateEvent(e, env));
  }

  /** `record` returns normally exactly when the three required fields are
      there and the gateway accepts the event. */
  lemma RecordSucceedsIff(gw: Gateway, env: Env, e: Dict)
    ensures Record(gw, env, e).outcome.Done? <==>
      "scan_id" in e && "descriptor_name" in e && "seq_no" in e
      && gw(ValidateEvent(e, env).call).Returned?
  {
    RunSingle(gw, ValidateEvent(e, env));
  }

  /** The first usage example of `record`'s docstring omits `seq_no`, which
      the code requires: that call raises `ValueError`. An event with `seq_no`
      0 goes through, with the default owner and data. */
  lemma RecordExamples(gw: Gateway, env: Env)
    ensures Record(gw, env, map["scan_id" := VInt(1344), "descriptor_name" := VStr("ascan")]) ==
      Trace([], Failed(ValueError(SeqNoRequired)))
    ensures Record(gw, env, map["scan_id" := VInt(1), "descriptor_name" := VStr("ascan"), "seq_no" := VInt(0)]).calls ==
      [InsertEvent(VInt(1), VStr("ascan"), VStr(env.user), VInt(0), VMap(map[]), VNone)]
    ensures Record(gw, env) == Trace([], Failed(ValueError(EventScanIdRequired)))
  {
    RecordRequiredFields(gw, env, map["scan_id" := VInt(1344), "descriptor_name" := VStr("ascan")]);
    RecordDefaults(gw, env, map["scan_id" := VInt(1), "descriptor_name" := VStr("ascan"), "seq_no" := VInt(0)]);
    RecordRequiredFields(gw, env, map[]);
  }

  // ---------------------------------------------------------------------
  // search
  // ---------------------------------------------------------------------

  /** `search` issues one find call with its six arguments unchanged and
      returns what find returns, unmodified, or raises what find raises. */
  lemma SearchPassesThrough(gw: Gateway, scanId: Value, owner: Value, startTime: Value,
                            beamlineId: Value, endTime: Value, data: Value)
    ensures var c := Find(scanId, owner, startTime, beamlineId, endTime, data);
      && Search(gw, scanId, owner, startTime, beamlineId, endTime, data).calls == [c]
      && (gw(c).Returned? ==> Search(gw, scanId, owner, startTime, beamlineId, endTime, data).outcome == Done(gw(c).value))
      && (gw(c).Raised? ==> Search(gw, scanId, owner, startTime, beamlineId, endTime, data).outcome == Failed(GatewayFailure(gw(c).error)))
  {
  }

  /** Every filter of `search` defaults to `None` and `data` to `False`;
      `search(scan_id=42)` filters on the scan id alone. */
  lemma SearchDefaults(gw: Gateway)
    ensures Search(gw).calls == [Find(VNone, VNone, VNone, VNone, VNone, VBool(false))]
    ensures Search(gw, VInt(42)).calls == [Find(VInt(42), VNone, VNone, VNone, VNone, VBool(false))]
    ensures forall c | c in Search(gw).calls :: !c.IsWrite()
  {
  }
}
