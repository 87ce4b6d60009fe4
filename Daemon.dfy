/** The background daemon of sway_monitor_daemon.py: its profile table, the matcher that
    picks a stored configuration for a connected output, the reconciliation step run on
    every hot-plug event, and the snapshot of the current setup into the active profile. */
module Daemon {
  import opened Outcomes
  import opened Text
  import opened Dicts
  import opened Sway

  const DefaultProfile := "default"

  /** A named table from identifier to output configuration. */
  datatype MonitorProfile = MonitorProfile(name: string, configs: Configs)

  /** What a profile's `.json` file holds: nothing (no file), text that is not valid JSON,
      or a JSON object read as a table. */
  datatype ProfileFile = Absent | Corrupt | Parsed(configs: Configs)

  /** `MonitorProfile.load(name)`: a missing file gives an empty profile; a file that does
      not parse raises. */
  function LoadProfile(name: string, file: ProfileFile): (r: Result<MonitorProfile, Fault>)
    ensures r.Err? <==> file.Corrupt?
    ensures r.Ok? ==> r.value.name == name
    ensures file.Absent? ==> r == Ok(MonitorProfile(name, map[]))
    ensures file.Parsed? ==> r == Ok(MonitorProfile(name, file.configs))
  {
    match file
    case Absent => Ok(MonitorProfile(name, map[]))
    case Corrupt => Err(CorruptFile(name))
    case Parsed(c) => Ok(MonitorProfile(name, c))
  }

  // ---------------------------------------------------------------------------
  // Matcher

  /** The identifiers tried for an output, in precedence order. An absent model or serial
      is the empty string and is looked up literally (an output without either tries "_"). */
  function Identifiers(o: OutputInfo): seq<string>
  {
    [ModelSerial(o), o.model, o.name]
  }

  /** Index of the first of `ids` that is a key of `configs`; |ids| when none is. */
  function FirstKey(configs: Configs, ids: seq<string>): (i: nat)
    ensures i <= |ids|
    ensures forall j :: 0 <= j < i ==> ids[j] !in configs
    ensures i < |ids| ==> ids[i] in configs
  {
    if ids == [] then 0
    else if ids[0] in configs then 0
    else 1 + FirstKey(configs, ids[1..])
  }

  /** The entry of the first of `ids` that `configs` holds. */
  function Lookup(configs: Configs, ids: seq<string>): Option<Config>
  {
    var i := FirstKey(configs, ids);
    if i < |ids| then Some(configs[ids[i]]) else None
  }

  /** `configs` holds at least one of `ids`. */
  ghost predicate HoldsAny(configs: Configs, ids: seq<string>)
  {
    exists j :: 0 <= j < |ids| && ids[j] in configs
  }

  /** Index in iteration order, from `from` on, of the first profile holding one of `ids`;
      |d.order| when none does. */
  function FirstProfile(d: Dict<MonitorProfile>, ids: seq<string>, from: nat): (p: nat)
    requires d.Valid() && from <= |d.order|
    ensures from <= p <= |d.order|
    ensures forall q :: from <= q < p ==> FirstKey(d.entries[d.order[q]].configs, ids) == |ids|
    ensures p < |d.order| ==> FirstKey(d.entries[d.order[p]].configs, ids) < |ids|
    decreases |d.order| - from
  {
    if from == |d.order| then from
    else if FirstKey(d.entries[d.order[from]].configs, ids) < |ids| then from
    else FirstProfile(d, ids, from + 1)
  }

  /** `find_best_config`: the active profile is consulted first; then every profile in
      iteration order. An active name that is not a profile raises KeyError. */
  function BestConfig(d: Dict<MonitorProfile>, active: string, o: OutputInfo): (r: Result<Option<Config>, Fault>)
    requires d.Valid()
    ensures r.Err? ==> r.error == UnknownProfile(active)
    ensures r.Ok? && r.value.Some? ==>
              exists k, j :: k in d.entries && 0 <= j < 3 && Identifiers(o)[j] in d.entries[k].configs
                             && r.value.value == d.entries[k].configs[Identifiers(o)[j]]
  {
    if active !in d.entries then Err(UnknownProfile(active))
    else
      var ids := Identifiers(o);
      var own := Lookup(d.entries[active].configs, ids);
      if own.Some? then Ok(own)
      else
        var p := FirstProfile(d, ids, 0);
        if p < |d.order| then Ok(Lookup(d.entries[d.order[p]].configs, ids)) else Ok(None)
  }

  /** The matcher fails exactly when the active profile name is not a profile. */
  lemma UnknownActiveFails(d: Dict<MonitorProfile>, active: string, o: OutputInfo)
    requires d.Valid()
    ensures BestConfig(d, active, o).Err? <==> active !in d.entries
    ensures active !in d.entries ==> BestConfig(d, active, o) == Err(UnknownProfile(active))
  {
  }

  /** When the active profile holds identifier i and none before it, the match is the active
      profile's entry for i, whatever the other profiles hold. */
  lemma ActiveProfileWins(d: Dict<MonitorProfile>, active: string, o: OutputInfo, i: nat)
    requires d.Valid() && active in d.entries
    requires i < 3 && Identifiers(o)[i] in d.entries[active].configs
    requires forall j :: 0 <= j < i ==> Identifiers(o)[j] !in d.entries[active].configs
    ensures BestConfig(d, active, o) == Ok(Some(d.entries[active].configs[Identifiers(o)[i]]))
  {
    assert FirstKey(d.entries[active].configs, Identifiers(o)) == i;
  }

  /** `FirstKey` finds an identifier exactly when the table holds one. */
  lemma FirstKeyFinds(configs: Configs, ids: seq<string>)
    ensures FirstKey(configs, ids) < |ids| <==> HoldsAny(configs, ids)
  {
    var fk := FirstKey(configs, ids);
    assert fk < |ids| ==> ids[fk] in configs;
  }

  /** When the active profile holds none of the identifiers, the match comes from the first
      profile in iteration order that holds one, for the first identifier it holds. */
  lemma FallbackToFirstProfile(d: Dict<MonitorProfile>, active: string, o: OutputInfo, p: nat, i: nat)
    requires d.Valid() && active in d.entries
    requires !HoldsAny(d.entries[active].configs, Identifiers(o))
    requires p < |d.order|
    requires forall q :: 0 <= q < p ==> !HoldsAny(d.entries[d.order[q]].configs, Identifiers(o))
    requires i < 3 && Identifiers(o)[i] in d.entries[d.order[p]].configs
    requires forall j :: 0 <= j < i ==> Identifiers(o)[j] !in d.entries[d.order[p]].configs
    ensures BestConfig(d, active, o) == Ok(Some(d.entries[d.order[p]].configs[Identifiers(o)[i]]))
  {
    var ids := Identifiers(o);
    FirstKeyFinds(d.entries[active].configs, ids);
    forall q | 0 <= q < p ensures FirstKey(d.entries[d.order[q]].configs, ids) == |ids| {
      FirstKeyFinds(d.entries[d.order[q]].configs, ids);
    }
    assert FirstKey(d.entries[d.order[p]].configs, ids) == i;
    assert FirstProfile(d, ids, 0) == p;
  }

  /** No configuration is found exactly when no profile at all holds any of the identifiers. */
  lemma NoMatchIff(d: Dict<MonitorProfile>, active: string, o: OutputInfo)
    requires d.Valid() && active in d.entries
    ensures BestConfig(d, active, o) == Ok(None) <==>
            forall k :: k in d.entries ==> !HoldsAny(d.entries[k].configs, Identifiers(o))
  {
    var ids := Identifiers(o);
    if BestConfig(d, active, o) == Ok(None) {
      var p := FirstProfile(d, ids, 0);
      assert p == |d.order|;
      forall k | k in d.entries ensures !HoldsAny(d.entries[k].configs, ids) {
        var q :| 0 <= q < |d.order| && d.order[q] == k;
        assert FirstKey(d.entries[d.order[q]].configs, ids) == |ids|;
      }
    } else {
      var fk := FirstKey(d.entries[active].configs, ids);
      if fk < |ids| {
        assert ids[fk] in d.entries[active].configs;
      } else {
        var p := FirstProfile(d, ids, 0);
        var j := FirstKey(d.entries[d.order[p]].configs, ids);
        assert ids[j] in d.entries[d.order[p]].configs;
      }
    }
  }

  // ---------------------------------------------------------------------------
  // Reconciliation

  /** One `swaymsg output ...` invocation and whether it exited with status 0. */
  datatype Attempt = Attempt(output: string, cmd: Command, ok: bool)

  /** What one pass over the outputs did: the commands run in order, and the exception that
      ended the pass early, if one did. */
  datatype Pass = Pass(attempts: seq<Attempt>, fault: Option<Fault>)

  /** `if config:` on the matcher's result: None and the empty table both mean "no
      configuration". */
  predicate Configured(c: Option<Config>)
  {
    c.Some? && c.value != map[]
  }

  /** The apply loop of `update_monitor_configs`: each output with a configuration gets one
      command, in list order; a failed command does not stop the pass, an exception does.
      `run` says whether a command succeeds. */
  function ApplyAll(d: Dict<MonitorProfile>, active: string, outs: seq<OutputInfo>, run: Command -> bool): (p: Pass)
    requires d.Valid()
    ensures |p.attempts| <= |outs|
    ensures Outputs(p.attempts) <= ConfiguredNames(d, active, outs)
    ensures forall a :: a in p.attempts ==> |a.cmd| >= 4 && a.cmd[..3] == ["swaymsg", "output", a.output]
    decreases |outs|
  {
    if outs == [] then Pass([], None)
    else
      match BestConfig(d, active, outs[0])
      case Err(f) => Pass([], Some(f))
      case Ok(c) =>
        if !Configured(c) then ApplyAll(d, active, outs[1..], run)
        else
          match OutputCommand(outs[0].name, c.value)
          case Err(f) => Pass([], Some(f))
          case Ok(cmd) =>
            var rest := ApplyAll(d, active, outs[1..], run);
            Pass([Attempt(outs[0].name, cmd, run(cmd))] + rest.attempts, rest.fault)
  }

  /** The pass from output `i` on, one output at a time (what the loop body does). */
  lemma ApplyAllFrom(d: Dict<MonitorProfile>, active: string, outs: seq<OutputInfo>, i: nat, run: Command -> bool)
    requires d.Valid() && i < |outs|
    ensures var here, rest := ApplyAll(d, active, outs[i..], run), ApplyAll(d, active, outs[i + 1..], run);
            here == match BestConfig(d, active, outs[i])
                    case Err(f) => Pass([], Some(f))
                    case Ok(c) =>
                      if !Configured(c) then rest
                      else
                        match OutputCommand(outs[i].name, c.value)
                        case Err(f) => Pass([], Some(f))
                        case Ok(cmd) => Pass([Attempt(outs[i].name, cmd, run(cmd))] + rest.attempts, rest.fault)
  {
    assert outs[i..][0] == outs[i];
    assert outs[i..][1..] == outs[i + 1..];
  }

  /** The pass as a whole, once `attempts` have been made before output `i`. */
  ghost predicate PassFrom(pass: Pass, d: Dict<MonitorProfile>, active: string, outs: seq<OutputInfo>,
                           i: nat, run: Command -> bool, attempts: seq<Attempt>)
    requires d.Valid() && i <= |outs|
  {
    var rest := ApplyAll(d, active, outs[i..], run);
    pass == Pass(attempts + rest.attempts, rest.fault)
  }

  /** An exception at output `i` ends the pass with the attempts made so far. */
  lemma PassStops(d: Dict<MonitorProfile>, active: string, outs: seq<OutputInfo>, i: nat,
                  run: Command -> bool, attempts: seq<Attempt>, pass: Pass)
    requires d.Valid() && i < |outs| && PassFrom(pass, d, active, outs, i, run, attempts)
    ensures BestConfig(d, active, outs[i]).Err? ==>
              pass == Pass(attempts, Some(BestConfig(d, active, outs[i]).error))
    ensures var c := BestConfig(d, active, outs[i]);
            c.Ok? && Configured(c.value) && OutputCommand(outs[i].name, c.value.value).Err? ==>
              pass == Pass(attempts, Some(OutputCommand(outs[i].name, c.value.value).error))
  {
    ApplyAllFrom(d, active, outs, i, run);
    assert attempts + [] == attempts;
  }

  /** Output `i` adds its attempt, if it has a configuration, and the pass goes on. */
  lemma PassAdvance(d: Dict<MonitorProfile>, active: string, outs: seq<OutputInfo>, i: nat,
                    run: Command -> bool, attempts: seq<Attempt>, pass: Pass, a: Option<Attempt>)
    requires d.Valid() && i < |outs| && PassFrom(pass, d, active, outs, i, run, attempts)
    requires BestConfig(d, active, outs[i]).Ok?
    requires var c := BestConfig(d, active, outs[i]).value;
             if Configured(c) then
               && OutputCommand(outs[i].name, c.value).Ok?
               && var cmd := OutputCommand(outs[i].name, c.value).value;
                  a == Some(Attempt(outs[i].name, cmd, run(cmd)))
             else a == None
    ensures PassFrom(pass, d, active, outs, i + 1, run, if a.Some? then attempts + [a.value] else attempts)
  {
    var here, rest := ApplyAll(d, active, outs[i..], run), ApplyAll(d, active, outs[i + 1..], run);
    assert here == if a.Some? then Pass([a.value] + rest.attempts, rest.fault) else rest by {
      ApplyAllFrom(d, active, outs, i, run);
    }
    if a.Some? {
      assert attempts + ([a.value] + rest.attempts) == attempts + [a.value] + rest.attempts;
    }
  }

  /** The names of the outputs that have a configuration, in list order. */
  function ConfiguredNames(d: Dict<MonitorProfile>, active: string, outs: seq<OutputInfo>): seq<string>
    requires d.Valid()
  {
    if outs == [] then []
    else
      var c := BestConfig(d, active, outs[0]);
      (if c.Ok? && Configured(c.value) then [outs[0].name] else [])
        + ConfiguredNames(d, active, outs[1..])
  }

  function Outputs(attempts: seq<Attempt>): seq<string>
  {
    if attempts == [] then [] else [attempts[0].output] + Outputs(attempts[1..])
  }

  function Commands(attempts: seq<Attempt>): seq<Command>
  {
    if attempts == [] then [] else [attempts[0].cmd] + Commands(attempts[1..])
  }

  /** A pass that raises nothing runs one command for every configured output, in order. */
  lemma {:induction false} PassCoversConfigured(d: Dict<MonitorProfile>, active: string, outs: seq<OutputInfo>, run: Command -> bool)
    requires d.Valid()
    ensures ApplyAll(d, active, outs, run).fault.None? ==>
              Outputs(ApplyAll(d, active, outs, run).attempts) == ConfiguredNames(d, active, outs)
  {
    if outs != [] {
      PassCoversConfigured(d, active, outs[1..], run);
    }
  }

  /** Whether a command succeeds changes only its own `ok` flag: the same commands are run,
      the pass ends the same way, and every flag is the command's own outcome. */
  lemma {:induction false} FailuresAreIndependent(d: Dict<MonitorProfile>, active: string, outs: seq<OutputInfo>, run1: Command -> bool, run2: Command -> bool)
    requires d.Valid()
    ensures Commands(ApplyAll(d, active, outs, run1).attempts) == Commands(ApplyAll(d, active, outs, run2).attempts)
    ensures ApplyAll(d, active, outs, run1).fault == ApplyAll(d, active, outs, run2).fault
    ensures forall a :: a in ApplyAll(d, active, outs, run1).attempts ==> a.ok == run1(a.cmd)
  {
    if outs != [] {
      FailuresAreIndependent(d, active, outs[1..], run1, run2);
    }
  }

  /** `{m['name'] for m in monitors}` */
  function NameSet(outs: seq<OutputInfo>): set<string>
  {
    set i | 0 <= i < |outs| :: outs[i].name
  }

  /** The state after one call of `update_monitor_configs`, and what it did. */
  datatype StepResult = StepResult(monitors: set<string>, attempts: seq<Attempt>, fault: Option<Fault>)

  /** One reconciliation: nothing happens when the set of output names is unchanged;
      otherwise every output is matched and configured, and the new name set is recorded
      once the pass has finished without raising. */
  function Step(current: set<string>, d: Dict<MonitorProfile>, active: string,
                outs: seq<OutputInfo>, run: Command -> bool): (s: StepResult)
    requires d.Valid()
    ensures s.monitors == (if s.fault.None? then NameSet(outs) else current)
    ensures NameSet(outs) == current ==> s.attempts == [] && s.fault.None?
  {
    if NameSet(outs) == current then StepResult(current, [], None)
    else
      var pass := ApplyAll(d, active, outs, run);
      StepResult(if pass.fault.None? then NameSet(outs) else current, pass.attempts, pass.fault)
  }

  /** Reconciling again right after a reconciliation that finished runs no command and
      changes nothing, whatever the commands' outcomes. */
  lemma StepIdempotent(current: set<string>, d: Dict<MonitorProfile>, active: string,
                       outs: seq<OutputInfo>, run1: Command -> bool, run2: Command -> bool)
    requires d.Valid()
    requires Step(current, d, active, outs, run1).fault.None?
    ensures var s := Step(current, d, active, outs, run1);
            Step(s.monitors, d, active, outs, run2) == StepResult(s.monitors, [], None)
  {
  }

  /** When the active profile is missing, every changed topology with at least one output
      raises at the first output: nothing is applied and the old name set stays. */
  lemma StepWithUnknownActive(current: set<string>, d: Dict<MonitorProfile>, active: string,
                              outs: seq<OutputInfo>, run: Command -> bool)
    requires d.Valid() && active !in d.entries
    requires outs != [] && NameSet(outs) != current
    ensures Step(current, d, active, outs, run) == StepResult(current, [], Some(UnknownProfile(active)))
  {
  }

  // ---------------------------------------------------------------------------
  // Snapshot of the current setup

  /** The configuration `save_current_setup` records for an output; None when the output
      lacks `rect` or `current_mode` (the code raises KeyError there). */
  function SnapshotEntry(o: OutputInfo): (r: Option<Config>)
    ensures r.Some? <==> o.rect.Some? && o.currentMode.Some?
    ensures r.Some? ==> && r.value.Keys == {"model", "position", "resolution", "scale", "transform", "enabled"}
                        && r.value["model"] == Str(o.model)
                        && (Enabled(r.value) <==> o.disabled != Some(true))
  {
    if o.rect.None? || o.currentMode.None? then None
    else
      Some(map[
        "model" := Str(o.model),
        "position" := Str(IntToString(o.rect.value.x) + "," + IntToString(o.rect.value.y)),
        "resolution" := Str(IntToString(o.currentMode.value.width) + "x" + IntToString(o.currentMode.value.height)),
        "scale" := Number(o.scale.GetOr("1.0")),
        "transform" := Str(o.transform.GetOr("normal")),
        "enabled" := Bool(!o.disabled.GetOr(false))])
  }

  /** The identifier `"{model}_{serial}"`. */
  function ModelSerial(o: OutputInfo): string
  {
    o.model + "_" + o.serial
  }

  /** The keys one output writes into the profile: none without a model; the model, and the
      model with the serial when the serial is non-empty. */
  function SnapshotWrites(o: OutputInfo): (w: Configs)
    ensures o.model == "" ==> w == map[]
    ensures w.Keys <= {o.model, ModelSerial(o)}
    ensures forall k :: k in w ==> Some(w[k]) == SnapshotEntry(o)
  {
    if o.model == "" || SnapshotEntry(o).None? then map[]
    else
      var e := SnapshotEntry(o).value;
      map[o.model := e] + (if o.serial != "" then map[ModelSerial(o) := e] else map[])
  }

  /** One iteration of the snapshot loop, on an output that can be saved, assigns exactly
      what `SnapshotWrites` lists. */
  lemma SnapshotAdvance(base: Configs, outs: seq<OutputInfo>, i: nat, configs: Configs, next: Configs)
    requires i < |outs| && i <= FirstUnsaveable(outs) && !Unsaveable(outs[i])
    requires configs == WriteAll(base, outs[..i], SnapshotWrites)
    requires next == if outs[i].model == "" then configs
                     else var e := SnapshotEntry(outs[i]).value;
                          var c := configs[outs[i].model := e];
                          if outs[i].serial != "" then c[ModelSerial(outs[i]) := e] else c
    ensures i + 1 <= FirstUnsaveable(outs)
    ensures next == WriteAll(base, outs[..i + 1], SnapshotWrites)
  {
    assert i != FirstUnsaveable(outs);
    assert next == configs + SnapshotWrites(outs[i]) by {
      if outs[i].model == "" {
        assert SnapshotWrites(outs[i]) == map[];
      } else {
        SnapshotStep(configs, outs[i], SnapshotEntry(outs[i]).value);
      }
    }
    WriteAllStep(base, outs, SnapshotWrites, i);
  }

  /** Writing one output's entries key by key. */
  lemma SnapshotStep(configs: Configs, o: OutputInfo, e: Config)
    requires o.model != "" && SnapshotEntry(o) == Some(e)
    ensures (var c := configs[o.model := e]; if o.serial != "" then c[ModelSerial(o) := e] else c)
            == configs + SnapshotWrites(o)
  {
  }

  /** The output whose snapshot raises. */
  predicate Unsaveable(o: OutputInfo)
  {
    o.model != "" && SnapshotEntry(o).None?
  }

  function SnapshotFault(o: OutputInfo): Fault
  {
    if o.rect.None? then MissingKey("rect") else MissingKey("current_mode")
  }

  /** Index of the first output whose snapshot raises; |outs| when none does. */
  function FirstUnsaveable(outs: seq<OutputInfo>): (k: nat)
    ensures k <= |outs|
    ensures forall j :: 0 <= j < k ==> !Unsaveable(outs[j])
    ensures k < |outs| ==> Unsaveable(outs[k])
  {
    if outs == [] then 0
    else if Unsaveable(outs[0]) then 0
    else 1 + FirstUnsaveable(outs[1..])
  }

  /** The profile's table after the snapshot loop, and whether the loop got to the end. */
  datatype Snapshot = Snapshot(configs: Configs, complete: bool)

  function TakeSnapshot(c: Configs, outs: seq<OutputInfo>): (s: Snapshot)
    ensures s.complete <==> forall j :: 0 <= j < |outs| ==> !Unsaveable(outs[j])
  {
    var k := FirstUnsaveable(outs);
    Snapshot(WriteAll(c, outs[..k], SnapshotWrites), k == |outs|)
  }

  /** A complete snapshot only adds or overwrites: each key holds the configuration of the
      last output that wrote it, and a key no output wrote is untouched. */
  lemma SnapshotLastWriterWins(c: Configs, outs: seq<OutputInfo>, key: string)
    requires TakeSnapshot(c, outs).complete
    ensures var r, i := TakeSnapshot(c, outs).configs, LastWriter(outs, SnapshotWrites, key);
            && (i >= 0 ==> && outs[i].model != ""
                           && (key == outs[i].model || (outs[i].serial != "" && key == ModelSerial(outs[i])))
                           && key in r && Some(r[key]) == SnapshotEntry(outs[i]))
            && (i < 0 ==> (key in r <==> key in c) && (key in c ==> r[key] == c[key]))
  {
    assert outs[..|outs|] == outs;
    LastWriteWins(c, outs, SnapshotWrites, key);
  }

  /** A complete snapshot stores every output that has a model, under its model and, when
      it has a serial, under model and serial; outputs without a model write nothing. */
  lemma SnapshotCoversOutputs(c: Configs, outs: seq<OutputInfo>, i: nat)
    requires TakeSnapshot(c, outs).complete && i < |outs|
    ensures outs[i].model == "" ==> SnapshotWrites(outs[i]) == map[]
    ensures outs[i].model != "" ==> outs[i].model in TakeSnapshot(c, outs).configs
    ensures outs[i].model != "" && outs[i].serial != "" ==> ModelSerial(outs[i]) in TakeSnapshot(c, outs).configs
    ensures c.Keys <= TakeSnapshot(c, outs).configs.Keys
  {
    assert outs[..|outs|] == outs;
    if outs[i].model != "" {
      LastWriteWins(c, outs, SnapshotWrites, outs[i].model);
      assert outs[i].model in SnapshotWrites(outs[i]);
      LastWriteWins(c, outs, SnapshotWrites, ModelSerial(outs[i]));
    }
    forall k | k in c ensures k in TakeSnapshot(c, outs).configs {
      LastWriteWins(c, outs, SnapshotWrites, k);
    }
  }

  /** Applying a snapshot reproduces the output's state: the command carries the output's
      own position, mode, scale and transform, or disables it when it was disabled. */
  lemma SnapshotReapplies(o: OutputInfo)
    requires o.rect.Some? && o.currentMode.Some?
    ensures var p, m := o.rect.value, o.currentMode.value;
            OutputCommand(o.name, SnapshotEntry(o).value) ==
              if o.disabled == Some(true) then Ok(["swaymsg", "output", o.name, "disable"])
              else Ok(["swaymsg", "output", o.name,
                       "pos", IntToString(p.x), IntToString(p.y),
                       "res", IntToString(m.width), IntToString(m.height),
                       "scale", o.scale.GetOr("1.0"),
                       "transform", o.transform.GetOr("normal")])
  {
    var e := SnapshotEntry(o).value;
    UnpackRendered(e, "resolution", 'x', o.currentMode.value.width, o.currentMode.value.height);
    UnpackRendered(e, "position", ',', o.rect.value.x, o.rect.value.y);
  }

  /** After a complete snapshot into the active profile, an output with a serial that was the
      last to write its `"{model}_{serial}"` key is matched to exactly the configuration
      recorded for it. */
  lemma SnapshotThenMatch(d: Dict<MonitorProfile>, active: string, c: Configs, outs: seq<OutputInfo>, i: nat)
    requires d.Valid()
    requires TakeSnapshot(c, outs).complete
    requires i < |outs| && outs[i].model != "" && outs[i].serial != ""
    requires LastWriter(outs, SnapshotWrites, ModelSerial(outs[i])) == i
    ensures var d' := d.Put(active, MonitorProfile(active, TakeSnapshot(c, outs).configs));
            BestConfig(d', active, outs[i]) == Ok(SnapshotEntry(outs[i]))
  {
    SnapshotLastWriterWins(c, outs, ModelSerial(outs[i]));
    var d' := d.Put(active, MonitorProfile(active, TakeSnapshot(c, outs).configs));
    assert Identifiers(outs[i])[0] == ModelSerial(outs[i]);
    assert FirstKey(d'.entries[active].configs, Identifiers(outs[i])) == 0;
  }

  /** A snapshot that raises part-way keeps what it wrote before the raise: each key holds
      the entry of the last output before the faulty one that wrote it, and a key none of
      them wrote keeps its old value. No old key is lost. */
  lemma SnapshotFaultKeeps(c: Configs, outs: seq<OutputInfo>, key: string)
    ensures var k, r := FirstUnsaveable(outs), TakeSnapshot(c, outs).configs;
            var i := LastWriter(outs[..k], SnapshotWrites, key);
            && (i >= 0 ==> key in r && Some(r[key]) == SnapshotEntry(outs[i]))
            && (i < 0 ==> (key in r <==> key in c) && (key in c ==> r[key] == c[key]))
            && (key in c ==> key in r)
  {
    var k := FirstUnsaveable(outs);
    LastWriteWins(c, outs[..k], SnapshotWrites, key);
  }

  /** The profile file a complete snapshot writes loads back with the entry recorded for an
      output under the `"{model}_{serial}"` key that output wrote last. */
  lemma SnapshotSurvivesReload(name: string, c: Configs, outs: seq<OutputInfo>, i: nat)
    requires TakeSnapshot(c, outs).complete
    requires i < |outs| && outs[i].model != "" && outs[i].serial != ""
    requires LastWriter(outs, SnapshotWrites, ModelSerial(outs[i])) == i
    ensures var loaded := LoadProfile(name, Parsed(TakeSnapshot(c, outs).configs));
            && loaded.Ok? && loaded.value.name == name
            && ModelSerial(outs[i]) in loaded.value.configs
            && Some(loaded.value.configs[ModelSerial(outs[i])]) == SnapshotEntry(outs[i])
  {
    var key, r := ModelSerial(outs[i]), TakeSnapshot(c, outs).configs;
    assert LoadProfile(name, Parsed(r)) == Ok(MonitorProfile(name, r));
    SnapshotLastWriterWins(c, outs, key);
    assert key in r && Some(r[key]) == SnapshotEntry(outs[i]);
  }

  // ---------------------------------------------------------------------------
  // Loading

  /** Every listed file parses (or is absent). */
  ghost predicate Loadable(files: seq<(string, ProfileFile)>)
  {
    forall i :: 0 <= i < |files| ==> !files[i].1.Corrupt?
  }

  /** Every profile is stored under its own name. */
  ghost predicate Named(d: Dict<MonitorProfile>)
  {
    forall k :: k in d.entries ==> d.entries[k].name == k
  }

  /** `profiles[stem] = MonitorProfile.load(stem)` for each listed file, in listing order. */
  function LoadAll(d: Dict<MonitorProfile>, files: seq<(string, ProfileFile)>): (r: Dict<MonitorProfile>)
    requires d.Valid()
    requires Loadable(files)
    ensures r.Valid()
    ensures d.entries.Keys <= r.entries.Keys
    ensures d.order <= r.order
    ensures forall i :: 0 <= i < |files| ==> files[i].0 in r.entries
  {
    if files == [] then d
    else
      var last := files[|files| - 1];
      LoadAll(d, files[..|files| - 1]).Put(last.0, LoadProfile(last.0, last.1).value)
  }

  /** Index of the first listed file that does not parse; |files| when all do. */
  function FirstCorrupt(files: seq<(string, ProfileFile)>): (k: nat)
    ensures k <= |files|
    ensures forall j :: 0 <= j < k ==> !files[j].1.Corrupt?
    ensures k < |files| ==> files[k].1.Corrupt?
  {
    if files == [] then 0
    else if files[0].1.Corrupt? then 0
    else 1 + FirstCorrupt(files[1..])
  }

  /** The `default` profile is added, empty, when no file provided it. */
  function WithDefault(d: Dict<MonitorProfile>): (r: Dict<MonitorProfile>)
    requires d.Valid()
    ensures r.Valid() && DefaultProfile in r.entries
    ensures forall k :: k in d.entries ==> k in r.entries && r.entries[k] == d.entries[k]
  {
    if DefaultProfile in d.entries then d else d.Put(DefaultProfile, MonitorProfile(DefaultProfile, map[]))
  }

  function LoadWrites(f: (string, ProfileFile)): map<string, MonitorProfile>
  {
    match LoadProfile(f.0, f.1)
    case Ok(p) => map[f.0 := p]
    case Err(_) => map[]
  }

  /** Each listed profile ends up in the table under its own name, as the last listing of
      that name loaded it; names not listed keep their old profile. */
  lemma {:induction false} LoadAllEntries(d: Dict<MonitorProfile>, files: seq<(string, ProfileFile)>)
    requires d.Valid()
    requires Loadable(files)
    ensures LoadAll(d, files).entries == WriteAll(d.entries, files, LoadWrites)
  {
    if files != [] {
      var init, last := files[..|files| - 1], files[|files| - 1];
      LoadAllEntries(d, init);
      var p := LoadProfile(last.0, last.1).value;
      var before := WriteAll(d.entries, init, LoadWrites);
      assert WriteAll(d.entries, files, LoadWrites) == before + LoadWrites(last);
      assert LoadWrites(last) == map[last.0 := p];
      assert LoadAll(d, files).entries == before[last.0 := p];
      UnionOne(before, last.0, p);
    }
  }

  /** Storing a profile under its own name keeps every profile under its own name. */
  lemma PutNamed(d: Dict<MonitorProfile>, k: string, p: MonitorProfile)
    requires d.Valid() && Named(d) && p.name == k
    ensures Named(d.Put(k, p))
  {
  }

  /** One more file of the listing, up to the first that does not parse. */
  lemma LoadAdvance(d: Dict<MonitorProfile>, files: seq<(string, ProfileFile)>, i: nat)
    requires d.Valid() && Named(d) && i < FirstCorrupt(files)
    ensures Loadable(files[..i]) && Loadable(files[..i + 1]) && i + 1 <= FirstCorrupt(files)
    ensures LoadAll(d, files[..i + 1]) == LoadAll(d, files[..i]).Put(files[i].0, LoadProfile(files[i].0, files[i].1).value)
    ensures Named(LoadAll(d, files[..i])) ==> Named(LoadAll(d, files[..i + 1]))
  {
    assert files[..i + 1][..i] == files[..i];
    if Named(LoadAll(d, files[..i])) {
      PutNamed(LoadAll(d, files[..i]), files[i].0, LoadProfile(files[i].0, files[i].1).value);
    }
  }

  /** A successful load always provides `default`; every entry is stored under its own name
      when the table started that way. */
  lemma LoadedTable(d: Dict<MonitorProfile>, files: seq<(string, ProfileFile)>, key: string)
    requires d.Valid() && Named(d)
    requires Loadable(files)
    ensures var r := WithDefault(LoadAll(d, files));
            && DefaultProfile in r.entries
            && (key in r.entries ==> r.entries[key].name == key)
            && ((exists i :: 0 <= i < |files| && files[i].0 == key) ==> key in r.entries)
  {
    var r := LoadAll(d, files);
    if key in r.entries {
      LoadAllEntries(d, files);
      LastWriteWins(d.entries, files, LoadWrites, key);
    }
  }

  /** The marker may name a profile that has no file: `default` is the only name loading
      adds, so a marker naming neither a listed file, nor `default`, nor a profile already
      held leaves the active profile missing, and the matcher raises for every output. */
  lemma MarkerMayNameMissingProfile(d: Dict<MonitorProfile>, files: seq<(string, ProfileFile)>,
                                    marker: string, o: OutputInfo)
    requires d.Valid() && Loadable(files)
    requires Strip(marker) != DefaultProfile && Strip(marker) !in d.entries
    requires forall i :: 0 <= i < |files| ==> files[i].0 != Strip(marker)
    ensures BestConfig(WithDefault(LoadAll(d, files)), Strip(marker), o) == Err(UnknownProfile(Strip(marker)))
  {
    var name := Strip(marker);
    LoadAllEntries(d, files);
    forall j | 0 <= j < |files| ensures name !in LoadWrites(files[j]) {
    }
    LastWriteWins(d.entries, files, LoadWrites, name);
  }

  // ---------------------------------------------------------------------------
  // The daemon's state

  /** The loop of `save_current_setup` over the outputs, on the profile's table: stops at
      the first output that cannot be saved. */
  method SnapshotLoop(base: Configs, outputs: seq<OutputInfo>) returns (configs: Configs, complete: bool)
    ensures Snapshot(configs, complete) == TakeSnapshot(base, outputs)
  {
    configs := base;
    var i := 0;
    while i < |outputs|
      invariant 0 <= i <= FirstUnsaveable(outputs)
      invariant configs == WriteAll(base, outputs[..i], SnapshotWrites)
    {
      var o := outputs[i];
      if o.model != "" {
        var entry := SnapshotEntry(o);
        if entry.None? {
          assert Unsaveable(o);
          return configs, false;
        }
        ghost var prior := configs;
        configs := configs[o.model := entry.value];
        if o.serial != "" {
          configs := configs[ModelSerial(o) := entry.value];
        }
        SnapshotAdvance(base, outputs, i, prior, configs);
      } else {
        SnapshotAdvance(base, outputs, i, configs, configs);
      }
      i := i + 1;
    }
    assert outputs[..i] == outputs;
    complete := true;
  }

  class MonitorDaemon {
    var profiles: Dict<MonitorProfile>
    var activeProfileName: string
    /** The output names seen by the last completed reconciliation. */
    var currentMonitors: set<string>
    /** The profile files and the active-profile marker as this daemon last wrote them. */
    var written: map<string, Configs>
    var marker: Option<string>

    ghost predicate Valid()
      reads this
    {
      && profiles.Valid()
      && Named(profiles)
    }

    constructor ()
      ensures Valid()
      ensures profiles == Dict([], map[]) && activeProfileName == DefaultProfile
      ensures currentMonitors == {} && written == map[] && marker == None
    {
      profiles := Dict([], map[]);
      activeProfileName := DefaultProfile;
      currentMonitors := {};
      written := map[];
      marker := None;
    }

    /** `load_profiles`: every listed file (in directory listing order) is loaded; `default`
        is added when missing; the marker's stripped text becomes the active name. A file that
        does not parse raises and leaves the profiles loaded so far. */
    method LoadProfiles(files: seq<(string, ProfileFile)>, markerText: Option<string>) returns (fault: Option<Fault>)
      requires Valid()
      modifies this`profiles, this`activeProfileName
      ensures Valid()
      ensures var k := FirstCorrupt(files);
              if k < |files| then
                && fault == Some(CorruptFile(files[k].0))
                && profiles == LoadAll(old(profiles), files[..k])
                && activeProfileName == old(activeProfileName)
              else
                && fault == None
                && profiles == WithDefault(LoadAll(old(profiles), files))
                && activeProfileName == if markerText.Some? then Strip(markerText.value) else old(activeProfileName)
    {
      var i := 0;
      assert Loadable(files[..0]);
      while i < |files|
        invariant 0 <= i <= FirstCorrupt(files)
        invariant Loadable(files[..i])
        invariant Valid()
        invariant profiles == LoadAll(old(profiles), files[..i])
        invariant activeProfileName == old(activeProfileName)
      {
        var loaded := LoadProfile(files[i].0, files[i].1);
        if loaded.Err? {
          return Some(loaded.error);
        }
        LoadAdvance(old(profiles), files, i);
        profiles := profiles.Put(files[i].0, loaded.value);
        i := i + 1;
      }
      assert files[..i] == files;
      if DefaultProfile !in profiles.entries {
        profiles := profiles.Put(DefaultProfile, MonitorProfile(DefaultProfile, map[]));
      }
      if markerText.Some? {
        activeProfileName := Strip(markerText.value);
      }
      fault := None;
    }

    /** `find_best_config`, with its nested early-return loops. */
    method FindBestConfig(o: OutputInfo) returns (r: Result<Option<Config>, Fault>)
      requires Valid()
      ensures r == BestConfig(profiles, activeProfileName, o)
    {
      if activeProfileName !in profiles.entries {
        return Err(UnknownProfile(activeProfileName));
      }
      var ids := Identifiers(o);
      var own := profiles.entries[activeProfileName].configs;
      var i := 0;
      while i < |ids|
        invariant 0 <= i <= |ids|
        invariant forall j :: 0 <= j < i ==> ids[j] !in own
      {
        if ids[i] in own {
          assert FirstKey(own, ids) == i;
          return Ok(Some(own[ids[i]]));
        }
        i := i + 1;
      }
      assert FirstKey(own, ids) == |ids|;
      var p := 0;
      while p < |profiles.order|
        invariant 0 <= p <= |profiles.order|
        invariant FirstProfile(profiles, ids, 0) == FirstProfile(profiles, ids, p)
      {
        var configs := profiles.entries[profiles.order[p]].configs;
        var j := 0;
        while j < |ids|
          invariant 0 <= j <= |ids|
          invariant forall q :: 0 <= q < j ==> ids[q] !in configs
        {
          if ids[j] in configs {
            assert FirstKey(configs, ids) == j;
            assert FirstProfile(profiles, ids, p) == p;
            return Ok(Some(configs[ids[j]]));
          }
          j := j + 1;
        }
        assert FirstKey(configs, ids) == |ids|;
        p := p + 1;
      }
      return Ok(None);
    }

    /** `apply_monitor_config`: builds the argument list step by step and runs it; `run` says
        whether swaymsg exits with status 0. A malformed configuration raises before anything
        is run. */
    method ApplyMonitorConfig(o: OutputInfo, config: Config, run: Command -> bool) returns (r: Result<Attempt, Fault>)
      ensures OutputCommand(o.name, config).Err? ==> r == Err(OutputCommand(o.name, config).error)
      ensures OutputCommand(o.name, config).Ok? ==>
                var cmd := OutputCommand(o.name, config).value;
                r == Ok(Attempt(o.name, cmd, run(cmd)))
    {
      var cmd := ["swaymsg", "output", o.name];
      if Enabled(config) {
        var res := UnpackField(config, "resolution", 'x');
        if res.Err? {
          return Err(res.error);
        }
        var pos := UnpackField(config, "position", ',');
        if pos.Err? {
          return Err(pos.error);
        }
        cmd := cmd + ["pos", pos.value.0, pos.value.1];
        cmd := cmd + ["res", res.value.0, res.value.1];
        if "scale" !in config {
          return Err(MissingKey("scale"));
        }
        cmd := cmd + ["scale", Render(config["scale"])];
        if "transform" !in config {
          return Err(MissingKey("transform"));
        }
        if !config["transform"].Str? {
          return Err(NotText("transform"));
        }
        cmd := cmd + ["transform", config["transform"].s];
        assert cmd == ["swaymsg", "output", o.name, "pos", pos.value.0, pos.value.1,
                       "res", res.value.0, res.value.1, "scale", Render(config["scale"]),
                       "transform", config["transform"].s];
      } else {
        cmd := cmd + ["disable"];
        assert cmd == ["swaymsg", "output", o.name, "disable"];
      }
      r := Ok(Attempt(o.name, cmd, run(cmd)));
    }

    /** `update_monitor_configs` for the outputs the compositor reports. */
    method UpdateMonitorConfigs(outputs: seq<OutputInfo>, run: Command -> bool)
      returns (attempts: seq<Attempt>, fault: Option<Fault>)
      requires Valid()
      modifies this`currentMonitors
      ensures Valid()
      ensures var s := Step(old(currentMonitors), profiles, activeProfileName, outputs, run);
              currentMonitors == s.monitors && attempts == s.attempts && fault == s.fault
    {
      attempts, fault := [], None;
      var names := set i | 0 <= i < |outputs| :: outputs[i].name;
      if names == currentMonitors {
        return;
      }
      ghost var pass := ApplyAll(profiles, activeProfileName, outputs, run);
      var i := 0;
      while i < |outputs|
        invariant 0 <= i <= |outputs|
        invariant currentMonitors == old(currentMonitors) && fault == None
        invariant PassFrom(pass, profiles, activeProfileName, outputs, i, run, attempts)
      {
        var config := FindBestConfig(outputs[i]);
        if config.Err? {
          assert pass == Pass(attempts, Some(config.error)) by {
            PassStops(profiles, activeProfileName, outputs, i, run, attempts, pass);
          }
          fault := Some(config.error);
          return;
        }
        if Configured(config.value) {
          var applied := ApplyMonitorConfig(outputs[i], config.value.value, run);
          if applied.Err? {
            assert pass == Pass(attempts, Some(applied.error)) by {
              PassStops(profiles, activeProfileName, outputs, i, run, attempts, pass);
            }
            fault := Some(applied.error);
            return;
          }
          assert PassFrom(pass, profiles, activeProfileName, outputs, i + 1, run, attempts + [applied.value]) by {
            PassAdvance(profiles, activeProfileName, outputs, i, run, attempts, pass, Some(applied.value));
          }
          attempts := attempts + [applied.value];
        } else {
          assert PassFrom(pass, profiles, activeProfileName, outputs, i + 1, run, attempts) by {
            PassAdvance(profiles, activeProfileName, outputs, i, run, attempts, pass, None);
          }
        }
        i := i + 1;
      }
      currentMonitors := names;
    }

    /** `save_current_setup(profile_name)`: a non-empty name becomes the active name; the
        active profile is created empty when missing; each output with a model is written
        under its model and, with a serial, under model and serial. The profile file and the
        marker are written only when the loop finishes; an output without `rect` or
        `current_mode` raises and leaves the entries written so far. */
    method SaveCurrentSetup(profileName: string, outputs: seq<OutputInfo>) returns (fault: Option<Fault>)
      requires Valid()
      modifies this`profiles, this`activeProfileName, this`written, this`marker
      ensures Valid()
      ensures activeProfileName == if profileName != "" then profileName else old(activeProfileName)
      ensures var base := if activeProfileName in old(profiles.entries)
                          then old(profiles.entries)[activeProfileName].configs else map[];
              var snap := TakeSnapshot(base, outputs);
              && profiles == old(profiles).Put(activeProfileName, MonitorProfile(activeProfileName, snap.configs))
              && (snap.complete ==> && fault == None
                                    && written == old(written)[activeProfileName := snap.configs]
                                    && marker == Some(activeProfileName))
              && (!snap.complete ==> && fault == Some(SnapshotFault(outputs[FirstUnsaveable(outputs)]))
                                     && written == old(written) && marker == old(marker))
    {
      if profileName != "" {
        activeProfileName := profileName;
      }
      var name := activeProfileName;
      var base: Configs := if name in profiles.entries then profiles.entries[name].configs else map[];
      var configs, complete := SnapshotLoop(base, outputs);
      PutNamed(profiles, name, MonitorProfile(name, configs));
      profiles := profiles.Put(name, MonitorProfile(name, configs));
      if !complete {
        return Some(SnapshotFault(outputs[FirstUnsaveable(outputs)]));
      }
      written := written[name := configs];
      marker := Some(name);
      fault := None;
    }
  }
}
