/** The GUI application's profile logic, with the widgets replaced by the values they hold:
    the "(Current)" table built from the connected outputs, the in-memory profile table and
    the profile files beside it, the order in which the profile list shows the names, and
    the per-output rows with their defaults, their configuration and their command. */
module Manager {
  import opened Outcomes
  import opened Text
  import opened Dicts
  import opened Sway

  /** The name of the profile that holds the live state of the outputs. */
  const Current: string := "(Current)"

  // ---------------------------------------------------------------------------
  // The "(Current)" table

  /** `save_current_config`'s entry for one output: a missing `rect` reads as 0,0, a missing
      `current_mode` as 1920x1080, and scale, transform and enabled default as in the daemon. */
  function CurrentEntry(o: OutputInfo): (c: Config)
    ensures c.Keys == {"model", "position", "resolution", "scale", "enabled", "transform"}
    ensures c["model"] == Str(o.model)
    ensures Enabled(c) <==> o.disabled != Some(true)
  {
    var x := if o.rect.Some? then o.rect.value.x else 0;
    var y := if o.rect.Some? then o.rect.value.y else 0;
    var w := if o.currentMode.Some? then o.currentMode.value.width else 1920;
    var h := if o.currentMode.Some? then o.currentMode.value.height else 1080;
    map[
      "model" := Str(o.model),
      "position" := Str(IntToString(x) + "," + IntToString(y)),
      "resolution" := Str(IntToString(w) + "x" + IntToString(h)),
      "scale" := Number(o.scale.GetOr("1.0")),
      "enabled" := Bool(!o.disabled.GetOr(false)),
      "transform" := Str(o.transform.GetOr("normal"))]
  }

  /** An output is written under its model only, and only when it has one. */
  function CurrentWrites(o: OutputInfo): (w: Configs)
    ensures w.Keys == if o.model == "" then {} else {o.model}
    ensures forall k :: k in w ==> w[k] == CurrentEntry(o)
  {
    if o.model == "" then map[] else map[o.model := CurrentEntry(o)]
  }

  /** The "(Current)" table: the model of every output that has one, each holding the entry
      of the last output with that model. */
  lemma {:induction false} CurrentTableLastWins(outs: seq<OutputInfo>, key: string)
    ensures var t, i := WriteAll(map[], outs, CurrentWrites), LastWriter(outs, CurrentWrites, key);
            && (key in t <==> key != "" && exists j :: 0 <= j < |outs| && outs[j].model == key)
            && (key in t ==> i >= 0 && outs[i].model == key && t[key] == CurrentEntry(outs[i]))
  {
    LastWriteWins(map[], outs, CurrentWrites, key);
    var t, i := WriteAll(map[], outs, CurrentWrites), LastWriter(outs, CurrentWrites, key);
    if key != "" && exists j :: 0 <= j < |outs| && outs[j].model == key {
      var j :| 0 <= j < |outs| && outs[j].model == key;
      assert key in CurrentWrites(outs[j]);
    }
  }

  /** Every entry of the "(Current)" table applies: it reproduces the output's position,
      mode, scale and transform (or disables it), with the defaults filled in. */
  lemma CurrentEntryApplies(o: OutputInfo)
    ensures var x := if o.rect.Some? then o.rect.value.x else 0;
            var y := if o.rect.Some? then o.rect.value.y else 0;
            var w := if o.currentMode.Some? then o.currentMode.value.width else 1920;
            var h := if o.currentMode.Some? then o.currentMode.value.height else 1080;
            OutputCommand(o.name, CurrentEntry(o)) ==
              if o.disabled == Some(true) then Ok(["swaymsg", "output", o.name, "disable"])
              else Ok(["swaymsg", "output", o.name,
                       "pos", IntToString(x), IntToString(y),
                       "res", IntToString(w), IntToString(h),
                       "scale", o.scale.GetOr("1.0"),
                       "transform", o.transform.GetOr("normal")])
  {
    var x := if o.rect.Some? then o.rect.value.x else 0;
    var y := if o.rect.Some? then o.rect.value.y else 0;
    var w := if o.currentMode.Some? then o.currentMode.value.width else 1920;
    var h := if o.currentMode.Some? then o.currentMode.value.height else 1080;
    UnpackRendered(CurrentEntry(o), "resolution", 'x', w, h);
    UnpackRendered(CurrentEntry(o), "position", ',', x, y);
  }

  /** The loop of `save_current_config`: each output with a model is written under it. */
  method CurrentTable(outputs: seq<OutputInfo>) returns (table: Configs)
    ensures table == WriteAll(map[], outputs, CurrentWrites)
  {
    table := map[];
    var i := 0;
    while i < |outputs|
      invariant 0 <= i <= |outputs|
      invariant table == WriteAll(map[], outputs[..i], CurrentWrites)
    {
      WriteAllStep(map[], outputs, CurrentWrites, i);
      var o := outputs[i];
      if o.model != "" {
        var e := CurrentEntry(o);
        assert CurrentWrites(o) == map[o.model := e];
        UnionOne(table, o.model, e);
        table := table[o.model := e];
      } else {
        assert CurrentWrites(o) == map[];
        assert table + CurrentWrites(o) == table;
      }
      i := i + 1;
    }
    assert outputs[..i] == outputs;
  }

  // ---------------------------------------------------------------------------
  // Rows

  /** The transforms a row offers, in the order of its combo box. */
  const Transforms: seq<string> :=
    ["normal", "90", "180", "270", "flipped", "flipped-90", "flipped-180", "flipped-270"]

  /** A `MonitorConfigRow`: the output it belongs to and what its widgets hold. `scale` is
      the text of the scale entry. */
  datatype Row = Row(
    name: string,
    model: string,
    position: string,
    resolution: string,
    scale: string,
    enabled: bool,
    transform: string)

  /** `entry.set_text(saved.get(key, default))`: a stored value must be a string. */
  function TextField(saved: Config, key: string, default: string): Result<string, Fault>
  {
    if key !in saved then Ok(default)
    else if saved[key].Str? then Ok(saved[key].s)
    else Err(NotText(key))
  }

  /** The row `MonitorConfigRow(o, saved)` builds: the output's entry in the saved table by
      model (none: all defaults), position "0,0", resolution the output's mode or 1920x1080,
      scale "1.0", enabled, transform "normal". A stored transform outside the eight names
      fails `transforms.index`. */
  function NewRow(o: OutputInfo, saved: Configs): (r: Result<Row, Fault>)
    ensures r.Ok? ==> r.value.name == o.name && r.value.model == o.model && r.value.transform in Transforms
  {
    var s := if o.model in saved then saved[o.model] else map[];
    var w := if o.currentMode.Some? then o.currentMode.value.width else 1920;
    var h := if o.currentMode.Some? then o.currentMode.value.height else 1080;
    match TextField(s, "position", "0,0")
    case Err(f) => Err(f)
    case Ok(position) =>
      match TextField(s, "resolution", IntToString(w) + "x" + IntToString(h))
      case Err(f) => Err(f)
      case Ok(resolution) =>
        var scale := if "scale" in s then Render(s["scale"]) else "1.0";
        var enabled := "enabled" !in s || Truthy(s["enabled"]);
        var t := if "transform" in s then s["transform"] else Str("normal");
        if !t.Str? || t.s !in Transforms then Err(UnknownTransform("transform"))
        else Ok(Row(o.name, o.model, position, resolution, scale, enabled, t.s))
  }

  /** With no saved entry for its model a row takes every default. */
  lemma RowDefaults(o: OutputInfo, saved: Configs)
    requires o.model !in saved
    ensures var w := if o.currentMode.Some? then o.currentMode.value.width else 1920;
            var h := if o.currentMode.Some? then o.currentMode.value.height else 1080;
            NewRow(o, saved) ==
              Ok(Row(o.name, o.model, "0,0", IntToString(w) + "x" + IntToString(h), "1.0", true, "normal"))
  {
    assert "normal" == Transforms[0];
  }

  /** A row cannot be built exactly when the saved entry holds a non-string position or
      resolution, or a transform that is not one of the eight names. */
  lemma RowFails(o: OutputInfo, saved: Configs)
    ensures var s := if o.model in saved then saved[o.model] else map[];
            NewRow(o, saved).Err? <==>
              || ("position" in s && !s["position"].Str?)
              || ("resolution" in s && !s["resolution"].Str?)
              || ("transform" in s && (!s["transform"].Str? || s["transform"].s !in Transforms))
  {
    assert "normal" == Transforms[0];
  }

  /** `get_config`: the six keys, the scale entry's text read as a number. */
  function GetConfig(r: Row): (c: Config)
    ensures c.Keys == {"model", "position", "resolution", "scale", "enabled", "transform"}
    ensures c["model"] == Str(r.model)
    ensures Enabled(c) <==> r.enabled
  {
    map[
      "model" := Str(r.model),
      "position" := Str(r.position),
      "resolution" := Str(r.resolution),
      "scale" := Number(r.scale),
      "enabled" := Bool(r.enabled),
      "transform" := Str(r.transform)]
  }

  /** A configuration of the shape `get_config` produces, for output `o`. */
  predicate RowShaped(o: OutputInfo, c: Config)
  {
    && c.Keys == {"model", "position", "resolution", "scale", "enabled", "transform"}
    && c["model"] == Str(o.model)
    && c["position"].Str? && c["resolution"].Str?
    && c["scale"].Number? && c["enabled"].Bool?
    && c["transform"].Str? && c["transform"].s in Transforms
  }

  /** Loading a row from a saved configuration of that shape and reading it back gives the
      saved configuration. */
  lemma RowRoundTrip(o: OutputInfo, saved: Configs)
    requires o.model in saved && RowShaped(o, saved[o.model])
    ensures NewRow(o, saved).Ok?
    ensures GetConfig(NewRow(o, saved).value) == saved[o.model]
  {
    var c := saved[o.model];
    var g := GetConfig(NewRow(o, saved).value);
    assert g.Keys == c.Keys;
    forall k | k in c ensures g[k] == c[k] {
      if k == "model" {
      } else if k == "position" {
      } else if k == "resolution" {
      } else if k == "scale" {
      } else if k == "enabled" {
      } else {
        assert k == "transform";
      }
    }
  }

  /** Saving a row's configuration under its model and building the row again from it gives
      the same row back. */
  lemma ConfigRoundTrip(o: OutputInfo, r: Row)
    requires r.name == o.name && r.model == o.model && r.transform in Transforms
    ensures GetConfig(r).Keys == {"model", "position", "resolution", "scale", "enabled", "transform"}
    ensures NewRow(o, map[o.model := GetConfig(r)]) == Ok(r)
  {
    var s := GetConfig(r);
    assert TextField(s, "position", "0,0") == Ok(r.position);
    var w := if o.currentMode.Some? then o.currentMode.value.width else 1920;
    var h := if o.currentMode.Some? then o.currentMode.value.height else 1080;
    assert TextField(s, "resolution", IntToString(w) + "x" + IntToString(h)) == Ok(r.resolution);
    assert Render(s["scale"]) == r.scale;
    assert Truthy(s["enabled"]) == r.enabled;
  }

  /** `apply_config`: the command of the row's configuration, built step by step; a run that
      fails is reported and swallowed, so only the command matters. Resolution is unpacked
      before position. */
  method ApplyConfig(r: Row) returns (cmd: Result<Command, Fault>)
    ensures cmd == OutputCommand(r.name, GetConfig(r))
  {
    var config := GetConfig(r);
    var c := ["swaymsg", "output", r.name];
    if r.enabled {
      var res := UnpackField(config, "resolution", 'x');
      if res.Err? {
        return Err(res.error);
      }
      var pos := UnpackField(config, "position", ',');
      if pos.Err? {
        return Err(pos.error);
      }
      c := c + ["pos", pos.value.0, pos.value.1];
      c := c + ["res", res.value.0, res.value.1];
      c := c + ["scale", r.scale];
      c := c + ["transform", r.transform];
      assert c == ["swaymsg", "output", r.name, "pos", pos.value.0, pos.value.1,
                   "res", res.value.0, res.value.1, "scale", r.scale, "transform", r.transform];
    } else {
      c := c + ["disable"];
      assert c == ["swaymsg", "output", r.name, "disable"];
    }
    cmd := Ok(c);
  }

  /** A row's command, in the row's own terms: a disabled row disables its output; an
      enabled one needs exactly one 'x' in its resolution and one ',' in its position, and
      then passes the pieces, the scale text and the transform. */
  lemma RowCommand(r: Row)
    ensures !r.enabled ==> OutputCommand(r.name, GetConfig(r)) == Ok(["swaymsg", "output", r.name, "disable"])
    ensures r.enabled ==>
              (OutputCommand(r.name, GetConfig(r)).Ok? <==>
                 Count(r.resolution, 'x') == 1 && Count(r.position, ',') == 1)
    ensures r.enabled && OutputCommand(r.name, GetConfig(r)).Ok? ==>
              var cmd := OutputCommand(r.name, GetConfig(r)).value;
              && |cmd| == 13
              && cmd[4] + [','] + cmd[5] == r.position
              && cmd[7] + ['x'] + cmd[8] == r.resolution
              && cmd[10] == r.scale && cmd[12] == r.transform
  {
    CommandShape(r.name, GetConfig(r));
  }

  /** The table a list of rows is collected into: `configs[config['model']] = config`. */
  function RowWrites(r: Row): Configs
  {
    map[r.model := GetConfig(r)]
  }

  /** The loop of `update_profile` and `on_save_profile_response` over the rows. */
  method CollectRowConfigs(rows: seq<Row>) returns (configs: Configs)
    ensures configs == WriteAll(map[], rows, RowWrites)
  {
    configs := map[];
    var i := 0;
    while i < |rows|
      invariant 0 <= i <= |rows|
      invariant configs == WriteAll(map[], rows[..i], RowWrites)
    {
      WriteAllStep(map[], rows, RowWrites, i);
      var config := GetConfig(rows[i]);
      UnionOne(configs, rows[i].model, config);
      configs := configs[rows[i].model := config];
      i := i + 1;
    }
    assert rows[..i] == rows;
  }

  /** Rows are keyed by model alone: the table has one key per model among the rows (the
      empty model included), holding the configuration of the last row with that model. */
  lemma {:induction false} RowConfigsLastWins(rows: seq<Row>, key: string)
    ensures var t, i := WriteAll(map[], rows, RowWrites), LastWriter(rows, RowWrites, key);
            && (key in t <==> exists j :: 0 <= j < |rows| && rows[j].model == key)
            && (key in t ==> i >= 0 && rows[i].model == key && t[key] == GetConfig(rows[i]))
  {
    LastWriteWins(map[], rows, RowWrites, key);
    if exists j :: 0 <= j < |rows| && rows[j].model == key {
      var j :| 0 <= j < |rows| && rows[j].model == key;
      assert key in RowWrites(rows[j]);
    }
  }

  // ---------------------------------------------------------------------------
  // The profile list

  /** The index of the first `x` in `s`. */
  function IndexOf(s: seq<string>, x: string): (i: nat)
    requires x in s
    ensures i < |s| && s[i] == x && x !in s[..i]
  {
    if s[0] == x then 0 else 1 + IndexOf(s[1..], x)
  }

  /** The order the profile list shows: "(Current)" first when it is a name, the other names
      in the table's order. */
  function CurrentFirst(keys: seq<string>): (shown: seq<string>)
    ensures forall x :: x in shown <==> x in keys
    ensures Current in keys <==> |shown| > 0 && shown[0] == Current
  {
    WithoutMembers(keys, Current);
    if Current in keys then [Current] + Without(keys, Current) else keys
  }

  lemma WithoutAbsent(s: seq<string>, x: string)
    requires x !in s
    ensures Without(s, x) == s
  {
  }

  /** For names without repeats, `CurrentFirst` only moves "(Current)": it is a permutation,
      "(Current)" is first exactly when it is a name, and the rest keep their order. */
  lemma {:induction false} CurrentFirstPermutes(keys: seq<string>)
    requires Distinct(keys)
    ensures multiset(CurrentFirst(keys)) == multiset(keys)
    ensures |CurrentFirst(keys)| == |keys|
    ensures Current in keys <==> (|CurrentFirst(keys)| > 0 && CurrentFirst(keys)[0] == Current)
    ensures Without(CurrentFirst(keys), Current) == Without(keys, Current)
  {
    if Current in keys {
      var i := IndexOf(keys, Current);
      var rest := keys[..i] + keys[i + 1..];
      Splice(keys, i);
      WithoutMembers(keys, Current);
      assert CurrentFirst(keys) == [Current] + rest;
      MoveToFront(keys, i);
      assert [Current] + rest == [keys[i]] + keys[..i] + keys[i + 1..];
      assert Without([Current], Current) == [];
      WithoutAppend([Current], rest, Current);
      WithoutAbsent(rest, Current);
    } else {
      WithoutAbsent(keys, Current);
      if |keys| > 0 {
        assert keys[0] in keys;
      }
    }
  }

  /** Moving one element to the front keeps the multiset. */
  lemma MoveToFront(keys: seq<string>, i: nat)
    requires i < |keys|
    ensures multiset([keys[i]] + keys[..i] + keys[i + 1..]) == multiset(keys)
  {
    assert keys == keys[..i] + [keys[i]] + keys[i + 1..];
  }

  /** Removing the first `keys[i]` from names without repeats leaves the others in order. */
  lemma Splice(keys: seq<string>, i: nat)
    requires Distinct(keys) && i < |keys|
    ensures Without(keys, keys[i]) == keys[..i] + keys[i + 1..]
  {
    var x, head, tail := keys[i], keys[..i], keys[i + 1..];
    assert keys[i..] == [x] + tail;
    assert keys == head + keys[i..];
    forall j | 0 <= j < |tail| ensures tail[j] != x {
      assert tail[j] == keys[i + 1 + j];
    }
    forall j | 0 <= j < |head| ensures head[j] != x {
      assert head[j] == keys[j];
    }
    WithoutAppend(head, [x] + tail, x);
    WithoutAppend([x], tail, x);
    WithoutAbsent(head, x);
    WithoutAbsent(tail, x);
    assert Without([x], x) == [];
  }

  /** `refresh_profile_list`: the names in the table's order, "(Current)" moved to the
      front with `remove` and `insert(0, ...)`; the selection is "(Current)" when it is
      listed, the first entry otherwise, so always index 0. */
  method ProfileList(keys: seq<string>) returns (shown: seq<string>, selected: nat)
    requires Distinct(keys)
    ensures shown == CurrentFirst(keys)
    ensures selected == 0
  {
    shown := keys;
    if Current in shown {
      var i := IndexOf(shown, Current);
      shown := shown[..i] + shown[i + 1..];
      shown := [Current] + shown;
      Splice(keys, i);
    }
    selected := 0;
  }

  // ---------------------------------------------------------------------------
  // The application

  /** A profile file read by `load_profiles`: its stem and the table `json.load` gives. */
  type LoadedFile = (string, Configs)

  /** What reading one profile file puts in a name-to-table map. */
  function FileWrites(f: LoadedFile): (w: map<string, Configs>)
    ensures f.0 in w && w[f.0] == f.1 && w.Keys == {f.0}
  {
    map[f.0 := f.1]
  }

  /** `load_profiles`: `profiles[stem] = json.load(f)` for each listed file, in listing order. */
  function LoadTable(d: Dict<Configs>, files: seq<LoadedFile>): (r: Dict<Configs>)
    requires d.Valid()
    ensures r.Valid()
    ensures r.entries == WriteAll(d.entries, files, FileWrites)
    ensures d.order <= r.order
  {
    if files == [] then d
    else
      var last := files[|files| - 1];
      var init := LoadTable(d, files[..|files| - 1]);
      UnionOne(init.entries, last.0, last.1);
      init.Put(last.0, last.1)
  }

  /** The loop of `load_profiles`. */
  method LoadFiles(files: seq<LoadedFile>) returns (table: Dict<Configs>)
    ensures table == LoadTable(Empty(), files)
  {
    table := Empty();
    var i := 0;
    while i < |files|
      invariant 0 <= i <= |files|
      invariant table == LoadTable(Empty(), files[..i])
    {
      assert files[..i + 1][..i] == files[..i] && files[..i + 1][i] == files[i];
      table := table.Put(files[i].0, files[i].1);
      i := i + 1;
    }
    assert files[..i] == files;
  }

  /** `SwayMonitorManager`'s profile state: the in-memory table and the profile files on
      disk, by name. */
  class ProfileManager {
    var profiles: Dict<Configs>
    var disk: map<string, Configs>

    ghost predicate Valid()
      reads this
    {
      profiles.Valid()
    }

    /** `SwayMonitorManager()`: every listed profile file is loaded under its stem (none when
        the directory is missing), then `save_current_config` adds the "(Current)" table of
        the connected outputs. The table and the files then agree on every name but
        "(Current)". */
    constructor (files: seq<LoadedFile>, outputs: seq<OutputInfo>)
      ensures Valid()
      ensures disk == WriteAll(map[], files, FileWrites)
      ensures profiles == LoadTable(Empty(), files).Put(Current, WriteAll(map[], outputs, CurrentWrites))
      ensures profiles.entries == disk[Current := WriteAll(map[], outputs, CurrentWrites)]
    {
      var table := LoadFiles(files);
      var current := CurrentTable(outputs);
      profiles := table.Put(Current, current);
      disk := table.entries;
    }

    /** `save_current_config`: the "(Current)" table built from the outputs replaces the old
        one; nothing is written to disk. */
    method SaveCurrentConfig(outputs: seq<OutputInfo>)
      requires Valid()
      modifies this`profiles
      ensures Valid()
      ensures profiles == old(profiles).Put(Current, WriteAll(map[], outputs, CurrentWrites))
    {
      var table := CurrentTable(outputs);
      profiles := profiles.Put(Current, table);
    }

    /** `save_profile`: the table always takes the configuration; a file is written for
        every name but "(Current)". */
    method SaveProfile(name: string, config: Configs)
      requires Valid()
      modifies this
      ensures Valid()
      ensures profiles == old(profiles).Put(name, config)
      ensures disk == if name != Current then old(disk)[name := config] else old(disk)
    {
      if name != Current {
        disk := disk[name := config];
      }
      profiles := profiles.Put(name, config);
    }

    /** `update_profile`: replaces a profile that is in the table and reports whether it did. */
    method UpdateProfile(name: string, config: Configs) returns (updated: bool)
      requires Valid()
      modifies this
      ensures Valid()
      ensures updated <==> name in old(profiles.entries)
      ensures updated ==> && profiles == old(profiles).Put(name, config)
                          && disk == if name != Current then old(disk)[name := config] else old(disk)
      ensures !updated ==> profiles == old(profiles) && disk == old(disk)
    {
      if name in profiles.entries {
        SaveProfile(name, config);
        return true;
      }
      return false;
    }

    /** `remove_profile`: "(Current)" and names without a file are refused; otherwise the
        file goes, then the table entry, and a name with a file but no table entry raises
        after the file is gone. */
    method RemoveProfile(name: string) returns (r: Result<bool, Fault>)
      requires Valid()
      modifies this
      ensures Valid()
      ensures name == Current || name !in old(disk) ==>
                r == Ok(false) && profiles == old(profiles) && disk == old(disk)
      ensures name != Current && name in old(disk) ==>
                && disk == old(disk) - {name}
                && (name in old(profiles.entries) ==> r == Ok(true) && profiles == old(profiles).Remove(name))
                && (name !in old(profiles.entries) ==> r == Err(UnknownProfile(name)) && profiles == old(profiles))
    {
      if name == Current {
        return Ok(false);
      }
      if name !in disk {
        return Ok(false);
      }
      disk := disk - {name};
      if name !in profiles.entries {
        return Err(UnknownProfile(name));
      }
      profiles := profiles.Remove(name);
      r := Ok(true);
    }
  }

  /** `remove_profile` never removes "(Current)", and a removed profile leaves the list
      while the other names keep their order. */
  lemma RemovedLeavesList(d: Dict<Configs>, name: string)
    requires d.Valid() && name in d.entries && name != Current
    ensures name !in CurrentFirst(d.Remove(name).order)
    ensures Without(CurrentFirst(d.Remove(name).order), Current) == Without(Without(d.order, name), Current)
  {
    var r := d.Remove(name).order;
    assert r == Without(d.order, name);
    WithoutDistinct(d.order, name);
    WithoutMembers(d.order, name);
    WithoutMembers(r, Current);
    assert name !in Without(r, Current);
    CurrentFirstPermutes(r);
  }

  /** The parts of `SwayMonitorWindow` that reach the profile table: the profile list with
      its selection, and the rows the table is saved from. */
  class ProfileWindow {
    const app: ProfileManager
    var shown: seq<string>
    var selected: nat

    /** `SwayMonitorWindow.__init__`: the combo is filled by `refresh_profile_list` before
        its `changed` handler is connected. */
    constructor (app: ProfileManager)
      requires app.Valid()
      ensures this.app == app
      ensures shown == CurrentFirst(app.profiles.order) && selected == 0
    {
      var names, index := ProfileList(app.profiles.order);
      this.app := app;
      shown, selected := names, index;
    }

    /** `refresh_profile_list`. */
    method RefreshProfileList()
      requires app.Valid()
      modifies this`shown, this`selected
      ensures shown == CurrentFirst(app.profiles.order) && selected == 0
    {
      shown, selected := ProfileList(app.profiles.order);
    }

    /** `update_profile` on the window: the selected profile, unless it is "(Current)", is
        replaced by the rows' configurations keyed by model, and the list is refreshed when
        it was in the table. */
    method UpdateProfile(name: string, rows: seq<Row>)
      requires app.Valid()
      modifies this`shown, this`selected, app
      ensures app.Valid()
      ensures var table := WriteAll(map[], rows, RowWrites);
              if name != Current && name in old(app.profiles.entries) then
                && app.profiles == old(app.profiles).Put(name, table)
                && app.disk == old(app.disk)[name := table]
                && shown == CurrentFirst(app.profiles.order) && selected == 0
              else
                && app.profiles == old(app.profiles) && app.disk == old(app.disk)
                && shown == old(shown) && selected == old(selected)
    {
      if name != Current {
        var configs := CollectRowConfigs(rows);
        var updated := app.UpdateProfile(name, configs);
        if updated {
          RefreshProfileList();
        }
      }
    }

    /** `on_save_profile_response`: on OK with a non-empty name the rows' configurations are
        saved under that name and the list is refreshed. The loop meant to select the new
        profile compares each `Gtk.TreeModelRow` of the combo with the name; a row object
        never equals a `str`, so no `set_active` follows and the selection stays where the
        refresh put it, on index 0. */
    method SaveProfileResponse(confirmed: bool, name: string, rows: seq<Row>)
      requires app.Valid()
      modifies this`shown, this`selected, app
      ensures app.Valid()
      ensures var table := WriteAll(map[], rows, RowWrites);
              if confirmed && name != "" then
                && app.profiles == old(app.profiles).Put(name, table)
                && app.disk == (if name != Current then old(app.disk)[name := table] else old(app.disk))
                && shown == CurrentFirst(app.profiles.order) && name in shown
                && selected == 0
              else
                && app.profiles == old(app.profiles) && app.disk == old(app.disk)
                && shown == old(shown) && selected == old(selected)
    {
      if confirmed && name != "" {
        var configs := CollectRowConfigs(rows);
        app.SaveProfile(name, configs);
        RefreshProfileList();
      }
    }
  }
}
