/** What the daemon and the GUI share: the output records that `swaymsg -t get_outputs`
    reports, the JSON values a stored output configuration holds, and the
    `swaymsg output ...` argument list built from such a configuration. */
module Sway {
  import opened Outcomes
  import opened Text

  datatype Point = Point(x: int, y: int)
  datatype Mode = Mode(width: int, height: int)

  /** One connected output. `model` and `serial` are "" when the compositor leaves them out:
      every reader of them treats an absent and an empty value alike. `scale` is the
      compositor's number as Python's `str()` renders it. */
  datatype OutputInfo = OutputInfo(
    name: string,
    model: string,
    serial: string,
    rect: Option<Point>,
    currentMode: Option<Mode>,
    scale: Option<string>,
    transform: Option<string>,
    disabled: Option<bool>)

  /** A JSON value stored in an output configuration. A number is kept as its Python
      `str()` rendering (scales are floats and are never computed with). */
  datatype Value = Str(s: string) | Bool(b: bool) | Number(text: string)

  /** One output configuration, `{"model": ..., "position": "x,y", ...}`. */
  type Config = map<string, Value>
  /** A profile's table from identifier to configuration. */
  type Configs = map<string, Config>
  type Command = seq<string>

  /** The exceptions the Python code raises and does not catch. */
  datatype Fault =
    | MissingKey(key: string)        // KeyError on config[key]
    | NotText(key: string)           // a non-string where a string is needed
    | Unpack(key: string)            // `a, b = text.split(sep)` without exactly two pieces
    | UnknownTransform(key: string)  // `transforms.index(v)` for a value not in the list
    | UnknownProfile(name: string)   // KeyError on profiles[name]
    | CorruptFile(name: string)      // json.load of a profile file that is not valid JSON

  /** Python's `str(v)`. */
  function Render(v: Value): string
  {
    match v
    case Str(s) => s
    case Bool(b) => if b then "True" else "False"
    case Number(t) => t
  }

  /** Python's truth value of `v`. */
  predicate Truthy(v: Value)
  {
    match v
    case Str(s) => s != ""
    case Bool(b) => b
    case Number(t) => t !in {"0", "0.0", "-0.0"}
  }

  /** `config.get('enabled', True)` as a condition. */
  predicate Enabled(c: Config)
  {
    "enabled" !in c || Truthy(c["enabled"])
  }

  /** `a, b = c[key].split(sep)` */
  function UnpackField(c: Config, key: string, sep: char): Result<(string, string), Fault>
  {
    if key !in c then Err(MissingKey(key))
    else if !c[key].Str? then Err(NotText(key))
    else
      var parts := Split(c[key].s, sep);
      if |parts| != 2 then Err(Unpack(key)) else Ok((parts[0], parts[1]))
  }

  /** The argument list `apply_monitor_config` hands to `swaymsg` for output `name`:
      explicit position, resolution, scale and transform when the config is enabled,
      a single `disable` otherwise. Resolution is unpacked before position. */
  function OutputCommand(name: string, c: Config): (r: Result<Command, Fault>)
    ensures r.Err? ==> Enabled(c) && (r.error.MissingKey? || r.error.NotText? || r.error.Unpack?)
    ensures r.Ok? ==> |r.value| >= 4 && r.value[..3] == ["swaymsg", "output", name]
    ensures r.Ok? ==> (|r.value| == 4 <==> !Enabled(c))
  {
    if !Enabled(c) then Ok(["swaymsg", "output", name, "disable"])
    else
      match UnpackField(c, "resolution", 'x')
      case Err(f) => Err(f)
      case Ok(res) =>
        match UnpackField(c, "position", ',')
        case Err(f) => Err(f)
        case Ok(pos) =>
          if "scale" !in c then Err(MissingKey("scale"))
          else if "transform" !in c then Err(MissingKey("transform"))
          else if !c["transform"].Str? then Err(NotText("transform"))
          else Ok(["swaymsg", "output", name,
                   "pos", pos.0, pos.1,
                   "res", res.0, res.1,
                   "scale", Render(c["scale"]),
                   "transform", c["transform"].s])
  }

  /** `c[key]` is a string with exactly one `sep` in it. */
  ghost predicate SplitsInTwo(c: Config, key: string, sep: char)
  {
    key in c && c[key].Str? && Count(c[key].s, sep) == 1
  }

  /** The configurations `OutputCommand` accepts, stated without splitting. */
  ghost predicate Applicable(c: Config)
  {
    || !Enabled(c)
    || (&& SplitsInTwo(c, "resolution", 'x')
        && SplitsInTwo(c, "position", ',')
        && "scale" in c
        && "transform" in c && c["transform"].Str?)
  }

  /** The command is built exactly for the applicable configurations, and its arguments
      re-join to the stored texts: `pos X Y` gives back "X,Y" and `res W H` gives back "WxH". */
  lemma CommandShape(name: string, c: Config)
    ensures OutputCommand(name, c).Ok? <==> Applicable(c)
    ensures OutputCommand(name, c).Ok? && !Enabled(c) ==>
              OutputCommand(name, c).value == ["swaymsg", "output", name, "disable"]
    ensures OutputCommand(name, c).Ok? && Enabled(c) ==>
              var cmd := OutputCommand(name, c).value;
              && |cmd| == 13
              && cmd[..3] == ["swaymsg", "output", name]
              && cmd[3] == "pos" && cmd[4] + [','] + cmd[5] == c["position"].s
              && ',' !in cmd[4] && ',' !in cmd[5]
              && cmd[6] == "res" && cmd[7] + ['x'] + cmd[8] == c["resolution"].s
              && 'x' !in cmd[7] && 'x' !in cmd[8]
              && cmd[9] == "scale" && cmd[10] == Render(c["scale"])
              && cmd[11] == "transform" && cmd[12] == c["transform"].s
  {
    if Enabled(c) {
      if "resolution" in c && c["resolution"].Str? {
        JoinSplit(c["resolution"].s, 'x');
      }
      if "position" in c && c["position"].Str? {
        JoinSplit(c["position"].s, ',');
      }
    }
  }

  /** The texts a snapshot stores, "X,Y" and "WxH" from integers, unpack into the integers'
      decimal renderings. */
  lemma UnpackRendered(c: Config, key: string, sep: char, a: int, b: int)
    requires sep == 'x' || sep == ','
    requires key in c && c[key] == Str(IntToString(a) + [sep] + IntToString(b))
    ensures UnpackField(c, key, sep) == Ok((IntToString(a), IntToString(b)))
  {
    SplitPair(IntToString(a), IntToString(b), sep);
  }
}
