/**
 * `asset_extraction`: the asset type of an uploaded file, the selection of
 * the configuration files that apply to it, the expansion of path patterns
 * in a script configuration, and the argument list of a script call.
 */
module AssetExtraction {
  import opened Wrappers
  import opened ODict
  import opened PyStr
  import opened JsonValue
  import opened PyPath
  import opened Scans

  /** `asset_types`: the asset type of a file-type extension. */
  const AssetTypes: Dict<string> := [("xodr", "hdmap"), ("xosc", "scenario"), ("3dmodel", "environment-model")]

  // ------------------------------------------------------------ asset types

  /** `get_asset_type_extension`: the suffix without its dot, where archives
      stand for 3D models. */
  function GetAssetTypeExtension(assetFile: string): string
  {
    var ext := Extension(Name(assetFile));
    if ext == "zip" || ext == "7z" then "3dmodel" else ext
  }

  /** `get_asset_type`: an extension without an asset type ends the program. */
  function GetAssetType(ext: string): (r: Result<string>)
    ensures r.Err? <==> ext !in Keys(AssetTypes)
    ensures r.Err? ==> r.error.Exit?
  {
    match Get(AssetTypes, ext)
    case Some(t) => Ok(t)
    case None => Err(Exit("asset type not found"))
  }

  /** The asset type of a file follows from its suffix alone: OpenDRIVE is
      an HD map, OpenSCENARIO a scenario, and an archive or `.3dmodel` file
      an environment model; every other suffix ends the program. */
  lemma AssetTypeOfFile(assetFile: string)
    ensures var ext := Extension(Name(assetFile));
            var r := GetAssetType(GetAssetTypeExtension(assetFile));
            (ext == "xodr" ==> r == Ok("hdmap"))
            && (ext == "xosc" ==> r == Ok("scenario"))
            && (ext == "zip" || ext == "7z" || ext == "3dmodel" ==> r == Ok("environment-model"))
            && (r.Ok? <==> ext in ["xodr", "xosc", "zip", "7z", "3dmodel"])
  {
    var e := GetAssetTypeExtension(assetFile);
    assert Keys(AssetTypes) == ["xodr", "xosc", "3dmodel"];
    if e == "xodr" {
      assert Get(AssetTypes, e) == Some("hdmap");
    } else if e == "xosc" {
      assert Get(AssetTypes, e) == Some("scenario");
    } else if e == "3dmodel" {
      assert Get(AssetTypes, e) == Some("environment-model");
    }
  }

  // -------------------------------------------------------- config filtering

  /** `d.get(key, default)` on a value that must be a dict. */
  function GetOr(d: Json, key: string, default: Json): Result<Json>
  {
    match d
    case JObj(f) => Ok(match Get(f, key) case Some(v) => v case None => default)
    case _ => Err(AttributeError("object has no attribute 'get'"))
  }

  /** Whether a config entry applies to the asset: entries naming
      extensions apply to those, the others to every asset. */
  function Applies(ext: string): Json -> Result<bool>
  {
    config =>
      var restricted :- In("extensions", config);
      if restricted then
        var exts :- Index(config, "extensions");
        In(ext, exts)
      else Ok(true)
  }

  /** `config["filename"]` of an entry that applies. */
  function FileNameOf(config: Json): Result<Json>
  {
    Index(config, "filename")
  }

  /** The file names the filter of `get_configs` selects from the loaded
      `process.json`. */
  function ConfigFiles(process: Json, ext: string): Result<seq<Json>>
  {
    var entries :- GetOr(process, "config_files", JArr([]));
    var configs :- Iter(entries);
    Collect(configs, Applies(ext), FileNameOf)
  }

  /** For a dict entry: one with an `extensions` list applies exactly when
      the list holds the extension, one without applies always. */
  lemma AppliesDict(config: Json, ext: string)
    requires config.JObj?
    requires "extensions" in Keys(config.fields) ==> Index(config, "extensions").value.JArr?
    ensures Applies(ext)(config)
            == Ok("extensions" !in Keys(config.fields) || JStr(ext) in Index(config, "extensions").value.items)
  {
  }

  /** Without `config_files` nothing is selected. */
  lemma ConfigFilesAbsent(fields: Dict<Json>, ext: string)
    requires "config_files" !in Keys(fields)
    ensures ConfigFiles(JObj(fields), ext) == Ok([])
  {
  }

  /** The selection keeps the order of `config_files`, one file name per
      entry that applies, and fails exactly when some entry cannot be
      tested or has no file name. */
  lemma ConfigFilesInOrder(process: Json, ext: string, configs: seq<Json>)
    requires process.JObj? && Get(process.fields, "config_files") == Some(JArr(configs))
    ensures ConfigFiles(process, ext).Ok?
            <==> forall i :: 0 <= i < |configs| ==>
                   Applies(ext)(configs[i]).Ok? && (Applies(ext)(configs[i]).value ==> FileNameOf(configs[i]).Ok?)
    ensures ConfigFiles(process, ext).Ok? ==>
              var names := ConfigFiles(process, ext).value;
              var applying := Kept(configs, Applies(ext));
              |names| == |applying| && forall j :: 0 <= j < |names| ==> Index(applying[j], "filename") == Ok(names[j])
  {
    CollectPointwise(configs, Applies(ext), FileNameOf);
  }

  /** The filter loop of `get_configs`. */
  method FilterConfigs(process: Json, ext: string) returns (r: Result<seq<Json>>)
    ensures r == ConfigFiles(process, ext)
  {
    var entries :- GetOr(process, "config_files", JArr([]));
    var configs :- Iter(entries);
    r := FilterEntries(configs, ext);
  }

  /** The loop of the filter over the entries of `config_files`. */
  method FilterEntries(configs: seq<Json>, ext: string) returns (r: Result<seq<Json>>)
    ensures r == Collect(configs, Applies(ext), FileNameOf)
  {
    var configFiles: seq<Json> := [];
    var i := 0;
    while i < |configs|
      invariant 0 <= i <= |configs|
      invariant Collect(configs[..i], Applies(ext), FileNameOf) == Ok(configFiles)
    {
      CollectNext(configs, Applies(ext), FileNameOf, i);
      var config := configs[i];
      var restricted :- CheckApplies(config, ext, configs, i);
      if restricted {
        var name := Index(config, "filename");
        if name.Err? {
          CollectErrPrefix(configs, Applies(ext), FileNameOf, i + 1);
          return Err(name.error);
        }
        configFiles := configFiles + [name.value];
      }
      i := i + 1;
    }
    assert configs[..|configs|] == configs;
    r := Ok(configFiles);
  }

  /** The test of one entry inside the filter loop; a failing test fails
      the whole filter. */
  method CheckApplies(config: Json, ext: string, ghost configs: seq<Json>, ghost i: nat) returns (r: Result<bool>)
    requires i < |configs| && config == configs[i]
    requires Collect(configs[..i], Applies(ext), FileNameOf).Ok?
    ensures r == Applies(ext)(config)
    ensures r.Err? ==> Collect(configs, Applies(ext), FileNameOf) == Err(r.error)
  {
    var restricted := In("extensions", config);
    if restricted.Err? {
      r := Err(restricted.error);
    } else if restricted.value {
      var exts := Index(config, "extensions");
      if exts.Err? {
        r := Err(exts.error);
      } else {
        r := In(ext, exts.value);
      }
    } else {
      r := Ok(true);
    }
    if r.Err? {
      CollectNext(configs, Applies(ext), FileNameOf, i);
      CollectErrPrefix(configs, Applies(ext), FileNameOf, i + 1);
    }
  }

  // ------------------------------------------------------- pattern expansion

  /** `replace_file_pattern`: the four placeholders replaced in turn (so a
      value put in early is itself searched for the later placeholders);
      a result that mentions `https:` is a URL and stays as it is, any other
      is normalised as a POSIX path. `path` and `subPath` are path texts. */
  function ReplaceFilePattern(filepath: string, path: string, subPath: string, name: string, assetType: string): string
  {
    var s := Replace(filepath, "{path}", PathStr(path));
    var s := Replace(s, "{sub_path}", PathStr(subPath));
    var s := Replace(s, "{name}", name);
    var s := Replace(s, "{asset_type}", assetType);
    if !Contains(s, "https:") then PathStr(s) else s
  }

  /** A result is a URL or a normalised path: expanding a normalised path
      again leaves it as it is. */
  lemma ReplaceFilePatternNormal(filepath: string, path: string, subPath: string, name: string, assetType: string)
    ensures var r := ReplaceFilePattern(filepath, path, subPath, name, assetType);
            Contains(r, "https:") || PathStr(r) == r
  {
    var r := ReplaceFilePattern(filepath, path, subPath, name, assetType);
    var s := Replace(Replace(Replace(Replace(filepath, "{path}", PathStr(path)), "{sub_path}", PathStr(subPath)), "{name}", name), "{asset_type}", assetType);
    if !Contains(s, "https:") {
      PathStrIdempotent(s);
    }
  }

  /** A pattern without placeholders (no `{`) is only normalised, or kept
      when it is a URL. */
  lemma ReplaceFilePatternPlain(filepath: string, path: string, subPath: string, name: string, assetType: string)
    requires '{' !in filepath
    ensures ReplaceFilePattern(filepath, path, subPath, name, assetType)
            == if Contains(filepath, "https:") then filepath else PathStr(filepath)
  {
    NoBrace(filepath, "{path}");
    NoBrace(filepath, "{sub_path}");
    NoBrace(filepath, "{name}");
    NoBrace(filepath, "{asset_type}");
    ReplaceAbsent(filepath, "{path}", PathStr(path));
    ReplaceAbsent(filepath, "{sub_path}", PathStr(subPath));
    ReplaceAbsent(filepath, "{name}", name);
    ReplaceAbsent(filepath, "{asset_type}", assetType);
  }

  /** A text without `{` contains no placeholder. */
  lemma NoBrace(s: string, pat: string)
    requires '{' !in s && |pat| > 0 && pat[0] == '{'
    ensures !Contains(s, pat)
  {
    forall j | 0 <= j <= |s| - |pat|
      ensures !OccursAt(s, pat, j)
    {
      assert s[j] in s;
    }
  }

  // ------------------------------------------------------------ script call

  /** What the placeholders of a script configuration stand for. */
  datatype Pattern = Pattern(path: string, subPath: string, name: string, assetType: string)

  /** `replace_file_pattern(value, ...)` on a configuration value, which has
      to be a string (anything else has no `replace`). */
  function Expand(value: Json, p: Pattern): (r: Result<string>)
    ensures r.Ok? <==> value.JStr?
    ensures r.Err? ==> r.error.AttributeError?
  {
    match value
    case JStr(s) => Ok(ReplaceFilePattern(s, p.path, p.subPath, p.name, p.assetType))
    case _ => Err(AttributeError("object has no attribute 'replace'"))
  }

  /** The expansion with one set of placeholder values, as a function. */
  function Expander(p: Pattern): Json -> Result<string>
  {
    v => Expand(v, p)
  }

  /** `v.items()` on a value that must be a dict. */
  function Items(v: Json): Result<Dict<Json>>
  {
    match v
    case JObj(f) => Ok(f)
    case _ => Err(AttributeError("object has no attribute 'items'"))
  }

  /** The arguments of the `input` parameters: the name unless it is
      empty, then the expanded value. */
  function InputArgs(items: Dict<Json>, expand: Json -> Result<string>): Result<seq<Json>>
  {
    if |items| == 0 then Ok([])
    else
      var prev :- InputArgs(items[..|items| - 1], expand);
      var (name, value) := items[|items| - 1];
      var u :- expand(value);
      Ok(prev + (if name != "" then [JStr(name)] else []) + [JStr(u)])
  }

  /** The arguments of the `output` parameters: the name, then the
      expanded value. */
  function OutputArgs(items: Dict<Json>, expand: Json -> Result<string>): Result<seq<Json>>
  {
    if |items| == 0 then Ok([])
    else
      var prev :- OutputArgs(items[..|items| - 1], expand);
      var (name, value) := items[|items| - 1];
      var u :- expand(value);
      Ok(prev + [JStr(name), JStr(u)])
  }

  /** The arguments of the `additional` parameters: the name, then the
      expanded value only when the value is truthy. */
  function AdditionalArgs(items: Dict<Json>, expand: Json -> Result<string>): Result<seq<Json>>
  {
    if |items| == 0 then Ok([])
    else
      var prev :- AdditionalArgs(items[..|items| - 1], expand);
      var (name, value) := items[|items| - 1];
      if Truthy(value) then
        var u :- expand(value);
        Ok(prev + [JStr(name), JStr(u)])
      else Ok(prev + [JStr(name)])
  }

  /** How many parameters have a non-empty name. */
  function Named(items: Dict<Json>): nat
  {
    if |items| == 0 then 0 else Named(items[..|items| - 1]) + (if items[|items| - 1].0 != "" then 1 else 0)
  }

  /** How many parameters have a truthy value. */
  function TruthyValues(items: Dict<Json>): nat
  {
    if |items| == 0 then 0 else TruthyValues(items[..|items| - 1]) + (if Truthy(items[|items| - 1].1) then 1 else 0)
  }

  /** Every input parameter adds its expanded value, and its name unless
      that is empty; the last argument is the last value. The section fails
      exactly when some value fails to expand. */
  lemma {:induction false} InputArgsShape(items: Dict<Json>, expand: Json -> Result<string>)
    ensures InputArgs(items, expand).Ok? <==> forall i :: 0 <= i < |items| ==> expand(items[i].1).Ok?
    ensures InputArgs(items, expand).Ok? ==> |InputArgs(items, expand).value| == |items| + Named(items)
    ensures InputArgs(items, expand).Ok? && |items| > 0 ==>
              InputArgs(items, expand).value[|InputArgs(items, expand).value| - 1] == JStr(expand(items[|items| - 1].1).value)
  {
    if |items| > 0 {
      var pre := items[..|items| - 1];
      InputArgsShape(pre, expand);
      assert forall i :: 0 <= i < |pre| ==> pre[i] == items[i];
    }
  }

  /** The output section fails exactly when some value fails to expand. */
  lemma {:induction false} OutputArgsOk(items: Dict<Json>, expand: Json -> Result<string>)
    ensures OutputArgs(items, expand).Ok? <==> forall i :: 0 <= i < |items| ==> expand(items[i].1).Ok?
  {
    if |items| > 0 {
      var pre := items[..|items| - 1];
      OutputArgsOk(pre, expand);
      assert forall i :: 0 <= i < |pre| ==> pre[i] == items[i];
    }
  }

  /** Output parameters come in pairs: name, then expanded value. */
  lemma {:induction false} OutputArgsPairs(items: Dict<Json>, expand: Json -> Result<string>)
    requires OutputArgs(items, expand).Ok?
    ensures var a := OutputArgs(items, expand).value;
            |a| == 2 * |items|
            && forall i :: 0 <= i < |items| ==>
                 a[2 * i] == JStr(items[i].0) && a[2 * i + 1].JStr? && expand(items[i].1) == Ok(a[2 * i + 1].s)
  {
    if |items| > 0 {
      var n := |items| - 1;
      var pre := items[..n];
      OutputArgsPairs(pre, expand);
      var a := OutputArgs(items, expand).value;
      var b := OutputArgs(pre, expand).value;
      assert a == b + [JStr(items[n].0), JStr(expand(items[n].1).value)];
      forall i | 0 <= i < |items|
        ensures a[2 * i] == JStr(items[i].0) && a[2 * i + 1].JStr? && expand(items[i].1) == Ok(a[2 * i + 1].s)
      {
        if i < n {
          assert pre[i] == items[i];
          assert a[2 * i] == b[2 * i] && a[2 * i + 1] == b[2 * i + 1];
        }
      }
    }
  }

  /** Every additional parameter adds its name, and its expanded value only
      when the value is truthy; only a truthy value that fails to expand
      fails the section. */
  lemma {:induction false} AdditionalArgsShape(items: Dict<Json>, expand: Json -> Result<string>)
    ensures AdditionalArgs(items, expand).Ok? <==> forall i :: 0 <= i < |items| ==> Truthy(items[i].1) ==> expand(items[i].1).Ok?
    ensures AdditionalArgs(items, expand).Ok? ==> |AdditionalArgs(items, expand).value| == |items| + TruthyValues(items)
  {
    if |items| > 0 {
      var pre := items[..|items| - 1];
      AdditionalArgsShape(pre, expand);
      assert forall i :: 0 <= i < |pre| ==> pre[i] == items[i];
    }
  }

  /** Item `i` of the input section, at its place in `a` after the arguments of
      the items before it: its name when that is non-empty, then its expanded value. */
  predicate InputPieceAt(items: Dict<Json>, expand: Json -> Result<string>, a: seq<Json>, i: nat)
    requires i < |items|
  {
    var o := i + Named(items[..i]);
    expand(items[i].1).Ok? &&
    if items[i].0 != "" then o + 1 < |a| && a[o] == JStr(items[i].0) && a[o + 1] == JStr(expand(items[i].1).value)
    else o < |a| && a[o] == JStr(expand(items[i].1).value)
  }

  /** Item `i` of the additional section, at its place in `a` after the arguments
      of the items before it: its name, then its expanded value only when the
      value is truthy. */
  predicate AdditionalPieceAt(items: Dict<Json>, expand: Json -> Result<string>, a: seq<Json>, i: nat)
    requires i < |items|
  {
    var o := i + TruthyValues(items[..i]);
    o < |a| && a[o] == JStr(items[i].0) &&
    (Truthy(items[i].1) ==> expand(items[i].1).Ok? && o + 1 < |a| && a[o + 1] == JStr(expand(items[i].1).value))
  }

  /** A piece found in the arguments of a prefix of the items is found in the
      arguments of all of them. */
  lemma PiecePrefix(items: Dict<Json>, pre: Dict<Json>, expand: Json -> Result<string>, b: seq<Json>, a: seq<Json>, i: nat)
    requires |pre| <= |items| && pre == items[..|pre|] && i < |pre| && b <= a
    ensures InputPieceAt(pre, expand, b, i) ==> InputPieceAt(items, expand, a, i)
    ensures AdditionalPieceAt(pre, expand, b, i) ==> AdditionalPieceAt(items, expand, a, i)
  {
    assert pre[i] == items[i] && pre[..i] == items[..i];
  }

  /** The last input item's piece closes the section. */
  lemma InputPieceLast(items: Dict<Json>, expand: Json -> Result<string>)
    requires |items| > 0 && InputArgs(items, expand).Ok?
    ensures InputPieceAt(items, expand, InputArgs(items, expand).value, |items| - 1)
  {
    var n := |items| - 1;
    InputArgsShape(items[..n], expand);
  }

  /** The last additional item's piece closes the section. */
  lemma AdditionalPieceLast(items: Dict<Json>, expand: Json -> Result<string>)
    requires |items| > 0 && AdditionalArgs(items, expand).Ok?
    ensures AdditionalPieceAt(items, expand, AdditionalArgs(items, expand).value, |items| - 1)
  {
    var n := |items| - 1;
    AdditionalArgsShape(items[..n], expand);
  }

  /** Input parameters, item by item: each item contributes, at its place after
      the arguments of the items before it, its name when that is non-empty and
      then its expanded value; nothing else is added. */
  lemma {:induction false} InputArgsPointwise(items: Dict<Json>, expand: Json -> Result<string>)
    requires InputArgs(items, expand).Ok?
    ensures var a := InputArgs(items, expand).value;
            |a| == |items| + Named(items) && forall i :: 0 <= i < |items| ==> InputPieceAt(items, expand, a, i)
  {
    InputArgsShape(items, expand);
    if |items| > 0 {
      var n := |items| - 1;
      var pre := items[..n];
      InputArgsPointwise(pre, expand);
      var a := InputArgs(items, expand).value;
      var b := InputArgs(pre, expand).value;
      assert b <= a;
      forall i | 0 <= i < |items|
        ensures InputPieceAt(items, expand, a, i)
      {
        if i < n {
          PiecePrefix(items, pre, expand, b, a, i);
        } else {
          InputPieceLast(items, expand);
        }
      }
    }
  }

  /** Additional parameters, item by item: each item contributes, at its place
      after the arguments of the items before it, its name and then, only when
      its value is truthy, the expanded value; nothing else is added. */
  lemma {:induction false} AdditionalArgsPointwise(items: Dict<Json>, expand: Json -> Result<string>)
    requires AdditionalArgs(items, expand).Ok?
    ensures var a := AdditionalArgs(items, expand).value;
            |a| == |items| + TruthyValues(items) && forall i :: 0 <= i < |items| ==> AdditionalPieceAt(items, expand, a, i)
  {
    AdditionalArgsShape(items, expand);
    if |items| > 0 {
      var n := |items| - 1;
      var pre := items[..n];
      AdditionalArgsPointwise(pre, expand);
      var a := AdditionalArgs(items, expand).value;
      var b := AdditionalArgs(pre, expand).value;
      assert b <= a;
      forall i | 0 <= i < |items|
        ensures AdditionalPieceAt(items, expand, a, i)
      {
        if i < n {
          PiecePrefix(items, pre, expand, b, a, i);
        } else {
          AdditionalPieceLast(items, expand);
        }
      }
    }
  }

  /** The three optional sections of `params`. */
  datatype Kind = Input | Output | Additional

  function Key(kind: Kind): string
  {
    match kind
    case Input => "input"
    case Output => "output"
    case Additional => "additional"
  }

  /** The arguments of a section's items. */
  function Args(kind: Kind, items: Dict<Json>, expand: Json -> Result<string>): Result<seq<Json>>
  {
    match kind
    case Input => InputArgs(items, expand)
    case Output => OutputArgs(items, expand)
    case Additional => AdditionalArgs(items, expand)
  }

  /** The arguments of one optional section of `params`: nothing when it is
      absent, otherwise its items turned into arguments. */
  function Section(params: Json, kind: Kind, expand: Json -> Result<string>): Result<seq<Json>>
  {
    var present :- In(Key(kind), params);
    if present then
      var section :- Index(params, Key(kind));
      var items :- Items(section);
      Args(kind, items, expand)
    else Ok([])
  }

  /** The start of the call: the environment type, `-X frozen_modules=off`
      for Python, then the script path. */
  function CallHead(env: Json, scriptPath: string): seq<Json>
  {
    [env] + (if env == JStr("python") then [JStr("-X"), JStr("frozen_modules=off")] else []) + [JStr(scriptPath)]
  }

  /** The asset file as `execute_script` uses it: its path text, its stem
      (the asset name) and the extension that selects its asset type. */
  datatype AssetFile = AssetFile(text: string, stem: string, ext: string)

  function AssetFileOf(assetFile: string): AssetFile
  {
    AssetFile(PathStr(assetFile), Stem(Name(assetFile)), GetAssetTypeExtension(assetFile))
  }

  /** The argument list `execute_script` assembles. `scriptPath`, `subPath`
      and `outputDir` are the path texts it resolved before, from
      `params.call` and `data folder`. */
  function ScriptCall(config: Json, scriptPath: string, subPath: string, outputDir: string, asset: AssetFile): Result<seq<Json>>
  {
    var params :- Index(config, "params");
    var env :- Index(config, "environment type");
    var assetType :- GetAssetType(asset.ext);
    var args :- CallArgs(params, Expander(Pattern(outputDir, subPath, asset.stem, assetType)), asset.text);
    Ok(CallHead(env, scriptPath) + args)
  }

  /** The arguments after the script path: the inputs (the asset file when
      `params` has no `input` section), the outputs and the additional
      arguments. */
  function CallArgs(params: Json, expand: Json -> Result<string>, asset: string): Result<seq<Json>>
  {
    var hasInput :- In("input", params);
    var inputs :- if hasInput then Section(params, Input, expand) else Ok([JStr(asset)]);
    var outputs :- Section(params, Output, expand);
    var additional :- Section(params, Additional, expand);
    Ok(inputs + outputs + additional)
  }

  /** The head is the environment type, Python's flag pair and the script
      path. */
  lemma CallHeadShape(env: Json, scriptPath: string)
    ensures var h := CallHead(env, scriptPath);
            var k := if env == JStr("python") then 3 else 1;
            |h| == k + 1 && h[0] == env && h[k] == JStr(scriptPath)
            && (env == JStr("python") ==> h[1] == JStr("-X") && h[2] == JStr("frozen_modules=off"))
  {
  }

  /** Without `input` parameters the arguments start with the asset file. */
  lemma CallArgsStart(params: Json, expand: Json -> Result<string>, asset: string)
    requires CallArgs(params, expand, asset).Ok? && In("input", params) == Ok(false)
    ensures |CallArgs(params, expand, asset).value| > 0 && CallArgs(params, expand, asset).value[0] == JStr(asset)
  {
  }

  /** A call starts with the environment type, Python's flag pair and the
      script path; without `input` parameters the asset file comes next. */
  lemma ScriptCallStart(config: Json, scriptPath: string, subPath: string, outputDir: string, asset: AssetFile,
                        call: seq<Json>, env: Json, params: Json)
    requires ScriptCall(config, scriptPath, subPath, outputDir, asset) == Ok(call)
    requires Index(config, "environment type") == Ok(env) && Index(config, "params") == Ok(params)
    ensures var k := if env == JStr("python") then 3 else 1;
            |call| > k && call[0] == env && call[k] == JStr(scriptPath)
            && (env == JStr("python") ==> call[1] == JStr("-X") && call[2] == JStr("frozen_modules=off"))
            && (In("input", params) == Ok(false) ==> |call| > k + 1 && call[k + 1] == JStr(asset.text))
  {
    ScriptCallParts(config, scriptPath, subPath, outputDir, asset, call, env, params);
    var expand := Expander(Pattern(outputDir, subPath, asset.stem, GetAssetType(asset.ext).value));
    if In("input", params) == Ok(false) {
      CallArgsStart(params, expand, asset.text);
    }
    HeadThenArgs(env, scriptPath, CallArgs(params, expand, asset.text).value, In("input", params) == Ok(false), asset.text);
  }

  /** The start of a head followed by arguments that, when `first` holds,
      begin with `asset`. */
  lemma HeadThenArgs(env: Json, scriptPath: string, args: seq<Json>, first: bool, asset: string)
    requires first ==> |args| > 0 && args[0] == JStr(asset)
    ensures var call := CallHead(env, scriptPath) + args;
            var k := if env == JStr("python") then 3 else 1;
            |call| > k && call[0] == env && call[k] == JStr(scriptPath)
            && (env == JStr("python") ==> call[1] == JStr("-X") && call[2] == JStr("frozen_modules=off"))
            && (first ==> |call| > k + 1 && call[k + 1] == JStr(asset))
  {
    CallHeadShape(env, scriptPath);
  }

  /** A call that succeeds is its head followed by its arguments. */
  lemma ScriptCallParts(config: Json, scriptPath: string, subPath: string, outputDir: string, asset: AssetFile,
                        call: seq<Json>, env: Json, params: Json)
    requires ScriptCall(config, scriptPath, subPath, outputDir, asset) == Ok(call)
    requires Index(config, "environment type") == Ok(env) && Index(config, "params") == Ok(params)
    ensures GetAssetType(asset.ext).Ok?
    ensures var expand := Expander(Pattern(outputDir, subPath, asset.stem, GetAssetType(asset.ext).value));
            CallArgs(params, expand, asset.text).Ok?
            && call == CallHead(env, scriptPath) + CallArgs(params, expand, asset.text).value
  {
  }

  /** Appends the arguments of one section item by item, as the loops of
      `execute_script` do. */
  method CollectInputs(items: Dict<Json>, expand: Json -> Result<string>) returns (r: Result<seq<Json>>)
    ensures r == InputArgs(items, expand)
  {
    var scriptCall: seq<Json> := [];
    for i := 0 to |items|
      invariant InputArgs(items[..i], expand).Ok? && scriptCall == InputArgs(items[..i], expand).value
    {
      assert items[..i + 1][..i] == items[..i];
      var (name, value) := items[i];
      if name != "" {
        scriptCall := scriptCall + [JStr(name)];
      }
      var updated :- ExpandOrFail(value, expand, items, i, Input);
      scriptCall := scriptCall + [JStr(updated)];
    }
    assert items[..|items|] == items;
    return Ok(scriptCall);
  }

  method CollectOutputs(items: Dict<Json>, expand: Json -> Result<string>) returns (r: Result<seq<Json>>)
    ensures r == OutputArgs(items, expand)
  {
    var scriptCall: seq<Json> := [];
    for i := 0 to |items|
      invariant OutputArgs(items[..i], expand).Ok? && scriptCall == OutputArgs(items[..i], expand).value
    {
      assert items[..i + 1][..i] == items[..i];
      var (name, value) := items[i];
      scriptCall := scriptCall + [JStr(name)];
      var updated :- ExpandOrFail(value, expand, items, i, Output);
      scriptCall := scriptCall + [JStr(updated)];
    }
    assert items[..|items|] == items;
    return Ok(scriptCall);
  }

  method CollectAdditional(items: Dict<Json>, expand: Json -> Result<string>) returns (r: Result<seq<Json>>)
    ensures r == AdditionalArgs(items, expand)
  {
    var scriptCall: seq<Json> := [];
    for i := 0 to |items|
      invariant AdditionalArgs(items[..i], expand).Ok? && scriptCall == AdditionalArgs(items[..i], expand).value
    {
      assert items[..i + 1][..i] == items[..i];
      var (name, value) := items[i];
      scriptCall := scriptCall + [JStr(name)];
      if Truthy(value) {
        var updated :- ExpandOrFail(value, expand, items, i, Additional);
        scriptCall := scriptCall + [JStr(updated)];
      }
    }
    assert items[..|items|] == items;
    return Ok(scriptCall);
  }

  /** Expands one value inside a section loop; when it fails, so does the
      whole section, whichever of the three it is. */
  method ExpandOrFail(value: Json, expand: Json -> Result<string>, ghost items: Dict<Json>, ghost i: nat, ghost kind: Kind)
    returns (r: Result<string>)
    requires i < |items| && value == items[i].1
    requires Args(kind, items[..i], expand).Ok?
    requires kind == Additional ==> Truthy(value)
    ensures r == expand(value)
    ensures r.Err? ==> Args(kind, items, expand).Err? && Args(kind, items, expand).error == r.error
  {
    r := expand(value);
    if r.Err? {
      assert items[..i + 1][..i] == items[..i];
      SectionErrPrefix(items, expand, kind, i + 1);
    }
  }

  /** Once a prefix of a section fails, the section fails the same way. */
  lemma {:induction false} SectionErrPrefix(items: Dict<Json>, expand: Json -> Result<string>, kind: Kind, i: nat)
    requires i <= |items| && Args(kind, items[..i], expand).Err?
    ensures Args(kind, items, expand).Err? && Args(kind, items, expand).error == Args(kind, items[..i], expand).error
    decreases |items| - i
  {
    if i == |items| {
      assert items[..i] == items;
    } else {
      assert items[..i + 1][..i] == items[..i];
      SectionErrPrefix(items, expand, kind, i + 1);
    }
  }

  /** The arguments of one optional section of `params`. */
  method SectionArgs(params: Json, kind: Kind, expand: Json -> Result<string>) returns (r: Result<seq<Json>>)
    ensures r == Section(params, kind, expand)
  {
    var present :- In(Key(kind), params);
    if !present {
      return Ok([]);
    }
    var section :- Index(params, Key(kind));
    var items :- Items(section);
    match kind
    case Input => r := CollectInputs(items, expand);
    case Output => r := CollectOutputs(items, expand);
    case Additional => r := CollectAdditional(items, expand);
  }

  /** The inputs, outputs and additional arguments. */
  method CollectCallArgs(params: Json, expand: Json -> Result<string>, asset: string) returns (r: Result<seq<Json>>)
    ensures r == CallArgs(params, expand, asset)
  {
    var hasInput :- In("input", params);
    var inputs: seq<Json>;
    if hasInput {
      inputs :- SectionArgs(params, Input, expand);
    } else {
      inputs := [JStr(asset)];
    }
    var outputs :- SectionArgs(params, Output, expand);
    var additional :- SectionArgs(params, Additional, expand);
    return Ok(inputs + outputs + additional);
  }

  /** The start of the call, appended piece by piece. */
  method StartCall(env: Json, scriptPath: string) returns (scriptCall: seq<Json>)
    ensures scriptCall == CallHead(env, scriptPath)
  {
    scriptCall := [env];
    if env == JStr("python") {
      scriptCall := scriptCall + [JStr("-X")];
      scriptCall := scriptCall + [JStr("frozen_modules=off")];
    }
    scriptCall := scriptCall + [JStr(scriptPath)];
  }

  /** The argument assembly of `execute_script`. */
  method AssembleScriptCall(config: Json, scriptPath: string, subPath: string, outputDir: string, asset: AssetFile)
    returns (r: Result<seq<Json>>)
    ensures r == ScriptCall(config, scriptPath, subPath, outputDir, asset)
  {
    var params :- Index(config, "params");
    var env :- Index(config, "environment type");
    var scriptCall := StartCall(env, scriptPath);
    var assetType :- GetAssetType(asset.ext);
    var expand := Expander(Pattern(outputDir, subPath, asset.stem, assetType));
    var args :- CollectCallArgs(params, expand, asset.text);
    return Ok(scriptCall + args);
  }
}
