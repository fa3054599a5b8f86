/**
 * The rules of `write_json` in bin/build_config.py that decide what goes into a Vitessce
 * view config: which files are added and with which options, whether there is anything
 * to write at all, the config's name, the layout string with component names replaced by
 * view references, and the output file name.
 *
 * The `constants` module's tables (`DATA_TYPES`, `DEFAULT_OPTIONS`, `DEFAULT_LAYOUTS`,
 * `COMPONENTS_DATA_TYPES`, `COMPONENTS_COORDINATION_TYPES`) are parameters.
 */
module Config {
  import opened Wrappers
  import opened Json
  import opened PyStrings
  import opened Paths
  import opened ConfigOptions
  import opened RasterOptions
  import Layout

  /** The data type the raster file is added under (`DataType.RASTER`). */
  const Raster := "raster"

  /** The coordination type of the scopes made for mappings (`CoordinationType.EMBEDDING_TYPE`). */
  const EmbeddingType := "embeddingType"

  /** `build_options` is called without `check_exist`, so nothing is looked up on disk. */
  const NoCheck := ExistCheck(false, p => false)

  /** The tables the script imports from its `constants` module. */
  datatype Tables = Tables(
    /** `DATA_TYPES`: per data type, the (file name, file type) candidates in order of preference. */
    dataTypes: seq<(string, seq<(string, FileType)>)>,
    /** `DEFAULT_OPTIONS`: the options used for a file type when none are given. */
    defaultOptions: map<FileType, Dict>,
    /** `DEFAULT_LAYOUTS`: the layout strings the `layout` argument names. */
    defaultLayouts: map<string, string>,
    /** The component tables the layout loop consults. */
    viewer: Layout.Tables)

  /** The arguments of `write_json` that shape the config. */
  datatype Args = Args(
    title: string,
    dataset: string,
    filePaths: seq<string>,
    images: Images,
    url: string,
    options: Option<Dict>,
    layout: string,
    customLayout: Option<string>,
    configName: string,
    suffix: string,
    outdir: Option<string>)

  /** One `add_file` call: data type, file type, URL (none for the raster file) and options. */
  datatype FileDef = FileDef(dataType: string, fileType: FileType, url: Option<string>, options: Json)

  /** Why `write_json` stops without writing. */
  datatype WriteError =
    | Raised         // an exception out of `build_options`, or out of testing `"mappings" in` its result
    | NoFiles        // `SystemExit("No files to add to config file")`
    | UnknownLayout  // the `KeyError` of `DEFAULT_LAYOUTS[layout]`

  /**
   * What the config is built from: its name, the files added to its dataset, the layout
   * string after the component names are replaced, the views made, and the output path.
   */
  datatype ConfigOut = ConfigOut(name: string, files: seq<FileDef>, spliced: string, views: seq<string>, outputPath: string)

  // ---------------------------------------------------------------------------
  // Names

  /** The config's name: `config_name` when given, else the title. */
  function ConfigName(a: Args): string {
    if |a.configName| > 0 then a.configName else a.title
  }

  /** `f"{title}-{dataset}-{config_filename_suffix}"`. */
  function FileName(a: Args): string {
    a.title + "-" + a.dataset + "-" + a.suffix
  }

  /** `os.path.join(outdir or "", ...)`. */
  function OutputPath(a: Args): string {
    PathJoin(if a.outdir.Some? then a.outdir.value else "", FileName(a))
  }

  /**
   * The file is written under the output directory with the name `title-dataset-suffix`;
   * without an output directory it is that bare name.
   */
  lemma OutputPathShape(a: Args)
    requires '/' !in FileName(a)
    ensures Basename(OutputPath(a)) == FileName(a)
    ensures a.outdir.None? || a.outdir == Some("") ==> OutputPath(a) == FileName(a)
  {
    var fn := FileName(a);
    if fn != [] {
      assert fn[0] in fn;
    }
    BasenameOfJoin(if a.outdir.Some? then a.outdir.value else "", fn);
  }

  // ---------------------------------------------------------------------------
  // Finding the files

  /** `{x.split("-")[-1]: x for x in file_paths}`: a later path with the same last part wins. */
  function PathsByName(ps: seq<string>): map<string, string> {
    if ps == [] then map[]
    else PathsByName(ps[..|ps| - 1])[LastSegment(ps[|ps| - 1], '-') := ps[|ps| - 1]]
  }

  /**
   * A name is a key exactly when some path ends in `-name` (or is `name`), and it maps to the
   * last such path.
   */
  lemma {:induction false} PathsByNameSpec(ps: seq<string>, name: string)
    ensures name in PathsByName(ps) <==> exists i :: 0 <= i < |ps| && LastSegment(ps[i], '-') == name
    ensures name in PathsByName(ps) ==>
      exists i :: 0 <= i < |ps| && PathsByName(ps)[name] == ps[i] && LastSegment(ps[i], '-') == name
        && forall j :: i < j < |ps| ==> LastSegment(ps[j], '-') != name
  {
    if ps != [] {
      var init := ps[..|ps| - 1];
      var last := |ps| - 1;
      PathsByNameSpec(init, name);
      assert forall i :: 0 <= i < |init| ==> init[i] == ps[i];
      if LastSegment(ps[last], '-') != name && name in PathsByName(ps) {
        var i :| 0 <= i < |init| && PathsByName(init)[name] == init[i] && LastSegment(init[i], '-') == name
          && forall j :: i < j < |init| ==> LastSegment(init[j], '-') != name;
        assert forall j :: i < j < |ps| ==> LastSegment(ps[j], '-') != name;
      }
    }
  }

  /** The first candidate whose file name was given, if any. */
  function FirstFound(cands: seq<(string, FileType)>, byName: map<string, string>): (r: Option<nat>)
    ensures r.Some? ==> r.value < |cands| && cands[r.value].0 in byName
    ensures r.Some? ==> forall j :: 0 <= j < r.value ==> cands[j].0 !in byName
    ensures r.None? <==> forall j :: 0 <= j < |cands| ==> cands[j].0 !in byName
  {
    if cands == [] then None
    else if cands[0].0 in byName then Some(0)
    else
      match FirstFound(cands[1..], byName)
      case None => None
      case Some(i) => Some(i + 1)
  }

  /** The inner loop over a data type's candidates, which stops at the first one found. */
  method FindFile(cands: seq<(string, FileType)>, byName: map<string, string>) returns (found: Option<nat>)
    ensures found == FirstFound(cands, byName)
  {
    found := None;
    var i := 0;
    while i < |cands|
      invariant 0 <= i <= |cands|
      invariant forall j :: 0 <= j < i ==> cands[j].0 !in byName
    {
      if cands[i].0 in byName {
        found := Some(i);
        break;
      }
      i := i + 1;
    }
  }

  // ---------------------------------------------------------------------------
  // One data type

  /** `options or DEFAULT_OPTIONS[file_type]`: `None` and the empty dict fall back. */
  function ChosenOptions(user: Option<Dict>, fallback: Dict): Dict {
    if user.Some? && user.value != [] then user.value else fallback
  }

  /** `p` occurs in `s` at `i`. */
  predicate OccursAt(p: string, s: string, i: nat) {
    i + |p| <= |s| && s[i..i + |p|] == p
  }

  /** `p in s` on strings: `p` occurs in `s`. */
  predicate Occurs(p: string, s: string) {
    exists i :: 0 <= i <= |s| && OccursAt(p, s, i)
  }

  /**
   * `"mappings" in file_options`, and then iterating `file_options["mappings"]`: whether an
   * embedding-type scope is made. `in` raises on `None`, a number or a boolean; indexing a
   * list or a string by a string raises; iterating a scalar raises.
   */
  function MappingsScoped(v: Json): (r: Result<bool, WriteError>)
    ensures r.Err? ==> r.error == Raised
  {
    match v
    case Object(f) =>
      if "mappings" !in Keys(f) then Ok(false)
      else
        (match Iter(Get(f, "mappings").value)
         case None => Err(Raised)
         case Some(ks) => Ok(ks != []))
    case List(xs) => if Str("mappings") in xs then Err(Raised) else Ok(false)
    case Str(s) => if Occurs("mappings", s) then Err(Raised) else Ok(false)
    case _ => Err(Raised)
  }

  /** Options built from spatial entries `sp`, mappings `m` and factors `f` scope an embedding type iff `m` is not empty. */
  lemma {:induction false} PartsScope(sp: Dict, m: Dict, f: seq<Json>)
    requires "mappings" !in Keys(sp)
    ensures MappingsScoped(Object(WithFactors(WithMappings(sp, m), f))) == Ok(m != [])
  {
    var d := WithMappings(sp, m);
    var fExtra: Dict := if f == [] then [] else [("factors", List(f))];
    assert WithFactors(d, f) == d + fExtra;
    KeysAppend(d, fExtra);
    assert Keys(fExtra) == (if f == [] then [] else ["factors"]);
    if m == [] {
      assert d == sp;
    } else {
      MappingsAdded(sp, m);
      GetAppendLeft(d, fExtra, "mappings");
      assert |Iter(Object(m)).value| == |m|;
    }
  }

  /** A non-empty `mappings` dict appended to spatial entries without that key is found there. */
  lemma {:induction false} MappingsAdded(sp: Dict, m: Dict)
    requires "mappings" !in Keys(sp) && m != []
    ensures "mappings" in Keys(WithMappings(sp, m))
    ensures Get(WithMappings(sp, m), "mappings") == Some(Object(m))
  {
    KeysAppend(sp, [("mappings", Object(m))]);
    GetAppendRight(sp, "mappings", Object(m));
  }

  /**
   * The options of a cells file make an embedding-type scope exactly when they hold a
   * mapping (unless a spatial entry is itself named `mappings`).
   */
  lemma CellsScopeIffMappings(ec: ExistCheck, filePath: string, fo: Dict)
    requires "mappings" !in Keys(SpatialPart(ec, filePath, fo))
    ensures MappingsScoped(CellsValue(ec, filePath, fo)) == Ok(MappingsPart(ec, filePath, fo) != [])
  {
    PartsScope(SpatialPart(ec, filePath, fo), MappingsPart(ec, filePath, fo), FactorsPart(ec, filePath, fo));
  }

  /** The file added for a data type whose candidate `ft` was found at `path`, and whether it makes a scope. */
  function FileOf(dt: string, ft: FileType, path: string, a: Args, t: Tables): (r: Result<(FileDef, bool), WriteError>)
    ensures r.Err? ==> r.error == Raised
    ensures r.Ok? ==> r.value.0.dataType == dt && r.value.0.fileType == ft
    ensures r.Ok? ==> r.value.0.url == Some(PathJoin(a.url, Basename(path)))
  {
    var url := Some(PathJoin(a.url, Basename(path)));
    if ft !in t.defaultOptions then Ok((FileDef(dt, ft, url, Null), false))
    else
      var fo := ChosenOptions(a.options, t.defaultOptions[ft]);
      if !OptionsOk(ft, NoCheck, path, fo) then Err(Raised)
      else
        var v := OptionsValue(ft, NoCheck, path, fo);
        match MappingsScoped(v)
        case Err(e) => Err(e)
        case Ok(b) => Ok((FileDef(dt, ft, url, v), b))
  }

  /** The files added so far, the data types they cover, and whether an embedding scope exists. */
  datatype Added = Added(files: seq<FileDef>, dts: set<string>, scoped: bool)

  /** One pass of the `DATA_TYPES` loop: the first candidate found, if any, is added. */
  function DataTypeStep(acc: Added, dt: string, cands: seq<(string, FileType)>, byName: map<string, string>,
                        a: Args, t: Tables): (r: Result<Added, WriteError>)
    ensures r.Err? ==> r.error == Raised
  {
    match FirstFound(cands, byName)
    case None => Ok(acc)
    case Some(i) =>
      match FileOf(dt, cands[i].1, byName[cands[i].0], a, t)
      case Err(e) => Err(e)
      case Ok(fb) => Ok(Added(acc.files + [fb.0], acc.dts + {dt}, acc.scoped || fb.1))
  }

  /** The whole `DATA_TYPES` loop from `start`; the first exception ends it. */
  function AddedFiles(start: Added, dts: seq<(string, seq<(string, FileType)>)>, byName: map<string, string>,
                      a: Args, t: Tables): (r: Result<Added, WriteError>)
    ensures r.Err? ==> r.error == Raised
  {
    if dts == [] then Ok(start)
    else
      match AddedFiles(start, dts[..|dts| - 1], byName, a, t)
      case Err(e) => Err(e)
      case Ok(acc) => DataTypeStep(acc, dts[|dts| - 1].0, dts[|dts| - 1].1, byName, a, t)
  }

  /** The options `build_options` receives are dicts with unique keys. */
  predicate OptionsWellFormed(a: Args, t: Tables) {
    && (a.options.Some? ==> WellFormed(Object(a.options.value)))
    && (forall ft :: ft in t.defaultOptions ==> WellFormed(Object(t.defaultOptions[ft])))
  }

  /** One pass of the `DATA_TYPES` loop. */
  method AddDataType(acc: Added, dt: string, cands: seq<(string, FileType)>, byName: map<string, string>,
                     a: Args, t: Tables) returns (r: Result<Added, WriteError>)
    requires OptionsWellFormed(a, t)
    ensures r == DataTypeStep(acc, dt, cands, byName, a, t)
  {
    var found := FindFile(cands, byName);
    if found.None? {
      return Ok(acc);
    }
    var (fileName, fileType) := cands[found.value];
    var filePath := byName[fileName];
    var fileOptions := Null;
    var scoped := false;
    if fileType in t.defaultOptions {
      var fo := ChosenOptions(a.options, t.defaultOptions[fileType]);
      var built := BuildOptions(fileType, filePath, fo, NoCheck);
      if built.Err? {
        return Err(Raised);
      }
      fileOptions := built.value;
      var m := MappingsScoped(fileOptions);
      if m.Err? {
        return Err(m.error);
      }
      scoped := m.value;
    }
    var f := FileDef(dt, fileType, Some(PathJoin(a.url, Basename(filePath))), fileOptions);
    r := Ok(Added(acc.files + [f], acc.dts + {dt}, acc.scoped || scoped));
  }

  /** A pass adds nothing when no candidate was given, and otherwise one file of its data type, with a URL. */
  lemma DataTypeStepAdds(acc: Added, dt: string, cands: seq<(string, FileType)>, byName: map<string, string>,
                         a: Args, t: Tables)
    requires DataTypeStep(acc, dt, cands, byName, a, t).Ok?
    ensures FirstFound(cands, byName).None? ==> DataTypeStep(acc, dt, cands, byName, a, t).value == acc
    ensures FirstFound(cands, byName).Some? ==>
      && |DataTypeStep(acc, dt, cands, byName, a, t).value.files| == |acc.files| + 1
      && DataTypeStep(acc, dt, cands, byName, a, t).value.files[..|acc.files|] == acc.files
      && DataTypeStep(acc, dt, cands, byName, a, t).value.files[|acc.files|].dataType == dt
      && DataTypeStep(acc, dt, cands, byName, a, t).value.files[|acc.files|].url.Some?
      && DataTypeStep(acc, dt, cands, byName, a, t).value.dts == acc.dts + {dt}
  {
  }

  /** Once the loop has raised, the rest of the data types do not matter. */
  lemma {:induction false} AddedFilesErrStays(start: Added, dts: seq<(string, seq<(string, FileType)>)>,
                                              byName: map<string, string>, a: Args, t: Tables, k: nat)
    requires k <= |dts| && AddedFiles(start, dts[..k], byName, a, t).Err?
    ensures AddedFiles(start, dts, byName, a, t) == AddedFiles(start, dts[..k], byName, a, t)
    decreases |dts| - k
  {
    if k < |dts| {
      assert dts[..k + 1][..k] == dts[..k];
      AddedFilesErrStays(start, dts, byName, a, t, k + 1);
    } else {
      assert dts[..k] == dts;
    }
  }

  /** One more data type applies its step to what the earlier ones built. */
  lemma {:induction false} AddedFilesStep(start: Added, dts: seq<(string, seq<(string, FileType)>)>,
                                          byName: map<string, string>, a: Args, t: Tables, k: nat)
    requires k < |dts| && AddedFiles(start, dts[..k], byName, a, t).Ok?
    ensures AddedFiles(start, dts[..k + 1], byName, a, t)
      == DataTypeStep(AddedFiles(start, dts[..k], byName, a, t).value, dts[k].0, dts[k].1, byName, a, t)
  {
    assert dts[..k + 1][..k] == dts[..k];
  }

  /** The `DATA_TYPES` loop. */
  method AddDataFiles(start: Added, byName: map<string, string>, a: Args, t: Tables)
    returns (r: Result<Added, WriteError>)
    requires OptionsWellFormed(a, t)
    ensures r == AddedFiles(start, t.dataTypes, byName, a, t)
  {
    var dts := t.dataTypes;
    var acc := start;
    var k := 0;
    while k < |dts|
      invariant 0 <= k <= |dts|
      invariant AddedFiles(start, dts[..k], byName, a, t) == Ok(acc)
    {
      AddedFilesStep(start, dts, byName, a, t, k);
      var step := AddDataType(acc, dts[k].0, dts[k].1, byName, a, t);
      if step.Err? {
        AddedFilesErrStays(start, dts, byName, a, t, k + 1);
        return step;
      }
      acc := step.value;
      k := k + 1;
    }
    assert dts[..k] == dts;
    r := Ok(acc);
  }

  // ---------------------------------------------------------------------------
  // Which data types get a file

  /** The data types, in `DATA_TYPES` order, for which some candidate file was given. */
  function FoundTypes(dts: seq<(string, seq<(string, FileType)>)>, byName: map<string, string>): seq<string> {
    if dts == [] then []
    else
      var last := dts[|dts| - 1];
      FoundTypes(dts[..|dts| - 1], byName) + (if FirstFound(last.1, byName).Some? then [last.0] else [])
  }

  /** A data type is found exactly when one of its candidate file names was given. */
  lemma {:induction false} FoundTypesSpec(dts: seq<(string, seq<(string, FileType)>)>, byName: map<string, string>, d: string)
    ensures d in FoundTypes(dts, byName) <==>
      exists k, j :: 0 <= k < |dts| && 0 <= j < |dts[k].1| && dts[k].0 == d && dts[k].1[j].0 in byName
  {
    if dts != [] {
      var init := dts[..|dts| - 1];
      FoundTypesSpec(init, byName, d);
      assert forall k :: 0 <= k < |init| ==> init[k] == dts[k];
      var last := dts[|dts| - 1];
      if FirstFound(last.1, byName).Some? {
        var j := FirstFound(last.1, byName).value;
        assert dts[|dts| - 1].1[j].0 in byName;
      }
    }
  }

  function DataTypesOf(files: seq<FileDef>): (r: seq<string>)
    ensures |r| == |files|
    ensures forall i :: 0 <= i < |files| ==> r[i] == files[i].dataType
  {
    seq(|files|, i requires 0 <= i < |files| => files[i].dataType)
  }

  /** The loop keeps the files it started with, in front. */
  lemma {:induction false} AddedFilesKeepStart(start: Added, dts: seq<(string, seq<(string, FileType)>)>,
                                               byName: map<string, string>, a: Args, t: Tables)
    requires AddedFiles(start, dts, byName, a, t).Ok?
    ensures |start.files| <= |AddedFiles(start, dts, byName, a, t).value.files|
    ensures AddedFiles(start, dts, byName, a, t).value.files[..|start.files|] == start.files
  {
    if dts != [] {
      var init := dts[..|dts| - 1];
      var last := dts[|dts| - 1];
      AddedFilesKeepStart(start, init, byName, a, t);
      var acc := AddedFiles(start, init, byName, a, t).value;
      DataTypeStepAdds(acc, last.0, last.1, byName, a, t);
    }
  }

  /** After the files it started with, the loop adds one file per found data type, in `DATA_TYPES` order. */
  lemma {:induction false} AddedFilesTypes(start: Added, dts: seq<(string, seq<(string, FileType)>)>,
                                           byName: map<string, string>, a: Args, t: Tables)
    requires AddedFiles(start, dts, byName, a, t).Ok?
    ensures |start.files| <= |AddedFiles(start, dts, byName, a, t).value.files|
    ensures DataTypesOf(AddedFiles(start, dts, byName, a, t).value.files[|start.files|..]) == FoundTypes(dts, byName)
  {
    AddedFilesKeepStart(start, dts, byName, a, t);
    if dts != [] {
      var init := dts[..|dts| - 1];
      var last := dts[|dts| - 1];
      AddedFilesTypes(start, init, byName, a, t);
      AddedFilesKeepStart(start, init, byName, a, t);
      var acc := AddedFiles(start, init, byName, a, t).value;
      var r := AddedFiles(start, dts, byName, a, t).value;
      DataTypeStepAdds(acc, last.0, last.1, byName, a, t);
      var n := |start.files|;
      if FirstFound(last.1, byName).Some? {
        assert r.files == acc.files + [r.files[|acc.files|]];
        assert r.files[n..] == acc.files[n..] + [r.files[|acc.files|]];
        assert DataTypesOf(r.files[n..]) == DataTypesOf(acc.files[n..]) + [last.0];
      }
    }
  }

  /** The data types covered are those the loop started with and the found ones. */
  lemma {:induction false} AddedDtsFound(start: Added, dts: seq<(string, seq<(string, FileType)>)>,
                                         byName: map<string, string>, a: Args, t: Tables, d: string)
    requires AddedFiles(start, dts, byName, a, t).Ok?
    ensures d in AddedFiles(start, dts, byName, a, t).value.dts <==> d in start.dts || d in FoundTypes(dts, byName)
  {
    if dts != [] {
      var init := dts[..|dts| - 1];
      var last := dts[|dts| - 1];
      AddedDtsFound(start, init, byName, a, t, d);
      var acc := AddedFiles(start, init, byName, a, t).value;
      DataTypeStepAdds(acc, last.0, last.1, byName, a, t);
    }
  }

  /**
   * The loop keeps the files it started with and then adds one file per found data type, in
   * `DATA_TYPES` order; the data types covered are those it started with and the found ones.
   */
  lemma AddedFilesOrder(start: Added, dts: seq<(string, seq<(string, FileType)>)>,
                        byName: map<string, string>, a: Args, t: Tables)
    requires AddedFiles(start, dts, byName, a, t).Ok?
    ensures |start.files| <= |AddedFiles(start, dts, byName, a, t).value.files|
    ensures AddedFiles(start, dts, byName, a, t).value.files[..|start.files|] == start.files
    ensures DataTypesOf(AddedFiles(start, dts, byName, a, t).value.files[|start.files|..]) == FoundTypes(dts, byName)
    ensures forall d :: d in AddedFiles(start, dts, byName, a, t).value.dts <==> d in start.dts || d in FoundTypes(dts, byName)
  {
    AddedFilesKeepStart(start, dts, byName, a, t);
    AddedFilesTypes(start, dts, byName, a, t);
    forall d ensures d in AddedFiles(start, dts, byName, a, t).value.dts <==> d in start.dts || d in FoundTypes(dts, byName) {
      AddedDtsFound(start, dts, byName, a, t, d);
    }
  }

  // ---------------------------------------------------------------------------
  // The whole function

  /** `images.keys() and any([len(images[k]) for k in images.keys()])`. */
  predicate HasImages(images: Images) {
    exists i :: 0 <= i < |images| && |images[i].1| > 0
  }

  /** The raster file, added first when some image was given. */
  function Start(a: Args): Added {
    if HasImages(a.images) then Added([FileDef(Raster, RasterJson, None, RasterValue(a.images, a.url))], {Raster}, false)
    else Added([], {}, false)
  }

  /** `custom_layout if custom_layout and len(custom_layout) else DEFAULT_LAYOUTS[layout]`. */
  function ChosenLayout(a: Args, t: Tables): Option<string> {
    if a.customLayout.Some? && a.customLayout.value != "" then Some(a.customLayout.value)
    else if a.layout in t.defaultLayouts then Some(t.defaultLayouts[a.layout])
    else None
  }

  /** The state the layout loop reads: data types with a file, and the scoped coordination types. */
  function ContextOf(added: Added, t: Tables): Layout.LayoutContext {
    Layout.LayoutContext(t.viewer, added.dts, if added.scoped then {EmbeddingType} else {})
  }

  /** What `write_json` builds, or why it stops. */
  function WriteJsonSpec(a: Args, t: Tables): Result<ConfigOut, WriteError> {
    match AddedFiles(Start(a), t.dataTypes, PathsByName(a.filePaths), a, t)
    case Err(e) => Err(e)
    case Ok(added) =>
      if added.files == [] then Err(NoFiles)
      else
        match ChosenLayout(a, t)
        case None => Err(UnknownLayout)
        case Some(layout) =>
          var ctx := ContextOf(added, t);
          Ok(ConfigOut(ConfigName(a), added.files, Layout.RewrittenLayout(ctx, layout),
                       Layout.Views(ctx, Layout.LetterRuns(layout)), OutputPath(a)))
  }

  /** `write_json` up to the layout clean-up. */
  method WriteJson(a: Args, t: Tables) returns (r: Result<ConfigOut, WriteError>)
    requires OptionsWellFormed(a, t)
    ensures r == WriteJsonSpec(a, t)
  {
    var name := if |a.configName| > 0 then a.configName else a.title;
    var byName := PathsByName(a.filePaths);
    var start := Added([], {}, false);
    if HasImages(a.images) {
      var rasterOptions := BuildRasterOptions(a.images, a.url);
      start := Added([FileDef(Raster, RasterJson, None, rasterOptions)], {Raster}, false);
    }
    var added := AddDataFiles(start, byName, a, t);
    if added.Err? {
      return Err(added.error);
    }
    if added.value.files == [] {
      return Err(NoFiles);
    }
    var configLayout: string;
    if a.customLayout.Some? && a.customLayout.value != "" {
      configLayout := a.customLayout.value;
    } else if a.layout in t.defaultLayouts {
      configLayout := t.defaultLayouts[a.layout];
    } else {
      return Err(UnknownLayout);
    }
    var spliced, views := Layout.RewriteLayout(ContextOf(added.value, t), configLayout);
    r := Ok(ConfigOut(name, added.value.files, spliced, views, PathJoin(if a.outdir.Some? then a.outdir.value else "", a.title + "-" + a.dataset + "-" + a.suffix)));
  }

  // ---------------------------------------------------------------------------
  // What `write_json` promises

  /**
   * `write_json` exits for want of files exactly when the loop raised nothing, no image was
   * given and no data type found a candidate file.
   */
  lemma NoFilesIff(a: Args, t: Tables)
    ensures WriteJsonSpec(a, t) == Err(NoFiles) <==>
      && AddedFiles(Start(a), t.dataTypes, PathsByName(a.filePaths), a, t).Ok?
      && !HasImages(a.images)
      && FoundTypes(t.dataTypes, PathsByName(a.filePaths)) == []
  {
    var added := AddedFiles(Start(a), t.dataTypes, PathsByName(a.filePaths), a, t);
    if added.Ok? {
      AddedFilesOrder(Start(a), t.dataTypes, PathsByName(a.filePaths), a, t);
      var files := added.value.files;
      var n := |Start(a).files|;
      assert files == files[..n] + files[n..];
      assert |DataTypesOf(files[n..])| == |files[n..]|;
    }
  }

  /** A written config is named by `config_name` or, failing that, the title, and goes to `title-dataset-suffix`. */
  lemma WrittenNames(a: Args, t: Tables)
    requires WriteJsonSpec(a, t).Ok?
    requires '/' !in FileName(a)
    ensures WriteJsonSpec(a, t).value.name == (if a.configName != "" then a.configName else a.title)
    ensures a.configName != "" || a.title != "" ==> WriteJsonSpec(a, t).value.name != ""
    ensures Basename(WriteJsonSpec(a, t).value.outputPath) == FileName(a)
  {
    WrittenFields(a, t);
    OutputPathShape(a);
  }

  lemma WrittenFields(a: Args, t: Tables)
    requires WriteJsonSpec(a, t).Ok?
    ensures WriteJsonSpec(a, t).value.name == ConfigName(a)
    ensures WriteJsonSpec(a, t).value.outputPath == OutputPath(a)
  {
  }

  /** Files of `DATA_TYPES` carry a URL: what follows the files the loop started with. */
  lemma {:induction false} AddedFilesUrls(start: Added, dts: seq<(string, seq<(string, FileType)>)>,
                                          byName: map<string, string>, a: Args, t: Tables)
    requires AddedFiles(start, dts, byName, a, t).Ok?
    ensures forall i :: |start.files| <= i < |AddedFiles(start, dts, byName, a, t).value.files| ==>
      AddedFiles(start, dts, byName, a, t).value.files[i].url.Some?
  {
    if dts != [] {
      var init := dts[..|dts| - 1];
      var last := dts[|dts| - 1];
      AddedFilesUrls(start, init, byName, a, t);
      AddedFilesOrder(start, init, byName, a, t);
      var acc := AddedFiles(start, init, byName, a, t).value;
      DataTypeStepAdds(acc, last.0, last.1, byName, a, t);
    }
  }

  /**
   * A written config holds the raster file first when an image was given, then one file
   * per found data type in `DATA_TYPES` order, each with a URL (which the raster file lacks).
   */
  lemma WrittenFiles(a: Args, t: Tables)
    requires WriteJsonSpec(a, t).Ok?
    ensures HasImages(a.images) ==> WriteJsonSpec(a, t).value.files[0] == FileDef(Raster, RasterJson, None, RasterValue(a.images, a.url))
    ensures DataTypesOf(WriteJsonSpec(a, t).value.files[|Start(a).files|..]) == FoundTypes(t.dataTypes, PathsByName(a.filePaths))
    ensures forall i :: |Start(a).files| <= i < |WriteJsonSpec(a, t).value.files| ==> WriteJsonSpec(a, t).value.files[i].url.Some?
  {
    var start := Start(a);
    var byName := PathsByName(a.filePaths);
    AddedFilesOrder(start, t.dataTypes, byName, a, t);
    AddedFilesUrls(start, t.dataTypes, byName, a, t);
    var files := AddedFiles(start, t.dataTypes, byName, a, t).value.files;
    assert WriteJsonSpec(a, t).value.files == files;
    if HasImages(a.images) {
      assert files[0] == files[..|start.files|][0];
    }
  }

  /** The loop keeps the data types in step with the files: a data type is present iff a file of it was added. */
  lemma AddedDtsMatchFiles(start: Added, dts: seq<(string, seq<(string, FileType)>)>,
                           byName: map<string, string>, a: Args, t: Tables, d: string)
    requires AddedFiles(start, dts, byName, a, t).Ok?
    requires d in start.dts <==> d in DataTypesOf(start.files)
    ensures d in AddedFiles(start, dts, byName, a, t).value.dts <==> d in DataTypesOf(AddedFiles(start, dts, byName, a, t).value.files)
  {
    var files := AddedFiles(start, dts, byName, a, t).value.files;
    var n := |start.files|;
    AddedFilesKeepStart(start, dts, byName, a, t);
    AddedFilesTypes(start, dts, byName, a, t);
    AddedDtsFound(start, dts, byName, a, t, d);
    assert files == files[..n] + files[n..];
    assert DataTypesOf(files) == DataTypesOf(start.files) + DataTypesOf(files[n..]);
  }

  /**
   * Every view made is for a component of the viewer whose required data types (when it
   * lists any) include one that has a file in the config.
   */
  lemma ViewsHaveData(a: Args, t: Tables, j: nat)
    requires WriteJsonSpec(a, t).Ok? && j < |WriteJsonSpec(a, t).value.views|
    ensures WriteJsonSpec(a, t).value.views[j] in t.viewer.components
    ensures WriteJsonSpec(a, t).value.views[j] in t.viewer.componentDataTypes ==>
      exists d :: d in t.viewer.componentDataTypes[WriteJsonSpec(a, t).value.views[j]]
        && d in DataTypesOf(WriteJsonSpec(a, t).value.files)
  {
    var start := Start(a);
    var byName := PathsByName(a.filePaths);
    var added := AddedFiles(start, t.dataTypes, byName, a, t).value;
    var layout := ChosenLayout(a, t).value;
    var ctx := ContextOf(added, t);
    var v := WriteJsonSpec(a, t).value.views[j];
    assert WriteJsonSpec(a, t).value.views == Layout.Views(ctx, Layout.LetterRuns(layout));
    assert WriteJsonSpec(a, t).value.files == added.files;
    Layout.ViewsGetView(ctx, Layout.LetterRuns(layout), j);
    if v in t.viewer.componentDataTypes {
      var d :| d in t.viewer.componentDataTypes[v] * added.dts;
      if HasImages(a.images) {
        assert DataTypesOf(start.files) == [Raster];
      } else {
        assert DataTypesOf(start.files) == [];
      }
      AddedDtsMatchFiles(start, t.dataTypes, byName, a, t, d);
    }
  }
}
