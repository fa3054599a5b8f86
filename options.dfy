/**
 * `build_options` of bin/build_config.py: turns the per-file-type option dict of a
 * non-image file into the `options` value of a Vitessce file definition.
 *
 * Options come from JSON, so any value may have any shape; every exception the
 * script would raise on a malformed value is an `Err`. Each loop is a method proved
 * against a specification: a predicate saying when the loop runs without raising,
 * and a function giving the value it builds.
 */
module ConfigOptions {
  import opened Wrappers
  import opened Json
  import opened PyStrings
  import opened Paths

  /** The Vitessce file types the script tells apart. */
  datatype FileType =
    | AnnDataCellsZarr
    | AnnDataCellSetsZarr
    | AnnDataExpressionMatrixZarr
    | RasterJson
    | OtherFileType(name: string)

  /** The exception a malformed options value makes Python raise. */
  datatype PyError = TypeError | AttributeError | KeyError

  /** `check_exist`, with the `os.path.exists` it consults. */
  datatype ExistCheck = ExistCheck(enabled: bool, pathExists: string -> bool)

  /** Whether the file `rel` under `filePath` is used: always when unchecked, else when it exists. */
  predicate Keep(ec: ExistCheck, filePath: string, rel: string) {
    !ec.enabled || ec.pathExists(PathJoin(filePath, rel))
  }

  predicate AllStrings(d: Dict) {
    forall i :: 0 <= i < |d| ==> d[i].1.Str?
  }

  /** No entry under `key` holds a dict. */
  predicate NoDictAt(d: Dict, key: string) {
    forall i :: 0 <= i < |d| && d[i].0 == key ==> !d[i].1.Object?
  }

  /** No entry under `key` holds a list. */
  predicate NoListAt(d: Dict, key: string) {
    forall i :: 0 <= i < |d| && d[i].0 == key ==> !d[i].1.List?
  }

  lemma NoDictGet(d: Dict, key: string)
    requires NoDictAt(d, key)
    ensures Get(d, key).None? || !Get(d, key).value.Object?
  {
    if Get(d, key).Some? {
      GetIn(d, key);
      var i :| 0 <= i < |d| && d[i] == (key, Get(d, key).value);
    }
  }

  lemma NoListGet(d: Dict, key: string)
    requires NoListAt(d, key)
    ensures Get(d, key).None? || !Get(d, key).value.List?
  {
    if Get(d, key).Some? {
      GetIn(d, key);
      var i :| 0 <= i < |d| && d[i] == (key, Get(d, key).value);
    }
  }

  lemma {:induction false} GetAppendRight(a: Dict, k: string, v: Json)
    requires k !in Keys(a)
    ensures Get(a + [(k, v)], k) == Some(v)
    ensures Put(a + [(k, v)], k, v) == a + [(k, v)]
  {
    if a != [] {
      assert Keys(a) == [a[0].0] + Keys(a[1..]);
      GetAppendRight(a[1..], k, v);
      assert (a + [(k, v)])[1..] == a[1..] + [(k, v)];
    }
  }

  /** Re-assigning the last key of a dict replaces its value in place. */
  lemma {:induction false} PutLast(a: Dict, k: string, v: Json, w: Json)
    requires k !in Keys(a)
    ensures Put(a + [(k, v)], k, w) == a + [(k, w)]
  {
    if a != [] {
      assert Keys(a) == [a[0].0] + Keys(a[1..]);
      calc {
        Put(a + [(k, v)], k, w);
        { assert (a + [(k, v)])[0] == a[0] && (a + [(k, v)])[1..] == a[1..] + [(k, v)]; }
        [a[0]] + Put(a[1..] + [(k, v)], k, w);
        { PutLast(a[1..], k, v, w); }
        [a[0]] + (a[1..] + [(k, w)]);
        { assert [a[0]] + a[1..] == a; }
        a + [(k, w)];
      }
    }
  }

  // ---------------------------------------------------------------------------
  // Looking into the options dict

  /** `d[key]` when it is a dict, else no entries. */
  function FieldsAt(d: Dict, key: string): Dict {
    var g := Get(d, key);
    if g.Some? && g.value.Object? then g.value.fields else []
  }

  /** The items `for x in d[key]` visits, or none. */
  function ItemsAt(d: Dict, key: string): seq<Json> {
    var g := Get(d, key);
    if g.Some? then Iter(g.value).GetOr([]) else []
  }

  predicate DictOrAbsent(d: Dict, key: string) {
    Get(d, key).None? || Get(d, key).value.Object?
  }

  predicate IterableOrAbsent(d: Dict, key: string) {
    Get(d, key).None? || Iter(Get(d, key).value).Some?
  }

  lemma WellFormedChild(fo: Dict, key: string)
    requires WellFormed(Object(fo)) && Get(fo, key).Some?
    ensures WellFormed(Get(fo, key).value)
  {
    GetIn(fo, key);
    var i :| 0 <= i < |fo| && fo[i] == (key, Get(fo, key).value);
  }

  // ---------------------------------------------------------------------------
  // Cells file: `spatial`

  /** The `spatial` entries that survive the existence check, in input order. */
  function KeptSpatial(ec: ExistCheck, filePath: string, sp: Dict): (r: Dict)
    ensures AllStrings(r)
  {
    if sp == [] then []
    else
      var last := sp[|sp| - 1];
      KeptSpatial(ec, filePath, sp[..|sp| - 1])
        + (if last.1.Str? && Keep(ec, filePath, last.1.s) then [last] else [])
  }

  /** An entry is in the result exactly when it is a string entry whose file is kept. */
  lemma {:induction false} KeptSpatialMembers(ec: ExistCheck, filePath: string, sp: Dict, e: (string, Json))
    ensures e in KeptSpatial(ec, filePath, sp) <==> e in sp && e.1.Str? && Keep(ec, filePath, e.1.s)
  {
    if sp != [] {
      var init := sp[..|sp| - 1];
      KeptSpatialMembers(ec, filePath, init, e);
      assert sp == init + [sp[|sp| - 1]];
    }
  }

  /** Without the existence check every `spatial` entry is copied, in order. */
  lemma {:induction false} KeptSpatialUnchecked(ec: ExistCheck, filePath: string, sp: Dict)
    requires !ec.enabled && AllStrings(sp)
    ensures KeptSpatial(ec, filePath, sp) == sp
  {
    if sp != [] {
      var init := sp[..|sp| - 1];
      KeptSpatialUnchecked(ec, filePath, init);
      assert sp == init + [sp[|sp| - 1]];
    }
  }

  /**
   * In a dict with unique keys, assigning the next kept entry is appending it: the key
   * cannot already be among the kept ones.
   */
  lemma KeptSpatialStep(ec: ExistCheck, filePath: string, sp: Dict, i: nat)
    requires UniqueKeys(sp) && i < |sp| && sp[i].1.Str?
    ensures KeptSpatial(ec, filePath, sp[..i + 1])
      == if Keep(ec, filePath, sp[i].1.s) then Put(KeptSpatial(ec, filePath, sp[..i]), sp[i].0, sp[i].1)
         else KeptSpatial(ec, filePath, sp[..i])
  {
    var prev := KeptSpatial(ec, filePath, sp[..i]);
    assert sp[..i + 1][..i] == sp[..i];
    if Keep(ec, filePath, sp[i].1.s) {
      KeysAt(prev);
      forall j | 0 <= j < |prev| ensures prev[j].0 != sp[i].0 {
        KeptSpatialMembers(ec, filePath, sp[..i], prev[j]);
        var t :| 0 <= t < i && sp[t] == prev[j];
      }
      PutNewKey(prev, sp[i].0, sp[i].1);
    }
  }

  function SpatialPart(ec: ExistCheck, filePath: string, fo: Dict): Dict {
    KeptSpatial(ec, filePath, FieldsAt(fo, "spatial"))
  }

  /** The `spatial` block runs without raising: a dict of strings, or absent. */
  predicate SpatialOk(fo: Dict) {
    DictOrAbsent(fo, "spatial") && AllStrings(FieldsAt(fo, "spatial"))
  }

  /** The `spatial` block: `options[k] = v` for each kept entry. */
  method CopySpatial(ec: ExistCheck, filePath: string, fo: Dict) returns (r: Result<Dict, PyError>)
    requires WellFormed(Object(fo))
    ensures r.Ok? <==> SpatialOk(fo)
    ensures r.Ok? ==> r.value == SpatialPart(ec, filePath, fo)
  {
    var options: Dict := [];
    var spatial := Get(fo, "spatial");
    if spatial.None? {
      return Ok(options);
    }
    if !spatial.value.Object? {
      // `.items()` on a value that is not a dict
      return Err(AttributeError);
    }
    WellFormedChild(fo, "spatial");
    var sp := spatial.value.fields;
    assert sp == FieldsAt(fo, "spatial");
    var i := 0;
    while i < |sp|
      invariant 0 <= i <= |sp|
      invariant forall j :: 0 <= j < i ==> sp[j].1.Str?
      invariant options == KeptSpatial(ec, filePath, sp[..i])
    {
      var copied := CopySpatialEntry(ec, filePath, options, sp[i].0, sp[i].1);
      if copied.Err? {
        assert !AllStrings(sp) by { assert !sp[i].1.Str?; }
        return copied;
      }
      KeptSpatialStep(ec, filePath, sp, i);
      options := copied.value;
      i := i + 1;
    }
    assert sp[..i] == sp;
    return Ok(options);
  }

  /** One pass of the `spatial` loop: `options[k] = v` when the file `v` is kept. */
  method CopySpatialEntry(ec: ExistCheck, filePath: string, options: Dict, k: string, v: Json)
    returns (r: Result<Dict, PyError>)
    ensures r.Err? <==> !v.Str?
    ensures r.Ok? ==> r.value == if Keep(ec, filePath, v.s) then Put(options, k, v) else options
  {
    if !v.Str? {
      // os.path.join(file_path, v) raises on a non-string
      return Err(TypeError);
    }
    var valuesPath := PathJoin(filePath, v.s);
    if ec.enabled && !ec.pathExists(valuesPath) {
      return Ok(options);
    }
    return Ok(Put(options, k, v));
  }

  // ---------------------------------------------------------------------------
  // Cells file: `mappings`

  /** `k.split("/")[-1].upper()`: the name a mapping is stored under. */
  function MappingKey(k: string): string {
    Upper(LastSegment(k, '/'))
  }

  /** `v if v is not None and v != "null" else [0, 1]`. */
  function Dims(v: Json): (r: Json)
    ensures r != Null && r != Str("null")
    ensures v != Null && v != Str("null") ==> r == v
    ensures v == Null || v == Str("null") ==> r == List([Int(0), Int(1)])
  {
    if v != Null && v != Str("null") then v else List([Int(0), Int(1)])
  }

  /** The mapping record `{"key": k, "dims": ...}`. */
  function MappingOf(k: string, v: Json): Json {
    Object([("key", Str(k)), ("dims", Dims(v))])
  }

  /** The `mappings` dict after the loop: each kept entry assigned in turn, later ones overwriting. */
  function MappingsFrom(ec: ExistCheck, filePath: string, mp: Dict): Dict {
    if mp == [] then []
    else
      var acc := MappingsFrom(ec, filePath, mp[..|mp| - 1]);
      var (k, v) := mp[|mp| - 1];
      if Keep(ec, filePath, k) then Put(acc, MappingKey(k), MappingOf(k, v)) else acc
  }

  /**
   * Every stored mapping comes from a kept entry: it sits under that entry's upper-cased
   * last path segment, its "key" is the entry's full key and its "dims" the entry's value
   * or `[0, 1]`.
   */
  lemma {:induction false} MappingsSound(ec: ExistCheck, filePath: string, mp: Dict, mk: string)
    requires mk in Keys(MappingsFrom(ec, filePath, mp))
    ensures exists i :: (0 <= i < |mp| && Keep(ec, filePath, mp[i].0) && mk == MappingKey(mp[i].0)
      && Get(MappingsFrom(ec, filePath, mp), mk) == Some(MappingOf(mp[i].0, mp[i].1)))
  {
    var init := mp[..|mp| - 1];
    var (k, v) := mp[|mp| - 1];
    if Keep(ec, filePath, k) && mk == MappingKey(k) {
      assert Keep(ec, filePath, mp[|mp| - 1].0);
    } else {
      MappingsSound(ec, filePath, init, mk);
      var i :| 0 <= i < |init| && Keep(ec, filePath, init[i].0) && mk == MappingKey(init[i].0)
        && Get(MappingsFrom(ec, filePath, init), mk) == Some(MappingOf(init[i].0, init[i].1));
      assert mp[i] == init[i];
    }
  }

  /**
   * Every kept entry whose name no later kept entry shares is stored under that name,
   * with its own key and dims (a later entry with the same name overwrites it).
   */
  lemma {:induction false} MappingsLastWins(ec: ExistCheck, filePath: string, mp: Dict, i: nat)
    requires i < |mp| && Keep(ec, filePath, mp[i].0)
    requires forall j :: i < j < |mp| && Keep(ec, filePath, mp[j].0) ==> MappingKey(mp[j].0) != MappingKey(mp[i].0)
    ensures Get(MappingsFrom(ec, filePath, mp), MappingKey(mp[i].0)) == Some(MappingOf(mp[i].0, mp[i].1))
  {
    var init := mp[..|mp| - 1];
    if i < |mp| - 1 {
      assert init[i] == mp[i];
      MappingsLastWins(ec, filePath, init, i);
    }
  }

  /** Every kept entry gives the mappings dict a key, so one kept entry is enough for it to be non-empty. */
  lemma {:induction false} MappingsComplete(ec: ExistCheck, filePath: string, mp: Dict, i: nat)
    requires i < |mp| && Keep(ec, filePath, mp[i].0)
    ensures MappingKey(mp[i].0) in Keys(MappingsFrom(ec, filePath, mp))
  {
    var init := mp[..|mp| - 1];
    if i < |mp| - 1 {
      assert init[i] == mp[i];
      MappingsComplete(ec, filePath, init, i);
    }
  }

  function MappingsPart(ec: ExistCheck, filePath: string, fo: Dict): Dict {
    MappingsFrom(ec, filePath, FieldsAt(fo, "mappings"))
  }

  /** The `mappings` block runs without raising on top of the entries `s`. */
  predicate MappingsOk(ec: ExistCheck, filePath: string, fo: Dict, s: Dict) {
    DictOrAbsent(fo, "mappings") && (MappingsPart(ec, filePath, fo) == [] || "mappings" !in Keys(s))
  }

  function WithMappings(s: Dict, m: Dict): Dict {
    s + (if m == [] then [] else [("mappings", Object(m))])
  }

  /** The dict `d.setdefault(key, {})` returns, or `None` when the key holds something else. */
  function DictAt(d: Dict, key: string): Option<Dict> {
    var g := Get(d, key);
    if g.None? then Some([]) else if g.value.Object? then Some(g.value.fields) else None
  }

  /**
   * `d.setdefault(key, {})[k] = v`: the dict under `key` (a new empty one when the key is
   * missing) gets `k` set to `v`; item assignment on anything but a dict raises.
   */
  function SetdefaultAssign(d: Dict, key: string, k: string, v: Json): (r: Result<Dict, PyError>)
    ensures r.Err? <==> DictAt(d, key).None?
    ensures r.Ok? ==> Get(r.value, key) == Some(Object(Put(DictAt(d, key).value, k, v)))
    ensures r.Ok? ==> forall k' :: k' != key ==> Get(r.value, k') == Get(d, k')
  {
    match DictAt(d, key)
    case None => Err(TypeError)
    case Some(m) => Ok(Put(d, key, Object(Put(m, k, v))))
  }

  /**
   * Storing a mapping in options that hold the mappings `m` gives the options for
   * `m` with that mapping set; it raises only when `m` is empty and a `spatial` entry
   * already took the key.
   */
  lemma AssignMappingStep(s: Dict, m: Dict, mKey: string, mapping: Json)
    requires NoDictAt(s, "mappings")
    requires m != [] ==> "mappings" !in Keys(s)
    ensures SetdefaultAssign(WithMappings(s, m), "mappings", mKey, mapping)
      == if m == [] && "mappings" in Keys(s) then Err(TypeError)
         else Ok(WithMappings(s, Put(m, mKey, mapping)))
  {
    var m' := Put(m, mKey, mapping);
    assert Keys(m') != [];
    if m == [] {
      assert WithMappings(s, m) == s;
      NoDictGet(s, "mappings");
      if "mappings" !in Keys(s) {
        PutNewKey(s, "mappings", Object(m'));
      }
    } else {
      GetAppendRight(s, "mappings", Object(m));
      PutLast(s, "mappings", Object(m), Object(m'));
    }
  }

  /**
   * One pass of the `mappings` loop on options holding the mappings `m`: a kept entry is
   * stored under its upper-cased last path segment, a missing one is skipped.
   */
  method AddMapping(ec: ExistCheck, filePath: string, s: Dict, ghost m: Dict, options: Dict, k: string, v: Json)
    returns (r: Result<Dict, PyError>)
    requires NoDictAt(s, "mappings")
    requires m != [] ==> "mappings" !in Keys(s)
    requires options == WithMappings(s, m)
    ensures r.Err? <==> Keep(ec, filePath, k) && m == [] && "mappings" in Keys(s)
    ensures r.Ok? ==>
      r.value == WithMappings(s, if Keep(ec, filePath, k) then Put(m, MappingKey(k), MappingOf(k, v)) else m)
  {
    var kName := LastSegment(k, '/');
    var valuesPath := PathJoin(filePath, k);
    if ec.enabled && !ec.pathExists(valuesPath) {
      return Ok(options);
    }
    var mKey := Upper(kName);
    // `{"key": k}` with `dims` set to `v`, or `[0, 1]` for a missing one
    var mapping := MappingOf(k, v);
    AssignMappingStep(s, m, mKey, mapping);
    r := SetdefaultAssign(options, "mappings", mKey, mapping);
  }

  /** One more entry assigns its mapping when it is kept. */
  lemma MappingsFromStep(ec: ExistCheck, filePath: string, mp: Dict, i: nat)
    requires i < |mp|
    ensures MappingsFrom(ec, filePath, mp[..i + 1]) ==
      if Keep(ec, filePath, mp[i].0) then Put(MappingsFrom(ec, filePath, mp[..i]), MappingKey(mp[i].0), MappingOf(mp[i].0, mp[i].1))
      else MappingsFrom(ec, filePath, mp[..i])
  {
    assert mp[..i + 1][..i] == mp[..i];
  }

  /** The `mappings` block: `options.setdefault("mappings", {})[m_key] = mapping` for each kept entry. */
  method AddMappings(ec: ExistCheck, filePath: string, fo: Dict, s: Dict) returns (r: Result<Dict, PyError>)
    requires NoDictAt(s, "mappings")
    ensures r.Ok? <==> MappingsOk(ec, filePath, fo, s)
    ensures r.Ok? ==> r.value == WithMappings(s, MappingsPart(ec, filePath, fo))
  {
    var options := s;
    var mappings := Get(fo, "mappings");
    if mappings.None? {
      return Ok(options);
    }
    if !mappings.value.Object? {
      // `.items()` on a value that is not a dict
      return Err(AttributeError);
    }
    var mp := mappings.value.fields;
    assert mp == FieldsAt(fo, "mappings");
    var i := 0;
    while i < |mp|
      invariant 0 <= i <= |mp|
      invariant MappingsFrom(ec, filePath, mp[..i]) != [] ==> "mappings" !in Keys(s)
      invariant options == WithMappings(s, MappingsFrom(ec, filePath, mp[..i]))
    {
      MappingsFromStep(ec, filePath, mp, i);
      var added := AddMapping(ec, filePath, s, MappingsFrom(ec, filePath, mp[..i]), options, mp[i].0, mp[i].1);
      if added.Err? {
        // item assignment on the string a `spatial` entry left under "mappings"
        MappingsComplete(ec, filePath, mp, i);
        return added;
      }
      options := added.value;
      i := i + 1;
    }
    assert mp[..i] == mp;
    return Ok(options);
  }

  // ---------------------------------------------------------------------------
  // Cells file: `factors`

  /** The factors that survive the existence check, in input order. */
  function KeptFactors(ec: ExistCheck, filePath: string, xs: seq<Json>): (r: seq<Json>)
  {
    if xs == [] then []
    else
      var last := xs[|xs| - 1];
      KeptFactors(ec, filePath, xs[..|xs| - 1])
        + (if last.Str? && Keep(ec, filePath, last.s) then [last] else [])
  }

  /** A factor is kept exactly when it is an input string whose file passes the check. */
  lemma {:induction false} KeptFactorsMembers(ec: ExistCheck, filePath: string, xs: seq<Json>, x: Json)
    ensures x in KeptFactors(ec, filePath, xs) <==> x in xs && x.Str? && Keep(ec, filePath, x.s)
  {
    if xs != [] {
      var init := xs[..|xs| - 1];
      KeptFactorsMembers(ec, filePath, init, x);
      assert xs == init + [xs[|xs| - 1]];
    }
  }

  /** Without the existence check every factor is kept, in input order. */
  lemma {:induction false} KeptFactorsUnchecked(ec: ExistCheck, filePath: string, xs: seq<Json>)
    requires !ec.enabled && forall i :: 0 <= i < |xs| ==> xs[i].Str?
    ensures KeptFactors(ec, filePath, xs) == xs
  {
    if xs != [] {
      var init := xs[..|xs| - 1];
      KeptFactorsUnchecked(ec, filePath, init);
      assert xs == init + [xs[|xs| - 1]];
    }
  }

  /** Once a factor is kept, the final list of kept factors is non-empty. */
  lemma {:induction false} KeptFactorsGrow(ec: ExistCheck, filePath: string, xs: seq<Json>, i: nat)
    requires i < |xs| && xs[i].Str? && Keep(ec, filePath, xs[i].s)
    ensures KeptFactors(ec, filePath, xs) != []
  {
    var init := xs[..|xs| - 1];
    if i < |xs| - 1 {
      assert init[i] == xs[i];
      KeptFactorsGrow(ec, filePath, init, i);
    }
  }

  function FactorsPart(ec: ExistCheck, filePath: string, fo: Dict): seq<Json> {
    KeptFactors(ec, filePath, ItemsAt(fo, "factors"))
  }

  /** The factors `xs` are appended on top of the entries `s` without raising. */
  predicate FactorItemsOk(ec: ExistCheck, filePath: string, xs: seq<Json>, s: Dict) {
    && (forall i :: 0 <= i < |xs| ==> xs[i].Str?)
    && (KeptFactors(ec, filePath, xs) == [] || "factors" !in Keys(s))
  }

  /** The `factors` block runs without raising on top of the entries `s`. */
  predicate FactorsOk(ec: ExistCheck, filePath: string, fo: Dict, s: Dict) {
    IterableOrAbsent(fo, "factors") && FactorItemsOk(ec, filePath, ItemsAt(fo, "factors"), s)
  }

  function WithFactors(s: Dict, f: seq<Json>): Dict {
    s + (if f == [] then [] else [("factors", List(f))])
  }

  /** The list `d.setdefault(key, [])` returns, or `None` when the key holds something else. */
  function ListAt(d: Dict, key: string): Option<seq<Json>> {
    var g := Get(d, key);
    if g.None? then Some([]) else if g.value.List? then Some(g.value.items) else None
  }

  /**
   * `d.setdefault(key, []).append(x)`: the list under `key` (a new empty one when the key is
   * missing) gains `x` at its end; `.append` on anything but a list raises.
   */
  function SetdefaultAppend(d: Dict, key: string, x: Json): (r: Result<Dict, PyError>)
    ensures r.Err? <==> ListAt(d, key).None?
    ensures r.Ok? ==> Get(r.value, key) == Some(List(ListAt(d, key).value + [x]))
    ensures r.Ok? ==> forall k :: k != key ==> Get(r.value, k) == Get(d, k)
  {
    match ListAt(d, key)
    case None => Err(AttributeError)
    case Some(items) => Ok(Put(d, key, List(items + [x])))
  }

  /**
   * Appending a kept factor to options that hold the kept factors `f` gives the options for
   * `f + [x]`; it raises only when `f` is empty and a `spatial` entry already took the key.
   */
  lemma AppendFactorStep(s: Dict, f: seq<Json>, x: Json)
    requires NoListAt(s, "factors")
    requires f != [] ==> "factors" !in Keys(s)
    ensures SetdefaultAppend(WithFactors(s, f), "factors", x)
      == if f == [] && "factors" in Keys(s) then Err(AttributeError) else Ok(WithFactors(s, f + [x]))
  {
    if f == [] {
      assert WithFactors(s, f) == s;
      assert f + [x] == [x];
      NoListGet(s, "factors");
      if "factors" !in Keys(s) {
        PutNewKey(s, "factors", List([x]));
      }
    } else {
      GetAppendRight(s, "factors", List(f));
      PutLast(s, "factors", List(f), List(f + [x]));
    }
  }

  /**
   * One pass of the `factors` loop on options holding the kept factors `f`: a non-string
   * factor raises, a kept one is appended, a missing one is skipped.
   */
  method AppendFactor(ec: ExistCheck, filePath: string, s: Dict, ghost f: seq<Json>, options: Dict, factor: Json)
    returns (r: Result<Dict, PyError>)
    requires NoListAt(s, "factors")
    requires f != [] ==> "factors" !in Keys(s)
    requires options == WithFactors(s, f)
    ensures r.Err? <==> !factor.Str? || (Keep(ec, filePath, factor.s) && f == [] && "factors" in Keys(s))
    ensures r.Ok? ==> r.value == WithFactors(s, f + (if Keep(ec, filePath, factor.s) then [factor] else []))
  {
    if !factor.Str? {
      // os.path.join(file_path, factor) raises on a non-string
      return Err(TypeError);
    }
    var valuesPath := PathJoin(filePath, factor.s);
    if ec.enabled && !ec.pathExists(valuesPath) {
      assert f + [] == f;
      return Ok(options);
    }
    AppendFactorStep(s, f, factor);
    r := SetdefaultAppend(options, "factors", factor);
  }

  /** The loop over the factors `xs`, appending the kept ones to `s`. */
  method AppendFactors(ec: ExistCheck, filePath: string, xs: seq<Json>, s: Dict) returns (r: Result<Dict, PyError>)
    requires NoListAt(s, "factors")
    ensures r.Ok? <==> FactorItemsOk(ec, filePath, xs, s)
    ensures r.Ok? ==> r.value == WithFactors(s, KeptFactors(ec, filePath, xs))
  {
    var options := s;
    var i := 0;
    while i < |xs|
      invariant 0 <= i <= |xs|
      invariant forall j :: 0 <= j < i ==> xs[j].Str?
      invariant KeptFactors(ec, filePath, xs[..i]) != [] ==> "factors" !in Keys(s)
      invariant options == WithFactors(s, KeptFactors(ec, filePath, xs[..i]))
    {
      assert xs[..i + 1][..i] == xs[..i];
      var appended := AppendFactor(ec, filePath, s, KeptFactors(ec, filePath, xs[..i]), options, xs[i]);
      if appended.Err? {
        if xs[i].Str? {
          // a `spatial` entry named "factors" holds a string
          KeptFactorsGrow(ec, filePath, xs, i);
        }
        return appended;
      }
      options := appended.value;
      i := i + 1;
    }
    assert xs[..i] == xs;
    return Ok(options);
  }

  /** The `factors` block: `options.setdefault("factors", []).append(factor)` for each kept factor. */
  method AddFactors(ec: ExistCheck, filePath: string, fo: Dict, s: Dict) returns (r: Result<Dict, PyError>)
    requires NoListAt(s, "factors")
    ensures r.Ok? <==> FactorsOk(ec, filePath, fo, s)
    ensures r.Ok? ==> r.value == WithFactors(s, FactorsPart(ec, filePath, fo))
  {
    var factors := Get(fo, "factors");
    if factors.None? {
      assert WithFactors(s, []) == s;
      return Ok(s);
    }
    var items := Iter(factors.value);
    if items.None? {
      // iterating a number, a boolean or None
      return Err(TypeError);
    }
    r := AppendFactors(ec, filePath, items.value, s);
  }

  // ---------------------------------------------------------------------------
  // Cells file: the three blocks together

  /** The cells options are built without raising. */
  predicate CellsOk(ec: ExistCheck, filePath: string, fo: Dict) {
    && SpatialOk(fo)
    && MappingsOk(ec, filePath, fo, SpatialPart(ec, filePath, fo))
    && FactorsOk(ec, filePath, fo, SpatialPart(ec, filePath, fo))
  }

  /** The cells options: the kept spatial entries, then `mappings` and `factors` when non-empty. */
  function CellsValue(ec: ExistCheck, filePath: string, fo: Dict): Json {
    Object(WithFactors(WithMappings(SpatialPart(ec, filePath, fo), MappingsPart(ec, filePath, fo)),
      FactorsPart(ec, filePath, fo)))
  }

  lemma AllStringsNoDictOrList(s: Dict, key: string)
    requires AllStrings(s)
    ensures NoDictAt(s, key) && NoListAt(s, key)
  {
  }

  /** Adding `mappings` changes neither the strings under other keys nor whether "factors" is a key. */
  lemma WithMappingsKeys(s: Dict, m: Dict)
    requires AllStrings(s)
    ensures NoListAt(WithMappings(s, m), "factors")
    ensures "factors" in Keys(WithMappings(s, m)) <==> "factors" in Keys(s)
  {
    var extra: Dict := if m == [] then [] else [("mappings", Object(m))];
    KeysAppend(s, extra);
    assert Keys(extra) == (if m == [] then [] else ["mappings"]);
  }

  /** Branch `ANNDATA_CELLS_ZARR` of `build_options`. */
  method CellsOptions(ec: ExistCheck, filePath: string, fo: Dict) returns (r: Result<Json, PyError>)
    requires WellFormed(Object(fo))
    ensures r.Ok? <==> CellsOk(ec, filePath, fo)
    ensures r.Ok? ==> r.value == CellsValue(ec, filePath, fo)
  {
    var spatial := CopySpatial(ec, filePath, fo);
    if spatial.Err? {
      return Err(spatial.error);
    }
    var s := spatial.value;
    AllStringsNoDictOrList(s, "mappings");
    var mapped := AddMappings(ec, filePath, fo, s);
    if mapped.Err? {
      return Err(mapped.error);
    }
    WithMappingsKeys(s, MappingsPart(ec, filePath, fo));
    var factored := AddFactors(ec, filePath, fo, mapped.value);
    if factored.Err? {
      return Err(factored.error);
    }
    return Ok(Object(factored.value));
  }

  /** A kept `spatial` entry appears in the cells options with its value unchanged. */
  lemma SpatialEntryCopied(ec: ExistCheck, filePath: string, fo: Dict, k: string, v: string)
    requires WellFormed(Object(fo)) && CellsOk(ec, filePath, fo)
    requires (k, Str(v)) in FieldsAt(fo, "spatial") && Keep(ec, filePath, v)
    ensures Get(CellsValue(ec, filePath, fo).fields, k) == Some(Str(v))
  {
    var sp := FieldsAt(fo, "spatial");
    WellFormedChild(fo, "spatial");
    var s := SpatialPart(ec, filePath, fo);
    KeptSpatialMembers(ec, filePath, sp, (k, Str(v)));
    var i :| 0 <= i < |s| && s[i] == (k, Str(v));
    assert UniqueKeys(s) by {
      forall a, b | 0 <= a < b < |s| ensures s[a].0 != s[b].0 {
        KeptSpatialOrder(ec, filePath, sp, a, b);
      }
    }
    GetUnique(s, i);
    KeysAt(s);
    var m := MappingsPart(ec, filePath, fo);
    var f := FactorsPart(ec, filePath, fo);
    var extra: Dict := if m == [] then [] else [("mappings", Object(m))];
    GetAppendLeft(s, extra, k);
    KeysAppend(s, extra);
    GetAppendLeft(s + extra, if f == [] then [] else [("factors", List(f))], k);
  }

  /** Kept entries keep their relative order, so distinct input keys stay distinct. */
  lemma {:induction false} KeptSpatialOrder(ec: ExistCheck, filePath: string, sp: Dict, a: nat, b: nat)
    requires UniqueKeys(sp)
    requires a < b < |KeptSpatial(ec, filePath, sp)|
    ensures KeptSpatial(ec, filePath, sp)[a].0 != KeptSpatial(ec, filePath, sp)[b].0
  {
    var init := sp[..|sp| - 1];
    var r := KeptSpatial(ec, filePath, sp);
    var ri := KeptSpatial(ec, filePath, init);
    if b < |ri| {
      KeptSpatialOrder(ec, filePath, init, a, b);
    } else {
      assert r[b] == sp[|sp| - 1];
      assert r[a] == ri[a];
      KeptSpatialMembers(ec, filePath, init, ri[a]);
      var j :| 0 <= j < |init| && init[j] == ri[a];
      assert sp[j] == init[j];
    }
  }

  /**
   * The cells options get a `factors` key from the loop exactly when some factor was kept,
   * holding the kept factors in input order (a `spatial` entry named "factors" is the only
   * other way the key can appear).
   */
  lemma FactorsKeyIffKept(ec: ExistCheck, filePath: string, fo: Dict)
    requires CellsOk(ec, filePath, fo)
    ensures "factors" in Keys(CellsValue(ec, filePath, fo).fields)
      <==> FactorsPart(ec, filePath, fo) != [] || "factors" in Keys(SpatialPart(ec, filePath, fo))
    ensures FactorsPart(ec, filePath, fo) != [] ==>
      Get(CellsValue(ec, filePath, fo).fields, "factors") == Some(List(FactorsPart(ec, filePath, fo)))
  {
    var s := SpatialPart(ec, filePath, fo);
    var sm := WithMappings(s, MappingsPart(ec, filePath, fo));
    var f := FactorsPart(ec, filePath, fo);
    var extra: Dict := if f == [] then [] else [("factors", List(f))];
    WithMappingsKeys(s, MappingsPart(ec, filePath, fo));
    KeysAppend(sm, extra);
    assert Keys(extra) == (if f == [] then [] else ["factors"]);
    if f != [] {
      GetAppendRight(sm, "factors", List(f));
    }
  }

  // ---------------------------------------------------------------------------
  // Cell-sets file

  /** A bare set name `s` stands for `{"name": s}`. */
  function SetRecord(cs: Json): Dict {
    if cs.Object? then cs.fields else [("name", cs)]
  }

  /** The record has a string name (otherwise `KeyError` or `AttributeError` on `.split`). */
  predicate HasName(cs: Json) {
    Get(SetRecord(cs), "name").Some? && Get(SetRecord(cs), "name").value.Str?
  }

  function SetName(cs: Json): string
    requires HasName(cs)
  {
    Get(SetRecord(cs), "name").value.s
  }

  predicate HasScore(cs: Json) {
    "score" in Keys(SetRecord(cs))
  }

  /** One cell set is processed without raising. */
  predicate SetEntryOk(ec: ExistCheck, filePath: string, cs: Json) {
    && HasName(cs)
    && (ec.enabled && ec.pathExists(PathJoin(filePath, SetName(cs))) && HasScore(cs)
        ==> Get(SetRecord(cs), "score").value.Str?)
  }

  /** The cell set survives the existence check of its name and, if any, its score. */
  predicate SetKept(ec: ExistCheck, filePath: string, cs: Json)
    requires SetEntryOk(ec, filePath, cs)
  {
    !ec.enabled
    || (ec.pathExists(PathJoin(filePath, SetName(cs)))
        && (!HasScore(cs) || ec.pathExists(PathJoin(filePath, Get(SetRecord(cs), "score").value.s))))
  }

  /** The group name: capitalised `_`-words of the name's last `/`-segment, marked when scored. */
  function GroupName(name: string, scored: bool): string {
    CamelJoin(LastSegment(name, '/')) + (if scored then " with Scores" else "")
  }

  /** The options record of one cell set. */
  function SetOptions(cs: Json): Json
    requires HasName(cs)
  {
    var rec := SetRecord(cs);
    Object([("groupName", Str(GroupName(SetName(cs), HasScore(cs)))), ("setName", Get(rec, "name").value)]
      + (if HasScore(cs) then [("scoreName", Get(rec, "score").value)] else []))
  }

  /**
   * The group name is the set name's last path segment with underscores dropped and only
   * letter case changed, followed by " with Scores" exactly for a scored set.
   */
  lemma GroupNameShape(name: string, scored: bool)
    ensures var g := CamelJoin(LastSegment(name, '/'));
      && GroupName(name, scored) == g + (if scored then " with Scores" else "")
      && '_' !in g && '/' !in g
      && Lower(g) == Lower(Without(LastSegment(name, '/'), '_'))
  {
    var last := LastSegment(name, '/');
    LastSegmentIsMaximalSuffix(name, '/');
    CamelJoinDropsUnderscores(last);
    CamelJoinKeepsOtherChars(last, '/');
  }

  /** Capitalising and joining introduces no character other than letters of the input. */
  lemma CamelJoinKeepsOtherChars(s: string, c: char)
    requires c !in s && !IsAsciiLetter(c) && c != '_'
    ensures c !in CamelJoin(s)
  {
    var parts := Split(s, '_');
    JoinSplit(s, '_');
    PiecesOfJoinLack(parts, c);
    CapitalizedLack(parts, c);
  }

  lemma {:induction false} PiecesOfJoinLack(parts: seq<string>, c: char)
    requires c !in Join(parts, '_') && c != '_'
    ensures forall i :: 0 <= i < |parts| ==> c !in parts[i]
  {
    if |parts| > 1 {
      assert Join(parts, '_') == parts[0] + ['_'] + Join(parts[1..], '_');
      PiecesOfJoinLack(parts[1..], c);
      assert forall i :: 1 <= i < |parts| ==> parts[i] == parts[1..][i - 1];
    }
  }

  lemma {:induction false} CapitalizedLack(parts: seq<string>, c: char)
    requires !IsAsciiLetter(c)
    requires forall i :: 0 <= i < |parts| ==> c !in parts[i]
    ensures c !in Concat(CapitalizeAll(parts))
  {
    if parts != [] {
      CapitalizedLack(parts[1..], c);
      var w := parts[0];
      assert forall k :: 0 <= k < |w| ==> w[k] != c;
      assert CapitalizeAll(parts) == [Capitalize(w)] + CapitalizeAll(parts[1..]);
      assert forall k :: 0 <= k < |Capitalize(w)| ==> Capitalize(w)[k] != c;
    }
  }

  /** The cell sets that survive, turned into records, in input order. */
  function SetEntries(ec: ExistCheck, filePath: string, xs: seq<Json>): seq<Json> {
    if xs == [] then []
    else
      var last := xs[|xs| - 1];
      SetEntries(ec, filePath, xs[..|xs| - 1])
        + (if SetEntryOk(ec, filePath, last) && SetKept(ec, filePath, last) then [SetOptions(last)] else [])
  }

  /** Without the existence check there is one record per cell set. */
  lemma SetEntriesUnchecked(ec: ExistCheck, filePath: string, xs: seq<Json>)
    requires !ec.enabled && forall i :: 0 <= i < |xs| ==> SetEntryOk(ec, filePath, xs[i])
    ensures |SetEntries(ec, filePath, xs)| == |xs|
  {
    SetsOkAll(ec, filePath, xs);
    SetEntriesCount(ec, filePath, xs);
  }

  lemma {:induction false} SetEntriesCount(ec: ExistCheck, filePath: string, xs: seq<Json>)
    requires !ec.enabled && SetsOk(ec, filePath, xs)
    ensures |SetEntries(ec, filePath, xs)| == |xs|
  {
    if xs != [] {
      SetEntriesCount(ec, filePath, xs[..|xs| - 1]);
    }
  }

  lemma {:induction false} SetEntriesRecordAt(ec: ExistCheck, filePath: string, xs: seq<Json>, i: nat)
    requires !ec.enabled && SetsOk(ec, filePath, xs) && i < |xs|
    ensures HasName(xs[i]) && |SetEntries(ec, filePath, xs)| == |xs|
    ensures SetEntries(ec, filePath, xs)[i] == SetOptions(xs[i])
  {
    if i < |xs| - 1 {
      assert SetsOk(ec, filePath, xs[..|xs| - 1]);
      SetEntriesRecordAt(ec, filePath, xs[..|xs| - 1], i);
      SetEntriesRecordBefore(ec, filePath, xs, i);
    } else {
      SetEntriesRecordLast(ec, filePath, xs);
    }
  }

  /** The last cell set's record ends the list. */
  lemma {:induction false} SetEntriesRecordLast(ec: ExistCheck, filePath: string, xs: seq<Json>)
    requires !ec.enabled && SetsOk(ec, filePath, xs) && xs != []
    ensures HasName(xs[|xs| - 1]) && |SetEntries(ec, filePath, xs)| == |xs|
    ensures SetEntries(ec, filePath, xs)[|xs| - 1] == SetOptions(xs[|xs| - 1])
  {
    SetEntriesCount(ec, filePath, xs);
    assert SetEntryOk(ec, filePath, xs[|xs| - 1]);
    SetEntriesKeptLast(ec, filePath, xs);
  }

  /** A record of the prefix keeps its position once the last cell set is added. */
  lemma {:induction false} SetEntriesRecordBefore(ec: ExistCheck, filePath: string, xs: seq<Json>, i: nat)
    requires !ec.enabled && SetsOk(ec, filePath, xs) && i < |xs| - 1
    requires HasName(xs[..|xs| - 1][i]) && |SetEntries(ec, filePath, xs[..|xs| - 1])| == |xs| - 1
    requires SetEntries(ec, filePath, xs[..|xs| - 1])[i] == SetOptions(xs[..|xs| - 1][i])
    ensures HasName(xs[i]) && |SetEntries(ec, filePath, xs)| == |xs|
    ensures SetEntries(ec, filePath, xs)[i] == SetOptions(xs[i])
  {
    assert SetEntryOk(ec, filePath, xs[|xs| - 1]);
    SetEntriesKeptLast(ec, filePath, xs);
    assert xs[..|xs| - 1][i] == xs[i];
  }

  lemma {:induction false} SetEntriesKeptLast(ec: ExistCheck, filePath: string, xs: seq<Json>)
    requires xs != [] && !ec.enabled && SetEntryOk(ec, filePath, xs[|xs| - 1])
    ensures SetEntries(ec, filePath, xs) == SetEntries(ec, filePath, xs[..|xs| - 1]) + [SetOptions(xs[|xs| - 1])]
  {
  }

  /** Without the existence check the `i`-th record is that of the `i`-th cell set. */
  lemma SetEntriesUncheckedAt(ec: ExistCheck, filePath: string, xs: seq<Json>, i: nat)
    requires !ec.enabled && forall i :: 0 <= i < |xs| ==> SetEntryOk(ec, filePath, xs[i])
    requires i < |xs|
    ensures HasName(xs[i]) && |SetEntries(ec, filePath, xs)| == |xs|
    ensures SetEntries(ec, filePath, xs)[i] == SetOptions(xs[i])
  {
    SetsOkAll(ec, filePath, xs);
    SetEntriesRecordAt(ec, filePath, xs, i);
  }

  /** A bare name and the record `{"name": name}` give the same options. */
  lemma BareNameIsRecord(name: string)
    ensures SetOptions(Str(name)) == SetOptions(Object([("name", Str(name))]))
    ensures SetOptions(Str(name)) == Object([("groupName", Str(GroupName(name, false))), ("setName", Str(name))])
  {
  }

  predicate CellSetsOk(ec: ExistCheck, filePath: string, fo: Dict) {
    && (Get(fo, "sets").Some? ==> Iter(Get(fo, "sets").value).Some?)
    && forall i :: 0 <= i < |ItemsAt(fo, "sets")| ==> SetEntryOk(ec, filePath, ItemsAt(fo, "sets")[i])
  }

  /** One pass of the `sets` loop: the record of `cs`, or `None` when the existence check skips it. */
  method CellSetOptions(ec: ExistCheck, filePath: string, cs: Json) returns (r: Result<Option<Json>, PyError>)
    ensures r.Ok? <==> SetEntryOk(ec, filePath, cs)
    ensures r.Ok? ==> (r.value.Some? <==> SetKept(ec, filePath, cs))
    ensures r.Ok? && r.value.Some? ==> r.value.value == SetOptions(cs)
  {
    var rec := if cs.Object? then cs.fields else [("name", cs)];
    var name := Get(rec, "name");
    if name.None? {
      return Err(KeyError);
    }
    if !name.value.Str? {
      // `.split` on a value that is not a string
      return Err(AttributeError);
    }
    assert rec == SetRecord(cs);
    var cellSetName := LastSegment(name.value.s, '/');
    var score := Get(rec, "score");
    assert score.Some? <==> HasScore(cs);
    if ec.enabled {
      if !ec.pathExists(PathJoin(filePath, name.value.s)) {
        return Ok(None);
      }
      if score.Some? {
        if !score.value.Str? {
          // os.path.join(file_path, cell_set["score"]) raises on a non-string
          return Err(TypeError);
        }
        if !ec.pathExists(PathJoin(filePath, score.value.s)) {
          return Ok(None);
        }
      }
    }
    var groupName := CamelJoin(cellSetName);
    assert groupName + "" == groupName;
    var cellSetOptions: Dict := [("groupName", Str(groupName)), ("setName", name.value)];
    if score.Some? {
      cellSetOptions := [("groupName", Str(groupName + " with Scores")), ("setName", name.value)];
      cellSetOptions := cellSetOptions + [("scoreName", score.value)];
    }
    return Ok(Some(Object(cellSetOptions)));
  }

  /** Every cell set of `xs` is processed without raising, stated one prefix at a time. */
  predicate SetsOk(ec: ExistCheck, filePath: string, xs: seq<Json>) {
    xs == [] || (SetsOk(ec, filePath, xs[..|xs| - 1]) && SetEntryOk(ec, filePath, xs[|xs| - 1]))
  }

  lemma {:induction false} SetsOkAll(ec: ExistCheck, filePath: string, xs: seq<Json>)
    ensures SetsOk(ec, filePath, xs) <==> forall i :: 0 <= i < |xs| ==> SetEntryOk(ec, filePath, xs[i])
  {
    if xs != [] {
      var init := xs[..|xs| - 1];
      SetsOkAll(ec, filePath, init);
      assert forall i :: 0 <= i < |init| ==> init[i] == xs[i];
    }
  }

  /** Extending the prefix by one cell set adds that set's record when it is processed and kept. */
  lemma SetsStep(ec: ExistCheck, filePath: string, xs: seq<Json>, i: nat)
    requires i < |xs|
    ensures SetsOk(ec, filePath, xs[..i + 1]) <==> SetsOk(ec, filePath, xs[..i]) && SetEntryOk(ec, filePath, xs[i])
    ensures SetEntries(ec, filePath, xs[..i + 1]) == SetEntries(ec, filePath, xs[..i])
      + (if SetEntryOk(ec, filePath, xs[i]) && SetKept(ec, filePath, xs[i]) then [SetOptions(xs[i])] else [])
  {
    assert xs[..i + 1][..i] == xs[..i];
  }

  /** The loop over the cell sets `xs`. */
  method AppendCellSets(ec: ExistCheck, filePath: string, xs: seq<Json>) returns (r: Result<seq<Json>, PyError>)
    ensures r.Ok? <==> forall i :: 0 <= i < |xs| ==> SetEntryOk(ec, filePath, xs[i])
    ensures r.Ok? ==> r.value == SetEntries(ec, filePath, xs)
  {
    var options: seq<Json> := [];
    var i := 0;
    while i < |xs|
      invariant 0 <= i <= |xs|
      invariant SetsOk(ec, filePath, xs[..i])
      invariant options == SetEntries(ec, filePath, xs[..i])
    {
      SetsStep(ec, filePath, xs, i);
      var entry := CellSetOptions(ec, filePath, xs[i]);
      if entry.Err? {
        return Err(entry.error);
      }
      if entry.value.Some? {
        options := options + [entry.value.value];
      }
      i := i + 1;
    }
    assert xs[..i] == xs;
    SetsOkAll(ec, filePath, xs);
    return Ok(options);
  }

  /** Branch `ANNDATA_CELL_SETS_ZARR` of `build_options`. */
  method CellSetsOptions(ec: ExistCheck, filePath: string, fo: Dict) returns (r: Result<Json, PyError>)
    ensures r.Ok? <==> CellSetsOk(ec, filePath, fo)
    ensures r.Ok? ==> r.value == List(SetEntries(ec, filePath, ItemsAt(fo, "sets")))
  {
    var sets := Get(fo, "sets");
    if sets.None? {
      return Ok(List([]));
    }
    var items := Iter(sets.value);
    if items.None? {
      return Err(TypeError);
    }
    assert items.value == ItemsAt(fo, "sets");
    var entries := AppendCellSets(ec, filePath, items.value);
    if entries.Err? {
      return Err(entries.error);
    }
    return Ok(List(entries.value));
  }

  // ---------------------------------------------------------------------------
  // Expression-matrix file

  /** The keys an expression-matrix file keeps. */
  const MatrixKeys: set<string> := {"matrix", "matrixGeneFilter", "geneAlias"}

  predicate MatrixOk(ec: ExistCheck, fo: Dict) {
    forall i :: 0 <= i < |fo| && fo[i].0 in MatrixKeys && ec.enabled ==> fo[i].1.Str?
  }

  predicate MatrixKept(ec: ExistCheck, filePath: string, e: (string, Json)) {
    e.0 in MatrixKeys && (!ec.enabled || (e.1.Str? && ec.pathExists(PathJoin(filePath, e.1.s))))
  }

  /** The whitelisted entries that survive the existence check, in input order. */
  function MatrixEntries(ec: ExistCheck, filePath: string, fo: Dict): Dict {
    if fo == [] then []
    else
      var last := fo[|fo| - 1];
      MatrixEntries(ec, filePath, fo[..|fo| - 1]) + (if MatrixKept(ec, filePath, last) then [last] else [])
  }

  /** An entry survives exactly when it is an input entry under a whitelisted key that passes the check. */
  lemma {:induction false} MatrixEntriesMembers(ec: ExistCheck, filePath: string, fo: Dict, e: (string, Json))
    ensures e in MatrixEntries(ec, filePath, fo) <==> e in fo && MatrixKept(ec, filePath, e)
  {
    if fo != [] {
      var init := fo[..|fo| - 1];
      MatrixEntriesMembers(ec, filePath, init, e);
      assert fo == init + [fo[|fo| - 1]];
    }
  }

  /** Only `matrix`, `matrixGeneFilter` and `geneAlias` survive; unchecked, all of them do, with their values. */
  lemma MatrixWhitelist(ec: ExistCheck, filePath: string, fo: Dict, e: (string, Json))
    ensures e in MatrixEntries(ec, filePath, fo) ==> e in fo && e.0 in MatrixKeys
    ensures !ec.enabled ==> (e in MatrixEntries(ec, filePath, fo) <==> e in fo && e.0 in MatrixKeys)
  {
    MatrixEntriesMembers(ec, filePath, fo, e);
  }

  lemma {:induction false} MatrixEntriesFrom(ec: ExistCheck, filePath: string, fo: Dict, e: (string, Json))
    requires e in MatrixEntries(ec, filePath, fo)
    ensures e in fo
  {
    MatrixEntriesMembers(ec, filePath, fo, e);
  }

  /** Branch `ANNDATA_EXPRESSION_MATRIX_ZARR` of `build_options`. */
  method ExpressionMatrixOptions(ec: ExistCheck, filePath: string, fo: Dict) returns (r: Result<Json, PyError>)
    requires UniqueKeys(fo)
    ensures r.Ok? <==> MatrixOk(ec, fo)
    ensures r.Ok? ==> r.value == Object(MatrixEntries(ec, filePath, fo))
  {
    var options: Dict := [];
    var i := 0;
    while i < |fo|
      invariant 0 <= i <= |fo|
      invariant forall j :: 0 <= j < i && fo[j].0 in MatrixKeys && ec.enabled ==> fo[j].1.Str?
      invariant options == MatrixEntries(ec, filePath, fo[..i])
    {
      var (k, v) := fo[i];
      assert fo[..i + 1][..i] == fo[..i];
      var skip := k !in MatrixKeys;
      if !skip && ec.enabled {
        if !v.Str? {
          return Err(TypeError);
        }
        skip := !ec.pathExists(PathJoin(filePath, v.s));
      }
      if !skip {
        KeysAt(options);
        forall j | 0 <= j < |options| ensures options[j].0 != k {
          MatrixEntriesFrom(ec, filePath, fo[..i], options[j]);
        }
        PutNewKey(options, k, v);
        options := Put(options, k, v);
      }
      i := i + 1;
    }
    assert fo[..i] == fo;
    return Ok(Object(options));
  }

  // ---------------------------------------------------------------------------
  // build_options

  /** `build_options` runs without raising. */
  predicate OptionsOk(fileType: FileType, ec: ExistCheck, filePath: string, fo: Dict) {
    match fileType
    case AnnDataCellsZarr => CellsOk(ec, filePath, fo)
    case AnnDataCellSetsZarr => CellSetsOk(ec, filePath, fo)
    case AnnDataExpressionMatrixZarr => MatrixOk(ec, fo)
    case _ => true
  }

  /** What `build_options` returns; `None` for a file type it does not handle. */
  function OptionsValue(fileType: FileType, ec: ExistCheck, filePath: string, fo: Dict): Json
    requires OptionsOk(fileType, ec, filePath, fo)
  {
    match fileType
    case AnnDataCellsZarr => CellsValue(ec, filePath, fo)
    case AnnDataCellSetsZarr => List(SetEntries(ec, filePath, ItemsAt(fo, "sets")))
    case AnnDataExpressionMatrixZarr => Object(MatrixEntries(ec, filePath, fo))
    case _ => Null
  }

  method BuildOptions(fileType: FileType, filePath: string, fo: Dict, ec: ExistCheck)
    returns (r: Result<Json, PyError>)
    requires WellFormed(Object(fo))
    ensures r.Ok? <==> OptionsOk(fileType, ec, filePath, fo)
    ensures r.Ok? ==> r.value == OptionsValue(fileType, ec, filePath, fo)
    ensures r.Ok? && r.value == Null <==> !(fileType.AnnDataCellsZarr? || fileType.AnnDataCellSetsZarr? || fileType.AnnDataExpressionMatrixZarr?)
  {
    match fileType
    case AnnDataCellsZarr =>
      r := CellsOptions(ec, filePath, fo);
    case AnnDataCellSetsZarr =>
      r := CellSetsOptions(ec, filePath, fo);
    case AnnDataExpressionMatrixZarr =>
      r := ExpressionMatrixOptions(ec, filePath, fo);
    case _ =>
      r := Ok(Null);
  }
}
