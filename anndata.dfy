/**
 * `h5ad_to_zarr` of bin/process_h5ad.py: the fixed sequence of in-place steps that
 * prepares an AnnData dataset for Vitessce before it is written as Zarr.
 *
 * The dataset is a class whose fields are the parts the steps read and change: the var
 * index and columns, the obs index and columns, the obsm entries, whether `X` is sparse,
 * and whether a `raw` copy exists. Column values are kept as their text, which is what
 * the steps compare and copy; numeric contents and the scanpy computations are not
 * modelled.
 */
module H5ad {
  import opened Wrappers
  import opened PyStrings
  import opened UniqueNames

  /** `SUFFIX`. */
  const Suffix := "anndata.zarr"

  /** The dtypes the steps tell apart; any other dtype is carried by its name. */
  datatype DType = Int8 | Int32 | Int64 | Bool | Category | Object | Float32 | OtherDType(name: string)

  /** An obs column: its dtype and its values as text. */
  datatype Column = Column(dtype: DType, text: seq<string>)

  /** What holds an obsm entry. */
  datatype Container = NdArray | DataFrame | Series

  datatype ObsmEntry = ObsmEntry(container: Container, dtype: DType)

  /** The obs index: integer-typed (only its length matters here) or object-typed labels. */
  datatype ObsIndex = IntegerIndex(size: nat) | ObjectIndex(labels: seq<string>)

  /** pandas refuses to insert a column whose name is taken. */
  datatype PandasError = ValueError

  // ---------------------------------------------------------------------------
  // The var index

  /** Whether `var_index and var_index in adata.var` holds. */
  predicate ReindexApplies(varIndex: Option<string>, cols: map<string, seq<string>>) {
    varIndex.Some? && varIndex.value != "" && varIndex.value in cols
  }

  /** The column `reset_index` moves the index into: its name, else `index`, else `level_0`. */
  function ResetName(name: Option<string>, cols: map<string, seq<string>>): string {
    if name.Some? then name.value else if "index" !in cols then "index" else "level_0"
  }

  /** The var index once `var_index` is applied: that column's values, or the index as it was. */
  function ReindexedVarIndex(varIndex: Option<string>, index: seq<string>, cols: map<string, seq<string>>): seq<string> {
    if ReindexApplies(varIndex, cols) then cols[varIndex.value] else index
  }

  /** The var columns once `var_index` is applied: the old index moved in, the new one moved out. */
  function ReindexedVarColumns(varIndex: Option<string>, name: Option<string>, index: seq<string>,
                               cols: map<string, seq<string>>): map<string, seq<string>> {
    if ReindexApplies(varIndex, cols) then cols[ResetName(name, cols) := index] - {varIndex.value} else cols
  }

  // ---------------------------------------------------------------------------
  // The obs index

  /** The obs index is left alone when it is integer-typed or all its labels are numeric. */
  predicate KeepsObsIndex(idx: ObsIndex) {
    idx.IntegerIndex? || forall i :: 0 <= i < |idx.labels| ==> IsNumeric(idx.labels[i])
  }

  /** The labels strictly below `l`: the category code of `l` is how many there are. */
  function Below(labels: seq<string>, l: string): set<string> {
    set c | c in labels && StrLess(c, l)
  }

  /** `pd.Categorical(labels).codes`: the position of each label among the sorted distinct labels. */
  function CategoryCodes(labels: seq<string>): (r: seq<nat>)
    ensures |r| == |labels|
  {
    seq(|labels|, i requires 0 <= i < |labels| => |Below(labels, labels[i])|)
  }

  /** `.astype(str)` on the codes. */
  function CodeStrings(codes: seq<nat>): (r: seq<string>)
    ensures |r| == |codes|
  {
    seq(|codes|, i requires 0 <= i < |codes| => NatToString(codes[i]))
  }

  /** A label sorting before another gets a smaller code. */
  lemma CodesFollowOrder(labels: seq<string>, a: string, b: string)
    requires a in labels && StrLess(a, b)
    ensures |Below(labels, a)| < |Below(labels, b)|
  {
    forall c | c in Below(labels, a) ensures c in Below(labels, b) {
      StrLessTransitive(c, a, b);
    }
    StrLessIrreflexive(a);
    assert a in Below(labels, b) && a !in Below(labels, a);
    SubsetCard(Below(labels, a), Below(labels, b) - {a});
  }

  /** Equal labels get equal codes and different labels different codes. */
  lemma CodesAgreeWithLabels(labels: seq<string>, i: nat, j: nat)
    requires i < |labels| && j < |labels|
    ensures labels[i] == labels[j] <==> CodeStrings(CategoryCodes(labels))[i] == CodeStrings(CategoryCodes(labels))[j]
  {
    var codes := CategoryCodes(labels);
    if labels[i] != labels[j] {
      StrLessTotal(labels[i], labels[j]);
      if StrLess(labels[i], labels[j]) {
        CodesFollowOrder(labels, labels[i], labels[j]);
      } else {
        CodesFollowOrder(labels, labels[j], labels[i]);
      }
      if CodeStrings(codes)[i] == CodeStrings(codes)[j] {
        NatToStringInjective(codes[i], codes[j]);
      }
    }
  }

  /** Codes count from 0 below the number of distinct labels. */
  lemma CodesBelowCategories(labels: seq<string>, i: nat)
    requires i < |labels|
    ensures CategoryCodes(labels)[i] < |set c | c in labels|
  {
    StrLessIrreflexive(labels[i]);
    SubsetCard(Below(labels, labels[i]), (set c | c in labels) - {labels[i]});
  }

  /** The renamed index is all numeric, so normalising it a second time leaves it alone. */
  lemma RenamedIndexIsKept(labels: seq<string>)
    ensures KeepsObsIndex(ObjectIndex(CodeStrings(CategoryCodes(labels))))
  {
  }

  // ---------------------------------------------------------------------------
  // dtype coercion

  /** What the obs loop makes of a column's dtype: int8/int64 become int32, then bool becomes category. */
  function CoercedObsDType(d: DType): DType {
    var d1 := if d == Int8 || d == Int64 then Int32 else d;
    if d1 == Bool then Category else d1
  }

  /** The obs coercion table: no int8, int64 or bool is left, and every other dtype is kept. */
  lemma ObsDTypeTable(d: DType)
    ensures CoercedObsDType(d) != Int8 && CoercedObsDType(d) != Int64 && CoercedObsDType(d) != Bool
    ensures d == Int8 || d == Int64 ==> CoercedObsDType(d) == Int32
    ensures d == Bool ==> CoercedObsDType(d) == Category
    ensures d != Int8 && d != Int64 && d != Bool ==> CoercedObsDType(d) == d
    ensures CoercedObsDType(CoercedObsDType(d)) == CoercedObsDType(d)
  {
  }

  /** The obs columns after the loop. */
  function CoercedObs(obs: map<string, Column>): map<string, Column> {
    map k | k in obs :: Column(CoercedObsDType(obs[k].dtype), obs[k].text)
  }

  /** No obs column is int8, int64 or bool. */
  predicate ObsCoerced(obs: map<string, Column>) {
    forall k :: k in obs ==> obs[k].dtype !in {Int8, Int64, Bool}
  }

  /** The loop keeps every column and its values, leaves no int8, int64 or bool column, and coercing again changes nothing. */
  lemma CoercedObsSpec(obs: map<string, Column>)
    ensures CoercedObs(obs).Keys == obs.Keys
    ensures forall k :: k in obs ==> CoercedObs(obs)[k].text == obs[k].text
    ensures ObsCoerced(CoercedObs(obs))
    ensures CoercedObs(CoercedObs(obs)) == CoercedObs(obs)
  {
    forall k | k in obs ensures CoercedObs(obs)[k].dtype !in {Int8, Int64, Bool} {
      ObsDTypeTable(obs[k].dtype);
    }
    assert CoercedObs(CoercedObs(obs)) == CoercedObs(obs);
  }

  /** `np.array(entry)`: an ndarray of the same dtype. */
  function AsArray(e: ObsmEntry): ObsmEntry {
    e.(container := NdArray)
  }

  /** Every obsm entry turned into an array. */
  function Arrays(obsm: map<string, ObsmEntry>): map<string, ObsmEntry> {
    map k | k in obsm :: AsArray(obsm[k])
  }

  /** What the obsm loop makes of the entry under `key`. */
  function CoercedObsmEntry(key: string, e: ObsmEntry): ObsmEntry {
    var e1 := if e.container == DataFrame || e.container == Series then e.(container := NdArray) else e;
    if e1.dtype == Int8 || e1.dtype == Int64 || key == "spatial" then e1.(dtype := Int32) else e1
  }

  /** The obsm entries after the loop. */
  function CoercedObsm(obsm: map<string, ObsmEntry>): map<string, ObsmEntry> {
    map k | k in obsm :: CoercedObsmEntry(k, obsm[k])
  }

  /** Every obsm entry is an array that is neither int8 nor int64, and `spatial` is int32. */
  predicate ObsmCoerced(obsm: map<string, ObsmEntry>) {
    && (forall k :: k in obsm ==> obsm[k].container == NdArray && obsm[k].dtype !in {Int8, Int64})
    && ("spatial" in obsm ==> obsm["spatial"].dtype == Int32)
  }

  /**
   * After the obsm loop every entry is an array; the int8 and int64 entries and the
   * `spatial` entry are int32, and every other entry keeps its dtype; coercing again
   * changes nothing.
   */
  lemma CoercedObsmSpec(obsm: map<string, ObsmEntry>)
    ensures CoercedObsm(obsm).Keys == obsm.Keys
    ensures forall k :: k in obsm ==> CoercedObsm(obsm)[k].container == NdArray
    ensures forall k :: k in obsm ==>
      CoercedObsm(obsm)[k].dtype == if obsm[k].dtype in {Int8, Int64} || k == "spatial" then Int32 else obsm[k].dtype
    ensures ObsmCoerced(CoercedObsm(obsm))
    ensures CoercedObsm(CoercedObsm(obsm)) == CoercedObsm(obsm)
  {
    assert CoercedObsm(CoercedObsm(obsm)) == CoercedObsm(obsm);
  }

  // ---------------------------------------------------------------------------
  // Embeddings

  /** What `sc.tl.pca` and `sc.tl.umap` store: float32 arrays. */
  const Embedding := ObsmEntry(NdArray, Float32)

  /** The obsm entries after the embedding step. */
  function WithEmbeddings(obsm: map<string, ObsmEntry>, compute: bool): map<string, ObsmEntry> {
    if !compute then obsm
    else
      var withPca := if "X_pca" in obsm then obsm else obsm["X_pca" := Embedding];
      if "X_umap" in withPca then withPca else withPca["X_umap" := Embedding]
  }

  /**
   * Embeddings are computed only when absent: every existing entry is kept as it was, and
   * with `compute_embeddings` both `X_pca` and `X_umap` exist afterwards; without it nothing
   * changes.
   */
  lemma EmbeddingsOnlyAdd(obsm: map<string, ObsmEntry>, compute: bool)
    ensures forall k :: k in obsm ==> k in WithEmbeddings(obsm, compute) && WithEmbeddings(obsm, compute)[k] == obsm[k]
    ensures compute ==> "X_pca" in WithEmbeddings(obsm, compute) && "X_umap" in WithEmbeddings(obsm, compute)
    ensures WithEmbeddings(obsm, compute).Keys == obsm.Keys + (if compute then {"X_pca", "X_umap"} else {})
    ensures !compute ==> WithEmbeddings(obsm, compute) == obsm
  {
  }

  // ---------------------------------------------------------------------------
  // The dataset

  class AnnData {
    var varIndex: seq<string>
    var varIndexName: Option<string>
    var varColumns: map<string, seq<string>>
    var obsIndex: ObsIndex
    var obs: map<string, Column>
    var obsm: map<string, ObsmEntry>
    var sparse: bool
    var hasRaw: bool

    /** `len(adata)`: the number of observations. */
    function NObs(): nat
      reads this
    {
      match obsIndex
      case IntegerIndex(n) => n
      case ObjectIndex(labels) => |labels|
    }

    /** Every column is as long as its index. */
    ghost predicate Valid()
      reads this
    {
      && (forall k :: k in varColumns ==> |varColumns[k]| == |varIndex|)
      && (forall k :: k in obs ==> |obs[k].text| == NObs())
    }

    constructor (varIndex: seq<string>, varIndexName: Option<string>, varColumns: map<string, seq<string>>,
                 obsIndex: ObsIndex, obs: map<string, Column>, obsm: map<string, ObsmEntry>,
                 sparse: bool, hasRaw: bool)
      ensures this.varIndex == varIndex && this.varIndexName == varIndexName && this.varColumns == varColumns
      ensures this.obsIndex == obsIndex && this.obs == obs && this.obsm == obsm
      ensures this.sparse == sparse && this.hasRaw == hasRaw
    {
      this.varIndex := varIndex;
      this.varIndexName := varIndexName;
      this.varColumns := varColumns;
      this.obsIndex := obsIndex;
      this.obs := obs;
      this.obsm := obsm;
      this.sparse := sparse;
      this.hasRaw := hasRaw;
    }

    /**
     * `reset_index` then `set_index(var_index)` when `var_index` names a var column: the
     * column becomes the var index (its values as text) and the old index becomes a column.
     */
    method ReindexVar(varIndex: Option<string>) returns (err: Option<PandasError>)
      requires Valid()
      modifies this
      ensures Valid()
      ensures !ReindexApplies(varIndex, old(varColumns)) ==> err.None? && unchanged(this)
      ensures ReindexApplies(varIndex, old(varColumns)) && ResetName(old(varIndexName), old(varColumns)) in old(varColumns)
        ==> err == Some(ValueError) && unchanged(this)
      ensures ReindexApplies(varIndex, old(varColumns)) && ResetName(old(varIndexName), old(varColumns)) !in old(varColumns)
        ==> && err.None?
            && this.varIndex == old(varColumns)[varIndex.value]
            && this.varIndexName == varIndex
            && varColumns == old(varColumns)[ResetName(old(varIndexName), old(varColumns)) := old(this.varIndex)] - {varIndex.value}
            && obsIndex == old(obsIndex) && obs == old(obs) && obsm == old(obsm)
            && sparse == old(sparse) && hasRaw == old(hasRaw)
    {
      if !(varIndex.Some? && varIndex.value != "" && varIndex.value in varColumns) {
        return None;
      }
      var name := varIndex.value;
      var resetName := if varIndexName.Some? then varIndexName.value else if "index" !in varColumns then "index" else "level_0";
      if resetName in varColumns {
        return Some(ValueError);
      }
      varColumns := varColumns[resetName := this.varIndex];
      this.varIndex := varColumns[name];
      varColumns := varColumns - {name};
      varIndexName := varIndex;
      return None;
    }

    /** `var_names_make_unique()`. */
    method MakeVarNamesUnique()
      requires Valid()
      modifies this
      ensures Valid()
      ensures |varIndex| == |old(varIndex)| && Unique(varIndex)
      ensures forall j :: 0 <= j < |varIndex| ==> Renamed(old(varIndex), varIndex, j)
      ensures varIndexName == old(varIndexName) && varColumns == old(varColumns)
      ensures obsIndex == old(obsIndex) && obs == old(obs) && obsm == old(obsm)
      ensures sparse == old(sparse) && hasRaw == old(hasRaw)
    {
      varIndex := MakeIndexUnique(varIndex);
    }

    /**
     * The obs index is replaced by the text of its category codes, and the old labels are
     * kept in a `label_id` column, unless the index is integer-typed or all numeric.
     */
    method NormaliseObsIndex()
      requires Valid()
      modifies this
      ensures Valid()
      ensures KeepsObsIndex(old(obsIndex)) ==> obsIndex == old(obsIndex) && obs == old(obs)
      ensures !KeepsObsIndex(old(obsIndex)) ==>
        && obs == old(obs)["label_id" := Column(Object, old(obsIndex).labels)]
        && obsIndex == ObjectIndex(CodeStrings(CategoryCodes(old(obsIndex).labels)))
      ensures KeepsObsIndex(obsIndex) && NObs() == old(NObs())
      ensures varIndex == old(varIndex) && varIndexName == old(varIndexName) && varColumns == old(varColumns)
      ensures obsm == old(obsm) && sparse == old(sparse) && hasRaw == old(hasRaw)
    {
      if obsIndex.IntegerIndex? {
        return;
      }
      var labels := obsIndex.labels;
      if forall i :: 0 <= i < |labels| ==> IsNumeric(labels[i]) {
        return;
      }
      obs := obs["label_id" := Column(Object, labels)];
      var codes := CategoryCodes(labels);
      obsIndex := ObjectIndex(CodeStrings(codes));
      RenamedIndexIsKept(labels);
    }

    /** `adata.obsm[k] = np.array(adata.obsm[k])` for every key. */
    method ObsmToArrays()
      requires Valid()
      modifies this
      ensures Valid()
      ensures obsm == Arrays(old(obsm))
      ensures varIndex == old(varIndex) && varIndexName == old(varIndexName) && varColumns == old(varColumns)
      ensures obsIndex == old(obsIndex) && obs == old(obs) && sparse == old(sparse) && hasRaw == old(hasRaw)
    {
      var todo := obsm.Keys;
      ghost var orig := obsm;
      while todo != {}
        invariant todo <= orig.Keys && obsm.Keys == orig.Keys
        invariant forall k :: k in obsm ==> obsm[k] == if k in todo then orig[k] else AsArray(orig[k])
        invariant varIndex == old(varIndex) && varIndexName == old(varIndexName) && varColumns == old(varColumns)
        invariant obsIndex == old(obsIndex) && obs == old(obs) && sparse == old(sparse) && hasRaw == old(hasRaw)
        decreases todo
      {
        var k :| k in todo;
        obsm := obsm[k := AsArray(obsm[k])];
        todo := todo - {k};
      }
    }

    /** `sc.tl.pca` when `X_pca` is absent, `sc.pp.neighbors` and `sc.tl.umap` when `X_umap` is. */
    method ComputeEmbeddings(compute: bool)
      requires Valid()
      modifies this
      ensures Valid()
      ensures obsm == WithEmbeddings(old(obsm), compute)
      ensures varIndex == old(varIndex) && varIndexName == old(varIndexName) && varColumns == old(varColumns)
      ensures obsIndex == old(obsIndex) && obs == old(obs) && sparse == old(sparse) && hasRaw == old(hasRaw)
    {
      if compute {
        if "X_pca" !in obsm {
          obsm := obsm["X_pca" := Embedding];
        }
        if "X_umap" !in obsm {
          obsm := obsm["X_umap" := Embedding];
        }
      }
    }

    /** The obs dtype loop. */
    method CoerceObsDTypes()
      requires Valid()
      modifies this
      ensures Valid()
      ensures obs == CoercedObs(old(obs))
      ensures varIndex == old(varIndex) && varIndexName == old(varIndexName) && varColumns == old(varColumns)
      ensures obsIndex == old(obsIndex) && obsm == old(obsm) && sparse == old(sparse) && hasRaw == old(hasRaw)
    {
      var todo := obs.Keys;
      ghost var orig := obs;
      while todo != {}
        invariant todo <= orig.Keys && obs.Keys == orig.Keys
        invariant forall k :: k in obs ==>
          obs[k] == if k in todo then orig[k] else Column(CoercedObsDType(orig[k].dtype), orig[k].text)
        invariant varIndex == old(varIndex) && varIndexName == old(varIndexName) && varColumns == old(varColumns)
        invariant obsIndex == old(obsIndex) && obsm == old(obsm) && sparse == old(sparse) && hasRaw == old(hasRaw)
        decreases todo
      {
        var col :| col in todo;
        var column := obs[col];
        if column.dtype == Int8 || column.dtype == Int64 {
          column := column.(dtype := Int32);
        }
        if column.dtype == Bool {
          // `.astype(str).astype("category")`: the text stays, the dtype becomes category
          column := column.(dtype := Category);
        }
        obs := obs[col := column];
        todo := todo - {col};
      }
    }

    /** The obsm dtype loop. */
    method CoerceObsmDTypes()
      requires Valid()
      modifies this
      ensures Valid()
      ensures obsm == CoercedObsm(old(obsm))
      ensures varIndex == old(varIndex) && varIndexName == old(varIndexName) && varColumns == old(varColumns)
      ensures obsIndex == old(obsIndex) && obs == old(obs) && sparse == old(sparse) && hasRaw == old(hasRaw)
    {
      var todo := obsm.Keys;
      ghost var orig := obsm;
      while todo != {}
        invariant todo <= orig.Keys && obsm.Keys == orig.Keys
        invariant forall k :: k in obsm ==> obsm[k] == if k in todo then orig[k] else CoercedObsmEntry(k, orig[k])
        invariant varIndex == old(varIndex) && varIndexName == old(varIndexName) && varColumns == old(varColumns)
        invariant obsIndex == old(obsIndex) && obs == old(obs) && sparse == old(sparse) && hasRaw == old(hasRaw)
        decreases todo
      {
        var col :| col in todo;
        var entry := obsm[col];
        if entry.container == DataFrame || entry.container == Series {
          entry := entry.(container := NdArray);
        }
        if entry.dtype == Int8 || entry.dtype == Int64 || col == "spatial" {
          entry := entry.(dtype := Int32);
        }
        obsm := obsm[col := entry];
        todo := todo - {col};
      }
    }

    /** `adata.X = adata.X.toarray()` when `X` is sparse. */
    method Densify()
      requires Valid()
      modifies this
      ensures Valid()
      ensures !sparse
      ensures varIndex == old(varIndex) && varIndexName == old(varIndexName) && varColumns == old(varColumns)
      ensures obsIndex == old(obsIndex) && obs == old(obs) && obsm == old(obsm) && hasRaw == old(hasRaw)
    {
      if sparse {
        sparse := false;
      }
    }

    /** `del adata.raw`. */
    method DropRaw()
      requires Valid()
      modifies this
      ensures Valid()
      ensures !hasRaw
      ensures varIndex == old(varIndex) && varIndexName == old(varIndexName) && varColumns == old(varColumns)
      ensures obsIndex == old(obsIndex) && obs == old(obs) && obsm == old(obsm) && sparse == old(sparse)
    {
      hasRaw := false;
    }

    /** The var block: `var_index` applied when it names a column, then the names made unique. */
    method PrepareVar(varIndex: Option<string>) returns (err: Option<PandasError>)
      requires Valid()
      modifies this
      ensures Valid()
      ensures err.Some? <==>
        ReindexApplies(varIndex, old(varColumns)) && ResetName(old(varIndexName), old(varColumns)) in old(varColumns)
      ensures err.Some? ==> unchanged(this)
      ensures err.None? ==>
        && |this.varIndex| == |old(this.varIndex)| && Unique(this.varIndex)
        && (forall j :: 0 <= j < |this.varIndex| ==>
              Renamed(ReindexedVarIndex(varIndex, old(this.varIndex), old(varColumns)), this.varIndex, j))
        && varColumns == ReindexedVarColumns(varIndex, old(varIndexName), old(this.varIndex), old(varColumns))
        && obsIndex == old(obsIndex) && obs == old(obs) && obsm == old(obsm)
        && sparse == old(sparse) && hasRaw == old(hasRaw)
    {
      err := ReindexVar(varIndex);
      if err.Some? {
        return;
      }
      MakeVarNamesUnique();
    }

    /**
     * The obs, obsm and `X` steps in their order: the obs index normalised, obsm entries
     * made arrays, embeddings computed, obs and obsm dtypes coerced, `X` made dense and
     * `raw` dropped.
     */
    method PrepareObs(computeEmbeddings: bool)
      requires Valid()
      modifies this
      ensures Valid()
      ensures KeepsObsIndex(obsIndex) && ObsCoerced(obs) && ObsmCoerced(obsm) && !sparse && !hasRaw
      ensures computeEmbeddings ==> "X_pca" in obsm && "X_umap" in obsm
      ensures KeepsObsIndex(old(obsIndex)) ==> obsIndex == old(obsIndex) && obs == CoercedObs(old(obs))
      ensures !KeepsObsIndex(old(obsIndex)) ==>
        && obsIndex == ObjectIndex(CodeStrings(CategoryCodes(old(obsIndex).labels)))
        && obs == CoercedObs(old(obs)["label_id" := Column(Object, old(obsIndex).labels)])
        && "label_id" in obs && obs["label_id"] == Column(Object, old(obsIndex).labels)
      ensures obsm == CoercedObsm(WithEmbeddings(Arrays(old(obsm)), computeEmbeddings))
      ensures obsm.Keys == old(obsm).Keys + (if computeEmbeddings then {"X_pca", "X_umap"} else {})
      ensures varIndex == old(varIndex) && varIndexName == old(varIndexName) && varColumns == old(varColumns)
    {
      ghost var obs0, idx0 := obs, obsIndex;
      NormaliseObsIndex();
      ghost var orig := obsm;
      ObsmToArrays();
      ghost var arrays := obsm;
      ComputeEmbeddings(computeEmbeddings);
      EmbeddingsOnlyAdd(arrays, computeEmbeddings);
      ghost var obs1 := obs;
      CoerceObsDTypes();
      CoercedObsSpec(obs1);
      if !KeepsObsIndex(idx0) {
        assert obs1 == obs0["label_id" := Column(Object, idx0.labels)];
        assert obs["label_id"] == Column(CoercedObsDType(Object), idx0.labels);
      }
      ghost var obsm1 := obsm;
      CoerceObsmDTypes();
      CoercedObsmSpec(obsm1);
      assert obsm.Keys == orig.Keys + (if computeEmbeddings then {"X_pca", "X_umap"} else {});
      Densify();
      DropRaw();
    }
  }

  // ---------------------------------------------------------------------------
  // The whole function

  /** `f"{stem}_{SUFFIX}"`. */
  function ZarrPath(stem: string): (r: string)
    ensures |r| == |stem| + 1 + |Suffix|
  {
    stem + "_" + Suffix
  }

  /** The output path keeps the stem and ends in `_anndata.zarr`, so different stems give different paths. */
  lemma ZarrPathShape(stem: string, other: string)
    ensures ZarrPath(stem)[..|stem|] == stem
    ensures ZarrPath(stem)[|stem|..] == "_anndata.zarr"
    ensures ZarrPath(stem) == ZarrPath(other) ==> stem == other
  {
    if ZarrPath(stem) == ZarrPath(other) {
      assert |stem| == |other|;
      assert ZarrPath(stem)[..|stem|] == stem;
      assert ZarrPath(other)[..|other|] == other;
    }
  }

  /** `if not adata:` as written: an AnnData's truth value is its length, so one without observations counts as absent. */
  predicate ReadsFileAsWritten(given: bool, nObs: nat) {
    !given || nObs == 0
  }

  /** When the dataset is read from the file: exactly when none was passed. */
  predicate ReadsFile(given: bool) {
    !given
  }

  /**
   * A dataset passed in with no observations is dropped for `sc.read(file)` as written
   * (with the default `file=None` that read fails), while a passed dataset should be used.
   */
  lemma EmptyDatasetIsReplaced()
    ensures ReadsFileAsWritten(true, 0) && !ReadsFile(true)
  {
  }

  /** What the dataset satisfies after the steps. */
  ghost predicate Prepared(adata: AnnData, computeEmbeddings: bool)
    reads adata
  {
    && adata.Valid()
    && Unique(adata.varIndex)
    && KeepsObsIndex(adata.obsIndex)
    && ObsCoerced(adata.obs)
    && ObsmCoerced(adata.obsm)
    && (computeEmbeddings ==> "X_pca" in adata.obsm && "X_umap" in adata.obsm)
    && !adata.sparse
    && !adata.hasRaw
  }

  /**
   * `h5ad_to_zarr`: the dataset passed in, or else the one `sc.read(file)` gives (`read`),
   * goes through every step; the result is the Zarr path. The call fails only when
   * `reset_index` finds the column it would create already taken, and then nothing has
   * changed. Otherwise every step has run in turn: the var index is the chosen column made
   * unique, the obs index is numeric with any old labels kept in `label_id`, the obs and
   * obsm dtypes are coerced, and obsm gains only the embeddings. The dataset not used is
   * left alone. Writing the Zarr store is not modelled.
   */
  method H5adToZarr(stem: string, given: AnnData?, read: AnnData, computeEmbeddings: bool, varIndex: Option<string>)
    returns (r: Result<string, PandasError>, adata: AnnData)
    requires given != null ==> given.Valid()
    requires read.Valid()
    modifies given, read
    ensures adata == (if given != null then given else read)
    ensures given != null && given != read ==> unchanged(read)
    ensures r.Err? <==>
      ReindexApplies(varIndex, old(adata.varColumns)) && ResetName(old(adata.varIndexName), old(adata.varColumns)) in old(adata.varColumns)
    ensures r.Err? ==> unchanged(adata)
    ensures r.Ok? ==> r.value == ZarrPath(stem) && Prepared(adata, computeEmbeddings)
    ensures r.Ok? ==>
      && |adata.varIndex| == |old(adata.varIndex)|
      && (forall j :: 0 <= j < |adata.varIndex| ==>
            Renamed(ReindexedVarIndex(varIndex, old(adata.varIndex), old(adata.varColumns)), adata.varIndex, j))
      && adata.varColumns == ReindexedVarColumns(varIndex, old(adata.varIndexName), old(adata.varIndex), old(adata.varColumns))
    ensures r.Ok? && KeepsObsIndex(old(adata.obsIndex)) ==>
      adata.obsIndex == old(adata.obsIndex) && adata.obs == CoercedObs(old(adata.obs))
    ensures r.Ok? && !KeepsObsIndex(old(adata.obsIndex)) ==>
      && adata.obsIndex == ObjectIndex(CodeStrings(CategoryCodes(old(adata.obsIndex).labels)))
      && adata.obs == CoercedObs(old(adata.obs)["label_id" := Column(Object, old(adata.obsIndex).labels)])
      && "label_id" in adata.obs && adata.obs["label_id"] == Column(Object, old(adata.obsIndex).labels)
    ensures r.Ok? ==> adata.obsm == CoercedObsm(WithEmbeddings(Arrays(old(adata.obsm)), computeEmbeddings))
    ensures r.Ok? ==> adata.obsm.Keys == old(adata.obsm).Keys + (if computeEmbeddings then {"X_pca", "X_umap"} else {})
  {
    if ReadsFile(given != null) {
      adata := read;
    } else {
      adata := given;
    }
    var err := adata.PrepareVar(varIndex);
    if err.Some? {
      return Err(err.value), adata;
    }
    adata.PrepareObs(computeEmbeddings);
    r := Ok(stem + "_" + Suffix);
  }
}
