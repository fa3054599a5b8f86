# webatlas-pipeline: view-config building and AnnData preparation, in Dafny

This project models two scripts of the webatlas pipeline and proves properties of the model.

`bin/build_config.py` writes a Vitessce view config. The model covers:

- `build_options`: the options of a cells, cell-sets or expression-matrix Zarr file;
- `build_raster_options`: the options of the raster file made from the images;
- the rules of `write_json`:
  - which file of each data type is added, and with which options;
  - when there is nothing to write;
  - the config name;
  - the rewriting of the layout string;
  - the output file name.

`bin/process_h5ad.py` holds `h5ad_to_zarr`, which prepares an AnnData dataset in place before writing it as Zarr. The model covers each of its steps:

- the var re-indexing and var name de-duplication;
- the obs index normalisation, which keeps the old labels in `label_id`;
- the obsm conversion to arrays;
- the embedding guard;
- the obs and obsm dtype coercion;
- densifying `X` and dropping `raw`;
- the output path.

Modules:

- `Wrappers` (wrappers.dfy): `Option` and `Result`.
- `PyStrings` (pystrings.dfy): the Python string operations the scripts use.
  - `split(sep)[-1]`, `upper`, `capitalize`, `str.isnumeric` on ASCII digits, `str(int)`.
  - String ordering, which is what `pd.Categorical` sorts by.
- `Paths` (paths.dfy): POSIX `os.path.basename`, `os.path.join` and `os.path.splitext`.
- `Json` (json.dfy): JSON-like values. A Python dict is an ordered list of entries with unique keys.
- `ConfigOptions` (options.dfy): `build_options`.
  - Every exception it can raise on malformed options is an `Err`.
  - `check_exist` is an `ExistCheck`: a flag plus a predicate standing for `os.path.exists`.
- `RasterOptions` (raster.dfy): `build_raster_options`.
- `Layout` (layout.dfy): the layout loop of `write_json`.
  - `regex.finditer("[a-zA-Z]+", ...)` as a function from the string to its maximal letter runs.
  - The choice of view for each component, and the numbering `views[0]`, `views[1]`, ….
  - The right-to-left splicing.
- `Config` (config.dfy): the rest of `write_json`, up to the layout clean-up. The `constants` tables are parameters.
- `UniqueNames` (unique.dfy): anndata's `make_index_unique`, which `var_names_make_unique` calls. Implementing it lets the model prove uniqueness instead of assuming it.
- `H5ad` (anndata.dfy): the dataset as a class `AnnData`, one method per step of `h5ad_to_zarr`, and the whole function.

Each loop of the source is a method with a loop. The method is proved equal to a specification function, and the properties are proved about that function as lemmas. For example:

- `BuildRasterOptions` is proved equal to `RasterValue`;
- `Splice` is proved equal to `ReplaceFrom`;
- `CoerceObsDTypes` is proved equal to `CoercedObs`.

## Model

| member | source | states |
|---|---|---|
| PyStrings.LastSegmentIsMaximalSuffix | bin/build_config.py:224 | `x.split(sep)[-1]` is the longest suffix of `x` without `sep`; it is all of `x` when `sep` does not occur |
| PyStrings.CamelJoinDropsUnderscores | bin/build_config.py:99-101 | joining the capitalised `_`-separated words leaves no `_`, and ignoring case it is the name without underscores |
| PyStrings.ParseNatToString | bin/process_h5ad.py:41 | the decimal text of a code reads back as that code |
| PyStrings.NatToStringInjective | bin/process_h5ad.py:41 | different codes have different decimal texts |
| Paths.BasenameOfJoin | bin/build_config.py:153 | the basename of `os.path.join(url, b)` is `b` for a `b` without `/`, and `url` comes before it with one separating `/` |
| Paths.SplitExtRootDropsExtension | bin/build_config.py:140 | `splitext` drops a trailing `.ext` from a name that has a stem |
| ConfigOptions.KeptSpatialMembers | bin/build_config.py:55-60 | an entry is copied from `spatial` exactly when it is a spatial entry with a string value that passes the existence check |
| ConfigOptions.KeptSpatialUnchecked | bin/build_config.py:55-60 | without `check_exist`, the copied entries are exactly the `spatial` entries, in order |
| ConfigOptions.KeptSpatialOrder | bin/build_config.py:55-60 | no key is copied twice |
| ConfigOptions.CopySpatial | bin/build_config.py:55-60 | the loop fails exactly when `spatial` is neither absent nor a dict of strings; otherwise it yields the kept entries |
| ConfigOptions.CopySpatialEntry | bin/build_config.py:57-60 | one pass sets `options[k] = v` when `v` passes the check and raises when `v` is not a string |
| ConfigOptions.Dims | bin/build_config.py:70 | `dims` is `v` whenever `v` is neither `None` nor `"null"`, and the default `[0, 1]` when it is one of them; it is never `None` or `"null"` |
| ConfigOptions.MappingsSound | bin/build_config.py:62-72 | every stored mapping comes from a kept entry; it sits under the upper-cased last `/`-segment, its `key` is the full key and its `dims` is `Dims(v)` |
| ConfigOptions.MappingsLastWins | bin/build_config.py:62-72 | the stored mapping for a key is the last kept entry with that upper-cased name |
| ConfigOptions.MappingsComplete | bin/build_config.py:62-72 | every kept mapping entry has a mapping under its upper-cased name |
| ConfigOptions.SetdefaultAssign | bin/build_config.py:72 | `setdefault("mappings", {})[k] = v` sets `k` in the dict under `mappings`, leaves every other key alone, and raises when `mappings` holds a non-dict |
| ConfigOptions.AssignMappingStep | bin/build_config.py:72 | after the spatial entries, an assignment adds one mapping, or raises when a spatial entry is itself called `mappings` |
| ConfigOptions.AddMapping | bin/build_config.py:63-72 | one pass adds the mapping of a kept entry, and fails exactly as the assignment does |
| ConfigOptions.AddMappings | bin/build_config.py:62-72 | the loop fails exactly when `mappings` is not a dict or the assignment clashes; otherwise it appends the `mappings` entry, when non-empty, to the spatial entries |
| ConfigOptions.KeptFactorsMembers | bin/build_config.py:74-79 | a factor is kept exactly when it is a string factor that passes the existence check |
| ConfigOptions.KeptFactorsUnchecked | bin/build_config.py:74-79 | without `check_exist`, every factor is kept, in input order |
| ConfigOptions.KeptFactorsGrow | bin/build_config.py:74-79 | once one factor is kept, the factors list is non-empty |
| ConfigOptions.SetdefaultAppend | bin/build_config.py:79 | `setdefault("factors", []).append(x)` puts `x` at the end of the list, leaves other keys alone, and raises on a non-list |
| ConfigOptions.AppendFactorStep | bin/build_config.py:79 | after the spatial and mapping entries, appending adds one factor, or raises when a spatial entry is itself called `factors` |
| ConfigOptions.AppendFactor | bin/build_config.py:75-79 | one pass appends a kept factor, fails on a non-string factor or a clash, and skips a factor that fails the check |
| ConfigOptions.AppendFactors | bin/build_config.py:75-79 | the loop fails exactly on a non-string factor or a clash; otherwise the options end with `factors`: the kept factors in input order |
| ConfigOptions.AddFactors | bin/build_config.py:74-79 | the `factors` block, including a `factors` value that cannot be iterated |
| ConfigOptions.CellsOptions | bin/build_config.py:53-79 | the cells options fail exactly when one of the three blocks fails; otherwise they are the spatial entries, then `mappings`, then `factors`, the last two only when non-empty |
| ConfigOptions.SpatialEntryCopied | bin/build_config.py:55-79 | a spatial entry with a string value that passes the check is in the cells options unchanged |
| ConfigOptions.FactorsKeyIffKept | bin/build_config.py:74-79 | `factors` is a key exactly when a factor was kept (or a spatial entry bears that name), and then it lists the kept factors |
| ConfigOptions.GroupNameShape | bin/build_config.py:99-105 | the group name is the camel-cased last `/`-segment, with no `_` or `/`, plus ` with Scores` exactly for a scored set; ignoring case, it is that segment without underscores |
| ConfigOptions.BareNameIsRecord | bin/build_config.py:85-86 | a bare string `s` gives the same record as `{"name": s}`: its group name and `setName: s` |
| ConfigOptions.CellSetOptions | bin/build_config.py:85-107 | one cell set fails exactly when it has no string name or its checked score is not a string; otherwise it yields its record, or nothing when the check skips it |
| ConfigOptions.SetsOkAll | bin/build_config.py:84-107 | the loop runs without raising exactly when every cell set does |
| ConfigOptions.SetsStep | bin/build_config.py:84-107 | one more cell set adds its record at the end of the list, or nothing when it is skipped |
| ConfigOptions.SetEntriesUnchecked | bin/build_config.py:84-107 | without `check_exist`, there is one record per cell set |
| ConfigOptions.SetEntriesUncheckedAt | bin/build_config.py:84-107 | without `check_exist`, the `i`-th record is that of the `i`-th cell set, so the order follows the input |
| ConfigOptions.AppendCellSets | bin/build_config.py:84-107 | the loop fails exactly when some cell set does; otherwise it yields the records in input order |
| ConfigOptions.CellSetsOptions | bin/build_config.py:81-107 | the cell-sets options are the list of records, and an unusable `sets` value fails |
| ConfigOptions.MatrixEntriesMembers | bin/build_config.py:110-117 | an entry survives exactly when it is an input entry under `matrix`, `matrixGeneFilter` or `geneAlias` that passes the check |
| ConfigOptions.MatrixWhitelist | bin/build_config.py:111-117 | the surviving entries are whitelisted input entries with their values unchanged; without the check, they are all of those |
| ConfigOptions.MatrixEntriesFrom | bin/build_config.py:112-117 | every surviving entry is an input entry |
| ConfigOptions.ExpressionMatrixOptions | bin/build_config.py:109-117 | the expression-matrix options fail only when a checked whitelisted value is not a path string; otherwise they are the surviving entries in input order |
| ConfigOptions.BuildOptions | bin/build_config.py:33-119 | dispatch on the file type: the result is the options of the three Zarr types, or `None` exactly for any other type; it fails exactly when that type's builder does |
| RasterOptions.ImageNameShape | bin/build_config.py:140 | the layer name is a prefix of the file's basename and holds no `/` |
| RasterOptions.ImageNameDropsExtension | bin/build_config.py:140 | the layer name of `dir/stem.ext` is `stem` |
| RasterOptions.ChannelsRule | bin/build_config.py:141-148 | an image is a bitmask exactly when it is a `label` image without channel names, and then its channels are `["Labels"]`; every other image keeps its channel names or `[]` |
| RasterOptions.FlattenedMembers | bin/build_config.py:138-139 | the images visited are exactly the input images, each with its own type |
| RasterOptions.LayerAndEntryAt | bin/build_config.py:149-171 | the `i`-th render layer and the `i`-th image entry both describe the `i`-th image visited |
| RasterOptions.EntryNamesLayer | bin/build_config.py:149-154 | an image entry is named after its layer, has type `zarr`, and its URL ends in the image's basename |
| RasterOptions.ImageOptions | bin/build_config.py:140-171 | the layer name and the entry of one image |
| RasterOptions.AppendImages | bin/build_config.py:139-171 | the inner loop appends one layer and one entry per image of a type, in order |
| RasterOptions.BuildRasterOptions | bin/build_config.py:122-172 | the result is the raster record: one layer and one entry per image, in visiting order, and schema version `0.0.2` |
| Layout.RunEnd | bin/build_config.py:286 | the letter run from `j` ends at the first non-letter, and is non-empty when `s[j]` is a letter |
| Layout.MatchesAfter | bin/build_config.py:286 | every match found from `i` is a non-empty span that starts at or after `i` |
| Layout.MatchesAreRuns | bin/build_config.py:286 | every match is a maximal run of ASCII letters, and its group is the matched text |
| Layout.MatchesOrdered | bin/build_config.py:286 | matches do not overlap and come left to right |
| Layout.MatchesCover | bin/build_config.py:286 | every letter of the layout lies in some match |
| Layout.LetterRunsSpec | bin/build_config.py:286 | `finditer("[a-zA-Z]+")` yields exactly the maximal letter runs, in order |
| Layout.ReplacementsAt | bin/build_config.py:288-325 | the `k`-th replacement covers the `k`-th match, with the view reference of a kept component and `""` for a dropped one |
| Layout.ViewRefNonEmpty | bin/build_config.py:325 | a view reference is never the empty text of a dropped component |
| Layout.ViewRefInjective | bin/build_config.py:325 | different views get different references |
| Layout.ViewsPrefix | bin/build_config.py:324 | the views of a prefix of the matches are a prefix of the views |
| Layout.ViewNumbering | bin/build_config.py:324-325 | kept components are numbered `views[0]`, `views[1]`, … from left to right, and each reference points at that component's view |
| Layout.ViewsGetView | bin/build_config.py:287-324 | every view made is for a valid component whose data types and coordination types are present |
| Layout.EveryViewReferred | bin/build_config.py:324-325 | every view is referred to by some replacement |
| Layout.HasCoordination | bin/build_config.py:306-319 | the coordination loop finds a scope for every coordination type of the component, or stops at the first one without |
| Layout.DecideView | bin/build_config.py:287-322 | a component gets a view exactly when it is valid, a file has one of its data types, and all its coordination types have a scope |
| Layout.CollectViews | bin/build_config.py:285-325 | the matches loop builds `views` and `views_indx` as specified |
| Layout.SpliceableFromOrder | bin/build_config.py:328 | spans in increasing, non-overlapping order can be spliced |
| Layout.ReplaceFromGap | bin/build_config.py:328-329 | text between replacements is kept as it is |
| Layout.ReplaceFromIdentity | bin/build_config.py:328-329 | replacing each span by its own text leaves the layout unchanged |
| Layout.ReversedIsSortedDescending | bin/build_config.py:328 | visiting the replacements in reverse is sorting them by descending start, a permutation of them |
| Layout.ReversedMultiset | bin/build_config.py:328 | reversing the replacements keeps every one of them |
| Layout.SpliceStep | bin/build_config.py:329 | splicing the next span from the right keeps the earlier offsets valid, and extends the left-to-right reference result by one span |
| Layout.Splice | bin/build_config.py:328-329 | splicing right to left yields the same layout as replacing every original span from left to right |
| Layout.ReplacementsSpliceable | bin/build_config.py:285-329 | the spans of the matches can always be spliced |
| Layout.RewriteLayout | bin/build_config.py:285-329 | the two loops give the views made and the layout with every component replaced |
| Layout.AllKeptRewrite | bin/build_config.py:324-329 | a component that gets a view has its span replaced by the reference to its own view |
| Layout.RegisteredCoverViews | bin/build_config.py:304-325 | as written, `add_view` registers at least the views the layout refers to, and the two lists agree only when they are equal |
| Layout.UnreferencedViewAsWritten | bin/build_config.py:304-322 | as written, a component whose coordination type has no scope is dropped from the layout but its view stays registered |
| Config.OutputPathShape | bin/build_config.py:355 | the output file is named `title-dataset-suffix`, under `outdir` or bare without one |
| Config.PathsByNameSpec | bin/build_config.py:224 | a name is a key exactly when some path's last `-`-segment is that name, and it maps to the last such path |
| Config.FirstFound | bin/build_config.py:235-241 | the first candidate file name that was given, or `None` exactly when none was |
| Config.FindFile | bin/build_config.py:235-243 | the candidate loop with `break` finds the first given file name |
| Config.MappingsScoped | bin/build_config.py:250-258 | testing and iterating `file_options["mappings"]` either raises or tells whether a scope is made |
| Config.PartsScope | bin/build_config.py:250-261 | for cells options, a scope is made exactly when the mappings are non-empty |
| Config.CellsScopeIffMappings | bin/build_config.py:246-261 | a cells file makes an embedding-type scope exactly when some mapping was built |
| Config.FileOf | bin/build_config.py:243-270 | the added file has the data type, the file type and the URL `url` joined with the basename |
| Config.DataTypeStep | bin/build_config.py:234-271 | one data type adds at most its first found file, or raises |
| Config.AddedFiles | bin/build_config.py:234-271 | the whole `DATA_TYPES` loop stops at the first exception |
| Config.AddDataType | bin/build_config.py:235-271 | one pass of the loop is the step function |
| Config.AddedFilesErrStays | bin/build_config.py:234-271 | once an exception is raised, nothing later changes the outcome |
| Config.AddDataFiles | bin/build_config.py:234-271 | the loop over `DATA_TYPES` is the fold of the step function |
| Config.FoundTypesSpec | bin/build_config.py:234-243 | a data type gets a file exactly when one of its candidate names was given |
| Config.AddedFilesOrder | bin/build_config.py:234-271 | files are added in `DATA_TYPES` order, one per found data type, after the earlier ones; the data-type set is the data types found |
| Config.WriteJson | bin/build_config.py:215-329 | `write_json` up to the layout clean-up computes exactly the specification |
| Config.NoFilesIff | bin/build_config.py:273-274 | the script exits with "No files" exactly when nothing raised, no image was given and no data type found a file |
| Config.WrittenNames | bin/build_config.py:218 | the config name is `config_name`, or `title` when that is empty, and the output file's name is `title-dataset-suffix` |
| Config.AddedFilesUrls | bin/build_config.py:264-270 | every file added by the data-types loop has a URL |
| Config.WrittenFiles | bin/build_config.py:227-271 | the raster file comes first when images were given, then one file per found data type in order, each with a URL |
| Config.AddedDtsMatchFiles | bin/build_config.py:232-270 | the set of data types is exactly the data types of the files added |
| Config.ViewsHaveData | bin/build_config.py:295-325 | every view is for a component with a data type among the files added |
| UniqueNames.SuffixedInjective | bin/process_h5ad.py:32 | different counter values give different `name-<n>` names |
| UniqueNames.FreshName | bin/process_h5ad.py:32 | the counter for a name moves to the first value above where it stood (0 if unset) whose suffixed name is not taken; that name is returned and taken, and no other counter changes |
| UniqueNames.MakeIndexUnique | bin/process_h5ad.py:32 | the de-duplicated names keep their number, no name occurs twice, first occurrences stay, and every repeat becomes a fresh `name-<n>` |
| H5ad.CodesFollowOrder | bin/process_h5ad.py:39-40 | a label that sorts first gets a smaller category code |
| H5ad.CodesAgreeWithLabels | bin/process_h5ad.py:38-41 | two observations have equal new index values exactly when their labels are equal |
| H5ad.CodesBelowCategories | bin/process_h5ad.py:39-40 | every code is below the number of distinct labels |
| H5ad.RenamedIndexIsKept | bin/process_h5ad.py:35-41 | the renamed index is all numeric, so normalising again leaves it alone |
| H5ad.ObsDTypeTable | bin/process_h5ad.py:60-63 | int8 and int64 become int32, bool becomes category, every other dtype is kept, and coercing twice is coercing once |
| H5ad.CoercedObsSpec | bin/process_h5ad.py:55-63 | after the obs loop, every column and its values remain and no column is int8, int64 or bool; the loop is idempotent |
| H5ad.CoercedObsmSpec | bin/process_h5ad.py:65-69 | after the obsm loop, every entry is an array; int8, int64 and `spatial` entries are int32 and the others keep their dtype; the loop is idempotent |
| H5ad.EmbeddingsOnlyAdd | bin/process_h5ad.py:48-53 | existing obsm entries are never recomputed; with `compute_embeddings` both `X_pca` and `X_umap` exist afterwards, and without it obsm is unchanged |
| H5ad.AnnData.ReindexVar | bin/process_h5ad.py:28-31 | a var column named by `var_index` becomes the var index, and the old index becomes a column; a name clash raises `ValueError`; otherwise nothing changes |
| H5ad.AnnData.MakeVarNamesUnique | bin/process_h5ad.py:32 | the var names become unique as `make_index_unique` specifies; nothing else changes |
| H5ad.AnnData.NormaliseObsIndex | bin/process_h5ad.py:35-41 | an integer or all-numeric obs index is left untouched; any other is replaced by the text of its category codes, with the labels kept in `label_id` |
| H5ad.AnnData.ObsmToArrays | bin/process_h5ad.py:44-45 | every obsm entry becomes an array of the same dtype |
| H5ad.AnnData.ComputeEmbeddings | bin/process_h5ad.py:48-53 | the embedding step adds only the missing embeddings |
| H5ad.AnnData.CoerceObsDTypes | bin/process_h5ad.py:55-63 | the obs loop applies the coercion table to every column |
| H5ad.AnnData.CoerceObsmDTypes | bin/process_h5ad.py:65-69 | the obsm loop applies the obsm coercion to every entry |
| H5ad.AnnData.Densify | bin/process_h5ad.py:72-74 | `X` is dense afterwards |
| H5ad.AnnData.DropRaw | bin/process_h5ad.py:77 | `raw` is absent afterwards |
| H5ad.ZarrPath | bin/process_h5ad.py:79 | the path is one character longer than the stem plus `SUFFIX` |
| H5ad.ZarrPathShape | bin/process_h5ad.py:12-82 | the returned path is the stem followed by `_anndata.zarr`, so different stems give different paths |
| H5ad.EmptyDatasetIsReplaced | bin/process_h5ad.py:24-25 | a passed dataset with no observations is read from `file` as written, though it should be used |
| H5ad.AnnData.PrepareVar | bin/process_h5ad.py:27-32 | the var steps fail exactly on the `reset_index` name clash and then change nothing; otherwise the var index is the re-indexed one made unique, the columns are re-indexed, and obs, obsm, `X` and `raw` are unchanged |
| H5ad.AnnData.PrepareObs | bin/process_h5ad.py:34-78 | the obs index is kept or replaced by its codes with the labels in `label_id`; obs and obsm are the coerced old ones, obsm gaining only the embeddings; `X` is dense, `raw` is gone, and var is unchanged |
| H5ad.H5adToZarr | bin/process_h5ad.py:15-82 | the passed dataset, or else the one read, is prepared and the other is untouched; it fails exactly on the `reset_index` clash of `var_index`, leaving the dataset unchanged; on success the path is `stem_anndata.zarr` and the end state is stated field by field: unique re-indexed var names, the obs index kept or replaced by codes with `label_id`, coerced obs and obsm with only the embeddings added, a dense `X` and no `raw` |

## Left out

- Vitessce objects (`VitessceConfig`, `add_dataset`, `add_file`, `add_view`, `set_coordination_value`) are not modelled. A file is a record of its data type, file type, URL and options, and a view is the component name it is made for.
- Coordination scopes: only whether some embedding-type scope exists is modelled, which is what decides whether `next()` on the cycle succeeds. Which scope each view receives from the `cycle`/`chain` bookkeeping is not modelled.
- The regex clean-up of empty parentheses and stray operators (bin/build_config.py:332-337) is not modelled. It depends on PCRE recursion, so the model stops at the spliced layout.
- The `exec` of the layout expression (bin/build_config.py:340-344) and the `round` of grid coordinates (bin/build_config.py:347-350) are not modelled.
- Creating `outdir`, writing the JSON file and logging are not modelled. Only the output path is modelled.
- The `description` argument and the dataset's title and name passed to `add_dataset` are not modelled; they are copied through unchanged.
- The `constants` module is not part of this model. Its tables are parameters (`Config.Tables`), and the Vitessce enums are strings or the `FileType` datatype.
- `check_exist` is an `ExistCheck`: a flag plus a predicate on paths standing for `os.path.exists`. `write_json` calls `build_options` with it off (`Config.NoCheck`).
- Options whose values are floating-point numbers are not modelled. The JSON values are null, booleans, integers, strings, lists and dicts.
- `sc.read(file)` is I/O: its result is the `read` parameter of `H5ad.H5adToZarr`.
- `write_zarr` and `chunk_size` (bin/process_h5ad.py:80) are not modelled.
- `sc.tl.pca`, `sc.pp.neighbors` and `sc.tl.umap` only add their obsm entry (`X_pca` or `X_umap`). What they also store in `varm`, `obsp` and `uns`, and all numerics, are not modelled.
- The contents of `X` are not modelled: `X` is a flag saying whether it is an `spmatrix`.
- Column values are kept as text. `astype(str)` on the new var index (bin/process_h5ad.py:31) is therefore the identity.
- The position at which `reset_index` inserts the old index column is not modelled: columns are a map.
- H5ad.AnnData.ReindexVar: index names are strings or absent. A non-string name and a MultiIndex are not modelled.
- H5ad.AnnData.NormaliseObsIndex: an obs index is either integer-typed or of object dtype. Other index dtypes (float, categorical, datetime) are not modelled.
- PyStrings.IsNumeric: `str.isnumeric` is modelled on ASCII digits only. Other Unicode numeric characters are not modelled.
- PyStrings.StrLess: `pd.Categorical` sorts labels by code point, and the model compares characters by their code. Locale-aware ordering is not modelled.
- PyStrings.Upper, PyStrings.Capitalize: case mapping covers ASCII letters only. Python maps all of Unicode (`'ß'.upper() == 'SS'`), so `ConfigOptions.MappingKey` (bin/build_config.py:64) and `Config.GroupName` (bin/build_config.py:97-99) differ from the source on names with non-ASCII letters.
- RasterOptions.Image: an image record always has `path` and `md`, and `channel_names` is either absent or a list. The `KeyError` for a missing `path` or `md`, and the `TypeError` that `len(None)` raises for a label image whose `channel_names` is null (bin/build_config.py:140-147), are not modelled.
- Integer widths are not modelled: int32 is a dtype tag, and values are not truncated.

## Findings

| source | as written | input that shows it | evidently intended | confidence | as-written member | corrected member |
|---|---|---|---|---|---|---|
| bin/process_h5ad.py:24-25 | `if not adata:` tests the dataset's truth value. An AnnData's length is its number of observations, so a dataset with no observations counts as absent. | `h5ad_to_zarr(adata=<AnnData with 0 observations>)`: the passed dataset is dropped for `sc.read(None)`. | Read the file only when no dataset was passed (`if adata is None:`). | medium, not executed | H5ad.ReadsFileAsWritten, H5ad.EmptyDatasetIsReplaced | H5ad.ReadsFile, H5ad.H5adToZarr |
| bin/build_config.py:304-322 | `config.add_view` is called before the coordination types are checked. A component dropped for want of a coordination scope leaves its view registered in the config. | A `layout` naming a component whose coordination type has no scope: the component is removed from the layout string, but `config.views` still holds a view for it that no cell of the layout refers to. | Add the view only once the component is known to be kept, so that every registered view is referenced by the layout. | medium, not executed | Layout.RegisteredViews, Layout.UnreferencedViewAsWritten | Layout.CollectViews, Layout.EveryViewReferred |
