/**
 * `build_raster_options` of bin/build_config.py: the `raster.json` options that list
 * every image of the dataset as a Zarr image layer.
 */
module RasterOptions {
  import opened Wrappers
  import opened Json
  import opened Paths

  /**
   * One image descriptor: its file path and, when its metadata has one, its
   * `channel_names` list.
   */
  datatype Image = Image(path: string, channelNames: Option<seq<string>>)

  /** The images of each type (`raw`, `label`), in the insertion order of the dict. */
  type Images = seq<(string, seq<Image>)>

  /** An image together with the type key it was listed under. */
  type TypedImage = (string, Image)

  /** `os.path.splitext(os.path.basename(img["path"]))[0]`. */
  function ImageName(img: Image): string {
    SplitExtRoot(Basename(img.path))
  }

  /** The layer name is a prefix of the file name and holds no `/`. */
  lemma ImageNameShape(img: Image)
    ensures var b := Basename(img.path);
      |ImageName(img)| <= |b| && b[..|ImageName(img)|] == ImageName(img) && '/' !in ImageName(img)
  {
    var b := Basename(img.path);
    SplitExtRootIsPrefix(b);
    BasenameNoSlash(img.path);
    var n := ImageName(img);
    forall k | 0 <= k < |n| ensures n[k] != '/' {
      assert n[k] == b[k];
    }
  }

  /** A file `stem.ext` gives the layer name `stem`, and a file without a dot its whole name. */
  lemma ImageNameDropsExtension(dir: string, stem: string, ext: string)
    requires '/' !in stem && '/' !in ext && '.' !in ext
    requires exists k :: 0 <= k < |stem| && stem[k] != '.'
    ensures ImageName(Image(PathJoin(dir, stem + "." + ext), None)) == stem
  {
    var file := stem + "." + ext;
    assert forall k :: 0 <= k < |file| && file[k] == '/' ==> false by {
      forall k | 0 <= k < |file| ensures file[k] != '/' {
        if k < |stem| {
          assert file[k] == stem[k];
        } else if k > |stem| {
          assert file[k] == ext[k - |stem| - 1];
        }
      }
    }
    BasenameOfJoin(dir, file);
    SplitExtRootDropsExtension(stem, ext);
  }

  /** The channel names and bitmask flag: a `label` image without channel names is a bitmask of one "Labels" channel. */
  function Channels(imgType: string, img: Image): (seq<string>, bool) {
    var names := img.channelNames.GetOr([]);
    if imgType == "label" && |names| == 0 then (["Labels"], true) else (names, false)
  }

  /** A `label` image always has a channel; only a `label` image without channel names is a bitmask. */
  lemma ChannelsRule(imgType: string, img: Image)
    ensures Channels(imgType, img).1 <==> imgType == "label" && img.channelNames.GetOr([]) == []
    ensures Channels(imgType, img).1 ==> Channels(imgType, img).0 == ["Labels"]
    ensures !Channels(imgType, img).1 ==> Channels(imgType, img).0 == img.channelNames.GetOr([])
    ensures imgType == "label" ==> |Channels(imgType, img).0| >= 1
  {
  }

  function Strs(xs: seq<string>): (r: seq<Json>)
    ensures |r| == |xs| && forall i :: 0 <= i < |xs| ==> r[i] == Str(xs[i])
  {
    if xs == [] then [] else [Str(xs[0])] + Strs(xs[1..])
  }

  /** One axis of the image's `dimensions`. */
  function Dimension(field: string, kind: string, values: Json): Json {
    Object([("field", Str(field)), ("type", Str(kind)), ("values", values)])
  }

  /** The `images` entry literal for a layer `name` served at `fileUrl` with the given channels. */
  function EntryOf(name: string, fileUrl: string, channels: seq<string>, isBitmask: bool): Json {
    Object([
      ("name", Str(name)),
      ("url", Str(fileUrl)),
      ("type", Str("zarr")),
      ("metadata", Object([
        ("isBitmask", Bool(isBitmask)),
        ("dimensions", List([
          Dimension("t", "quantitative", Null),
          Dimension("channel", "nominal", List(Strs(channels))),
          Dimension("y", "quantitative", Null),
          Dimension("x", "quantitative", Null)])),
        ("isPyramid", Bool(true)),
        ("transform", Object([
          ("translate", Object([("y", Int(0)), ("x", Int(0))])),
          ("scale", Int(1))]))]))])
  }

  /** The `images` entry of one image. */
  function ImageEntry(imgType: string, img: Image, url: string): Json {
    var (channels, isBitmask) := Channels(imgType, img);
    EntryOf(ImageName(img), PathJoin(url, Basename(img.path)), channels, isBitmask)
  }

  /** The images of one type, each tagged with that type. */
  function Tagged(imgType: string, imgs: seq<Image>): (r: seq<TypedImage>)
    ensures |r| == |imgs|
  {
    if imgs == [] then [] else Tagged(imgType, imgs[..|imgs| - 1]) + [(imgType, imgs[|imgs| - 1])]
  }

  lemma {:induction false} TaggedAt(imgType: string, imgs: seq<Image>, i: nat)
    requires i < |imgs|
    ensures Tagged(imgType, imgs)[i] == (imgType, imgs[i])
  {
    if i < |imgs| - 1 {
      TaggedAt(imgType, imgs[..|imgs| - 1], i);
    }
  }

  /** All images in the order the two loops visit them: type by type, then image by image. */
  function Flattened(images: Images): seq<TypedImage> {
    if images == [] then []
    else Flattened(images[..|images| - 1]) + Tagged(images[|images| - 1].0, images[|images| - 1].1)
  }

  /** The flattened list holds exactly the images of the input, each with its own type. */
  lemma {:induction false} FlattenedMembers(images: Images, ti: TypedImage)
    ensures ti in Flattened(images) <==>
      exists t, j :: 0 <= t < |images| && 0 <= j < |images[t].1| && ti == (images[t].0, images[t].1[j])
  {
    if images != [] {
      var n := |images| - 1;
      var init := images[..n];
      FlattenedMembers(init, ti);
      var tg := Tagged(images[n].0, images[n].1);
      assert ti in Flattened(images) <==> ti in Flattened(init) || ti in tg;
      if ti in tg {
        var j :| 0 <= j < |tg| && tg[j] == ti;
        TaggedAt(images[n].0, images[n].1, j);
      }
      if exists t, j :: 0 <= t < |images| && 0 <= j < |images[t].1| && ti == (images[t].0, images[t].1[j]) {
        var t, j :| 0 <= t < |images| && 0 <= j < |images[t].1| && ti == (images[t].0, images[t].1[j]);
        if t == n {
          TaggedAt(images[n].0, images[n].1, j);
          assert tg[j] == ti;
        } else {
          assert init[t] == images[t];
        }
      }
      if ti in Flattened(init) {
        var t, j :| 0 <= t < |init| && 0 <= j < |init[t].1| && ti == (init[t].0, init[t].1[j]);
        assert images[t] == init[t];
      }
    }
  }

  /** The `renderLayers` list: one layer name per image. */
  function Layers(fl: seq<TypedImage>): (r: seq<Json>)
    ensures |r| == |fl|
  {
    if fl == [] then [] else Layers(fl[..|fl| - 1]) + [Str(ImageName(fl[|fl| - 1].1))]
  }

  /** The `images` list: one entry per image. */
  function Entries(fl: seq<TypedImage>, url: string): (r: seq<Json>)
    ensures |r| == |fl|
  {
    if fl == [] then [] else Entries(fl[..|fl| - 1], url) + [ImageEntry(fl[|fl| - 1].0, fl[|fl| - 1].1, url)]
  }

  /** The raster options of the images. */
  function RasterValue(images: Images, url: string): Json {
    var fl := Flattened(images);
    Object([("renderLayers", List(Layers(fl))), ("schemaVersion", Str("0.0.2")), ("images", List(Entries(fl, url)))])
  }

  /** The `i`-th layer and the `i`-th image entry both describe the `i`-th image visited. */
  lemma {:induction false} LayerAndEntryAt(fl: seq<TypedImage>, url: string, i: nat)
    requires i < |fl|
    ensures Layers(fl)[i] == Str(ImageName(fl[i].1))
    ensures Entries(fl, url)[i] == ImageEntry(fl[i].0, fl[i].1, url)
  {
    if i < |fl| - 1 {
      LayerAndEntryAt(fl[..|fl| - 1], url, i);
    }
  }

  /** An image entry is named after the image's layer, is of type "zarr", and its URL ends in the image's file name. */
  lemma EntryNamesLayer(imgType: string, img: Image, url: string)
    ensures var e := ImageEntry(imgType, img, url).fields;
      && Get(e, "name") == Some(Str(ImageName(img)))
      && Get(e, "type") == Some(Str("zarr"))
      && Get(e, "url").Some? && Get(e, "url").value.Str?
      && Basename(Get(e, "url").value.s) == Basename(img.path)
  {
    var e := ImageEntry(imgType, img, url).fields;
    assert Get(e[1..], "url") == Some(e[1].1);
    assert Get(e[2..], "type") == Some(e[2].1);
    assert Get(e[1..], "type") == Get(e[2..], "type");
    BasenameNoSlash(img.path);
    BasenameOfJoin(url, Basename(img.path));
  }

  /** The layer name and `images` entry of one image: one pass of the inner loop. */
  method ImageOptions(imgType: string, img: Image, url: string) returns (imageName: string, entry: Json)
    ensures imageName == ImageName(img)
    ensures entry == ImageEntry(imgType, img, url)
  {
    imageName := SplitExtRoot(Basename(img.path));
    var channelNames := img.channelNames.GetOr([]);
    var isBitmask := false;
    if imgType == "label" && |channelNames| == 0 {
      channelNames, isBitmask := ["Labels"], true;
    }
    entry := EntryOf(imageName, PathJoin(url, Basename(img.path)), channelNames, isBitmask);
  }

  /** Visiting one more image appends its layer and its entry. */
  lemma VisitStep(imgType: string, imgs: seq<Image>, i: nat, before: seq<TypedImage>, url: string)
    requires i < |imgs|
    ensures before + Tagged(imgType, imgs[..i + 1]) == before + Tagged(imgType, imgs[..i]) + [(imgType, imgs[i])]
    ensures var done := before + Tagged(imgType, imgs[..i]);
      && Layers(done + [(imgType, imgs[i])]) == Layers(done) + [Str(ImageName(imgs[i]))]
      && Entries(done + [(imgType, imgs[i])], url) == Entries(done, url) + [ImageEntry(imgType, imgs[i], url)]
  {
    assert imgs[..i + 1][..i] == imgs[..i];
    var done := before + Tagged(imgType, imgs[..i]);
    assert (done + [(imgType, imgs[i])])[..|done|] == done;
  }

  /**
   * The inner loop: appends the layer and entry of each image of one type to the lists
   * built so far for the images `before`.
   */
  method AppendImages(imgType: string, imgs: seq<Image>, url: string, ghost before: seq<TypedImage>,
                      layers0: seq<Json>, entries0: seq<Json>)
    returns (renderLayers: seq<Json>, imageEntries: seq<Json>)
    requires layers0 == Layers(before) && entries0 == Entries(before, url)
    ensures renderLayers == Layers(before + Tagged(imgType, imgs))
    ensures imageEntries == Entries(before + Tagged(imgType, imgs), url)
  {
    renderLayers, imageEntries := layers0, entries0;
    ghost var done := before;
    var i := 0;
    while i < |imgs|
      invariant 0 <= i <= |imgs|
      invariant done == before + Tagged(imgType, imgs[..i])
      invariant renderLayers == Layers(done)
      invariant imageEntries == Entries(done, url)
    {
      var img := imgs[i];
      var imageName, entry := ImageOptions(imgType, img, url);
      renderLayers := renderLayers + [Str(imageName)];
      imageEntries := imageEntries + [entry];
      VisitStep(imgType, imgs, i, before, url);
      done := done + [(imgType, img)];
      i := i + 1;
    }
    assert imgs[..i] == imgs;
  }

  /** `build_raster_options(images, url)`. */
  method BuildRasterOptions(images: Images, url: string) returns (r: Json)
    ensures r == RasterValue(images, url)
  {
    var renderLayers: seq<Json> := [];
    var imageEntries: seq<Json> := [];
    var t := 0;
    while t < |images|
      invariant 0 <= t <= |images|
      invariant renderLayers == Layers(Flattened(images[..t]))
      invariant imageEntries == Entries(Flattened(images[..t]), url)
    {
      var (imgType, imgs) := images[t];
      assert images[..t + 1][..t] == images[..t];
      renderLayers, imageEntries := AppendImages(imgType, imgs, url, Flattened(images[..t]), renderLayers, imageEntries);
      t := t + 1;
    }
    assert images[..t] == images;
    return Object([("renderLayers", List(renderLayers)), ("schemaVersion", Str("0.0.2")), ("images", List(imageEntries))]);
  }
}
