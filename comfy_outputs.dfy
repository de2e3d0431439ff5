/**
 * What the ComfyUI scripts do with a finished job's history: which output
 * items they download and with which `/view` query parameters. This module
 * also holds the small rules around a job: the MIME type and the display
 * extension of a result, the prompt assembled from extra keyword
 * arguments, the positive-prompt fallback, the data-URL strip of an
 * upload, and the audio upload size gate.
 *
 * The HTTP download itself, the base64 codec and the HTML built from the
 * results are not part of this model. An item's download is what the
 * model records.
 */
module ComfyOutputs {
  import opened Common

  // ---------------------------------------------------------------------------
  // Collecting the outputs of a job

  /** One entry of an output list: `filename` is required (`info["filename"]`),
      `subfolder` and `type` are read with `.get`. */
  datatype MediaInfo = MediaInfo(filename: Option<string>, subfolder: Option<string>, mediaType: Option<string>)

  /** One output node of `history[prompt_id]["outputs"]`, in dictionary order:
      a media key (`"images"`, `"videos"`, `"audio"`, ...) to its list. */
  datatype NodeOutput = NodeOutput(nodeId: string, media: map<string, seq<MediaInfo>>)

  /** One media item reached by the collection loops, with where it was found. */
  datatype Item = Item(nodeId: string, key: string, info: MediaInfo)

  /** The names of the `/view` query parameters. */
  datatype Param = FileName | Subfolder | Kind

  /** One download: the `/view` query parameters and where the item was found. */
  datatype Download = Download(params: map<Param, string>, nodeId: string, key: string)

  /** The node filter of a loop: every node, or only the one with this id. */
  predicate Admits(only: Option<string>, o: NodeOutput) {
    only.None? || only.value == o.nodeId
  }

  /** The items of `key` in one node, in list order. */
  function KeyItems(o: NodeOutput, key: string): seq<Item> {
    if key in o.media then seq(|o.media[key]|, i requires 0 <= i < |o.media[key]| => Item(o.nodeId, key, o.media[key][i]))
    else []
  }

  /** The items of one node, key by key in the order the loop lists the keys. */
  function NodeItems(o: NodeOutput, keys: seq<string>): seq<Item>
    decreases |keys|
  {
    if keys == [] then [] else NodeItems(o, keys[..|keys| - 1]) + KeyItems(o, keys[|keys| - 1])
  }

  /** Every item the nested loops visit, in visiting order. */
  function Items(outputs: seq<NodeOutput>, keys: seq<string>, only: Option<string>): seq<Item>
    decreases |outputs|
  {
    if outputs == [] then []
    else
      var o := outputs[|outputs| - 1];
      Items(outputs[..|outputs| - 1], keys, only) + (if Admits(only, o) then NodeItems(o, keys) else [])
  }

  predicate HasFilename(it: Item) {
    it.info.filename.Some?
  }

  /** The `/view` parameters of one item: `filename`, `type` defaulting to
      `"output"`, and `subfolder` only when it is present and non-empty. */
  function ViewParams(info: MediaInfo): (params: map<Param, string>)
    requires info.filename.Some?
    ensures FileName in params && params[FileName] == info.filename.value
    ensures Kind in params && params[Kind] == (if info.mediaType.Some? then info.mediaType.value else "output")
    ensures Subfolder in params <==> Truthy(info.subfolder)
    ensures Subfolder in params ==> params[Subfolder] == info.subfolder.value
  {
    var base := map[FileName := info.filename.value,
                     Kind := if info.mediaType.Some? then info.mediaType.value else "output"];
    if Truthy(info.subfolder) then base[Subfolder := info.subfolder.value] else base
  }

  predicate AllHaveFilename(items: seq<Item>) {
    forall i :: 0 <= i < |items| ==> HasFilename(items[i])
  }

  /** One download per item, in order. */
  function Downloads(items: seq<Item>): (ds: seq<Download>)
    requires AllHaveFilename(items)
    decreases |items|
  {
    if items == [] then []
    else
      var it := items[|items| - 1];
      Downloads(items[..|items| - 1]) + [Download(ViewParams(it.info), it.nodeId, it.key)]
  }

  /** Each item yields exactly one download, at the same position, carrying
      the item's node id, media key and `/view` parameters. */
  lemma {:induction false} DownloadsPointwise(items: seq<Item>)
    requires AllHaveFilename(items)
    ensures |Downloads(items)| == |items|
    ensures forall i :: 0 <= i < |items| ==>
              Downloads(items)[i] == Download(ViewParams(items[i].info), items[i].nodeId, items[i].key)
    decreases |items|
  {
    if items != [] {
      var init := items[..|items| - 1];
      DownloadsPointwise(init);
    }
  }

  lemma DownloadsSnoc(items: seq<Item>, it: Item)
    requires AllHaveFilename(items) && HasFilename(it)
    ensures AllHaveFilename(items + [it])
    ensures Downloads(items + [it]) == Downloads(items) + [Download(ViewParams(it.info), it.nodeId, it.key)]
  {
    assert (items + [it])[..|items|] == items;
  }

  lemma {:induction false} DownloadsAppend(a: seq<Item>, b: seq<Item>)
    requires AllHaveFilename(a) && AllHaveFilename(b)
    ensures AllHaveFilename(a + b)
    ensures Downloads(a + b) == Downloads(a) + Downloads(b)
    decreases |b|
  {
    assert AllHaveFilename(a + b) by {
      forall i | 0 <= i < |a + b|
        ensures HasFilename((a + b)[i])
      {
        if i < |a| {
          assert (a + b)[i] == a[i];
        } else {
          assert (a + b)[i] == b[i - |a|];
        }
      }
    }
    if b == [] {
      assert a + b == a;
    } else {
      var init := b[..|b| - 1];
      assert AllHaveFilename(init) by {
        forall i | 0 <= i < |init|
          ensures HasFilename(init[i])
        {
          assert init[i] == b[i];
        }
      }
      assert (a + b)[..|a + b| - 1] == a + init;
      assert (a + b)[|a + b| - 1] == b[|b| - 1];
      DownloadsAppend(a, init);
    }
  }

  /** The error a collection loop stops with: a missing `filename` key. */
  const KeyErrorFilename: string := "KeyError: 'filename'"

  /** `it` is an entry of node `o`'s list under one of `keys`. */
  predicate ListedIn(it: Item, o: NodeOutput, keys: seq<string>) {
    it.nodeId == o.nodeId && it.key in keys && it.key in o.media && it.info in o.media[it.key]
  }

  /** Which items the loops reach: exactly the entries listed under one of
      the keys in an admitted node. */
  lemma {:induction false} ItemsMembership(outputs: seq<NodeOutput>, keys: seq<string>, only: Option<string>, it: Item)
    ensures it in Items(outputs, keys, only) <==>
            exists j :: 0 <= j < |outputs| && Admits(only, outputs[j]) && ListedIn(it, outputs[j], keys)
    decreases |outputs|
  {
    if outputs != [] {
      var init := outputs[..|outputs| - 1];
      var o := outputs[|outputs| - 1];
      ItemsMembership(init, keys, only, it);
      NodeItemsMembership(o, keys, it);
      if it in Items(init, keys, only) {
        var j :| 0 <= j < |init| && Admits(only, init[j]) && ListedIn(it, init[j], keys);
        assert outputs[j] == init[j];
      }
      if exists j :: 0 <= j < |outputs| && Admits(only, outputs[j]) && ListedIn(it, outputs[j], keys) {
        var j :| 0 <= j < |outputs| && Admits(only, outputs[j]) && ListedIn(it, outputs[j], keys);
        if j < |init| {
          assert init[j] == outputs[j];
        }
      }
    }
  }

  lemma {:induction false} NodeItemsMembership(o: NodeOutput, keys: seq<string>, it: Item)
    ensures it in NodeItems(o, keys) <==> ListedIn(it, o, keys)
    decreases |keys|
  {
    if keys != [] {
      var init := keys[..|keys| - 1];
      var k := keys[|keys| - 1];
      NodeItemsMembership(o, init, it);
      assert keys == init + [k];
      if it in KeyItems(o, k) {
        var i :| 0 <= i < |KeyItems(o, k)| && KeyItems(o, k)[i] == it;
        assert it.info == o.media[k][i];
      }
      if it.nodeId == o.nodeId && it.key == k && k in o.media && it.info in o.media[k] {
        var i :| 0 <= i < |o.media[k]| && o.media[k][i] == it.info;
        assert KeyItems(o, k)[i] == it;
      }
    }
  }

  /** An item without a `filename` anywhere in a list spoils the whole list. */
  lemma MissingFilename(items: seq<Item>, it: Item)
    requires it in items && !HasFilename(it)
    ensures !AllHaveFilename(items)
  {
    var i :| 0 <= i < |items| && items[i] == it;
  }

  /** The items of the first `j + 1` nodes: those of the first `j`, then
      those of node `j` if it is admitted. */
  lemma ItemsSnoc(outputs: seq<NodeOutput>, keys: seq<string>, only: Option<string>, j: int)
    requires 0 <= j < |outputs|
    ensures Items(outputs[..j + 1], keys, only)
            == Items(outputs[..j], keys, only) + (if Admits(only, outputs[j]) then NodeItems(outputs[j], keys) else [])
  {
    assert outputs[..j + 1][..j] == outputs[..j];
  }

  /** A missing `filename` under one key is missing from the node's items. */
  lemma KeyMissingSpoilsNode(o: NodeOutput, keys: seq<string>, k: int)
    requires 0 <= k < |keys| && !AllHaveFilename(KeyItems(o, keys[k]))
    ensures !AllHaveFilename(NodeItems(o, keys))
  {
    var i :| 0 <= i < |KeyItems(o, keys[k])| && !HasFilename(KeyItems(o, keys[k])[i]);
    var it := KeyItems(o, keys[k])[i];
    NodeItemsMembership(o, keys, it);
    MissingFilename(NodeItems(o, keys), it);
  }

  /** A missing `filename` in an admitted node is missing from all the items. */
  lemma NodeMissingSpoilsAll(outputs: seq<NodeOutput>, keys: seq<string>, only: Option<string>, j: int)
    requires 0 <= j < |outputs| && Admits(only, outputs[j])
    requires !AllHaveFilename(NodeItems(outputs[j], keys))
    ensures !AllHaveFilename(Items(outputs, keys, only))
  {
    var o := outputs[j];
    var i :| 0 <= i < |NodeItems(o, keys)| && !HasFilename(NodeItems(o, keys)[i]);
    var it := NodeItems(o, keys)[i];
    NodeItemsMembership(o, keys, it);
    ItemsMembership(outputs, keys, only, it);
    MissingFilename(Items(outputs, keys, only), it);
  }

  /** The nested loops of the scripts: every admitted node, every key in
      order, every item of the key's list; each item yields its download,
      and the first item without a `filename` ends the loop with a KeyError. */
  method CollectDownloads(outputs: seq<NodeOutput>, keys: seq<string>, only: Option<string>)
    returns (r: Result<seq<Download>>)
    ensures r.Ok? <==> AllHaveFilename(Items(outputs, keys, only))
    ensures r.Ok? ==> r.value == Downloads(Items(outputs, keys, only))
  {
    var saved: seq<Download> := [];
    var j := 0;
    while j < |outputs|
      invariant 0 <= j <= |outputs|
      invariant AllHaveFilename(Items(outputs[..j], keys, only))
      invariant saved == Downloads(Items(outputs[..j], keys, only))
    {
      var o := outputs[j];
      ghost var done := Items(outputs[..j], keys, only);
      ItemsSnoc(outputs, keys, only, j);
      if Admits(only, o) {
        var nodeSaved := CollectNode(o, keys);
        if nodeSaved.Err? {
          NodeMissingSpoilsAll(outputs, keys, only, j);
          return Err(KeyErrorFilename);
        }
        DownloadsAppend(done, NodeItems(o, keys));
        saved := saved + nodeSaved.value;
      } else {
        assert done + [] == done;
      }
      j := j + 1;
    }
    assert outputs[..|outputs|] == outputs;
    return Ok(saved);
  }

  /** The loop over one node's keys. */
  method CollectNode(o: NodeOutput, keys: seq<string>) returns (r: Result<seq<Download>>)
    ensures r.Ok? <==> AllHaveFilename(NodeItems(o, keys))
    ensures r.Ok? ==> r.value == Downloads(NodeItems(o, keys))
  {
    var saved: seq<Download> := [];
    var k := 0;
    while k < |keys|
      invariant 0 <= k <= |keys|
      invariant AllHaveFilename(NodeItems(o, keys[..k]))
      invariant saved == Downloads(NodeItems(o, keys[..k]))
    {
      var key := keys[k];
      ghost var done := NodeItems(o, keys[..k]);
      assert keys[..k + 1][..k] == keys[..k];
      assert NodeItems(o, keys[..k + 1]) == done + KeyItems(o, key);
      var keySaved := CollectKey(o, key);
      if keySaved.Err? {
        KeyMissingSpoilsNode(o, keys, k);
        return Err(KeyErrorFilename);
      }
      DownloadsAppend(done, KeyItems(o, key));
      saved := saved + keySaved.value;
      k := k + 1;
    }
    assert keys[..|keys|] == keys;
    return Ok(saved);
  }

  /** The loop over the item list of one key of one node. */
  method CollectKey(o: NodeOutput, key: string) returns (r: Result<seq<Download>>)
    ensures r.Ok? <==> AllHaveFilename(KeyItems(o, key))
    ensures r.Ok? ==> r.value == Downloads(KeyItems(o, key))
  {
    if key !in o.media {
      return Ok([]);
    }
    var list := o.media[key];
    ghost var items := KeyItems(o, key);
    assert |items| == |list|;
    var saved: seq<Download> := [];
    var m := 0;
    while m < |list|
      invariant 0 <= m <= |list|
      invariant AllHaveFilename(items[..m])
      invariant saved == Downloads(items[..m])
    {
      var info := list[m];
      assert items[m] == Item(o.nodeId, key, info);
      if info.filename.None? {
        return Err(KeyErrorFilename);
      }
      assert items[..m + 1] == items[..m] + [items[m]];
      DownloadsSnoc(items[..m], items[m]);
      saved := saved + [Download(ViewParams(info), o.nodeId, key)];
      m := m + 1;
    }
    assert items[..m] == items;
    return Ok(saved);
  }

  /** The keys the video scripts look under. */
  const VideoKeys: seq<string> := ["videos", "gifs", "images"]

  /** `saved_videos` of frames_to_video and create_video_with_image. */
  method CollectVideos(outputs: seq<NodeOutput>) returns (r: Result<seq<Download>>)
    ensures r.Ok? <==> AllHaveFilename(Items(outputs, VideoKeys, None))
    ensures r.Ok? ==> r.value == Downloads(Items(outputs, VideoKeys, None))
  {
    r := CollectDownloads(outputs, VideoKeys, None);
  }

  /** `saved_audios` of create_audio_with_voice: the `"audio"` lists only. */
  method CollectAudio(outputs: seq<NodeOutput>) returns (r: Result<seq<Download>>)
    ensures r.Ok? <==> AllHaveFilename(Items(outputs, ["audio"], None))
    ensures r.Ok? ==> r.value == Downloads(Items(outputs, ["audio"], None))
  {
    r := CollectDownloads(outputs, ["audio"], None);
  }

  /** `saved_images` of upscale_image_default: the images of node `"48"` only. */
  method CollectUpscaled(outputs: seq<NodeOutput>) returns (r: Result<seq<Download>>)
    ensures r.Ok? <==> AllHaveFilename(Items(outputs, ["images"], Some("48")))
    ensures r.Ok? ==> r.value == Downloads(Items(outputs, ["images"], Some("48")))
  {
    r := CollectDownloads(outputs, ["images"], Some("48"));
  }

  /** `saved_files` of qwen_image_edit: an empty `outputs` stops the handler
      before the loop (`stopped`); otherwise the `"images"` lists of every node. */
  method CollectEditedImages(outputs: seq<NodeOutput>) returns (stopped: bool, r: Result<seq<Download>>)
    ensures stopped <==> outputs == []
    ensures stopped ==> r == Ok([])
    ensures !stopped ==> (r.Ok? <==> AllHaveFilename(Items(outputs, ["images"], None)))
    ensures !stopped && r.Ok? ==> r.value == Downloads(Items(outputs, ["images"], None))
  {
    if outputs == [] {
      return true, Ok([]);
    }
    stopped := false;
    r := CollectDownloads(outputs, ["images"], None);
  }

  /** The upscaler downloads nothing from any node but `"48"`, and only its images. */
  lemma UpscaleOnlyNode48(outputs: seq<NodeOutput>)
    ensures forall it :: it in Items(outputs, ["images"], Some("48")) ==> it.nodeId == "48" && it.key == "images"
  {
    forall it | it in Items(outputs, ["images"], Some("48"))
      ensures it.nodeId == "48" && it.key == "images"
    {
      ItemsMembership(outputs, ["images"], Some("48"), it);
    }
  }

  /** Every image of node `"48"` is reached by the upscaler's loop. */
  lemma UpscaleTakesAllOfNode48(outputs: seq<NodeOutput>, j: int, info: MediaInfo)
    requires 0 <= j < |outputs| && outputs[j].nodeId == "48"
    requires "images" in outputs[j].media && info in outputs[j].media["images"]
    ensures Item("48", "images", info) in Items(outputs, ["images"], Some("48"))
  {
    ItemsMembership(outputs, ["images"], Some("48"), Item("48", "images", info));
  }

  // ---------------------------------------------------------------------------
  // MIME types and extensions

  /** `name.split('.')[-1].lower()`: the text after the last dot, lower-cased;
      a name without a dot is taken whole. */
  function DotSuffix(name: string): (r: string)
    ensures '.' !in r
  {
    var piece := LastPiece(name, '.');
    assert forall i :: 0 <= i < |piece| ==> Lower(piece)[i] == '.' ==> piece[i] == '.';
    Lower(piece)
  }

  /** The `<video>` MIME type of a result file. */
  function VideoMime(name: string): (r: string)
    ensures r == "video/mp4" || r == "video/webm" || r == "video/ogg"
    ensures r == "video/" + DotSuffix(name) || (r == "video/mp4" && DotSuffix(name) !in ["mp4", "webm", "ogg"])
  {
    var ext := DotSuffix(name);
    "video/" + (if ext in ["mp4", "webm", "ogg"] then ext else "mp4")
  }

  /** The `<audio>` MIME type of a result file. */
  function AudioMime(name: string): (r: string)
    ensures r == "audio/mp3" || r == "audio/wav" || r == "audio/ogg" || r == "audio/webm" || r == "audio/mpeg"
    ensures r == "audio/" + DotSuffix(name) || (r == "audio/mpeg" && DotSuffix(name) !in ["mp3", "wav", "ogg", "webm"])
  {
    var ext := DotSuffix(name);
    "audio/" + (if ext in ["mp3", "wav", "ogg", "webm"] then ext else "mpeg")
  }

  /** A known extension after the last dot gives its own MIME type. */
  lemma VideoMimeKnown(stem: string, ext: string)
    requires ext in ["mp4", "webm", "ogg"]
    ensures VideoMime(stem + ['.'] + ext) == "video/" + ext
  {
    LastPieceOf(stem, ext, '.');
    LowerNoCapitals(ext);
  }

  /** Any other extension gives `video/mp4`; so does a name without a dot
      that is not itself one of the known extensions. */
  lemma VideoMimeDefault(stem: string, ext: string)
    requires '.' !in ext && Lower(ext) !in ["mp4", "webm", "ogg"]
    ensures VideoMime(stem + ['.'] + ext) == "video/mp4"
    ensures '.' !in stem && Lower(stem) !in ["mp4", "webm", "ogg"] ==> VideoMime(stem) == "video/mp4"
  {
    LastPieceOf(stem, ext, '.');
    LastPieceIsSuffix(stem, '.');
  }

  lemma AudioMimeKnown(stem: string, ext: string)
    requires ext in ["mp3", "wav", "ogg", "webm"]
    ensures AudioMime(stem + ['.'] + ext) == "audio/" + ext
  {
    LastPieceOf(stem, ext, '.');
    LowerNoCapitals(ext);
  }

  lemma AudioMimeDefault(stem: string, ext: string)
    requires '.' !in ext && Lower(ext) !in ["mp3", "wav", "ogg", "webm"]
    ensures AudioMime(stem + ['.'] + ext) == "audio/mpeg"
  {
    LastPieceOf(stem, ext, '.');
  }

  /** The separators `os.path` recognises on Windows. */
  predicate IsPathSep(c: char) {
    c == '/' || c == '\\'
  }

  /** The last path component: the text after the last separator. */
  function BaseName(path: string): (r: string)
    ensures |r| <= |path| && r == path[|path| - |r|..]
    ensures forall i :: 0 <= i < |r| ==> !IsPathSep(r[i])
    decreases |path|
  {
    if path == [] || IsPathSep(path[|path| - 1]) then []
    else BaseName(path[..|path| - 1]) + [path[|path| - 1]]
  }

  predicate AllDots(s: string) {
    forall i :: 0 <= i < |s| ==> s[i] == '.'
  }

  /** The extension of a last path component: the text after its last dot,
      provided some character other than a dot comes before that dot. */
  function BaseExt(base: string): (ext: string)
    ensures '.' !in ext
  {
    if '.' !in base then ""
    else
      var tail := LastPiece(base, '.');
      LastPieceIsSuffix(base, '.');
      if AllDots(base[..|base| - |tail| - 1]) then "" else tail
  }

  /** `os.path.splitext(path)[1]` without its dot. */
  function SplitExt(path: string): (ext: string)
    ensures '.' !in ext
  {
    BaseExt(BaseName(path))
  }

  /** `splitext(name)[1].lower().lstrip('.') or 'png'`. */
  function DisplayExtension(name: string): (r: string)
    ensures r != "" && '.' !in r
    ensures r == "png" || r == Lower(SplitExt(name))
    ensures SplitExt(name) == "" ==> r == "png"
  {
    var ext := SplitExt(name);
    assert forall i :: 0 <= i < |ext| ==> Lower(ext)[i] == '.' ==> ext[i] == '.';
    if Lower(ext) == "" then "png" else Lower(ext)
  }

  /** A path without separators is its own last component. */
  lemma {:induction false} BaseNameNoSep(path: string)
    requires forall i :: 0 <= i < |path| ==> !IsPathSep(path[i])
    ensures BaseName(path) == path
    decreases |path|
  {
    if path != [] {
      BaseNameNoSep(path[..|path| - 1]);
    }
  }

  /** The extension of a component `stem.ext` whose stem is not all dots
      is `ext`. */
  lemma BaseExtOf(stem: string, ext: string)
    requires '.' !in ext && !AllDots(stem)
    ensures BaseExt(stem + ['.'] + ext) == ext
  {
    var name := stem + ['.'] + ext;
    assert name[|stem|] == '.';
    LastPieceOf(stem, ext, '.');
    assert name[..|name| - |ext| - 1] == stem;
  }

  /** `splitext` of a file name `stem.ext` whose stem is not all dots
      gives `.ext`. */
  lemma SplitExtOf(stem: string, ext: string)
    requires forall i :: 0 <= i < |stem| ==> !IsPathSep(stem[i])
    requires forall i :: 0 <= i < |ext| ==> !IsPathSep(ext[i]) && ext[i] != '.'
    requires !AllDots(stem)
    ensures SplitExt(stem + ['.'] + ext) == ext
  {
    var name := stem + ['.'] + ext;
    assert forall i :: 0 <= i < |name| ==> !IsPathSep(name[i]) by {
      forall i | 0 <= i < |name|
        ensures !IsPathSep(name[i])
      {
        if i < |stem| {
          assert name[i] == stem[i];
        } else if i > |stem| {
          assert name[i] == ext[i - |stem| - 1];
        }
      }
    }
    BaseNameNoSep(name);
    BaseExtOf(stem, ext);
  }

  /** A file name `stem.ext` whose stem is not all dots shows its
      lower-cased extension, or `png` when the extension is empty. */
  lemma DisplayExtensionOf(stem: string, ext: string)
    requires forall i :: 0 <= i < |stem| ==> !IsPathSep(stem[i])
    requires forall i :: 0 <= i < |ext| ==> !IsPathSep(ext[i]) && ext[i] != '.'
    requires !AllDots(stem)
    ensures DisplayExtension(stem + ['.'] + ext) == if ext == [] then "png" else Lower(ext)
  {
    SplitExtOf(stem, ext);
    assert |Lower(ext)| == |ext|;
  }

  /** A name with no dot, or whose only dot starts it (a hidden file),
      shows `png`. */
  lemma DisplayExtensionDefault(name: string)
    requires forall i :: 0 <= i < |name| ==> !IsPathSep(name[i])
    requires forall i :: 0 < i < |name| ==> name[i] != '.'
    ensures DisplayExtension(name) == "png"
  {
    BaseNameNoSep(name);
    if '.' in name {
      assert name[0] == '.';
      LastPieceOf([], name[1..], '.');
      assert name == [] + ['.'] + name[1..];
    }
  }

  // ---------------------------------------------------------------------------
  // Prompts

  /** `[str(v) for k, v in kwargs.items() if k not in [exclude]]`, with the
      values already rendered as text. */
  function ExtraWords(kwargs: seq<(string, string)>, exclude: string): (words: seq<string>)
    ensures |words| <= |kwargs|
    decreases |kwargs|
  {
    if kwargs == [] then []
    else (if kwargs[0].0 != exclude then [kwargs[0].1] else []) + ExtraWords(kwargs[1..], exclude)
  }

  lemma {:induction false} ExtraWordsMembers(kwargs: seq<(string, string)>, exclude: string, w: string)
    ensures w in ExtraWords(kwargs, exclude) <==> exists i :: 0 <= i < |kwargs| && kwargs[i].0 != exclude && kwargs[i].1 == w
    decreases |kwargs|
  {
    if kwargs != [] {
      ExtraWordsMembers(kwargs[1..], exclude, w);
      if exists i :: 0 <= i < |kwargs| && kwargs[i].0 != exclude && kwargs[i].1 == w {
        var i :| 0 <= i < |kwargs| && kwargs[i].0 != exclude && kwargs[i].1 == w;
        if i > 0 {
          assert kwargs[1..][i - 1] == kwargs[i];
        }
      }
      if exists i :: 0 <= i < |kwargs[1..]| && kwargs[1..][i].0 != exclude && kwargs[1..][i].1 == w {
        var i :| 0 <= i < |kwargs[1..]| && kwargs[1..][i].0 != exclude && kwargs[1..][i].1 == w;
        assert kwargs[i + 1] == kwargs[1..][i];
      }
    }
  }

  /** The prompt after `prompt + " " + " ".join(extra_words)` when there are
      extra words; the prompt itself otherwise. */
  function JoinExtraWords(prompt: string, kwargs: seq<(string, string)>, exclude: string): (r: string)
    ensures ExtraWords(kwargs, exclude) == [] ==> r == prompt
    ensures StartsWith(r, prompt)
  {
    var words := ExtraWords(kwargs, exclude);
    if words == [] then prompt else prompt + " " + Join(words, ' ')
  }

  /** The joined prompt is the space-separated list of the prompt and the
      extra words: splitting it on spaces recovers them when none holds a space. */
  lemma JoinedPromptSplits(prompt: string, kwargs: seq<(string, string)>, exclude: string)
    requires ' ' !in prompt
    requires forall w :: w in ExtraWords(kwargs, exclude) ==> ' ' !in w
    ensures Split(JoinExtraWords(prompt, kwargs, exclude), ' ') == [prompt] + ExtraWords(kwargs, exclude)
  {
    var words := ExtraWords(kwargs, exclude);
    var parts := [prompt] + words;
    forall k | 0 <= k < |parts|
      ensures ' ' !in parts[k]
    {
      if k > 0 {
        assert parts[k] == words[k - 1];
        assert words[k - 1] in words;
      }
    }
    if words == [] {
      SplitJoin(parts, ' ');
    } else {
      assert parts[1..] == words;
      assert Join(parts, ' ') == prompt + " " + Join(words, ' ');
      SplitJoin(parts, ' ');
    }
  }

  /** The default animation prompt of create_video_with_image. */
  const DefaultVideoPrompt: string :=
    "she sways her hips from side-to-side as if dancing to unheard music and winks as the camera zooms in for a close-up of her face"

  /** `prompt or <default>`: the text of the positive-prompt node. */
  function PositivePrompt(prompt: string): (r: string)
    ensures r != ""
    ensures prompt != "" ==> r == prompt
    ensures prompt == "" ==> r == DefaultVideoPrompt
  {
    if prompt != "" then prompt else DefaultVideoPrompt
  }

  lemma PositivePromptIdempotent(prompt: string)
    ensures PositivePrompt(PositivePrompt(prompt)) == PositivePrompt(prompt)
  {
  }

  // ---------------------------------------------------------------------------
  // Uploads

  /** `if s.startswith('data:'): s = s.split(',')[1]` applied to a payload
      that may be `None`: calling `startswith` on `None` raises. */
  function StripUnguarded(payload: Option<string>): (r: Result<string>)
    ensures payload.None? ==> r.Err?
    ensures payload.Some? ==> r == StripDataUrl(payload.value)
  {
    if payload.None? then Err("'NoneType' object has no attribute 'startswith'")
    else StripDataUrl(payload.value)
  }

  /** `if s and s.startswith('data:'): ...`: an empty or missing payload is
      passed on untouched. */
  function StripGuarded(payload: Option<string>): (r: Result<Option<string>>)
    ensures !Truthy(payload) ==> r == Ok(payload)
    ensures payload.Some? && !StartsWith(payload.value, "data:") ==> r == Ok(payload)
  {
    if Truthy(payload) then
      match StripDataUrl(payload.value)
      case Ok(data) => Ok(Some(data))
      case Err(e) => Err(e)
    else Ok(payload)
  }

  /** The guard changes the outcome only for a missing payload: on a present
      one both forms agree. */
  lemma {:induction false} GuardOnlyCatchesNone(payload: Option<string>)
    ensures payload.Some? ==> (StripGuarded(payload).Ok? <==> StripUnguarded(payload).Ok?)
    ensures payload.Some? && StripGuarded(payload).Ok? ==> StripGuarded(payload).value == Some(StripUnguarded(payload).value)
    ensures payload.None? ==> StripGuarded(payload).Ok? && StripUnguarded(payload).Err?
  {
    if payload == Some("") {
      assert !StartsWith("", "data:");
    }
  }

  /** The audio upload limit, `1024 * 1024` bytes. */
  const MaxAudioBytes: nat := 1024 * 1024

  /** Whether an audio upload goes on to processing. `decodedLength` stands
      for `len(base64.b64decode(data))`, `None` when decoding raises. A strip
      or decode failure is only logged; only a decoded payload larger than
      the limit stops the upload. */
  function AudioUploadProceeds(payload: string, decodedLength: string -> Option<nat>): (proceeds: bool)
    ensures !proceeds <==> StripDataUrl(payload).Ok? && decodedLength(StripDataUrl(payload).value).Some?
                           && decodedLength(StripDataUrl(payload).value).value > MaxAudioBytes
  {
    match StripDataUrl(payload)
    case Err(_) => true
    case Ok(data) =>
      match decodedLength(data)
      case None => true
      case Some(n) => n <= MaxAudioBytes
  }

  /** The limit is inclusive: exactly 1 MiB passes, one byte more does not;
      a data URL without a comma passes whatever it would decode to. */
  lemma AudioGateBoundary(decodedLength: string -> Option<nat>)
    requires decodedLength("AAAA") == Some(MaxAudioBytes)
    requires decodedLength("BBBB") == Some(MaxAudioBytes + 1)
    ensures AudioUploadProceeds("AAAA", decodedLength)
    ensures !AudioUploadProceeds("BBBB", decodedLength)
    ensures AudioUploadProceeds("data:mp3", decodedLength)
  {
    assert StartsWith("data:mp3", "data:");
    assert ',' !in "data:mp3";
  }
}
