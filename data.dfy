/**
 * The link-preview cache (src/data.rs): fetched page metadata per URL, the table of fetch
 * tasks behind `preview_url`, the markdown options of the current build, the dirty flag
 * that gates `export`, and the persisted JSON form.
 */
module Data {
  import opened Wrappers
  import opened Strings
  import opened Json
  import EntityMarkdown
  import Html

  /** `UrlPreviewInfo`: what a preview shows of a page. */
  datatype UrlPreviewInfo = UrlPreviewInfo(title: string, description: string, image: Option<string>)

  /** `PreviewEvent`: the outcome a fetch task publishes. */
  datatype PreviewEvent = Finished(info: UrlPreviewInfo) | Failed(reason: string)

  // ---------------------------------------------------------------------------
  // The positional encoding of `UrlPreviewInfo`.

  /** `Serialize for UrlPreviewInfo`: the three-element array `[title, description, image-or-""]`. */
  function SerializeInfo(info: UrlPreviewInfo): (j: Json)
    ensures j.JArray? && |j.items| == 3
    ensures j.items[0] == JString(info.title) && j.items[1] == JString(info.description)
    ensures j.items[2] == JString(if info.image.Some? then info.image.value else "")
  {
    JArray([JString(info.title), JString(info.description), JString(info.image.GetOr(""))])
  }

  /** `SeqAccess::next_element::<String>()`: absent past the end, an error unless a JSON string. */
  function NextString(items: seq<Json>, i: nat): (r: Result<Option<string>, string>)
    ensures i >= |items| ==> r == Ok(None)
    ensures i < |items| ==> (r.Ok? <==> items[i].JString?)
    ensures i < |items| && r.Ok? ==> r.value == Some(items[i].s)
  {
    if i >= |items| then Ok(None)
    else match items[i]
      case JString(s) => Ok(Some(s))
      case _ => Err("invalid type: expected a string")
  }

  /**
   * `Deserialize for UrlPreviewInfo` (`visit_seq`): an array of at most three strings; a
   * missing title or description reads as "", a missing image as `None`. Any other JSON
   * value, a non-string element, or a fourth element is an error.
   */
  function DeserializeInfo(j: Json): (r: Result<UrlPreviewInfo, string>)
    ensures r.Ok? <==> j.JArray? && |j.items| <= 3 && forall i :: 0 <= i < |j.items| ==> j.items[i].JString?
    ensures r.Ok? ==> r.value.title == (if |j.items| > 0 then j.items[0].s else "")
    ensures r.Ok? ==> r.value.description == (if |j.items| > 1 then j.items[1].s else "")
    ensures r.Ok? ==> r.value.image == (if |j.items| > 2 then Some(j.items[2].s) else None)
  {
    match j
    case JArray(items) =>
      var title := NextString(items, 0);
      if title.Err? then Err(title.error)
      else
        var description := NextString(items, 1);
        if description.Err? then Err(description.error)
        else
          var image := NextString(items, 2);
          if image.Err? then Err(image.error)
          else if |items| > 3 then Err("trailing characters")
          else Ok(UrlPreviewInfo(title.value.GetOr(""), description.value.GetOr(""), image.value))
    case _ => Err("invalid type: expected 2 or 3 elements tuple")
  }

  /** What a record reads back as: a missing image comes back as `Some("")`. */
  function Normalized(info: UrlPreviewInfo): UrlPreviewInfo
  {
    info.(image := Some(info.image.GetOr("")))
  }

  /** Serialising and deserialising gives the record back, with a missing image read as `Some("")`. */
  lemma InfoRoundTrip(info: UrlPreviewInfo)
    ensures DeserializeInfo(SerializeInfo(info)) == Ok(Normalized(info))
    ensures info.image.Some? ==> DeserializeInfo(SerializeInfo(info)) == Ok(info)
  {
  }

  /** Shorter arrays are accepted: the missing trailing fields take their defaults. */
  lemma InfoLenient(title: string, description: string)
    ensures DeserializeInfo(JArray([])) == Ok(UrlPreviewInfo("", "", None))
    ensures DeserializeInfo(JArray([JString(title)])) == Ok(UrlPreviewInfo(title, "", None))
    ensures DeserializeInfo(JArray([JString(title), JString(description)])) == Ok(UrlPreviewInfo(title, description, None))
  {
  }

  // ---------------------------------------------------------------------------
  // The key-sorted encoding of the whole cache.

  /** `r` is in strictly ascending order. */
  ghost predicate StrictlySorted(r: seq<string>)
  {
    forall i, j :: 0 <= i < j < |r| ==> Less(r[i], r[j])
  }

  /** `k` is a key of `keys` below all the others. */
  predicate IsLeast(k: string, keys: set<string>)
  {
    k in keys && forall o :: o in keys && o != k ==> Less(k, o)
  }

  lemma {:induction false} Least(keys: set<string>) returns (m: string)
    requires keys != {}
    ensures IsLeast(m, keys)
    decreases |keys|
  {
    var x :| x in keys;
    if keys == {x} {
      return x;
    }
    var n := Least(keys - {x});
    if Less(x, n) {
      forall o | o in keys && o != x ensures Less(x, o) {
        if o != n { LessTransitive(x, n, o); }
      }
      return x;
    }
    LessTotal(x, n);
    return n;
  }

  lemma LeastExists(keys: set<string>)
    requires keys != {}
    ensures exists k :: IsLeast(k, keys)
  {
    var m := Least(keys);
  }

  lemma LeastUnique(a: string, b: string, keys: set<string>)
    requires IsLeast(a, keys) && IsLeast(b, keys)
    ensures a == b
  {
    if a != b {
      LessAsymmetric(a, b);
    }
  }

  lemma PrependLeast(k: string, rest: seq<string>)
    requires StrictlySorted(rest)
    requires forall o :: o in rest ==> Less(k, o)
    ensures StrictlySorted([k] + rest)
  {
    var r := [k] + rest;
    forall i, j | 0 <= i < j < |r| ensures Less(r[i], r[j]) {
      if i == 0 {
        assert r[j] == rest[j - 1];
      } else {
        assert r[i] == rest[i - 1] && r[j] == rest[j - 1];
      }
    }
  }

  /** The keys of a set in ascending order, one copy each (iterating a `BTreeMap`). */
  function SortedKeys(keys: set<string>): (r: seq<string>)
    ensures StrictlySorted(r)
    ensures |r| == |keys|
    ensures forall k :: k in r <==> k in keys
    decreases |keys|
  {
    if keys == {} then []
    else
      LeastExists(keys);
      assert forall a, b :: IsLeast(a, keys) && IsLeast(b, keys) ==> a == b by {
        forall a, b | IsLeast(a, keys) && IsLeast(b, keys) ensures a == b { LeastUnique(a, b, keys); }
      }
      var k :| IsLeast(k, keys);
      var rest := SortedKeys(keys - {k});
      assert |keys - {k}| == |keys| - 1;
      PrependLeast(k, rest);
      [k] + rest
  }

  /** The `urlPreviews` entries for `keys`, in that order. */
  function EntriesOf(previews: map<string, UrlPreviewInfo>, keys: seq<string>): (r: seq<(string, Json)>)
    requires forall k :: k in keys ==> k in previews
    ensures |r| == |keys|
  {
    if keys == [] then []
    else
      var last := keys[|keys| - 1];
      EntriesOf(previews, keys[..|keys| - 1]) + [(last, SerializeInfo(previews[last]))]
  }

  lemma {:induction false} EntriesOfAt(previews: map<string, UrlPreviewInfo>, keys: seq<string>, i: nat)
    requires forall k :: k in keys ==> k in previews
    requires i < |keys|
    ensures EntriesOf(previews, keys)[i] == (keys[i], SerializeInfo(previews[keys[i]]))
    decreases |keys|
  {
    if i < |keys| - 1 {
      EntriesOfAt(previews, keys[..|keys| - 1], i);
    }
  }

  /**
   * `Serialize for GenkitData`: an object with the single key `urlPreviews`, whose entries
   * are the cached records in ascending order of their URLs.
   */
  function SerializeData(previews: map<string, UrlPreviewInfo>): (j: Json)
    ensures j.JObject? && |j.entries| == 1 && j.entries[0].0 == "urlPreviews"
    ensures j.entries[0].1.JObject? && |j.entries[0].1.entries| == |previews|
  {
    JObject([("urlPreviews", JObject(EntriesOf(previews, SortedKeys(previews.Keys))))])
  }

  /** The exported records, in the order they are written. */
  function ExportedEntries(previews: map<string, UrlPreviewInfo>): seq<(string, Json)>
  {
    SerializeData(previews).entries[0].1.entries
  }

  /** The exported entries are in strictly ascending order of URL. */
  lemma SerializeDataSorted(previews: map<string, UrlPreviewInfo>)
    ensures var es := ExportedEntries(previews);
            forall i, k :: 0 <= i < k < |es| ==> Less(es[i].0, es[k].0)
  {
    var keys := SortedKeys(previews.Keys);
    var es := EntriesOf(previews, keys);
    forall i, k | 0 <= i < k < |es| ensures Less(es[i].0, es[k].0) {
      EntriesOfAt(previews, keys, i);
      EntriesOfAt(previews, keys, k);
    }
  }

  /** Each exported entry is the encoding of the record cached under its URL. */
  lemma SerializeDataEntries(previews: map<string, UrlPreviewInfo>)
    ensures var es := ExportedEntries(previews);
            forall i :: 0 <= i < |es| ==> es[i].0 in previews && es[i].1 == SerializeInfo(previews[es[i].0])
  {
    var keys := SortedKeys(previews.Keys);
    var es := EntriesOf(previews, keys);
    forall i | 0 <= i < |es| ensures es[i].0 in previews && es[i].1 == SerializeInfo(previews[es[i].0]) {
      EntriesOfAt(previews, keys, i);
    }
  }

  /** Every cached record is exported. */
  lemma SerializeDataComplete(previews: map<string, UrlPreviewInfo>)
    ensures var es := ExportedEntries(previews);
            forall url :: url in previews ==> exists i :: 0 <= i < |es| && es[i].0 == url
  {
    var keys := SortedKeys(previews.Keys);
    var es := EntriesOf(previews, keys);
    assert ExportedEntries(previews) == es;
    forall url | url in previews ensures exists i :: 0 <= i < |es| && es[i].0 == url {
      var i :| 0 <= i < |keys| && keys[i] == url;
      EntriesOfAt(previews, keys, i);
      assert es[i].0 == url;
    }
  }

  /** Reading the entries of the `urlPreviews` object into the map; a later duplicate key wins. */
  function DecodeEntries(entries: seq<(string, Json)>): Result<map<string, UrlPreviewInfo>, string>
  {
    if entries == [] then Ok(map[])
    else
      var init := DecodeEntries(entries[..|entries| - 1]);
      var (url, value) := entries[|entries| - 1];
      if init.Err? then init
      else match DeserializeInfo(value)
        case Err(e) => Err(e)
        case Ok(info) => Ok(init.value[url := info])
  }

  /** The `urlPreviews` value: a JSON object of records. */
  function DecodePreviews(j: Json): Result<map<string, UrlPreviewInfo>, string>
  {
    if j.JObject? then DecodeEntries(j.entries) else Err("invalid type: expected a map")
  }

  /**
   * The derived struct `visit_map` of `GenkitData`, over the keys from `i` on: `urlPreviews`
   * must appear exactly once; other keys (the skipped fields among them) are ignored.
   */
  function DecodeFields(entries: seq<(string, Json)>, i: nat, found: Option<map<string, UrlPreviewInfo>>): Result<map<string, UrlPreviewInfo>, string>
    requires i <= |entries|
    decreases |entries| - i
  {
    if i == |entries| then
      if found.Some? then Ok(found.value) else Err("missing field `urlPreviews`")
    else if entries[i].0 == "urlPreviews" then
      if found.Some? then Err("duplicate field `urlPreviews`")
      else match DecodePreviews(entries[i].1)
        case Err(e) => Err(e)
        case Ok(m) => DecodeFields(entries, i + 1, Some(m))
    else DecodeFields(entries, i + 1, found)
  }

  /** The derived `Deserialize for GenkitData`: from an object, or from a one-element array. */
  function DeserializeData(j: Json): (r: Result<map<string, UrlPreviewInfo>, string>)
    ensures !j.JObject? && !j.JArray? ==> r.Err?
    ensures j.JArray? && |j.items| == 1 ==> r == DecodePreviews(j.items[0])
    ensures j.JArray? && |j.items| != 1 ==> r.Err?
  {
    match j
    case JObject(entries) => DecodeFields(entries, 0, None)
    case JArray(items) =>
      if items == [] then Err("invalid length 0, expected struct GenkitData with 1 element")
      else if |items| > 1 then Err("trailing characters")
      else DecodePreviews(items[0])
    case _ => Err("invalid type: expected struct GenkitData")
  }

  /** An object whose only key is `urlPreviews` reads as that key's value. */
  lemma SingleField(value: Json)
    ensures DeserializeData(JObject([("urlPreviews", value)])) == DecodePreviews(value)
  {
    var entries := [("urlPreviews", value)];
    if DecodePreviews(value).Ok? {
      assert DecodeFields(entries, 1, Some(DecodePreviews(value).value)) == DecodePreviews(value);
    }
  }

  /** A missing or a repeated `urlPreviews` key is an error. */
  lemma FieldRequiredOnce(value: Json, other: string, otherValue: Json)
    requires other != "urlPreviews"
    ensures DeserializeData(JObject([(other, otherValue)])).Err?
    ensures DeserializeData(JObject([])).Err?
    ensures DecodePreviews(value).Ok? ==> DeserializeData(JObject([("urlPreviews", value), ("urlPreviews", value)])).Err?
  {
    var entries := [(other, otherValue)];
    assert DecodeFields(entries, 1, None).Err?;
    var twice := [("urlPreviews", value), ("urlPreviews", value)];
    if DecodePreviews(value).Ok? {
      assert DecodeFields(twice, 1, Some(DecodePreviews(value).value)).Err?;
    }
  }

  /** The sequence form of the struct: a one-element array holding the `urlPreviews` value. */
  lemma ArrayForm(value: Json, extra: Json)
    ensures DeserializeData(JArray([value])) == DecodePreviews(value)
    ensures DeserializeData(JArray([])).Err?
    ensures DeserializeData(JArray([value, extra])).Err?
  {
  }

  /** Keys other than `urlPreviews`, before or after it, are ignored. */
  lemma ExtraKeysIgnored(value: Json, other: string, otherValue: Json)
    requires other != "urlPreviews"
    ensures DeserializeData(JObject([(other, otherValue), ("urlPreviews", value)])) == DecodePreviews(value)
    ensures DeserializeData(JObject([("urlPreviews", value), (other, otherValue)])) == DecodePreviews(value)
  {
    var before := [(other, otherValue), ("urlPreviews", value)];
    var after := [("urlPreviews", value), (other, otherValue)];
    if DecodePreviews(value).Ok? {
      var m := DecodePreviews(value).value;
      assert DecodeFields(before, 2, Some(m)) == Ok(m);
      assert DecodeFields(before, 1, None) == Ok(m);
      assert DecodeFields(after, 2, Some(m)) == Ok(m);
      assert DecodeFields(after, 1, Some(m)) == Ok(m);
    } else {
      assert DecodeFields(before, 1, None) == DecodePreviews(value);
      assert DecodeFields(before, 0, None) == DecodeFields(before, 1, None);
    }
  }

  /** Keys other than `urlPreviews` from `j` up to `k` are skipped. */
  lemma {:induction false} FieldsSkipped(entries: seq<(string, Json)>, j: nat, k: nat, found: Option<map<string, UrlPreviewInfo>>)
    requires j <= k <= |entries|
    requires forall l :: j <= l < k ==> entries[l].0 != "urlPreviews"
    ensures DecodeFields(entries, j, found) == DecodeFields(entries, k, found)
    decreases k - j
  {
    if j < k {
      FieldsSkipped(entries, j + 1, k, found);
    }
  }

  /** Once `urlPreviews` has been read, any later `urlPreviews` key is an error. */
  lemma {:induction false} FoundThenRepeated(entries: seq<(string, Json)>, j: nat, k: nat, m: map<string, UrlPreviewInfo>)
    requires j <= k < |entries| && entries[k].0 == "urlPreviews"
    ensures DecodeFields(entries, j, Some(m)).Err?
    decreases k - j
  {
    if j < k && entries[j].0 != "urlPreviews" {
      FoundThenRepeated(entries, j + 1, k, m);
    }
  }

  /** An object with exactly one `urlPreviews` entry, at any position, reads as that entry's value. */
  lemma FieldDecoded(entries: seq<(string, Json)>, i: nat)
    requires i < |entries| && entries[i].0 == "urlPreviews"
    requires forall k :: 0 <= k < |entries| && k != i ==> entries[k].0 != "urlPreviews"
    ensures DeserializeData(JObject(entries)) == DecodePreviews(entries[i].1)
  {
    FieldsSkipped(entries, 0, i, None);
    if DecodePreviews(entries[i].1).Ok? {
      FieldsSkipped(entries, i + 1, |entries|, Some(DecodePreviews(entries[i].1).value));
    }
  }

  /** An object without a `urlPreviews` entry is an error. */
  lemma FieldMissing(entries: seq<(string, Json)>)
    requires forall k :: 0 <= k < |entries| ==> entries[k].0 != "urlPreviews"
    ensures DeserializeData(JObject(entries)).Err?
  {
    FieldsSkipped(entries, 0, |entries|, None);
  }

  /** From `j` on, two `urlPreviews` entries at `i` and `k` make the read fail. */
  lemma {:induction false} RepeatedFrom(entries: seq<(string, Json)>, j: nat, i: nat, k: nat)
    requires j <= i < k < |entries| && entries[i].0 == "urlPreviews" && entries[k].0 == "urlPreviews"
    ensures DecodeFields(entries, j, None).Err?
    decreases i - j
  {
    if entries[j].0 == "urlPreviews" {
      if DecodePreviews(entries[j].1).Ok? {
        FoundThenRepeated(entries, j + 1, k, DecodePreviews(entries[j].1).value);
      }
    } else {
      RepeatedFrom(entries, j + 1, i, k);
    }
  }

  /** An object with two `urlPreviews` entries, anywhere, is an error. */
  lemma FieldRepeated(entries: seq<(string, Json)>, i: nat, k: nat)
    requires i < k < |entries| && entries[i].0 == "urlPreviews" && entries[k].0 == "urlPreviews"
    ensures DeserializeData(JObject(entries)).Err?
  {
    RepeatedFrom(entries, 0, i, k);
  }

  lemma DecodeSnoc(es: seq<(string, Json)>, url: string, info: UrlPreviewInfo)
    requires DecodeEntries(es).Ok?
    ensures DecodeEntries(es + [(url, SerializeInfo(info))]) == Ok(DecodeEntries(es).value[url := Normalized(info)])
  {
    var all := es + [(url, SerializeInfo(info))];
    assert all[..|all| - 1] == es;
    InfoRoundTrip(info);
  }

  lemma {:induction false} DecodeEntriesOf(previews: map<string, UrlPreviewInfo>, keys: seq<string>)
    requires forall k :: k in keys ==> k in previews
    ensures DecodeEntries(EntriesOf(previews, keys)) == Ok(map k | k in keys :: Normalized(previews[k]))
  {
    if keys != [] {
      var init := keys[..|keys| - 1];
      var last := keys[|keys| - 1];
      DecodeEntriesOf(previews, init);
      DecodeSnoc(EntriesOf(previews, init), last, previews[last]);
      var m := map k | k in init :: Normalized(previews[k]);
      assert m[last := Normalized(previews[last])] == map k | k in keys :: Normalized(previews[k]) by {
        assert forall k :: k in keys <==> k in init || k == last;
      }
    }
  }

  /** Exporting the cache and loading it back gives the same records, with missing images read as `Some("")`. */
  lemma DataRoundTrip(previews: map<string, UrlPreviewInfo>)
    ensures DeserializeData(SerializeData(previews)) == Ok(map url | url in previews :: Normalized(previews[url]))
  {
    var keys := SortedKeys(previews.Keys);
    DecodeEntriesOf(previews, keys);
    SingleField(JObject(EntriesOf(previews, keys)));
    assert (map k | k in keys :: Normalized(previews[k])) == (map url | url in previews :: Normalized(previews[url]));
  }

  // ---------------------------------------------------------------------------
  // The cache and its operations.

  /** `get_data_filename`: the configured data file name, or `genkit.json`. */
  function DataFilename(configured: Option<string>): (name: string)
    ensures configured.None? ==> name == "genkit.json"
    ensures configured.Some? ==> name == configured.value
  {
    configured.GetOr("genkit.json")
  }

  /** What `export` writes: the data file's name and its contents. */
  datatype Written = Written(fileName: string, contents: Json)

  /** The receiving end of a fetch task's watch channel: the latest published outcome, if any. */
  class OutcomeCell {
    var value: Option<PreviewEvent>

    constructor ()
      ensures value == None
    {
      value := None;
    }
  }

  /** `GenkitData` together with the `DIRTY` flag. */
  class GenkitData {
    var markdownConfig: EntityMarkdown.MarkdownConfig
    var previewTasks: map<string, OutcomeCell>
    var urlPreviews: map<string, UrlPreviewInfo>
    /** `DIRTY`: set when a record is inserted, cleared by `export`. */
    var dirty: bool

    constructor (previews: map<string, UrlPreviewInfo>)
      ensures markdownConfig == EntityMarkdown.Default()
      ensures previewTasks == map[] && urlPreviews == previews && !dirty
    {
      markdownConfig := EntityMarkdown.Default();
      previewTasks := map[];
      urlPreviews := previews;
      dirty := false;
    }

    /**
     * `GenkitData::new`: `file` is the data file's contents, `None` when the file does not
     * exist, an error when it cannot be read or is not JSON. The skipped fields take their
     * defaults.
     */
    static method New(file: Option<Result<Json, string>>) returns (r: Result<GenkitData, string>)
      ensures file.None? ==> r.Ok? && fresh(r.value) && r.value.urlPreviews == map[]
      ensures file.Some? && file.value.Err? ==> r == Err(file.value.error)
      ensures file.Some? && file.value.Ok? ==>
                match DeserializeData(file.value.value)
                case Ok(m) => r.Ok? && fresh(r.value) && r.value.urlPreviews == m
                case Err(e) => r == Err(e)
      ensures r.Ok? ==> r.value.previewTasks == map[] && !r.value.dirty
                        && r.value.markdownConfig == EntityMarkdown.Default()
    {
      match file
      case None =>
        var data := new GenkitData(map[]);
        return Ok(data);
      case Some(Err(e)) =>
        return Err(e);
      case Some(Ok(json)) =>
        match DeserializeData(json)
        case Err(e) =>
          return Err(e);
        case Ok(m) =>
          var data := new GenkitData(m);
          return Ok(data);
    }

    /** `get_preview`: the stored record of `url`, if any. */
    function GetPreview(url: string): (r: Option<UrlPreviewInfo>)
      reads this
      ensures r.Some? <==> url in urlPreviews
      ensures r.Some? ==> r.value == urlPreviews[url]
    {
      if url in urlPreviews then Some(urlPreviews[url]) else None
    }

    /**
     * `preview_url`: the first call for a URL registers a new task (whose fetch runs later,
     * see `CompleteFetch`) and returns `true` with its receiver; every later call returns
     * `false` and that same receiver. The stored records are not consulted.
     */
    method PreviewUrl(url: string) returns (isNew: bool, rx: OutcomeCell)
      modifies this
      ensures isNew <==> url !in old(previewTasks)
      ensures !isNew ==> rx == old(previewTasks)[url] && previewTasks == old(previewTasks)
      ensures isNew ==> fresh(rx) && rx.value == None && previewTasks == old(previewTasks)[url := rx]
      ensures urlPreviews == old(urlPreviews) && dirty == old(dirty) && markdownConfig == old(markdownConfig)
    {
      if url in previewTasks {
        return false, previewTasks[url];
      }
      rx := new OutcomeCell();
      previewTasks := previewTasks[url := rx];
      isNew := true;
    }

    /**
     * The spawned fetch task of `preview_url`, once the page has been fetched and parsed
     * into a document tree (`page`), or the fetch has failed. On success the record is
     * stored, the cache becomes dirty and `Finished` is published; on failure only
     * `Failed` is published.
     */
    method CompleteFetch(url: string, page: Result<Html.Node, string>)
      requires url in previewTasks
      modifies this, previewTasks[url]
      ensures previewTasks == old(previewTasks) && markdownConfig == old(markdownConfig)
      ensures page.Ok? ==>
                var meta := Html.ExtractMeta(page.value);
                var info := UrlPreviewInfo(meta.title, meta.description, meta.image);
                && urlPreviews == old(urlPreviews)[url := info]
                && dirty
                && previewTasks[url].value == Some(Finished(info))
                && |info.title| <= 200 && |info.description| <= 200
      ensures page.Err? ==>
                && urlPreviews == old(urlPreviews) && dirty == old(dirty)
                && previewTasks[url].value == Some(Failed(page.error))
    {
      var tx := previewTasks[url];
      match page
      case Ok(dom) =>
        var meta := Html.ParseHtmlMeta(dom);
        var info := UrlPreviewInfo(meta.title, meta.description, meta.image);
        urlPreviews := urlPreviews[url := info];
        dirty := true;
        tx.value := Some(Finished(info));
      case Err(e) =>
        tx.value := Some(Failed(e));
    }

    /** `set_markdown_config`. */
    method SetMarkdownConfig(config: EntityMarkdown.MarkdownConfig)
      modifies this
      ensures markdownConfig == config
      ensures previewTasks == old(previewTasks) && urlPreviews == old(urlPreviews) && dirty == old(dirty)
    {
      markdownConfig := config;
    }

    /** `get_markdown_config`. */
    function GetMarkdownConfig(): (c: EntityMarkdown.MarkdownConfig)
      reads this
      ensures c == markdownConfig
    {
      markdownConfig
    }

    /**
     * `export`: nothing happens unless the cache is dirty; a dirty cache is written only
     * when it holds records, and the flag is cleared, unless the write fails
     * (`writeError`, the file system's answer), which is returned before the flag is cleared.
     */
    method Export(configuredName: Option<string>, writeError: Option<string>) returns (r: Result<Option<Written>, string>)
      modifies this`dirty
      ensures !old(dirty) ==> r == Ok(None) && !dirty
      ensures old(dirty) && urlPreviews == map[] ==> r == Ok(None) && !dirty
      ensures old(dirty) && urlPreviews != map[] && writeError.Some? ==> r == Err(writeError.value) && dirty
      ensures old(dirty) && urlPreviews != map[] && writeError.None? ==>
                r == Ok(Some(Written(DataFilename(configuredName), SerializeData(urlPreviews)))) && !dirty
    {
      r := Ok(None);
      if dirty {
        if urlPreviews != map[] {
          if writeError.Some? {
            return Err(writeError.value);
          }
          r := Ok(Some(Written(DataFilename(configuredName), SerializeData(urlPreviews))));
        }
        dirty := false;
      }
    }
  }

  // ---------------------------------------------------------------------------
  // Client-level consequences of the contracts above.

  /** Two exports with no insertion in between write at most once: the second writes nothing. */
  method ExportTwice(data: GenkitData, name: Option<string>) returns (first: Result<Option<Written>, string>, second: Result<Option<Written>, string>)
    modifies data`dirty
    ensures first.Ok? && second == Ok(None) && !data.dirty
  {
    first := data.Export(name, None);
    second := data.Export(name, None);
  }

  /** Reading the markdown options after setting them gives the options set. */
  method ConfigSetThenGet(data: GenkitData, config: EntityMarkdown.MarkdownConfig) returns (got: EntityMarkdown.MarkdownConfig)
    modifies data
    ensures got == config
  {
    data.SetMarkdownConfig(config);
    got := data.GetMarkdownConfig();
  }

  /** A failed fetch is never retried: the task stays, and later calls get its `Failed` outcome. */
  method FailedFetchIsKept(data: GenkitData, url: string, reason: string) returns (again: bool, outcome: Option<PreviewEvent>)
    requires url !in data.previewTasks
    modifies data
    ensures !again && outcome == Some(Failed(reason))
    ensures url in data.previewTasks && data.urlPreviews == old(data.urlPreviews) && data.dirty == old(data.dirty)
  {
    var isNew, rx := data.PreviewUrl(url);
    data.CompleteFetch(url, Err(reason));
    var rx2;
    again, rx2 := data.PreviewUrl(url);
    assert rx2 == rx;
    outcome := rx2.value;
  }
}
