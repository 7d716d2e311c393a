/** Task payloads and the request an asynquery hands on for the SDK: the upload metadata as it is stored
    and read back, the patch made from it, and the parameters after patching. */
module Tasks {
  import opened Text
  import opened Json

  type U64 = n: int | 0 <= n < 0x1_0000_0000_0000_0000
  type I64 = n: int | -0x8000_0000_0000_0000 <= n < 0x8000_0000_0000_0000

  datatype UploadMeta = UploadMeta(
    size: U64, fileName: string, sdHash: string, mime: string, extension: string, hash: string,
    duration: I64, width: I64, height: I64)

  // ---- stored form ----

  function OmitZero(key: string, n: I64): Fields
  {
    if n == 0 then map[] else map[key := Int(n)]
  }

  function RequiredFields(m: UploadMeta): Fields
  {
    map["Size" := Int(m.size), "file_name" := Str(m.fileName), "sd_hash" := Str(m.sdHash),
        "MIME" := Str(m.mime), "Extension" := Str(m.extension), "Hash" := Str(m.hash)]
  }

  function OptionalFields(m: UploadMeta): Fields
  {
    OmitZero("Duration", m.duration) + OmitZero("Width", m.width) + OmitZero("Height", m.height)
  }

  /** `json.Marshal` of the metadata: `Duration`, `Width` and `Height` are left out when zero. */
  function EncodeMeta(m: UploadMeta): Fields
  {
    RequiredFields(m) + OptionalFields(m)
  }

  /** An absent or null field leaves the Go zero value; another JSON type is an error. */
  function StringField(o: Fields, key: string): Option<string>
  {
    if key !in o || o[key].Null? then Some("")
    else if o[key].Str? then Some(o[key].s) else None
  }

  function NumberField(o: Fields, key: string): Option<int>
  {
    if key !in o || o[key].Null? then Some(0)
    else if o[key].Num? then DecimalValue(o[key].literal) else None
  }

  function SizeField(o: Fields, key: string): Option<U64>
  {
    match NumberField(o, key)
    case Some(n) => if 0 <= n < 0x1_0000_0000_0000_0000 then Some(n) else None
    case None => None
  }

  function IntField(o: Fields, key: string): Option<I64>
  {
    match NumberField(o, key)
    case Some(n) => if -0x8000_0000_0000_0000 <= n < 0x8000_0000_0000_0000 then Some(n) else None
    case None => None
  }

  /** `json.Unmarshal` into the metadata record; `None` is an unmarshalling error. */
  function DecodeMeta(o: Fields): Option<UploadMeta>
  {
    match (SizeField(o, "Size"), StringField(o, "file_name"), StringField(o, "sd_hash"),
           StringField(o, "MIME"), StringField(o, "Extension"), StringField(o, "Hash"))
    case (Some(size), Some(fileName), Some(sdHash), Some(mime), Some(extension), Some(hash)) =>
      (match (IntField(o, "Duration"), IntField(o, "Width"), IntField(o, "Height"))
       case (Some(duration), Some(width), Some(height)) =>
         Some(UploadMeta(size, fileName, sdHash, mime, extension, hash, duration, width, height))
       case _ => None)
    case _ => None
  }

  lemma RequiredRead(m: UploadMeta, o: Fields)
    requires forall k :: k in {"Size", "file_name", "sd_hash", "MIME", "Extension", "Hash"} ==>
               k in o && o[k] == RequiredFields(m)[k]
    ensures SizeField(o, "Size") == Some(m.size)
    ensures StringField(o, "file_name") == Some(m.fileName) && StringField(o, "sd_hash") == Some(m.sdHash)
    ensures StringField(o, "MIME") == Some(m.mime) && StringField(o, "Extension") == Some(m.extension)
    ensures StringField(o, "Hash") == Some(m.hash)
  {
    DecimalRoundTrip(m.size);
    var r := RequiredFields(m);
    assert o["Size"] == r["Size"] && o["file_name"] == r["file_name"] && o["sd_hash"] == r["sd_hash"];
    assert o["MIME"] == r["MIME"] && o["Extension"] == r["Extension"] && o["Hash"] == r["Hash"];
  }

  lemma OptionalKeys(m: UploadMeta)
    ensures forall k :: k in OptionalFields(m) ==> k in {"Duration", "Width", "Height"}
    ensures forall k :: k in {"Duration", "Width", "Height"} ==> k !in RequiredFields(m)
  {
  }

  lemma OptionalAt(m: UploadMeta)
    ensures var r := OptionalFields(m);
            && ("Duration" in r <==> m.duration != 0) && ("Duration" in r ==> r["Duration"] == Int(m.duration))
            && ("Width" in r <==> m.width != 0) && ("Width" in r ==> r["Width"] == Int(m.width))
            && ("Height" in r <==> m.height != 0) && ("Height" in r ==> r["Height"] == Int(m.height))
  {
  }

  lemma IntRead(o: Fields, key: string, n: I64)
    requires (key in o <==> n != 0) && (key in o ==> o[key] == Int(n))
    ensures IntField(o, key) == Some(n)
  {
    DecimalRoundTrip(n);
  }

  /** Stored metadata is read back unchanged, omitted zero fields included. */
  lemma MetaRoundTrip(m: UploadMeta)
    ensures DecodeMeta(EncodeMeta(m)) == Some(m)
  {
    OptionalKeys(m);
    OptionalAt(m);
    var o := EncodeMeta(m);
    RequiredRead(m, o);
    IntRead(o, "Duration", m.duration);
    IntRead(o, "Width", m.width);
    IntRead(o, "Height", m.height);
  }

  /** The stored text under its Go field names and tags: nine fields at most, the last three unless zero. */
  lemma StoredFields(m: UploadMeta)
    ensures var o := EncodeMeta(m);
            && o - {"Duration", "Width", "Height"}
               == map["Size" := Num(Decimal(m.size)), "file_name" := Str(m.fileName), "sd_hash" := Str(m.sdHash),
                      "MIME" := Str(m.mime), "Extension" := Str(m.extension), "Hash" := Str(m.hash)]
            && (if m.duration == 0 then "Duration" !in o
                else "Duration" in o && o["Duration"] == Num(Decimal(m.duration)))
            && (if m.width == 0 then "Width" !in o else "Width" in o && o["Width"] == Num(Decimal(m.width)))
            && (if m.height == 0 then "Height" !in o else "Height" in o && o["Height"] == Num(Decimal(m.height)))
  {
    OptionalKeys(m);
    OptionalAt(m);
  }

  // ---- the request handed on ----

  /** The stored request of an asynquery, and what is handed to the caller for the SDK. */
  datatype SdkRequest = SdkRequest(methodName: string, params: Fields)

  const METHOD_STREAM_UPDATE := "stream_update"
  const FILE_PATH := "file_path"

  function BuildPatch(m: UploadMeta): Fields
  {
    map["file_size" := Int(m.size), "file_name" := Str(m.fileName),
        "file_hash" := Str(m.hash), "sd_hash" := Str(m.sdHash)]
    + (if m.width > 0 && m.height > 0 then map["width" := Int(m.width), "height" := Int(m.height)] else map[])
    + (if m.duration > 0 then map["duration" := Int(m.duration)] else map[])
  }

  function PatchOf(meta: Option<UploadMeta>): Fields
  {
    if meta.Some? then BuildPatch(meta.value) else map[]
  }

  /** What one parameter of the outgoing request is, given the stored request and the patch. */
  function OutgoingParam(req: SdkRequest, patch: Fields, key: string): Option<Json>
  {
    if key == FILE_PATH then None
    else if req.methodName == METHOD_STREAM_UPDATE && key == "replace" then Some(Bool(true))
    else if req.methodName == METHOD_STREAM_UPDATE && key == "name" then None
    else if key in patch then Some(patch[key])
    else if key in req.params then Some(req.params[key])
    else None
  }

  ghost predicate IsOutgoing(out: SdkRequest, req: SdkRequest, patch: Fields)
  {
    && out.methodName == req.methodName
    && forall k :: match OutgoingParam(req, patch, k)
                   case Some(v) => k in out.params && out.params[k] == v
                   case None => k !in out.params
  }

  function Outgoing(req: SdkRequest, patch: Fields): (out: SdkRequest)
    ensures IsOutgoing(out, req, patch)
  {
    var p := req.params + patch;
    var q := if req.methodName == METHOD_STREAM_UPDATE then (p - {"name"})["replace" := Bool(true)] else p;
    SdkRequest(req.methodName, q - {FILE_PATH})
  }

  lemma OutgoingUnique(a: SdkRequest, b: SdkRequest, req: SdkRequest, patch: Fields)
    requires IsOutgoing(a, req, patch) && IsOutgoing(b, req, patch)
    ensures a == b
  {
  }

  /** The two agree on this key: absent from both, or in both with one value. */
  predicate Same(p: Fields, q: Fields, key: string)
  {
    (key in p <==> key in q) && (key in p ==> p[key] == q[key])
  }

  /** The parameters a file may bring, and those handing on may change. */
  const FILE_KEYS := {"file_size", "file_name", "file_hash", "sd_hash", "width", "height", "duration"}
  const EDITED_KEYS := {"file_path", "name", "replace"}

  /** The parameters that say what the file is: its size, name and hashes always, its dimensions if both
      are known, its duration if it is; otherwise what the client sent. */
  predicate FileParams(p: Fields, b: Fields, m: UploadMeta)
  {
    && "file_size" in p && p["file_size"] == Num(Decimal(m.size))
    && "file_name" in p && p["file_name"] == Str(m.fileName)
    && "file_hash" in p && p["file_hash"] == Str(m.hash)
    && "sd_hash" in p && p["sd_hash"] == Str(m.sdHash)
    && (if m.width > 0 && m.height > 0
        then && "width" in p && p["width"] == Num(Decimal(m.width))
             && "height" in p && p["height"] == Num(Decimal(m.height))
        else Same(p, b, "width") && Same(p, b, "height"))
    && (if m.duration > 0 then "duration" in p && p["duration"] == Num(Decimal(m.duration))
        else Same(p, b, "duration"))
  }

  /** No path goes out; an update of a stream replaces it and keeps its name. */
  predicate EditedParams(p: Fields, b: Fields, methodName: string)
  {
    && "file_path" !in p
    && (if methodName == "stream_update" then "name" !in p && "replace" in p && p["replace"] == Bool(true)
        else Same(p, b, "name") && Same(p, b, "replace"))
  }

  /** What the SDK gets for a stored request and the metadata of its file, key by key. */
  ghost predicate IsDispatch(out: SdkRequest, body: SdkRequest, meta: Option<UploadMeta>)
  {
    && out.methodName == body.methodName && EditedParams(out.params, body.params, body.methodName)
    && (forall k :: k !in EDITED_KEYS && (meta.None? || k !in FILE_KEYS) ==> Same(out.params, body.params, k))
    && (meta.Some? ==> FileParams(out.params, body.params, meta.value))
  }

  /** One key of a dispatch. */
  lemma DispatchKey(body: SdkRequest, meta: Option<UploadMeta>, k: string)
    ensures var p := Outgoing(body, PatchOf(meta)).params;
            match OutgoingParam(body, PatchOf(meta), k) case Some(v) => k in p && p[k] == v case None => k !in p
  {
    hide PatchOf;
  }

  lemma OtherKey(body: SdkRequest, meta: Option<UploadMeta>, k: string)
    requires k !in EDITED_KEYS && (meta.None? || k !in FILE_KEYS)
    ensures Same(Outgoing(body, PatchOf(meta)).params, body.params, k)
  {
    assert k !in PatchOf(meta);
    DispatchKey(body, meta, k);
    hide Outgoing, PatchOf;
  }

  lemma EditedDispatch(body: SdkRequest, meta: Option<UploadMeta>)
    ensures EditedParams(Outgoing(body, PatchOf(meta)).params, body.params, body.methodName)
  {
    assert "name" !in PatchOf(meta) && "replace" !in PatchOf(meta);
    DispatchKey(body, meta, "file_path");
    DispatchKey(body, meta, "name");
    DispatchKey(body, meta, "replace");
    hide Outgoing, PatchOf;
  }

  /** The patch, key by key. */
  lemma PatchFields(m: UploadMeta)
    ensures var p := BuildPatch(m);
            && "file_size" in p && p["file_size"] == Num(Decimal(m.size))
            && "file_name" in p && p["file_name"] == Str(m.fileName)
            && "file_hash" in p && p["file_hash"] == Str(m.hash)
            && "sd_hash" in p && p["sd_hash"] == Str(m.sdHash)
  {
  }

  lemma PatchSizes(m: UploadMeta)
    ensures var p := BuildPatch(m);
            && ("width" in p <==> m.width > 0 && m.height > 0) && ("width" in p <==> "height" in p)
            && ("width" in p ==> p["width"] == Num(Decimal(m.width)) && p["height"] == Num(Decimal(m.height)))
            && ("duration" in p <==> m.duration > 0)
            && ("duration" in p ==> p["duration"] == Num(Decimal(m.duration)))
  {
  }

  lemma FileDispatch(body: SdkRequest, m: UploadMeta)
    ensures FileParams(Outgoing(body, PatchOf(Some(m))).params, body.params, m)
  {
    hide Outgoing, BuildPatch, Same;
    PatchFields(m);
    PatchSizes(m);
    assert {"file_size", "file_name", "file_hash", "sd_hash", "width", "height", "duration"} == FILE_KEYS;
    PatchKey(body, m, "file_size");
    PatchKey(body, m, "file_name");
    PatchKey(body, m, "file_hash");
    PatchKey(body, m, "sd_hash");
    PatchKey(body, m, "width");
    PatchKey(body, m, "height");
    PatchKey(body, m, "duration");
  }

  lemma PatchKey(body: SdkRequest, m: UploadMeta, k: string)
    requires k in FILE_KEYS
    ensures var p := Outgoing(body, PatchOf(Some(m))).params;
            if k in BuildPatch(m) then k in p && p[k] == BuildPatch(m)[k] else Same(p, body.params, k)
  {
    DispatchKey(body, Some(m), k);
    hide Outgoing, BuildPatch;
  }

  lemma DispatchOf(body: SdkRequest, meta: Option<UploadMeta>)
    ensures IsDispatch(Outgoing(body, PatchOf(meta)), body, meta)
  {
    hide EditedParams, FileParams, Same, PatchOf;
    EditedDispatch(body, meta);
    if meta.Some? { FileDispatch(body, meta.value); }
    var p := Outgoing(body, PatchOf(meta)).params;
    forall k | k !in EDITED_KEYS && (meta.None? || k !in FILE_KEYS) ensures Same(p, body.params, k) {
      OtherKey(body, meta, k);
    }
  }

  /** An update of a stream with a file of 5 bytes: the two hashes under their names, the old name and
      path gone. */
  lemma DispatchExample()
    ensures var m := UploadMeta(5, "a.mp4", "bb", "video/mp4", "mp4", "aa", 7, 0, 9);
            var body := SdkRequest("stream_update",
                                   map["name" := Str("n"), "file_path" := Str("p"), "bid" := Str("1")]);
            Outgoing(body, PatchOf(Some(m))).params
            == map["bid" := Str("1"), "replace" := Bool(true), "file_size" := Num("5"), "file_name" := Str("a.mp4"),
                   "file_hash" := Str("aa"), "sd_hash" := Str("bb"), "duration" := Num("7")]
  {
    assert Decimal(5) == "5" && Decimal(7) == "7";
  }

  /** The patch is copied over key by key, in whatever order the map yields its keys. */
  method ApplyPatch(params: Fields, patch: Fields) returns (pp: Fields)
    ensures pp == params + patch
  {
    pp := params;
    var left := patch.Keys;
    while left != {}
      invariant left <= patch.Keys
      invariant pp.Keys == params.Keys + (patch.Keys - left)
      invariant forall k :: k in pp ==> pp[k] == if k in patch && k !in left then patch[k] else params[k]
      decreases left
    {
      var k :| k in left;
      pp := pp[k := patch[k]];
      left := left - {k};
    }
    assert pp.Keys == (params + patch).Keys;
  }

  /** The parameter rewriting of `robustCall`. */
  method PrepareRequest(req: SdkRequest, patch: Fields) returns (out: SdkRequest)
    ensures out == Outgoing(req, patch)
  {
    var pp := ApplyPatch(req.params, patch);
    if req.methodName == METHOD_STREAM_UPDATE {
      pp := pp - {"name"};
      pp := pp["replace" := Bool(true)];
    }
    pp := pp - {FILE_PATH};
    out := SdkRequest(req.methodName, pp);
  }
}
