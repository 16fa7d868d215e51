/** The upload status endpoints (backend/app/routers/ingest.py): stage normalisation, progress
    clamping, status payloads, the in-memory upload store, the lookup priority of a status
    request, uploads and the health report. The upload directory is the set of file names
    `originals`; UUID parsing (`isUuid`), `uuid4()` (`newId`) and the outcome of writing the
    file (`writeOk`) are parameters. */
module IngestRouter {
  import opened Base
  import opened Text
  import opened PyValues
  import StageWords

  const HealthUploadId := "healthcheck"
  const DefaultStage := "ready"

  const AllowedExtensions: set<string> := {".mp4", ".mov", ".mkv", ".webm", ".avi", ".mts", ".m2ts"}

  /** `sorted(ALLOWED_EXTENSIONS)`. */
  const SortedExtensions: seq<string> := [".avi", ".m2ts", ".mkv", ".mov", ".mp4", ".mts", ".webm"]

  /** The stage names a payload can carry. */
  const StageVocabulary: set<string> := {"ready", "validate", "make_proxy", "transcode_mezz", "thumbs", "error"}

  /** `STAGE_NORMALIZATION`. */
  const StageNormalization: map<string, string> := map[
    "ready" := "ready", "validate" := "validate", "validation" := "validate",
    "validating" := "validate", "queued" := "validate", "proxy" := "make_proxy",
    "make_proxy" := "make_proxy", "mezzanine" := "transcode_mezz", "transcode" := "transcode_mezz",
    "transcode_mezz" := "transcode_mezz", "thumbs" := "thumbs", "thumbnails" := "thumbs",
    "thumbnail" := "thumbs", "error" := "error"]

  /** `_normalize_stage`. */
  function NormalizeStage(stage: Option<string>): string
  {
    if !NonEmpty(stage) then DefaultStage
    else if Lower(stage.value) in StageNormalization then StageNormalization[Lower(stage.value)]
    else "error"
  }

  /** Every table value is a stage name, and every stage name maps to itself. */
  lemma StageTableClosed()
    ensures forall a :: a in StageNormalization ==> StageNormalization[a] in StageVocabulary
    ensures forall v :: v in StageVocabulary ==> v in StageNormalization && StageNormalization[v] == v
  {
  }

  /** The stage names, one by one. */
  lemma VocabularyWords(v: string)
    requires v in StageVocabulary
    ensures v == "ready" || v == "validate" || v == "make_proxy" || v == "transcode_mezz" || v == "thumbs" || v == "error"
  {
  }

  /** A missing or empty stage is "ready", a known alias (in any case) maps through the table,
      anything else is "error"; the result is always in the vocabulary. */
  lemma NormalizeStageCases(stage: Option<string>)
    ensures !NonEmpty(stage) ==> NormalizeStage(stage) == "ready"
    ensures NonEmpty(stage) && Lower(stage.value) in StageNormalization ==>
              NormalizeStage(stage) == StageNormalization[Lower(stage.value)]
    ensures NonEmpty(stage) && Lower(stage.value) !in StageNormalization ==> NormalizeStage(stage) == "error"
    ensures NormalizeStage(stage) in StageVocabulary
  {
    StageTableClosed();
  }

  /** Normalising a normalised stage changes nothing. */
  lemma NormalizeStageIdempotent(stage: Option<string>)
    ensures NormalizeStage(Some(NormalizeStage(stage))) == NormalizeStage(stage)
  {
    var n := NormalizeStage(stage);
    NormalizeStageCases(stage);
    VocabularyWords(n);
    StageWords.StageNameIsLower(n);
    StageTableClosed();
  }

  /** `_clamp_progress`. */
  function ClampProgress(value: int): (r: int)
  {
    if value > 100 then 100 else if value < 0 then 0 else value
  }

  lemma ClampProgressProperties(value: int)
    ensures 0 <= ClampProgress(value) <= 100
    ensures 0 <= value <= 100 ==> ClampProgress(value) == value
    ensures value < 0 ==> ClampProgress(value) == 0
    ensures value > 100 ==> ClampProgress(value) == 100
  {
  }

  // ---------------------------------------------------------------- payloads

  type Assets = map<string, Option<string>>

  const AssetKeys: set<string> := {"original_url", "proxy_url", "mezzanine_url"}

  /** A status payload; `message` is `None` when the payload has no message key. */
  datatype StatusPayload = StatusPayload(status: string, stage: string, progress: int,
                                         assets: Assets, message: Option<string>)

  function AssetGet(assets: Assets, key: string): Option<string>
  {
    if key in assets then assets[key] else None
  }

  function EmptyAssets(): Assets
  {
    map["original_url" := None, "proxy_url" := None, "mezzanine_url" := None]
  }

  /** The three payload asset slots, copied with `.get`. */
  function NormalizedAssets(assets: Assets): (r: Assets)
    ensures r.Keys == AssetKeys
    ensures forall k :: k in AssetKeys ==> r[k] == AssetGet(assets, k)
  {
    map["original_url" := AssetGet(assets, "original_url"), "proxy_url" := AssetGet(assets, "proxy_url"),
        "mezzanine_url" := AssetGet(assets, "mezzanine_url")]
  }

  predicate WellFormedPayload(p: StatusPayload)
  {
    p.assets.Keys == AssetKeys && p.stage in StageVocabulary && 0 <= p.progress <= 100
    && (p.message.Some? ==> p.message.value != "")
  }

  /** `_build_status_payload`. */
  function BuildStatusPayload(status: string, stage: string, progress: int, assets: Assets,
                              message: Option<string>): (r: StatusPayload)
    ensures WellFormedPayload(r)
    ensures r.status == status && r.stage == NormalizeStage(Some(stage)) && r.progress == ClampProgress(progress)
    ensures forall k :: k in AssetKeys ==> r.assets[k] == AssetGet(assets, k)
    ensures r.message.Some? <==> NonEmpty(message)
    ensures r.message.Some? ==> r.message == message
  {
    NormalizeStageCases(Some(stage));
    StatusPayload(status, NormalizeStage(Some(stage)), ClampProgress(progress), NormalizedAssets(assets),
                  if NonEmpty(message) then message else None)
  }

  /** `_clone_payload`. */
  function ClonePayload(p: StatusPayload): (r: StatusPayload)
    ensures r.assets.Keys == AssetKeys
    ensures WellFormedPayload(p) ==> r == p
  {
    var r := StatusPayload(p.status, p.stage, p.progress, NormalizedAssets(p.assets), p.message);
    assert WellFormedPayload(p) ==> r.assets == p.assets;
    r
  }

  /** `_asset_urls`. */
  function AssetUrls(uploadId: string, extension: Option<string>): (r: Assets)
    ensures r.Keys == AssetKeys
  {
    if !NonEmpty(extension) then EmptyAssets()
    else
      var suffix := if StartsWith(extension.value, ".") then extension.value else "." + extension.value;
      var path := "/assets/original/" + uploadId + suffix;
      map["original_url" := Some(path), "proxy_url" := Some(path), "mezzanine_url" := None]
  }

  /** Without an extension every slot is empty; with one the original and the proxy are the
      same file under /assets/original/, named by the id and the dotted extension, and there
      is no mezzanine. */
  lemma AssetUrlsShape(uploadId: string, extension: Option<string>)
    ensures var r := AssetUrls(uploadId, extension);
            && (!NonEmpty(extension) ==> r == EmptyAssets())
            && (NonEmpty(extension) ==>
                  var e := extension.value;
                  && r["mezzanine_url"] == None && r["original_url"] == r["proxy_url"]
                  && r["original_url"] == Some("/assets/original/" + uploadId + (if e[0] == '.' then e else "." + e)))
  {
  }

  /** The result of `_locate_existing_extension`: the first of `exts` under which the upload
      exists on disk. */
  function FirstExisting(uploadId: string, originals: set<string>, exts: seq<string>): Option<string>
  {
    if exts == [] then None
    else if uploadId + exts[0] in originals then Some(exts[0])
    else FirstExisting(uploadId, originals, exts[1..])
  }

  /** `_locate_existing_extension`, as the loop over the sorted extensions. */
  method LocateExistingExtension(uploadId: string, originals: set<string>) returns (r: Option<string>)
    ensures r.None? <==> forall i :: 0 <= i < |SortedExtensions| ==> uploadId + SortedExtensions[i] !in originals
    ensures r.Some? ==> exists i :: 0 <= i < |SortedExtensions| && r.value == SortedExtensions[i]
                          && uploadId + SortedExtensions[i] in originals
                          && forall j :: 0 <= j < i ==> uploadId + SortedExtensions[j] !in originals
    ensures r == FirstExisting(uploadId, originals, SortedExtensions)
  {
    var i := 0;
    while i < |SortedExtensions|
      invariant 0 <= i <= |SortedExtensions|
      invariant forall j :: 0 <= j < i ==> uploadId + SortedExtensions[j] !in originals
      invariant FirstExisting(uploadId, originals, SortedExtensions)
                == FirstExisting(uploadId, originals, SortedExtensions[i..])
    {
      if uploadId + SortedExtensions[i] in originals {
        return Some(SortedExtensions[i]);
      }
      assert SortedExtensions[i..][1..] == SortedExtensions[i + 1..];
      i := i + 1;
    }
    return None;
  }

  lemma SortedExtensionsAreAllowed()
    ensures (set e | e in SortedExtensions) == AllowedExtensions
    ensures forall i :: 0 <= i < |SortedExtensions| ==> SortedExtensions[i] != ""
  {
  }

  /** The upload check of `upload_video`: 400 without a file name, 415 when the lower-cased
      suffix of the file's name is not an allowed extension, otherwise that extension. */
  function UploadExtension(filename: Option<string>): (r: Result<string>)
    ensures r.Ok? ==> r.value != "" && r.value[0] == '.'
  {
    if !NonEmpty(filename) then Err(HttpError(400, "Missing filename"))
    else
      var extension := Lower(Suffix(PathName(filename.value)));
      if extension !in AllowedExtensions
      then Err(HttpError(415, "Unsupported file type. Please upload one of: .mp4, .mov, .mkv, .webm, .avi, .mts, .m2ts."))
      else
        AllowedAreDotted(extension);
        Ok(extension)
  }

  /** Every allowed extension starts with a dot. */
  lemma AllowedAreDotted(e: string)
    requires e in AllowedExtensions
    ensures e != "" && e[0] == '.'
  {
  }

  /** A file is accepted exactly when it has a name whose lower-cased suffix is allowed, and
      the extension is then that suffix; the refusals are 400 and 415. */
  lemma UploadExtensionCases(filename: Option<string>)
    ensures var r := UploadExtension(filename);
            && (!NonEmpty(filename) ==> r == Err(HttpError(400, "Missing filename")))
            && (r.Ok? <==> NonEmpty(filename) && Lower(Suffix(PathName(filename.value))) in AllowedExtensions)
            && (r.Ok? ==> r.value == Lower(Suffix(PathName(filename.value))))
            && (NonEmpty(filename) && r.Err? ==> r.error == HttpError(415, r.error.detail))
  {
  }

  // ---------------------------------------------------------------- the store

  datatype UploadResponse = UploadResponse(uploadId: string, originalUrl: Option<string>,
                                           proxyUrl: Option<string>, mezzanineUrl: Option<string>)

  /** The ready payload stored for an upload found on disk or just written. */
  function ReadyPayload(assets: Assets): StatusPayload
  {
    BuildStatusPayload("ready", "ready", 100, assets, None)
  }

  /** The store after `_ensure_health_seed`: unchanged when the health id is stored, and
      otherwise with a ready entry for it. */
  function Seeded(store: map<string, StatusPayload>): (s: map<string, StatusPayload>)
    ensures HealthUploadId in s && store.Keys <= s.Keys
    ensures forall id :: id in store ==> s[id] == store[id]
    ensures HealthUploadId !in store ==> s[HealthUploadId] == ReadyPayload(EmptyAssets())
  {
    if HealthUploadId in store then store else store[HealthUploadId := ReadyPayload(EmptyAssets())]
  }

  class UploadStore {
    var store: map<string, StatusPayload>
    var originals: set<string>

    /** Only ready payloads are ever stored. */
    ghost predicate Valid()
      reads this
    {
      forall id :: id in store ==> WellFormedPayload(store[id]) && store[id].status == "ready"
    }

    constructor (originals: set<string>)
      ensures Valid() && store == map[] && this.originals == originals
    {
      store := map[];
      this.originals := originals;
    }

    /** `_store_status`: stores the built payload and returns an equal copy. */
    method StoreStatus(uploadId: string, assets: Assets) returns (r: StatusPayload)
      requires Valid()
      modifies this
      ensures Valid()
      ensures store == old(store)[uploadId := ReadyPayload(assets)] && originals == old(originals)
      ensures r == ReadyPayload(assets)
    {
      var payload := ReadyPayload(assets);
      store := store[uploadId := ClonePayload(payload)];
      r := ClonePayload(payload);
    }

    /** `_ensure_health_seed`. */
    method EnsureHealthSeed()
      requires Valid()
      modifies this
      ensures Valid() && HealthUploadId in store && originals == old(originals)
      ensures HealthUploadId in old(store) ==> store == old(store)
      ensures HealthUploadId !in old(store) ==> store == old(store)[HealthUploadId := ReadyPayload(EmptyAssets())]
    {
      if HealthUploadId !in store {
        var _ := StoreStatus(HealthUploadId, EmptyAssets());
      }
    }

    /** `_resolve_status`: a stored payload first, then a file on disk (which is then stored
        as ready), then a queued payload for the health id or a UUID-like id, and otherwise
        an error payload naming the id. */
    method ResolveStatus(uploadId: string, isUuid: bool) returns (r: StatusPayload)
      requires Valid()
      modifies this
      ensures Valid() && WellFormedPayload(r) && originals == old(originals)
      ensures uploadId in old(store) ==> r == old(store)[uploadId] && store == old(store)
      ensures uploadId !in old(store) ==>
                var ext := FirstExisting(uploadId, originals, SortedExtensions);
                && (ext.Some? ==> r == ReadyPayload(AssetUrls(uploadId, ext))
                                  && store == old(store)[uploadId := r])
                && (ext.None? ==> store == old(store))
                && (ext.None? && (uploadId == HealthUploadId || isUuid) ==>
                      r == BuildStatusPayload("queued", "validate", 0, EmptyAssets(), None))
                && (ext.None? && uploadId != HealthUploadId && !isUuid ==>
                      r == BuildStatusPayload("error", "error", 0, EmptyAssets(),
                                              Some("Unknown upload_id '" + uploadId + "'")))
    {
      if uploadId in store {
        return ClonePayload(store[uploadId]);
      }
      var extension := LocateExistingExtension(uploadId, originals);
      if NonEmpty(extension) {
        r := StoreStatus(uploadId, AssetUrls(uploadId, extension));
        return;
      }
      assert extension.None? by {
        if extension.Some? {
          SortedExtensionsAreAllowed();
        }
      }
      if uploadId == HealthUploadId || isUuid {
        return BuildStatusPayload("queued", "validate", 0, EmptyAssets(), None);
      }
      return BuildStatusPayload("error", "error", 0, EmptyAssets(), Some("Unknown upload_id '" + uploadId + "'"));
    }

    /** `get_status`. */
    method GetStatus(uploadId: string, isUuid: bool) returns (r: StatusPayload)
      requires Valid()
      modifies this
      ensures Valid() && WellFormedPayload(r) && HealthUploadId in store && originals == old(originals)
      ensures r.status in {"ready", "queued", "error"}
      ensures uploadId in Seeded(old(store)) ==> r == Seeded(old(store))[uploadId] && store == Seeded(old(store))
      ensures uploadId !in Seeded(old(store)) ==>
                var ext := FirstExisting(uploadId, originals, SortedExtensions);
                && (ext.Some? ==> r == ReadyPayload(AssetUrls(uploadId, ext))
                                  && store == Seeded(old(store))[uploadId := r])
                && (ext.None? ==> store == Seeded(old(store)))
                && (ext.None? && isUuid ==> r == BuildStatusPayload("queued", "validate", 0, EmptyAssets(), None))
                && (ext.None? && !isUuid ==>
                      r == BuildStatusPayload("error", "error", 0, EmptyAssets(),
                                              Some("Unknown upload_id '" + uploadId + "'")))
    {
      EnsureHealthSeed();
      r := ResolveStatus(uploadId, isUuid);
    }

    /** `upload_video`: the checked extension, then 500 when the file cannot be written;
        otherwise the file is saved as `newId` plus the extension and a ready payload is
        stored. */
    method UploadVideo(filename: Option<string>, newId: string, writeOk: bool) returns (r: Result<UploadResponse>)
      requires Valid()
      modifies this
      ensures Valid()
      ensures UploadExtension(filename).Err? ==> r == Err(UploadExtension(filename).error)
      ensures UploadExtension(filename).Ok? && !writeOk ==> r == Err(HttpError(500, "Unable to save upload"))
      ensures r.Err? ==> store == old(store) && originals == old(originals)
      ensures r.Ok? ==>
                var ext := UploadExtension(filename).value;
                && UploadExtension(filename).Ok? && writeOk
                && originals == old(originals) + {newId + ext}
                && store == old(store)[newId := ReadyPayload(AssetUrls(newId, Some(ext)))]
                && r.value == UploadResponse(newId, Some("/assets/original/" + newId + ext),
                                             Some("/assets/original/" + newId + ext), None)
    {
      var checked := UploadExtension(filename);
      if checked.Err? {
        return Err(checked.error);
      }
      if !writeOk {
        return Err(HttpError(500, "Unable to save upload"));
      }
      var response := SaveUpload(newId, checked.value);
      return Ok(response);
    }

    /** The written upload: the file `newId` plus the extension, and its ready payload. */
    method SaveUpload(newId: string, extension: string) returns (response: UploadResponse)
      requires Valid() && extension != "" && extension[0] == '.'
      modifies this
      ensures Valid()
      ensures originals == old(originals) + {newId + extension}
      ensures store == old(store)[newId := ReadyPayload(AssetUrls(newId, Some(extension)))]
      ensures response == UploadResponse(newId, Some("/assets/original/" + newId + extension),
                                         Some("/assets/original/" + newId + extension), None)
    {
      originals := originals + {newId + extension};
      var assets := AssetUrls(newId, Some(extension));
      AssetUrlsShape(newId, Some(extension));
      var _ := StoreStatus(newId, assets);
      return UploadResponse(newId, assets["original_url"], assets["proxy_url"], assets["mezzanine_url"]);
    }

    /** `get_health`: with an id, whether its status is not an error; without one, whether
        any stored payload is not an error, which holds because of the seed. */
    method GetHealth(uploadId: Option<string>, isUuid: bool) returns (ok: bool)
      requires Valid()
      modifies this
      ensures Valid() && HealthUploadId in store && originals == old(originals)
      ensures !NonEmpty(uploadId) ==> ok && store == Seeded(old(store))
      ensures NonEmpty(uploadId) ==>
                (ok <==> uploadId.value in old(store) || uploadId.value == HealthUploadId || isUuid
                         || FirstExisting(uploadId.value, originals, SortedExtensions).Some?)
      ensures NonEmpty(uploadId) ==>
                var id := uploadId.value;
                var ext := FirstExisting(id, originals, SortedExtensions);
                && (id !in Seeded(old(store)) && ext.Some? ==>
                      store == Seeded(old(store))[id := ReadyPayload(AssetUrls(id, ext))])
                && (id in Seeded(old(store)) || ext.None? ==> store == Seeded(old(store)))
    {
      EnsureHealthSeed();
      if NonEmpty(uploadId) {
        var payload := ResolveStatus(uploadId.value, isUuid);
        ok := payload.status != "error";
      } else {
        ok := exists id :: id in store && store[id].status != "error";
        assert store[HealthUploadId].status == "ready";
      }
    }
  }
}



/** The stage names of the upload status endpoints, apart from the tables that use them. */
module StageWords {
  import opened Text

  /** No stage name holds an upper-case letter. */
  lemma StageNameIsLower(v: string)
    requires v == "ready" || v == "validate" || v == "make_proxy" || v == "transcode_mezz" || v == "thumbs" || v == "error"
    ensures Lower(v) == v
  {
    LowerFixed(v);
  }
}
