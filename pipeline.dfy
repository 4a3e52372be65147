/** Record construction and the static-resource pipeline of WallpaperService:
    createWallpaper (three overloads) fills in a new Wallpaper and runs
    createAndSaveStaticRes, which stores the (possibly compressed) original,
    a cover, one crop per entry of WALLPAPER_SIZE and a zip package, in that
    order, and gives up at the first store call that fails. */
module Pipeline {
  import opened Common
  import opened Storage

  const OriginPrefix: string := "/wallpapers/images/origin/"
  const CropPrefix: string := "/wallpapers/images/crop/"
  const ZipsPrefix: string := "/wallpapers/zips/"
  const CoverWidth: nat := 120
  const CoverHeight: nat := 100

  /** WALLPAPER_SIZE: crop width to crop height. */
  const WallpaperSize: map<nat, nat> :=
    map[120 := 100, 160 := 133, 240 := 200, 320 := 266,
        360 := 300, 480 := 400, 460 := 383, 144 := 120]

  /** Files longer than this many bytes are re-encoded before anything is stored. */
  const CompressThreshold: nat := 200 * 1024
  const CompressQuality: nat := 80

  const WallpaperSource: string := "baibian"
  const DefaultName: string := "手机壁纸"
  const DefaultAuthor: string := "来自互联网"

  /** models.Category, known here only by identity. */
  datatype Category = Category(id: nat)

  /** The one value of models.enums.Status this code assigns. */
  datatype Status = Verify

  /** The "zip" entry of Wallpaper.info: archive URL, checksum and byte size. */
  datatype ZipInfo = ZipInfo(file: string, checksum: Option<string>, size: nat)

  /** The fields of models.Wallpaper that this code writes. A field Java
      leaves null is None (strings: empty). */
  class Wallpaper {
    var code: string
    var name: string
    var author: string
    var source: string
    var size: nat
    var downloadCount: int
    var browseCount: int
    var createAt: Option<nat>
    var categories: set<Category>
    var pkgForTerminals: set<string>
    var status: Option<Status>
    var minWidthForTerminal: Option<int>
    var maxWidthForTerminal: Option<int>
    var minHeightForTerminal: Option<int>
    var maxHeightForTerminal: Option<int>
    var file: Option<string>
    var checksum: Option<string>
    var cover: Option<string>
    var info: Option<ZipInfo>

    /** `new Wallpaper()` followed by createWallpaper's field assignments:
        the given values, fixed counters, source and status, and the
        resource fields still unset. */
    constructor (code: string, name: string, author: string, size: nat, now: nat,
                 categories: set<Category>, pkgForTerminals: set<string>,
                 minw: Option<int>, maxw: Option<int>, minh: Option<int>, maxh: Option<int>)
      ensures this.code == code && this.name == name && this.author == author
      ensures source == WallpaperSource && this.size == size
      ensures downloadCount == 0 && browseCount == 0
      ensures createAt == Some(now) && this.categories == categories
      ensures this.pkgForTerminals == pkgForTerminals && status == Some(Verify)
      ensures minWidthForTerminal == minw && maxWidthForTerminal == maxw
      ensures minHeightForTerminal == minh && maxHeightForTerminal == maxh
      ensures file.None? && checksum.None? && cover.None? && info.None?
    {
      this.code, this.name, this.author, source := code, name, author, WallpaperSource;
      this.size, downloadCount, browseCount := size, 0, 0;
      createAt, this.categories, this.pkgForTerminals, status := Some(now), categories, pkgForTerminals, Some(Verify);
      minWidthForTerminal, maxWidthForTerminal := minw, maxw;
      minHeightForTerminal, maxHeightForTerminal := minh, maxh;
      file, checksum, cover, info := None, None, None, None;
    }
  }

  // ---------------------------------------------------------------------
  // What a run stores, as a specification
  // ---------------------------------------------------------------------

  /** An iteration order of WALLPAPER_SIZE's key set: every key exactly once. */
  predicate IsKeyOrder(order: seq<nat>) {
    && (forall i :: 0 <= i < |order| ==> order[i] in WallpaperSize)
    && (forall k :: k in WallpaperSize ==> k in order)
    && (forall i, j :: 0 <= i < j < |order| ==> order[i] != order[j])
  }

  /** The file every derived object is made from: the upload, compressed when
      it is longer than 200 KiB. */
  function Master(file: Blob, io: Io): Blob {
    if io.length(file) > CompressThreshold then Compressed(file, CompressQuality) else file
  }

  /** The name suffix of the original and the zip: "_" and the timestamp. */
  function PlainSuffix(now: nat): string {
    "_" + NatToString(now)
  }

  /** The name suffix of the cover and of every crop: "_cover_" and the timestamp. */
  function CoverSuffix(now: nat): string {
    "_cover_" + NatToString(now)
  }

  function OriginPath(cfg: Config): string {
    cfg.basePath + OriginPrefix[1..]
  }

  function CropBasePath(cfg: Config): string {
    cfg.basePath + CropPrefix[1..]
  }

  /** `<base>wallpapers/images/crop/<w>x<h>/` */
  function CropPath(cfg: Config, key: nat): string
    requires key in WallpaperSize
  {
    CropBasePath(cfg) + NatToString(key) + "x" + NatToString(WallpaperSize[key]) + "/"
  }

  function ZipPath(cfg: Config): string {
    cfg.basePath + ZipsPrefix[1..]
  }

  /** The object stored for `content` under `path`, named from the run's code. */
  function Named(cfg: Config, io: Io, path: string, content: Blob, code: string, suffix: string): StoredObject {
    StoredObject(cfg.bucket, path, io.relativeName(content, code, "", suffix), content, cfg.mode)
  }

  function OriginObject(cfg: Config, io: Io, master: Blob, code: string, now: nat): StoredObject {
    Named(cfg, io, OriginPath(cfg), master, code, PlainSuffix(now))
  }

  function CoverObject(cfg: Config, io: Io, master: Blob, code: string, now: nat): StoredObject {
    Named(cfg, io, OriginPath(cfg), Scaled(master, CoverWidth, CoverHeight), code, CoverSuffix(now))
  }

  function CropObject(cfg: Config, io: Io, master: Blob, code: string, now: nat, key: nat): StoredObject
    requires key in WallpaperSize
  {
    Named(cfg, io, CropPath(cfg, key), Scaled(master, key, WallpaperSize[key]), code, CoverSuffix(now))
  }

  function ZipObject(cfg: Config, io: Io, master: Blob, name: string, author: string, code: string, now: nat): StoredObject {
    Named(cfg, io, ZipPath(cfg), Archive(name, author, master), code, PlainSuffix(now))
  }

  /** The crops, one per key, in the order the keys are visited. */
  function CropPlan(cfg: Config, io: Io, master: Blob, code: string, now: nat, order: seq<nat>): (crops: seq<StoredObject>)
    requires forall i :: 0 <= i < |order| ==> order[i] in WallpaperSize
    ensures |crops| == |order|
    ensures forall i :: 0 <= i < |order| ==> crops[i] == CropObject(cfg, io, master, code, now, order[i])
  {
    seq(|order|, i requires 0 <= i < |order| => CropObject(cfg, io, master, code, now, order[i]))
  }

  /** The store calls a run makes when every one of them succeeds, in order:
      original, cover, the crops in key order, zip. */
  function Plan(file: Blob, name: string, author: string, code: string, now: nat,
                cfg: Config, io: Io, order: seq<nat>): (plan: seq<StoredObject>)
    requires IsKeyOrder(order)
    ensures |plan| == |order| + 3
  {
    var master := Master(file, io);
    [OriginObject(cfg, io, master, code, now), CoverObject(cfg, io, master, code, now)]
      + CropPlan(cfg, io, master, code, now, order)
      + [ZipObject(cfg, io, master, name, author, code, now)]
  }

  /** The index of the first of `n` store calls, numbered from `start`, that
      the oracle rejects; `n` when it rejects none. */
  function FirstFailure(accepts: nat -> bool, start: nat, n: nat): (k: nat)
    ensures k <= n
    ensures forall x :: start <= x < start + k ==> accepts(x)
    ensures k < n ==> !accepts(start + k)
    decreases n
  {
    if n == 0 || !accepts(start) then 0
    else 1 + FirstFailure(accepts, start + 1, n - 1)
  }

  /** The store after a run that began with `attempts0` and `objects0`:
      every call up to and including the first rejected one was made, no call
      after it, and exactly the calls before it stored their objects. */
  predicate RunOutcome(attempts0: seq<StoredObject>, objects0: seq<StoredObject>,
                       attempts1: seq<StoredObject>, objects1: seq<StoredObject>,
                       accepts: nat -> bool, plan: seq<StoredObject>) {
    var k := FirstFailure(accepts, |attempts0|, |plan|);
    && attempts1 == attempts0 + plan[..if k < |plan| then k + 1 else k]
    && objects1 == objects0 + plan[..k]
  }

  /** The URL recorded for an object. */
  function UrlOf(io: Io, o: StoredObject): string {
    io.genUrl(o.bucket, o.path, o.name, false)
  }

  // ---------------------------------------------------------------------
  // createAndSaveStaticRes
  // ---------------------------------------------------------------------

  /** createAndSaveStaticRes. The result is false where a store call fails
      (the source throws there); nothing is stored after that call and
      nothing already stored is removed. */
  method CreateAndSaveStaticRes(file: Blob, name: string, author: string, now: nat,
                                w: Wallpaper, cfg: Config, io: Io, order: seq<nat>,
                                store: AssetStore)
    returns (ok: bool)
    requires IsKeyOrder(order)
    modifies w`file, w`checksum, w`cover, w`info, store
    ensures var plan := Plan(file, name, author, w.code, now, cfg, io, order);
      && RunOutcome(old(store.attempts), old(store.objects), store.attempts, store.objects,
                    store.accepts, plan)
      && ok == (FirstFailure(store.accepts, |old(store.attempts)|, |plan|) == |plan|)
    ensures var master := Master(file, io);
      var originStored := store.accepts(|old(store.attempts)|);
      && w.file == Some(UrlOf(io, OriginObject(cfg, io, master, w.code, now)))
      && w.checksum == (if originStored then GetChecksum(io, master) else old(w.checksum))
      && w.cover == (if originStored then Some(UrlOf(io, CoverObject(cfg, io, master, w.code, now)))
                     else old(w.cover))
      && w.info == (if ok then Some(ZipRecord(cfg, io, master, name, author, w.code, now))
                    else old(w.info))
  {
    var code := w.code;
    var img := CompressIfLarge(file, io);
    ghost var a0, o0 := store.attempts, store.objects;
    ghost var plan := Plan(file, name, author, code, now, cfg, io, order);
    PlanLayout(file, name, author, code, now, cfg, io, order);
    Begin(a0, o0, store.accepts, plan);
    ok := SaveOrigin(img, now, code, w, cfg, io, store);
    if !ok {
      StepFailed(a0, o0, a0, o0, store.attempts, store.objects, store.accepts, plan, 0);
      assert w.code == code;
      return;
    }
    StepSucceeded(a0, o0, a0, o0, store.attempts, store.objects, store.accepts, plan, 0);
    ok := SaveAfterOrigin(img, name, author, now, code, w, cfg, io, order, store, a0, o0, plan);
    assert w.code == code;
  }

  /** The first step of the pipeline: an upload longer than 200 KiB is
      replaced by its re-encoding at quality 80. */
  method CompressIfLarge(file: Blob, io: Io) returns (img: Blob)
    ensures img == Master(file, io)
  {
    img := file;
    if io.length(file) > CompressThreshold {
      img := Compressed(file, CompressQuality);
    }
  }

  /** The zip entry recorded in the wallpaper's info: its URL, checksum and size. */
  function ZipRecord(cfg: Config, io: Io, master: Blob, name: string, author: string,
                     code: string, now: nat): ZipInfo {
    var zip := Archive(name, author, master);
    ZipInfo(UrlOf(io, ZipObject(cfg, io, master, name, author, code, now)), GetChecksum(io, zip), io.length(zip))
  }

  /** The calls a run makes after the original: cover, crops in key order,
      zip, as positions 1 .. |order| + 2 of `plan`. */
  predicate TailLaidOut(plan: seq<StoredObject>, cfg: Config, io: Io, img: Blob, name: string,
                        author: string, code: string, now: nat, order: seq<nat>) {
    && (forall i :: 0 <= i < |order| ==> order[i] in WallpaperSize)
    && |plan| == |order| + 3
    && plan[1] == CoverObject(cfg, io, img, code, now)
    && (forall i :: 0 <= i < |order| ==> plan[2 + i] == CropObject(cfg, io, img, code, now, order[i]))
    && plan[|order| + 2] == ZipObject(cfg, io, img, name, author, code, now)
  }

  /** The run of `plan`, begun with `a0` and `o0`, once the original is
      stored: cover, crops, zip. */
  method SaveAfterOrigin(img: Blob, name: string, author: string, now: nat, code: string,
                         w: Wallpaper, cfg: Config, io: Io, order: seq<nat>, store: AssetStore,
                         ghost a0: seq<StoredObject>, ghost o0: seq<StoredObject>,
                         ghost plan: seq<StoredObject>)
    returns (ok: bool)
    requires TailLaidOut(plan, cfg, io, img, name, author, code, now, order)
    requires Progress(a0, o0, store.attempts, store.objects, store.accepts, plan, 1)
    modifies w`cover, w`info, store
    ensures RunOutcome(a0, o0, store.attempts, store.objects, store.accepts, plan)
    ensures ok == (FirstFailure(store.accepts, |a0|, |plan|) == |plan|)
    ensures w.cover == Some(UrlOf(io, CoverObject(cfg, io, img, code, now)))
    ensures w.info == (if ok then Some(ZipRecord(cfg, io, img, name, author, code, now)) else old(w.info))
  {
    ghost var a, o := store.attempts, store.objects;
    ok := SaveCover(img, now, code, w, cfg, io, store);
    if !ok {
      StepFailed(a0, o0, a, o, store.attempts, store.objects, store.accepts, plan, 1);
      return;
    }
    StepSucceeded(a0, o0, a, o, store.attempts, store.objects, store.accepts, plan, 1);
    ok := SaveCropsAndZip(img, name, author, now, code, w, cfg, io, order, store, a0, o0, plan);
  }

  /** The run of `plan` once the cover is stored: the crops, then the zip. */
  method SaveCropsAndZip(img: Blob, name: string, author: string, now: nat, code: string,
                         w: Wallpaper, cfg: Config, io: Io, order: seq<nat>, store: AssetStore,
                         ghost a0: seq<StoredObject>, ghost o0: seq<StoredObject>,
                         ghost plan: seq<StoredObject>)
    returns (ok: bool)
    requires TailLaidOut(plan, cfg, io, img, name, author, code, now, order)
    requires Progress(a0, o0, store.attempts, store.objects, store.accepts, plan, 2)
    modifies w`info, store
    ensures RunOutcome(a0, o0, store.attempts, store.objects, store.accepts, plan)
    ensures ok == (FirstFailure(store.accepts, |a0|, |plan|) == |plan|)
    ensures w.info == (if ok then Some(ZipRecord(cfg, io, img, name, author, code, now)) else old(w.info))
  {
    ok := SaveCrops(img, now, code, cfg, io, order, store, a0, o0, plan, 2);
    if !ok {
      return;
    }
    ok := SaveLastZip(img, name, author, now, code, w, cfg, io, store, a0, o0, plan);
  }

  /** The last planned call of a run of `plan`, all of whose earlier calls
      succeeded: the zip. */
  method SaveLastZip(img: Blob, name: string, author: string, now: nat, code: string,
                     w: Wallpaper, cfg: Config, io: Io, store: AssetStore,
                     ghost a0: seq<StoredObject>, ghost o0: seq<StoredObject>,
                     ghost plan: seq<StoredObject>)
    returns (ok: bool)
    requires 0 < |plan| && plan[|plan| - 1] == ZipObject(cfg, io, img, name, author, code, now)
    requires Progress(a0, o0, store.attempts, store.objects, store.accepts, plan, |plan| - 1)
    modifies w`info, store
    ensures RunOutcome(a0, o0, store.attempts, store.objects, store.accepts, plan)
    ensures ok == (FirstFailure(store.accepts, |a0|, |plan|) == |plan|)
    ensures w.info == (if ok then Some(ZipRecord(cfg, io, img, name, author, code, now)) else old(w.info))
  {
    ghost var a, o := store.attempts, store.objects;
    ghost var n := |plan| - 1;
    ok := SaveZip(img, name, author, now, code, w, cfg, io, store);
    if !ok {
      StepFailed(a0, o0, a, o, store.attempts, store.objects, store.accepts, plan, n);
      return;
    }
    StepSucceeded(a0, o0, a, o, store.attempts, store.objects, store.accepts, plan, n);
    Finished(a0, o0, store.attempts, store.objects, store.accepts, plan);
  }

  /** Store the master under the origin path; its URL is recorded before the
      call, its checksum after it succeeds. */
  method SaveOrigin(img: Blob, now: nat, code: string, w: Wallpaper, cfg: Config, io: Io, store: AssetStore)
    returns (ok: bool)
    modifies w`file, w`checksum, store
    ensures var o := OriginObject(cfg, io, img, code, now);
      && store.attempts == old(store.attempts) + [o]
      && ok == store.accepts(|old(store.attempts)|)
      && store.objects == (if ok then old(store.objects) + [o] else old(store.objects))
      && w.file == Some(UrlOf(io, o))
      && w.checksum == (if ok then GetChecksum(io, img) else old(w.checksum))
  {
    var originImgPath := cfg.basePath + OriginPrefix[1..];
    var fileName := io.relativeName(img, code, "", "_" + NatToString(now));
    w.file := Some(io.genUrl(cfg.bucket, originImgPath, fileName, false));
    ok := store.Store(StoredObject(cfg.bucket, originImgPath, fileName, img, cfg.mode));
    if ok {
      w.checksum := GetChecksum(io, img);
    }
  }

  /** Scale the master to 120x100 and store it beside the original; its URL
      is recorded before the call. */
  method SaveCover(img: Blob, now: nat, code: string, w: Wallpaper, cfg: Config, io: Io, store: AssetStore)
    returns (ok: bool)
    modifies w`cover, store
    ensures var o := CoverObject(cfg, io, img, code, now);
      && store.attempts == old(store.attempts) + [o]
      && ok == store.accepts(|old(store.attempts)|)
      && store.objects == (if ok then old(store.objects) + [o] else old(store.objects))
      && w.cover == Some(UrlOf(io, o))
  {
    var originImgPath := cfg.basePath + OriginPrefix[1..];
    var coverImg := Scaled(img, CoverWidth, CoverHeight);
    var coverName := io.relativeName(coverImg, code, "", "_cover_" + NatToString(now));
    w.cover := Some(io.genUrl(cfg.bucket, originImgPath, coverName, false));
    ok := store.Store(StoredObject(cfg.bucket, originImgPath, coverName, coverImg, cfg.mode));
  }

  /** The loop over WALLPAPER_SIZE: scale the master to each size and store it
      under `crop/<w>x<h>/`, stopping at the first call that fails. The crops
      are the planned calls `off` .. `off + |order| - 1` of a run of `plan`
      that began with `a0` and `o0` and has made its first `off` calls. */
  method SaveCrops(img: Blob, now: nat, code: string, cfg: Config, io: Io, order: seq<nat>,
                   store: AssetStore, ghost a0: seq<StoredObject>, ghost o0: seq<StoredObject>,
                   ghost plan: seq<StoredObject>, ghost off: nat)
    returns (ok: bool)
    requires forall i :: 0 <= i < |order| ==> order[i] in WallpaperSize
    requires off + |order| <= |plan|
    requires forall i :: 0 <= i < |order| ==> plan[off + i] == CropObject(cfg, io, img, code, now, order[i])
    requires Progress(a0, o0, store.attempts, store.objects, store.accepts, plan, off)
    modifies store
    ensures ok ==> Progress(a0, o0, store.attempts, store.objects, store.accepts, plan, off + |order|)
    ensures !ok ==> RunOutcome(a0, o0, store.attempts, store.objects, store.accepts, plan)
    ensures !ok ==> off <= FirstFailure(store.accepts, |a0|, |plan|) < off + |order|
  {
    var i := 0;
    while i < |order|
      invariant 0 <= i <= |order|
      invariant Progress(a0, o0, store.attempts, store.objects, store.accepts, plan, off + i)
    {
      ghost var n, a, o := off + i, store.attempts, store.objects;
      var stored := SaveCrop(img, now, code, cfg, io, order[i], store);
      ghost var a', o' := store.attempts, store.objects;
      assert plan[n] == CropObject(cfg, io, img, code, now, order[i]);
      assert a' == a + [plan[n]] && stored == store.accepts(|a|);
      assert o' == if stored then o + [plan[n]] else o;
      if !stored {
        StepFailed(a0, o0, a, o, a', o', store.accepts, plan, n);
        return false;
      }
      StepSucceeded(a0, o0, a, o, a', o', store.accepts, plan, n);
      i := i + 1;
    }
    ok := true;
  }

  /** One pass of the loop: scale the master to the size of `key` and store
      it under `crop/<w>x<h>/`. */
  method SaveCrop(img: Blob, now: nat, code: string, cfg: Config, io: Io, key: nat, store: AssetStore)
    returns (ok: bool)
    requires key in WallpaperSize
    modifies store
    ensures var o := CropObject(cfg, io, img, code, now, key);
      && store.attempts == old(store.attempts) + [o]
      && ok == store.accepts(|old(store.attempts)|)
      && store.objects == (if ok then old(store.objects) + [o] else old(store.objects))
  {
    var cropBaseImgPath := cfg.basePath + CropPrefix[1..];
    var cropImg := Scaled(img, key, WallpaperSize[key]);
    var cropName := io.relativeName(cropImg, code, "", "_cover_" + NatToString(now));
    var cropImgPath := cropBaseImgPath + NatToString(key) + "x" + NatToString(WallpaperSize[key]) + "/";
    ok := store.Store(StoredObject(cfg.bucket, cropImgPath, cropName, cropImg, cfg.mode));
  }

  /** Build the zip package from the master and store it under the zips
      path; its URL, checksum and size are recorded after the call succeeds. */
  method SaveZip(img: Blob, name: string, author: string, now: nat,
                 code: string, w: Wallpaper, cfg: Config, io: Io, store: AssetStore)
    returns (ok: bool)
    modifies w`info, store
    ensures var o := ZipObject(cfg, io, img, name, author, code, now);
      && store.attempts == old(store.attempts) + [o]
      && ok == store.accepts(|old(store.attempts)|)
      && store.objects == (if ok then old(store.objects) + [o] else old(store.objects))
      && w.info == (if ok then Some(ZipRecord(cfg, io, img, name, author, code, now)) else old(w.info))
  {
    var zipPath := cfg.basePath + ZipsPrefix[1..];
    var zip := Archive(name, author, img);
    var zipName := io.relativeName(zip, code, "", "_" + NatToString(now));
    ok := store.Store(StoredObject(cfg.bucket, zipPath, zipName, zip, cfg.mode));
    if ok {
      w.info := Some(ZipInfo(io.genUrl(cfg.bucket, zipPath, zipName, false),
                             GetChecksum(io, zip), io.length(zip)));
    }
  }

  // ---- Bookkeeping of a run, one store call at a time ----

  /** When calls `start` .. `start + j - 1` are accepted and call `start + j`
      is refused (or j is the whole run), the run stops after exactly j
      successful calls. */
  lemma {:induction false} StoppedAt(accepts: nat -> bool, start: nat, n: nat, j: nat)
    requires j <= n
    requires forall x :: start <= x < start + j ==> accepts(x)
    requires j < n ==> !accepts(start + j)
    ensures FirstFailure(accepts, start, n) == j
    decreases j
  {
    if j > 0 {
      assert accepts(start);
      StoppedAt(accepts, start + 1, n - 1, j - 1);
    }
  }

  /** The first `n` planned calls have been made and all succeeded. */
  predicate Progress(a0: seq<StoredObject>, o0: seq<StoredObject>,
                     a: seq<StoredObject>, o: seq<StoredObject>,
                     accepts: nat -> bool, plan: seq<StoredObject>, n: nat) {
    && n <= |plan|
    && a == a0 + plan[..n]
    && o == o0 + plan[..n]
    && forall x :: |a0| <= x < |a0| + n ==> accepts(x)
  }

  lemma Begin(a0: seq<StoredObject>, o0: seq<StoredObject>, accepts: nat -> bool, plan: seq<StoredObject>)
    ensures Progress(a0, o0, a0, o0, accepts, plan, 0)
  {
    assert a0 + plan[..0] == a0;
    assert o0 + plan[..0] == o0;
  }

  lemma StepSucceeded(a0: seq<StoredObject>, o0: seq<StoredObject>,
                      a: seq<StoredObject>, o: seq<StoredObject>,
                      a': seq<StoredObject>, o': seq<StoredObject>,
                      accepts: nat -> bool, plan: seq<StoredObject>, n: nat)
    requires Progress(a0, o0, a, o, accepts, plan, n) && n < |plan|
    requires a' == a + [plan[n]] && o' == o + [plan[n]] && accepts(|a|)
    ensures Progress(a0, o0, a', o', accepts, plan, n + 1)
    ensures a' == a0 + plan[..n + 1] && o' == o0 + plan[..n + 1]
  {
    assert plan[..n + 1] == plan[..n] + [plan[n]];
    assert a' == a0 + (plan[..n] + [plan[n]]) && o' == o0 + (plan[..n] + [plan[n]]);
  }

  lemma StepFailed(a0: seq<StoredObject>, o0: seq<StoredObject>,
                   a: seq<StoredObject>, o: seq<StoredObject>,
                   a': seq<StoredObject>, o': seq<StoredObject>,
                   accepts: nat -> bool, plan: seq<StoredObject>, n: nat)
    requires Progress(a0, o0, a, o, accepts, plan, n) && n < |plan|
    requires a' == a + [plan[n]] && o' == o && !accepts(|a|)
    ensures RunOutcome(a0, o0, a', o', accepts, plan)
    ensures FirstFailure(accepts, |a0|, |plan|) == n
  {
    StoppedAt(accepts, |a0|, |plan|, n);
    assert plan[..n + 1] == plan[..n] + [plan[n]];
    assert a' == a0 + (plan[..n] + [plan[n]]);
  }

  lemma Finished(a0: seq<StoredObject>, o0: seq<StoredObject>,
                 a: seq<StoredObject>, o: seq<StoredObject>,
                 accepts: nat -> bool, plan: seq<StoredObject>)
    requires Progress(a0, o0, a, o, accepts, plan, |plan|)
    ensures RunOutcome(a0, o0, a, o, accepts, plan)
    ensures FirstFailure(accepts, |a0|, |plan|) == |plan|
  {
    StoppedAt(accepts, |a0|, |plan|, |plan|);
  }



  // ---------------------------------------------------------------------
  // createWallpaper
  // ---------------------------------------------------------------------

  /** The fields createWallpaper sets before the pipeline runs: fixed initial
      values, the caller's data, and the terminal range only when both
      maxima are positive. */
  predicate Initialised(w: Wallpaper, code: string, name: string, author: string, size: nat,
                        now: nat, categories: set<Category>, pkgForTerminals: set<string>,
                        minw: int, maxw: int, minh: int, maxh: int)
    reads w`code, w`name, w`author, w`source, w`size, w`downloadCount, w`browseCount
    reads w`createAt, w`categories, w`pkgForTerminals, w`status
    reads w`minWidthForTerminal, w`maxWidthForTerminal, w`minHeightForTerminal, w`maxHeightForTerminal
  {
    && w.code == code && w.name == name && w.author == author
    && w.source == WallpaperSource && w.size == size
    && w.downloadCount == 0 && w.browseCount == 0
    && w.createAt == Some(now) && w.categories == categories
    && w.pkgForTerminals == pkgForTerminals && w.status == Some(Verify)
    && (if maxw > 0 && maxh > 0
        then && w.minWidthForTerminal == Some(minw) && w.maxWidthForTerminal == Some(maxw)
             && w.minHeightForTerminal == Some(minh) && w.maxHeightForTerminal == Some(maxh)
        else && w.minWidthForTerminal.None? && w.maxWidthForTerminal.None?
             && w.minHeightForTerminal.None? && w.maxHeightForTerminal.None?)
  }

  /** The URLs and checksums a completed run leaves on the wallpaper. */
  predicate ResourcesRecorded(w: Wallpaper, file: Blob, name: string, author: string, now: nat,
                              cfg: Config, io: Io)
    reads w
  {
    var master := Master(file, io);
    && w.file == Some(UrlOf(io, OriginObject(cfg, io, master, w.code, now)))
    && w.checksum == GetChecksum(io, master)
    && w.cover == Some(UrlOf(io, CoverObject(cfg, io, master, w.code, now)))
    && w.info == Some(ZipInfo(UrlOf(io, ZipObject(cfg, io, master, name, author, w.code, now)),
                              GetChecksum(io, Archive(name, author, master)),
                              io.length(Archive(name, author, master))))
  }

  /** createWallpaper(file, name, author, categories, pkgForTerminals, minw,
      maxw, minh, maxh). `code` stands for the random UUID and `now` for the
      current time in milliseconds. `ok` is false where a store call fails;
      the source throws there, so the wallpaper is not handed to the caller. */
  method CreateWallpaper(file: Blob, name: string, author: string, categories: set<Category>,
                         pkgForTerminals: set<string>, minw: int, maxw: int, minh: int, maxh: int,
                         code: string, now: nat, cfg: Config, io: Io, order: seq<nat>,
                         store: AssetStore)
    returns (w: Wallpaper, ok: bool)
    requires IsKeyOrder(order)
    modifies store
    ensures fresh(w)
    ensures Initialised(w, code, name, author, io.length(file), now, categories, pkgForTerminals,
                        minw, maxw, minh, maxh)
    ensures var plan := Plan(file, name, author, code, now, cfg, io, order);
      && RunOutcome(old(store.attempts), old(store.objects), store.attempts, store.objects,
                    store.accepts, plan)
      && ok == (FirstFailure(store.accepts, |old(store.attempts)|, |plan|) == |plan|)
    ensures ok ==> ResourcesRecorded(w, file, name, author, now, cfg, io)
  {
    w := NewWallpaper(name, author, categories, pkgForTerminals, minw, maxw, minh, maxh,
                      code, now, io.length(file));
    ghost var a0 := store.attempts;
    ok := CreateAndSaveStaticRes(file, name, author, now, w, cfg, io, order, store);
    assert w.code == code;
    assert ok ==> store.accepts(|a0|);
  }

  /** The part of createWallpaper before the pipeline runs: a new wallpaper
      with its fields set, the terminal range only when both maxima are
      positive. */
  method NewWallpaper(name: string, author: string, categories: set<Category>,
                      pkgForTerminals: set<string>, minw: int, maxw: int, minh: int, maxh: int,
                      code: string, now: nat, size: nat)
    returns (w: Wallpaper)
    ensures fresh(w)
    ensures Initialised(w, code, name, author, size, now, categories, pkgForTerminals,
                        minw, maxw, minh, maxh)
  {
    if maxw > 0 && maxh > 0 {
      w := new Wallpaper(code, name, author, size, now, categories, pkgForTerminals,
                         Some(minw), Some(maxw), Some(minh), Some(maxh));
    } else {
      w := new Wallpaper(code, name, author, size, now, categories, pkgForTerminals,
                         None, None, None, None);
    }
  }

  /** createWallpaper without pkgForTerminals: both launcher packages. */
  method CreateWallpaperForLaunchers(file: Blob, name: string, author: string, categories: set<Category>,
                                     minw: int, maxw: int, minh: int, maxh: int,
                                     code: string, now: nat, cfg: Config, io: Io, order: seq<nat>,
                                     store: AssetStore)
    returns (w: Wallpaper, ok: bool)
    requires IsKeyOrder(order)
    modifies store
    ensures fresh(w)
    ensures Initialised(w, code, name, author, io.length(file), now, categories,
                        {cfg.singlePkg, cfg.doublePkg}, minw, maxw, minh, maxh)
    ensures var plan := Plan(file, name, author, code, now, cfg, io, order);
      && RunOutcome(old(store.attempts), old(store.objects), store.attempts, store.objects,
                    store.accepts, plan)
      && ok == (FirstFailure(store.accepts, |old(store.attempts)|, |plan|) == |plan|)
    ensures ok ==> ResourcesRecorded(w, file, name, author, now, cfg, io)
  {
    var pkgForTerminals: set<string> := {};
    pkgForTerminals := pkgForTerminals + {cfg.singlePkg};
    pkgForTerminals := pkgForTerminals + {cfg.doublePkg};
    w, ok := CreateWallpaper(file, name, author, categories, pkgForTerminals,
                             minw, maxw, minh, maxh, code, now, cfg, io, order, store);
  }

  /** createWallpaper(file, categories): placeholder name and author, no
      terminal range. */
  method CreateDefaultWallpaper(file: Blob, categories: set<Category>,
                                code: string, now: nat, cfg: Config, io: Io, order: seq<nat>,
                                store: AssetStore)
    returns (w: Wallpaper, ok: bool)
    requires IsKeyOrder(order)
    modifies store
    ensures fresh(w)
    ensures Initialised(w, code, DefaultName, DefaultAuthor, io.length(file), now, categories,
                        {cfg.singlePkg, cfg.doublePkg}, 0, 0, 0, 0)
    ensures w.name == "手机壁纸" && w.author == "来自互联网"
    ensures w.minWidthForTerminal.None? && w.maxWidthForTerminal.None?
    ensures w.minHeightForTerminal.None? && w.maxHeightForTerminal.None?
    ensures var plan := Plan(file, DefaultName, DefaultAuthor, code, now, cfg, io, order);
      && RunOutcome(old(store.attempts), old(store.objects), store.attempts, store.objects,
                    store.accepts, plan)
      && ok == (FirstFailure(store.accepts, |old(store.attempts)|, |plan|) == |plan|)
    ensures ok ==> ResourcesRecorded(w, file, DefaultName, DefaultAuthor, now, cfg, io)
  {
    w, ok := CreateWallpaperForLaunchers(file, "手机壁纸", "来自互联网", categories, 0, 0, 0, 0,
                                         code, now, cfg, io, order, store);
  }

  // ---------------------------------------------------------------------
  // Properties of a run
  // ---------------------------------------------------------------------

  /** The elements of a sequence, as a set. */
  function Elements(s: seq<nat>): (e: set<nat>)
    ensures forall x :: x in e <==> x in s
    decreases |s|
  {
    if s == [] then {} else Elements(s[..|s| - 1]) + {s[|s| - 1]}
  }

  lemma {:induction false} DistinctSeqCard(s: seq<nat>)
    requires forall i, j :: 0 <= i < j < |s| ==> s[i] != s[j]
    ensures |Elements(s)| == |s|
    decreases |s|
  {
    if s != [] {
      var init, last := s[..|s| - 1], s[|s| - 1];
      DistinctSeqCard(init);
      assert last !in init;
    }
  }

  lemma WallpaperSizeCount()
    ensures |WallpaperSize.Keys| == 8
  {
    var keys := [120, 160, 240, 320, 360, 480, 460, 144];
    assert |Elements(keys)| == 8 by {
      DistinctSeqCard(keys);
    }
    assert WallpaperSize.Keys == Elements(keys) by {
      forall x ensures x in WallpaperSize.Keys <==> x in Elements(keys) {
      }
    }
  }

  /** WALLPAPER_SIZE has eight keys, so every iteration order has length eight. */
  lemma KeyOrderLength(order: seq<nat>)
    requires IsKeyOrder(order)
    ensures |order| == 8 == |WallpaperSize|
  {
    DistinctSeqCard(order);
    WallpaperSizeCount();
    assert Elements(order) == WallpaperSize.Keys;
  }

  /** A run plans eleven store calls: the original, the cover at 120x100
      under the origin path, one crop per key under `crop/<w>x<h>/`, and the
      zip of the master under the zips path. */
  lemma PlanLayout(file: Blob, name: string, author: string, code: string, now: nat,
                   cfg: Config, io: Io, order: seq<nat>)
    requires IsKeyOrder(order)
    ensures var plan := Plan(file, name, author, code, now, cfg, io, order);
      var master := Master(file, io);
      && |order| == 8
      && |plan| == 11
      && plan[0] == OriginObject(cfg, io, master, code, now)
      && plan[1] == CoverObject(cfg, io, master, code, now)
      && (forall i :: 0 <= i < 8 ==> plan[2 + i] == CropObject(cfg, io, master, code, now, order[i]))
      && plan[10] == ZipObject(cfg, io, master, name, author, code, now)
      && TailLaidOut(plan, cfg, io, master, name, author, code, now, order)
  {
    KeyOrderLength(order);
    PlanShape(file, name, author, code, now, cfg, io, order);
  }

  /** The layout of a plan for any iteration order of the keys, stated
      without fixing the number of keys. */
  lemma PlanShape(file: Blob, name: string, author: string, code: string, now: nat,
                  cfg: Config, io: Io, order: seq<nat>)
    requires IsKeyOrder(order)
    ensures var plan := Plan(file, name, author, code, now, cfg, io, order);
      && plan[0] == OriginObject(cfg, io, Master(file, io), code, now)
      && TailLaidOut(plan, cfg, io, Master(file, io), name, author, code, now, order)
  {
    var plan := Plan(file, name, author, code, now, cfg, io, order);
    var master := Master(file, io);
    var crops := CropPlan(cfg, io, master, code, now, order);
    assert plan == [OriginObject(cfg, io, master, code, now), CoverObject(cfg, io, master, code, now)]
                   + crops + [ZipObject(cfg, io, master, name, author, code, now)];
  }

  /** Every planned object is named from the same run code, by its own
      content, with the plain suffix for the original and the zip and the
      cover suffix for the cover and the crops. */
  lemma PlanNamedByCode(file: Blob, name: string, author: string, code: string, now: nat,
                        cfg: Config, io: Io, order: seq<nat>)
    requires IsKeyOrder(order)
    ensures var plan := Plan(file, name, author, code, now, cfg, io, order);
      forall i :: 0 <= i < |plan| ==>
        && plan[i].bucket == cfg.bucket && plan[i].mode == cfg.mode
        && plan[i].name == io.relativeName(plan[i].content, code, "",
                             if i == 0 || i == |plan| - 1 then PlainSuffix(now) else CoverSuffix(now))
  {
    PlanLayout(file, name, author, code, now, cfg, io, order);
  }

  /** The number of operations that produced a file. */
  function Depth(b: Blob): nat {
    match b
    case Original(_) => 0
    case Compressed(f, _) => 1 + Depth(f)
    case Scaled(f, _, _) => 1 + Depth(f)
    case Archive(_, _, f) => 1 + Depth(f)
  }

  /** The master is compressed exactly when the upload is longer than 200 KiB. */
  lemma CompressionIff(file: Blob, io: Io)
    ensures Master(file, io) != file <==> io.length(file) > 200 * 1024
    ensures Master(file, io) != file ==> Master(file, io) == Compressed(file, 80)
  {
    if io.length(file) > 200 * 1024 {
      assert Depth(Master(file, io)) == 1 + Depth(file);
    }
  }

  /** The characters of `<a>x<b>/`: `a` first, then the `x`. */
  lemma SegmentChars(a: string, b: string)
    ensures |a + "x" + b + "/"| == |a| + |b| + 2
    ensures (a + "x" + b + "/")[|a|] == 'x'
    ensures forall i :: 0 <= i < |a| ==> (a + "x" + b + "/")[i] == a[i]
  {
  }

  /** Splitting `<digits>x<rest>/` at its first `x` recovers the digits. */
  lemma DigitsBeforeX(a1: string, b1: string, a2: string, b2: string)
    requires forall i :: 0 <= i < |a1| ==> IsDigit(a1[i])
    requires forall i :: 0 <= i < |a2| ==> IsDigit(a2[i])
    requires a1 + "x" + b1 + "/" == a2 + "x" + b2 + "/"
    ensures a1 == a2
  {
    SegmentChars(a1, b1);
    SegmentChars(a2, b2);
    assert |a1| == |a2|;
    assert a1 == (a1 + "x" + b1 + "/")[..|a1|];
    assert a2 == (a2 + "x" + b2 + "/")[..|a2|];
  }

  /** A crop path is the crop base path followed by the `<w>x<h>/` segment. */
  lemma CropPathSplit(cfg: Config, key: nat)
    requires key in WallpaperSize
    ensures CropPath(cfg, key)
         == CropBasePath(cfg) + (NatToString(key) + "x" + NatToString(WallpaperSize[key]) + "/")
  {
    SegmentAfter(CropBasePath(cfg), NatToString(key), NatToString(WallpaperSize[key]));
  }

  lemma SegmentAfter(p: string, a: string, b: string)
    ensures p + a + "x" + b + "/" == p + (a + "x" + b + "/")
  {
  }

  /** Crop paths determine their key. */
  lemma CropPathInjective(cfg: Config, k1: nat, k2: nat)
    requires k1 in WallpaperSize && k2 in WallpaperSize
    requires CropPath(cfg, k1) == CropPath(cfg, k2)
    ensures k1 == k2
  {
    var p := CropBasePath(cfg);
    var t1 := NatToString(k1) + "x" + NatToString(WallpaperSize[k1]) + "/";
    var t2 := NatToString(k2) + "x" + NatToString(WallpaperSize[k2]) + "/";
    CropPathSplit(cfg, k1);
    CropPathSplit(cfg, k2);
    assert t1 == (p + t1)[|p|..];
    assert t2 == (p + t2)[|p|..];
    DigitsBeforeX(NatToString(k1), NatToString(WallpaperSize[k1]), NatToString(k2), NatToString(WallpaperSize[k2]));
    NatToStringInjective(k1, k2);
  }

  /** The crops cover every entry of WALLPAPER_SIZE, each scaled to exactly
      its size and stored under its own path; no two crops share a path. */
  lemma CropsExhaustiveAndDistinct(file: Blob, name: string, author: string, code: string, now: nat,
                                   cfg: Config, io: Io, order: seq<nat>)
    requires IsKeyOrder(order)
    ensures var plan := Plan(file, name, author, code, now, cfg, io, order);
      var master := Master(file, io);
      && |plan| == 11
      && (forall key :: key in WallpaperSize ==>
            exists i :: 2 <= i < 10 && plan[i].content == Scaled(master, key, WallpaperSize[key])
                                    && plan[i].path == CropPath(cfg, key))
      && (forall i, j :: 2 <= i < j < 10 ==> plan[i].path != plan[j].path)
  {
    var plan := Plan(file, name, author, code, now, cfg, io, order);
    var master := Master(file, io);
    PlanLayout(file, name, author, code, now, cfg, io, order);
    forall key | key in WallpaperSize
      ensures exists i :: 2 <= i < 10 && plan[i].content == Scaled(master, key, WallpaperSize[key])
                                      && plan[i].path == CropPath(cfg, key)
    {
      var n :| 0 <= n < |order| && order[n] == key;
      assert plan[2 + n] == CropObject(cfg, io, master, code, now, order[n]);
    }
    forall i, j | 2 <= i < j < 10
      ensures plan[i].path != plan[j].path
    {
      assert plan[i] == CropObject(cfg, io, master, code, now, order[i - 2]);
      assert plan[j] == CropObject(cfg, io, master, code, now, order[j - 2]);
      if plan[i].path == plan[j].path {
        CropPathInjective(cfg, order[i - 2], order[j - 2]);
      }
    }
  }

  /** A run in which no call fails stores exactly the eleven planned objects
      after those already in the store. */
  lemma CompletedRunStoresAll(attempts0: seq<StoredObject>, objects0: seq<StoredObject>,
                              attempts1: seq<StoredObject>, objects1: seq<StoredObject>,
                              accepts: nat -> bool,
                              file: Blob, name: string, author: string, code: string, now: nat,
                              cfg: Config, io: Io, order: seq<nat>)
    requires IsKeyOrder(order)
    requires var plan := Plan(file, name, author, code, now, cfg, io, order);
      RunOutcome(attempts0, objects0, attempts1, objects1, accepts, plan)
    requires forall x :: |attempts0| <= x < |attempts0| + 11 ==> accepts(x)
    ensures var plan := Plan(file, name, author, code, now, cfg, io, order);
      && objects1 == objects0 + plan
      && attempts1 == attempts0 + plan
      && |objects1| == |objects0| + 11
  {
    var plan := Plan(file, name, author, code, now, cfg, io, order);
    PlanLayout(file, name, author, code, now, cfg, io, order);
    StoppedAt(accepts, |attempts0|, |plan|, 11);
    assert plan[..11] == plan;
  }

  /** A run whose call number `k` fails makes no call after it, and the
      store keeps everything stored before the run and by calls 0..k-1. */
  lemma FailedRunStopsAtFailure(attempts0: seq<StoredObject>, objects0: seq<StoredObject>,
                                attempts1: seq<StoredObject>, objects1: seq<StoredObject>,
                                accepts: nat -> bool, plan: seq<StoredObject>)
    requires RunOutcome(attempts0, objects0, attempts1, objects1, accepts, plan)
    requires FirstFailure(accepts, |attempts0|, |plan|) < |plan|
    ensures var k := FirstFailure(accepts, |attempts0|, |plan|);
      && |attempts1| == |attempts0| + k + 1
      && attempts1[|attempts1| - 1] == plan[k]
      && !accepts(|attempts1| - 1)
      && attempts1[..|attempts0|] == attempts0
      && attempts1[|attempts0|..] == plan[..k + 1]
      && objects1[..|objects0|] == objects0
      && objects1[|objects0|..] == plan[..k]
  {
    var k := FirstFailure(accepts, |attempts0|, |plan|);
    assert attempts1[|attempts0|..] == plan[..k + 1];
  }

  /** Scenario: the store rejects the third crop (the fifth call). The run
      fails, and the original, the cover and the first two crops stay stored. */
  lemma ThirdCropFailureScenario(attempts0: seq<StoredObject>, objects0: seq<StoredObject>,
                                 attempts1: seq<StoredObject>, objects1: seq<StoredObject>,
                                 accepts: nat -> bool,
                                 file: Blob, name: string, author: string, code: string, now: nat,
                                 cfg: Config, io: Io, order: seq<nat>)
    requires IsKeyOrder(order)
    requires var plan := Plan(file, name, author, code, now, cfg, io, order);
      RunOutcome(attempts0, objects0, attempts1, objects1, accepts, plan)
    requires forall x :: |attempts0| <= x < |attempts0| + 4 ==> accepts(x)
    requires !accepts(|attempts0| + 4)
    ensures var master := Master(file, io);
      && |order| == 8
      && objects1 == objects0 + [OriginObject(cfg, io, master, code, now),
                                 CoverObject(cfg, io, master, code, now),
                                 CropObject(cfg, io, master, code, now, order[0]),
                                 CropObject(cfg, io, master, code, now, order[1])]
      && |attempts1| == |attempts0| + 5
      && attempts1[|attempts1| - 1] == CropObject(cfg, io, master, code, now, order[2])
  {
    var plan := Plan(file, name, author, code, now, cfg, io, order);
    PlanLayout(file, name, author, code, now, cfg, io, order);
    StoppedAt(accepts, |attempts0|, |plan|, 4);
    assert objects1 == objects0 + plan[..4];
    assert attempts1 == attempts0 + plan[..5];
    assert plan[..4] == [plan[0], plan[1], plan[2], plan[3]];
    assert |plan[..5]| == 5 && plan[..5][4] == plan[4];
  }
}
