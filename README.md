# WallpaperService: upload validation and the static-resource pipeline

This project models the core of `services.WallpaperService` in Dafny. That
core has two halves: the validators that check a wallpaper upload, and the
routine that turns an accepted upload into a `Wallpaper` record plus the
files stored on the CDN.

- **Validation** (`validation.dfy`) has three validators.
  - `verifyInfo` for a single image checks the file and then the metadata.
    - The file checks are gated in a fixed order: presence, extension, then
      the exact 960x800 dimensions. At most one of them reports.
    - After them come three independent checks: a blank name, a blank author,
      and a terminal range inverted on both axes.
  - `verifyInfo` for a batch archive checks presence and the `zip` extension.
  - `verifyZip` checks every entry of an unpacked directory. Each entry can
    yield a format error and, independently, a size error.

  Each validator is a method that builds its result list by appending, as the
  source does. `VerifyInfo`, `VerifyBatchInfo` and `VerifyZip` are proved
  equal to the specification functions `UploadErrors`, `BatchErrors` and
  `ZipErrors`. The properties of the lists are lemmas about those functions
  and ensures of the methods.

- **Pipeline** (`pipeline.dfy`) covers the three `createWallpaper` overloads
  and `createAndSaveStaticRes`.
  - `createWallpaper` fills a new `Wallpaper`. The terminal range is copied
    only when both maxima are positive. The other two overloads supply
    defaults.
  - The pipeline stores, in this order:
    1. the original, re-encoded first when it is longer than 200 KiB;
    2. a 120x100 cover;
    3. one crop per `WALLPAPER_SIZE` entry under `crop/<w>x<h>/`;
    4. a zip package.

    The first rejected store call ends the run, and everything already stored
    stays in place.
  - The run is specified by `Plan`, the list of the eleven store calls a
    complete run makes, and by `RunOutcome`, what the store holds after a run
    that stops at the first rejected call. `CreateAndSaveStaticRes` is proved
    to leave the store in exactly the state `RunOutcome` describes.

- **Storage** (`storage.dfy`) holds everything the pipeline calls but whose
  code is not part of this model:
  - the image library, the archive builder and the CRC32 routine;
  - the CDN naming and URL functions;
  - the remote store itself.

  Derived files are terms (`Scaled(master, 120, 100)`), which keeps the
  model's image and archive operations uninterpreted.
- **Common** (`common.dfy`) holds small helpers:
  - Java `null` as `Option`;
  - decimal rendering of integers;
  - `StringUtils.isBlank`;
  - ASCII lower-casing.

Two modelling conventions:

- **Store failure.** The remote store is an `AssetStore` object with the
  fields `attempts` (every call, in order) and `objects` (the calls that
  succeeded). Whether a call succeeds is decided by an oracle `accepts`,
  indexed by the number of earlier calls. A pipeline method returns
  `ok == false` where a store call fails. In the source, a failed store
  call throws.
- **Parameters for the outside world.** The UUID, the clock, the
  configuration and the iteration order of `WALLPAPER_SIZE` are all
  parameters.

The single-upload extension test at `WallpaperService.java:56` is kept as
written. It rejects every extension other than `jpg`, so `png` files are
rejected even though the error message invites them. `ImageFormatAcceptsOnlyJpg`
and `EntryFormatAcceptsOnlyJpg` state this behaviour.

## Model

| member | source | states |
|---|---|---|
| Common.NatToString | WallpaperService.java:213 | the decimal form of a number: a non-empty digit string whose value (`DecimalValue`) is the number, with a leading `0` only for zero, a single digit exactly below 10 |
| Common.RenderExamples | WallpaperService.java:230 | 120 renders as `120` and 0 as `0` |
| Common.NatToStringInjective | WallpaperService.java:230 | distinct numbers render as distinct strings, since each rendering spells its number; so `<w>x<h>` segments of distinct widths differ |
| Common.ToLowerAscii | WallpaperService.java:120 | lower-casing keeps the length and maps each letter A-Z to a-z, leaving every other character unchanged |
| Common.LowerIsJpg | WallpaperService.java:120-121 | an extension lower-cases to `jpg` exactly when it is three letters j/J, p/P, g/G |
| Common.BlankCases | WallpaperService.java:64-68 | `isBlank` holds of the empty string and of whitespace-only strings. It fails for any string holding a character that is not Java whitespace, the three no-break spaces included |
| Storage.GetChecksum | WallpaperService.java:249-256 | the checksum is absent exactly when the CRC32 cannot be computed, and otherwise is its decimal string |
| Storage.AssetStore.Store | WallpaperService.java:215 | one store call is appended to the attempts; its object is kept exactly when the oracle accepts it |
| Validation.VerifyInfo | WallpaperService.java:51-74 | the list equals `UploadErrors`, and it is empty exactly when the upload is acceptable |
| Validation.UploadAcceptedIff | WallpaperService.java:54-73 | no error exactly when: the file is present and non-empty, is `jpg` and is 960x800; name and author are not blank; the range is not inverted on both axes |
| Validation.UploadFileErrors | WallpaperService.java:54-63 | at most one `file` error; a missing file gives the missing-file error, a non-`jpg` file the format error; the size error appears iff an accepted extension has the wrong size |
| Validation.ImageFormatAcceptsOnlyJpg | WallpaperService.java:56-57 | the single-upload format test rejects exactly the extensions other than `jpg`, `png` included |
| Validation.MetadataHasNoFileErrors | WallpaperService.java:64-72 | the name, author and terminal checks never produce a `file` entry |
| Validation.MetadataChecksIndependent | WallpaperService.java:54-72 | the entries after the file errors depend only on the metadata, and a missing file contributes exactly its one error before them |
| Validation.TerminalErrorIff | WallpaperService.java:70-72 | a terminal error appears iff both axes are inverted; an inversion on one axis only is accepted |
| Validation.UploadErrorOrder | WallpaperService.java:53-73 | at most four entries, with fields among file/name/author/terminal, strictly in that order |
| Validation.WrongDimensionScenario | WallpaperService.java:58-63 | a 500x500 `jpg` with complete metadata yields exactly the size error |
| Validation.VerifyBatchInfo | WallpaperService.java:82-107 | the list equals `BatchErrors`; at most one `file` error: missing-file for an absent or empty file, the zip-format error for another extension, none exactly for a non-empty `zip` |
| Validation.VerifyZip | WallpaperService.java:115-130 | the list equals `ZipErrors` of the entries in directory order, has at most two entries per image, all about `file`, and is empty exactly when every entry is acceptable |
| Validation.ZipErrorsShape | WallpaperService.java:119-129 | at most two errors per entry, all tagged `file`, none exactly when every entry is a 960x800 `jpg` after lower-casing |
| Validation.EntryErrorsShape | WallpaperService.java:120-127 | one entry yields at most two `file` errors, and none exactly when it is acceptable |
| Validation.EntryFormatAcceptsOnlyJpg | WallpaperService.java:120-123 | the per-entry format test rejects exactly the lower-cased extensions other than `jpg`; `jpeg` and `png` are rejected and `JPG` is accepted |
| Validation.ZipErrorsAppend | WallpaperService.java:119-128 | errors follow directory order: the list for a listing split in two is the first part's list followed by the second's |
| Validation.ZipErrorCount | WallpaperService.java:119-128 | the list holds one format error per rejected extension plus one size error per entry that is not 960x800 |
| Pipeline.Wallpaper.constructor | WallpaperService.java:149-165 | a new wallpaper holds the given code, name, author, size, time, categories, packages and range; its counters are 0, its source is `baibian`, its status is VERIFY, and its resource fields are unset |
| Pipeline.NewWallpaper | WallpaperService.java:148-166 | the fields are set as `Initialised` describes; the four terminal fields are set iff `maxw > 0 && maxh > 0` |
| Pipeline.CreateWallpaper | WallpaperService.java:146-171 | a fresh wallpaper that is `Initialised`; the store ends as `RunOutcome` of the plan for that code; `ok` iff every planned call succeeded, and then all resource URLs and checksums are recorded |
| Pipeline.CreateWallpaperForLaunchers | WallpaperService.java:178-187 | as `CreateWallpaper`, with the package set `{SINGLE_PKG, DOUBLE_PKG}` |
| Pipeline.CreateDefaultWallpaper | WallpaperService.java:194-197 | as above, with name `手机壁纸`, author `来自互联网` and all four terminal fields unset |
| Pipeline.CropPlan | WallpaperService.java:227-231 | one crop object per key in iteration order, each the master scaled to that key's size |
| Pipeline.Plan | WallpaperService.java:212-238 | the calls of a complete run: three more than there are keys |
| Pipeline.FirstFailure | WallpaperService.java:215-238 | the index of the first planned call the oracle rejects: every earlier call is accepted, and that one is not |
| Pipeline.CreateAndSaveStaticRes | WallpaperService.java:200-247 | the store holds exactly `RunOutcome` of the plan; `ok` iff no call failed; the file URL is always set; checksum and cover only once the original is stored; the zip info only on success |
| Pipeline.CompressIfLarge | WallpaperService.java:207-209 | the file the pipeline works on is `Master` of the upload |
| Pipeline.SaveOrigin | WallpaperService.java:212-216 | one call storing the master under the origin path; the URL is set before the call, the checksum only after it succeeds |
| Pipeline.SaveCover | WallpaperService.java:219-222 | one call storing the 120x100 cover under the origin path, with its URL recorded |
| Pipeline.SaveCrop | WallpaperService.java:228-231 | one call storing the master scaled to a key's size under `crop/<w>x<h>/` |
| Pipeline.SaveCrops | WallpaperService.java:225-232 | if every crop is stored, the run has made its crop calls in key order; otherwise the store ends as `RunOutcome`, with the first failure among the crops |
| Pipeline.SaveZip | WallpaperService.java:235-243 | one call storing the archive under the zips path; its URL, checksum and size are recorded only after it succeeds |
| Pipeline.SaveAfterOrigin | WallpaperService.java:219-243 | after the original: cover, crops, zip, ending as `RunOutcome` with `ok` iff no call failed |
| Pipeline.SaveCropsAndZip | WallpaperService.java:225-243 | after the cover: crops and zip, ending as `RunOutcome` with `ok` iff no call failed |
| Pipeline.SaveLastZip | WallpaperService.java:235-243 | the zip as the last planned call, after every earlier call succeeded: the run ends as `RunOutcome`, `ok` iff the zip was stored, and the zip record is set only then |
| Pipeline.StoppedAt | WallpaperService.java:215-238 | when calls `0..j-1` are accepted and call `j` (if any) is rejected, the first failure is `j` |
| Pipeline.WallpaperSizeCount | WallpaperService.java:42-44 | WALLPAPER_SIZE has eight distinct keys |
| Pipeline.KeyOrderLength | WallpaperService.java:227 | every iteration order of WALLPAPER_SIZE's keys has length eight |
| Pipeline.PlanLayout | WallpaperService.java:212-238 | eleven calls: origin, 120x100 cover, the eight crops in key order, zip |
| Pipeline.PlanShape | WallpaperService.java:212-238 | for any key order: origin first, cover second, crop `i` at position `2 + i`, zip last |
| Pipeline.PlanNamedByCode | WallpaperService.java:213-237 | every planned object goes to the configured bucket and mode, and is named from the same wallpaper code: plain suffix for original and zip, `_cover_` suffix otherwise |
| Pipeline.CompressionIff | WallpaperService.java:207-209 | the master differs from the upload iff the upload is longer than 200 KiB, and then it is the quality-80 re-encoding |
| Pipeline.CropPathInjective | WallpaperService.java:230 | distinct keys have distinct crop paths |
| Pipeline.CropsExhaustiveAndDistinct | WallpaperService.java:227-232 | every WALLPAPER_SIZE entry has a crop scaled to exactly its size under its own path, and no two crops share a path |
| Pipeline.CompletedRunStoresAll | WallpaperService.java:212-238 | a run in which no call fails attempts and stores exactly the eleven planned objects after those already present |
| Pipeline.FailedRunStopsAtFailure | WallpaperService.java:215-238 | a run failing at call `k` makes exactly the planned calls `0..k` after the earlier attempts, the last one rejected, and none later; it keeps the earlier objects plus those of calls `0..k-1` |
| Pipeline.ThirdCropFailureScenario | WallpaperService.java:225-232 | when the fifth call (the third crop) fails, the store keeps origin, cover and the first two crops, and the rejected crop is the last call made |

## Left out

- Image decoding, scaling and re-encoding (`ImageIO.read`, `ImageUtils`) and `BuildZip.buildWallpaper` are foreign code. They are modelled as uninterpreted terms of the `Blob` datatype.
- The CRC32 (`FileUtils.checksumCRC32`) is a foreign call. It is a function that may fail; a failed checksum is recorded as absent and does not abort the run, as in the source.
- `Store.generateRelativePathOnCdn`, `Store.genUrl` and `Store.store` are remote I/O. They are function parameters and a store with a failure oracle.
- `UUID.randomUUID`, `new Date()`, `Play.configuration`, `Constants` and `Logger` are randomness, clock, configuration and logging. The code and the time are parameters; the base path, bucket, store mode and package names are a `Config` record; logging is dropped.
- The iteration order of `WALLPAPER_SIZE` depends on the hash map's implementation. It is a parameter, required to list each key exactly once.
- `ErrorMsgUtils.putErrorMsg` is not part of this model. Each call is modelled as appending one (field, message) entry.
- File names and `Store.getExtension` / `FilenameUtils.getExtension` are not part of this model. An upload is given by its presence, length, extension and decoded dimensions, and a directory entry by its name, extension and dimensions.
- The commented-out per-entry archive check in the batch `verifyInfo` is not code that runs.
- Java `null` strings are modelled as the empty string, which `isBlank` treats the same way. The Unicode case mapping of `toLowerCase` is restricted to ASCII, which decides the comparison with `jpg`, `jpeg` and `png` for every extension made of ASCII letters.
- The null pointer exceptions raised when `ImageIO.read` cannot decode a file are not modelled.
- Exceptions are not modelled as such. `CreateAndSaveStaticRes`, `CreateWallpaper`, `CreateWallpaperForLaunchers` and `CreateDefaultWallpaper` return `ok == false` where a store call fails; the source throws there, so the caller never receives the wallpaper.
- The foreign calls never fail in the model. In the source, the following exceptions abort a run or a validation, and none of them is modelled:
  - an `IOException` from `ImageIO.read` or `ImageUtils.compress` (WallpaperService.java:208), from `ImageUtils.scale` (:219, :228) or from `BuildZip.buildWallpaper` (:236). Inside createAndSaveStaticRes it is caught at :244 and rethrown at :245. `Compressed`, `Scaled` and `Archive` are total terms, so a modelled run always goes on to the next store call.
  - an `IOException` from `ImageIO.read` in the single-upload verifyInfo (:59) and in verifyZip (:124).
  - the null array that `rootDir.listFiles()` returns for a path that is not a directory (:118), which makes the loop at :119 throw. `VerifyZip` takes the listing as a sequence.
- CreateAndSaveStaticRes: the one source method is split into the stage methods `CompressIfLarge`, `SaveOrigin`, `SaveCover`, `SaveCrops`, `SaveCrop`, `SaveZip`, `SaveAfterOrigin`, `SaveCropsAndZip` and `SaveLastZip`. They run the same calls in the same order, and the split keeps each proof small.
- Pipeline.Wallpaper.constructor: it takes createWallpaper's field assignments as arguments in place of `new Wallpaper()` followed by the assignments. The resulting state is the same.
- The intermediate files made by compression, scaling and archiving are not removed by the source, and the model keeps no file system.
- The crop URLs are not modelled, because the source records no URL for the crops.
- The `long` size and time values are unbounded naturals, and the file length is a natural.
