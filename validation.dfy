/** The three upload validators of WallpaperService: the single-image check
    (verifyInfo with metadata), the batch-archive check (verifyInfo on a file
    alone) and the per-entry check of an extracted archive (verifyZip).
    Each builds its error list by appending (field, message) entries; each
    method here is proved equal to a specification function (UploadErrors,
    BatchErrors, ZipErrors), and the lemmas state what those lists contain. */
module Validation {
  import opened Common

  /** What the validators learn about an uploaded file: its byte length, the
      extension Store.getExtension reports for its name, and the pixel size
      ImageIO decodes from it. A null file is `None`. */
  datatype UploadInfo = UploadInfo(length: nat, extension: string, width: int, height: int)

  /** One file of an extracted archive directory: its name, the extension
      FilenameUtils.getExtension reports (before lower-casing) and its
      decoded pixel size. */
  datatype DirEntry = DirEntry(name: string, extension: string, width: int, height: int)

  /** One entry appended by ErrorMsgUtils.putErrorMsg: the form field it
      concerns and the message shown to the user. */
  datatype ErrorMsg = ErrorMsg(field: string, message: string)

  const RequiredWidth: int := 960
  const RequiredHeight: int := 800

  const MissingFileMsg: string := "请上传文件!"
  const ImageFormatMsg: string := "请上传jpg或png图片!"
  const ImageSizeMsg: string := "请上传960x800规格的图片!"
  const NameMsg: string := "请填写壁纸名称!"
  const AuthorMsg: string := "请填写壁纸作者!"
  const TerminalMsg: string := "适配终端宽度或高度值错误!"
  const ZipFormatMsg: string := "请上传zip格式的图片集!"
  const EntryFormatMsg: string := "文件格式错误!"
  const EntrySizeMsg: string := "尺寸错误！"

  const MissingFileError := ErrorMsg("file", MissingFileMsg)
  const ImageFormatError := ErrorMsg("file", ImageFormatMsg)
  const ImageSizeError := ErrorMsg("file", ImageSizeMsg)
  const NameError := ErrorMsg("name", NameMsg)
  const AuthorError := ErrorMsg("author", AuthorMsg)
  const TerminalError := ErrorMsg("terminal", TerminalMsg)
  const ZipFormatError := ErrorMsg("file", ZipFormatMsg)

  // ---------------------------------------------------------------------
  // The tests, as the source writes them
  // ---------------------------------------------------------------------

  /** The presence test of both verifyInfo overloads (WallpaperService.java:54
      and :84): no file, or an empty one. */
  predicate FileMissing(file: Option<UploadInfo>) {
    file.None? || file.value.length < 1
  }

  /** The single-upload format test as written at WallpaperService.java:56:
      rejected unless the extension is "jpg", or when it is "png". */
  predicate ImageFormatRejected(ext: string) {
    !(ext == "jpg") || ext == "png"
  }

  /** The archive-entry format test as written at WallpaperService.java:121,
      on the lower-cased extension: rejected unless it is "jpg", or when it is
      "jpeg" or "png". */
  predicate EntryFormatRejected(ext: string) {
    var e := ToLowerAscii(ext);
    !(e == "jpg") || e == "jpeg" || e == "png"
  }

  /** The dimension test (WallpaperService.java:60 and :125): anything other
      than exactly 960 pixels wide and 800 high. */
  predicate WrongSize(width: int, height: int) {
    width != RequiredWidth || height != RequiredHeight
  }

  /** The terminal-range test: both axes inverted (`&&`, not `||`). */
  predicate TerminalRangeInverted(minw: int, maxw: int, minh: int, maxh: int) {
    maxw < minw && maxh < minh
  }

  /** An error list holding `e` when `cond` holds. */
  function ErrorIf(cond: bool, e: ErrorMsg): seq<ErrorMsg> {
    if cond then [e] else []
  }

  // ---------------------------------------------------------------------
  // verifyInfo(file, name, author, category, minw, maxw, minh, maxh)
  // ---------------------------------------------------------------------

  /** The errors of the gated file checks: presence, then format, then size. */
  function ImageFileErrors(file: Option<UploadInfo>): seq<ErrorMsg> {
    if FileMissing(file) then [MissingFileError]
    else if ImageFormatRejected(file.value.extension) then [ImageFormatError]
    else ErrorIf(WrongSize(file.value.width, file.value.height), ImageSizeError)
  }

  /** The errors of the three metadata checks, which run whatever the file. */
  function MetadataErrors(name: string, author: string, minw: int, maxw: int, minh: int, maxh: int): seq<ErrorMsg> {
    ErrorIf(IsBlank(name), NameError)
      + ErrorIf(IsBlank(author), AuthorError)
      + ErrorIf(TerminalRangeInverted(minw, maxw, minh, maxh), TerminalError)
  }

  /** The list verifyInfo returns for a single upload. */
  function UploadErrors(file: Option<UploadInfo>, name: string, author: string,
                        minw: int, maxw: int, minh: int, maxh: int): seq<ErrorMsg> {
    ImageFileErrors(file) + MetadataErrors(name, author, minw, maxw, minh, maxh)
  }

  /** The conditions under which a single upload is accepted, stated directly. */
  predicate UploadAcceptable(file: Option<UploadInfo>, name: string, author: string,
                             minw: int, maxw: int, minh: int, maxh: int) {
    && file.Some?
    && file.value.length >= 1
    && file.value.extension == "jpg"
    && file.value.width == RequiredWidth && file.value.height == RequiredHeight
    && !IsBlank(name) && !IsBlank(author)
    && (minw <= maxw || minh <= maxh)
  }

  /** verifyInfo for a single image upload. `category` is taken and ignored,
      as in the source. */
  method VerifyInfo(file: Option<UploadInfo>, name: string, author: string, category: string,
                    minw: int, maxw: int, minh: int, maxh: int)
    returns (results: seq<ErrorMsg>)
    ensures results == UploadErrors(file, name, author, minw, maxw, minh, maxh)
    ensures results == [] <==> UploadAcceptable(file, name, author, minw, maxw, minh, maxh)
  {
    results := [];
    if file.None? || file.value.length < 1 {
      results := results + [ErrorMsg("file", MissingFileMsg)];
    } else if !(file.value.extension == "jpg") || file.value.extension == "png" {
      results := results + [ErrorMsg("file", ImageFormatMsg)];
    } else {
      var image := file.value;
      if image.width != 960 || image.height != 800 {
        results := results + [ErrorMsg("file", ImageSizeMsg)];
      }
    }
    ghost var fileErrors := results;
    assert fileErrors == ImageFileErrors(file);
    // the name, author and terminal errors, appended after the image errors
    var metadata := [];
    if IsBlank(name) {
      metadata := metadata + [ErrorMsg("name", NameMsg)];
    }
    if IsBlank(author) {
      metadata := metadata + [ErrorMsg("author", AuthorMsg)];
    }
    if maxw < minw && maxh < minh {
      metadata := metadata + [ErrorMsg("terminal", TerminalMsg)];
    }
    assert metadata == MetadataErrors(name, author, minw, maxw, minh, maxh);
    results := results + metadata;
    UploadAcceptedIff(file, name, author, minw, maxw, minh, maxh);
  }

  /** A single upload yields no error exactly when it is acceptable. */
  lemma UploadAcceptedIff(file: Option<UploadInfo>, name: string, author: string,
                          minw: int, maxw: int, minh: int, maxh: int)
    ensures UploadErrors(file, name, author, minw, maxw, minh, maxh) == []
            <==> UploadAcceptable(file, name, author, minw, maxw, minh, maxh)
  {
  }

  // ---- Properties of the single-upload list ----

  /** The entries of `r` that concern `field`, in order. */
  function ErrorsFor(r: seq<ErrorMsg>, field: string): (s: seq<ErrorMsg>)
    ensures |s| <= |r|
    ensures forall i :: 0 <= i < |s| ==> s[i] in r && s[i].field == field
  {
    if r == [] then []
    else (if r[0].field == field then [r[0]] else []) + ErrorsFor(r[1..], field)
  }

  lemma {:induction false} ErrorsForAppend(a: seq<ErrorMsg>, b: seq<ErrorMsg>, field: string)
    ensures ErrorsFor(a + b, field) == ErrorsFor(a, field) + ErrorsFor(b, field)
  {
    if a == [] {
      assert a + b == b;
    } else {
      assert (a + b)[0] == a[0] && (a + b)[1..] == a[1..] + b;
      ErrorsForAppend(a[1..], b, field);
      if a[0].field == field {
        assert [a[0]] + (ErrorsFor(a[1..], field) + ErrorsFor(b, field))
            == ([a[0]] + ErrorsFor(a[1..], field)) + ErrorsFor(b, field);
      } else {
        assert [] + ErrorsFor(a[1..], field) == ErrorsFor(a[1..], field);
      }
    }
  }

  /** The single-upload extension test accepts exactly "jpg": its `png`
      disjunct can never make a difference, so "png" files are rejected. */
  lemma ImageFormatAcceptsOnlyJpg(ext: string)
    ensures ImageFormatRejected(ext) <==> ext != "jpg"
    ensures ImageFormatRejected("png")
  {
  }

  /** The `file` entries of a single upload: at most one, and exactly which
      one is fixed by the gate order missing / format / size. */
  lemma {:induction false} UploadFileErrors(file: Option<UploadInfo>, name: string, author: string,
                                           minw: int, maxw: int, minh: int, maxh: int)
    ensures var fe := ErrorsFor(UploadErrors(file, name, author, minw, maxw, minh, maxh), "file");
      && |fe| <= 1
      && (FileMissing(file) ==> fe == [MissingFileError])
      && (!FileMissing(file) && file.value.extension != "jpg" ==> fe == [ImageFormatError])
      && (ImageSizeError in fe <==>
            !FileMissing(file) && file.value.extension == "jpg"
            && WrongSize(file.value.width, file.value.height))
      && (fe == [] <==>
            !FileMissing(file) && file.value.extension == "jpg"
            && !WrongSize(file.value.width, file.value.height))
  {
    var fs := ImageFileErrors(file);
    var meta := MetadataErrors(name, author, minw, maxw, minh, maxh);
    ErrorsForAppend(fs, meta, "file");
    MetadataHasNoFileErrors(name, author, minw, maxw, minh, maxh);
    assert ErrorsFor(fs, "file") == fs by {
      if fs != [] { assert fs[1..] == []; }
    }
  }

  lemma {:induction false} MetadataHasNoFileErrors(name: string, author: string, minw: int, maxw: int, minh: int, maxh: int)
    ensures ErrorsFor(MetadataErrors(name, author, minw, maxw, minh, maxh), "file") == []
  {
    var a := ErrorIf(IsBlank(name), NameError);
    var b := ErrorIf(IsBlank(author), AuthorError);
    var c := ErrorIf(TerminalRangeInverted(minw, maxw, minh, maxh), TerminalError);
    ErrorsForAppend(a, b, "file");
    ErrorsForAppend(a + b, c, "file");
    if a != [] { assert a[1..] == []; }
    if b != [] { assert b[1..] == []; }
    if c != [] { assert c[1..] == []; }
  }

  /** The name, author and terminal checks run whatever the file: the
      entries that are not about the file depend on the metadata alone, and
      a missing file contributes its one error and nothing else. */
  lemma {:induction false} MetadataChecksIndependent(f1: Option<UploadInfo>, f2: Option<UploadInfo>,
                                                    name: string, author: string,
                                                    minw: int, maxw: int, minh: int, maxh: int)
    ensures UploadErrors(f1, name, author, minw, maxw, minh, maxh)[|ImageFileErrors(f1)|..]
         == UploadErrors(f2, name, author, minw, maxw, minh, maxh)[|ImageFileErrors(f2)|..]
         == MetadataErrors(name, author, minw, maxw, minh, maxh)
    ensures FileMissing(f1) ==>
      UploadErrors(f1, name, author, minw, maxw, minh, maxh)
        == [MissingFileError] + MetadataErrors(name, author, minw, maxw, minh, maxh)
  {
    var meta := MetadataErrors(name, author, minw, maxw, minh, maxh);
    assert (ImageFileErrors(f1) + meta)[|ImageFileErrors(f1)|..] == meta;
    assert (ImageFileErrors(f2) + meta)[|ImageFileErrors(f2)|..] == meta;
  }

  /** A terminal error is reported exactly when both axes are inverted; an
      inversion on one axis only is accepted. */
  lemma TerminalErrorIff(file: Option<UploadInfo>, name: string, author: string,
                         minw: int, maxw: int, minh: int, maxh: int)
    ensures TerminalError in UploadErrors(file, name, author, minw, maxw, minh, maxh)
            <==> maxw < minw && maxh < minh
    ensures maxw < minw && minh <= maxh ==>
            TerminalError !in UploadErrors(file, name, author, minw, maxw, minh, maxh)
  {
    var r := UploadErrors(file, name, author, minw, maxw, minh, maxh);
    if maxw < minw && maxh < minh { assert r[|r| - 1] == TerminalError; }
  }

  /** The position of each field in the order the checks run. */
  function FieldRank(field: string): nat {
    if field == "file" then 0
    else if field == "name" then 1
    else if field == "author" then 2
    else 3
  }

  /** Errors appear in the order file, name, author, terminal, each field at
      most once, so there are never more than four. */
  lemma UploadErrorOrder(file: Option<UploadInfo>, name: string, author: string,
                         minw: int, maxw: int, minh: int, maxh: int)
    ensures var r := UploadErrors(file, name, author, minw, maxw, minh, maxh);
      && |r| <= 4
      && (forall i :: 0 <= i < |r| ==> r[i].field in ["file", "name", "author", "terminal"])
      && (forall i, j :: 0 <= i < j < |r| ==> FieldRank(r[i].field) < FieldRank(r[j].field))
  {
    var f := ImageFileErrors(file);
    var n := ErrorIf(IsBlank(name), NameError);
    var a := ErrorIf(IsBlank(author), AuthorError);
    var t := ErrorIf(TerminalRangeInverted(minw, maxw, minh, maxh), TerminalError);
    assert |f| <= 1 && forall i :: 0 <= i < |f| ==> f[i].field == "file";
    assert UploadErrors(file, name, author, minw, maxw, minh, maxh) == f + (n + a + t);
  }

  /** Scenario: a well-formed 500x500 jpg with complete metadata yields one
      error, the size error, and nothing else. */
  lemma WrongDimensionScenario(length: nat)
    requires length >= 1
    ensures UploadErrors(Some(UploadInfo(length, "jpg", 500, 500)), "Sunset", "Jane", 0, 0, 0, 0)
            == [ImageSizeError]
  {
    assert !IsBlank("Sunset") by { assert !IsWhitespace("Sunset"[0]); }
    assert !IsBlank("Jane") by { assert !IsWhitespace("Jane"[0]); }
  }

  // ---------------------------------------------------------------------
  // verifyInfo(file): the batch archive
  // ---------------------------------------------------------------------

  /** The list the batch verifyInfo returns: presence, then the `zip`
      extension. */
  function BatchErrors(file: Option<UploadInfo>): seq<ErrorMsg> {
    if FileMissing(file) then [MissingFileError]
    else ErrorIf(file.value.extension != "zip", ZipFormatError)
  }

  /** verifyInfo for a batch upload. */
  method VerifyBatchInfo(file: Option<UploadInfo>) returns (results: seq<ErrorMsg>)
    ensures results == BatchErrors(file)
    ensures |results| <= 1
    ensures forall i :: 0 <= i < |results| ==> results[i].field == "file"
    ensures FileMissing(file) ==> results == [MissingFileError]
    ensures !FileMissing(file) && file.value.extension != "zip" ==> results == [ZipFormatError]
    ensures results == [] <==> file.Some? && file.value.length >= 1 && file.value.extension == "zip"
  {
    results := [];
    if file.None? || file.value.length < 1 {
      results := results + [ErrorMsg("file", MissingFileMsg)];
    } else if !(file.value.extension == "zip") {
      results := results + [ErrorMsg("file", ZipFormatMsg)];
    }
  }

  // ---------------------------------------------------------------------
  // verifyZip(rootDir)
  // ---------------------------------------------------------------------

  /** The errors one directory entry contributes: format, then size; the two
      tests are independent. */
  function EntryErrors(e: DirEntry): seq<ErrorMsg> {
    ErrorIf(EntryFormatRejected(e.extension), ErrorMsg("file", e.name + EntryFormatMsg))
      + ErrorIf(WrongSize(e.width, e.height), ErrorMsg("file", e.name + EntrySizeMsg))
  }

  /** The list verifyZip returns for the entries of a directory, in order. */
  function ZipErrors(entries: seq<DirEntry>): seq<ErrorMsg>
    decreases |entries|
  {
    if entries == [] then []
    else ZipErrors(entries[..|entries| - 1]) + EntryErrors(entries[|entries| - 1])
  }

  /** An entry that passes both tests. */
  predicate EntryAcceptable(e: DirEntry) {
    ToLowerAscii(e.extension) == "jpg" && e.width == RequiredWidth && e.height == RequiredHeight
  }

  /** The number of entries whose extension fails the format test. */
  function FormatRejectedCount(entries: seq<DirEntry>): (n: nat)
    ensures n <= |entries|
    decreases |entries|
  {
    if entries == [] then 0
    else (FormatRejectedCount(entries[..|entries| - 1])
          + if EntryFormatRejected(entries[|entries| - 1].extension) then 1 else 0)
  }

  /** The number of entries that are not 960x800. */
  function WrongSizeCount(entries: seq<DirEntry>): (n: nat)
    ensures n <= |entries|
    decreases |entries|
  {
    if entries == [] then 0
    else (WrongSizeCount(entries[..|entries| - 1])
          + if WrongSize(entries[|entries| - 1].width, entries[|entries| - 1].height) then 1 else 0)
  }

  /** verifyZip: every entry of the directory listing, in order. */
  method VerifyZip(images: seq<DirEntry>) returns (results: seq<ErrorMsg>)
    ensures results == ZipErrors(images)
    ensures |results| <= 2 * |images|
    ensures forall i :: 0 <= i < |results| ==> results[i].field == "file"
    ensures results == [] <==> forall i :: 0 <= i < |images| ==> EntryAcceptable(images[i])
  {
    results := [];
    var k := 0;
    while k < |images|
      invariant 0 <= k <= |images|
      invariant results == ZipErrors(images[..k])
    {
      var image := images[k];
      var ext := ToLowerAscii(image.extension);
      assert images[..k + 1][..k] == images[..k];
      if !(ext == "jpg") || ext == "jpeg" || ext == "png" {
        results := results + [ErrorMsg("file", image.name + EntryFormatMsg)];
      }
      if image.width != 960 || image.height != 800 {
        results := results + [ErrorMsg("file", image.name + EntrySizeMsg)];
      }
      k := k + 1;
    }
    assert images[..k] == images;
    ZipErrorsShape(images);
  }

  /** At most two errors per entry, all about `file`, and none exactly when
      every entry is a 960x800 jpg. */
  lemma {:induction false} ZipErrorsShape(entries: seq<DirEntry>)
    ensures |ZipErrors(entries)| <= 2 * |entries|
    ensures forall i :: 0 <= i < |ZipErrors(entries)| ==> ZipErrors(entries)[i].field == "file"
    ensures ZipErrors(entries) == [] <==> forall i :: 0 <= i < |entries| ==> EntryAcceptable(entries[i])
    decreases |entries|
  {
    if entries != [] {
      var init := entries[..|entries| - 1];
      var last := entries[|entries| - 1];
      ZipErrorsShape(init);
      EntryErrorsShape(last);
      AllAcceptableSnoc(entries, init);
      assert ZipErrors(entries) == ZipErrors(init) + EntryErrors(last);
    }
  }

  /** One entry: at most two errors, both about `file`, none exactly when it
      is acceptable. */
  lemma EntryErrorsShape(e: DirEntry)
    ensures |EntryErrors(e)| <= 2
    ensures forall i :: 0 <= i < |EntryErrors(e)| ==> EntryErrors(e)[i].field == "file"
    ensures EntryErrors(e) == [] <==> EntryAcceptable(e)
  {
    EntryFormatAcceptsOnlyJpg(e.extension);
  }

  lemma AllAcceptableSnoc(entries: seq<DirEntry>, init: seq<DirEntry>)
    requires entries != [] && init == entries[..|entries| - 1]
    ensures (forall i :: 0 <= i < |entries| ==> EntryAcceptable(entries[i]))
        <==> (forall i :: 0 <= i < |init| ==> EntryAcceptable(init[i]))
             && EntryAcceptable(entries[|entries| - 1])
  {
    assert forall i :: 0 <= i < |init| ==> init[i] == entries[i];
  }

  // ---- Properties of verifyZip's list ----

  /** The archive-entry format test rejects exactly the extensions that are
      not "jpg" after lower-casing: "jpeg" and "png" are rejected, "JPG" is not. */
  lemma EntryFormatAcceptsOnlyJpg(ext: string)
    ensures EntryFormatRejected(ext) <==> ToLowerAscii(ext) != "jpg"
    ensures EntryFormatRejected("jpeg") && EntryFormatRejected("png") && !EntryFormatRejected("JPG")
  {
    assert ToLowerAscii("jpeg") != "jpg" by { assert |ToLowerAscii("jpeg")| == 4; }
    assert ToLowerAscii("png") != "jpg" by { assert ToLowerAscii("png")[0] == 'p'; }
    assert ToLowerAscii("JPG") == "jpg" by { LowerIsJpg("JPG"); }
  }

  /** Errors follow the directory order: the list for a listing split in two
      is the list for the first part followed by the list for the second. */
  lemma {:induction false} ZipErrorsAppend(a: seq<DirEntry>, b: seq<DirEntry>)
    ensures ZipErrors(a + b) == ZipErrors(a) + ZipErrors(b)
    decreases |b|
  {
    if b == [] {
      assert a + b == a;
    } else {
      var b', last := b[..|b| - 1], b[|b| - 1];
      assert ZipErrors(b) == ZipErrors(b') + EntryErrors(last) by {
        assert b == b' + [last];
        ZipErrorsSnoc(b', last);
      }
      assert ZipErrors(a + b) == ZipErrors(a + b') + EntryErrors(last) by {
        assert a + b == (a + b') + [last];
        ZipErrorsSnoc(a + b', last);
      }
      ZipErrorsAppend(a, b');
      ConcatAssoc(ZipErrors(a), ZipErrors(b'), EntryErrors(last));
    }
  }

  lemma ConcatAssoc<T>(x: seq<T>, y: seq<T>, z: seq<T>)
    ensures (x + y) + z == x + (y + z)
  {
  }

  lemma ZipErrorsSnoc(init: seq<DirEntry>, last: DirEntry)
    ensures ZipErrors(init + [last]) == ZipErrors(init) + EntryErrors(last)
  {
    assert (init + [last])[..|init|] == init;
  }

  /** The list holds exactly one format error per entry whose extension is
      not "jpg" and one size error per entry that is not 960x800. */
  lemma {:induction false} ZipErrorCount(entries: seq<DirEntry>)
    ensures |ZipErrors(entries)|
         == FormatRejectedCount(entries) + WrongSizeCount(entries)
    decreases |entries|
  {
    if entries != [] {
      ZipErrorCount(entries[..|entries| - 1]);
    }
  }
}
