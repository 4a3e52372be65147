/** The collaborators the upload pipeline calls but whose code is not part of
    this model: the image library (ImageIO, ImageUtils), the archive builder
    (BuildZip), the CRC32 routine, the CDN naming and URL functions of
    models.stores.Store, and the remote store itself. */
module Storage {
  import opened Common

  /** A file, as a term saying how it was made. The image and archive
      operations are uninterpreted: each derived file is recorded by the
      operation and arguments that produced it, so a scaled file carries the
      width and height it was asked for. */
  datatype Blob =
    | Original(id: nat)                                   // the uploaded file
    | Compressed(source: Blob, quality: nat)              // ImageUtils.compress(ImageIO.read(source), quality)
    | Scaled(source: Blob, width: nat, height: nat)       // ImageUtils.scale(source, width, height)
    | Archive(title: string, author: string, source: Blob) // BuildZip.buildWallpaper(title, author, source)

  /** The functions of the outside world the pipeline reads. */
  datatype Io = Io(
    /** File.length() */
    length: Blob -> nat,
    /** FileUtils.checksumCRC32, or None when reading the file fails */
    crc32: Blob -> Option<nat>,
    /** Store.generateRelativePathOnCdn(file, code, prefix, suffix) */
    relativeName: (Blob, string, string, string) -> string,
    /** Store.genUrl(bucket, path, name, authRequired) */
    genUrl: (string, string, string, bool) -> string)

  /** Configuration read by the pipeline: the upload base path, the bucket
      (Constants.S3_NOAUTH_BUCKET), the store mode (Qstore.SINGLE as a string)
      and the two launcher package names (Constants.PKG_ILAUNCHER,
      Constants.PKG_LAUNCHER). */
  datatype Config = Config(basePath: string, bucket: string, mode: string,
                           singlePkg: string, doublePkg: string)

  /** getChecksum: the CRC32 as a decimal string, or null (None) when it
      cannot be computed; the failure is only logged. */
  function GetChecksum(io: Io, file: Blob): (r: Option<string>)
    ensures r.None? <==> io.crc32(file).None?
    ensures r.Some? ==> r.value == NatToString(io.crc32(file).value)
  {
    match io.crc32(file)
    case None => None
    case Some(v) => Some(NatToString(v))
  }

  /** One call of Store.store: a file put under bucket, path and name. */
  datatype StoredObject = StoredObject(bucket: string, path: string, name: string,
                                       content: Blob, mode: string)

  /** The remote store as the pipeline sees it. `attempts` lists every store
      call in the order it was made; `objects` lists the calls that succeeded.
      Whether a call succeeds is decided by the oracle `accepts`, given the
      number of calls made before it. Nothing is ever removed. */
  class AssetStore {
    var attempts: seq<StoredObject>
    var objects: seq<StoredObject>
    const accepts: nat -> bool

    constructor (accepts: nat -> bool)
      ensures this.accepts == accepts
      ensures attempts == [] && objects == []
    {
      this.accepts := accepts;
      attempts := [];
      objects := [];
    }

    /** Store.store: returns whether the object was stored. */
    method Store(o: StoredObject) returns (ok: bool)
      modifies this
      ensures ok == accepts(|old(attempts)|)
      ensures attempts == old(attempts) + [o]
      ensures objects == if ok then old(objects) + [o] else old(objects)
    {
      ok := accepts(|attempts|);
      attempts := attempts + [o];
      if ok {
        objects := objects + [o];
      }
    }
  }
}
