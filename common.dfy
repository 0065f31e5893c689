/**
  Types shared by every download strategy: the source descriptor, the
  download result, the answers of the outside world (network, HTML parser,
  disk) that the strategies consume, a small file-system model and the
  string helpers of Go's `strings` package that the strategies use.
 */
module Common {

  datatype Option<+T> = None | Some(value: T)

  /** A Go `(value, error)` pair: exactly one of the two is meaningful. */
  datatype Result<+T> = Ok(value: T) | Err(msg: string)

  /** Minimum accepted size of a scraped download: `5 * 1024 * 1024` bytes. */
  const FiveMB: nat := 5 * 1024 * 1024

  /** Message of the size rejection shared by the rapid and drive strategies. */
  const TooSmallMsg := "File size nhỏ hơn 5MB"

  /** Go's `os.PathSeparator` on the platforms the downloader targets. */
  const Sep := "/"

  /**
    The model ends an operation with this error where the Go code
    dereferences a nil response or document (a runtime panic there).
   */
  const NilDereference := "runtime error: invalid memory address or nil pointer dereference"

  /** A cookie; its expiry and the attributes nobody reads are not modelled. */
  datatype Cookie = Cookie(name: string, value: string, domain: string, path: string)

  /** What a successful `Do` hands back: the caller's id, the file and its directory. */
  datatype DownloadResult = DownloadResult(fileID: string, path: string, dir: string)

  /** The error part of one `Read` call on a response body. */
  datatype ReadErr = NoErr | EOF | ReadFailure(msg: string)

  /**
    One `Read` call on a stream: `ready` bytes are available to it (it
    hands over at most the length of the buffer it is given) and `err` is
    the error it returns with them.
   */
  datatype ReadStep = ReadStep(ready: nat, err: ReadErr)

  /** The destination's answer to one `Write` call: a count and an error. */
  datatype WriteReply = WriteReply(n: int, err: Option<string>)

  /**
    What the HTML parser extracts from a page, one field per selector the
    strategies query. An anchor without `href` contributes "".
   */
  datatype Document =
    | Unparsable(msg: string)
    | Document(
        title: string,                // text of `title`
        anchorHrefs: seq<string>,     // `href` of every `a`, in document order
        videoSource: Option<string>,  // `src` of `#videojs > source`
        downloadHref: Option<string>, // `href` of `#uc-download-link`
        errorSubcaption: string)      // text of `.uc-error-subcaption`

  /**
    The answer to one HTTP GET: a transport error, or a response with its
    status code, its status line, its `Content-Disposition` header ("" when
    absent), what `mime.ParseMediaType` makes of that header (None when it
    fails), the parsed document and the body as a stream of reads.
   */
  datatype Fetch =
    | TransportError(msg: string)
    | Response(
        status: int,
        statusText: string,
        disposition: string,
        dispositionParams: Option<map<string, string>>,
        doc: Document,
        body: seq<ReadStep>)

  /** One event the slow-speed watchdog can receive. */
  datatype Event = Stat(speed: nat) | Finished | Quit

  /**
    Everything the strategies learn from outside the process, fixed in
    advance for one invocation.
   */
  datatype Env = Env(
    fetch: string -> Fetch,          // HTTP GET by URL
    parseURL: string -> Option<string>, // `url.Parse`: Some(error text) when it fails
    downloadDir: string,             // the directory `makeDownloadDir` creates
    createErr: Option<string>,       // failure of `os.Create` / `ioutil.TempFile`
    disk: seq<WriteReply>,           // the created file's answers to `Write`
    fileToken: string,               // `uuid.New()`, the drive strategy's file name
    tempName: string,                // the base name `ioutil.TempFile` picks for the direct strategy
    plutoNewErr: Option<string>,     // failure of `pluto.New`
    stats: seq<Event>,               // what the watchdog observes while pluto runs
    transferErr: Option<string>)     // pluto's own outcome when nobody cancels it

  /** The source descriptor; `NewDownloader` updates `maxParts` in place. */
  class DownloadSource {
    const typ: string
    const value: string
    const header: map<string, string>
    const cookies: seq<Cookie>
    var maxParts: int
    const proxy: string

    constructor (typ: string, value: string, header: map<string, string>,
                 cookies: seq<Cookie>, maxParts: int, proxy: string)
      ensures this.typ == typ && this.value == value && this.header == header
      ensures this.cookies == cookies && this.maxParts == maxParts && this.proxy == proxy
    {
      this.typ := typ;
      this.value := value;
      this.header := header;
      this.cookies := cookies;
      this.maxParts := maxParts;
      this.proxy := proxy;
    }
  }

  /** `p` names something strictly inside directory `d`. */
  predicate Within(p: string, d: string) {
    |p| > |d| && p[..|d|] == d && p[|d|] == '/'
  }

  /** Nothing in `dirs` or `files` is `d` or lies below it. */
  predicate FreshIn(dirs: set<string>, files: set<string>, d: string) {
    d !in dirs && d !in files
    && (forall f :: f in files ==> !Within(f, d))
    && (forall x :: x in dirs ==> !Within(x, d))
  }

  /** A name joined onto a directory lies inside it. */
  lemma JoinedIsWithin(d: string, name: string)
    ensures Within(d + Sep + name, d)
  {
    assert (d + Sep + name)[..|d|] == d;
    assert (d + Sep + name)[|d|] == '/';
  }

  /**
    Removing a directory that was fresh, after creating it and files
    inside it, leaves exactly what existed before.
   */
  lemma RemovingFreshDirRestores(dirs0: set<string>, files0: set<string>,
                                 dirs1: set<string>, files1: set<string>, d: string)
    requires FreshIn(dirs0, files0, d)
    requires dirs1 == dirs0 + {d}
    requires files0 <= files1 && forall f :: f in files1 && f !in files0 ==> Within(f, d)
    ensures (set x | x in dirs1 && x != d && !Within(x, d)) == dirs0
    ensures (set f | f in files1 && f != d && !Within(f, d)) == files0
  {
  }

  /** The file-system operations the strategies perform, in the order performed. */
  datatype FsOp = MkDirOp(dir: string) | CreateOp(path: string) | RemoveAllOp(target: string)
                | RenameOp(from: string, to: string)

  /**
    The log `log` continues `log0` with the creation of `dir` first and
    ends with its removal exactly when the download `failed`.
   */
  predicate DirLifecycle(log0: seq<FsOp>, log: seq<FsOp>, dir: string, failed: bool) {
    && |log| > |log0|
    && log[|log0|] == MkDirOp(dir)
    && (failed <==> log[|log| - 1] == RemoveAllOp(dir))
  }

  /** The part of the file system the downloader touches. */
  class FileSystem {
    var dirs: set<string>
    var files: set<string>
    var log: seq<FsOp>

    constructor ()
      ensures dirs == {} && files == {} && log == []
    {
      dirs, files, log := {}, {}, [];
    }

    /** Nothing exists at or below `d` yet. */
    predicate FreshDir(d: string)
      reads this
    {
      FreshIn(dirs, files, d)
    }

    method MakeDir(d: string)
      modifies this
      ensures dirs == old(dirs) + {d} && files == old(files)
      ensures log == old(log) + [MkDirOp(d)]
    {
      dirs := dirs + {d};
      log := log + [MkDirOp(d)];
    }

    method CreateFile(p: string)
      modifies this
      ensures files == old(files) + {p} && dirs == old(dirs)
      ensures log == old(log) + [CreateOp(p)]
    {
      files := files + {p};
      log := log + [CreateOp(p)];
    }

    /** `os.RemoveAll`: the directory and everything below it disappear. */
    method RemoveAll(d: string)
      modifies this
      ensures dirs == set x | x in old(dirs) && x != d && !Within(x, d)
      ensures files == set f | f in old(files) && f != d && !Within(f, d)
      ensures log == old(log) + [RemoveAllOp(d)]
    {
      dirs := set x | x in dirs && x != d && !Within(x, d);
      files := set f | f in files && f != d && !Within(f, d);
      log := log + [RemoveAllOp(d)];
    }

    /**
      `os.Rename` whose outcome `ok` is given: it can fail for reasons the
      model does not track (permissions, devices, an existing target).
      On success the entry at `from`, file or directory, is named `to`.
     */
    method Rename(from: string, to: string, ok: bool)
      modifies this
      ensures ok ==> files == (if from in old(files) then old(files) - {from} + {to} else old(files))
      ensures ok ==> dirs == (if from in old(dirs) then old(dirs) - {from} + {to} else old(dirs))
      ensures ok ==> log == old(log) + [RenameOp(from, to)]
      ensures !ok ==> files == old(files) && dirs == old(dirs) && log == old(log)
    {
      if ok {
        if from in files {
          files := files - {from} + {to};
        }
        if from in dirs {
          dirs := dirs - {from} + {to};
        }
        log := log + [RenameOp(from, to)];
      }
    }
  }

  /**
    The size rule of the scraped strategies applied to a copy outcome: a
    copy under `FiveMB` bytes is refused, exactly `FiveMB` is accepted.
   */
  function SizeChecked(copied: Result<nat>): (r: Result<nat>)
    ensures r.Ok? <==> copied.Ok? && copied.value >= FiveMB
    ensures r.Ok? || copied.Err? ==> r == copied
    ensures copied.Ok? && copied.value < FiveMB ==> r == Err(TooSmallMsg)
  {
    match copied
    case Err(_) => copied
    case Ok(size) => if size < FiveMB then Err(TooSmallMsg) else copied
  }

  function Min(a: nat, b: nat): nat {
    if a <= b then a else b
  }

  /** `strings.HasPrefix`. */
  predicate HasPrefix(s: string, prefix: string) {
    |prefix| <= |s| && s[..|prefix|] == prefix
  }

  /** `strings.HasSuffix`. */
  predicate HasSuffix(s: string, suffix: string) {
    |suffix| <= |s| && s[|s| - |suffix|..] == suffix
  }

  /** `sub` occurs in `s` starting at position `i`. */
  predicate OccursAt(s: string, sub: string, i: int) {
    0 <= i <= |s| - |sub| && s[i..i + |sub|] == sub
  }

  /** `strings.Contains`. */
  predicate Contains(s: string, sub: string) {
    exists i | 0 <= i <= |s| :: OccursAt(s, sub, i)
  }

  /** `strings.Index` for a one-character needle: the first position of `c`, or -1. */
  function IndexOf(s: string, c: char): (r: int)
    ensures -1 <= r < |s|
    ensures r >= 0 ==> s[r] == c && c !in s[..r]
    ensures r == -1 <==> c !in s
  {
    if |s| == 0 then -1
    else if s[0] == c then 0
    else
      var k := IndexOf(s[1..], c);
      if k < 0 then -1 else k + 1
  }
}
