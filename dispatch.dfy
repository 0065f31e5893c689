/**
  `NewDownloader` and the `Downloader` interface's `Do`: normalise the part
  count, pick a strategy by the source's type tag, and run it.
 */
module Dispatch {
  import opened Common
  import opened Downloader
  import Rapid
  import Drive
  import Direct

  const SourceRapid := "rapid"
  const SourceDrive := "drive"
  const SourceDirect := "direct"
  /** Declared next to the others but not dispatched on: it gets `Base`. */
  const SourceRedirect := "redirect"

  /** The strategy `NewDownloader` returns. */
  datatype Strategy =
    | RapidStrategy(rapid: Rapid.Rapid)
    | DriveStrategy(drive: Drive.Drive)
    | DirectStrategy(direct: Direct.DirectDownloader)
    | BaseStrategy(base: Base)

  datatype Kind = RapidKind | DriveKind | DirectKind | BaseKind

  function KindOf(s: Strategy): Kind {
    match s
    case RapidStrategy(_) => RapidKind
    case DriveStrategy(_) => DriveKind
    case DirectStrategy(_) => DirectKind
    case BaseStrategy(_) => BaseKind
  }

  /** The strategy chosen for a type tag: the three known tags, and `Base` for anything else. */
  function KindFor(typ: string): (k: Kind)
    ensures k == RapidKind <==> typ == SourceRapid
    ensures k == DriveKind <==> typ == SourceDrive
    ensures k == DirectKind <==> typ == SourceDirect
    ensures k == BaseKind <==> typ != SourceRapid && typ != SourceDrive && typ != SourceDirect
  {
    if typ == SourceRapid then RapidKind
    else if typ == SourceDrive then DriveKind
    else if typ == SourceDirect then DirectKind
    else BaseKind
  }

  /** `"redirect"` is not dispatched on: it falls back to `Base`. */
  lemma RedirectFallsBackToBase()
    ensures KindFor(SourceRedirect) == BaseKind
  {
  }

  /** The part count after `NewDownloader`: 0 becomes 1, every other value (negatives too) is kept. */
  function NormalizedParts(n: int): (m: int)
    ensures m != 0
    ensures n != 0 ==> m == n
    ensures m != n <==> n == 0
  {
    if n == 0 then 1 else n
  }

  /** `NewDownloader`: normalise `MaxParts` in place, then build the strategy for the type tag. */
  method NewDownloader(fileID: string, source: DownloadSource) returns (d: Strategy)
    modifies source
    ensures source.maxParts == NormalizedParts(old(source.maxParts))
    ensures KindOf(d) == KindFor(source.typ)
    ensures d.RapidStrategy? ==>
              fresh(d.rapid) && d.rapid.fileID == fileID && d.rapid.source == source
              && d.rapid.directURL == "" && d.rapid.referer == "" && d.rapid.fileName == ""
    ensures d.DriveStrategy? ==>
              fresh(d.drive) && d.drive.fileID == fileID && d.drive.source == source
              && d.drive.driveID == source.value && d.drive.jar == [] && d.drive.respBody == None
    ensures d.DirectStrategy? ==>
              fresh(d.direct) && d.direct.fileID == fileID && d.direct.source == source
              && d.direct.pluto == None
    ensures d.BaseStrategy? ==>
              fresh(d.base) && d.base.fileID == fileID && d.base.source == source
  {
    if source.maxParts == 0 {
      source.maxParts := 1;
    }
    if source.typ == SourceRapid {
      var r := new Rapid.Rapid(fileID, source);
      d := RapidStrategy(r);
    } else if source.typ == SourceDrive {
      var r := new Drive.Drive(fileID, source);
      d := DriveStrategy(r);
    } else if source.typ == SourceDirect {
      var r := new Direct.DirectDownloader(fileID, source);
      d := DirectStrategy(r);
    } else {
      var r := new Base(fileID, source);
      d := BaseStrategy(r);
    }
  }

  /** The object a strategy runs on, for framing. */
  function Target(d: Strategy): object {
    match d
    case RapidStrategy(r) => r
    case DriveStrategy(r) => r
    case DirectStrategy(r) => r
    case BaseStrategy(r) => r
  }

  /**
    The file name the strategy saves under has no '/'. The rapid strategy
    names its file after the scraped page title, the direct strategy uses
    the name `ioutil.TempFile` picks; the drive strategy uses a generated uuid.
   */
  predicate SafeFileName(d: Strategy, env: Env)
    reads if d.RapidStrategy? then {d.rapid} else {}
  {
    && (d.RapidStrategy? ==> '/' !in d.rapid.fileName)
    && (d.DirectStrategy? ==> '/' !in env.tempName)
  }

  /**
    `Downloader.Do` through the interface. Whatever the strategy, a failed
    download leaves the file system's contents as they were, and a
    successful one adds exactly the fresh download directory and one file
    inside it, as long as the file name does not lead out of that directory.
   */
  method Do(d: Strategy, env: Env, fs: FileSystem) returns (result: Result<DownloadResult>)
    requires fs.FreshDir(env.downloadDir)
    modifies Target(d), fs
    ensures result.Err? && SafeFileName(d, env) ==> fs.dirs == old(fs.dirs) && fs.files == old(fs.files)
    ensures result.Ok? ==>
              && result.value.dir == env.downloadDir
              && fs.dirs == old(fs.dirs) + {env.downloadDir}
              && fs.files == old(fs.files) + {result.value.path}
              && fs.log == old(fs.log) + [MkDirOp(env.downloadDir), CreateOp(result.value.path)]
              && (SafeFileName(d, env) ==> Within(result.value.path, result.value.dir))
    ensures d.BaseStrategy? ==> result == Err(UnsupportedType + d.base.source.typ) && fs.log == old(fs.log)
  {
    match d
    case RapidStrategy(r) =>
      result := r.Do(env, fs);
    case DriveStrategy(r) =>
      result := r.Do(env, fs);
    case DirectStrategy(r) =>
      result := r.Do(env, fs);
    case BaseStrategy(r) =>
      result := r.Do();
  }
}
