/**
  The direct strategy: hand the URL, a header list and the part count to
  the pluto engine, watch its speed samples and cancel it after 30
  consecutive slow ones, and turn a cancellation into its own message.
 */
module Direct {
  import opened Common
  import opened Downloader

  /** Speed (bytes per second) below which a sample counts as slow. */
  const DefaultSlowSpeed: nat := 100000

  /** Consecutive slow samples after which the watchdog cancels the transfer. */
  const SlowSampleLimit: nat := 30

  const CancelMarker := "context cancel"
  /** The text of `context.Canceled`, pluto's error once its context is cancelled. */
  const ContextCanceled := "context canceled"
  const SlowDownloadMsg := "Cancelled due to slow download speed"

  /** What `pluto.New` is given. */
  datatype PlutoConfig = PlutoConfig(url: string, headers: seq<string>, parts: int, proxy: string)

  // ---------------------------------------------------------------------
  // init
  // ---------------------------------------------------------------------

  /** The cookies `init` passes on: name and value only, in order. */
  method CopyCookies(cookies: seq<Cookie>) returns (out: seq<Cookie>)
    ensures |out| == |cookies|
    ensures forall i :: 0 <= i < |cookies| ==> out[i] == Cookie(cookies[i].name, cookies[i].value, "", "")
  {
    out := [];
    for i := 0 to |cookies|
      invariant |out| == i
      invariant forall j :: 0 <= j < i ==> out[j] == Cookie(cookies[j].name, cookies[j].value, "", "")
    {
      out := out + [Cookie(cookies[i].name, cookies[i].value, "", "")];
    }
  }

  function HeaderLine(key: string, value: string): string {
    key + ":" + value
  }

  /**
    The header list of `init`: one "key:value" line per header entry, in
    the map's (unspecified) iteration order reported as `order`, then the
    "Cookie:" line last.
   */
  method HeaderLines(header: map<string, string>, cookieLine: string) returns (lines: seq<string>, order: seq<string>)
    ensures |order| == |header| && |lines| == |header| + 1
    ensures forall k :: k in header <==> k in order
    ensures forall i, j :: 0 <= i < j < |order| ==> order[i] != order[j]
    ensures forall i :: 0 <= i < |order| ==> lines[i] == HeaderLine(order[i], header[order[i]])
    ensures lines[|header|] == HeaderLine("Cookie", cookieLine)
    ensures forall k :: k in header ==> HeaderLine(k, header[k]) in lines[..|header|]
  {
    lines, order := [], [];
    var remaining := header.Keys;
    while remaining != {}
      invariant remaining <= header.Keys
      invariant |order| + |remaining| == |header| && |lines| == |order|
      invariant forall k :: k in header <==> k in order || k in remaining
      invariant forall k :: k in order ==> k !in remaining
      invariant forall i, j :: 0 <= i < j < |order| ==> order[i] != order[j]
      invariant forall i :: 0 <= i < |order| ==> order[i] in header && lines[i] == HeaderLine(order[i], header[order[i]])
      decreases |remaining|
    {
      var key :| key in remaining;
      lines := lines + [HeaderLine(key, header[key])];
      order := order + [key];
      remaining := remaining - {key};
    }
    lines := lines + [HeaderLine("Cookie", cookieLine)];
  }

  /**
    `lines` lists the entries of `header` in the order `order`, each key
    exactly once, as "key:value", followed by one more line.
   */
  ghost predicate ListsHeaderInOrder(header: map<string, string>, order: seq<string>, lines: seq<string>) {
    && |order| == |header| && |lines| == |header| + 1
    && (forall k :: k in header <==> k in order)
    && (forall i, j :: 0 <= i < j < |order| ==> order[i] != order[j])
    && (forall i :: 0 <= i < |order| ==> lines[i] == HeaderLine(order[i], header[order[i]]))
  }

  /**
    The header list `init` hands to pluto: every header entry once, as
    "key:value", in some order, then the "Cookie:" line last.
   */
  ghost predicate HeadersFor(header: map<string, string>, cookies: seq<Cookie>, lines: seq<string>) {
    && |lines| == |header| + 1
    && (exists order :: ListsHeaderInOrder(header, order, lines))
    && (forall k :: k in header ==> HeaderLine(k, header[k]) in lines[..|header|])
    && lines[|header|] == HeaderLine("Cookie", CookieLine(cookies))
  }

  /** Why `init` fails: the URL does not parse, or pluto refuses the configuration. */
  function InitError(value: string, env: Env): (e: Option<string>)
    ensures env.parseURL(value).Some? ==> e == env.parseURL(value)
    ensures e.None? <==> env.parseURL(value).None? && env.plutoNewErr.None?
  {
    if env.parseURL(value).Some? then env.parseURL(value) else env.plutoNewErr
  }

  // ---------------------------------------------------------------------
  // The slow-speed watchdog
  // ---------------------------------------------------------------------

  predicate Slow(e: Event) {
    e.Stat? && e.speed < DefaultSlowSpeed
  }

  /** `Finished` and `quit` end the watchdog. */
  predicate Ends(e: Event) {
    e.Finished? || e.Quit?
  }

  /** Event `k` closes a run of `SlowSampleLimit` consecutive slow samples. */
  predicate SlowRunEndsAt(events: seq<Event>, k: int) {
    SlowSampleLimit - 1 <= k < |events| &&
    forall j :: k - (SlowSampleLimit - 1) <= j <= k ==> Slow(events[j])
  }

  /** No event before position `k` ends the watchdog. */
  predicate NoEndBefore(events: seq<Event>, k: int)
    requires k <= |events|
  {
    forall j :: 0 <= j < k ==> !Ends(events[j])
  }

  /** The watchdog cancels: some run of slow samples completes before anything ends it. */
  predicate WatchdogCancels(events: seq<Event>) {
    exists k | 0 <= k < |events| :: SlowRunEndsAt(events, k) && NoEndBefore(events, k)
  }

  /**
    The watchdog goroutine over the events it receives, in order: it
    returns whether it cancelled and how many events it consumed before
    returning (all of them when it is still waiting at the end).
   */
  method Watchdog(events: seq<Event>) returns (cancelled: bool, consumed: nat)
    ensures consumed <= |events|
    ensures cancelled <==> WatchdogCancels(events)
    ensures cancelled ==> consumed > 0 && SlowRunEndsAt(events, consumed - 1)
    ensures !cancelled ==> consumed == |events| || (consumed > 0 && Ends(events[consumed - 1]))
    ensures forall k :: 0 <= k < consumed - 1 ==> !Ends(events[k]) && !SlowRunEndsAt(events, k)
  {
    var lowerCounter: nat := 0;
    var i: nat := 0;
    while i < |events|
      invariant i <= |events|
      invariant lowerCounter < SlowSampleLimit && lowerCounter <= i
      invariant forall j :: i - lowerCounter <= j < i ==> Slow(events[j])
      invariant lowerCounter < i ==> !Slow(events[i - lowerCounter - 1])
      invariant NoEndBefore(events, i)
      invariant forall k :: 0 <= k < i ==> !SlowRunEndsAt(events, k)
      decreases |events| - i
    {
      match events[i] {
        case Stat(speed) =>
          if speed < DefaultSlowSpeed {
            lowerCounter := lowerCounter + 1;
            if lowerCounter >= SlowSampleLimit {
              assert SlowRunEndsAt(events, i);
              return true, i + 1;
            }
            assert !SlowRunEndsAt(events, i) by {
              if i >= SlowSampleLimit - 1 {
                assert !Slow(events[i - lowerCounter]);
              }
            }
          } else {
            lowerCounter := 0;
          }
        case Finished =>
          NoCancelAfterEnd(events, i);
          return false, i + 1;
        case Quit =>
          NoCancelAfterEnd(events, i);
          return false, i + 1;
      }
      i := i + 1;
    }
    return false, i;
  }

  /** Once an end event arrives with no slow run completed before it, the watchdog never cancels. */
  lemma NoCancelAfterEnd(events: seq<Event>, i: nat)
    requires i < |events| && Ends(events[i])
    requires forall k :: 0 <= k < i ==> !SlowRunEndsAt(events, k)
    ensures !WatchdogCancels(events)
  {
  }

  /** Thirty slow samples in a row cancel, whatever follows. */
  lemma ThirtySlowSamplesCancel(run: seq<Event>, rest: seq<Event>)
    requires |run| == SlowSampleLimit && forall e <- run :: Slow(e)
    ensures WatchdogCancels(run + rest)
  {
    var events := run + rest;
    assert SlowRunEndsAt(events, SlowSampleLimit - 1);
    assert NoEndBefore(events, SlowSampleLimit - 1);
  }

  /**
    A sample at or above the threshold resets the counter: after fewer
    than 30 slow samples it forgets them, so the whole stream cancels
    exactly when what follows the fast sample cancels on its own.
   */
  lemma {:induction false} FastSampleResets(run: seq<Event>, speed: nat, rest: seq<Event>)
    requires |run| < SlowSampleLimit && forall e <- run :: Slow(e)
    requires speed >= DefaultSlowSpeed
    ensures WatchdogCancels(run + [Stat(speed)] + rest) <==> WatchdogCancels(rest)
  {
    var pre := run + [Stat(speed)];
    var events := pre + rest;
    var n := |pre|;
    assert forall j :: 0 <= j < |rest| ==> events[n + j] == rest[j];
    if WatchdogCancels(events) {
      var k :| 0 <= k < |events| && SlowRunEndsAt(events, k) && NoEndBefore(events, k);
      assert !Slow(events[n - 1]);
      assert k >= n + SlowSampleLimit - 1;
      assert SlowRunEndsAt(rest, k - n) by {
        forall j | (k - n) - (SlowSampleLimit - 1) <= j <= k - n
          ensures Slow(rest[j])
        {
          assert Slow(events[n + j]);
        }
      }
      assert NoEndBefore(rest, k - n) by {
        forall j | 0 <= j < k - n
          ensures !Ends(rest[j])
        {
          assert !Ends(events[n + j]);
        }
      }
    }
    if WatchdogCancels(rest) {
      var k :| 0 <= k < |rest| && SlowRunEndsAt(rest, k) && NoEndBefore(rest, k);
      assert SlowRunEndsAt(events, n + k) by {
        forall j | (n + k) - (SlowSampleLimit - 1) <= j <= n + k
          ensures Slow(events[j])
        {
          assert events[j] == rest[j - n];
        }
      }
      assert NoEndBefore(events, n + k) by {
        forall j | 0 <= j < n + k
          ensures !Ends(events[j])
        {
          if j >= n {
            assert events[j] == rest[j - n];
          } else if j < |run| {
            assert events[j] == run[j] && run[j] in run;
          }
        }
      }
    }
  }

  // ---------------------------------------------------------------------
  // Do
  // ---------------------------------------------------------------------

  /** The slow-download message does not itself carry the cancellation marker. */
  lemma SlowDownloadMsgHasNoMarker()
    ensures !Contains(SlowDownloadMsg, CancelMarker)
  {
    // the only lower-case 'c' of the message is followed by 'e', not 'o'
    assert forall j | 0 <= j < |SlowDownloadMsg| && j != 3 :: SlowDownloadMsg[j] != 'c';
    assert SlowDownloadMsg[4] == 'e';
    forall i | 0 <= i <= |SlowDownloadMsg|
      ensures !OccursAt(SlowDownloadMsg, CancelMarker, i)
    {
      if i <= |SlowDownloadMsg| - |CancelMarker| {
        var window := SlowDownloadMsg[i..i + |CancelMarker|];
        assert window[0] == SlowDownloadMsg[i] && window[1] == SlowDownloadMsg[i + 1];
        assert window != CancelMarker by {
          if i != 3 {
            assert window[0] != CancelMarker[0];
          } else {
            assert window[1] != CancelMarker[1];
          }
        }
      }
    }
  }

  /**
    The error `Do` reports for a failed transfer: anything mentioning a
    context cancellation becomes the slow-download message, anything else
    passes through unchanged, and no reported error mentions the marker.
   */
  function MapDownloadError(msg: string): (r: string)
    ensures Contains(msg, CancelMarker) ==> r == SlowDownloadMsg
    ensures !Contains(msg, CancelMarker) ==> r == msg
    ensures !Contains(r, CancelMarker)
  {
    SlowDownloadMsgHasNoMarker();
    if Contains(msg, CancelMarker) then SlowDownloadMsg else msg
  }

  /** pluto's outcome: cancelled by the watchdog, or what the transfer itself ends with. */
  function TransferError(env: Env): Option<string> {
    if WatchdogCancels(env.stats) then Some(ContextCanceled) else env.transferErr
  }

  /** A watchdog cancellation always reaches the caller as the slow-download message. */
  lemma CancelReportsSlowDownload(env: Env)
    requires WatchdogCancels(env.stats)
    ensures MapDownloadError(TransferError(env).value) == SlowDownloadMsg
  {
    assert OccursAt(ContextCanceled, CancelMarker, 0);
  }

  class DirectDownloader {
    const fileID: string
    const source: DownloadSource
    var pluto: Option<PlutoConfig>

    /** `NewDirectDownloader`: no engine until `init`. */
    constructor (fileID: string, source: DownloadSource)
      ensures this.fileID == fileID && this.source == source && pluto == None
    {
      this.fileID := fileID;
      this.source := source;
      pluto := None;
    }

    /**
      `init`: build the cookie and header lists, parse the URL and create
      the engine with the source's part count. A URL failure leaves the
      engine untouched; a pluto failure leaves none.
     */
    method Init(env: Env) returns (err: Option<string>)
      modifies this`pluto
      ensures err == InitError(source.value, env)
      ensures env.parseURL(source.value).Some? ==> pluto == old(pluto)
      ensures env.parseURL(source.value).None? && env.plutoNewErr.Some? ==> pluto == None
      ensures err.None? ==>
                && pluto.Some?
                && pluto.value.url == source.value
                && pluto.value.parts == source.maxParts
                && pluto.value.proxy == source.proxy
                && HeadersFor(source.header, source.cookies, pluto.value.headers)
    {
      var cookies := CopyCookies(source.cookies);
      var cookieLine := CookiesToHeader(cookies);
      var headers, order := HeaderLines(source.header, cookieLine);
      assert ListsHeaderInOrder(source.header, order, headers);
      var urlErr := env.parseURL(source.value);
      if urlErr.Some? {
        return urlErr;
      }
      if env.plutoNewErr.Some? {
        pluto := None;
        return env.plutoNewErr;
      }
      pluto := Some(PlutoConfig(source.value, headers, source.maxParts, source.proxy));
      return None;
    }

    /**
      `Do`: init, then the transfer into a temporary file of a fresh
      download directory. An init failure returns before the directory
      exists.
     */
    method Do(env: Env, fs: FileSystem) returns (result: Result<DownloadResult>)
      requires fs.FreshDir(env.downloadDir)
      modifies this`pluto, fs
      ensures env.parseURL(source.value).Some? ==> pluto == old(pluto)
      ensures env.parseURL(source.value).None? && env.plutoNewErr.Some? ==> pluto == None
      ensures InitError(source.value, env).None? ==>
                && pluto.Some?
                && pluto.value.url == source.value
                && pluto.value.parts == source.maxParts
                && pluto.value.proxy == source.proxy
                && HeadersFor(source.header, source.cookies, pluto.value.headers)
      ensures InitError(source.value, env).Some? ==>
                result == Err(InitError(source.value, env).value)
                && fs.dirs == old(fs.dirs) && fs.files == old(fs.files) && fs.log == old(fs.log)
      ensures InitError(source.value, env).None? ==>
                DirLifecycle(old(fs.log), fs.log, env.downloadDir, result.Err?)
      ensures result.Err? && '/' !in env.tempName ==> fs.dirs == old(fs.dirs) && fs.files == old(fs.files)
      ensures InitError(source.value, env).None? && env.createErr.Some? ==>
                result == Err(env.createErr.value)
      ensures InitError(source.value, env).None? && env.createErr.None? ==>
                && (result.Ok? <==> TransferError(env).None?)
                && (TransferError(env).Some? ==> result == Err(MapDownloadError(TransferError(env).value)))
                && (WatchdogCancels(env.stats) ==> result == Err(SlowDownloadMsg))
      ensures result.Ok? ==>
                && result.value == DownloadResult(fileID, env.downloadDir + Sep + env.tempName, env.downloadDir)
                && fs.dirs == old(fs.dirs) + {env.downloadDir}
                && fs.files == old(fs.files) + {result.value.path}
                && fs.log == old(fs.log) + [MkDirOp(env.downloadDir), CreateOp(result.value.path)]
                && ('/' !in env.tempName ==> Within(result.value.path, result.value.dir))
    {
      var initErr := Init(env);
      if initErr.Some? {
        return Err(initErr.value);
      }
      result := Transfer(env, fs);
    }

    /**
      The part of `Do` after `init`: create the download directory and a
      temporary file in it, run the transfer under the watchdog and map
      its error. The deferred cleanup removes the directory exactly when
      the result is nil.
     */
    method Transfer(env: Env, fs: FileSystem) returns (result: Result<DownloadResult>)
      requires fs.FreshDir(env.downloadDir)
      modifies fs
      ensures DirLifecycle(old(fs.log), fs.log, env.downloadDir, result.Err?)
      ensures result.Err? && '/' !in env.tempName ==> fs.dirs == old(fs.dirs) && fs.files == old(fs.files)
      ensures env.createErr.Some? ==> result == Err(env.createErr.value)
      ensures env.createErr.None? ==>
                && (result.Ok? <==> TransferError(env).None?)
                && (TransferError(env).Some? ==> result == Err(MapDownloadError(TransferError(env).value)))
                && (WatchdogCancels(env.stats) ==> result == Err(SlowDownloadMsg))
      ensures result.Ok? ==>
                && result.value == DownloadResult(fileID, env.downloadDir + Sep + env.tempName, env.downloadDir)
                && fs.dirs == old(fs.dirs) + {env.downloadDir}
                && fs.files == old(fs.files) + {result.value.path}
                && fs.log == old(fs.log) + [MkDirOp(env.downloadDir), CreateOp(result.value.path)]
                && ('/' !in env.tempName ==> Within(result.value.path, result.value.dir))
    {
      var dir := env.downloadDir;
      fs.MakeDir(dir);
      var filePath := dir + Sep + env.tempName;
      JoinedIsWithin(dir, env.tempName);
      if env.createErr.Some? {
        result := Err(env.createErr.value);
      } else {
        fs.CreateFile(filePath);
        var cancelled, _ := Watchdog(env.stats);
        var transferErr := if cancelled then Some(ContextCanceled) else env.transferErr;
        if transferErr.Some? {
          if cancelled {
            CancelReportsSlowDownload(env);
          }
          result := Err(MapDownloadError(transferErr.value));
        } else {
          result := Ok(DownloadResult(fileID, filePath, dir));
        }
      }
      // the deferred cleanup, keyed on the result
      if result.Err? {
        RemovingFreshDirRestores(old(fs.dirs), old(fs.files), fs.dirs, fs.files, dir);
        fs.RemoveAll(dir);
      }
    }
  }
}
