/**
  The drive strategy: seed the session with the caller's cookies rewritten
  to the hosting domains, check the item's view page, ask the export
  endpoint for the file, follow the confirmation link when a gating page
  comes back, and stream the media into a fresh directory, rejecting
  anything under 5 MiB.
 */
module Drive {
  import opened Common
  import opened Downloader

  const DriveHost := "https://drive.google.com"
  const StreamDomain := ".drive.google.com"
  const GoogleDomain := ".google.com"
  const NoDownloadLinkMsg := "Không thể phân tích link download từ website"

  /** The item's view page, requested to check the session. */
  function ViewURL(driveID: string): string {
    DriveHost + "/file/d/" + driveID + "/view"
  }

  /** The export endpoint `parse` starts from. */
  function InitURL(driveID: string): string {
    DriveHost + "/uc?id=" + driveID + "&export=download"
  }

  /** The confirmation link of a gating page, resolved against the host. */
  function ConfirmURL(href: string): string {
    DriveHost + href
  }

  // ---------------------------------------------------------------------
  // GetDriveCookie
  // ---------------------------------------------------------------------

  /** The domain a session cookie is rewritten to. */
  function CookieDomain(name: string): (d: string)
    ensures d == StreamDomain <==> name == "DRIVE_STREAM" || name == "S"
    ensures d == StreamDomain || d == GoogleDomain
  {
    if name == "DRIVE_STREAM" || name == "S" then StreamDomain else GoogleDomain
  }

  /**
    The cookies `GetDriveCookie` puts in the jar: one per source cookie, in
    order, with its name and value, path "/" and the rewritten domain.
   */
  method RewriteCookies(cookies: seq<Cookie>) returns (jar: seq<Cookie>)
    ensures |jar| == |cookies|
    ensures forall i :: 0 <= i < |cookies| ==>
              jar[i] == Cookie(cookies[i].name, cookies[i].value, CookieDomain(cookies[i].name), "/")
  {
    jar := [];
    for i := 0 to |cookies|
      invariant |jar| == i
      invariant forall j :: 0 <= j < i ==>
                  jar[j] == Cookie(cookies[j].name, cookies[j].value, CookieDomain(cookies[j].name), "/")
    {
      var c := Cookie(cookies[i].name, cookies[i].value, GoogleDomain, "/");
      if c.name == "DRIVE_STREAM" || c.name == "S" {
        c := c.(domain := StreamDomain);
      }
      jar := jar + [c];
    }
  }

  /** The error the view-page check ends with: a transport error, or the status line of a non-200 answer. */
  function ViewPageError(driveID: string, fetch: string -> Fetch): (e: Option<string>)
    ensures e.None? <==> fetch(ViewURL(driveID)).Response? && fetch(ViewURL(driveID)).status == 200
    ensures e.Some? && fetch(ViewURL(driveID)).Response? ==> e.value == fetch(ViewURL(driveID)).statusText
  {
    match fetch(ViewURL(driveID))
    case TransportError(m) => Some(m)
    case Response(status, statusText, _, _, _, _) => if status != 200 then Some(statusText) else None
  }

  // ---------------------------------------------------------------------
  // getDownloadURL
  // ---------------------------------------------------------------------

  /**
    `getDownloadURL`: the body of the export response when its header
    names a usable file, otherwise the body behind the gating page's
    confirmation link. The confirmation request's status is not checked.
   */
  function DownloadBody(url: string, fetch: string -> Fetch): (r: Result<seq<ReadStep>>)
    ensures r.Ok? ==> fetch(url).Response? && fetch(url).status == 200
    ensures fetch(url).Response? && fetch(url).status == 200 &&
            GetFileName(fetch(url).disposition, fetch(url).dispositionParams).Ok? ==>
              r == Ok(fetch(url).body)
    ensures r.Ok? && GetFileName(fetch(url).disposition, fetch(url).dispositionParams).Err? ==>
              && fetch(url).doc.Document? && fetch(url).doc.downloadHref.Some?
              && fetch(ConfirmURL(fetch(url).doc.downloadHref.value)).Response?
              && r.value == fetch(ConfirmURL(fetch(url).doc.downloadHref.value)).body
  {
    match fetch(url)
    case TransportError(m) => Err(m)
    case Response(status, statusText, disposition, params, doc, body) =>
      if status != 200 then Err(statusText)
      else if GetFileName(disposition, params).Ok? then Ok(body)
      else match doc
        case Unparsable(m) => Err(m)
        case Document(_, _, _, href, subcaption) =>
          if href.None? then
            Err(if subcaption != "" then subcaption else NoDownloadLinkMsg)
          else
            match fetch(ConfirmURL(href.value))
            case TransportError(m) => Err(m)
            case Response(_, _, _, _, _, confirmed) => Ok(confirmed)
  }

  /** `fetch` with the page parsed from `url`'s answer replaced by `page`. */
  function WithPage(fetch: string -> Fetch, url: string, page: Document): string -> Fetch {
    u => if u == url && fetch(u).Response? then fetch(u).(doc := page) else fetch(u)
  }

  /** A response that names a usable file is the media itself: its page is never looked at. */
  lemma MediaResponseIgnoresPage(url: string, fetch: string -> Fetch, page: Document)
    requires fetch(url).Response? && fetch(url).status == 200
    requires GetFileName(fetch(url).disposition, fetch(url).dispositionParams).Ok?
    ensures DownloadBody(url, WithPage(fetch, url, page)) == DownloadBody(url, fetch) == Ok(fetch(url).body)
  {
    assert WithPage(fetch, url, page)(url) == fetch(url).(doc := page);
  }

  /**
    A gating page without a confirmation link ends with its own error
    caption when it has one, and the generic message otherwise, so the
    error is never empty.
   */
  lemma MissingLinkError(url: string, fetch: string -> Fetch)
    requires fetch(url).Response? && fetch(url).status == 200
    requires GetFileName(fetch(url).disposition, fetch(url).dispositionParams).Err?
    requires fetch(url).doc.Document? && fetch(url).doc.downloadHref.None?
    ensures DownloadBody(url, fetch) ==
              Err(if fetch(url).doc.errorSubcaption != "" then fetch(url).doc.errorSubcaption else NoDownloadLinkMsg)
    ensures DownloadBody(url, fetch).msg != ""
  {
  }

  /** What `parse` ends with: the pending media body, or the error that stopped it. */
  function ParseOutcome(driveID: string, fetch: string -> Fetch): Result<seq<ReadStep>> {
    if ViewPageError(driveID, fetch).Some? then Err(ViewPageError(driveID, fetch).value)
    else DownloadBody(InitURL(driveID), fetch)
  }

  class Drive {
    const fileID: string
    const source: DownloadSource
    const driveID: string
    var jar: seq<Cookie>
    var respBody: Option<seq<ReadStep>>

    /** `NewDrive`: the item id is the source's value; the jar starts empty. */
    constructor (fileID: string, source: DownloadSource)
      ensures this.fileID == fileID && this.source == source && driveID == source.value
      ensures jar == [] && respBody == None
    {
      this.fileID := fileID;
      this.source := source;
      driveID := source.value;
      jar, respBody := [], None;
    }

    /** `GetDriveCookie`: seed the jar with the rewritten cookies, then check the view page. */
    method GetDriveCookie(fetch: string -> Fetch) returns (err: Option<string>)
      modifies this`jar
      ensures |jar| == |source.cookies|
      ensures forall i :: 0 <= i < |jar| ==>
                jar[i] == Cookie(source.cookies[i].name, source.cookies[i].value,
                                 CookieDomain(source.cookies[i].name), "/")
      ensures err == ViewPageError(driveID, fetch)
    {
      jar := [];
      var cookies := RewriteCookies(source.cookies);
      jar := jar + cookies;
      var res := fetch(ViewURL(driveID));
      if res.TransportError? {
        return Some(res.msg);
      }
      if res.status != 200 {
        return Some(res.statusText);
      }
      return None;
    }

    /** `parse`: seed the session, then resolve the export URL to the pending media body. */
    method Parse(env: Env) returns (err: Option<string>)
      modifies this`jar, this`respBody
      ensures |jar| == |source.cookies|
      ensures forall i :: 0 <= i < |jar| ==>
                jar[i] == Cookie(source.cookies[i].name, source.cookies[i].value,
                                 CookieDomain(source.cookies[i].name), "/")
      ensures ParseOutcome(driveID, env.fetch).Err? ==>
                err == Some(ParseOutcome(driveID, env.fetch).msg) && respBody == old(respBody)
      ensures ParseOutcome(driveID, env.fetch).Ok? ==>
                err == None && respBody == Some(ParseOutcome(driveID, env.fetch).value)
    {
      err := GetDriveCookie(env.fetch);
      if err.Some? {
        return err;
      }
      var body := DownloadBody(InitURL(driveID), env.fetch);
      if body.Err? {
        return Some(body.msg);
      }
      respBody := Some(body.value);
      return None;
    }

    /**
      `Do`: parse, create the download directory and a file named by a
      fresh token inside it, copy the pending body into the file and
      refuse a failed copy or anything under 5 MiB. The deferred cleanup
      removes the directory exactly when the result is nil.
     */
    method Do(env: Env, fs: FileSystem) returns (result: Result<DownloadResult>)
      requires fs.FreshDir(env.downloadDir)
      modifies this`jar, this`respBody, fs
      ensures |jar| == |source.cookies|
      ensures forall i :: 0 <= i < |jar| ==>
                jar[i] == Cookie(source.cookies[i].name, source.cookies[i].value,
                                 CookieDomain(source.cookies[i].name), "/")
      ensures respBody ==
                (if ParseOutcome(driveID, env.fetch).Ok? then Some(ParseOutcome(driveID, env.fetch).value)
                 else old(respBody))
      ensures ParseOutcome(driveID, env.fetch).Err? ==>
                && result == Err(ParseOutcome(driveID, env.fetch).msg)
                && fs.dirs == old(fs.dirs) && fs.files == old(fs.files) && fs.log == old(fs.log)
      ensures ParseOutcome(driveID, env.fetch).Ok? ==>
                DirLifecycle(old(fs.log), fs.log, env.downloadDir, result.Err?)
      ensures result.Err? ==> fs.dirs == old(fs.dirs) && fs.files == old(fs.files)
      ensures ParseOutcome(driveID, env.fetch).Ok? && env.createErr.Some? ==>
                result == Err(env.createErr.value)
      ensures ParseOutcome(driveID, env.fetch).Ok? && env.createErr.None? ==>
                var copied := SizeChecked(CopyOutcome(ParseOutcome(driveID, env.fetch).value, env.disk));
                (result.Ok? <==> copied.Ok?) && (copied.Err? ==> result == Err(copied.msg))
      ensures result.Ok? ==>
                && result.value == DownloadResult(fileID, env.downloadDir + Sep + env.fileToken, env.downloadDir)
                && fs.dirs == old(fs.dirs) + {env.downloadDir}
                && fs.files == old(fs.files) + {result.value.path}
                && fs.log == old(fs.log) + [MkDirOp(env.downloadDir), CreateOp(result.value.path)]
                && Within(result.value.path, result.value.dir)
    {
      var parseErr := Parse(env);
      if parseErr.Some? {
        return Err(parseErr.value);
      }
      var dir := env.downloadDir;
      fs.MakeDir(dir);
      var filePath := dir + Sep + env.fileToken;
      JoinedIsWithin(dir, env.fileToken);
      if env.createErr.Some? {
        result := Err(env.createErr.value);
      } else {
        fs.CreateFile(filePath);
        var fileSize, copyErr := Copy(respBody.value, env.disk);
        if copyErr.Some? {
          result := Err(copyErr.value);
        } else if fileSize < FiveMB {
          result := Err(TooSmallMsg);
        } else {
          result := Ok(DownloadResult(fileID, filePath, dir));
        }
      }
      // the deferred cleanup, keyed on the result
      if result.Err? {
        RemovingFreshDirRestores(old(fs.dirs), old(fs.files), fs.dirs, fs.files, dir);
        fs.RemoveAll(dir);
      }
    }
  }
}
