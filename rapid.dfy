/**
  The rapid strategy: find the quality labels a video page links to, pick
  the best one, read the direct video URL and the title off the page for
  that quality, then download the video into a fresh directory and reject
  anything under 5 MiB.
 */
module Rapid {
  import opened Common
  import opened Downloader

  /** The quality labels the strategy knows, best first. */
  const Preferred: seq<string> := ["720p", "480p", "360p", "240p"]

  /** What `getLargestQualities` answers when no known label is offered. */
  const NoQuality := "none"

  const NoneQualityMsg := "None quality"
  const NoLabelsMsg := "Không tìm được độ phân giải nào "
  const NoDirectLinkMsg := "Không lấy được link rapid, ko biết nguyên nhân"

  // ---------------------------------------------------------------------
  // Quality selection
  // ---------------------------------------------------------------------

  /**
    `getLargestQualities`: the first label of `Preferred` that is offered,
    or "none".
   */
  function LargestQuality(offered: set<string>): (q: string)
    ensures q in Preferred || q == NoQuality
    ensures q != NoQuality ==> q in offered
    ensures q == NoQuality <==> forall i :: 0 <= i < |Preferred| ==> Preferred[i] !in offered
    ensures forall i, j :: 0 <= i < j < |Preferred| && Preferred[j] == q ==> Preferred[i] !in offered
  {
    if "720p" in offered then "720p"
    else if "480p" in offered then "480p"
    else if "360p" in offered then "360p"
    else if "240p" in offered then "240p"
    else NoQuality
  }

  /**
    An anchor offers a quality when its `href` starts with the page URL and
    its first '=' is not its first character.
   */
  predicate OffersQuality(href: string, pageURL: string) {
    HasPrefix(href, pageURL) && IndexOf(href, '=') > 0
  }

  /** The label of such an anchor: everything after its first '='. */
  function LabelOf(href: string): string
    requires IndexOf(href, '=') >= 0
  {
    href[IndexOf(href, '=') + 1..]
  }

  /** The labels collected from a page's anchors. */
  function Labels(pageURL: string, hrefs: seq<string>): set<string> {
    if hrefs == [] then {}
    else
      var last := hrefs[|hrefs| - 1];
      Labels(pageURL, hrefs[..|hrefs| - 1]) + (if OffersQuality(last, pageURL) then {LabelOf(last)} else {})
  }

  /** A label is collected exactly when some anchor offers it. */
  lemma {:induction false} LabelsAreOffered(pageURL: string, hrefs: seq<string>, q: string)
    ensures q in Labels(pageURL, hrefs) <==>
            exists i :: 0 <= i < |hrefs| && OffersQuality(hrefs[i], pageURL) && LabelOf(hrefs[i]) == q
  {
    if hrefs != [] {
      var init := hrefs[..|hrefs| - 1];
      LabelsAreOffered(pageURL, init, q);
      if q in Labels(pageURL, init) {
        var i :| 0 <= i < |init| && OffersQuality(init[i], pageURL) && LabelOf(init[i]) == q;
        assert hrefs[i] == init[i];
      }
      if exists i :: 0 <= i < |hrefs| && OffersQuality(hrefs[i], pageURL) && LabelOf(hrefs[i]) == q {
        var i :| 0 <= i < |hrefs| && OffersQuality(hrefs[i], pageURL) && LabelOf(hrefs[i]) == q;
        if i < |init| {
          assert init[i] == hrefs[i];
        }
      }
    }
  }

  /**
    What `getQualities` returns for the page at `pageURL`. A status other
    than 200 returns `(nil, nil)` in Go: no error and a nil map, which has
    no keys. The page's document is dereferenced without checking that it
    parsed.
   */
  function QualitiesOf(pageURL: string, fetch: string -> Fetch): (r: Result<set<string>>)
    ensures r.Ok? ==> fetch(pageURL).Response?
    ensures r.Ok? && r.value != {} ==> fetch(pageURL).status == 200
    ensures r.Ok? && fetch(pageURL).status == 200 ==>
              fetch(pageURL).doc.Document? && r.value == Labels(pageURL, fetch(pageURL).doc.anchorHrefs) && r.value != {}
  {
    match fetch(pageURL)
    case TransportError(m) => Err(m)
    case Response(status, _, _, _, doc, _) =>
      if status != 200 then Ok({})
      else if doc.Unparsable? then Err(NilDereference)
      else
        var labels := Labels(pageURL, doc.anchorHrefs);
        if labels == {} then Err(NoLabelsMsg) else Ok(labels)
  }

  /** `getQualities`: request the page and collect the labels its anchors offer. */
  method GetQualities(pageURL: string, fetch: string -> Fetch) returns (r: Result<set<string>>)
    ensures r == QualitiesOf(pageURL, fetch)
  {
    var res := fetch(pageURL);
    if res.TransportError? {
      return Err(res.msg);
    }
    if res.status != 200 {
      return Ok({});
    }
    if res.doc.Unparsable? {
      return Err(NilDereference);
    }
    var hrefs := res.doc.anchorHrefs;
    var labels: set<string> := {};
    for i := 0 to |hrefs|
      invariant labels == Labels(pageURL, hrefs[..i])
    {
      var href := hrefs[i];
      var idx := IndexOf(href, '=');
      assert hrefs[..i + 1][..i] == hrefs[..i];
      if HasPrefix(href, pageURL) && idx > 0 {
        labels := labels + {href[idx + 1..]};
      }
    }
    assert hrefs[..|hrefs|] == hrefs;
    if |labels| == 0 {
      return Err(NoLabelsMsg);
    }
    return Ok(labels);
  }

  /** What `getRapidURLWithQuality` returns for the page at `link`. */
  function QualityLinkOf(link: string, fetch: string -> Fetch): Result<string> {
    match QualitiesOf(link, fetch)
    case Err(m) => Err(m)
    case Ok(offered) =>
      var q := LargestQuality(offered);
      if q == NoQuality then Err(NoneQualityMsg) else Ok(link + "&q=" + q)
  }

  /** `getRapidURLWithQuality`: the page URL with the best offered quality appended. */
  method GetRapidURLWithQuality(link: string, fetch: string -> Fetch) returns (r: Result<string>)
    ensures r == QualityLinkOf(link, fetch)
  {
    var qualities := GetQualities(link, fetch);
    if qualities.Err? {
      return Err(qualities.msg);
    }
    var q := LargestQuality(qualities.value);
    if q == NoQuality {
      return Err(NoneQualityMsg);
    }
    return Ok(link + "&q=" + q);
  }

  /**
    The quality link exists exactly when the page answers 200, parses and
    offers one of the known labels; it is then the page URL followed by
    "&q=" and the best label offered.
   */
  lemma QualityLinkIsBestOffered(link: string, fetch: string -> Fetch)
    ensures QualityLinkOf(link, fetch).Ok? <==>
            && fetch(link).Response? && fetch(link).status == 200 && fetch(link).doc.Document?
            && exists i :: 0 <= i < |Preferred| && Preferred[i] in Labels(link, fetch(link).doc.anchorHrefs)
    ensures QualityLinkOf(link, fetch).Ok? ==>
              var q := LargestQuality(Labels(link, fetch(link).doc.anchorHrefs));
              && q in Preferred
              && q in Labels(link, fetch(link).doc.anchorHrefs)
              && QualityLinkOf(link, fetch).value == link + "&q=" + q
  {
  }

  /** A page that does not answer 200 ends in "None quality", not in an error of its own. */
  lemma NonOkPageMeansNoneQuality(link: string, fetch: string -> Fetch)
    requires fetch(link).Response? && fetch(link).status != 200
    ensures QualityLinkOf(link, fetch) == Err(NoneQualityMsg)
  {
  }

  // ---------------------------------------------------------------------
  // parse
  // ---------------------------------------------------------------------

  /** The error `parse` stops with, or None when it resolves a direct URL. */
  function ParseError(value: string, env: Env): Option<string> {
    if env.parseURL(value).Some? then env.parseURL(value)
    else match QualityLinkOf(value, env.fetch)
      case Err(m) => Some(m)
      case Ok(link) =>
        match env.fetch(link)
        case TransportError(_) => Some(NilDereference)
        case Response(_, _, _, _, doc, _) =>
          if doc.Unparsable? then Some(NilDereference)
          else if doc.videoSource.None? then Some(NoDirectLinkMsg)
          else None
  }

  /** The page for the chosen quality, once `parse` has succeeded. */
  function VideoPage(value: string, env: Env): (d: Document)
    requires ParseError(value, env).None?
    ensures d.Document? && d.videoSource.Some?
  {
    env.fetch(QualityLinkOf(value, env.fetch).value).doc
  }

  class Rapid {
    const fileID: string
    const source: DownloadSource
    var directURL: string
    var referer: string
    var fileName: string

    constructor (fileID: string, source: DownloadSource)
      ensures this.fileID == fileID && this.source == source
      ensures directURL == "" && referer == "" && fileName == ""
    {
      this.fileID := fileID;
      this.source := source;
      directURL, referer, fileName := "", "", "";
    }

    /**
      `getRapidDirectLink`: the title of the quality page becomes the file
      name, and its video source is the direct URL. A transport error or
      an unparsable page is dereferenced as nil in Go.
     */
    method GetDirectLink(link: string, fetch: string -> Fetch) returns (r: Result<string>)
      modifies this`fileName
      ensures fetch(link).TransportError? || fetch(link).doc.Unparsable? ==>
                r == Err(NilDereference) && fileName == old(fileName)
      ensures fetch(link).Response? && fetch(link).doc.Document? ==>
                && fileName == fetch(link).doc.title
                && r == (match fetch(link).doc.videoSource
                         case Some(src) => Ok(src)
                         case None => Err(NoDirectLinkMsg))
    {
      var res := fetch(link);
      if res.TransportError? || res.doc.Unparsable? {
        return Err(NilDereference);
      }
      fileName := res.doc.title;
      if res.doc.videoSource.Some? {
        return Ok(res.doc.videoSource.value);
      }
      return Err(NoDirectLinkMsg);
    }

    /**
      `parse`: check the URL, choose the quality link, remember it as the
      referer, then read the direct URL off the quality page. The first
      failing step ends it; the direct URL is stored only on success.
     */
    method Parse(env: Env) returns (err: Option<string>)
      modifies this`referer, this`directURL, this`fileName
      ensures err == ParseError(source.value, env)
      ensures directURL == (if err.None? then VideoPage(source.value, env).videoSource.value else old(directURL))
      ensures env.parseURL(source.value).Some? || QualityLinkOf(source.value, env.fetch).Err? ==>
                referer == old(referer) && fileName == old(fileName)
      ensures env.parseURL(source.value).None? && QualityLinkOf(source.value, env.fetch).Ok? ==>
                referer == QualityLinkOf(source.value, env.fetch).value
      ensures err.None? ==> fileName == VideoPage(source.value, env).title
      ensures env.parseURL(source.value).None? && QualityLinkOf(source.value, env.fetch).Ok? ==>
                var page := env.fetch(QualityLinkOf(source.value, env.fetch).value);
                fileName == (if page.Response? && page.doc.Document? then page.doc.title else old(fileName))
    {
      var parseErr := env.parseURL(source.value);
      if parseErr.Some? {
        return parseErr;
      }
      var rapidLink := GetRapidURLWithQuality(source.value, env.fetch);
      if rapidLink.Err? {
        return Some(rapidLink.msg);
      }
      referer := rapidLink.value;
      var direct := GetDirectLink(rapidLink.value, env.fetch);
      if direct.Err? {
        return Some(direct.msg);
      }
      directURL := direct.value;
      return None;
    }

    /**
      `Do`: parse, create the download directory, create the file named
      after the page title, download the direct URL into it, and refuse a
      status other than 200, a failed copy and anything under 5 MiB. The
      deferred cleanup removes the directory exactly when the result is nil.
     */
    method Do(env: Env, fs: FileSystem) returns (result: Result<DownloadResult>)
      requires fs.FreshDir(env.downloadDir)
      modifies this`referer, this`directURL, this`fileName, fs
      ensures ParseError(source.value, env).Some? ==>
                && result == Err(ParseError(source.value, env).value)
                && fs.dirs == old(fs.dirs) && fs.files == old(fs.files) && fs.log == old(fs.log)
      ensures directURL ==
                (if ParseError(source.value, env).None? then VideoPage(source.value, env).videoSource.value
                 else old(directURL))
      ensures env.parseURL(source.value).Some? || QualityLinkOf(source.value, env.fetch).Err? ==>
                referer == old(referer) && fileName == old(fileName)
      ensures env.parseURL(source.value).None? && QualityLinkOf(source.value, env.fetch).Ok? ==>
                var page := env.fetch(QualityLinkOf(source.value, env.fetch).value);
                && referer == QualityLinkOf(source.value, env.fetch).value
                && fileName == (if page.Response? && page.doc.Document? then page.doc.title else old(fileName))
      ensures ParseError(source.value, env).None? ==> fileName == VideoPage(source.value, env).title
      ensures ParseError(source.value, env).None? ==>
                DirLifecycle(old(fs.log), fs.log, env.downloadDir, result.Err?)
      ensures result.Err? && '/' !in fileName ==> fs.dirs == old(fs.dirs) && fs.files == old(fs.files)
      ensures ParseError(source.value, env).None? && env.createErr.Some? ==>
                result == Err(env.createErr.value)
      ensures ParseError(source.value, env).None? && env.createErr.None? ==>
                (result.Ok? <==> SizeChecked(FetchAndCopy(directURL, env)).Ok?)
      ensures ParseError(source.value, env).None? && env.createErr.None? &&
              SizeChecked(FetchAndCopy(directURL, env)).Err? ==>
                result == Err(SizeChecked(FetchAndCopy(directURL, env)).msg)
      ensures result.Ok? ==>
                && result.value == DownloadResult(fileID, env.downloadDir + Sep + fileName, env.downloadDir)
                && fs.dirs == old(fs.dirs) + {env.downloadDir}
                && fs.files == old(fs.files) + {result.value.path}
                && fs.log == old(fs.log) + [MkDirOp(env.downloadDir), CreateOp(result.value.path)]
                && ('/' !in fileName ==> Within(result.value.path, result.value.dir))
    {
      var parseErr := Parse(env);
      if parseErr.Some? {
        return Err(parseErr.value);
      }
      var dir := env.downloadDir;
      fs.MakeDir(dir);
      var filePath := dir + Sep + fileName;
      JoinedIsWithin(dir, fileName);
      if env.createErr.Some? {
        result := Err(env.createErr.value);
      } else {
        fs.CreateFile(filePath);
        var resp := env.fetch(directURL);
        if resp.TransportError? {
          result := Err(resp.msg);
        } else if resp.status != 200 {
          result := Err(resp.statusText);
        } else {
          var fileSize, copyErr := Copy(resp.body, env.disk);
          if copyErr.Some? {
            result := Err(copyErr.value);
          } else if fileSize < FiveMB {
            result := Err(TooSmallMsg);
          } else {
            result := Ok(DownloadResult(fileID, filePath, dir));
          }
        }
      }
      // the deferred cleanup, keyed on the result
      if result.Err? {
        RemovingFreshDirRestores(old(fs.dirs), old(fs.files), fs.dirs, fs.files, dir);
        fs.RemoveAll(dir);
      }
    }
  }

  /**
    The download request and the copy into the file: the number of bytes
    copied, or the error `Do` returns for them.
   */
  function FetchAndCopy(url: string, env: Env): Result<nat> {
    match env.fetch(url)
    case TransportError(m) => Err(m)
    case Response(status, statusText, _, _, _, body) =>
      if status != 200 then Err(statusText) else CopyOutcome(body, env.disk)
  }
}
