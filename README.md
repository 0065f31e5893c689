# downloader — a verified model of its download strategies

canhlinh/downloader is a Go library that downloads one file per call.
`NewDownloader` normalises the source's part count. It then picks a
strategy by the source's type tag:

- **rapid**: scrape a video page for the best quality, then the direct link.
- **drive**: seed cookies, resolve the export link, following a gating page if one comes back.
- **direct**: hand the URL to the pluto multi-part engine, under a watchdog that cancels slow transfers.
- **Base**: any other tag; it refuses the source.

The rapid, drive and direct strategies' `Do` create a fresh download
directory, and a deferred function removes it exactly when the result is
nil. `Base.Do` fails at once without touching the file system.

The model is written in Dafny, one module per source file:

| module | file | models |
|---|---|---|
| `Common` | common.dfy | The source descriptor and the download result. The answers of the outside world (HTTP responses with their parsed page, `Read`/`Write` replies, watchdog events). A file system with an operation log. The 5 MiB size rule. |
| `Downloader` | downloader.dfy | `GetFileName`, the `copy` loop, `Rename` with `path.Ext`, `CookiesToHeader` and `Base`. |
| `Rapid` | rapid.dfy | Quality scraping and selection, `parse` and `Do` of the rapid strategy. |
| `Drive` | drive.dfy | Cookie rewriting, `getDownloadURL`, `parse` and `Do` of the drive strategy. |
| `Direct` | direct.dfy | `init` (cookie and header lists), the slow-speed watchdog, the error mapping and `Do` of the direct strategy. |
| `Dispatch` | dispatch.dfy | `NewDownloader` and the interface-level `Do`. |

The outside world is fixed in advance, for one invocation, as an `Env` value:

- `fetch` maps a URL to its response.
- `parseURL` reports whether `url.Parse` fails.
- Further fields give the directory `makeDownloadDir` returns, the failure of the file creation, and the disk's answers to writes.
- The drive strategy's uuid and the name `ioutil.TempFile` picks are given strings.
- For pluto, there is its construction error, the events the watchdog receives and its own outcome.

Stateful parts of the source are Dafny classes whose methods carry
`modifies` clauses:

- the fields each strategy's `parse` assigns;
- `DownloadSource.MaxParts`, which `NewDownloader` rewrites;
- the file system.

The loops of the source (`copy`, `getQualities`, `GetDriveCookie`, `init`,
`CookiesToHeader`, the watchdog) are `while`/`for` loops. Each is proved
against a specification function or an explicit characterisation.

The model follows what the code does, not what its names suggest. A cap
`MaxParts = 20` is declared
(downloader_direct.go:17-19) but never applied, and only a part count of
exactly 0 is changed (to 1). Negative counts pass through unchanged.

## Model

| member | source | states |
|---|---|---|
| Common.SizeChecked | rapid_downloader.go:195-198 | A copied size under 5*1024*1024 is refused with "File size nhỏ hơn 5MB". Exactly 5 MiB and more is accepted unchanged. A copy error passes through. |
| Common.RemovingFreshDirRestores | rapid_downloader.go:152-159 | Suppose a directory was fresh, was created, and got files only inside it. Removing it recursively leaves exactly the directories and files that existed before. |
| Common.FileSystem.RemoveAll | rapid_downloader.go:155 | `os.RemoveAll` deletes the directory and everything below it, and nothing else. |
| Common.IndexOf | rapid_downloader.go:133 | `strings.Index` with a one-character needle: the first position of the character, or -1 exactly when it is absent. |
| Downloader.GetFileName | downloader.go:67-79 | Succeeds iff the header is present, parses and names a non-empty file name with no trailing "/" and no NUL. It then returns exactly that name. Otherwise the error is "Invalid file name <name>" when the header parsed, and "Invalid file name" when it did not. |
| Downloader.Chunk | downloader.go:107-110 | No read hands over more than the 32*1024-byte buffer. |
| Downloader.StopIndex | downloader.go:109-131 | The loop ends at the first read whose chunk is refused or that returns an error: that read stops it, and no earlier one does. |
| Downloader.Copy | downloader.go:105-134 | `written` is the sum of the positive counts the destination accepted, up to and including the stopping read. The error is chosen in this order: the write error; else `io.ErrShortWrite` when fewer bytes were accepted than read; else a read error other than EOF, reported after its chunk was written. No error is reported exactly when the loop stopped cleanly. |
| Downloader.AcceptedEqualsRead | downloader.go:111-124 | While no chunk is refused, the destination's total equals the bytes read. |
| Downloader.CleanCopyWritesEverything | downloader.go:125-130 | A copy without error ended on EOF, and `written` equals the total bytes read. |
| Downloader.WellBehavedCopyIsComplete | downloader.go:105-134 | A destination that accepts every chunk, fed by a source that never fails, receives the whole stream with no error. |
| Downloader.Ext | downloader.go:141 | `path.Ext` returns "" or a suffix of the path that starts with '.' and contains no '/'. |
| Downloader.ExtEmptyIff | downloader.go:141 | The extension is non-empty exactly when some '.' of the path has no '/' after it. |
| Downloader.Rename | downloader.go:140-155 | The result is the input or the input + ".mp4". It is the latter exactly when the path has no extension and `os.Rename` (whose outcome is given) succeeded. The rename is then logged and the old name, file or directory, is replaced by the new one. Otherwise the file system is unchanged. |
| Downloader.CookiesToHeader | downloader.go:157-163 | The loop's result is `CookieLine`: "" for no cookies, otherwise only the first cookie's serialisation, because `MIMEHeader.Get` returns the first value. |
| Downloader.Base.Parse | downloader.go:136-138 | `Base.parse` never fails. |
| Downloader.Base.Do | downloader.go:97-99 | Always fails with "Can not exec download this type " followed by the source type. |
| Rapid.LargestQuality | rapid_downloader.go:89-106 | Returns one of "720p", "480p", "360p", "240p", "none". A label other than "none" is offered and no better label is. "none" exactly when none of the four is offered. |
| Rapid.LabelsAreOffered | rapid_downloader.go:131-136 | A label is collected exactly when some anchor's `href` starts with the page URL, has its first '=' at an index above 0, and has that label after the '='. |
| Rapid.QualitiesOf | rapid_downloader.go:108-143 | A transport error is returned. A non-200 page gives no error and no labels. A 200 page yields the labels its anchors offer, or fails when there are none. |
| Rapid.GetQualities | rapid_downloader.go:108-143 | The anchor loop collects exactly the specification's label set. |
| Rapid.GetRapidURLWithQuality | rapid_downloader.go:73-87 | Equals the quality-link specification: the qualities' error, "None quality" when the selection is "none", else link + "&q=" + quality. |
| Rapid.QualityLinkIsBestOffered | rapid_downloader.go:73-106 | A quality link exists iff the page answers 200, parses and offers a known label. It is then the page URL + "&q=" + the best offered label. |
| Rapid.NonOkPageMeansNoneQuality | rapid_downloader.go:124-126 | A non-200 quality page surfaces as "None quality". |
| Rapid.VideoPage | rapid_downloader.go:62-68 | After a successful parse, the quality page parsed and has a video source. |
| Rapid.Rapid.constructor | rapid_downloader.go:24-29 | A new rapid downloader has its id and source and empty fields. |
| Rapid.Rapid.GetDirectLink | rapid_downloader.go:53-71 | The page title becomes the file name. The video source is the result; without one the result is the fixed error. A missing response or page is the nil-dereference error. |
| Rapid.Rapid.Parse | rapid_downloader.go:31-51 | Stops at the first failing step: URL, quality link, direct link. The referer is set before the direct-link lookup. The file name becomes the quality page's title whenever that page parsed, even without a video source. The direct URL is assigned only on success. |
| Rapid.Rapid.Do | rapid_downloader.go:145-206 | A parse failure returns before any directory is created and leaves the file system as it was. The fields end as `parse` leaves them: after a successful parse the direct URL is the video source, the file name the page title and the referer the quality link. Every later error removes the directory as the last operation. A transport error, a non-200 status, a copy error or a size under 5 MiB is an error. Success returns dir + "/" + file name and adds exactly the directory and that file. For a title without "/", an error leaves the file system as it was and the success path lies inside dir. |
| Rapid.FetchAndCopy | rapid_downloader.go:178-193 | The download request's error, its status line when not 200, or the copy's outcome. |
| Drive.CookieDomain | downloader_drive.go:137-144 | ".drive.google.com" exactly for "DRIVE_STREAM" and "S", ".google.com" for every other name. |
| Drive.RewriteCookies | downloader_drive.go:132-147 | One cookie per source cookie, in order, with the same name and value, path "/" and the rewritten domain. |
| Drive.ViewPageError | downloader_drive.go:150-158 | The view-page check fails exactly on a transport error or a non-200 status. A non-200 status fails with the status line. |
| Drive.DownloadBody | downloader_drive.go:35-70 | Only a 200 export response can succeed. When its header names a usable file, its body is returned. Otherwise the body behind the page's confirmation link, whose status is not checked. |
| Drive.MediaResponseIgnoresPage | downloader_drive.go:46-48 | A 200 response with a usable file name is returned whatever its page contains. |
| Drive.MissingLinkError | downloader_drive.go:56-62 | Without a download link, the error is the error caption when non-empty, else the fixed message; never empty. |
| Drive.Drive.constructor | downloader_drive.go:27-33 | The drive id is the source value. |
| Drive.Drive.GetDriveCookie | downloader_drive.go:128-162 | The jar holds the rewritten cookies. The result is the view-page check's error. |
| Drive.Drive.Parse | downloader_drive.go:72-85 | The jar holds the rewritten source cookies, one per cookie, in order. Fails with the cookie step's or the export step's error. Otherwise it stores the media body resolved from "https://drive.google.com/uc?id=" + id + "&export=download". |
| Drive.Drive.Do | downloader_drive.go:87-123 | The jar and the pending body end as `parse` leaves them. A parse failure returns before the directory exists. A create error, a copy error or a size under 5 MiB is an error, and every error removes the directory and restores the file system. Success returns a file inside the directory with the downloader's id and adds exactly the directory and that file. |
| Direct.CopyCookies | downloader_direct.go:38-46 | Keeps only each cookie's name and value, in order. |
| Direct.HeaderLines | downloader_direct.go:48-52 | One "key:value" line per header entry, each key once, in some order. Then one final "Cookie:<line>" entry, so the length is the header count + 1. |
| Direct.InitError | downloader_direct.go:54-63 | `init` fails with the URL error first, else with pluto's construction error. |
| Direct.Watchdog | downloader_direct.go:94-115 | Cancels iff 30 consecutive samples strictly below 100000 arrive before a Finished or quit event. It then stops at the 30th. Otherwise it returns at the first end event or runs out of events, and no slow run completed before. |
| Direct.NoCancelAfterEnd | downloader_direct.go:109-112 | An end event before any completed slow run rules out cancellation. |
| Direct.ThirtySlowSamplesCancel | downloader_direct.go:99-104 | Any thirty slow samples in a row cancel, whatever follows. |
| Direct.FastSampleResets | downloader_direct.go:105-107 | Any run of fewer than 30 slow samples followed by a sample at or above 100000 is forgotten: the stream cancels iff the rest does. |
| Direct.SlowDownloadMsgHasNoMarker | downloader_direct.go:119 | The slow-download message does not contain "context cancel". |
| Direct.MapDownloadError | downloader_direct.go:117-122 | An error containing "context cancel" becomes "Cancelled due to slow download speed". Any other error passes unchanged. No reported error contains the marker. |
| Direct.CancelReportsSlowDownload | downloader_direct.go:93-122 | A watchdog cancellation reaches the caller as the slow-download message. |
| Direct.DirectDownloader.constructor | downloader_direct.go:30-35 | A new direct downloader has no engine. |
| Direct.DirectDownloader.Init | downloader_direct.go:37-65 | The engine gets the URL, the source's part count, its proxy and the header lines: one "key:value" line per header entry, each key exactly once, in some order, then the first cookie's "Cookie:" entry. A URL failure returns before the engine is touched. |
| Direct.DirectDownloader.Do | downloader_direct.go:67-132 | The engine ends as `init` leaves it. An init failure returns before the directory exists and leaves the file system as it was. After `init`, the contract of `Transfer` holds. |
| Direct.DirectDownloader.Transfer | downloader_direct.go:74-131 | Creates the directory first. A temp-file error or a transfer error is an error, mapped as above, and every error removes the directory as the last operation. Success returns the temp file `ioutil.TempFile` named and adds exactly the directory and that file. For a temp-file name without "/", an error leaves the file system as it was and the temp file lies inside the directory. |
| Dispatch.KindFor | downloader.go:48-57 | "rapid", "drive" and "direct" pick their strategies. Every other tag picks Base. |
| Dispatch.RedirectFallsBackToBase | downloader.go:48-57 | "redirect" is not dispatched on and gets Base. |
| Dispatch.NormalizedParts | downloader.go:44-46 | The part count changes only when it is exactly 0, to 1. |
| Dispatch.NewDownloader | downloader.go:43-58 | Rewrites `MaxParts` in place, then returns a fresh strategy of the tag's kind for this id and source. |
| Dispatch.Do | downloader.go:38 | Across all strategies: success adds exactly the fresh directory and the result file to the file system. When the file name has no "/", an error leaves the file system's contents unchanged and the file lies inside the directory. Base always fails naming the type and touches nothing. |

## Left out

- HTTP, HTML parsing, `mime.ParseMediaType`, `url.Parse` and pluto are not modelled internally. They are oracle answers in `Env`. Request headers, the referer and cookies do not influence the modelled responses.
- Concurrency is not modelled: the goroutine, channels and `context.WithCancel`. The watchdog is a sequential loop over the events it receives, in order. A cancellation is taken to end pluto's transfer with "context canceled".
- Time, randomness and naming are not modelled: `uuid.New`, the name `ioutil.TempFile` picks and the directory `makeDownloadDir` returns are given strings. The download directory is assumed fresh.
- Logging (log4go), `Base.Delete`, `Drive.Progress` and closing files and bodies are not modelled: they are side effects with no contract.
- downloader_m3u8.go, direct_downloader.go and simulation/slow_download_speed.go are not part of this model. The first is a wrapper over an external library that `NewDownloader` never selects. The second is an older duplicate of the direct strategy. The third is a test server.
- Rapid.Rapid.GetDirectLink: where Go dereferences a nil response or document (a runtime panic), the model returns the error `NilDereference`. Rapid.QualitiesOf and Rapid.ParseError do the same.
- Downloader.Copy: `written` is an unbounded natural number; int64 overflow is not modelled. Each `Read` is described by the bytes it has ready, clamped to the buffer.
- Downloader.CookiesToHeader: `http.Cookie.String` is reduced to "name=value", without its sanitising of names and values.
- Drive.Drive.GetDriveCookie: the cookie jar is the list last set. Its per-domain matching and the cookies' expiry are not modelled.
- Drive.Drive.Do: `path.Join` is modelled as plain joining with "/". Its cleaning of the joined path is not.
- Direct.DirectDownloader.Do: the watchdog's cancellation is coupled to pluto's outcome as stated above. What pluto writes into the temp file is not modelled.
- Direct.HeaderLines: Go's map iteration order is unspecified. The model picks an arbitrary order and states the lines up to that order.
- Rapid.Rapid.Do: a page title containing "/" (for example "../x") makes Go create the file outside the download directory, where `os.RemoveAll` does not reach it. Paths are compared as text, without `path.Clean`, so the restored-file-system and inside-the-directory claims are stated only for titles without "/".
- Dispatch.Do: the same limit, through `SafeFileName`, for the rapid title and the direct temp-file name.
- Direct.DirectDownloader.Do: the temp-file name is an input, not derived from the file id by `ioutil.TempFile`'s pattern rule. The restored-file-system and inside-the-directory claims are stated only for a name without "/", as for the rapid title.
- Downloader.Rename: the outcome of `os.Rename` is given as an input, not derived from the file system. Renaming a directory re-paths only that entry, not the entries below it.
- Rapid.Rapid.Do: Go discards the error of `http.NewRequest` (rapid_downloader.go:169-170, and likewise at 54-55 and 110-111 for `GetDirectLink` and `getQualities`) and would panic at the next line on a URL it rejects. The model lets `fetch` answer every URL.
- Drive.Drive.GetDriveCookie: Go discards the error of `http.NewRequest` (downloader_drive.go:130-131). A rejected URL would panic. The model lets `fetch` answer every URL.
- Drive.DownloadBody: Go discards the error of `http.NewRequest` (downloader_drive.go:36-37). A rejected URL would panic. The model lets `fetch` answer every URL.
