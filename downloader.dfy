/**
  The helpers every strategy shares: reading the file name out of a
  `Content-Disposition` header, the buffered copy loop with its byte
  accounting, the `.mp4` rename fallback, cookie serialisation, and the
  fallback strategy `Base` that refuses every source type it is given.
 */
module Downloader {
  import opened Common

  // ---------------------------------------------------------------------
  // GetFileName
  // ---------------------------------------------------------------------

  const InvalidFileName := "Invalid file name"

  /** `params["filename"]`: a missing key reads as "", as in a Go map. */
  function FileNameParam(params: map<string, string>): string {
    if "filename" in params then params["filename"] else ""
  }

  /** A file name the downloader is willing to save under. */
  predicate UsableFileName(name: string) {
    name != "" && !HasSuffix(name, "/") && '\0' !in name
  }

  /**
    The file name announced by a response: `disposition` is its
    `Content-Disposition` header ("" when absent) and `params` what
    `mime.ParseMediaType` makes of it (None when parsing fails).
   */
  function GetFileName(disposition: string, params: Option<map<string, string>>): (r: Result<string>)
    ensures r.Ok? <==> disposition != "" && params.Some? && UsableFileName(FileNameParam(params.value))
    ensures r.Ok? ==> r.value == FileNameParam(params.value)
    ensures r.Ok? ==> |r.value| > 0 && r.value[|r.value| - 1] != '/'
                      && forall i :: 0 <= i < |r.value| ==> r.value[i] != '\0'
    ensures r.Err? && disposition != "" && params.Some? ==>
              r.msg == InvalidFileName + " " + FileNameParam(params.value)
    ensures r.Err? && (disposition == "" || params.None?) ==> r.msg == InvalidFileName
  {
    if disposition != "" && params.Some? then
      var name := FileNameParam(params.value);
      if !UsableFileName(name) then Err(InvalidFileName + " " + name) else Ok(name)
    else
      Err(InvalidFileName)
  }

  // ---------------------------------------------------------------------
  // copy: the buffered copy loop
  // ---------------------------------------------------------------------

  /** Length of the buffer `copy` reads into. */
  const BufSize: nat := 32 * 1024

  /** Text of Go's `io.ErrShortWrite`. */
  const ShortWrite := "short write"

  /**
    Bytes the `i`-th `Read` call puts into the buffer. Past the end of
    `src` the source is exhausted and answers `(0, EOF)`.
   */
  function Chunk(src: seq<ReadStep>, i: nat): (nr: nat)
    ensures nr <= BufSize
    ensures i < |src| ==> nr == Min(src[i].ready, BufSize)
  {
    if i < |src| then Min(src[i].ready, BufSize) else 0
  }

  /** The error returned by the `i`-th `Read` call. */
  function ReadErrAt(src: seq<ReadStep>, i: nat): ReadErr {
    if i < |src| then src[i].err else EOF
  }

  /**
    The destination's reply to the chunk of the `i`-th read. Past the end
    of `dst` the destination takes the whole chunk without error.
   */
  function ReplyAt(dst: seq<WriteReply>, i: nat, nr: nat): WriteReply {
    if i < |dst| then dst[i] else WriteReply(nr, None)
  }

  /** The `i`-th chunk was handed to the destination and not fully accepted. */
  predicate WriteFails(src: seq<ReadStep>, dst: seq<WriteReply>, i: nat) {
    var nr := Chunk(src, i);
    var w := ReplyAt(dst, i, nr);
    nr > 0 && (w.err.Some? || w.n != nr)
  }

  /** The loop ends at the `i`-th `Read` call. */
  predicate StopsAt(src: seq<ReadStep>, dst: seq<WriteReply>, i: nat) {
    WriteFails(src, dst, i) || !ReadErrAt(src, i).NoErr?
  }

  function StopFrom(src: seq<ReadStep>, dst: seq<WriteReply>, i: nat): (k: nat)
    ensures i <= k && StopsAt(src, dst, k)
    ensures forall j :: i <= j < k ==> !StopsAt(src, dst, j)
    decreases |src| - i
  {
    if StopsAt(src, dst, i) then i else StopFrom(src, dst, i + 1)
  }

  /** The index of the `Read` call at which the copy loop ends: the first that stops it. */
  function StopIndex(src: seq<ReadStep>, dst: seq<WriteReply>): (k: nat)
    ensures StopsAt(src, dst, k)
    ensures forall j :: 0 <= j < k ==> !StopsAt(src, dst, j)
  {
    StopFrom(src, dst, 0)
  }

  /** Bytes the destination reports having taken from the `i`-th chunk. */
  function Accepted(src: seq<ReadStep>, dst: seq<WriteReply>, i: nat): nat {
    var nr := Chunk(src, i);
    var w := ReplyAt(dst, i, nr);
    if nr > 0 && w.n > 0 then w.n else 0
  }

  /** Bytes the destination took from the first `k` chunks. */
  function AcceptedSum(src: seq<ReadStep>, dst: seq<WriteReply>, k: nat): nat {
    if k == 0 then 0 else AcceptedSum(src, dst, k - 1) + Accepted(src, dst, k - 1)
  }

  /** Bytes the first `k` `Read` calls delivered. */
  function ChunkSum(src: seq<ReadStep>, k: nat): nat {
    if k == 0 then 0 else ChunkSum(src, k - 1) + Chunk(src, k - 1)
  }

  /** The `k`-th call ends the loop without an error to report. */
  predicate CleanStop(src: seq<ReadStep>, dst: seq<WriteReply>, k: nat) {
    !WriteFails(src, dst, k) && !ReadErrAt(src, k).ReadFailure?
  }

  /** What `copy` returns, as one value: the byte count, or the error it reports. */
  function CopyOutcome(src: seq<ReadStep>, dst: seq<WriteReply>): Result<nat> {
    var k := StopIndex(src, dst);
    var nr := Chunk(src, k);
    var w := ReplyAt(dst, k, nr);
    if nr > 0 && w.err.Some? then Err(w.err.value)
    else if nr > 0 && w.n != nr then Err(ShortWrite)
    else if ReadErrAt(src, k).ReadFailure? then Err(ReadErrAt(src, k).msg)
    else Ok(AcceptedSum(src, dst, k + 1))
  }

  /**
    Go's `Base.copy`: read into a 32 KiB buffer, write what was read, and
    stop at the first write error, short write or read error. `written`
    counts what the destination accepted; the error follows the order the
    loop checks in: write error, then short write, then a read error other
    than EOF, which is reported only after that chunk was written.
   */
  method Copy(src: seq<ReadStep>, dst: seq<WriteReply>) returns (written: nat, err: Option<string>)
    ensures written == AcceptedSum(src, dst, StopIndex(src, dst) + 1)
    ensures var k := StopIndex(src, dst);
            var nr := Chunk(src, k);
            var w := ReplyAt(dst, k, nr);
            && (nr > 0 && w.err.Some? ==> err == w.err)
            && (nr > 0 && w.err.None? && w.n != nr ==> err == Some(ShortWrite))
            && (!WriteFails(src, dst, k) && ReadErrAt(src, k).ReadFailure? ==>
                  err == Some(ReadErrAt(src, k).msg))
    ensures err.None? <==> CleanStop(src, dst, StopIndex(src, dst))
    ensures CopyOutcome(src, dst) == (if err.None? then Ok(written) else Err(err.value))
  {
    written, err := 0, None;
    var i := 0;
    while true
      invariant i <= StopIndex(src, dst)
      invariant written == AcceptedSum(src, dst, i)
      decreases StopIndex(src, dst) - i
    {
      var nr := Chunk(src, i);
      var er := ReadErrAt(src, i);
      if nr > 0 {
        var w := ReplyAt(dst, i, nr);
        if w.n > 0 {
          written := written + w.n;
        }
        if w.err.Some? {
          err := w.err;
          assert StopsAt(src, dst, i);
          break;
        }
        if nr != w.n {
          err := Some(ShortWrite);
          assert StopsAt(src, dst, i);
          break;
        }
      }
      if er != NoErr {
        if er.ReadFailure? {
          err := Some(er.msg);
        }
        assert StopsAt(src, dst, i);
        break;
      }
      i := i + 1;
    }
  }

  /** When no chunk before `m` was refused, the destination took every byte read. */
  lemma {:induction false} AcceptedEqualsRead(src: seq<ReadStep>, dst: seq<WriteReply>, m: nat)
    requires forall i :: 0 <= i < m ==> !WriteFails(src, dst, i)
    ensures AcceptedSum(src, dst, m) == ChunkSum(src, m)
  {
    if m > 0 {
      AcceptedEqualsRead(src, dst, m - 1);
      assert !WriteFails(src, dst, m - 1);
      assert Accepted(src, dst, m - 1) == Chunk(src, m - 1);
    }
  }

  /**
    A copy that reports no error ended on EOF, and the destination took
    exactly the bytes the source delivered.
   */
  lemma CleanCopyWritesEverything(src: seq<ReadStep>, dst: seq<WriteReply>)
    requires CleanStop(src, dst, StopIndex(src, dst))
    ensures ReadErrAt(src, StopIndex(src, dst)) == EOF
    ensures AcceptedSum(src, dst, StopIndex(src, dst) + 1)
         == ChunkSum(src, StopIndex(src, dst) + 1)
  {
    var k := StopIndex(src, dst);
    forall i | 0 <= i < k + 1
      ensures !WriteFails(src, dst, i)
    {
      if i < k {
        assert !StopsAt(src, dst, i);
      }
    }
    AcceptedEqualsRead(src, dst, k + 1);
  }

  /**
    A destination that takes every chunk whole, fed by a source that never
    fails, receives the whole stream up to its EOF and no error.
   */
  lemma WellBehavedCopyIsComplete(src: seq<ReadStep>)
    requires forall i :: 0 <= i < |src| ==> !src[i].err.ReadFailure?
    ensures CleanStop(src, [], StopIndex(src, []))
    ensures ReadErrAt(src, StopIndex(src, [])) == EOF
    ensures AcceptedSum(src, [], StopIndex(src, []) + 1) == ChunkSum(src, StopIndex(src, []) + 1)
  {
    CleanCopyWritesEverything(src, []);
  }

  // ---------------------------------------------------------------------
  // Rename
  // ---------------------------------------------------------------------

  /**
    Go's `path.Ext`: the suffix from the last '.' of the last
    slash-separated element, or "" when that element has no '.'.
   */
  function Ext(p: string): (e: string)
    ensures e == "" || (e[0] == '.' && '/' !in e && HasSuffix(p, e))
  {
    if |p| == 0 || p[|p| - 1] == '/' then ""
    else if p[|p| - 1] == '.' then p[|p| - 1..]
    else
      var e := Ext(p[..|p| - 1]);
      if e == "" then "" else e + [p[|p| - 1]]
  }

  /** Some '.' of `p` has no '/' after it. */
  predicate HasDotInLastElement(p: string) {
    exists i :: 0 <= i < |p| && p[i] == '.' && '/' !in p[i + 1..]
  }

  lemma {:induction false} ExtEmptyIff(p: string)
    ensures Ext(p) != "" <==> HasDotInLastElement(p)
  {
    if |p| == 0 {
    } else if p[|p| - 1] == '/' {
      forall i | 0 <= i < |p| && p[i] == '.'
        ensures '/' in p[i + 1..]
      {
        assert p[i + 1..][|p| - i - 2] == '/';
      }
    } else if p[|p| - 1] == '.' {
      assert p[|p|..] == [];
    } else {
      var q := p[..|p| - 1];
      ExtEmptyIff(q);
      if HasDotInLastElement(q) {
        var i :| 0 <= i < |q| && q[i] == '.' && '/' !in q[i + 1..];
        assert p[i + 1..] == q[i + 1..] + [p[|p| - 1]];
      }
      if HasDotInLastElement(p) {
        var i :| 0 <= i < |p| && p[i] == '.' && '/' !in p[i + 1..];
        assert p[i + 1..] == q[i + 1..] + [p[|p| - 1]];
      }
    }
  }

  /**
    `Rename`: a path that already has an extension is kept; otherwise the
    entry is renamed to path + ".mp4", and if that rename fails the
    original path is kept. `renameOk` is the outcome of `os.Rename`.
   */
  method Rename(fs: FileSystem, filePath: string, renameOk: bool) returns (r: string)
    modifies fs
    ensures r == filePath || r == filePath + ".mp4"
    ensures r == filePath + ".mp4" <==> Ext(filePath) == "" && renameOk
    ensures r == filePath ==> fs.files == old(fs.files) && fs.dirs == old(fs.dirs) && fs.log == old(fs.log)
    ensures r != filePath ==> fs.log == old(fs.log) + [RenameOp(filePath, r)]
    ensures r != filePath ==>
              fs.files == (if filePath in old(fs.files) then old(fs.files) - {filePath} + {r} else old(fs.files))
    ensures r != filePath ==>
              fs.dirs == (if filePath in old(fs.dirs) then old(fs.dirs) - {filePath} + {r} else old(fs.dirs))
  {
    if Ext(filePath) != "" {
      return filePath;
    }
    var newPath := filePath + ".mp4";
    fs.Rename(filePath, newPath, renameOk);
    if !renameOk {
      return filePath;
    }
    return newPath;
  }

  // ---------------------------------------------------------------------
  // CookiesToHeader
  // ---------------------------------------------------------------------

  /** `http.Cookie.String` of a cookie that carries only a name and a value. */
  function CookieString(c: Cookie): string {
    c.name + "=" + c.value
  }

  /** The value `Get("Cookie")` finds: the first cookie's name=value, or "" without cookies. */
  function CookieLine(cookies: seq<Cookie>): string {
    if cookies == [] then "" else CookieString(cookies[0])
  }

  /**
    `CookiesToHeader`: every cookie is added as a `Cookie` value of a MIME
    header, and `Get` returns only the first value, or "" when there is none.
   */
  method CookiesToHeader(cookies: seq<Cookie>) returns (line: string)
    ensures line == CookieLine(cookies)
  {
    var values: seq<string> := [];
    for i := 0 to |cookies|
      invariant |values| == i
      invariant forall j :: 0 <= j < i ==> values[j] == CookieString(cookies[j])
    {
      values := values + [CookieString(cookies[i])];
    }
    line := if values == [] then "" else values[0];
  }

  // ---------------------------------------------------------------------
  // Base: the strategy for every unsupported type
  // ---------------------------------------------------------------------

  const UnsupportedType := "Can not exec download this type "

  class Base {
    const fileID: string
    const source: DownloadSource

    constructor (fileID: string, source: DownloadSource)
      ensures this.fileID == fileID && this.source == source
    {
      this.fileID := fileID;
      this.source := source;
    }

    /** `Base.parse` has nothing to resolve. */
    method Parse() returns (err: Option<string>)
      ensures err == None
    {
      err := None;
    }

    /** `Base.Do` refuses the source, naming its type, and touches nothing. */
    method Do() returns (result: Result<DownloadResult>)
      ensures result == Err(UnsupportedType + source.typ)
    {
      result := Err(UnsupportedType + source.typ);
    }
  }
}
