/** The file adapter (src/main/services/file-handler.ts): MIME resolution from the file
    extension, staging a copy under a timestamped name, forwarding to the gateway's
    document operation, batch processing and the clean-up of old staged files. */
module FileHandler {
  import opened Wrappers
  import opened Types
  import opened Backend
  import opened Effects
  import Ai
  import Constants

  const DefaultUploadDir := "uploads"
  const DefaultPrompt := "Analyze this file and provide a summary of its content."
  const FailedText := "Failed to process file"

  /** The default maximum age of a staged file: seven days in milliseconds. */
  const DefaultMaxAge: int := 7 * 24 * 60 * 60 * 1000

  /** The extension table of getMimeType. */
  const MimeTable: map<string, string> := map[
    ".pdf" := "application/pdf",
    ".js" := "text/javascript",
    ".py" := "text/x-python",
    ".txt" := "text/plain",
    ".html" := "text/html",
    ".htm" := "text/html",
    ".css" := "text/css",
    ".md" := "text/md",
    ".csv" := "text/csv",
    ".xml" := "text/xml",
    ".rtf" := "text/rtf",
    ".png" := "image/png",
    ".jpg" := "image/jpeg",
    ".jpeg" := "image/jpeg",
    ".gif" := "image/gif",
    ".webp" := "image/webp",
    ".svg" := "image/svg+xml",
    ".tiff" := "image/tiff",
    ".tif" := "image/tiff"
  ]

  /** `toLowerCase` on the ASCII letters; the table's keys are ASCII. */
  function LowerChar(c: char): char {
    if 'A' <= c <= 'Z' then (c as int + 32) as char else c
  }

  function ToLowerAscii(s: string): string {
    seq(|s|, i requires 0 <= i < |s| => LowerChar(s[i]))
  }

  /** The index of the last '.' in `s`. */
  function LastDot(s: string): (k: Option<nat>)
    ensures k.Some? ==> k.value < |s| && s[k.value] == '.' && '.' !in s[k.value + 1..]
    ensures k.None? ==> '.' !in s
  {
    if s == [] then None
    else if s[|s| - 1] == '.' then Some(|s| - 1)
    else
      var k := LastDot(s[..|s| - 1]);
      assert s == s[..|s| - 1] + [s[|s| - 1]];
      k
  }

  /** `path.extname(p)` (POSIX): from the last '.' of the basename to its end, or "" when the
      basename has no '.', starts with its only '.', or is "..". */
  function ExtName(p: string): string {
    var b := Basename(p);
    var k := LastDot(b);
    if k.None? || k.value == 0 || b == ".." then "" else b[k.value..]
  }

  /** An extension is empty or a '.' followed by dot- and slash-free text. */
  lemma ExtNameShape(p: string)
    ensures var e := ExtName(p); e == [] || (e[0] == '.' && '.' !in e[1..] && '/' !in e)
  {
    var b := Basename(p);
    var k := LastDot(b);
    if k.Some? && k.value != 0 && b != ".." {
      assert b[k.value..][1..] == b[k.value + 1..];
      assert forall c :: c in b[k.value..] ==> c in b;
    }
  }

  /** getMimeType: the lower-cased extension looked up in the table, else the generic binary type. */
  function GetMimeType(filePath: string): (r: string)
    ensures r in Constants.SupportedFileTypes || r == Constants.OctetStream
  {
    MimeTableIsSupported();
    var ext := ToLowerAscii(ExtName(filePath));
    if ext in MimeTable then MimeTable[ext] else Constants.OctetStream
  }

  /** The generic binary type comes back exactly for unknown extensions; every other answer is
      the table's entry and lies on the allow-list, so only unknown extensions are rejected. */
  lemma GetMimeTypeAgreesWithAllowList(filePath: string)
    ensures var m := GetMimeType(filePath);
      && (m == Constants.OctetStream <==> ToLowerAscii(ExtName(filePath)) !in MimeTable)
      && (m != Constants.OctetStream ==> m == MimeTable[ToLowerAscii(ExtName(filePath))])
      && (m in Constants.SupportedFileTypes <==> m != Constants.OctetStream)
  {
    MimeTableIsSupported();
    Constants.OctetStreamIsNotSupported();
  }

  /** Every MIME type the table yields is on the allow-list, so only unknown extensions are
      rejected downstream. */
  lemma MimeTableIsSupported()
    ensures forall ext :: ext in MimeTable ==> MimeTable[ext] in Constants.SupportedFileTypes
    ensures Constants.OctetStream !in MimeTable.Values
  {
  }

  /** The prompt sent with a staged file: the given one unless it is absent or empty. */
  function EffectivePrompt(prompt: Option<string>): string {
    if prompt.Some? && prompt.value != "" then prompt.value else DefaultPrompt
  }

  lemma {:induction false} LastDotAppend(b: string, e: string)
    requires '.' !in e
    ensures LastDot(b + "." + e) == Some(|b|)
    decreases |e|
  {
    if e == [] {
      assert b + "." + e == b + ".";
    } else {
      var s := b + "." + e;
      var init := e[..|e| - 1];
      assert e[|e| - 1] in e;
      assert s[..|s| - 1] == b + "." + init;
      assert '.' !in init by {
        forall i | 0 <= i < |init| ensures init[i] != '.' {
          assert init[i] == e[i];
        }
      }
      LastDotAppend(b, init);
    }
  }

  lemma Associates(a: string, b: string, c: string)
    ensures a + b + c == a + (b + c)
  {
  }

  /** The extension is read off the basename at its last '.'. */
  lemma ExtNameAt(p: string, b: string, k: nat)
    requires Basename(p) == b && LastDot(b) == Some(k) && 0 < k && b != ".."
    ensures ExtName(p) == b[k..]
  {
  }

  /** '.' followed by dot-free text, after a non-empty segment, puts the last dot after the segment. */
  lemma LastDotOfSuffix(seg: string, ext: string)
    requires |ext| >= 1 && ext[0] == '.' && '.' !in ext[1..]
    ensures LastDot(seg + ext) == Some(|seg|)
  {
    var e := ext[1..];
    assert ext == "." + e;
    LastDotAppend(seg, e);
    Associates(seg, ".", e);
  }

  /** A path whose last segment is a non-empty stem followed by `ext`, a '.' and then dot- and
      slash-free text, has `ext` as its extension. */
  lemma ExtNameOfSuffix(stem: string, ext: string)
    requires stem != [] && stem[|stem| - 1] != '/'
    requires |ext| >= 2 && ext[0] == '.' && '.' !in ext[1..] && '/' !in ext
    ensures ExtName(stem + ext) == ext
  {
    BasenameOfAppend(stem, ext);
    var seg := AfterLastSlash(stem);
    var b := seg + ext;
    LastDotOfSuffix(seg, ext);
    assert b != ".." by { assert |b| >= 3; }
    ExtNameAt(stem + ext, b, |seg|);
    assert b[|seg|..] == ext;
  }

  /** A path ending in such an extension whose lower-cased form is in the table has that
      table entry as its MIME type. */
  lemma MimeTypeOfKnownSuffix(stem: string, ext: string, key: string, value: string)
    requires stem != [] && stem[|stem| - 1] != '/'
    requires |ext| >= 2 && ext[0] == '.' && '.' !in ext[1..] && '/' !in ext
    requires ToLowerAscii(ext) == key && key in MimeTable && MimeTable[key] == value
    ensures GetMimeType(stem + ext) == value
  {
    ExtNameOfSuffix(stem, ext);
  }

  lemma PythonEntry()
    ensures ".py" in MimeTable && MimeTable[".py"] == "text/x-python"
  {
  }

  lemma LowerPy()
    ensures ToLowerAscii(".py") == ".py"
  {
    var key := ToLowerAscii(".py");
    assert key[0] == '.' && key[1] == 'p' && key[2] == 'y';
  }

  /** A Python source, whatever its directory and stem, resolves to text/x-python. */
  lemma PythonSourceResolves(stem: string)
    requires stem != [] && stem[|stem| - 1] != '/'
    ensures GetMimeType(stem + ".py") == "text/x-python"
  {
    LowerPy();
    PythonEntry();
    MimeTypeOfKnownSuffix(stem, ".py", ".py", "text/x-python");
  }

  lemma PdfEntry()
    ensures ".pdf" in MimeTable && MimeTable[".pdf"] == "application/pdf"
  {
  }

  lemma LowerPdf()
    ensures ToLowerAscii(".PDF") == ".pdf"
  {
    var key := ToLowerAscii(".PDF");
    assert LowerChar('P') == 'p' && LowerChar('D') == 'd' && LowerChar('F') == 'f';
    assert key[0] == '.' && key[1] == 'p' && key[2] == 'd' && key[3] == 'f';
  }

  /** An extension is matched whatever its letter case. */
  lemma UpperCaseExtensionResolves(stem: string)
    requires stem != [] && stem[|stem| - 1] != '/'
    ensures GetMimeType(stem + ".PDF") == "application/pdf"
  {
    LowerPdf();
    PdfEntry();
    MimeTypeOfKnownSuffix(stem, ".PDF", ".pdf", "application/pdf");
  }

  /** A name the basename yields has no extension when it has no '.'. */
  lemma NoExtensionIsGeneric(p: string)
    requires '.' !in Basename(p)
    ensures GetMimeType(p) == Constants.OctetStream
  {
    assert ToLowerAscii("") == "";
  }

  class FileHandlerService {
    var uploadDir: string

    constructor ()
      ensures uploadDir == DefaultUploadDir
    {
      uploadDir := DefaultUploadDir;
    }

    /** setUploadDir: every later staging path and clean-up uses the new directory. */
    method SetUploadDir(dir: string)
      modifies this
      ensures uploadDir == dir
    {
      uploadDir := dir;
    }

    /** The staged copy's path: `<uploadDir>/<timestamp>_<basename>`. */
    function StagingPath(filePath: string, now: nat): string
      reads this
    {
      Join(uploadDir, DecimalString(now) + "_" + Basename(filePath))
    }

    /** processFile. The allow-list is checked first; a supported file is read, copied to the
        staging directory and only then sent, with its contents, to the gateway. Read or copy
        errors are caught and reported as "Failed to process file". */
    function ProcessFile(filePath: string, mimeType: Option<string>, prompt: Option<string>,
                         now: nat, fs: Fs, cfg: Ai.Config, client: Client): (run: Run<FileResult>)
      reads this
      ensures run.result.fileName == Basename(filePath) && run.result.fileType == mimeType
    {
      var name := Basename(filePath);
      var failed := (t: Thrown) => FileResult(FailedText, name, mimeType, Some(ErrorText(t)));
      if mimeType.None? || mimeType.value !in Constants.SupportedFileTypes then
        Run(FileResult(Ai.UnsupportedPrefix + Interpolate(mimeType), name, mimeType, Some(Ai.UnsupportedError)), [])
      else
        match ReadFileSync(fs, filePath)
        case Threw(t) => Run(failed(t), [])
        case Done(contents) =>
          var target := StagingPath(filePath, now);
          match CopyFault(fs, filePath, target)
          case Some(t) => Run(failed(t), [ReadFrom(filePath)])
          case None =>
            var reply := Ai.ReadFile(cfg, EncodingOf(contents), mimeType.value, EffectivePrompt(prompt), client);
            Run(FileResult(reply.result.text, name, mimeType, reply.result.error),
                [ReadFrom(filePath), Copied(filePath, target, now)] + reply.trace)
    }

    /** A file whose MIME type is absent or not on the allow-list is rejected before anything
        is read, copied or sent; the message interpolates the type, "undefined" when absent. */
    lemma ProcessFileRejectsUnsupported(filePath: string, mimeType: Option<string>, prompt: Option<string>,
                                        now: nat, fs: Fs, cfg: Ai.Config, client: Client)
      requires mimeType.None? || mimeType.value !in Constants.SupportedFileTypes
      ensures ProcessFile(filePath, mimeType, prompt, now, fs, cfg, client) ==
        Run(FileResult(Ai.UnsupportedPrefix + Interpolate(mimeType), Basename(filePath), mimeType,
                       Some(Ai.UnsupportedError)), [])
    {
    }

    /** A supported file is read, then copied to its staging path, and only then sent with
        its contents and the prompt (or the default one) to the gateway; a missing file or a
        refused copy ends the operation before the gateway is called. */
    lemma ProcessFileSupported(filePath: string, mimeType: Option<string>, prompt: Option<string>,
                               now: nat, fs: Fs, cfg: Ai.Config, client: Client)
      requires mimeType.Some? && mimeType.value in Constants.SupportedFileTypes
      ensures var run := ProcessFile(filePath, mimeType, prompt, now, fs, cfg, client);
        var target := StagingPath(filePath, now);
        if filePath !in fs.files then
          run.trace == [] && run.result.text == FailedText
          && run.result.error == Some(ErrorText(NotFound("open", filePath)))
        else if target in fs.readOnly then
          run.trace == [ReadFrom(filePath)] && run.result.text == FailedText
          && run.result.error == Some(ErrorText(Denied("copyfile", target)))
        else
          && |run.trace| == 3
          && run.trace[..2] == [ReadFrom(filePath), Copied(filePath, target, now)]
          && run.trace[2].Called?
          && var req := run.trace[2].request;
          && req.contents == PartList([InlinePart(mimeType.value, EncodingOf(fs.files[filePath].data)),
                                       TextPart(EffectivePrompt(prompt))])
          && (client(req).Done? ==> run.result.text == client(req).value.text && run.result.error.None?)
          && (client(req).Threw? ==>
                run.result.text == Ai.ReadFileApology && run.result.error == Some(ErrorText(client(req).thrown)))
    {
    }

    /** processFiles as a specification: each path in turn, with its resolved MIME type and no
        prompt, each seeing the file system the earlier ones left. */
    function ProcessAll(files: seq<string>, clock: seq<nat>, fs: Fs, cfg: Ai.Config, client: Client): Run<seq<FileResult>>
      requires |clock| == |files|
      reads this
      decreases |files|
    {
      if files == [] then Run([], [])
      else
        var n := |files| - 1;
        var done := ProcessAll(files[..n], clock[..n], fs, cfg, client);
        var last := ProcessFile(files[n], Some(GetMimeType(files[n])), None, clock[n], ApplyAll(fs, done.trace), cfg, client);
        Run(done.result + [last.result], done.trace + last.trace)
    }

    /** One result per input path, in input order, each named after its path and typed by it. */
    lemma {:induction false} ProcessAllOnePerPath(files: seq<string>, clock: seq<nat>, fs: Fs, cfg: Ai.Config, client: Client)
      requires |clock| == |files|
      ensures var rs := ProcessAll(files, clock, fs, cfg, client).result;
        && |rs| == |files|
        && forall i :: 0 <= i < |files| ==>
             rs[i].fileName == Basename(files[i]) && rs[i].fileType == Some(GetMimeType(files[i]))
      decreases |files|
    {
      if files != [] {
        var n := |files| - 1;
        var done := ProcessAll(files[..n], clock[..n], fs, cfg, client);
        var last := ProcessFile(files[n], Some(GetMimeType(files[n])), None, clock[n], ApplyAll(fs, done.trace), cfg, client);
        ProcessAllOnePerPath(files[..n], clock[..n], fs, cfg, client);
        var rs := ProcessAll(files, clock, fs, cfg, client).result;
        assert rs == done.result + [last.result];
        forall i | 0 <= i < |files|
          ensures rs[i].fileName == Basename(files[i]) && rs[i].fileType == Some(GetMimeType(files[i]))
        {
          if i < n {
            assert rs[i] == done.result[i] && files[..n][i] == files[i];
          }
        }
      }
    }

    /** Processing one more path appends its result and its effects. */
    lemma ProcessAllStep(files: seq<string>, clock: seq<nat>, i: nat, fs: Fs, cfg: Ai.Config, client: Client)
      requires |clock| == |files| && i < |files|
      ensures var done := ProcessAll(files[..i], clock[..i], fs, cfg, client);
        var last := ProcessFile(files[i], Some(GetMimeType(files[i])), None, clock[i], ApplyAll(fs, done.trace), cfg, client);
        ProcessAll(files[..i + 1], clock[..i + 1], fs, cfg, client) == Run(done.result + [last.result], done.trace + last.trace)
    {
      assert files[..i + 1][..i] == files[..i] && clock[..i + 1][..i] == clock[..i];
    }

    /** processFiles: the loop pushes one result per path. `clock` holds the `Date.now()` value
        each iteration reads. */
    method ProcessFiles(files: seq<string>, clock: seq<nat>, fs: Fs, cfg: Ai.Config, client: Client)
      returns (results: seq<FileResult>, trace: seq<Effect>)
      requires |clock| == |files|
      ensures Run(results, trace) == ProcessAll(files, clock, fs, cfg, client)
      ensures |results| == |files|
      ensures forall i :: 0 <= i < |files| ==>
        results[i].fileName == Basename(files[i]) && results[i].fileType == Some(GetMimeType(files[i]))
    {
      results, trace := [], [];
      var disk := fs;
      var i := 0;
      while i < |files|
        invariant 0 <= i <= |files|
        invariant Run(results, trace) == ProcessAll(files[..i], clock[..i], fs, cfg, client)
        invariant disk == ApplyAll(fs, trace)
      {
        var mimeType := GetMimeType(files[i]);
        var r := ProcessFile(files[i], Some(mimeType), None, clock[i], disk, cfg, client);
        ProcessAllStep(files, clock, i, fs, cfg, client);
        ApplyAllAppend(fs, trace, r.trace);
        results := results + [r.result];
        trace := trace + r.trace;
        disk := ApplyAll(disk, r.trace);
        i := i + 1;
      }
      assert files[..i] == files && clock[..i] == clock;
      ProcessAllOnePerPath(files, clock, fs, cfg, client);
    }

    // ------------------------------------------------------------ clean-up

    /** The clean-up loop as a specification: entries are visited in listing order; an entry
        older than `maxAge` is unlinked; a failing stat or unlink ends the loop (the whole loop
        sits in one try block). A subdirectory passes the stat: a fresh one is passed over,
        and unlinking an expired one fails. */
    function Sweep(fs: Fs, names: seq<string>, now: int, maxAge: int): Fs
      reads this
      decreases |names|
    {
      if names == [] then fs
      else
        var p := Join(uploadDir, names[0]);
        if p in fs.files then
          if now - fs.files[p].mtime > maxAge then
            if p in fs.readOnly then fs else Sweep(fs.(files := fs.files - {p}), names[1..], now, maxAge)
          else Sweep(fs, names[1..], now, maxAge)
        else if p in fs.dirs && now - fs.dirs[p] <= maxAge then Sweep(fs, names[1..], now, maxAge)
        else fs
    }

    /** A path the sweep goes past: a file, or a subdirectory no older than `maxAge`. */
    predicate FileOrFreshDir(fs: Fs, p: string, now: int, maxAge: int) {
      p in fs.files || (p in fs.dirs && now - fs.dirs[p] <= maxAge)
    }

    /** The staged paths of `names` that are older than `maxAge`. */
    function ExpiredPaths(fs: Fs, names: seq<string>, now: int, maxAge: int): set<string>
      reads this
    {
      set n | n in names && Join(uploadDir, n) in fs.files && now - fs.files[Join(uploadDir, n)].mtime > maxAge
        :: Join(uploadDir, n)
    }

    /** The sweep only ever deletes staged files that are older than `maxAge`, and keeps every
        other file as it was. */
    lemma {:induction false} SweepDeletesOnlyExpired(fs: Fs, names: seq<string>, now: int, maxAge: int)
      ensures var out := Sweep(fs, names, now, maxAge);
        && out.readOnly == fs.readOnly
        && out.dirs == fs.dirs
        && out.files.Keys <= fs.files.Keys
        && (forall p :: p in out.files ==> out.files[p] == fs.files[p])
        && fs.files.Keys - out.files.Keys <= ExpiredPaths(fs, names, now, maxAge)
      decreases |names|
    {
      if names != [] {
        var p := Join(uploadDir, names[0]);
        if FileOrFreshDir(fs, p, now, maxAge) {
          var fs1 := if p in fs.files && now - fs.files[p].mtime > maxAge && p !in fs.readOnly then fs.(files := fs.files - {p}) else fs;
          SweepDeletesOnlyExpired(fs1, names[1..], now, maxAge);
          forall q | q in ExpiredPaths(fs1, names[1..], now, maxAge)
            ensures q in ExpiredPaths(fs, names, now, maxAge)
          {
            var n :| n in names[1..] && Join(uploadDir, n) == q && q in fs1.files && now - fs1.files[q].mtime > maxAge;
            assert n in names;
          }
        }
      }
    }

    /** When every listed entry is a file or a fresh subdirectory and no expired file is
        protected, the sweep deletes exactly the expired files and nothing else. */
    lemma {:induction false} SweepDeletesExactlyExpired(fs: Fs, names: seq<string>, now: int, maxAge: int)
      requires Constants.Distinct(names)
      requires forall n :: n in names ==> FileOrFreshDir(fs, Join(uploadDir, n), now, maxAge)
      requires forall n :: n in names && Join(uploadDir, n) in fs.files && now - fs.files[Join(uploadDir, n)].mtime > maxAge ==>
        Join(uploadDir, n) !in fs.readOnly
      ensures Sweep(fs, names, now, maxAge).files == fs.files - ExpiredPaths(fs, names, now, maxAge)
      decreases |names|
    {
      if names != [] {
        var p := Join(uploadDir, names[0]);
        var expired := p in fs.files && now - fs.files[p].mtime > maxAge;
        var fs1 := if expired then fs.(files := fs.files - {p}) else fs;
        var rest := names[1..];
        forall n | n in rest ensures FileOrFreshDir(fs1, Join(uploadDir, n), now, maxAge) && Join(uploadDir, n) != p {
          var j :| 0 <= j < |rest| && rest[j] == n;
          assert names[j + 1] == n;
          JoinInjective(uploadDir, n, names[0]);
        }
        assert Constants.Distinct(rest) by {
          forall i, j | 0 <= i < j < |rest| ensures rest[i] != rest[j] {
            assert rest[i] == names[i + 1] && rest[j] == names[j + 1];
          }
        }
        SweepDeletesExactlyExpired(fs1, rest, now, maxAge);
        var e1 := ExpiredPaths(fs1, rest, now, maxAge);
        var e := ExpiredPaths(fs, names, now, maxAge);
        assert e == e1 + (if expired then {p} else {}) by {
          forall q | q in e ensures q in e1 + (if expired then {p} else {}) {
            var n :| n in names && Join(uploadDir, n) == q && q in fs.files && now - fs.files[q].mtime > maxAge;
            if n != names[0] {
              var j :| 0 <= j < |names| && names[j] == n;
              assert n in rest by { assert j > 0 && rest[j - 1] == n; }
            }
          }
        }
      }
    }

    /** cleanupOldFiles: `listing` is what `readdirSync(uploadDir)` yields or throws, and `now`
        the clock reading; returns the file system after the sweep. */
    method CleanupOldFiles(fs: Fs, listing: Io<seq<string>>, now: int, maxAge: int) returns (swept: Fs)
      ensures listing.Threw? ==> swept == fs
      ensures listing.Done? ==> swept == Sweep(fs, listing.value, now, maxAge)
    {
      swept := fs;
      if listing.Threw? {
        return;
      }
      var names := listing.value;
      var i := 0;
      while i < |names|
        invariant 0 <= i <= |names|
        invariant Sweep(fs, names, now, maxAge) == Sweep(swept, names[i..], now, maxAge)
      {
        var path := Join(uploadDir, names[i]);
        assert names[i..][1..] == names[i + 1..];
        if path !in swept.files {
          if path in swept.dirs && now - swept.dirs[path] <= maxAge {
            i := i + 1;
            continue;
          }
          return;
        }
        if now - swept.files[path].mtime > maxAge {
          if path in swept.readOnly {
            return;
          }
          swept := swept.(files := swept.files - {path});
        }
        i := i + 1;
      }
    }
  }

  /** Staged copies made at different times never share a name. */
  lemma StagingNamesAreDistinct(dir: string, filePath: string, t1: nat, t2: nat)
    requires t1 != t2
    ensures Join(dir, DecimalString(t1) + "_" + Basename(filePath)) != Join(dir, DecimalString(t2) + "_" + Basename(filePath))
  {
    var a, b := DecimalString(t1), DecimalString(t2);
    var suffix := "_" + Basename(filePath);
    JoinInjective(dir, a + suffix, b + suffix);
    Associates(a, "_", Basename(filePath));
    Associates(b, "_", Basename(filePath));
    if a + suffix == b + suffix {
      assert |a| == |b|;
      assert a == (a + suffix)[..|a|] == (b + suffix)[..|b|] == b;
      DecimalStringInjective(t1, t2);
    }
  }
}
