/** The filesystem the capture adapters touch, the `path` helpers they use, and the trace
    of externally visible effects each operation performs, in order. */
module Effects {
  import opened Wrappers
  import opened Types
  import opened Backend

  datatype FileEntry = FileEntry(data: Blob, mtime: int)

  /** A file system: the files it holds, the subdirectories a directory listing can meet
      (with their modification times), and the paths where writing, copying or unlinking
      fails with a permission error. The directories the services write into always exist. */
  datatype Fs = Fs(files: map<string, FileEntry>, dirs: map<string, int>, readOnly: set<string>)

  /** One externally visible step of an operation. */
  datatype Effect =
    | ReadFrom(path: string)
    | Wrote(path: string, data: Blob, at: int)
    | Copied(source: string, target: string, at: int)
    | Deleted(path: string)
    | Called(request: Request)
    | Resized(bounds: Bounds)

  /** The result of an operation together with the effects it performed. */
  datatype Run<T> = Run(result: T, trace: seq<Effect>)

  /** How an effect changes the file system (effects that do not touch it leave it alone). */
  function Apply(fs: Fs, e: Effect): Fs {
    match e
    case Wrote(p, d, t) => fs.(files := fs.files[p := FileEntry(d, t)])
    case Copied(s, p, t) =>
      if s in fs.files then fs.(files := fs.files[p := FileEntry(fs.files[s].data, t)]) else fs
    case Deleted(p) => fs.(files := fs.files - {p})
    case _ => fs
  }

  function ApplyAll(fs: Fs, trace: seq<Effect>): Fs
    decreases |trace|
  {
    if trace == [] then fs else ApplyAll(Apply(fs, trace[0]), trace[1..])
  }

  /** Applying a trace in two parts is applying it whole. */
  lemma {:induction false} ApplyAllAppend(fs: Fs, t1: seq<Effect>, t2: seq<Effect>)
    ensures ApplyAll(fs, t1 + t2) == ApplyAll(ApplyAll(fs, t1), t2)
    decreases |t1|
  {
    if t1 != [] {
      assert (t1 + t2)[0] == t1[0] && (t1 + t2)[1..] == t1[1..] + t2;
      ApplyAllAppend(Apply(fs, t1[0]), t1[1..], t2);
    } else {
      assert t1 + t2 == t2;
    }
  }

  /** The number of backend calls in a trace. */
  function Calls(trace: seq<Effect>): nat {
    if trace == [] then 0 else (if trace[0].Called? then 1 else 0) + Calls(trace[1..])
  }

  /** A one-effect trace holds a call exactly when its effect is one. */
  lemma CallsOfOne(t: seq<Effect>)
    requires |t| == 1
    ensures Calls(t) == if t[0].Called? then 1 else 0
  {
    assert t[1..] == [];
  }

  /** Node's error for a missing path (`ENOENT`) and for a refused write (`EACCES`). */
  function NotFound(syscall: string, path: string): Thrown {
    ErrorValue("ENOENT: no such file or directory, " + syscall + " '" + path + "'")
  }

  function Denied(syscall: string, path: string): Thrown {
    ErrorValue("EACCES: permission denied, " + syscall + " '" + path + "'")
  }

  /** `fs.readFileSync(path)`. */
  function ReadFileSync(fs: Fs, path: string): Io<Blob> {
    if path in fs.files then Done(fs.files[path].data) else Threw(NotFound("open", path))
  }

  /** What `fs.writeFileSync(path, ...)` throws, if anything. */
  function WriteFault(fs: Fs, path: string): Option<Thrown> {
    if path in fs.readOnly then Some(Denied("open", path)) else None
  }

  /** What `fs.copyFileSync(source, target)` throws, if anything. */
  function CopyFault(fs: Fs, source: string, target: string): Option<Thrown> {
    if source !in fs.files then Some(NotFound("copyfile", source))
    else if target in fs.readOnly then Some(Denied("copyfile", target))
    else None
  }

  /** `path.join(dir, name)` for a plain file name; segment normalisation is not modelled. */
  function Join(dir: string, name: string): string {
    if dir == "" then name
    else if dir[|dir| - 1] == '/' then dir + name
    else dir + "/" + name
  }

  /** Joining a fixed directory is injective in the file name. */
  lemma JoinInjective(dir: string, a: string, b: string)
    ensures Join(dir, a) == Join(dir, b) ==> a == b
  {
    var p := if dir == "" then "" else if dir[|dir| - 1] == '/' then dir else dir + "/";
    assert Join(dir, a) == p + a + "" && Join(dir, b) == p + b + "";
    if Join(dir, a) == Join(dir, b) {
      StripAffixes(p, a, b, "");
    }
  }

  /** `p` without its trailing slashes. */
  function StripTrailingSlashes(p: string): (r: string)
    ensures |r| <= |p| && r == p[..|r|]
    ensures r == [] || r[|r| - 1] != '/'
  {
    if p != [] && p[|p| - 1] == '/' then StripTrailingSlashes(p[..|p| - 1]) else p
  }

  /** The characters of `p` after its last slash. */
  function AfterLastSlash(p: string): (r: string)
    ensures |r| <= |p| && r == p[|p| - |r|..]
    ensures '/' !in r
  {
    if p == [] || p[|p| - 1] == '/' then [] else AfterLastSlash(p[..|p| - 1]) + [p[|p| - 1]]
  }

  /** `path.basename(p)` (POSIX): the last segment, trailing slashes ignored. */
  function Basename(p: string): (r: string)
    ensures '/' !in r
  {
    AfterLastSlash(StripTrailingSlashes(p))
  }

  lemma SnocAssociates(a: string, b: string, c: char)
    ensures (a + b) + [c] == a + (b + [c])
  {
  }

  /** A character other than a slash extends the last segment. */
  lemma AfterLastSlashSnoc(p: string, c: char)
    requires c != '/'
    ensures AfterLastSlash(p + [c]) == AfterLastSlash(p) + [c]
  {
    assert (p + [c])[..|p|] == p;
  }

  /** Appending slash-free text to a path extends its last segment by that text. */
  lemma {:induction false} AfterLastSlashAppend(p: string, s: string)
    requires '/' !in s
    ensures AfterLastSlash(p + s) == AfterLastSlash(p) + s
    decreases |s|
  {
    if s == [] {
      assert p + s == p;
    } else {
      var init, last := s[..|s| - 1], s[|s| - 1];
      assert s == init + [last];
      SnocAssociates(p, init, last);
      AfterLastSlashAppend(p, init);
      AfterLastSlashSnoc(p + init, last);
      SnocAssociates(AfterLastSlash(p), init, last);
    }
  }

  /** Appending slash-free text to a path that does not end in a slash extends its basename. */
  lemma BasenameOfAppend(p: string, s: string)
    requires p != [] && p[|p| - 1] != '/'
    requires s != [] && '/' !in s
    ensures Basename(p + s) == AfterLastSlash(p) + s
    ensures AfterLastSlash(p) != []
  {
    var q := p + s;
    assert q[|q| - 1] == s[|s| - 1] by { assert s[|s| - 1] in s; }
    assert StripTrailingSlashes(q) == q;
    AfterLastSlashAppend(p, s);
  }

  /** A path that ends in a slash-free name has that name as its basename. */
  lemma BasenameOfJoin(dir: string, name: string)
    requires name != [] && '/' !in name
    ensures Basename(Join(dir, name)) == name
  {
    var prefix := if dir == "" then "" else if dir[|dir| - 1] == '/' then dir else dir + "/";
    var p := Join(dir, name);
    assert p == prefix + name;
    assert name[|name| - 1] in name;
    assert p[|p| - 1] == name[|name| - 1];
    assert StripTrailingSlashes(p) == p;
    assert AfterLastSlash(prefix) == [];
    AfterLastSlashAppend(prefix, name);
  }
}
