/**
 * The part of Node's synchronous file API the builder uses, on a disk that
 * maps file paths to contents and holds a set of directory paths. Paths are
 * compared as strings. A call that throws yields `Err` with the text the
 * thrown error prints as.
 */
module FileSystem {
  import opened Wrappers
  import opened JsText

  datatype Disk = Disk(files: map<string, string>, dirs: set<string>)

  /** `fs.existsSync`. */
  predicate Exists(d: Disk, p: string)
  {
    p in d.files || p in d.dirs
  }

  /** No path is both a file and a directory. */
  predicate Valid(d: Disk)
  {
    forall p :: p in d.files ==> p !in d.dirs
  }

  const NoEntryText := "Error: ENOENT: no such file or directory, "
  const ExistsText := "Error: EEXIST: file already exists, "

  /** The message of a missing-path error raised by system call `call`. */
  function NoEntry(call: string, p: string): string
  {
    NoEntryText + call + " '" + p + "'"
  }

  /** `fs.readFileSync`. */
  function ReadFile(d: Disk, p: string): (r: Result<string>)
    ensures r.Ok? <==> p in d.files
    ensures r.Ok? ==> r.value == d.files[p]
    ensures r.Err? ==> r.error == NoEntry("open", p)
  {
    if p in d.files then Ok(d.files[p]) else Err(NoEntry("open", p))
  }

  /** What a file holds, reading a missing file as empty. */
  function ContentOr(d: Disk, p: string): string
  {
    if p in d.files then d.files[p] else ""
  }

  /** `fs.unlinkSync`: only an existing file can be removed. */
  function Unlink(d: Disk, p: string): (r: Result<Disk>)
    ensures r.Ok? <==> p in d.files
    ensures r.Err? ==> r.error == NoEntry("unlink", p)
  {
    if p in d.files then Ok(d.(files := d.files - {p})) else Err(NoEntry("unlink", p))
  }

  /** `fs.copyFileSync`: the destination is created or overwritten with the source's contents. */
  function CopyFile(d: Disk, src: string, dst: string): (r: Result<Disk>)
    ensures r.Ok? <==> src in d.files
    ensures r.Err? ==> r.error == NoEntry("copyfile", src) + " -> '" + dst + "'"
  {
    if src in d.files then Ok(d.(files := d.files[dst := d.files[src]]))
    else Err(NoEntry("copyfile", src) + " -> '" + dst + "'")
  }

  /** `fs.appendFileSync`: a missing file is created. */
  function AppendFile(d: Disk, p: string, data: string): Disk
  {
    d.(files := d.files[p := ContentOr(d, p) + data])
  }

  /** Opening a write stream: the file is created, or emptied when it exists. */
  function CreateFile(d: Disk, p: string): Disk
  {
    d.(files := d.files[p := ""])
  }

  /** `q` is `p` or lies below it. */
  predicate Under(q: string, p: string)
  {
    q == p || StartsWith(q, p + "/")
  }

  /** `fs.rmSync(p, { recursive: true })`: `p` and everything below it go; a missing `p` throws. */
  function RemoveTree(d: Disk, p: string): (r: Result<Disk>)
    ensures r.Ok? <==> Exists(d, p)
    ensures r.Err? ==> r.error == NoEntry("lstat", p)
  {
    if !Exists(d, p) then Err(NoEntry("lstat", p))
    else Ok(Disk(map q | q in d.files && !Under(q, p) :: d.files[q], set q | q in d.dirs && !Under(q, p)))
  }

  /** `fs.mkdirSync` without `recursive`: an existing path throws. */
  function MakeDirectory(d: Disk, p: string): (r: Result<Disk>)
    ensures r.Ok? <==> !Exists(d, p)
    ensures r.Err? ==> r.error == ExistsText + "mkdir '" + p + "'"
  {
    if Exists(d, p) then Err(ExistsText + "mkdir '" + p + "'")
    else Ok(d.(dirs := d.dirs + {p}))
  }

  // ---------------------------------------------------------------------------
  // what each call does to later reads
  // ---------------------------------------------------------------------------

  /** Appending extends the one file by exactly the data and leaves every other file as it was. */
  lemma ReadAfterAppend(d: Disk, p: string, data: string, q: string)
    ensures ReadFile(AppendFile(d, p, data), q) == if q == p then Ok(ContentOr(d, p) + data) else ReadFile(d, q)
  {
  }

  /** After a copy the destination reads as the source did; no other file changes. */
  lemma ReadAfterCopy(d: Disk, src: string, dst: string, q: string)
    requires src in d.files
    ensures ReadFile(CopyFile(d, src, dst).value, q) == if q == dst then ReadFile(d, src) else ReadFile(d, q)
  {
  }

  /** After an unlink the file is gone and no other file changes. */
  lemma ReadAfterUnlink(d: Disk, p: string, q: string)
    requires p in d.files
    ensures ReadFile(Unlink(d, p).value, q) == if q == p then Err(NoEntry("open", p)) else ReadFile(d, q)
  {
  }

  /** An emptied file reads as empty; no other file changes. */
  lemma ReadAfterCreate(d: Disk, p: string, q: string)
    ensures ReadFile(CreateFile(d, p), q) == if q == p then Ok("") else ReadFile(d, q)
  {
  }

  /** Removing a tree leaves nothing at or below its root and everything else in place. */
  lemma RemoveTreeClears(d: Disk, p: string, q: string)
    requires Exists(d, p)
    ensures Under(q, p) ==> !Exists(RemoveTree(d, p).value, q)
    ensures !Under(q, p) ==> Exists(RemoveTree(d, p).value, q) == Exists(d, q)
    ensures !Under(q, p) ==> ReadFile(RemoveTree(d, p).value, q) == ReadFile(d, q)
  {
  }

  /** A made directory exists, and reads of files are unaffected. */
  lemma MakeDirectoryExists(d: Disk, p: string, q: string)
    requires !Exists(d, p)
    ensures Exists(MakeDirectory(d, p).value, p)
    ensures ReadFile(MakeDirectory(d, p).value, q) == ReadFile(d, q)
  {
  }

  /** Every call keeps files and directories apart. */
  lemma CallsKeepValid(d: Disk, p: string, q: string, data: string)
    requires Valid(d) && p !in d.dirs && q !in d.dirs
    ensures Valid(AppendFile(d, p, data)) && Valid(CreateFile(d, p))
    ensures p in d.files ==> Valid(Unlink(d, p).value)
    ensures q in d.files ==> Valid(CopyFile(d, q, p).value)
    ensures Exists(d, p) ==> Valid(RemoveTree(d, p).value)
    ensures !Exists(d, p) ==> Valid(MakeDirectory(d, p).value)
  {
  }

  // ---------------------------------------------------------------------------
  // the process-wide file system
  // ---------------------------------------------------------------------------

  /** The one file system every builder of a process works on. */
  class FileStore {
    var disk: Disk

    constructor(d: Disk)
      ensures disk == d
    {
      disk := d;
    }

    method PathExists(p: string) returns (r: bool)
      ensures r == Exists(disk, p)
    {
      r := p in disk.files || p in disk.dirs;
    }

    method Read(p: string) returns (r: Result<string>)
      ensures r == ReadFile(disk, p)
    {
      r := ReadFile(disk, p);
    }

    /** A call that throws leaves the disk as it was. */
    method Remove(p: string) returns (r: Result<()>)
      modifies this
      ensures Unlink(old(disk), p).Ok? ==> r == Ok(()) && disk == Unlink(old(disk), p).value
      ensures Unlink(old(disk), p).Err? ==> r == Err(Unlink(old(disk), p).error) && disk == old(disk)
    {
      var u := Unlink(disk, p);
      if u.Ok? {
        disk := u.value;
        r := Ok(());
      } else {
        r := Err(u.error);
      }
    }

    method Copy(src: string, dst: string) returns (r: Result<()>)
      modifies this
      ensures CopyFile(old(disk), src, dst).Ok? ==> r == Ok(()) && disk == CopyFile(old(disk), src, dst).value
      ensures CopyFile(old(disk), src, dst).Err? ==> r == Err(CopyFile(old(disk), src, dst).error) && disk == old(disk)
    {
      var c := CopyFile(disk, src, dst);
      if c.Ok? {
        disk := c.value;
        r := Ok(());
      } else {
        r := Err(c.error);
      }
    }

    method Append(p: string, data: string)
      modifies this
      ensures disk == AppendFile(old(disk), p, data)
    {
      disk := AppendFile(disk, p, data);
    }

    method Create(p: string)
      modifies this
      ensures disk == CreateFile(old(disk), p)
    {
      disk := CreateFile(disk, p);
    }

    method RemoveAll(p: string) returns (r: Result<()>)
      modifies this
      ensures RemoveTree(old(disk), p).Ok? ==> r == Ok(()) && disk == RemoveTree(old(disk), p).value
      ensures RemoveTree(old(disk), p).Err? ==> r == Err(RemoveTree(old(disk), p).error) && disk == old(disk)
    {
      var t := RemoveTree(disk, p);
      if t.Ok? {
        disk := t.value;
        r := Ok(());
      } else {
        r := Err(t.error);
      }
    }

    method MakeDir(p: string) returns (r: Result<()>)
      modifies this
      ensures MakeDirectory(old(disk), p).Ok? ==> r == Ok(()) && disk == MakeDirectory(old(disk), p).value
      ensures MakeDirectory(old(disk), p).Err? ==> r == Err(MakeDirectory(old(disk), p).error) && disk == old(disk)
    {
      var m := MakeDirectory(disk, p);
      if m.Ok? {
        disk := m.value;
        r := Ok(());
      } else {
        r := Err(m.error);
      }
    }
  }
}
