/** The state file: `State.save` writes a temporary file, syncs it, renames it over the
    old one and syncs the directory. The disk keeps apart what the processes see from
    what a crash may leave behind. */
module StateFile {
  import opened Options

  datatype Name = Path | Tmp

  type Directory = map<Name, nat>

  /** What is in a file; a crash may replace the text of a file that is not synced by
      anything at all. */
  datatype File = File(text: string, synced: bool)

  /** `dirs` lists the versions of the directory that a crash may leave, oldest first;
      the processes see the last one. Numbers from `next` on are free. */
  datatype Disk = Disk(files: map<nat, File>, dirs: seq<Directory>, next: nat)

  function Now(d: Disk): Directory {
    if d.dirs == [] then map[] else d.dirs[|d.dirs| - 1]
  }

  datatype Op = OpenTmp | Write(chunk: string) | Fsync | Replace | SyncDir

  function Do(d: Disk, op: Op): Disk {
    var dir := Now(d);
    match op
    case OpenTmp =>
      if Tmp in dir then d.(files := d.files[dir[Tmp] := File("", false)])
      else Disk(d.files[d.next := File("", false)], d.dirs + [dir[Tmp := d.next]], d.next + 1)
    case Write(chunk) =>
      if Tmp in dir && dir[Tmp] in d.files
      then d.(files := d.files[dir[Tmp] := File(d.files[dir[Tmp]].text + chunk, false)]) else d
    case Fsync =>
      if Tmp in dir && dir[Tmp] in d.files
      then d.(files := d.files[dir[Tmp] := d.files[dir[Tmp]].(synced := true)]) else d
    case Replace =>
      if Tmp in dir then d.(dirs := d.dirs + [(dir - {Tmp})[Path := dir[Tmp]]]) else d
    case SyncDir =>
      d.(dirs := [dir])
  }

  function DoAll(d: Disk, ops: seq<Op>): Disk
    decreases |ops|
  {
    if ops == [] then d else DoAll(Do(d, ops[0]), ops[1..])
  }

  lemma DoFirst(d: Disk, op: Op, rest: seq<Op>)
    ensures DoAll(d, [op] + rest) == DoAll(Do(d, op), rest)
  {
    assert ([op] + rest)[1..] == rest;
  }

  lemma DoThree(d: Disk, a: Op, b: Op, c: Op)
    ensures DoAll(d, [a, b]) == Do(Do(d, a), b)
    ensures DoAll(d, [a, b, c]) == Do(Do(Do(d, a), b), c)
  {
    assert [a, b] == [a] + [b] && [a, b, c] == [a] + [b, c] && [b, c] == [b] + [c];
    assert [b] == [b] + [] && [c] == [c] + [];
    DoFirst(d, a, [b]);
    DoFirst(Do(d, a), b, []);
    DoFirst(d, a, [b, c]);
    DoFirst(Do(d, a), b, [c]);
    DoFirst(Do(Do(d, a), b), c, []);
  }

  /** What the disk may be after a crash and a restart: any version of the directory,
      and arbitrary text in every file that was not synced. */
  ghost predicate MayBecome(d: Disk, d': Disk) {
    && |d'.dirs| == 1 && d'.dirs[0] in d.dirs
    && d'.files.Keys == d.files.Keys && d'.next == d.next
    && forall n | n in d.files && d.files[n].synced :: d'.files[n] == d.files[n]
  }

  /** What `State.__init__` finds: the text of the state file, if there is one. */
  function Reload(d: Disk): Option<string> {
    if Path in Now(d) && Now(d)[Path] in d.files then Some(d.files[Now(d)[Path]].text) else None
  }

  /** Version `v` of the directory names a complete state file with this text. */
  ghost predicate Names(d: Disk, v: Directory, text: Option<string>) {
    if text.None? then Path !in v
    else Path in v && v[Path] in d.files && d.files[v[Path]] == File(text.value, true)
  }

  ghost predicate Numbered(d: Disk) {
    && (forall n | n in d.files :: n < d.next)
    && (forall v, x | v in d.dirs && x in v :: v[x] in d.files)
  }

  /** No process writes: there is one version of the directory, and the state file in
      it is complete and safe. */
  ghost predicate Stored(d: Disk, text: Option<string>) {
    && |d.dirs| == 1 && Numbered(d) && Names(d, d.dirs[0], text)
    && (Path in d.dirs[0] && Tmp in d.dirs[0] ==> d.dirs[0][Path] != d.dirs[0][Tmp])
  }

  ghost predicate AtPeace(d: Disk) {
    exists text :: Stored(d, text)
  }

  /** While the temporary file is written: every version still names the old text, and
      none names the file being written as the state file. */
  ghost predicate Writing(d: Disk, old_: Option<string>, sofar: string) {
    && d.dirs != [] && Numbered(d)
    && (forall v | v in d.dirs :: Names(d, v, old_))
    && (forall v, u | v in d.dirs && u in d.dirs && Path in v && Tmp in u :: v[Path] != u[Tmp])
    && Tmp in Now(d) && d.files[Now(d)[Tmp]].text == sofar
  }

  function Concat(chunks: seq<string>): string {
    if chunks == [] then "" else chunks[0] + Concat(chunks[1..])
  }

  function Writes(chunks: seq<string>): (ops: seq<Op>)
    ensures |ops| == |chunks|
  {
    if chunks == [] then [] else [Write(chunks[0])] + Writes(chunks[1..])
  }

  function Rest(chunks: seq<string>): (ops: seq<Op>)
    ensures |ops| == |chunks| + 3
  {
    Writes(chunks) + [Fsync, Replace, SyncDir]
  }

  /** `State.save`, with the text written in any number of pieces. */
  function SaveOps(chunks: seq<string>): (ops: seq<Op>)
    ensures |ops| == |chunks| + 4
  {
    [OpenTmp] + Rest(chunks)
  }

  lemma OpenStarts(d: Disk, old_: Option<string>)
    requires Stored(d, old_)
    ensures Writing(Do(d, OpenTmp), old_, "")
  {
    var d' := Do(d, OpenTmp);
    forall v | v in d'.dirs ensures v == d.dirs[0] || v == Now(d') {}
  }

  lemma WriteContinues(d: Disk, old_: Option<string>, sofar: string, chunk: string)
    requires Writing(d, old_, sofar)
    ensures Writing(Do(d, Write(chunk)), old_, sofar + chunk)
  {
  }

  lemma WritingSurvives(d: Disk, old_: Option<string>, sofar: string, d': Disk)
    requires Writing(d, old_, sofar) && MayBecome(d, d')
    ensures Stored(d', old_)
  {
    assert d'.dirs[0] in d.dirs;
  }

  ghost predicate Written(d: Disk, old_: Option<string>, text: string) {
    Writing(d, old_, text) && d.files[Now(d)[Tmp]].synced
  }

  lemma FsyncCompletes(d: Disk, old_: Option<string>, text: string)
    requires Writing(d, old_, text)
    ensures Written(Do(d, Fsync), old_, text)
  {
  }

  lemma ReplaceIsAtomic(d: Disk, old_: Option<string>, text: string, d': Disk)
    requires Written(d, old_, text) && MayBecome(Do(d, Replace), d')
    ensures Stored(d', old_) || Stored(d', Some(text))
  {
    assert Do(d, Replace).dirs == d.dirs + [Now(Do(d, Replace))];
  }

  lemma SyncDirSettles(d: Disk, old_: Option<string>, text: string)
    requires Written(d, old_, text)
    ensures Stored(Do(Do(d, Replace), SyncDir), Some(text))
  {
  }

  lemma StoredSurvives(d: Disk, text: Option<string>, d': Disk)
    requires Stored(d, text) && MayBecome(d, d')
    ensures Stored(d', text)
  {
  }

  /** The last three operations. */
  lemma TailIsAtomic(d: Disk, old_: Option<string>, text: string, n: nat, d': Disk)
    requires Writing(d, old_, text) && n <= 3
    requires MayBecome(DoAll(d, [Fsync, Replace, SyncDir][..n]), d')
    ensures Stored(d', old_) || Stored(d', Some(text))
    ensures n == 3 ==> Stored(d', Some(text)) && Stored(DoAll(d, [Fsync, Replace, SyncDir]), Some(text))
  {
    var ops := [Fsync, Replace, SyncDir];
    var d1 := Do(d, Fsync);
    assert ops[..0] == [] && ops[..1] == [Fsync] && ops[..2] == [Fsync, Replace] && ops[..3] == ops;
    DoFirst(d, Fsync, []);
    DoThree(d, Fsync, Replace, SyncDir);
    FsyncCompletes(d, old_, text);
    if n <= 1 {
      WritingSurvives(if n == 0 then d else d1, old_, text, d');
    } else if n == 2 {
      ReplaceIsAtomic(d1, old_, text, d');
    } else {
      SyncDirSettles(d1, old_, text);
      StoredSurvives(Do(Do(d1, Replace), SyncDir), Some(text), d');
    }
  }

  lemma {:induction false} RestIsAtomic(d: Disk, old_: Option<string>, sofar: string, chunks: seq<string>,
                                         n: nat, d': Disk)
    requires Writing(d, old_, sofar) && n <= |Rest(chunks)|
    requires MayBecome(DoAll(d, Rest(chunks)[..n]), d')
    ensures Stored(d', old_) || Stored(d', Some(sofar + Concat(chunks)))
    ensures n == |Rest(chunks)| ==>
              Stored(d', Some(sofar + Concat(chunks))) && Stored(DoAll(d, Rest(chunks)), Some(sofar + Concat(chunks)))
    decreases |chunks|
  {
    var ops := Rest(chunks);
    if chunks == [] {
      assert ops == [Fsync, Replace, SyncDir] && sofar + Concat(chunks) == sofar;
      TailIsAtomic(d, old_, sofar, n, d');
      assert ops[..3] == ops;
    } else if n == 0 {
      assert ops[..0] == [];
      WritingSurvives(d, old_, sofar, d');
    } else {
      WriteContinues(d, old_, sofar, chunks[0]);
      assert ops[0] == Write(chunks[0]) && ops[1..] == Rest(chunks[1..]);
      assert ops[..n][0] == ops[0] && ops[..n][1..] == Rest(chunks[1..])[..n - 1];
      RestIsAtomic(Do(d, ops[0]), old_, sofar + chunks[0], chunks[1..], n - 1, d');
      assert sofar + Concat(chunks) == (sofar + chunks[0]) + Concat(chunks[1..]);
      assert Rest(chunks[1..])[..|Rest(chunks[1..])|] == Rest(chunks[1..]);
    }
  }

  /** A crash at any point of `save` leaves the complete old or the complete new state
      file, and after `save` has returned always the new one. What is left is again a
      disk on which `save` works, so this holds for crash after crash. */
  lemma SaveIsAtomic(d: Disk, old_: Option<string>, chunks: seq<string>, n: nat, d': Disk)
    requires Stored(d, old_) && n <= |SaveOps(chunks)|
    requires MayBecome(DoAll(d, SaveOps(chunks)[..n]), d')
    ensures || (Stored(d', old_) && Reload(d') == old_)
            || (Stored(d', Some(Concat(chunks))) && Reload(d') == Some(Concat(chunks)))
    ensures n == |SaveOps(chunks)| ==> Stored(d', Some(Concat(chunks)))
  {
    var ops := SaveOps(chunks);
    if n == 0 {
      assert ops[..0] == [];
      assert d'.dirs[0] in d.dirs;
    } else {
      OpenStarts(d, old_);
      assert ops[..n][0] == OpenTmp && ops[..n][1..] == Rest(chunks)[..n - 1];
      RestIsAtomic(Do(d, OpenTmp), old_, "", chunks, n - 1, d');
      assert "" + Concat(chunks) == Concat(chunks);
    }
  }

  lemma SaveStores(d: Disk, old_: Option<string>, chunks: seq<string>)
    requires Stored(d, old_)
    ensures Stored(DoAll(d, SaveOps(chunks)), Some(Concat(chunks)))
  {
    var ops := SaveOps(chunks);
    var d1 := DoAll(d, ops);
    OpenStarts(d, old_);
    assert ops[0] == OpenTmp && ops[1..] == Rest(chunks);
    var end := DoAll(Do(d, OpenTmp), Rest(chunks));
    assert Rest(chunks)[..|Rest(chunks)|] == Rest(chunks);
    assert "" + Concat(chunks) == Concat(chunks);
    var left := Disk(end.files, [Now(end)], end.next);
    EndHasDir(Do(d, OpenTmp), "", old_, chunks);
    RestIsAtomic(Do(d, OpenTmp), old_, "", chunks, |Rest(chunks)|, left);
  }

  /** The directory is never empty of versions, so a crash outcome always exists. */
  lemma {:induction false} EndHasDir(d: Disk, sofar: string, old_: Option<string>, chunks: seq<string>)
    requires Writing(d, old_, sofar)
    ensures DoAll(d, Rest(chunks)).dirs != []
    decreases |chunks|
  {
    var ops := Rest(chunks);
    if chunks == [] {
      assert ops == [Fsync, Replace, SyncDir];
      DoThree(d, Fsync, Replace, SyncDir);
    } else {
      WriteContinues(d, old_, sofar, chunks[0]);
      assert ops[0] == Write(chunks[0]) && ops[1..] == Rest(chunks[1..]);
      EndHasDir(Do(d, ops[0]), sofar + chunks[0], old_, chunks[1..]);
    }
  }

  /** The JSON writer and reader, as far as the state file needs them. */
  ghost predicate Codec<T(!new)>(dump: T -> string, load: string -> T) {
    forall x :: load(dump(x)) == x
  }

  class State<T(!new)> {
    var d: T
    var disk: Disk
    const dump: T -> string
    const load: string -> T
    ghost var performed: seq<Op>   // all disk operations since the start

    ghost predicate Valid()
      reads this
    {
      Codec(dump, load) && AtPeace(disk)
    }

    /** What a restart would find, whenever it comes. */
    ghost predicate OnDisk(x: T)
      reads this
    {
      Stored(disk, Some(dump(x)))
    }

    /** `State.__init__`: the stored state, or the default if there is none. */
    constructor (disk: Disk, default: T, dump: T -> string, load: string -> T)
      requires Codec(dump, load) && AtPeace(disk)
      ensures Valid() && this.disk == disk && this.dump == dump && this.load == load
      ensures forall x :: Stored(disk, Some(dump(x))) ==> d == x
      ensures Stored(disk, None) ==> d == default
    {
      this.disk := disk;
      this.dump := dump;
      this.load := load;
      var found := Reload(disk);
      d := if found.Some? then load(found.value) else default;
    }

    method Perform(op: Op)
      modifies this`disk, this`performed
      ensures disk == Do(old(disk), op) && performed == old(performed) + [op]
    {
      disk := Do(disk, op);
      performed := performed + [op];
    }

    /** `State.save` performs exactly the operations of SaveIsAtomic, in that order, with
        the state in memory as the text. So at any moment of it a crash leaves the old
        or the new state, and when it returns every later restart finds the new one. */
    method Save()
      requires Valid()
      modifies this`disk, this`performed
      ensures Valid() && OnDisk(d)
      ensures performed == old(performed) + SaveOps([dump(d)]) && Concat([dump(d)]) == dump(d)
      ensures disk == DoAll(old(disk), SaveOps([dump(d)]))
    {
      ghost var before := disk;
      ghost var old_ :| Stored(disk, old_);
      var text := dump(d);
      Perform(OpenTmp);
      Perform(Write(text));
      Perform(Fsync);
      Perform(Replace);
      Perform(SyncDir);
      SaveStores(before, old_, [text]);
      assert SaveOps([text]) == [OpenTmp, Write(text), Fsync, Replace, SyncDir];
      assert Concat([text]) == text;
      FiveOps(before, text);
    }
  }

  lemma FiveOps(d: Disk, text: string)
    ensures DoAll(d, [OpenTmp, Write(text), Fsync, Replace, SyncDir])
         == Do(Do(Do(Do(Do(d, OpenTmp), Write(text)), Fsync), Replace), SyncDir)
  {
    var tail := [Fsync, Replace, SyncDir];
    assert [OpenTmp, Write(text), Fsync, Replace, SyncDir] == [OpenTmp] + ([Write(text)] + tail);
    DoFirst(d, OpenTmp, [Write(text)] + tail);
    DoFirst(Do(d, OpenTmp), Write(text), tail);
    DoThree(Do(Do(d, OpenTmp), Write(text)), Fsync, Replace, SyncDir);
  }
}
