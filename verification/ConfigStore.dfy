/** The configuration file under any number of cooperating writers: read, take
    the lock, check that nothing changed, encode, write a temporary file, check
    again, rename over the old file. Each system call is one step and may fail;
    a writer may be killed between any two. */
module ConfigStore {
  import opened Options
  import opened ConfigEncoding

  const ATTEMPTS: nat := 100

  datatype File = File(inode: nat, text: string)
  datatype Name = Name(pid: nat, attempt: nat)

  /** `Unsynced`: the directory could not be synced after the rename. */
  datatype Result = Done | Refused | Unsynced

  datatype At =
    | Reading
    | Locking(source: File)
    | Checking(source: File)
    | Encoding(source: File)
    | Creating(source: File, output: string, attempt: nat)
    | Writing(source: File, output: string, name: Name)
    | Syncing(source: File, output: string, name: Name)
    | Rechecking(source: File, output: string, name: Name)
    | Renaming(source: File, output: string, name: Name)
    | SyncingDirectory(name: Name)
    | Unlinking(name: Name, result: Result)
    | Unlocking(result: Result)
    | Finished(result: Result)
    | Killed

  datatype Writer = Writer(edit: Edit, pid: nat, at: At)

  datatype Commit = Commit(writer: nat, edit: Edit)

  datatype Store = Store(
    file: File,
    temps: map<Name, File>,
    lock: Option<nat>,
    writers: map<nat, Writer>,
    commits: seq<Commit>    // history: the renames, in order
  )

  predicate Initial(s: Store) {
    s.lock == None && s.writers == map[] && s.commits == []
  }

  /** `ensure_source_unchanged`. */
  predicate Unchanged(current: File, source: File) {
    |current.text| <= CONFIG_MAX && current == source
  }

  function Move(s: Store, w: nat, at: At): Store
    requires w in s.writers
  {
    s.(writers := s.writers[w := s.writers[w].(at := at)])
  }

  /** One system call of writer `w`, which is at `at`; `ok` says whether it
      succeeds, `inode` what a created file gets. */
  function Step(lib: Library, s: Store, w: nat, at: At, ok: bool, inode: nat): Store
    requires w in s.writers
  {
    var edit, pid := s.writers[w].edit, s.writers[w].pid;
    match at
    case Reading =>
      Move(s, w, if ok && |s.file.text| <= CONFIG_MAX then Locking(s.file) else Finished(Refused))
    case Locking(source) =>
      if !ok then Move(s, w, Finished(Refused))
      else if s.lock.Some? then s
      else Move(s.(lock := Some(w)), w, Checking(source))
    case Checking(source) =>
      Move(s, w, if ok && Unchanged(s.file, source) then Encoding(source) else Unlocking(Refused))
    case Encoding(source) =>
      var output := Encode(lib, edit, source.text);
      var loads := output.Some? && lib.parse(output.value).Some? && lib.loads(lib.parse(output.value).value);
      Move(s, w, if ok && loads then Creating(source, output.value, 0) else Unlocking(Refused))
    case Creating(source, output, attempt) =>
      var name := Name(pid, attempt);
      if attempt == ATTEMPTS then Move(s, w, Unlocking(Refused))
      else if name in s.temps then Move(s, w, Creating(source, output, attempt + 1))
      else if !ok then Move(s, w, Unlocking(Refused))
      else Move(s.(temps := s.temps[name := File(inode, "")]), w, Writing(source, output, name))
    case Writing(source, output, name) =>
      if !ok then Move(s, w, Unlinking(name, Refused))
      else
        var temps := if name in s.temps then s.temps[name := s.temps[name].(text := output)] else s.temps;
        Move(s.(temps := temps), w, Syncing(source, output, name))
    case Syncing(source, output, name) =>
      Move(s, w, if ok then Rechecking(source, output, name) else Unlinking(name, Refused))
    case Rechecking(source, output, name) =>
      Move(s, w, if ok && Unchanged(s.file, source) then Renaming(source, output, name) else Unlinking(name, Refused))
    case Renaming(_, _, name) =>
      if ok && name in s.temps then
        Move(s.(file := s.temps[name], temps := s.temps - {name}, commits := s.commits + [Commit(w, edit)]),
             w, SyncingDirectory(name))
      else Move(s, w, Unlinking(name, Refused))
    case SyncingDirectory(name) =>
      Move(s, w, if ok then Unlocking(Done) else Unlinking(name, Unsynced))
    case Unlinking(name, result) =>
      Move(if ok then s.(temps := s.temps - {name}) else s, w, Unlocking(result))
    case Unlocking(result) => Move(s.(lock := None), w, Finished(result))
    case Finished(_) => s
    case Killed => s
  }

  datatype Action = Call(w: nat, edit: Edit, pid: nat) | Advance(w: nat, ok: bool, inode: nat) | Kill(w: nat)

  function Perform(lib: Library, s: Store, a: Action): Store {
    match a
    case Call(w, edit, pid) =>
      if w in s.writers then s else s.(writers := s.writers[w := Writer(edit, pid, Reading)])
    case Advance(w, ok, inode) => if w in s.writers then Step(lib, s, w, s.writers[w].at, ok, inode) else s
    case Kill(w) =>
      if w !in s.writers || s.writers[w].at.Finished? then s
      else Move(s.(lock := if s.lock == Some(w) then None else s.lock), w, Killed)
  }

  predicate Holds(at: At) {
    !at.Reading? && !at.Locking? && !at.Finished? && !at.Killed?
  }

  /** Exactly the holder of the lock is past taking it. */
  predicate LockOk(s: Store) {
    && (s.lock.Some? ==> s.lock.value in s.writers)
    && forall w :: w in s.writers ==> (Holds(s.writers[w].at) <==> s.lock == Some(w))
  }

  predicate IsOutput(lib: Library, edit: Edit, source: File, output: string) {
    Encode(lib, edit, source.text) == Some(output)
  }

  /** What the writer holding the lock relies on: the file is the one it read, and
      the temporary file holds its encoding of it. */
  predicate AtOk(lib: Library, file: File, temps: map<Name, File>, edit: Edit, at: At) {
    match at
    case Encoding(source) => source == file
    case Creating(source, output, _) => source == file && IsOutput(lib, edit, source, output)
    case Writing(source, output, name) => source == file && IsOutput(lib, edit, source, output) && name in temps
    case Syncing(source, output, name) =>
      source == file && IsOutput(lib, edit, source, output) && name in temps && temps[name].text == output
    case Rechecking(source, output, name) =>
      source == file && IsOutput(lib, edit, source, output) && name in temps && temps[name].text == output
    case Renaming(source, output, name) =>
      source == file && IsOutput(lib, edit, source, output) && name in temps && temps[name].text == output
    case _ => true
  }

  predicate HolderOk(lib: Library, s: Store) {
    s.lock.Some? && s.lock.value in s.writers ==>
      var writer := s.writers[s.lock.value]; AtOk(lib, s.file, s.temps, writer.edit, writer.at)
  }

  /** The edits of the commits, applied in order to the text they found. */
  function Replay(lib: Library, text: string, commits: seq<Commit>): Option<string> {
    if commits == [] then Some(text)
    else match Replay(lib, text, commits[..|commits| - 1])
         case None => None
         case Some(before) => Encode(lib, commits[|commits| - 1].edit, before)
  }

  predicate HistoryOk(lib: Library, first: string, s: Store) {
    Replay(lib, first, s.commits) == Some(s.file.text)
  }

  function CommitsOf(commits: seq<Commit>, w: nat): nat {
    if commits == [] then 0
    else CommitsOf(commits[..|commits| - 1], w) + if commits[|commits| - 1].writer == w then 1 else 0
  }

  /** How often a writer at `at` has renamed. */
  predicate Counted(at: At, n: nat) {
    match at
    case SyncingDirectory(_) => n == 1
    case Unlinking(_, result) => n == if result.Refused? then 0 else 1
    case Unlocking(result) => n == if result.Refused? then 0 else 1
    case Finished(result) => n == if result.Refused? then 0 else 1
    case Killed => n <= 1
    case _ => n == 0
  }

  predicate CountsOk(s: Store) {
    forall w :: w in s.writers ==> Counted(s.writers[w].at, CommitsOf(s.commits, w))
  }

  /** A commit carries the edit its writer was called with. */
  predicate EditsOk(s: Store) {
    forall i :: 0 <= i < |s.commits| ==>
      s.commits[i].writer in s.writers && s.commits[i].edit == s.writers[s.commits[i].writer].edit
  }

  predicate Inv(lib: Library, first: string, s: Store) {
    LockOk(s) && HolderOk(lib, s) && HistoryOk(lib, first, s) && CountsOk(s) && EditsOk(s)
  }

  lemma LockKept(lib: Library, s: Store, w: nat, at: At, ok: bool, inode: nat)
    requires w in s.writers && s.writers[w].at == at && LockOk(s)
    ensures LockOk(Step(lib, s, w, at, ok, inode))
  {}

  lemma HolderKept(lib: Library, s: Store, w: nat, at: At, ok: bool, inode: nat)
    requires w in s.writers && s.writers[w].at == at && LockOk(s) && HolderOk(lib, s)
    ensures HolderOk(lib, Step(lib, s, w, at, ok, inode))
  {}

  lemma HistoryKept(lib: Library, first: string, s: Store, w: nat, at: At, ok: bool, inode: nat)
    requires w in s.writers && s.writers[w].at == at && LockOk(s) && HolderOk(lib, s) && HistoryOk(lib, first, s)
    ensures HistoryOk(lib, first, Step(lib, s, w, at, ok, inode))
  {
    var t := Step(lib, s, w, at, ok, inode);
    if |t.commits| > |s.commits| {
      assert t.commits[..|t.commits| - 1] == s.commits;
    }
  }

  lemma RenameCounted(s: Store, t: Store, w: nat)
    requires w in s.writers && CountsOk(s) && s.writers[w].at.Renaming?
    requires t.commits == s.commits + [Commit(w, s.writers[w].edit)]
    requires t.writers.Keys == s.writers.Keys && t.writers[w].at.SyncingDirectory?
    requires forall v :: v in s.writers && v != w ==> t.writers[v] == s.writers[v]
    ensures CountsOk(t)
  {
    assert t.commits[..|t.commits| - 1] == s.commits;
  }

  /** Any other step of a writer moves it to a place where it has renamed as often. */
  lemma StepCounted(lib: Library, s: Store, w: nat, at: At, ok: bool, inode: nat, n: nat)
    requires w in s.writers && s.writers[w].at == at && Counted(at, n)
    requires at.Renaming? ==> Step(lib, s, w, at, ok, inode).commits == s.commits
    ensures var t := Step(lib, s, w, at, ok, inode);
            && t.commits == s.commits && t.writers == s.writers[w := t.writers[w]] && Counted(t.writers[w].at, n)
  {}

  lemma CountsKept(lib: Library, s: Store, w: nat, at: At, ok: bool, inode: nat)
    requires w in s.writers && s.writers[w].at == at && CountsOk(s)
    ensures CountsOk(Step(lib, s, w, at, ok, inode))
  {
    var t := Step(lib, s, w, at, ok, inode);
    if at.Renaming? && t.commits != s.commits {
      RenameCounted(s, t, w);
    } else {
      StepCounted(lib, s, w, at, ok, inode, CommitsOf(s.commits, w));
    }
  }

  lemma EditsKept(lib: Library, s: Store, w: nat, at: At, ok: bool, inode: nat)
    requires w in s.writers && s.writers[w].at == at && EditsOk(s)
    ensures EditsOk(Step(lib, s, w, at, ok, inode))
  {}

  lemma {:induction false} StrangersHaveNoCommits(s: Store, commits: seq<Commit>, w: nat)
    requires w !in s.writers && forall i :: 0 <= i < |commits| ==> commits[i].writer in s.writers
    ensures CommitsOf(commits, w) == 0
  {
    if commits != [] { StrangersHaveNoCommits(s, commits[..|commits| - 1], w); }
  }

  lemma CallKeeps(lib: Library, first: string, s: Store, w: nat, edit: Edit, pid: nat)
    requires Inv(lib, first, s)
    ensures Inv(lib, first, Perform(lib, s, Call(w, edit, pid)))
  {
    if w !in s.writers {
      StrangersHaveNoCommits(s, s.commits, w);
      var t := Perform(lib, s, Call(w, edit, pid));
      assert forall v :: v in s.writers ==> t.writers[v] == s.writers[v];
    }
  }

  lemma KillKeeps(lib: Library, first: string, s: Store, w: nat)
    requires Inv(lib, first, s)
    ensures Inv(lib, first, Perform(lib, s, Kill(w)))
  {
    if w in s.writers && !s.writers[w].at.Finished? {
      assert Counted(s.writers[w].at, CommitsOf(s.commits, w));
      assert Perform(lib, s, Kill(w)).commits == s.commits;
    }
  }

  lemma InvStep(lib: Library, first: string, s: Store, a: Action)
    requires Inv(lib, first, s)
    ensures Inv(lib, first, Perform(lib, s, a))
  {
    match a
    case Call(w, edit, pid) => CallKeeps(lib, first, s, w, edit, pid);
    case Kill(w) => KillKeeps(lib, first, s, w);
    case Advance(w, ok, inode) =>
      if w in s.writers {
        var at := s.writers[w].at;
        LockKept(lib, s, w, at, ok, inode);
        HolderKept(lib, s, w, at, ok, inode);
        HistoryKept(lib, first, s, w, at, ok, inode);
        CountsKept(lib, s, w, at, ok, inode);
        EditsKept(lib, s, w, at, ok, inode);
      }
  }
}
