/** `mutate_config_at` as the sequential code it is, over the configuration
    directory. Between any two of its system calls other writers call, move, and are
    killed; and each of its system calls is proved to be a step of the model. */
module ConfigDirectory {
  import opened Options
  import opened ConfigEncoding
  import opened ConfigStore
  import opened ConfigTheorems
  import opened ConfigRefusals

  predicate Foreign(w: nat, a: Action) {
    a.w != w
  }

  /** Where writer `w` stands, and what it was asked. */
  predicate Mine(w: nat, s: Store, t: Store) {
    (w in s.writers ==> w in t.writers && t.writers[w] == s.writers[w]) && (w !in s.writers ==> w !in t.writers)
  }

  lemma ForeignStep(lib: Library, w: nat, s: Store, a: Action)
    requires Foreign(w, a)
    ensures Mine(w, s, Perform(lib, s, a))
  {}

  /** How the writer's own system calls will go. */
  datatype Calls = Calls(
    read: bool, lock: bool, check: bool, create: bool, write: bool, sync: bool, recheck: bool,
    rename: bool, remove: bool, syncDirectory: bool)

  predicate Replaces(c: Calls) {
    c.read && c.lock && c.check && c.create && c.write && c.sync && c.recheck && c.rename
  }

  predicate Late(c: Calls) {
    c.check && c.create && Later(c)
  }

  predicate Later(c: Calls) {
    c.write && c.sync && c.recheck && c.rename
  }

  /** Nothing but its own calls keeps this writer from making its edit. */
  predicate Open(lib: Library, s: Store, edit: Edit, pid: nat) {
    s.lock.None? && |s.file.text| <= CONFIG_MAX && Editable(lib, edit, s.file.text) && !AllTaken(s.temps, pid, ATTEMPTS)
  }

  class Directory {
    const lib: Library
    ghost const first: string    // what the file said in the beginning
    var store: Store
    var budget: nat              // how many steps the other writers still make

    ghost predicate Valid()
      reads this
    {
      Reachable(lib, first, store)
    }

    ghost predicate Stands(w: nat, at: At)
      reads this
    {
      w in store.writers && store.writers[w].at == at
    }

    /** The others do not move, and the file is as it was. */
    ghost predicate Kept(s: Store)
      reads this
    {
      budget == 0 && store.file == s.file && s.writers.Keys <= store.writers.Keys
    }

    /** Nor has the writer done anything to the directory. */
    ghost predicate Calm(w: nat, s: Store)
      reads this
    {
      && Kept(s) && store.temps == s.temps
      && w in s.writers && w in store.writers && store.writers[w].pid == s.writers[w].pid
    }

    constructor (library: Library, config: File, left: map<Name, File>, others: nat)
      ensures Valid() && lib == library && first == config.text && budget == others
      ensures Initial(store) && store.file == config && store.temps == left
    {
      lib, first, budget := library, config.text, others;
      store := Store(config, left, None, map[], []);
      new;
      InitialIsReachable(lib, store);
    }

    /** The other writers make some steps, possibly none. */
    method Others(w: nat)
      requires Valid()
      modifies this
      ensures Valid() && Mine(w, old(store), store) && budget <= old(budget)
      ensures old(budget) == 0 ==> store == old(store)
    {
      while *
        invariant Valid() && Mine(w, old(store), store) && budget <= old(budget)
        invariant old(budget) == 0 ==> store == old(store)
        decreases budget
      {
        if budget == 0 { return; }
        budget := budget - 1;
        var a: Action := *;
        if Foreign(w, a) {
          ForeignStep(lib, w, store, a);
          Reaches(lib, first, store, a);
          store := Perform(lib, store, a);
        }
      }
    }

    /** One system call of writer `w` leaves `t`; then the others may move. */
    method Do(w: nat, at: At, ok: bool, inode: nat, t: Store)
      requires Valid() && Stands(w, at) && Step(lib, store, w, at, ok, inode) == t
      modifies this
      ensures Valid() && Mine(w, t, store) && budget <= old(budget)
      ensures old(budget) == 0 ==> store == t
    {
      Reaches(lib, first, store, Advance(w, ok, inode));
      store := t;
      Others(w);
    }

    /** `mutate_config_at`. Its result says whether it committed, and whoever else
        wrote meanwhile, the file is the first text with all commits applied. `None`:
        it waits for the lock, and the others have stopped. */
    method Mutate(w: nat, edit: Edit, pid: nat, calls: Calls) returns (result: Option<Result>)
      requires Valid() && w !in store.writers
      modifies this
      ensures Valid() && w in store.writers && store.writers[w].edit == edit
      ensures result.Some? ==> Stands(w, Finished(result.value))
      ensures result.Some? ==> CommitsOf(store.commits, w) == if result.value.Refused? then 0 else 1
      ensures Replay(lib, first, store.commits) == Some(store.file.text)
      ensures result == Some(Done) ==> Replaces(calls) && calls.syncDirectory
      ensures result == Some(Unsynced) ==> Replaces(calls) && !calls.syncDirectory
      ensures old(budget) == 0 && Open(lib, old(store), edit, pid) && Replaces(calls) ==>
                result == Some(if calls.syncDirectory then Done else Unsynced)
    {
      Reaches(lib, first, store, Call(w, edit, pid));
      store := store.(writers := store.writers[w := Writer(edit, pid, Reading)]);
      Others(w);
      result := Attempt(w, calls);
      Concludes(w);
    }

    /** The writer has been called. */
    method Attempt(w: nat, calls: Calls) returns (result: Option<Result>)
      requires Valid() && Stands(w, Reading)
      modifies this
      ensures Valid() && w in store.writers && store.writers[w].edit == old(store.writers[w].edit)
      ensures result.Some? ==> Stands(w, Finished(result.value))
      ensures result == Some(Done) ==> Replaces(calls) && calls.syncDirectory
      ensures result == Some(Unsynced) ==> Replaces(calls) && !calls.syncDirectory
      ensures old(budget) == 0 && Replaces(calls)
              && Open(lib, old(store), old(store.writers[w].edit), old(store.writers[w].pid)) ==>
                result == Some(if calls.syncDirectory then Done else Unsynced)
    {
      var source := ReadConfig(w, calls);
      if source.None? { return Some(Refused); }
      result := LockConfig(w, source.value, calls);
      if result == Some(Done) {
        var outcome := Replace(w, source.value, calls);
        result := Some(outcome);
        Do(w, Unlocking(outcome), true, 0, Move(store.(lock := None), w, Finished(outcome)));
      }
    }

    /** What the run theorems say of a writer that has come back. */
    lemma Concludes(w: nat)
      requires Valid() && w in store.writers
      ensures Replay(lib, first, store.commits) == Some(store.file.text)
      ensures match store.writers[w].at
              case Finished(result) => CommitsOf(store.commits, w) == if result.Refused? then 0 else 1
              case _ => true
    {
      ReachableInv(lib, first, store);
    }

    /** `read_config_at`. */
    method ReadConfig(w: nat, calls: Calls) returns (source: Option<File>)
      requires Valid() && Stands(w, Reading)
      modifies this
      ensures Valid() && w in store.writers && store.writers[w].edit == old(store.writers[w].edit)
      ensures Stands(w, if source.Some? then Locking(source.value) else Finished(Refused))
      ensures source.Some? ==> calls.read
      ensures old(budget) == 0 && calls.read && |old(store.file.text)| <= CONFIG_MAX ==>
                source == Some(old(store.file)) && Calm(w, old(store)) && store.lock == old(store.lock)
    {
      var ok := calls.read;
      if !ok || |store.file.text| > CONFIG_MAX {
        Do(w, Reading, ok, 0, Move(store, w, Finished(Refused)));
        return None;
      }
      source := Some(store.file);
      Do(w, Reading, true, 0, Move(store, w, Locking(store.file)));
    }

    /** `lock_config` waits for the lock; `Done` when it has it. */
    method LockConfig(w: nat, source: File, calls: Calls) returns (result: Option<Result>)
      requires Valid() && Stands(w, Locking(source))
      modifies this
      ensures Valid() && w in store.writers && store.writers[w].edit == old(store.writers[w].edit)
      ensures match result
              case None => true
              case Some(Done) => Stands(w, Checking(source))
              case Some(Refused) => Stands(w, Finished(Refused))
              case Some(Unsynced) => false
      ensures result == Some(Done) ==> calls.lock
      ensures old(budget) == 0 && calls.lock && old(store.lock).None? ==>
                result == Some(Done) && Calm(w, old(store))
    {
      var ok := calls.lock;
      if !ok {
        Do(w, Locking(source), false, 0, Move(store, w, Finished(Refused)));
        return Some(Refused);
      }
      while store.lock.Some?
        invariant Valid() && Mine(w, old(store), store)
        invariant old(budget) == 0 ==> store == old(store)
        decreases budget
      {
        if budget == 0 { return None; }
        budget := budget - 1;
        Others(w);
      }
      Do(w, Locking(source), true, 0, Move(store.(lock := Some(w)), w, Checking(source)));
      result := Some(Done);
    }

    /** Under the lock: check, encode, and replace the file. */
    method Replace(w: nat, source: File, calls: Calls) returns (result: Result)
      requires Valid() && Stands(w, Checking(source))
      modifies this
      ensures Valid() && w in store.writers && store.writers[w].edit == old(store.writers[w].edit)
      ensures Stands(w, Unlocking(result))
      ensures result.Done? ==> Late(calls) && calls.syncDirectory
      ensures result.Unsynced? ==> Late(calls) && !calls.syncDirectory
      ensures old(budget) == 0 && Late(calls) && old(store.file) == source && |source.text| <= CONFIG_MAX
              && Editable(lib, old(store.writers[w].edit), source.text)
              && !AllTaken(old(store.temps), old(store.writers[w].pid), ATTEMPTS) ==>
                result == if calls.syncDirectory then Done else Unsynced
    {
      result := Refused;
      var same := IsUnchanged(source, calls.check);
      if !same {
        Do(w, Checking(source), false, 0, Move(store, w, Unlocking(Refused)));
        return;
      }
      Do(w, Checking(source), true, 0, Move(store, w, Encoding(source)));
      var output := Encode(lib, store.writers[w].edit, source.text);
      if output.None? || lib.parse(output.value).None? || !lib.loads(lib.parse(output.value).value) {
        Do(w, Encoding(source), true, 0, Move(store, w, Unlocking(Refused)));
        return;
      }
      Do(w, Encoding(source), true, 0, Move(store, w, Creating(source, output.value, 0)));
      var temporary := CreateTemporary(w, source, output.value, calls);
      if temporary.Some? { result := Install(w, source, output.value, temporary.value, calls); }
    }

    /** `ensure_source_unchanged`. */
    method IsUnchanged(source: File, readable: bool) returns (same: bool)
      ensures same <==> readable && Unchanged(store.file, source)
    {
      same := readable && |store.file.text| <= CONFIG_MAX && store.file == source;
    }

    /** The loop over a hundred temporary names. */
    method CreateTemporary(w: nat, source: File, output: string, calls: Calls) returns (temporary: Option<Name>)
      requires Valid() && Stands(w, Creating(source, output, 0))
      modifies this
      ensures Valid() && w in store.writers && store.writers[w].edit == old(store.writers[w].edit)
      ensures Stands(w, if temporary.Some? then Writing(source, output, temporary.value) else Unlocking(Refused))
      ensures temporary.Some? ==> calls.create
      ensures old(budget) == 0 && calls.create && !AllTaken(old(store.temps), old(store.writers[w].pid), ATTEMPTS) ==>
                temporary.Some? && temporary.value in store.temps && Kept(old(store))
    {
      var pid := store.writers[w].pid;
      for attempt := 0 to ATTEMPTS
        invariant Valid() && w in store.writers
        invariant store.writers[w] == old(store.writers[w]).(at := Creating(source, output, attempt))
        invariant budget <= old(budget)
        invariant old(budget) == 0 ==>
          store.temps == old(store.temps) && Kept(old(store)) && AllTaken(store.temps, pid, attempt)
      {
        var name := Name(pid, attempt);
        if name !in store.temps {
          var inode: nat := *;
          if !calls.create {
            Do(w, Creating(source, output, attempt), false, 0, Move(store, w, Unlocking(Refused)));
            return None;
          }
          Do(w, Creating(source, output, attempt), true, inode,
             Move(store.(temps := store.temps[name := File(inode, "")]), w, Writing(source, output, name)));
          return Some(name);
        }
        Do(w, Creating(source, output, attempt), true, 0, Move(store, w, Creating(source, output, attempt + 1)));
      }
      Do(w, Creating(source, output, ATTEMPTS), true, 0, Move(store, w, Unlocking(Refused)));
      temporary := None;
    }

    /** The temporary file is filled, synced, and renamed over the old one if that has
        not changed; a failure removes it again. */
    method Install(w: nat, source: File, output: string, name: Name, calls: Calls) returns (result: Result)
      requires Valid() && Stands(w, Writing(source, output, name))
      modifies this
      ensures Valid() && w in store.writers && store.writers[w].edit == old(store.writers[w].edit)
      ensures Stands(w, Unlocking(result))
      ensures result.Done? ==> Later(calls) && calls.syncDirectory
      ensures result.Unsynced? ==> Later(calls) && !calls.syncDirectory
      ensures old(budget) == 0 && Later(calls) && old(store.file) == source && |source.text| <= CONFIG_MAX
              && name in old(store.temps) ==>
                result == if calls.syncDirectory then Done else Unsynced
    {
      var ready := Fill(w, source, output, name, calls);
      if ready { result := Rename(w, source, output, name, calls); } else { result := Refused; }
      if result.Done? { return; }
      var removed := calls.remove;
      Do(w, Unlinking(name, result), removed, 0,
         Move(if removed then store.(temps := store.temps - {name}) else store, w, Unlocking(result)));
    }

    method Fill(w: nat, source: File, output: string, name: Name, calls: Calls) returns (ready: bool)
      requires Valid() && Stands(w, Writing(source, output, name))
      modifies this
      ensures Valid() && w in store.writers && store.writers[w].edit == old(store.writers[w].edit)
      ensures Stands(w, if ready then Renaming(source, output, name) else Unlinking(name, Refused))
      ensures ready ==> calls.write && calls.sync && calls.recheck
      ensures old(budget) == 0 && calls.write && calls.sync && calls.recheck && old(store.file) == source
              && |source.text| <= CONFIG_MAX && name in old(store.temps) ==>
                ready && name in store.temps && Kept(old(store))
    {
      ready := calls.write;
      if !ready {
        Do(w, Writing(source, output, name), false, 0, Move(store, w, Unlinking(name, Refused)));
        return;
      }
      var temps := if name in store.temps then store.temps[name := store.temps[name].(text := output)] else store.temps;
      Do(w, Writing(source, output, name), true, 0, Move(store.(temps := temps), w, Syncing(source, output, name)));
      ready := calls.sync;
      if !ready {
        Do(w, Syncing(source, output, name), false, 0, Move(store, w, Unlinking(name, Refused)));
        return;
      }
      Do(w, Syncing(source, output, name), true, 0, Move(store, w, Rechecking(source, output, name)));
      ready := IsUnchanged(source, calls.recheck);
      Do(w, Rechecking(source, output, name), ready, 0,
         Move(store, w, if ready then Renaming(source, output, name) else Unlinking(name, Refused)));
    }

    /** The rename, which commits, and the sync of the directory. */
    method Rename(w: nat, source: File, output: string, name: Name, calls: Calls) returns (result: Result)
      requires Valid() && Stands(w, Renaming(source, output, name))
      modifies this
      ensures Valid() && w in store.writers && store.writers[w].edit == old(store.writers[w].edit)
      ensures Stands(w, if result.Done? then Unlocking(Done) else Unlinking(name, result))
      ensures result == if calls.rename && name in old(store.temps) then if calls.syncDirectory then Done else Unsynced
                        else Refused
    {
      var renames := calls.rename;
      if !renames || name !in store.temps {
        Do(w, Renaming(source, output, name), renames, 0, Move(store, w, Unlinking(name, Refused)));
        return Refused;
      }
      var edit := store.writers[w].edit;
      Do(w, Renaming(source, output, name), true, 0,
         Move(store.(file := store.temps[name], temps := store.temps - {name},
                     commits := store.commits + [Commit(w, edit)]), w, SyncingDirectory(name)));
      var synced := calls.syncDirectory;
      result := if synced then Done else Unsynced;
      Do(w, SyncingDirectory(name), synced, 0,
         Move(store, w, if synced then Unlocking(Done) else Unlinking(name, Unsynced)));
    }
  }
}
