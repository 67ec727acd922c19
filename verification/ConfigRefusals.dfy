/** When a change of the configuration is refused: never without a cause that the
    writer met on its way. */
module ConfigRefusals {
  import opened Options
  import opened ConfigEncoding
  import opened ConfigStore
  import opened ConfigTheorems

  /** The edit can be made, and what it makes can be loaded. */
  predicate Editable(lib: Library, edit: Edit, text: string) {
    var output := Encode(lib, edit, text);
    output.Some? && lib.parse(output.value).Some? && lib.loads(lib.parse(output.value).value)
  }

  predicate AllTaken(temps: map<Name, File>, pid: nat, n: nat) {
    forall attempt :: 0 <= attempt < n ==> Name(pid, attempt) in temps
  }

  /** The writer's next call fails, or shows that it must not go on: the file is too
      long, is not what it was, cannot be edited so, or no name is left. */
  predicate Spoils(lib: Library, s: Store, w: nat, ok: bool)
    requires w in s.writers
  {
    var writer := s.writers[w];
    || !ok
    || (writer.at.Reading? && |s.file.text| > CONFIG_MAX)
    || (writer.at.Checking? && s.file != writer.at.source)
    || (writer.at.Encoding? && !Editable(lib, writer.edit, s.file.text))
    || (writer.at.Creating? && AllTaken(s.temps, writer.pid, ATTEMPTS))
  }

  predicate Excused(s: Store, w: nat, spoiled: bool) {
    w in s.writers ==>
      match s.writers[w].at
      case Locking(source) => |source.text| <= CONFIG_MAX
      case Checking(source) => |source.text| <= CONFIG_MAX
      case Encoding(source) => |source.text| <= CONFIG_MAX
      case Creating(source, _, n) => |source.text| <= CONFIG_MAX && n <= ATTEMPTS && AllTaken(s.temps, s.writers[w].pid, n)
      case Writing(source, _, _) => |source.text| <= CONFIG_MAX
      case Syncing(source, _, _) => |source.text| <= CONFIG_MAX
      case Rechecking(source, _, _) => |source.text| <= CONFIG_MAX
      case Unlinking(_, result) => result.Refused? ==> spoiled
      case Unlocking(result) => result.Refused? ==> spoiled
      case Finished(result) => result.Refused? ==> spoiled
      case _ => true
  }

  lemma OwnStep(lib: Library, s: Store, w: nat, at: At, ok: bool, inode: nat, spoiled: bool)
    requires w in s.writers && s.writers[w].at == at && LockOk(s) && HolderOk(lib, s) && Excused(s, w, spoiled)
    ensures Excused(Step(lib, s, w, at, ok, inode), w, spoiled || Spoils(lib, s, w, ok))
  {}

  lemma OtherStep(lib: Library, s: Store, v: nat, w: nat, at: At, ok: bool, inode: nat, spoiled: bool)
    requires v in s.writers && v != w && s.writers[v].at == at && LockOk(s) && Excused(s, w, spoiled)
    ensures Excused(Step(lib, s, v, at, ok, inode), w, spoiled)
  {}

  /** Some step of writer `w` before the n-th met such a cause. */
  ghost predicate Spoiled(lib: Library, run: seq<Store>, actions: seq<Action>, n: nat, w: nat)
    requires n <= |actions| && n <= |run|
  {
    exists k {:trigger actions[k]} :: 0 <= k < n && actions[k].Advance? && actions[k].w == w &&
      w in run[k].writers && Spoils(lib, run[k], w, actions[k].ok)
  }

  lemma SpoiledLater(lib: Library, run: seq<Store>, actions: seq<Action>, n: nat, w: nat)
    requires n < |actions| && n < |run|
    ensures Spoiled(lib, run, actions, n, w) ==> Spoiled(lib, run, actions, n + 1, w)
    ensures actions[n].Advance? && actions[n].w == w && w in run[n].writers && Spoils(lib, run[n], w, actions[n].ok) ==>
              Spoiled(lib, run, actions, n + 1, w)
  {
    if Spoiled(lib, run, actions, n, w) {
      var k :| 0 <= k < n && actions[k].Advance? && actions[k].w == w &&
        w in run[k].writers && Spoils(lib, run[k], w, actions[k].ok);
      assert 0 <= k < n + 1 && actions[k].Advance?;
    }
  }

  lemma ExcusedStep(lib: Library, s: Store, a: Action, w: nat, spoiled: bool)
    requires LockOk(s) && HolderOk(lib, s) && Excused(s, w, spoiled)
    ensures Excused(Perform(lib, s, a), w,
                    spoiled || (a.Advance? && a.w == w && w in s.writers && Spoils(lib, s, w, a.ok)))
  {
    match a
    case Advance(v, ok, inode) =>
      if v in s.writers {
        if v == w { OwnStep(lib, s, w, s.writers[w].at, ok, inode, spoiled); }
        else { OtherStep(lib, s, v, w, s.writers[v].at, ok, inode, spoiled); }
      }
    case _ =>
  }

  lemma {:induction false} ExcusedRun(lib: Library, run: seq<Store>, actions: seq<Action>, i: nat, w: nat)
    requires IsRun(lib, run, actions) && i < |run|
    ensures Excused(run[i], w, Spoiled(lib, run, actions, i, w))
  {
    if i > 0 {
      ExcusedRun(lib, run, actions, i - 1, w);
      InvRun(lib, run, actions, i - 1);
      SpoiledLater(lib, run, actions, i - 1, w);
      ExcusedStep(lib, run[i - 1], actions[i - 1], w, Spoiled(lib, run, actions, i - 1, w));
      assert run[i] == Perform(lib, run[i - 1], actions[i - 1]);
    }
  }

  /** A change is refused only if one of the writer's own calls failed, or the file
      was too long, had been replaced since it was read, could not be edited so, or
      all hundred temporary names were taken. */
  lemma RefusalHasCause(lib: Library, run: seq<Store>, actions: seq<Action>, i: nat, w: nat)
    requires IsRun(lib, run, actions) && i < |run|
    requires w in run[i].writers && run[i].writers[w].at == Finished(Refused)
    ensures exists k {:trigger actions[k]} :: 0 <= k < i && actions[k].Advance? && actions[k].w == w &&
              w in run[k].writers && Spoils(lib, run[k], w, actions[k].ok)
  {
    ExcusedRun(lib, run, actions, i, w);
  }

  // ------------------------------------------------- what the result says of the calls

  /** A call whose failure refuses the change. */
  predicate Decisive(s: Store, w: nat)
    requires w in s.writers
  {
    var writer := s.writers[w];
    match writer.at
    case Creating(_, _, n) => n < ATTEMPTS && Name(writer.pid, n) !in s.temps
    case SyncingDirectory(_) => false
    case Unlinking(_, _) => false
    case Unlocking(_) => false
    case Finished(_) => false
    case Killed => false
    case _ => true
  }

  /** Writer `w` has made a decisive call that failed, or its sync of the directory has. */
  predicate FailsHere(s: Store, a: Action, w: nat, sync: bool) {
    a.Advance? && a.w == w && !a.ok && w in s.writers && if sync then s.writers[w].at.SyncingDirectory? else Decisive(s, w)
  }

  predicate EndsIn(at: At, result: Result) {
    at == Unlocking(result) || at == Finished(result) || at.Killed? || (at.Unlinking? && at.result == result)
  }

  predicate Told(s: Store, w: nat, failed: bool, unsynced: bool) {
    && (failed || unsynced ==> w in s.writers)
    && (w in s.writers ==>
          var at := s.writers[w].at;
          && (failed ==> EndsIn(at, Refused)) && (unsynced ==> EndsIn(at, Unsynced))
          && (EndsIn(at, Unsynced) && !at.Killed? ==> unsynced))
  }

  lemma ToldStep(lib: Library, s: Store, a: Action, w: nat, failed: bool, unsynced: bool)
    requires Told(s, w, failed, unsynced)
    ensures Told(Perform(lib, s, a), w, failed || FailsHere(s, a, w, false), unsynced || FailsHere(s, a, w, true))
  {
    if a.Advance? && a.w == w && w in s.writers {
      ToldOwn(lib, s, w, s.writers[w].at, a.ok, a.inode, failed, unsynced);
    }
  }

  lemma ToldOwn(lib: Library, s: Store, w: nat, at: At, ok: bool, inode: nat, failed: bool, unsynced: bool)
    requires w in s.writers && s.writers[w].at == at && Told(s, w, failed, unsynced)
    ensures var a := Advance(w, ok, inode);
            Told(Step(lib, s, w, at, ok, inode), w,
                 failed || FailsHere(s, a, w, false), unsynced || FailsHere(s, a, w, true))
  {}

  ghost predicate FailedBy(run: seq<Store>, actions: seq<Action>, n: nat, w: nat, sync: bool)
    requires n <= |actions| && n <= |run|
  {
    exists k :: 0 <= k < n && FailsHere(run[k], actions[k], w, sync)
  }

  lemma FailedLater(run: seq<Store>, actions: seq<Action>, n: nat, w: nat, sync: bool)
    requires n < |actions| && n < |run|
    ensures FailedBy(run, actions, n + 1, w, sync) <==>
              FailedBy(run, actions, n, w, sync) || FailsHere(run[n], actions[n], w, sync)
  {
    if FailedBy(run, actions, n, w, sync) {
      var k :| 0 <= k < n && FailsHere(run[k], actions[k], w, sync);
      assert 0 <= k < n + 1;
    }
  }

  lemma {:induction false} ToldRun(lib: Library, run: seq<Store>, actions: seq<Action>, i: nat, w: nat)
    requires IsRun(lib, run, actions) && i < |run|
    ensures Told(run[i], w, FailedBy(run, actions, i, w, false), FailedBy(run, actions, i, w, true))
  {
    if i > 0 {
      ToldRun(lib, run, actions, i - 1, w);
      FailedLater(run, actions, i - 1, w, false);
      FailedLater(run, actions, i - 1, w, true);
      ToldStep(lib, run[i - 1], actions[i - 1], w,
               FailedBy(run, actions, i - 1, w, false), FailedBy(run, actions, i - 1, w, true));
      assert run[i] == Perform(lib, run[i - 1], actions[i - 1]);
    }
  }

  /** `Ok` means that every call of the writer's that decides succeeded, the directory
      sync included; it is that sync, and no other call, that failed where the error
      comes after the commit. */
  lemma ResultTellsCalls(lib: Library, run: seq<Store>, actions: seq<Action>, i: nat, w: nat)
    requires IsRun(lib, run, actions) && i < |run| && w in run[i].writers && run[i].writers[w].at.Finished?
    ensures FailedBy(run, actions, i, w, false) ==> run[i].writers[w].at.result.Refused?
    ensures FailedBy(run, actions, i, w, true) <==> run[i].writers[w].at.result.Unsynced?
  {
    ToldRun(lib, run, actions, i, w);
  }

  /** A step touches no temporary file but the writer's own: one of a name that was free,
      which it fills, and which is gone once it is renamed or removed. */
  lemma OnlyOwnTemporary(lib: Library, run: seq<Store>, actions: seq<Action>, i: nat, name: Name)
    requires IsRun(lib, run, actions) && i < |actions|
    requires (name in run[i].temps) != (name in run[i + 1].temps) ||
             (name in run[i].temps && name in run[i + 1].temps && run[i].temps[name] != run[i + 1].temps[name])
    ensures actions[i].Advance? && actions[i].ok && actions[i].w in run[i].writers
    ensures var at, after := run[i].writers[actions[i].w].at, run[i + 1].writers[actions[i].w].at;
            if name !in run[i].temps then at.Creating? && after.Writing? && after.name == name
            else (at.Writing? || at.Renaming? || at.Unlinking?) && at.name == name
  {
    assert run[i + 1] == Perform(lib, run[i], actions[i]);
  }

  /** And none is left over: a rename or a removal that succeeds takes it away. */
  lemma TemporaryGoes(lib: Library, run: seq<Store>, actions: seq<Action>, i: nat, w: nat)
    requires IsRun(lib, run, actions) && i < |actions| && actions[i].Advance? && actions[i].w == w && actions[i].ok
    requires w in run[i].writers && (run[i].writers[w].at.Renaming? || run[i].writers[w].at.Unlinking?)
    ensures run[i].writers[w].at.name !in run[i + 1].temps
  {
    assert run[i + 1] == Perform(lib, run[i], actions[i]);
  }
}
