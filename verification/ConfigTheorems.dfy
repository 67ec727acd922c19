/** What the lock, the two checks and the rename guarantee over whole runs. */
module ConfigTheorems {
  import opened Options
  import opened ConfigEncoding
  import opened ConfigStore

  /** A run: calls, system calls and kills of any number of writers, interleaved. */
  predicate IsRun(lib: Library, run: seq<Store>, actions: seq<Action>) {
    && |run| == |actions| + 1
    && Initial(run[0])
    && forall i {:trigger actions[i]} :: 0 <= i < |actions| ==> run[i + 1] == Perform(lib, run[i], actions[i])
  }

  lemma {:induction false} InvRun(lib: Library, run: seq<Store>, actions: seq<Action>, i: nat)
    requires IsRun(lib, run, actions) && i < |run|
    ensures Inv(lib, run[0].file.text, run[i])
  {
    if i > 0 {
      InvRun(lib, run, actions, i - 1);
      InvStep(lib, run[0].file.text, run[i - 1], actions[i - 1]);
    }
  }

  /** Some run from a file that said `first` ends here. */
  ghost predicate Reachable(lib: Library, first: string, s: Store) {
    exists run: seq<Store>, actions: seq<Action> ::
      IsRun(lib, run, actions) && run[0].file.text == first && run[|run| - 1] == s
  }

  lemma InitialIsReachable(lib: Library, s: Store)
    requires Initial(s)
    ensures Reachable(lib, s.file.text, s)
  {
    assert IsRun(lib, [s], []);
  }

  lemma Reaches(lib: Library, first: string, s: Store, a: Action)
    requires Reachable(lib, first, s)
    ensures Reachable(lib, first, Perform(lib, s, a))
  {
    var run: seq<Store>, actions: seq<Action> :|
      IsRun(lib, run, actions) && run[0].file.text == first && run[|run| - 1] == s;
    Extends(lib, run, actions, a);
  }

  lemma Extends(lib: Library, run: seq<Store>, actions: seq<Action>, a: Action)
    requires IsRun(lib, run, actions)
    ensures IsRun(lib, run + [Perform(lib, run[|run| - 1], a)], actions + [a])
  {}

  lemma ReachableInv(lib: Library, first: string, s: Store)
    requires Reachable(lib, first, s)
    ensures Inv(lib, first, s)
  {
    var run: seq<Store>, actions: seq<Action> :|
      IsRun(lib, run, actions) && run[0].file.text == first && run[|run| - 1] == s;
    InvRun(lib, run, actions, |run| - 1);
  }

  /** No update is lost: the file always is the first text with the committed edits
      applied in commit order, each to exactly the text it replaced. */
  lemma NoLostUpdate(lib: Library, run: seq<Store>, actions: seq<Action>, i: nat)
    requires IsRun(lib, run, actions) && i < |run|
    ensures Replay(lib, run[0].file.text, run[i].commits) == Some(run[i].file.text)
  {
    InvRun(lib, run, actions, i);
  }

  /** `Ok` means committed once; an error means not committed, unless it is the
      directory sync that failed, after the rename. */
  lemma ResultTellsCommit(lib: Library, run: seq<Store>, actions: seq<Action>, i: nat, w: nat)
    requires IsRun(lib, run, actions) && i < |run| && w in run[i].writers && run[i].writers[w].at.Finished?
    ensures CommitsOf(run[i].commits, w) == if run[i].writers[w].at.result.Refused? then 0 else 1
  {
    InvRun(lib, run, actions, i);
  }

  lemma RenameCommits(lib: Library, s: Store, w: nat, ok: bool, inode: nat)
    requires LockOk(s) && HolderOk(lib, s) && w in s.writers
    requires var t := Step(lib, s, w, s.writers[w].at, ok, inode); t.file != s.file || t.commits != s.commits
    ensures var t, edit := Step(lib, s, w, s.writers[w].at, ok, inode), s.writers[w].edit;
            && s.lock == Some(w) && t.commits == s.commits + [Commit(w, edit)]
            && Encode(lib, edit, s.file.text) == Some(t.file.text)
  {
    assert s.writers[w].at.Renaming?;
  }

  /** The file changes only when the lock holder renames, to its encoding of the
      very text that was there. Nothing else, failing or killed, touches it. */
  lemma OnlyCommitsChange(lib: Library, run: seq<Store>, actions: seq<Action>, i: nat)
    requires IsRun(lib, run, actions) && i < |actions|
    requires run[i + 1].file != run[i].file || run[i + 1].commits != run[i].commits
    ensures actions[i].Advance? && run[i].lock == Some(actions[i].w) && actions[i].w in run[i].writers
    ensures var edit := run[i].writers[actions[i].w].edit;
            && run[i + 1].commits == run[i].commits + [Commit(actions[i].w, edit)]
            && Encode(lib, edit, run[i].file.text) == Some(run[i + 1].file.text)
  {
    InvRun(lib, run, actions, i);
    assert run[i + 1] == Perform(lib, run[i], actions[i]);
    match actions[i]
    case Advance(w, ok, inode) => if w in run[i].writers { RenameCommits(lib, run[i], w, ok, inode); }
    case Call(_, _, _) =>
    case Kill(_) =>
  }

  /** The last committed edit of a section. */
  function Last(commits: seq<Commit>, section: string): Option<Edit> {
    if commits == [] then None
    else if SectionOf(commits[|commits| - 1].edit) == section then Some(commits[|commits| - 1].edit)
    else Last(commits[..|commits| - 1], section)
  }

  predicate Reflects(v: Json, first: Json, commits: seq<Commit>, section: string, key: string) {
    Field(v, section, key) ==
      match Last(commits, section)
      case None => Field(first, section, key)
      case Some(edit) => Some(ValueOf(edit))
  }

  lemma {:induction false} ReplayReflects(lib: Library, first: string, commits: seq<Commit>)
    requires Faithful(lib) && Replay(lib, first, commits).Some? && lib.parse(first).Some?
    ensures var text := Replay(lib, first, commits).value;
            && lib.parse(text).Some?
            && Reflects(lib.parse(text).value, lib.parse(first).value, commits, "processing", "mode")
            && Reflects(lib.parse(text).value, lib.parse(first).value, commits, "output", "method")
            && forall s, k :: (s, k) != ("processing", "mode") && (s, k) != ("output", "method")
                 ==> Field(lib.parse(text).value, s, k) == Field(lib.parse(first).value, s, k)
  {
    if commits != [] {
      var before, last := commits[..|commits| - 1], commits[|commits| - 1];
      ReplayReflects(lib, first, before);
      EncodeSetsOneField(lib, last.edit, Replay(lib, first, before).value);
    }
  }

  /** The file says what the last committed edit of each kind asked for, and every
      other field of every section is what it was before the first. */
  lemma LastEditsHold(lib: Library, run: seq<Store>, actions: seq<Action>, i: nat)
    requires IsRun(lib, run, actions) && i < |run| && Faithful(lib) && lib.parse(run[0].file.text).Some?
    ensures lib.parse(run[i].file.text).Some?
    ensures var v, first := lib.parse(run[i].file.text).value, lib.parse(run[0].file.text).value;
            && Reflects(v, first, run[i].commits, "processing", "mode")
            && Reflects(v, first, run[i].commits, "output", "method")
            && forall s, k :: (s, k) != ("processing", "mode") && (s, k) != ("output", "method")
                 ==> Field(v, s, k) == Field(first, s, k)
  {
    InvRun(lib, run, actions, i);
    ReplayReflects(lib, run[0].file.text, run[i].commits);
  }

  /** At most one writer is between taking the lock and leaving, and its copy of
      the file is current from the first check to the rename. */
  lemma OneWriterInside(lib: Library, run: seq<Store>, actions: seq<Action>, i: nat, w: nat, v: nat)
    requires IsRun(lib, run, actions) && i < |run| && w in run[i].writers && v in run[i].writers
    requires Holds(run[i].writers[w].at) && Holds(run[i].writers[v].at)
    ensures w == v
    ensures run[i].writers[w].at.Renaming? ==> run[i].writers[w].at.source == run[i].file
  {
    InvRun(lib, run, actions, i);
  }
}
