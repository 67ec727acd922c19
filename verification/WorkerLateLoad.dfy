/** What counts as early is when the reader loads the flag, not when it reads the
    byte: a byte read before output was allowed can still become the answer. */
module WorkerLateLoad {
  import opened Bytes
  import opened Options
  import opened Worker

  const X: Byte := 120

  lemma Do(s: Sys, a: Action) returns (t: Sys)
    requires Reachable(s) && Enabled(s, a)
    ensures t == Perform(s, a) && Reachable(t)
  {
    t := Perform(s, a);
    Reaches(s, a);
  }

  lemma Write(s: Sys, b: Byte) returns (t: Sys)
    requires Reachable(s) && Enabled(s, Emit(b))
    ensures t == s.(env := s.env.(pipe := s.env.pipe + [b])) && Reachable(t)
  {
    t := Do(s, Emit(b));
  }

  lemma ReaderDo(s: Sys) returns (t: Sys)
    requires Reachable(s) && Enabled(s, Reads(false))
    ensures t == ReaderStep(s, s.stream.reader, false) && Reachable(t)
  {
    t := Do(s, Reads(false));
  }

  lemma SendDo(s: Sys) returns (t: Sys)
    requires Reachable(s) && InSend(s.parent)
    ensures t == SendStep(s, s.parent, true) && Reachable(t)
  {
    t := Do(s, Proceeds(true));
  }

  lemma RecvDo(s: Sys) returns (t: Sys)
    requires Reachable(s) && InRecv(s.parent)
    ensures t == RecvStep(s, s.parent, true) && Reachable(t)
  {
    t := Do(s, Proceeds(true));
  }

  function S0(): Sys {
    Sys(Setup(false, false), Env([], false, false, false, false), false, false, None,
        Stream(Reader(Read, [], false), [], None, None, false, false), TryRecv, 0, Batch(false, false, 0))
  }

  function S1(): Sys {
    S0().(allowed := true, newlineSent := true, parent := RecvShutdown(false),
          stream := Stream(Reader(SendStarted(X), [], false), [X], None, None, false, true))
  }

  function S2(): Sys {
    S1().(parent := RecvShutdown(true), received := 1,
          stream := Stream(Reader(Read, [X], false), [X], Some(Started(false)), None, false, true))
  }

  function S3(): Sys {
    S2().(channel := Some(Frame([X], false)),
          stream := Stream(Reader(Read, [], false), [X, NEWLINE], Some(Started(false)), Some(Frame([X], false)), false, true))
  }

  /** The reader reads a byte; then output is allowed; then the reader looks. */
  lemma To1()
    ensures Reachable(S1())
  {
    InitialIsReachable(S0());
    var s := S0();
    s := Write(s, X);
    s := ReaderDo(s);
    s := SendDo(s);
    s := SendDo(s);
    s := SendDo(s);
    s := ReaderDo(s);
    s := SendDo(s);
    assert s == S1();
  }

  function Started1(): Sys {
    S2().(parent := RecvShutdown(false), received := 0, channel := Some(Started(false)))
  }

  lemma ToStarted()
    ensures Reachable(Started1())
  {
    To1();
    var s := S1();
    s := ReaderDo(s);
    s := ReaderDo(s);
    assert s == Started1();
  }

  lemma To2()
    ensures Reachable(S2())
  {
    ToStarted();
    var s := Started1();
    s := RecvDo(s);
    s := RecvDo(s);
    s := RecvDo(s);
    assert s == S2();
  }

  lemma To3()
    ensures Reachable(S3())
  {
    To2();
    var s := S2();
    s := Write(s, NEWLINE);
    s := ReaderDo(s);
    s := ReaderDo(s);
    s := ReaderDo(s);
    assert s == S3();
  }

  function S4(): Sys {
    S3().(channel := None, received := 2, parent := Decode([X]))
  }

  lemma To4()
    ensures Reachable(S4())
  {
    To3();
    var s := S3();
    s := RecvDo(s);
    s := RecvDo(s);
    s := RecvDo(s);
    assert s == S4();
  }

  lemma ReadEarlyCanBeAnswered()
    ensures exists run: seq<Sys>, actions: seq<Action> :: IsRun(run, actions) &&
              run[|run| - 1].stream.readEarly && run[|run| - 1].parent == Done(Streamed([X]))
  {
    To4();
    var s := RecvDo(S4());
    s := RecvDo(s);
    var run, actions :| IsRun(run, actions) && run[|run| - 1] == s;
  }
}
