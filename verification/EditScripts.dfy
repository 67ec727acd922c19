/** Edit scripts between two token sequences: what the two-row table of
    `edit_distance` is claimed to minimise over. */
module EditScripts {
  datatype Edit<T> = Keep(token: T) | Substitute(from: T, to: T) | Delete(token: T) | Insert(token: T)

  datatype Script<T> = Empty | Then(before: Script<T>, last: Edit<T>)

  function Price<T>(e: Edit<T>): nat {
    if e.Keep? then 0 else 1
  }

  function Cost<T>(s: Script<T>): nat {
    if s.Empty? then 0 else Cost(s.before) + Price(s.last)
  }

  /** The tokens an edit consumes and the tokens it produces. */
  function Consumes<T>(e: Edit<T>): seq<T> {
    match e
    case Keep(x) => [x]
    case Substitute(x, _) => [x]
    case Delete(x) => [x]
    case Insert(_) => []
  }

  function Produces<T>(e: Edit<T>): seq<T> {
    match e
    case Keep(x) => [x]
    case Substitute(_, y) => [y]
    case Delete(_) => []
    case Insert(y) => [y]
  }

  function Source<T>(s: Script<T>): seq<T> {
    if s.Empty? then [] else Source(s.before) + Consumes(s.last)
  }

  function Target<T>(s: Script<T>): seq<T> {
    if s.Empty? then [] else Target(s.before) + Produces(s.last)
  }

  predicate Rewrites<T(==)>(s: Script<T>, a: seq<T>, b: seq<T>) {
    Source(s) == a && Target(s) == b
  }

  /** `d` is the least cost of rewriting `a` into `b`. */
  ghost predicate IsLeastCost<T(!new)>(d: nat, a: seq<T>, b: seq<T>) {
    && (exists s: Script<T> :: Rewrites(s, a, b) && Cost(s) == d)
    && (forall s: Script<T> :: Rewrites(s, a, b) ==> d <= Cost(s))
  }

  /** Running one script after another on adjacent texts. */
  function Append<T>(s: Script<T>, t: Script<T>): Script<T> {
    if t.Empty? then s else Then(Append(s, t.before), t.last)
  }

  lemma Associates<T>(a: seq<T>, b: seq<T>, c: seq<T>)
    ensures (a + b) + c == a + (b + c)
  {}

  lemma {:induction false} AppendRewrites<T>(s: Script<T>, t: Script<T>)
    ensures Rewrites(Append(s, t), Source(s) + Source(t), Target(s) + Target(t))
    ensures Cost(Append(s, t)) == Cost(s) + Cost(t)
  {
    if t.Then? {
      AppendRewrites(s, t.before);
      Associates(Source(s), Source(t.before), Consumes(t.last));
      Associates(Target(s), Target(t.before), Produces(t.last));
    }
  }

  /** The script backwards: deletions become insertions. */
  function Inverse<T>(s: Script<T>): Script<T> {
    match s
    case Empty => Empty
    case Then(before, Keep(x)) => Then(Inverse(before), Keep(x))
    case Then(before, Substitute(x, y)) => Then(Inverse(before), Substitute(y, x))
    case Then(before, Delete(x)) => Then(Inverse(before), Insert(x))
    case Then(before, Insert(y)) => Then(Inverse(before), Delete(y))
  }

  lemma {:induction false} InverseRewrites<T>(s: Script<T>)
    ensures Rewrites(Inverse(s), Target(s), Source(s)) && Cost(Inverse(s)) == Cost(s)
  {
    if s.Then? { InverseRewrites(s.before); }
  }

  /** The script that does what `s` and then `t` do, edit by edit from the end. */
  function Compose<T>(s: Script<T>, t: Script<T>): Script<T> {
    if t.Then? && t.last.Insert? then Then(Compose(s, t.before), t.last)
    else if s.Then? && s.last.Delete? then Then(Compose(s.before, t), s.last)
    else if s.Empty? || t.Empty? then Empty
    else
      var rest := Compose(s.before, t.before);
      match (s.last, t.last)
      case (Keep(_), f) => Then(rest, f)
      case (e, Keep(_)) => Then(rest, e)
      case (Substitute(x, _), Substitute(_, z)) => Then(rest, Substitute(x, z))
      case (Substitute(x, _), Delete(_)) => Then(rest, Delete(x))
      case (Insert(_), Substitute(_, z)) => Then(rest, Insert(z))
      case (_, _) => rest
  }

  /** A script that ends by touching the middle text ends on the last token of it. */
  lemma SameMiddle<T>(s: Script<T>, t: Script<T>)
    requires s.Then? && t.Then? && !s.last.Delete? && !t.last.Insert? && Target(s) == Source(t)
    ensures Target(s.before) == Source(t.before) && Produces(s.last) == Consumes(t.last)
  {
    var m := Target(s);
    assert Produces(s.last) == [m[|m| - 1]] == Consumes(t.last);
    assert Target(s.before) == m[..|m| - 1] == Source(t.before);
  }

  lemma {:induction false} ComposeRewrites<T>(s: Script<T>, t: Script<T>)
    requires Target(s) == Source(t)
    ensures Rewrites(Compose(s, t), Source(s), Target(t))
    ensures Cost(Compose(s, t)) <= Cost(s) + Cost(t)
  {
    if t.Then? && t.last.Insert? {
      assert Source(t) == Source(t.before);
      ComposeRewrites(s, t.before);
    } else if s.Then? && s.last.Delete? {
      assert Target(s) == Target(s.before);
      ComposeRewrites(s.before, t);
    } else if s.Then? && t.Then? {
      SameMiddle(s, t);
      ComposeRewrites(s.before, t.before);
    }
  }
}
