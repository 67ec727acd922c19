/** Printing and parsing chords are inverse, and what parsing ignores. */
module ChordTheorems {
  import opened Options
  import opened Chord

  lemma MeaningIsChord(value: string, keys: map<string, nat>)
    ensures Meaning(value, keys).Some? ==> IsChord(Meaning(value, keys).value, keys)
  {}

  /** A part the splitter and the trimmer leave alone. */
  predicate Plain(s: string) {
    |s| > 0 && Upper(s) == s && forall c :: c in s ==> c != '+' && c !in OUTER_BLANKS
  }

  lemma {:induction false} SplitPart(s: string, rest: string)
    requires '+' !in s
    ensures Split(s + "+" + rest) == [s] + Split(rest)
    ensures Split(s) == [s]
  {
    var t := s + "+" + rest;
    if s != "" {
      SplitPart(s[1..], rest);
      assert t[1..] == s[1..] + "+" + rest;
      assert [s[0]] + s[1..] == s;
    } else {
      assert t[1..] == rest;
    }
  }

  lemma {:induction false} SplitJoin(parts: seq<string>)
    requires |parts| > 0 && forall p :: p in parts ==> '+' !in p
    ensures Split(Join(parts)) == parts
  {
    assert parts[0] in parts;
    if |parts| == 1 {
      SplitPart(parts[0], "");
    } else {
      SplitJoin(parts[1..]);
      SplitPart(parts[0], Join(parts[1..]));
    }
  }

  lemma TrimPlain(s: string, blanks: set<char>)
    requires |s| > 0 && s[0] !in blanks && s[|s| - 1] !in blanks
    ensures Trim(s, blanks) == s
  {}

  lemma {:induction false} JoinEnds(parts: seq<string>)
    requires |parts| > 0 && forall p :: p in parts ==> Plain(p)
    ensures var s := Join(parts); |s| > 0 && s[0] !in OUTER_BLANKS && s[|s| - 1] !in OUTER_BLANKS
  {
    assert Plain(parts[0]);
    if |parts| > 1 {
      JoinEnds(parts[1..]);
    } else {
      var p := parts[0];
      assert p[0] in p && p[|p| - 1] in p;
    }
    var p := parts[0];
    assert p[0] in p;
  }

  lemma WordsOfPlain(parts: seq<string>)
    requires |parts| > 0 && forall p :: p in parts ==> Plain(p)
    ensures Words(Join(parts)) == parts
  {
    JoinEnds(parts);
    TrimPlain(Join(parts), OUTER_BLANKS);
    SplitJoin(parts);
    forall i | 0 <= i < |parts| ensures Upper(Trim(parts[i], BLANKS)) == parts[i] {
      var p := parts[i];
      assert Plain(p) && p[0] in p && p[|p| - 1] in p;
      TrimPlain(p, BLANKS);
    }
  }

  lemma NamesArePlain(modifiers: set<Modifier>)
    ensures forall p :: p in Names(modifiers) ==> Plain(p)
  {
    assert Plain("SUPER");
    assert Plain("CTRL");
    assert Plain("ALT");
    assert Plain("SHIFT");
  }

  lemma KeyIsPlain(key: string, keys: map<string, nat>)
    requires PlainKeys(keys) && key in keys
    ensures Plain(key)
  {
    forall c | c in key ensures c != '+' && c !in OUTER_BLANKS { assert SafeChar(c); }
  }

  function ModifiersOf(words: seq<string>): multiset<Option<Modifier>> {
    multiset(Marks(words))
  }

  lemma MarksOfPrefix(words: seq<string>, n: nat)
    requires n <= |words|
    ensures multiset(Marks(words)[..n]) == ModifiersOf(words[..n])
  {
    assert Marks(words)[..n] == Marks(words[..n]);
  }

  lemma ModifiersConcat(a: seq<string>, b: seq<string>)
    ensures ModifiersOf(a + b) == ModifiersOf(a) + ModifiersOf(b)
  {
    assert Marks(a + b) == Marks(a) + Marks(b);
  }

  lemma OneName(m: Modifier)
    ensures ModifiersOf([Name(m)]) == multiset{Some(m)}
  {
    assert Marks([Name(m)]) == [Some(m)];
  }

  function NameIf(modifiers: set<Modifier>, m: Modifier): seq<string> {
    if m in modifiers then [Name(m)] else []
  }

  function Once(modifiers: set<Modifier>, m: Modifier): multiset<Option<Modifier>> {
    if m in modifiers then multiset{Some(m)} else multiset{}
  }

  lemma NamedOnce(modifiers: set<Modifier>, m: Modifier)
    ensures ModifiersOf(NameIf(modifiers, m)) == Once(modifiers, m)
  {
    OneName(m);
  }

  /** The printed names stand for the modifiers, each once. */
  lemma NamesStandFor(modifiers: set<Modifier>)
    ensures ModifiersOf(Names(modifiers))
         == Once(modifiers, Command) + Once(modifiers, Control) + Once(modifiers, Alternate) + Once(modifiers, Shift)
  {
    var a, b := NameIf(modifiers, Command), NameIf(modifiers, Control);
    var c, d := NameIf(modifiers, Alternate), NameIf(modifiers, Shift);
    assert Names(modifiers) == a + b + c + d;
    ModifiersConcat(a, b);
    ModifiersConcat(a + b, c);
    ModifiersConcat(a + b + c, d);
    NamedOnce(modifiers, Command);
    NamedOnce(modifiers, Control);
    NamedOnce(modifiers, Alternate);
    NamedOnce(modifiers, Shift);
  }

  lemma NamesAreExact(modifiers: set<Modifier>)
    ensures None !in ModifiersOf(Names(modifiers))
    ensures forall m: Modifier :: ModifiersOf(Names(modifiers))[Some(m)] == if m in modifiers then 1 else 0
  {
    NamesStandFor(modifiers);
    forall m: Modifier ensures ModifiersOf(Names(modifiers))[Some(m)] == if m in modifiers then 1 else 0 {
      match m
      case Command =>
      case Control =>
      case Alternate =>
      case Shift =>
    }
  }

  /** Parsing the canonical form of a chord gives the chord back. */
  lemma CanonicalRoundTrip(c: ShortcutChord, keys: map<string, nat>)
    requires PlainKeys(keys) && IsChord(c, keys)
    ensures Meaning(Canonical(c), keys) == Some(c)
  {
    var parts := Names(c.modifiers) + [c.key];
    NamesArePlain(c.modifiers);
    KeyIsPlain(c.key, keys);
    WordsOfPlain(parts);
    assert parts[..|parts| - 1] == Names(c.modifiers);
    MarksOfPrefix(parts, |parts| - 1);
    NamesAreExact(c.modifiers);
    ReadsAs(Marks(parts), c.key, keys, c.modifiers);
  }

  /** The canonical form of what was parsed means the same; and no two chords share
      a canonical form. */
  lemma CanonicalIsStable(value: string, keys: map<string, nat>)
    requires PlainKeys(keys)
    ensures Meaning(value, keys).Some? ==> Meaning(Canonical(Meaning(value, keys).value), keys) == Meaning(value, keys)
  {
    MeaningIsChord(value, keys);
    if Meaning(value, keys).Some? { CanonicalRoundTrip(Meaning(value, keys).value, keys); }
  }

  lemma CanonicalIsInjective(c: ShortcutChord, d: ShortcutChord, keys: map<string, nat>)
    requires PlainKeys(keys) && IsChord(c, keys) && IsChord(d, keys) && Canonical(c) == Canonical(d)
    ensures c == d
  {
    CanonicalRoundTrip(c, keys);
    CanonicalRoundTrip(d, keys);
  }

  /** Only which modifiers are named matters, not their order or the names used. */
  lemma OrderAndNamesDoNotMatter(names: seq<string>, others: seq<string>, key: string, keys: map<string, nat>)
    requires forall p :: p in names + others + [key] ==> Plain(p)
    requires ModifiersOf(names) == ModifiersOf(others)
    ensures Meaning(Join(names + [key]), keys) == Meaning(Join(others + [key]), keys)
  {
    var a, b := names + [key], others + [key];
    WordsOfPlain(a);
    WordsOfPlain(b);
    assert a[..|a| - 1] == names && b[..|b| - 1] == others;
    MarksOfPrefix(a, |a| - 1);
    MarksOfPrefix(b, |b| - 1);
  }

  lemma {:induction false} TrimLeftUpper(s: string, blanks: set<char>)
    requires blanks == BLANKS || blanks == OUTER_BLANKS
    ensures TrimLeft(Upper(s), blanks) == Upper(TrimLeft(s, blanks))
  {
    if s != "" {
      assert Upper(s)[1..] == Upper(s[1..]);
      TrimLeftUpper(s[1..], blanks);
    }
  }

  lemma {:induction false} TrimRightUpper(s: string, blanks: set<char>)
    requires blanks == BLANKS || blanks == OUTER_BLANKS
    ensures TrimRight(Upper(s), blanks) == Upper(TrimRight(s, blanks))
  {
    if s != "" {
      assert Upper(s)[..|s| - 1] == Upper(s[..|s| - 1]);
      TrimRightUpper(s[..|s| - 1], blanks);
    }
  }

  lemma {:induction false} SplitUpper(s: string)
    ensures |Split(Upper(s))| == |Split(s)|
    ensures forall i :: 0 <= i < |Split(s)| ==> Split(Upper(s))[i] == Upper(Split(s)[i])
  {
    if s != "" {
      assert Upper(s)[1..] == Upper(s[1..]);
      SplitUpper(s[1..]);
    }
  }

  lemma UpperTwice(s: string)
    ensures Upper(Upper(s)) == Upper(s)
  {}

  lemma WordsUpper(v: string)
    ensures Words(Upper(v)) == Words(v)
  {
    TrimLeftUpper(v, OUTER_BLANKS);
    TrimRightUpper(TrimLeft(v, OUTER_BLANKS), OUTER_BLANKS);
    var trimmed := Trim(v, OUTER_BLANKS);
    SplitUpper(trimmed);
    var parts := Split(trimmed);
    forall i | 0 <= i < |parts| ensures Upper(Trim(Upper(parts[i]), BLANKS)) == Upper(Trim(parts[i], BLANKS)) {
      TrimLeftUpper(parts[i], BLANKS);
      TrimRightUpper(TrimLeft(parts[i], BLANKS), BLANKS);
      UpperTwice(Trim(parts[i], BLANKS));
    }
  }

  /** Letter case does not matter. */
  lemma CaseDoesNotMatter(v: string, w: string, keys: map<string, nat>)
    requires Upper(v) == Upper(w)
    ensures Meaning(v, keys) == Meaning(w, keys)
  {
    WordsUpper(v);
    WordsUpper(w);
  }

  predicate Blank(s: string, blanks: set<char>) {
    forall c :: c in s ==> c in blanks
  }

  lemma {:induction false} TrimLeftPast(l: string, s: string, blanks: set<char>)
    requires Blank(l, blanks)
    ensures TrimLeft(l + s, blanks) == TrimLeft(s, blanks)
  {
    if l == "" {
      assert l + s == s;
    } else {
      assert l[0] in l && (l + s)[1..] == l[1..] + s;
      TrimLeftPast(l[1..], s, blanks);
    }
  }

  lemma {:induction false} TrimRightPast(s: string, r: string, blanks: set<char>)
    requires Blank(r, blanks)
    ensures TrimRight(s + r, blanks) == TrimRight(s, blanks)
  {
    if r == "" {
      assert s + r == s;
    } else {
      assert r[|r| - 1] in r && (s + r)[..|s + r| - 1] == s + r[..|r| - 1];
      TrimRightPast(s, r[..|r| - 1], blanks);
    }
  }

  lemma {:induction false} TrimLeftBefore(s: string, t: string, blanks: set<char>)
    ensures TrimLeft(s + t, blanks)
         == if TrimLeft(s, blanks) != "" then TrimLeft(s, blanks) + t else TrimLeft(t, blanks)
  {
    if s == "" {
      assert s + t == t;
    } else if s[0] in blanks {
      assert (s + t)[1..] == s[1..] + t;
      TrimLeftBefore(s[1..], t, blanks);
    }
  }

  lemma {:induction false} TrimRightAfter(s: string, t: string, blanks: set<char>)
    ensures TrimRight(s + t, blanks)
         == if TrimRight(t, blanks) != "" then s + TrimRight(t, blanks) else TrimRight(s, blanks)
  {
    if t == "" {
      assert s + t == s;
    } else if t[|t| - 1] in blanks {
      assert (s + t)[..|s + t| - 1] == s + t[..|t| - 1];
      TrimRightAfter(s, t[..|t| - 1], blanks);
    }
  }

  lemma TrimPast(l: string, s: string, r: string, blanks: set<char>)
    requires Blank(l, blanks) && Blank(r, blanks)
    ensures Trim(l + s + r, blanks) == Trim(s, blanks)
  {
    assert l + s + r == l + (s + r);
    TrimLeftPast(l, s + r, blanks);
    TrimLeftBefore(s, r, blanks);
    TrimLeftPast(r, "", blanks);
    assert r + "" == r;
    TrimRightPast(TrimLeft(s, blanks), r, blanks);
  }

  /** Blanks around the text do not matter. */
  lemma OuterBlanksDoNotMatter(l: string, v: string, r: string, keys: map<string, nat>)
    requires Blank(l, OUTER_BLANKS) && Blank(r, OUTER_BLANKS)
    ensures Meaning(l + v + r, keys) == Meaning(v, keys)
  {
    TrimPast(l, v, r, OUTER_BLANKS);
  }

  lemma {:induction false} SplitConcat(s: string, t: string)
    ensures Split(s + "+" + t) == Split(s) + Split(t)
  {
    if s == "" {
      assert s + "+" + t == "+" + t && ("+" + t)[1..] == t;
    } else {
      assert (s + "+" + t)[1..] == s[1..] + "+" + t;
      SplitConcat(s[1..], t);
    }
  }

  /** More text lengthens the last part, text before lengthens the first. */
  function LengthenLast(parts: seq<string>, l: string): seq<string>
    requires |parts| > 0
  {
    parts[|parts| - 1 := parts[|parts| - 1] + l]
  }

  lemma SplitStep(s: string)
    requires s != ""
    ensures var rest := Split(s[1..]);
            Split(s) == if s[0] == '+' then [[]] + rest else [[s[0]] + rest[0]] + rest[1..]
  {}

  lemma {:induction false} SplitBlanksAfter(s: string, l: string)
    requires '+' !in l
    ensures Split(s + l) == LengthenLast(Split(s), l)
  {
    if s == "" {
      assert s + l == l && "" + l == l;
      SplitPart(l, "");
    } else {
      assert (s + l)[1..] == s[1..] + l && (s + l)[0] == s[0];
      SplitStep(s + l);
      SplitStep(s);
      SplitBlanksAfter(s[1..], l);
      var rest := Split(s[1..]);
      assert [s[0]] + (rest[0] + l) == ([s[0]] + rest[0]) + l;
    }
  }

  lemma {:induction false} SplitBlanksBefore(r: string, s: string)
    requires '+' !in r
    ensures Split(r + s) == [r + Split(s)[0]] + Split(s)[1..]
  {
    if r == "" {
      assert r + s == s && r + Split(s)[0] == Split(s)[0];
    } else {
      assert r[0] in r && (r + s)[1..] == r[1..] + s;
      SplitBlanksBefore(r[1..], s);
      assert [r[0]] + (r[1..] + Split(s)[0]) == r + Split(s)[0];
    }
  }

  lemma TrimAroundPlus(a: string, b: string)
    ensures Trim(a + "+" + b, OUTER_BLANKS) == TrimLeft(a, OUTER_BLANKS) + "+" + TrimRight(b, OUTER_BLANKS)
  {
    var plus := "+" + b;
    assert a + "+" + b == a + plus;
    TrimLeftBefore(a, plus, OUTER_BLANKS);
    var left := TrimLeft(a, OUTER_BLANKS) + "+";
    assert TrimLeft(a + plus, OUTER_BLANKS) == left + b;
    TrimRightAfter(left, b, OUTER_BLANKS);
  }

  function TrimParts(parts: seq<string>): seq<string> {
    seq(|parts|, i requires 0 <= i < |parts| => Upper(Trim(parts[i], BLANKS)))
  }

  lemma TrimPartsConcat(a: seq<string>, b: seq<string>)
    ensures TrimParts(a + b) == TrimParts(a) + TrimParts(b)
  {}

  lemma LastWordTrims(init: seq<string>, last: string, l: string)
    requires Blank(l, BLANKS)
    ensures TrimParts(init + [last + l]) == TrimParts(init + [last])
  {
    assert "" + last + l == last + l;
    TrimPast("", last, l, BLANKS);
    TrimPartsConcat(init, [last]);
    TrimPartsConcat(init, [last + l]);
    assert TrimParts([last + l]) == TrimParts([last]);
  }

  lemma FirstWordTrims(r: string, first: string, rest: seq<string>)
    requires Blank(r, BLANKS)
    ensures TrimParts([r + first] + rest) == TrimParts([first] + rest)
  {
    assert r + first + "" == r + first;
    TrimPast(r, first, "", BLANKS);
    TrimPartsConcat([first], rest);
    TrimPartsConcat([r + first], rest);
    assert TrimParts([r + first]) == TrimParts([first]);
  }

  lemma LastPartTrims(p: string, l: string)
    requires Blank(l, BLANKS)
    ensures TrimParts(Split(p + l)) == TrimParts(Split(p))
  {
    SplitBlanksAfter(p, l);
    var parts := Split(p);
    LastWordTrims(parts[..|parts| - 1], parts[|parts| - 1], l);
    assert LengthenLast(parts, l) == parts[..|parts| - 1] + [parts[|parts| - 1] + l];
    assert parts == parts[..|parts| - 1] + [parts[|parts| - 1]];
  }

  lemma FirstPartTrims(r: string, q: string)
    requires Blank(r, BLANKS)
    ensures TrimParts(Split(r + q)) == TrimParts(Split(q))
  {
    SplitBlanksBefore(r, q);
    var parts := Split(q);
    FirstWordTrims(r, parts[0], parts[1..]);
    assert parts == [parts[0]] + parts[1..];
  }

  lemma BlanksBeforePlus(a: string, l: string)
    requires Blank(l, BLANKS)
    ensures TrimParts(Split(TrimLeft(a + l, OUTER_BLANKS))) == TrimParts(Split(TrimLeft(a, OUTER_BLANKS)))
  {
    TrimLeftBefore(a, l, OUTER_BLANKS);
    TrimLeftPast(l, "", OUTER_BLANKS);
    assert l + "" == l;
    LastPartTrims(TrimLeft(a, OUTER_BLANKS), l);
  }

  lemma BlanksAfterPlus(r: string, b: string)
    requires Blank(r, BLANKS)
    ensures TrimParts(Split(TrimRight(r + b, OUTER_BLANKS))) == TrimParts(Split(TrimRight(b, OUTER_BLANKS)))
  {
    TrimRightAfter(r, b, OUTER_BLANKS);
    TrimRightPast("", r, OUTER_BLANKS);
    assert "" + r == r;
    FirstPartTrims(r, TrimRight(b, OUTER_BLANKS));
  }

  /** Blanks around a plus sign do not matter. */
  lemma InnerBlanksDoNotMatter(a: string, l: string, r: string, b: string, keys: map<string, nat>)
    requires Blank(l, BLANKS) && Blank(r, BLANKS)
    ensures Meaning((a + l) + "+" + (r + b), keys) == Meaning(a + "+" + b, keys)
  {
    BlanksBeforePlus(a, l);
    BlanksAfterPlus(r, b);
    WordsAround(a, b);
    WordsAround(a + l, r + b);
  }

  lemma WordsAround(a: string, b: string)
    ensures Words(a + "+" + b)
         == TrimParts(Split(TrimLeft(a, OUTER_BLANKS))) + TrimParts(Split(TrimRight(b, OUTER_BLANKS)))
  {
    TrimAroundPlus(a, b);
    SplitConcat(TrimLeft(a, OUTER_BLANKS), TrimRight(b, OUTER_BLANKS));
  }
}
