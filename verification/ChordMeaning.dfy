/** Exactly which texts are chords, said without the parser: by the table of modifier
    names and the one of keys. */
module ChordMeaning {
  import opened Options
  import opened Chord
  import opened ChordKeys

  /** Every name a modifier goes by. */
  const SYNONYMS: map<string, Modifier> := map[
    "CTRL" := Control, "CONTROL" := Control,
    "ALT" := Alternate, "OPTION" := Alternate, "OPT" := Alternate,
    "SHIFT" := Shift,
    "SUPER" := Command, "WIN" := Command, "MOD4" := Command, "CMD" := Command, "COMMAND" := Command]

  /** The table has every name and no other word. */
  ghost predicate Tabulates(table: map<string, Modifier>) {
    forall word: string :: ModifierOf(word) == if word in table then Some(table[word]) else None
  }

  lemma SynonymsTabulate()
    ensures Tabulates(SYNONYMS)
  {}

  /** The first n words name modifiers, no two the same. */
  ghost predicate Naming(words: seq<string>, n: nat, table: map<string, Modifier>)
    requires n <= |words|
  {
    && (forall i :: 0 <= i < n ==> words[i] in table)
    && (forall i, j :: 0 <= i < j < n ==> table[words[i]] != table[words[j]])
  }

  /** The modifiers they name. */
  function Named(words: seq<string>, n: nat, table: map<string, Modifier>): set<Modifier>
    requires n <= |words|
  {
    set i | 0 <= i < n && words[i] in table :: table[words[i]]
  }

  lemma {:induction false} NamesCollect(words: seq<string>, n: nat, table: map<string, Modifier>)
    requires Tabulates(table) && n <= |words| && Naming(words, n, table)
    ensures Collected(Marks(words), n, Named(words, n, table))
  {
    if n > 0 {
      NamesCollect(words, n - 1, table);
      var m := table[words[n - 1]];
      assert Marks(words)[n - 1] == Some(m);
      OneMoreNamed(words, n - 1, table);
      CollectsOne(Marks(words), n - 1, Named(words, n - 1, table), m);
    }
  }

  lemma OneMoreNamed(words: seq<string>, n: nat, table: map<string, Modifier>)
    requires n < |words| && Naming(words, n + 1, table)
    ensures Named(words, n + 1, table) == Named(words, n, table) + {table[words[n]]}
    ensures table[words[n]] !in Named(words, n, table)
  {}

  /** Whatever was collected are distinct names. */
  lemma {:induction false} CollectedNames(words: seq<string>, n: nat, table: map<string, Modifier>)
    requires Tabulates(table) && n <= |words| && None !in multiset(Marks(words)[..n])
    requires forall m: Modifier :: multiset(Marks(words)[..n])[Some(m)] <= 1
    ensures Naming(words, n, table)
  {
    if n > 0 {
      var marks := Marks(words);
      OneMoreMark(marks, n - 1);
      CollectedNames(words, n - 1, table);
      assert marks[n - 1] in multiset(marks[..n]);
      forall i | 0 <= i < n - 1 ensures table[words[i]] != table[words[n - 1]] {
        assert marks[..n - 1][i] in multiset(marks[..n - 1]);
      }
    }
  }

  lemma NamesRead(words: seq<string>, keys: map<string, nat>, table: map<string, Modifier>)
    requires Tabulates(table) && |words| > 0 && Naming(words, |words| - 1, table)
    ensures var modifiers, key := Named(words, |words| - 1, table), words[|words| - 1];
            Read(words, keys) ==
              if key in keys && Allowed(modifiers, key) then Some(ShortcutChord(modifiers, key)) else None
  {
    var n := |words| - 1;
    NamesCollect(words, n, table);
    ReadsAs(Marks(words), words[n], keys, Named(words, n, table));
  }

  lemma NothingRead(words: seq<string>, keys: map<string, nat>, table: map<string, Modifier>)
    requires Tabulates(table) && |words| > 0 && !Naming(words, |words| - 1, table)
    ensures Read(words, keys) == None
  {
    if Read(words, keys).Some? { CollectedNames(words, |words| - 1, table); }
  }

  /** What keeps a chord from capturing typing. */
  predicate Guarded(c: ShortcutChord) {
    c.modifiers * {Command, Control} != {} || (c.modifiers == {} && c.key in FUNCTION_KEYS)
  }

  lemma FunctionKeysAre(key: string)
    requires key in KEY_CODES
    ensures IsFunctionKey(key) <==> key in FUNCTION_KEYS
  {
    if key in FUNCTION_KEYS { FunctionNames(key); } else { OtherNames(key); }
  }

  lemma FunctionNames(key: string)
    requires key in FUNCTION_KEYS
    ensures IsFunctionKey(key)
  {}

  lemma OtherNames(key: string)
    requires key in KEY_CODES && key !in FUNCTION_KEYS
    ensures !IsFunctionKey(key)
  {
    if key in LETTERS { LetterNames(key); }
    else if key in DIGITS { DigitNames(key); }
    else if key in BRACKETS || key in PUNCTUATION { PunctuationNames(key); }
    else if key in EDITING_KEYS { EditingNames(key); }
    else { NavigationNames(key); }
  }

  lemma LetterNames(key: string)
    requires key in LETTERS
    ensures |key| == 1
  {}

  lemma DigitNames(key: string)
    requires key in DIGITS
    ensures |key| == 1
  {}

  lemma PunctuationNames(key: string)
    requires key in BRACKETS || key in PUNCTUATION
    ensures key[0] != 'F'
  {}

  lemma EditingNames(key: string)
    requires key in EDITING_KEYS
    ensures key[0] != 'F'
  {}

  lemma NavigationNames(key: string)
    requires key in NAVIGATION_KEYS
    ensures key[0] != 'F'
  {}

  lemma AllowedIs(c: ShortcutChord)
    requires c.key in KEY_CODES
    ensures Allowed(c.modifiers, c.key) <==> Guarded(c)
  {
    FunctionKeysAre(c.key);
    if Command in c.modifiers { assert Command in c.modifiers * {Command, Control}; }
    if Control in c.modifiers { assert Control in c.modifiers * {Command, Control}; }
  }

  /** A text means a chord exactly if its words name the chord's modifiers, each once
      and by any name, and then its key, and either Command or Control is held or
      nothing but a function key is. */
  lemma MeaningIff(value: string, c: ShortcutChord)
    ensures var words := Words(value);
            Meaning(value, KEY_CODES) == Some(c) <==>
              && Naming(words, |words| - 1, SYNONYMS) && c.modifiers == Named(words, |words| - 1, SYNONYMS)
              && c.key == words[|words| - 1] && c.key in KEY_CODES && Guarded(c)
  {
    var words := Words(value);
    SynonymsTabulate();
    if Naming(words, |words| - 1, SYNONYMS) {
      NamesRead(words, KEY_CODES, SYNONYMS);
    } else {
      NothingRead(words, KEY_CODES, SYNONYMS);
    }
    if c.key in KEY_CODES { AllowedIs(c); }
  }

  /** A name with its plus sign, if the modifier is held. */
  function Prefix(modifiers: set<Modifier>, m: Modifier, name: string): string {
    if m in modifiers then name + "+" else ""
  }

  lemma JoinMore(first: seq<string>, rest: seq<string>)
    requires |first| <= 1 && |rest| > 0
    ensures Join(first + rest) == (if first == [] then "" else first[0] + "+") + Join(rest)
  {
    if first == [] {
      assert first + rest == rest && "" + Join(rest) == Join(rest);
    } else {
      assert (first + rest)[1..] == rest;
    }
  }

  /** The canonical form has the held modifiers in a fixed order, and then the key. */
  lemma CanonicalIs(c: ShortcutChord)
    ensures Canonical(c) ==
              Prefix(c.modifiers, Command, "SUPER") + (Prefix(c.modifiers, Control, "CTRL") +
                (Prefix(c.modifiers, Alternate, "ALT") + (Prefix(c.modifiers, Shift, "SHIFT") + c.key)))
  {
    var a, b := if Command in c.modifiers then ["SUPER"] else [], if Control in c.modifiers then ["CTRL"] else [];
    var d, e := if Alternate in c.modifiers then ["ALT"] else [], if Shift in c.modifiers then ["SHIFT"] else [];
    assert Names(c.modifiers) + [c.key] == a + (b + (d + (e + [c.key])));
    JoinMore(e, [c.key]);
    JoinMore(d, e + [c.key]);
    JoinMore(b, d + (e + [c.key]));
    JoinMore(a, b + (d + (e + [c.key])));
  }
}
