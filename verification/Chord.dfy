/** Global shortcut chords: the text form, its parser and its canonical printer. */
module Chord {
  import opened Options

  datatype Modifier = Command | Control | Alternate | Shift

  datatype ShortcutChord = ShortcutChord(modifiers: set<Modifier>, key: string)

  const BLANKS: set<char> := {' ', '\t'}
  const OUTER_BLANKS: set<char> := {' ', '\t', '\r', '\n'}

  function UpperChar(c: char): char {
    if 'a' <= c <= 'z' then (c as int - 32) as char else c
  }

  function Upper(s: string): (u: string)
    ensures |u| == |s| && forall i :: 0 <= i < |s| ==> u[i] == UpperChar(s[i])
  {
    seq(|s|, i requires 0 <= i < |s| => UpperChar(s[i]))
  }

  function TrimLeft(s: string, blanks: set<char>): string {
    if s != [] && s[0] in blanks then TrimLeft(s[1..], blanks) else s
  }

  function TrimRight(s: string, blanks: set<char>): string {
    if s != [] && s[|s| - 1] in blanks then TrimRight(s[..|s| - 1], blanks) else s
  }

  function Trim(s: string, blanks: set<char>): string {
    TrimRight(TrimLeft(s, blanks), blanks)
  }

  /** The text between the plus signs, also where there is none. */
  function Split(s: string): (parts: seq<string>)
    ensures |parts| > 0
  {
    if s == [] then [[]]
    else
      var rest := Split(s[1..]);
      if s[0] == '+' then [[]] + rest else [[s[0]] + rest[0]] + rest[1..]
  }

  function Join(parts: seq<string>): string
    requires |parts| > 0
  {
    if |parts| == 1 then parts[0] else parts[0] + "+" + Join(parts[1..])
  }

  function ModifierOf(word: string): Option<Modifier> {
    if word == "CTRL" || word == "CONTROL" then Some(Control)
    else if word == "ALT" || word == "OPTION" || word == "OPT" then Some(Alternate)
    else if word == "SHIFT" then Some(Shift)
    else if word == "SUPER" || word == "WIN" || word == "MOD4" || word == "CMD" || word == "COMMAND" then Some(Command)
    else None
  }

  predicate SafeChar(c: char) {
    '0' <= c <= '9' || 'A' <= c <= 'Z' || 'a' <= c <= 'z' || c in {'-', '.', ':', '_'}
  }

  predicate SafeKey(s: string) {
    1 <= |s| <= 64 && forall c :: c in s ==> SafeChar(c)
  }

  predicate IsFunctionKey(key: string) {
    |key| >= 2 && key[0] == 'F' && forall c :: c in key[1..] ==> '0' <= c <= '9'
  }

  /** Control or Command keeps a chord from capturing typing; a function key may
      stand alone. */
  predicate Allowed(modifiers: set<Modifier>, key: string) {
    (IsFunctionKey(key) && modifiers == {}) || Command in modifiers || Control in modifiers
  }

  /** What the key table must be like for the grammar to be unambiguous. */
  predicate PlainKeys(keys: map<string, nat>) {
    forall k :: k in keys ==> SafeKey(k) && Upper(k) == k && ModifierOf(k) == None
  }

  /** The words of a text: its parts without blanks around them, in upper case. */
  function Words(value: string): (words: seq<string>)
    ensures |words| > 0
  {
    var parts := Split(Trim(value, OUTER_BLANKS));
    seq(|parts|, i requires 0 <= i < |parts| => Upper(Trim(parts[i], BLANKS)))
  }

  function Marks(words: seq<string>): seq<Option<Modifier>> {
    seq(|words|, i requires 0 <= i < |words| => ModifierOf(words[i]))
  }

  /** The grammar: some modifiers, none twice, in any order and by any name, and
      then one key. `marks` says which modifier each word names, if any. */
  function ReadMarked(marks: seq<Option<Modifier>>, key: string, keys: map<string, nat>): Option<ShortcutChord>
    requires |marks| > 0
  {
    var found := multiset(marks[..|marks| - 1]);
    var modifiers := set m: Modifier | Some(m) in found;
    if None !in found && (forall m: Modifier :: found[Some(m)] <= 1) && key in keys && Allowed(modifiers, key)
    then Some(ShortcutChord(modifiers, key)) else None
  }

  function Read(words: seq<string>, keys: map<string, nat>): Option<ShortcutChord>
    requires |words| > 0
  {
    ReadMarked(Marks(words), words[|words| - 1], keys)
  }

  /** The chord a text means. */
  function Meaning(value: string, keys: map<string, nat>): Option<ShortcutChord> {
    Read(Words(value), keys)
  }

  predicate IsChord(c: ShortcutChord, keys: map<string, nat>) {
    c.key in keys && Allowed(c.modifiers, c.key)
  }

  function Name(m: Modifier): string {
    match m
    case Command => "SUPER"
    case Control => "CTRL"
    case Alternate => "ALT"
    case Shift => "SHIFT"
  }

  function Names(modifiers: set<Modifier>): seq<string> {
    (if Command in modifiers then ["SUPER"] else []) + (if Control in modifiers then ["CTRL"] else [])
    + (if Alternate in modifiers then ["ALT"] else []) + (if Shift in modifiers then ["SHIFT"] else [])
  }

  function Canonical(c: ShortcutChord): string {
    Join(Names(c.modifiers) + [c.key])
  }

  /** The words before the i-th name modifiers, no two alike, and nothing else. */
  ghost predicate Collected(marks: seq<Option<Modifier>>, i: nat, modifiers: set<Modifier>)
    requires i <= |marks|
  {
    && None !in multiset(marks[..i])
    && (forall m: Modifier :: multiset(marks[..i])[Some(m)] == if m in modifiers then 1 else 0)
  }

  lemma OneMoreMark(marks: seq<Option<Modifier>>, i: nat)
    requires i < |marks|
    ensures multiset(marks[..i + 1]) == multiset(marks[..i]) + multiset{marks[i]}
  {
    assert marks[..i + 1] == marks[..i] + [marks[i]];
  }

  lemma MoreMarks(marks: seq<Option<Modifier>>, i: nat, j: nat)
    requires i <= j <= |marks|
    ensures multiset(marks[..i]) <= multiset(marks[..j])
  {
    assert marks[..j] == marks[..i] + marks[i..j];
  }

  /** A word that is no modifier can only be the key, at the end. */
  lemma StrayWord(marks: seq<Option<Modifier>>, key: string, keys: map<string, nat>, i: nat)
    requires i < |marks| && marks[i] == None && (i == |marks| - 1 ==> key !in keys)
    ensures ReadMarked(marks, key, keys) == None
  {
    if i < |marks| - 1 {
      OneMoreMark(marks, i);
      MoreMarks(marks, i + 1, |marks| - 1);
      assert None in multiset(marks[..i + 1]);
    }
  }

  /** A modifier said before, by whatever name, spoils the chord. */
  lemma RepeatedModifier(marks: seq<Option<Modifier>>, key: string, keys: map<string, nat>, i: nat, m: Modifier)
    requires i < |marks| && marks[i] == Some(m) && Some(m) in multiset(marks[..i])
    requires i == |marks| - 1 ==> key !in keys
    ensures ReadMarked(marks, key, keys) == None
  {
    if i < |marks| - 1 {
      OneMoreMark(marks, i);
      MoreMarks(marks, i + 1, |marks| - 1);
      assert multiset(marks[..|marks| - 1])[Some(m)] >= 2;
    }
  }

  lemma CollectsOne(marks: seq<Option<Modifier>>, i: nat, modifiers: set<Modifier>, m: Modifier)
    requires i < |marks| && Collected(marks, i, modifiers) && marks[i] == Some(m) && m !in modifiers
    ensures Collected(marks, i + 1, modifiers + {m})
  {
    OneMoreMark(marks, i);
  }

  /** Having collected all words but the last, what the text means. */
  lemma ReadsAs(marks: seq<Option<Modifier>>, key: string, keys: map<string, nat>, modifiers: set<Modifier>)
    requires |marks| > 0 && Collected(marks, |marks| - 1, modifiers)
    ensures ReadMarked(marks, key, keys)
         == if key in keys && Allowed(modifiers, key) then Some(ShortcutChord(modifiers, key)) else None
  {
    var found := multiset(marks[..|marks| - 1]);
    assert (set m: Modifier | Some(m) in found) == modifiers;
  }

  lemma NoKey(marks: seq<Option<Modifier>>, key: string, keys: map<string, nat>)
    requires |marks| > 0 && key !in keys
    ensures ReadMarked(marks, key, keys) == None
  {}

  predicate IsAscii(s: string) {
    forall c :: c in s ==> c < 128 as char
  }

  lemma UpperChars(part: string, i: nat)
    requires i < |part| && Upper(part)[i] < 128 as char
    ensures part[i] < 128 as char && (SafeChar(Upper(part)[i]) ==> SafeChar(part[i]))
  {}

  lemma ModifiersAreAscii(word: string)
    requires ModifierOf(word).Some?
    ensures word != "" && IsAscii(word)
  {}

  /** The guards before the key table leave out nothing the table has. */
  lemma GuardsAreImplied(part: string, keys: map<string, nat>)
    requires PlainKeys(keys)
    ensures part == "" || !IsAscii(part) ==> ModifierOf(Upper(part)) == None && Upper(part) !in keys
    ensures !SafeKey(part) ==> Upper(part) !in keys
  {
    var word := Upper(part);
    if ModifierOf(word).Some? { ModifiersAreAscii(word); }
    if word in keys || ModifierOf(word).Some? {
      forall i | 0 <= i < |part| ensures part[i] < 128 as char && (word in keys ==> SafeChar(part[i])) {
        assert word[i] in word;
        UpperChars(part, i);
      }
    }
  }

  lemma {:induction false} SplitHasAll(s: string, c: char)
    requires c in s && c != '+'
    ensures exists i :: 0 <= i < |Split(s)| && c in Split(s)[i]
  {
    var rest := Split(s[1..]);
    if s[0] == c {
      assert c in Split(s)[0];
    } else {
      SplitHasAll(s[1..], c);
      var i :| 0 <= i < |rest| && c in rest[i];
      if s[0] == '+' { assert Split(s)[i + 1] == rest[i]; } else { assert c in Split(s)[i]; }
    }
  }

  lemma TrimLeftKeeps(s: string, blanks: set<char>, c: char)
    requires c in s && c !in blanks
    ensures c in TrimLeft(s, blanks)
  {}

  lemma TrimRightKeeps(s: string, blanks: set<char>, c: char)
    requires c in s && c !in blanks
    ensures c in TrimRight(s, blanks)
  {}

  /** No chord has a comma: no name of a modifier has one, and no key. */
  lemma NoComma(parts: seq<string>, words: seq<string>, keys: map<string, nat>, i: nat)
    requires PlainKeys(keys) && |words| == |parts| && i < |parts| && ',' in parts[i]
    requires words[i] == Upper(Trim(parts[i], BLANKS))
    ensures Read(words, keys) == None
  {
    var left := TrimLeft(parts[i], BLANKS);
    TrimLeftKeeps(parts[i], BLANKS, ',');
    TrimRightKeeps(left, BLANKS, ',');
    var part := Trim(parts[i], BLANKS);
    var k :| 0 <= k < |part| && part[k] == ',';
    assert words[i][k] == ',' && words[i][k] in words[i];
    StrayWord(Marks(words), words[|words| - 1], keys, i);
  }

  /** One part of the text: its word, the modifier it names if any, and whether it
      can be a modifier or a key at all. */
  datatype Part = Part(word: string, modifier: Option<Modifier>, usable: bool)

  predicate PartOk(p: Part, keys: map<string, nat>) {
    (!p.usable || p.modifier.Some? ==> p.word !in keys) && (!p.usable ==> p.modifier == None)
  }

  predicate Reads(raw: string, p: Part, keys: map<string, nat>) {
    p.word == Upper(Trim(raw, BLANKS)) && p.modifier == ModifierOf(p.word) && PartOk(p, keys)
  }

  method ReadPart(raw: string, keys: map<string, nat>) returns (p: Part)
    requires PlainKeys(keys)
    ensures Reads(raw, p, keys)
  {
    var part := Trim(raw, BLANKS);
    var word := Upper(part);
    var modifier := ModifierOf(word);
    GuardsAreImplied(part, keys);
    p := Part(word, modifier, part != "" && IsAscii(part) && (modifier.Some? || SafeKey(part)));
  }

  function MarksOf(parts: seq<Part>): seq<Option<Modifier>> {
    seq(|parts|, i requires 0 <= i < |parts| => parts[i].modifier)
  }

  /** The parts before the i-th are distinct modifiers, and then a key if there is
      one yet. */
  ghost predicate Taken(parts: seq<Part>, i: nat, modifiers: set<Modifier>, key: Option<string>)
    requires i <= |parts|
  {
    match key
    case None => Collected(MarksOf(parts), i, modifiers) && (i > 0 ==> parts[i - 1].modifier.Some?)
    case Some(word) =>
      i > 0 && Collected(MarksOf(parts), i - 1, modifiers)
      && word == parts[i - 1].word && parts[i - 1].modifier == None
  }

  /** One round of the loop of `ShortcutChord.init?`; `None` refuses the text. */
  method TakePart(parts: seq<Part>, i: nat, modifiers: set<Modifier>, key: Option<string>, keys: map<string, nat>)
    returns (next: Option<(set<Modifier>, Option<string>)>)
    requires i < |parts| && Taken(parts, i, modifiers, key)
    requires PartOk(parts[i], keys)
    ensures next.None? ==> ReadMarked(MarksOf(parts), parts[|parts| - 1].word, keys) == None
    ensures next.Some? ==> Taken(parts, i + 1, next.value.0, next.value.1)
  {
    ghost var marks, last := MarksOf(parts), parts[|parts| - 1].word;
    var part := parts[i];
    if !part.usable {
      StrayWord(marks, last, keys, i);
      return None;
    }
    if key.Some? {
      StrayWord(marks, last, keys, i - 1);
      return None;
    }
    if part.modifier.None? { return Some((modifiers, Some(part.word))); }
    var modifier := part.modifier.value;
    if modifier in modifiers {
      RepeatedModifier(marks, last, keys, i, modifier);
      return None;
    }
    CollectsOne(marks, i, modifiers, modifier);
    next := Some((modifiers + {modifier}, None));
  }

  /** The loop of `ShortcutChord.init?` over the parts, and the checks after it. */
  method ParseParts(parts: seq<Part>, keys: map<string, nat>) returns (chord: Option<ShortcutChord>)
    requires |parts| > 0 && forall i :: 0 <= i < |parts| ==> PartOk(parts[i], keys)
    ensures chord == ReadMarked(MarksOf(parts), parts[|parts| - 1].word, keys)
  {
    var modifiers: set<Modifier>, key: Option<string> := {}, None;
    for i := 0 to |parts|
      invariant Taken(parts, i, modifiers, key)
    {
      var next := TakePart(parts, i, modifiers, key, keys);
      if next.None? { return None; }
      modifiers, key := next.value.0, next.value.1;
    }
    chord := Conclude(parts, modifiers, key, keys);
  }

  /** The checks after the loop. */
  method Conclude(parts: seq<Part>, modifiers: set<Modifier>, key: Option<string>, keys: map<string, nat>)
    returns (chord: Option<ShortcutChord>)
    requires |parts| > 0 && Taken(parts, |parts|, modifiers, key) && PartOk(parts[|parts| - 1], keys)
    ensures chord == ReadMarked(MarksOf(parts), parts[|parts| - 1].word, keys)
  {
    ghost var marks, last := MarksOf(parts), parts[|parts| - 1].word;
    if key.None? {
      NoKey(marks, last, keys);
      return None;
    }
    ReadsAs(marks, last, keys, modifiers);
    if key.value !in keys || !Allowed(modifiers, key.value) { return None; }
    chord := Some(ShortcutChord(modifiers, key.value));
  }

  method ReadParts(raw: seq<string>, keys: map<string, nat>) returns (parts: seq<Part>)
    requires PlainKeys(keys)
    ensures |parts| == |raw| && forall k :: 0 <= k < |raw| ==> Reads(raw[k], parts[k], keys)
  {
    parts := [];
    for i := 0 to |raw|
      invariant |parts| == i && forall k :: 0 <= k < i ==> Reads(raw[k], parts[k], keys)
    {
      var part := ReadPart(raw[i], keys);
      parts := parts + [part];
    }
  }

  lemma PartsMean(value: string, parts: seq<Part>, keys: map<string, nat>)
    requires var raw := Split(Trim(value, OUTER_BLANKS));
             |parts| == |raw| && forall k :: 0 <= k < |raw| ==> Reads(raw[k], parts[k], keys)
    ensures |parts| > 0 && (forall k :: 0 <= k < |parts| ==> PartOk(parts[k], keys))
    ensures Meaning(value, keys) == ReadMarked(MarksOf(parts), parts[|parts| - 1].word, keys)
  {
    var raw, words := Split(Trim(value, OUTER_BLANKS)), Words(value);
    forall k | 0 <= k < |raw| ensures parts[k].word == words[k] && parts[k].modifier == ModifierOf(words[k]) {
      assert Reads(raw[k], parts[k], keys);
    }
    assert MarksOf(parts) == Marks(words);
  }

  /** The guard before the loop leaves out nothing the grammar has. */
  lemma EmptyOrComma(value: string, keys: map<string, nat>)
    requires PlainKeys(keys) && (var trimmed := Trim(value, OUTER_BLANKS); trimmed == "" || ',' in trimmed)
    ensures Meaning(value, keys) == None
  {
    var trimmed := Trim(value, OUTER_BLANKS);
    var raw, words := Split(trimmed), Words(value);
    if trimmed == "" {
      GuardsAreImplied("", keys);
      StrayWord(Marks(words), words[0], keys, 0);
    } else {
      SplitHasAll(trimmed, ',');
      var i :| 0 <= i < |raw| && ',' in raw[i];
      NoComma(raw, words, keys, i);
    }
  }

  /** `ShortcutChord.init?`. */
  method Parse(value: string, keys: map<string, nat>) returns (chord: Option<ShortcutChord>)
    requires PlainKeys(keys)
    ensures chord == Meaning(value, keys)
  {
    var trimmed := Trim(value, OUTER_BLANKS);
    if trimmed == "" || ',' in trimmed {
      EmptyOrComma(value, keys);
      return None;
    }
    var raw := Split(trimmed);
    var parts := ReadParts(raw, keys);
    PartsMean(value, parts, keys);
    chord := ParseParts(parts, keys);
  }
}
