/** The Carbon key codes of the keys a chord may end with. */
module ChordKeys {
  import opened Options
  import opened Chord

  const LETTERS: map<string, nat> := map[
    "A" := 0x00, "S" := 0x01, "D" := 0x02, "F" := 0x03, "H" := 0x04, "G" := 0x05, "Z" := 0x06, "X" := 0x07,
    "C" := 0x08, "V" := 0x09, "B" := 0x0b, "Q" := 0x0c, "W" := 0x0d, "E" := 0x0e, "R" := 0x0f, "Y" := 0x10,
    "T" := 0x11, "O" := 0x1f, "U" := 0x20, "I" := 0x22, "P" := 0x23, "L" := 0x25, "J" := 0x26, "K" := 0x28,
    "N" := 0x2d, "M" := 0x2e]

  const DIGITS: map<string, nat> := map[
    "1" := 0x12, "2" := 0x13, "3" := 0x14, "4" := 0x15, "6" := 0x16, "5" := 0x17, "9" := 0x19, "7" := 0x1a,
    "8" := 0x1c, "0" := 0x1d]

  const FUNCTION_KEYS: map<string, nat> := map[
    "F17" := 0x40, "F18" := 0x4f, "F19" := 0x50, "F20" := 0x5a, "F5" := 0x60, "F6" := 0x61, "F7" := 0x62,
    "F3" := 0x63, "F8" := 0x64, "F9" := 0x65, "F11" := 0x67, "F13" := 0x69, "F16" := 0x6a, "F14" := 0x6b,
    "F10" := 0x6d, "F12" := 0x6f, "F15" := 0x71, "F4" := 0x76, "F2" := 0x78, "F1" := 0x7a]

  const BRACKETS: map<string, nat> := map[
    "BRACKETRIGHT" := 0x1e, "BRACKETLEFT" := 0x21, "APOSTROPHE" := 0x27]

  const PUNCTUATION: map<string, nat> := map[
    "EQUAL" := 0x18, "MINUS" := 0x1b, "SEMICOLON" := 0x29, "BACKSLASH" := 0x2a, "COMMA" := 0x2b,
    "SLASH" := 0x2c, "PERIOD" := 0x2f, "GRAVE" := 0x32]

  const EDITING_KEYS: map<string, nat> := map[
    "RETURN" := 0x24, "TAB" := 0x30, "SPACE" := 0x31, "BACKSPACE" := 0x33, "ESCAPE" := 0x35, "HELP" := 0x72,
    "DELETE" := 0x75]

  const NAVIGATION_KEYS: map<string, nat> := map[
    "HOME" := 0x73, "PAGE_UP" := 0x74, "END" := 0x77, "PAGE_DOWN" := 0x79, "LEFT" := 0x7b, "RIGHT" := 0x7c,
    "DOWN" := 0x7d, "UP" := 0x7e]

  const KEY_CODES: map<string, nat> :=
    LETTERS + DIGITS + FUNCTION_KEYS + BRACKETS + PUNCTUATION + EDITING_KEYS + NAVIGATION_KEYS

  predicate UpperName(s: string) {
    1 <= |s| <= 64 && forall i :: 0 <= i < |s| ==> 'A' <= s[i] <= 'Z' || '0' <= s[i] <= '9' || s[i] == '_'
  }

  lemma UpperNameIsPlain(s: string)
    requires UpperName(s)
    ensures SafeKey(s) && Upper(s) == s
  {}

  lemma LettersArePlain()
    ensures PlainKeys(LETTERS)
  {
    forall k | k in LETTERS ensures SafeKey(k) && Upper(k) == k && ModifierOf(k) == None { UpperNameIsPlain(k); }
  }

  lemma DigitsArePlain()
    ensures PlainKeys(DIGITS)
  {
    forall k | k in DIGITS ensures SafeKey(k) && Upper(k) == k && ModifierOf(k) == None { UpperNameIsPlain(k); }
  }

  lemma FunctionKeysArePlain()
    ensures PlainKeys(FUNCTION_KEYS)
  {
    forall k | k in FUNCTION_KEYS ensures SafeKey(k) && Upper(k) == k && ModifierOf(k) == None { UpperNameIsPlain(k); }
  }

  lemma BracketsArePlain()
    ensures PlainKeys(BRACKETS)
  {
    forall k | k in BRACKETS ensures SafeKey(k) && Upper(k) == k && ModifierOf(k) == None { UpperNameIsPlain(k); }
  }

  lemma PunctuationArePlain()
    ensures PlainKeys(PUNCTUATION)
  {
    forall k | k in PUNCTUATION ensures SafeKey(k) && Upper(k) == k && ModifierOf(k) == None { UpperNameIsPlain(k); }
  }

  lemma EditingKeysArePlain()
    ensures PlainKeys(EDITING_KEYS)
  {
    forall k | k in EDITING_KEYS ensures SafeKey(k) && Upper(k) == k && ModifierOf(k) == None { UpperNameIsPlain(k); }
  }

  lemma NavigationKeysArePlain()
    ensures PlainKeys(NAVIGATION_KEYS)
  {
    forall k | k in NAVIGATION_KEYS ensures SafeKey(k) && Upper(k) == k && ModifierOf(k) == None { UpperNameIsPlain(k); }
  }

  lemma MergedArePlain(a: map<string, nat>, b: map<string, nat>)
    requires PlainKeys(a) && PlainKeys(b)
    ensures PlainKeys(a + b)
  {}

  /** The table keeps the grammar unambiguous: no key is a modifier, holds a
      separator or a blank, or changes in upper case. */
  lemma KeysArePlain()
    ensures PlainKeys(KEY_CODES)
  {
    LettersArePlain();
    DigitsArePlain();
    FunctionKeysArePlain();
    BracketsArePlain();
    PunctuationArePlain();
    EditingKeysArePlain();
    NavigationKeysArePlain();
    MergedArePlain(LETTERS, DIGITS);
    MergedArePlain(LETTERS + DIGITS, FUNCTION_KEYS);
    MergedArePlain(LETTERS + DIGITS + FUNCTION_KEYS, BRACKETS);
    MergedArePlain(LETTERS + DIGITS + FUNCTION_KEYS + BRACKETS, PUNCTUATION);
    MergedArePlain(LETTERS + DIGITS + FUNCTION_KEYS + BRACKETS + PUNCTUATION, EDITING_KEYS);
    MergedArePlain(LETTERS + DIGITS + FUNCTION_KEYS + BRACKETS + PUNCTUATION + EDITING_KEYS, NAVIGATION_KEYS);
  }
}
