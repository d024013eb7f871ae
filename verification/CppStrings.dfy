/** The few std::string operations the modelled code leans on. A C++ string is a Dafny string
    whose characters stand for bytes; std::string::npos is NPOS, and npos + 1 wraps round to
    position 0 just as NPOS + 1 does. */
module CppStrings {
  const NPOS: int := -1

  /** Does `pattern` occur in `s` at position `at`? */
  predicate OccursAt(s: string, pattern: string, at: nat) {
    at + |pattern| <= |s| && s[at..at + |pattern|] == pattern
  }

  /** std::string::find of a character. */
  function FindChar(s: string, c: char, from: nat): (r: int)
    ensures r != NPOS ==> from <= r < |s| && s[r] == c
    ensures forall k :: from <= k < (if r == NPOS then |s| else r) ==> s[k] != c
    decreases |s| - from
  {
    if from >= |s| then NPOS
    else if s[from] == c then from
    else FindChar(s, c, from + 1)
  }

  /** std::string::find of a string. */
  function FindString(s: string, pattern: string, from: nat): (r: int)
    ensures r != NPOS ==> from <= r <= |s| && OccursAt(s, pattern, r)
    ensures forall k :: from <= k < (if r == NPOS then |s| + 1 else r) ==> !OccursAt(s, pattern, k)
    decreases |s| - from
  {
    if from > |s| then NPOS
    else if OccursAt(s, pattern, from) then from
    else if from == |s| then NPOS
    else FindString(s, pattern, from + 1)
  }

  predicate Blank(c: char) {
    c == ' ' || c == '\t'
  }

  /** std::string::find_first_not_of(" \t"). */
  function FirstNonBlank(s: string, from: nat): (r: int)
    ensures r != NPOS ==> from <= r < |s| && !Blank(s[r])
    ensures forall k :: from <= k < (if r == NPOS then |s| else r) ==> Blank(s[k])
    decreases |s| - from
  {
    if from >= |s| then NPOS
    else if !Blank(s[from]) then from
    else FirstNonBlank(s, from + 1)
  }

  /** Searching from an offset is searching the suffix. */
  lemma {:induction false} FindCharInSuffix(s: string, c: char, from: nat)
    requires from <= |s|
    ensures FindChar(s, c, from) == (var r := FindChar(s[from..], c, 0); if r == NPOS then NPOS else from + r)
  {
    assert forall k :: from <= k < |s| ==> s[from..][k - from] == s[k];
    assert forall k :: 0 <= k < |s| - from ==> s[from..][k] == s[from + k];
  }

  /** An occurrence, character by character. */
  lemma OccursChars(s: string, pattern: string, at: nat)
    requires OccursAt(s, pattern, at)
    ensures forall k :: at <= k < at + |pattern| ==> s[k] == pattern[k - at]
  {
    assert forall k :: at <= k < at + |pattern| ==> s[k] == s[at..at + |pattern|][k - at];
  }
}
