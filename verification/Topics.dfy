/**
 Topic exchange matching, section 3.1.3.3 of the AMQP 0-9-1 specification: keys and patterns are words
 separated by dots, `*` stands for exactly one word and `#` for zero or more words.
 */
module Topics {
  import opened Text

  const ONE := "*"
  const MANY := "#"

  /** The matcher, word by word. */
  predicate MatchWords(pattern: seq<string>, key: seq<string>)
    decreases |pattern| + |key|
  {
    if pattern == [] then key == []
    else if pattern[0] == MANY then
      MatchWords(pattern[1..], key) || (key != [] && MatchWords(pattern, key[1..]))
    else
      key != [] && (pattern[0] == ONE || pattern[0] == key[0]) && MatchWords(pattern[1..], key[1..])
  }

  predicate Matches(pattern: string, key: string)
  {
    MatchWords(Split(pattern, '.'), Split(key, '.'))
  }

  // ---- the declarative meaning: each pattern word covers a stretch of the key

  ghost predicate WordCovers(word: string, stretch: seq<string>)
  {
    if word == MANY then true
    else |stretch| == 1 && (word == ONE || stretch[0] == word)
  }

  ghost function Flatten(stretches: seq<seq<string>>): seq<string>
  {
    if stretches == [] then [] else stretches[0] + Flatten(stretches[1..])
  }

  ghost predicate Covers(pattern: seq<string>, stretches: seq<seq<string>>, key: seq<string>)
  {
    && |stretches| == |pattern|
    && Flatten(stretches) == key
    && forall i :: 0 <= i < |pattern| ==> WordCovers(pattern[i], stretches[i])
  }

  /** The matcher accepts a key iff the key can be cut into stretches, one per pattern word. */
  lemma MatchIsCover(pattern: seq<string>, key: seq<string>)
    ensures MatchWords(pattern, key) <==> exists stretches :: Covers(pattern, stretches, key)
  {
    if MatchWords(pattern, key) {
      var stretches := MatchGivesCover(pattern, key);
    }
    if stretches :| Covers(pattern, stretches, key) {
      CoverGivesMatch(pattern, stretches, key);
    }
  }

  lemma {:induction false} MatchGivesCover(pattern: seq<string>, key: seq<string>)
    returns (stretches: seq<seq<string>>)
    requires MatchWords(pattern, key)
    ensures Covers(pattern, stretches, key)
    decreases |pattern| + |key|
  {
    if pattern == [] {
      stretches := [];
    } else if pattern[0] == MANY && !MatchWords(pattern[1..], key) {
      var rest := MatchGivesCover(pattern, key[1..]);
      stretches := [[key[0]] + rest[0]] + rest[1..];
      assert stretches[1..] == rest[1..];
    } else {
      var head := if pattern[0] == MANY then [] else [key[0]];
      var rest := MatchGivesCover(pattern[1..], key[|head|..]);
      stretches := [head] + rest;
      assert stretches[1..] == rest;
    }
  }

  lemma {:induction false} CoverGivesMatch(pattern: seq<string>, stretches: seq<seq<string>>, key: seq<string>)
    requires Covers(pattern, stretches, key)
    ensures MatchWords(pattern, key)
    decreases |pattern| + |key|
  {
    if pattern != [] {
      var rest := Flatten(stretches[1..]);
      assert key == stretches[0] + rest;
      if pattern[0] == MANY && stretches[0] != [] {
        var shorter := [stretches[0][1..]] + stretches[1..];
        assert shorter[1..] == stretches[1..];
        assert key[1..] == stretches[0][1..] + rest;
        CoverGivesMatch(pattern, shorter, key[1..]);
      } else {
        assert key[|stretches[0]|..] == rest;
        CoverGivesMatch(pattern[1..], stretches[1..], rest);
      }
    }
  }

  // ---- the two shapes of pattern the topology uses

  /** Word-by-word agreement of a pattern without `#` with the start of a key. */
  predicate Agrees(pattern: seq<string>, key: seq<string>)
  {
    |pattern| <= |key| && forall i :: 0 <= i < |pattern| ==> pattern[i] == ONE || pattern[i] == key[i]
  }

  lemma {:induction false} MatchFixed(pattern: seq<string>, key: seq<string>)
    requires MANY !in pattern
    ensures MatchWords(pattern, key) <==> |pattern| == |key| && Agrees(pattern, key)
  {
    if pattern != [] && key != [] {
      MatchFixed(pattern[1..], key[1..]);
      assert forall i :: 0 < i < |pattern| ==> pattern[i] == pattern[1..][i - 1];
      assert forall i :: 0 < i < |key| ==> key[i] == key[1..][i - 1];
    }
  }

  lemma {:induction false} MatchPrefix(pattern: seq<string>, key: seq<string>)
    requires MANY !in pattern
    ensures MatchWords(pattern + [MANY], key) <==> Agrees(pattern, key)
    decreases |pattern| + |key|
  {
    var whole := pattern + [MANY];
    if pattern == [] {
      if key != [] {
        MatchPrefix(pattern, key[1..]);
      }
    } else if key != [] {
      assert whole[1..] == pattern[1..] + [MANY];
      MatchPrefix(pattern[1..], key[1..]);
      assert forall i :: 0 < i < |pattern| ==> pattern[i] == pattern[1..][i - 1];
      assert forall i :: 0 < i < |key| ==> key[i] == key[1..][i - 1];
    }
  }
}
