/**
 The topic matcher (exchange.go) against a declarative meaning of patterns (AMQP 0-9-1, section
 3.1.3.3): the words of the routing key are cut into consecutive segments, one for each word of the
 pattern.
 */
module TopicMatcher {
  import opened Collections

  type Word = string

  const STAR: Word := "*"
  const HASH: Word := "#"

  // ---------------------------------------------------------------- words

  /** strings.Split(s, "."): the words between the dots, at least one. */
  function Split(s: string): (words: seq<Word>)
    ensures |words| >= 1
  {
    if s == "" then [""]
    else if s[0] == '.' then [""] + Split(s[1..])
    else var rest := Split(s[1..]); [[s[0]] + rest[0]] + rest[1..]
  }

  function Join(words: seq<Word>): string {
    if words == [] then "" else if |words| == 1 then words[0] else words[0] + "." + Join(words[1..])
  }

  /** The words hold no dot, and joined with dots they give the key back. */
  lemma {:induction false} SplitJoins(s: string)
    ensures Join(Split(s)) == s
    ensures forall i | 0 <= i < |Split(s)| :: '.' !in Split(s)[i]
    decreases |s|
  {
    if s != "" {
      var rest := Split(s[1..]);
      SplitJoins(s[1..]);
      assert s == [s[0]] + s[1..];
      if s[0] == '.' {
        assert ([""] + rest)[1..] == rest;
        assert "" + "." + Join(rest) == s;
      } else {
        var words := [[s[0]] + rest[0]] + rest[1..];
        assert words[1..] == rest[1..];
        if |rest| > 1 {
          assert [s[0]] + rest[0] + "." + Join(rest[1..]) == [s[0]] + (rest[0] + "." + Join(rest[1..]));
        }
        forall i | 0 <= i < |words| ensures '.' !in words[i] {
          if i > 0 { assert words[i] == rest[i]; }
        }
      }
    }
  }

  // ---------------------------------------------------------------- the meaning of a pattern

  /** '*' stands for one word, '#' for any number, any other word for itself. */
  predicate SegmentOf(segment: seq<Word>, p: Word) {
    if p == HASH then true else if p == STAR then |segment| == 1 else segment == [p]
  }

  /** cuts says where each word of the pattern has its segment: from cuts[i] to cuts[i + 1]. */
  ghost predicate Cuts(routing: seq<Word>, pattern: seq<Word>, cuts: seq<nat>) {
    && |cuts| == |pattern| + 1 && cuts[0] == 0 && cuts[|pattern|] == |routing|
    && forall i | 0 <= i < |pattern| :: CutAt(routing, pattern, cuts, i)
  }

  ghost predicate CutAt(routing: seq<Word>, pattern: seq<Word>, cuts: seq<nat>, i: nat)
    requires i < |pattern| && |cuts| == |pattern| + 1
  {
    cuts[i] <= cuts[i + 1] <= |routing| && SegmentOf(routing[cuts[i]..cuts[i + 1]], pattern[i])
  }

  ghost predicate Matches(routing: seq<Word>, pattern: seq<Word>) {
    exists cuts :: Cuts(routing, pattern, cuts)
  }

  // ---------------------------------------------------------------- the algorithm

  predicate AllHash(pattern: seq<Word>) {
    forall i | 0 <= i < |pattern| :: pattern[i] == HASH
  }

  /** matchWords on what is left of the two lists. */
  function MatchRest(routing: seq<Word>, pattern: seq<Word>): bool
    decreases |routing| + |pattern|
  {
    if pattern == [] then routing == []
    else if routing == [] then AllHash(pattern)
    else if pattern[0] == HASH then MatchRest(routing, pattern[1..]) || MatchRest(routing[1..], pattern)
    else if pattern[0] == STAR || routing[0] == pattern[0] then MatchRest(routing[1..], pattern[1..])
    else false
  }

  /** matchWords. It ends because each call has fewer words and pattern words left. */
  method MatchWords(routing: seq<Word>, pattern: seq<Word>, rIdx: nat, pIdx: nat) returns (ok: bool)
    requires rIdx <= |routing| && pIdx <= |pattern|
    ensures ok == MatchRest(routing[rIdx..], pattern[pIdx..])
    decreases |routing| - rIdx + |pattern| - pIdx
  {
    if pIdx == |pattern| { return rIdx == |routing|; }
    if rIdx == |routing| {
      var i := pIdx;
      while i < |pattern|
        invariant pIdx <= i <= |pattern| && forall j | pIdx <= j < i :: pattern[j] == HASH
      {
        if pattern[i] != HASH {
          assert pattern[pIdx..][i - pIdx] != HASH;
          return false;
        }
        i := i + 1;
      }
      return true;
    }
    assert routing[rIdx..][1..] == routing[rIdx + 1..] && pattern[pIdx..][1..] == pattern[pIdx + 1..];
    if pattern[pIdx] == HASH {
      ok := MatchWords(routing, pattern, rIdx, pIdx + 1);
      if !ok { ok := MatchWords(routing, pattern, rIdx + 1, pIdx); }
    } else if pattern[pIdx] == STAR {
      ok := MatchWords(routing, pattern, rIdx + 1, pIdx + 1);
    } else if routing[rIdx] == pattern[pIdx] {
      ok := MatchWords(routing, pattern, rIdx + 1, pIdx + 1);
    } else {
      ok := false;
    }
  }

  // ---------------------------------------------------------------- the algorithm is exact

  function Shifted(cuts: seq<nat>, n: nat): (r: seq<nat>)
    ensures |r| == |cuts| && forall i | 0 <= i < |cuts| :: r[i] == cuts[i] + n
  {
    seq(|cuts|, i requires 0 <= i < |cuts| => cuts[i] + n)
  }

  /** A segment of n words for the first pattern word, and cuts for the rest. */
  lemma CutsPrepend(routing: seq<Word>, pattern: seq<Word>, n: nat, cuts: seq<nat>)
    requires pattern != [] && n <= |routing| && SegmentOf(routing[..n], pattern[0])
             && Cuts(routing[n..], pattern[1..], cuts)
    ensures Cuts(routing, pattern, [0] + Shifted(cuts, n))
  {
    var all := [0] + Shifted(cuts, n);
    forall i | 0 <= i < |pattern| ensures CutAt(routing, pattern, all, i) {
      if i > 0 {
        assert CutAt(routing[n..], pattern[1..], cuts, i - 1);
        assert routing[all[i]..all[i + 1]] == routing[n..][cuts[i - 1]..cuts[i]];
        assert pattern[i] == pattern[1..][i - 1];
      }
    }
  }

  lemma CutsFirst(routing: seq<Word>, pattern: seq<Word>, cuts: seq<nat>) returns (rest: seq<nat>)
    requires pattern != [] && Cuts(routing, pattern, cuts)
    ensures cuts[1] <= |routing| && SegmentOf(routing[..cuts[1]], pattern[0])
            && Cuts(routing[cuts[1]..], pattern[1..], rest)
  {
    var n := cuts[1];
    CutsGrow(routing, pattern, cuts, 1);
    rest := seq(|pattern|, i requires 0 <= i < |pattern| => if cuts[i + 1] >= n then cuts[i + 1] - n else 0);
    assert CutAt(routing, pattern, cuts, 0);
    forall i | 0 <= i < |pattern[1..]| ensures CutAt(routing[n..], pattern[1..], rest, i) {
      assert CutAt(routing, pattern, cuts, i + 1);
      assert routing[n..][rest[i]..rest[i + 1]] == routing[cuts[i + 1]..cuts[i + 2]];
    }
  }

  lemma {:induction false} CutsGrow(routing: seq<Word>, pattern: seq<Word>, cuts: seq<nat>, from: nat)
    requires Cuts(routing, pattern, cuts) && from <= |pattern|
    ensures forall i | from <= i <= |pattern| :: cuts[from] <= cuts[i] <= |routing|
    decreases |pattern| - from
  {
    if from < |pattern| {
      assert CutAt(routing, pattern, cuts, from);
      CutsGrow(routing, pattern, cuts, from + 1);
    }
  }

  /** What the algorithm accepts can be cut. */
  lemma {:induction false} MatchCuts(routing: seq<Word>, pattern: seq<Word>) returns (cuts: seq<nat>)
    requires MatchRest(routing, pattern)
    ensures Cuts(routing, pattern, cuts)
    decreases |routing| + |pattern|
  {
    if pattern == [] {
      cuts := [0];
    } else if routing == [] {
      cuts := seq(|pattern| + 1, i requires 0 <= i <= |pattern| => 0);
    } else if pattern[0] == HASH && MatchRest(routing, pattern[1..]) {
      cuts := MatchCuts(routing, pattern[1..]);
      assert routing[0..] == routing;
      CutsPrepend(routing, pattern, 0, cuts);
      cuts := [0] + Shifted(cuts, 0);
    } else if pattern[0] == HASH {
      cuts := MatchCuts(routing[1..], pattern);
      var rest := CutsFirst(routing[1..], pattern, cuts);
      assert routing[1..][cuts[1]..] == routing[cuts[1] + 1..];
      CutsPrepend(routing, pattern, cuts[1] + 1, rest);
      cuts := [0] + Shifted(rest, cuts[1] + 1);
    } else {
      cuts := MatchCuts(routing[1..], pattern[1..]);
      assert routing[..1] == [routing[0]];
      CutsPrepend(routing, pattern, 1, cuts);
      cuts := [0] + Shifted(cuts, 1);
    }
  }

  lemma {:induction false} HashTakesMore(routing: seq<Word>, pattern: seq<Word>, n: nat)
    requires pattern != [] && pattern[0] == HASH && n <= |routing| && MatchRest(routing[n..], pattern[1..])
    ensures MatchRest(routing, pattern)
    decreases n
  {
    if routing == [] {
      HashOnly(pattern[1..]);
      assert pattern == [HASH] + pattern[1..];
    } else if n == 0 {
      assert routing[0..] == routing;
    } else {
      assert routing[1..][n - 1..] == routing[n..];
      HashTakesMore(routing[1..], pattern, n - 1);
    }
  }

  lemma HashOnly(pattern: seq<Word>)
    requires MatchRest([], pattern)
    ensures AllHash(pattern)
  {
  }

  /** What can be cut is accepted. */
  lemma {:induction false} CutsMatch(routing: seq<Word>, pattern: seq<Word>, cuts: seq<nat>)
    requires Cuts(routing, pattern, cuts)
    ensures MatchRest(routing, pattern)
    decreases |pattern|
  {
    if pattern != [] {
      var rest := CutsFirst(routing, pattern, cuts);
      CutsMatch(routing[cuts[1]..], pattern[1..], rest);
      if pattern[0] == HASH {
        HashTakesMore(routing, pattern, cuts[1]);
      } else {
        assert cuts[1] == 1;
        assert routing[..1] == [routing[0]];
      }
    }
  }

  lemma MatchExact(routing: seq<Word>, pattern: seq<Word>)
    ensures MatchRest(routing, pattern) <==> Matches(routing, pattern)
  {
    if MatchRest(routing, pattern) {
      var cuts := MatchCuts(routing, pattern);
    }
    if cuts :| Cuts(routing, pattern, cuts) {
      CutsMatch(routing, pattern, cuts);
    }
  }

  // ---------------------------------------------------------------- MatchTopic

  predicate HasEmptyWord(words: seq<Word>) {
    "" in words
  }

  /** The code's own rule for the pattern "*.#". */
  predicate StarHash(pattern: seq<Word>) {
    pattern == [STAR, HASH]
  }

  method Contains(words: seq<Word>, w: Word) returns (found: bool)
    ensures found == (w in words)
  {
    for i := 0 to |words|
      invariant w !in words[..i]
    {
      if words[i] == w { return true; }
      assert words[..i + 1] == words[..i] + [words[i]];
    }
    assert words[..|words|] == words;
    found := false;
  }

  /** MatchTopic, with all of its rules. The pattern "#", and a pattern equal to the key, always match;
      an empty word anywhere else never does; "*.#" asks for two words; and every other pattern matches
      exactly by its meaning. */
  method MatchTopic(routingKey: string, patternKey: string) returns (ok: bool)
    ensures ok <==>
      || patternKey == "#"
      || routingKey == patternKey
      || (&& !HasEmptyWord(Split(routingKey)) && !HasEmptyWord(Split(patternKey))
          && if StarHash(Split(patternKey)) then |Split(routingKey)| >= 2
            else Matches(Split(routingKey), Split(patternKey)))
  {
    if patternKey == "#" { return true; }
    if routingKey == patternKey { return true; }
    var routingWords, patternWords := Split(routingKey), Split(patternKey);
    MatchExact(routingWords, patternWords);
    var emptyRouting := Contains(routingWords, "");
    var emptyPattern := Contains(patternWords, "");
    if emptyRouting || emptyPattern { return false; }
    if |patternWords| == 2 && patternWords[0] == STAR && patternWords[1] == HASH {
      assert patternWords == [STAR, HASH];
      return |routingWords| >= 2;
    }
    assert routingWords[0..] == routingWords && patternWords[0..] == patternWords;
    ok := MatchWords(routingWords, patternWords, 0, 0);
  }

  /** Where the code leaves the meaning of patterns: "*.#" matches every key of at least one word by its
      meaning, and by the code only those of at least two. They differ for the keys of one word, and for
      no other. */
  lemma StarHashDiffers(routing: seq<Word>)
    ensures Matches(routing, [STAR, HASH]) <==> |routing| >= 1
    ensures (Matches(routing, [STAR, HASH]) <==> |routing| >= 2) <==> |routing| != 1
  {
    MatchExact(routing, [STAR, HASH]);
    assert [STAR, HASH][0] != HASH;
    if routing != [] {
      assert [STAR, HASH][1..] == [HASH];
      HashMatchesAll(routing[1..]);
    }
  }

  lemma {:induction false} HashMatchesAll(routing: seq<Word>)
    ensures MatchRest(routing, [HASH])
    decreases |routing|
  {
    if routing != [] { HashMatchesAll(routing[1..]); }
  }
}
