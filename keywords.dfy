/**
 * Keyword tests the sources write as `includes` chains: "does the text mention one of these
 * words", and if/else-if ladders that answer with the first arm whose words occur.
 */
module Keywords {
  import opened Text

  /** Some word of `words` occurs in `s` (`words.some(w => s.includes(w))`, or an `||` chain). */
  predicate MentionsAny(s: string, words: seq<string>)
  {
    exists i :: 0 <= i < |words| && Contains(s, words[i])
  }

  /** One arm of an if/else-if ladder: when the text mentions one of `words`, the answer is `result`. */
  datatype Rule<T> = Rule(words: seq<string>, result: T)

  /** The answer of the first arm whose words `s` mentions, or `otherwise` when no arm fires. */
  function FirstMatch<T>(s: string, rules: seq<Rule<T>>, otherwise: T): T
  {
    if rules == [] then otherwise
    else if MentionsAny(s, rules[0].words) then rules[0].result
    else FirstMatch(s, rules[1..], otherwise)
  }

  /** The ladder tests its first arm, then the rest. */
  lemma FirstMatchCons<T>(s: string, r: Rule<T>, rest: seq<Rule<T>>, otherwise: T)
    ensures FirstMatch(s, [r] + rest, otherwise) ==
              if MentionsAny(s, r.words) then r.result else FirstMatch(s, rest, otherwise)
  {
    assert ([r] + rest)[1..] == rest;
  }

  /** The arm at `k` decides when it fires and no earlier arm does. */
  lemma {:induction false} FirstMatchAt<T>(s: string, rules: seq<Rule<T>>, otherwise: T, k: nat)
    requires k < |rules| && MentionsAny(s, rules[k].words)
    requires forall j :: 0 <= j < k ==> !MentionsAny(s, rules[j].words)
    ensures FirstMatch(s, rules, otherwise) == rules[k].result
    decreases k
  {
    if k > 0 {
      assert !MentionsAny(s, rules[0].words);
      forall j | 0 <= j < k - 1 ensures !MentionsAny(s, rules[1..][j].words) {
        assert rules[1..][j] == rules[j + 1];
      }
      FirstMatchAt(s, rules[1..], otherwise, k - 1);
    }
  }

  /** When no arm fires, the answer is the default. */
  lemma {:induction false} FirstMatchNone<T>(s: string, rules: seq<Rule<T>>, otherwise: T)
    requires forall j :: 0 <= j < |rules| ==> !MentionsAny(s, rules[j].words)
    ensures FirstMatch(s, rules, otherwise) == otherwise
    decreases |rules|
  {
    if rules != [] {
      assert !MentionsAny(s, rules[0].words);
      forall j | 0 <= j < |rules| - 1 ensures !MentionsAny(s, rules[1..][j].words) {
        assert rules[1..][j] == rules[j + 1];
      }
      FirstMatchNone(s, rules[1..], otherwise);
    }
  }

  /** A word that has a character `s` lacks does not occur in `s`. */
  lemma MissingCharNotContained(s: string, t: string, j: nat)
    requires j < |t|
    requires forall i :: 0 <= i < |s| ==> s[i] != t[j]
    ensures !Contains(s, t)
  {
    forall i | 0 <= i <= |s| - |t| ensures !MatchAt(s, t, i) {
      assert s[i..i + |t|][j] == s[i + j] != t[j];
    }
  }

  /** A two-word test is the `||` of its two `includes` calls. */
  lemma MentionsEither(s: string, a: string, b: string)
    ensures MentionsAny(s, [a, b]) <==> Contains(s, a) || Contains(s, b)
  {
    assert [a, b][0] == a && [a, b][1] == b;
  }

  /** Mentioning a word of two lists joined is mentioning a word of one of them. */
  lemma MentionsAnyConcat(s: string, a: seq<string>, b: seq<string>)
    ensures MentionsAny(s, a + b) <==> MentionsAny(s, a) || MentionsAny(s, b)
  {
    if MentionsAny(s, a + b) {
      var i :| 0 <= i < |a + b| && Contains(s, (a + b)[i]);
      if i >= |a| {
        assert (a + b)[i] == b[i - |a|];
      }
    }
    if MentionsAny(s, a) {
      var i :| 0 <= i < |a| && Contains(s, a[i]);
      assert (a + b)[i] == a[i];
    }
    if MentionsAny(s, b) {
      var i :| 0 <= i < |b| && Contains(s, b[i]);
      assert (a + b)[|a| + i] == b[i];
    }
  }

  /** A word with no ASCII letter in it, which ASCII lower-casing cannot produce or destroy. */
  predicate NoAsciiLetter(w: string)
  {
    forall k :: 0 <= k < |w| ==> !('A' <= w[k] <= 'Z') && !('a' <= w[k] <= 'z')
  }

  /** Such a word occurs in the lower-cased text exactly where it occurs in the text. */
  lemma {:induction false} LowerKeepsPlainWord(s: string, w: string)
    requires NoAsciiLetter(w)
    ensures Contains(Lower(s), w) <==> Contains(s, w)
  {
    forall i | 0 <= i <= |s| - |w| ensures MatchAt(Lower(s), w, i) <==> MatchAt(s, w, i) {
      if MatchAt(s, w, i) {
        forall k | 0 <= k < |w| ensures Lower(s)[i..i + |w|][k] == w[k] {
          assert s[i..i + |w|][k] == w[k];
        }
      }
      if MatchAt(Lower(s), w, i) {
        forall k | 0 <= k < |w| ensures s[i..i + |w|][k] == w[k] {
          assert Lower(s)[i..i + |w|][k] == w[k];
          assert LowerChar(s[i + k]) == w[k];
        }
      }
    }
  }

  /** Lower-casing does not change which words of a letter-free list a text mentions. */
  lemma LowerKeepsPlainWords(s: string, words: seq<string>)
    requires forall i :: 0 <= i < |words| ==> NoAsciiLetter(words[i])
    ensures MentionsAny(Lower(s), words) <==> MentionsAny(s, words)
  {
    forall i | 0 <= i < |words| ensures Contains(Lower(s), words[i]) <==> Contains(s, words[i]) {
      LowerKeepsPlainWord(s, words[i]);
    }
  }

  /** Lower-casing the text does not change which arm a ladder of letter-free words picks. */
  lemma {:induction false} FirstMatchIgnoresCase<T>(s: string, rules: seq<Rule<T>>, otherwise: T)
    requires forall j, i :: 0 <= j < |rules| && 0 <= i < |rules[j].words| ==> NoAsciiLetter(rules[j].words[i])
    ensures FirstMatch(Lower(s), rules, otherwise) == FirstMatch(s, rules, otherwise)
    decreases |rules|
  {
    if rules != [] {
      LowerKeepsPlainWords(s, rules[0].words);
      forall j, i | 0 <= j < |rules[1..]| && 0 <= i < |rules[1..][j].words|
        ensures NoAsciiLetter(rules[1..][j].words[i])
      {
        assert rules[1..][j] == rules[j + 1];
      }
      FirstMatchIgnoresCase(s, rules[1..], otherwise);
    }
  }

  /**
   * The ladder's answer is the default or the answer of an arm that fires, where no earlier
   * arm fires.
   */
  lemma {:induction false} FirstMatchFired<T>(s: string, rules: seq<Rule<T>>, otherwise: T)
    ensures FirstMatch(s, rules, otherwise) == otherwise
         || exists j :: 0 <= j < |rules| && FirstMatch(s, rules, otherwise) == rules[j].result
                        && MentionsAny(s, rules[j].words)
                        && forall i :: 0 <= i < j ==> !MentionsAny(s, rules[i].words)
    decreases |rules|
  {
    if rules != [] && !MentionsAny(s, rules[0].words) {
      FirstMatchFired(s, rules[1..], otherwise);
      if FirstMatch(s, rules, otherwise) != otherwise {
        var j :| 0 <= j < |rules[1..]| && FirstMatch(s, rules[1..], otherwise) == rules[1..][j].result
                 && MentionsAny(s, rules[1..][j].words)
                 && forall i :: 0 <= i < j ==> !MentionsAny(s, rules[1..][i].words);
        assert rules[1..][j] == rules[j + 1];
        forall i | 0 <= i < j + 1 ensures !MentionsAny(s, rules[i].words) {
          if i > 0 {
            assert rules[1..][i - 1] == rules[i];
          }
        }
      }
    }
  }
}
