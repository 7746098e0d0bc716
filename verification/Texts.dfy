/** The words of a text, over any kind of character, and texts joined by a separator. */
module Texts {

  /** `text.split()`, of what follows after `word` was read. */
  function Words<T>(space: T -> bool, s: seq<T>, word: seq<T>): seq<seq<T>> {
    var ended := if |word| == 0 then [] else [word];
    if |s| == 0 then ended
    else if space(s[0]) then ended + Words(space, s[1..], [])
    else Words(space, s[1..], word + [s[0]])
  }

  /** `separator.join(parts)` */
  function Join<T>(separator: T, parts: seq<seq<T>>): seq<T> {
    if |parts| == 0 then []
    else if |parts| == 1 then parts[0]
    else parts[0] + ([separator] + Join(separator, parts[1..]))
  }

  ghost predicate AllSpace<T(!new)>(space: T -> bool, s: seq<T>) {
    forall i :: 0 <= i < |s| ==> space(s[i])
  }

  ghost predicate NoSpace<T(!new)>(space: T -> bool, s: seq<T>) {
    forall i :: 0 <= i < |s| ==> !space(s[i])
  }

  ghost predicate AreWords<T(!new)>(space: T -> bool, words: seq<seq<T>>) {
    forall i :: 0 <= i < |words| ==> |words[i]| > 0 && NoSpace(space, words[i])
  }

  /** All characters but white space. */
  function Visible<T>(space: T -> bool, s: seq<T>): seq<T> {
    if |s| == 0 then [] else (if space(s[0]) then [] else [s[0]]) + Visible(space, s[1..])
  }

  function Concat<T>(parts: seq<seq<T>>): seq<T> {
    if |parts| == 0 then [] else parts[0] + Concat(parts[1..])
  }

  lemma {:induction false} WordsAreWords<T(!new)>(space: T -> bool, s: seq<T>, word: seq<T>)
    requires NoSpace(space, word)
    ensures AreWords(space, Words(space, s, word))
  {
    if |s| > 0 {
      if space(s[0]) { WordsAreWords(space, s[1..], []); } else { WordsAreWords(space, s[1..], word + [s[0]]); }
    }
  }

  lemma ConcatFirst<T>(first: seq<T>, parts: seq<seq<T>>)
    ensures Concat([first] + parts) == first + Concat(parts)
  {
    assert ([first] + parts)[1..] == parts;
  }

  /** The words of a text are together all of it but the white space. */
  lemma {:induction false} WordsKeepTheRest<T>(space: T -> bool, s: seq<T>, word: seq<T>)
    ensures Concat(Words(space, s, word)) == word + Visible(space, s)
    decreases |s|
  {
    var ended := if |word| == 0 then [] else [word];
    assert Concat(ended) == word by {
      if |word| > 0 { ConcatFirst(word, []); assert [word] + [] == [word] && word + [] == word; }
    }
    if |s| > 0 && space(s[0]) {
      var more := Words(space, s[1..], []);
      WordsKeepTheRest(space, s[1..], []);
      if |word| > 0 { ConcatFirst(word, more); } else { assert ended + more == more; }
    } else if |s| > 0 {
      WordsKeepTheRest(space, s[1..], word + [s[0]]);
      assert word + [s[0]] + Visible(space, s[1..]) == word + Visible(space, s);
    }
  }

  /** A text has no words exactly if it is all white space. */
  lemma {:induction false} NoWordsExactly<T(!new)>(space: T -> bool, s: seq<T>)
    ensures |Words(space, s, [])| == 0 <==> AllSpace(space, s)
  {
    if |s| > 0 {
      if space(s[0]) {
        NoWordsExactly(space, s[1..]);
        assert forall i :: 0 < i < |s| ==> s[i] == s[1..][i - 1];
      } else {
        WordIsKept(space, s[1..], [s[0]]);
        assert [] + [s[0]] == [s[0]];
      }
    }
  }

  lemma {:induction false} WordIsKept<T>(space: T -> bool, s: seq<T>, word: seq<T>)
    requires |word| > 0
    ensures |Words(space, s, word)| > 0
    decreases |s|
  {
    if |s| > 0 && !space(s[0]) { WordIsKept(space, s[1..], word + [s[0]]); }
  }

  /** A run without white space goes on with the word before it. */
  lemma {:induction false} WordGoesOn<T(!new)>(space: T -> bool, run: seq<T>, s: seq<T>, word: seq<T>)
    requires NoSpace(space, run)
    ensures Words(space, run + s, word) == Words(space, s, word + run)
    decreases |run|
  {
    if |run| == 0 {
      assert run + s == s && word + run == word;
    } else {
      assert (run + s)[1..] == run[1..] + s;
      assert (word + [run[0]]) + run[1..] == word + run;
      WordGoesOn(space, run[1..], s, word + [run[0]]);
    }
  }

  /** Words joined by white space are read back. */
  lemma {:induction false} JoinedWordsAreRead<T(!new)>(space: T -> bool, separator: T, words: seq<seq<T>>)
    requires space(separator) && AreWords(space, words)
    ensures Words(space, Join(separator, words), []) == words
    decreases |words|
  {
    if |words| > 0 {
      var rest := if |words| == 1 then [] else [separator] + Join(separator, words[1..]);
      assert Join(separator, words) == words[0] + rest && [] + words[0] == words[0];
      WordGoesOn(space, words[0], rest, []);
      if |words| > 1 {
        assert rest[1..] == Join(separator, words[1..]);
        JoinedWordsAreRead(space, separator, words[1..]);
      }
    }
  }

  /** White space in front of a text is not part of any word, ... */
  lemma {:induction false} LeadIsLost<T(!new)>(space: T -> bool, lead: seq<T>, s: seq<T>)
    requires AllSpace(space, lead)
    ensures Words(space, lead + s, []) == Words(space, s, [])
    decreases |lead|
  {
    if |lead| == 0 {
      assert lead + s == s;
    } else {
      assert (lead + s)[1..] == lead[1..] + s;
      LeadIsLost(space, lead[1..], s);
    }
  }

  /** ... nor is white space behind it. */
  lemma {:induction false} TrailIsLost<T(!new)>(space: T -> bool, s: seq<T>, trail: seq<T>, word: seq<T>)
    requires AllSpace(space, trail)
    ensures Words(space, s + trail, word) == Words(space, s, word)
    decreases |s|
  {
    if |s| == 0 {
      assert s + trail == trail;
      OnlyTrail(space, trail, word);
    } else {
      assert (s + trail)[1..] == s[1..] + trail;
      TrailIsLost(space, s[1..], trail, if space(s[0]) then [] else word + [s[0]]);
    }
  }

  lemma OnlyTrail<T(!new)>(space: T -> bool, trail: seq<T>, word: seq<T>)
    requires AllSpace(space, trail)
    ensures Words(space, trail, word) == Words(space, [], word)
  {
    if |trail| > 0 {
      assert trail[1..] + [] == trail[1..];
      LeadIsLost(space, trail[1..], []);
    }
  }

  /** What is between white space has the words of the whole. */
  lemma TrimmedHasTheWords<T(!new)>(space: T -> bool, whole: seq<T>, lead: seq<T>, s: seq<T>, trail: seq<T>)
    requires AllSpace(space, lead) && AllSpace(space, trail) && whole == lead + (s + trail)
    ensures Words(space, whole, []) == Words(space, s, [])
  {
    LeadIsLost(space, lead, s + trail);
    TrailIsLost(space, s, trail, []);
  }

  lemma ThreeParts<T>(s: seq<T>, i: nat, j: nat)
    requires i <= j <= |s|
    ensures s == s[..i] + (s[i..j] + s[j..])
  {
  }
}
