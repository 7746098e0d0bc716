/**
 The text that the fingerprint of a request is the digest of: its fields, joined by a character that
 none of them has. `QueryRuns` takes a fingerprint to be the fields themselves; here is why it may.
 */
module Fingerprints {
  import opened Wrappers
  import opened Texts
  import Fusion

  const SEPARATOR := '\U{1F}'

  // ---------------------------------------------------------------------------
  // Joining
  // ---------------------------------------------------------------------------

  ghost predicate Free(separator: char, s: string) {
    forall i :: 0 <= i < |s| ==> s[i] != separator
  }

  ghost predicate AllFree(separator: char, parts: seq<string>) {
    forall i :: 0 <= i < |parts| ==> Free(separator, parts[i])
  }

  lemma NotShorter(separator: char, a: string, b: string, x: string, y: string)
    requires Free(separator, b) && (x == [] || x[0] == separator) && a + x == b + y
    ensures |b| <= |a|
  {
    assert forall i :: 0 <= i < |a + x| ==> (a + x)[i] == (b + y)[i];
    assert forall i :: 0 <= i < |b| ==> (b + y)[i] == b[i];
    assert x != [] ==> (a + x)[|a|] == separator;
  }

  /** A text without the separator ends where the first separator is, or at the end. */
  lemma SameHead(separator: char, a: string, b: string, x: string, y: string)
    requires Free(separator, a) && Free(separator, b)
    requires (x == [] || x[0] == separator) && (y == [] || y[0] == separator) && a + x == b + y
    ensures a == b && x == y
  {
    NotShorter(separator, a, b, x, y);
    NotShorter(separator, b, a, y, x);
    assert a == (a + x)[..|a|] && b == (b + y)[..|b|];
    assert x == (a + x)[|a|..] && y == (b + y)[|b|..];
  }

  /** What follows the first part. */
  function Rest(separator: char, parts: seq<string>): string {
    if |parts| <= 1 then "" else [separator] + Join(separator, parts[1..])
  }

  lemma JoinFirst(separator: char, parts: seq<string>)
    requires parts != []
    ensures Join(separator, parts) == parts[0] + Rest(separator, parts)
  {
    if |parts| == 1 { assert parts[0] + "" == parts[0]; }
  }

  /** Lists that are not empty can be told from their joined text. */
  lemma {:induction false} JoinIsInjective(separator: char, a: seq<string>, b: seq<string>)
    requires a != [] && b != [] && AllFree(separator, a) && AllFree(separator, b)
    requires Join(separator, a) == Join(separator, b)
    ensures a == b
    decreases |a|
  {
    JoinFirst(separator, a);
    JoinFirst(separator, b);
    SameHead(separator, a[0], b[0], Rest(separator, a), Rest(separator, b));
    if |a| > 1 {
      assert Join(separator, a[1..]) == Rest(separator, a)[1..];
      assert Join(separator, b[1..]) == Rest(separator, b)[1..];
      JoinIsInjective(separator, a[1..], b[1..]);
    }
    assert a == [a[0]] + a[1..] && b == [b[0]] + b[1..];
  }

  lemma {:induction false} JoinIsFree(separator: char, other: char, parts: seq<string>)
    requires AllFree(other, parts) && separator != other
    ensures Free(other, Join(separator, parts))
  {
    if |parts| > 1 { JoinIsFree(separator, other, parts[1..]); }
  }

  // ---------------------------------------------------------------------------
  // sorted(set(...))
  // ---------------------------------------------------------------------------

  ghost predicate IsSorted(ids: set<string>, list: seq<string>) {
    && (forall id :: id in list <==> id in ids)
    && (forall i, j :: 0 <= i < j < |list| ==> Fusion.Less(list[i], list[j]))
  }

  lemma FirstIsLeast(ids: set<string>, a: seq<string>, b: seq<string>)
    requires IsSorted(ids, a) && IsSorted(ids, b) && a != [] && b != []
    ensures a[0] == b[0]
  {
    assert a[0] in b && b[0] in a;
    var j :| 0 <= j < |b| && b[j] == a[0];
    var i :| 0 <= i < |a| && a[i] == b[0];
    Fusion.LessIsTotal(a[0], b[0]);
  }

  lemma SortedTail(ids: set<string>, list: seq<string>)
    requires IsSorted(ids, list) && list != []
    ensures IsSorted(ids - {list[0]}, list[1..])
  {
    forall id ensures id in list[1..] <==> id in ids - {list[0]} {
      if k :| 0 <= k < |list[1..]| && list[1..][k] == id {
        assert list[k + 1] == id && Fusion.Less(list[0], id);
        Fusion.LessIsTotal(id, id);
      }
      if id in ids - {list[0]} {
        var k :| 0 <= k < |list| && list[k] == id;
        assert list[1..][k - 1] == id;
      }
    }
  }

  /** A set of IDs has one sorted list. */
  lemma {:induction false} SortedIsUnique(ids: set<string>, a: seq<string>, b: seq<string>)
    requires IsSorted(ids, a) && IsSorted(ids, b)
    ensures a == b
    decreases |a|
  {
    if a != [] && b != [] {
      FirstIsLeast(ids, a, b);
      SortedTail(ids, a);
      SortedTail(ids, b);
      SortedIsUnique(ids - {a[0]}, a[1..], b[1..]);
      assert a == [a[0]] + a[1..] && b == [b[0]] + b[1..];
    } else {
      SameEmpty(ids, a, b);
    }
  }

  lemma SameEmpty(ids: set<string>, a: seq<string>, b: seq<string>)
    requires IsSorted(ids, a) && IsSorted(ids, b) && (a == [] || b == [])
    ensures a == b
  {
    BothEmpty(a, b);
  }

  // ---------------------------------------------------------------------------
  // The question
  // ---------------------------------------------------------------------------

  /** `" ".join(text.strip().split())` */
  function Normalized(space: char -> bool, s: string): string {
    Join(' ', Words(space, s, ""))
  }

  lemma {:induction false} WordsAreFree(space: char -> bool, s: string, word: string, separator: char)
    requires space(separator) && Free(separator, word)
    ensures AllFree(separator, Words(space, s, word))
  {
    if s != [] {
      if space(s[0]) {
        WordsAreFree(space, s[1..], "", separator);
      } else {
        WordsAreFree(space, s[1..], word + [s[0]], separator);
      }
    }
  }

  /** Normalizing keeps the words of a text, and a text with the same words has the same normal form. */
  lemma NormalizedExactly(space: char -> bool, s: string, t: string)
    requires space(' ')
    ensures Words(space, Normalized(space, s), "") == Words(space, s, "")
    ensures Normalized(space, s) == Normalized(space, t) <==> Words(space, s, "") == Words(space, t, "")
  {
    WordsAreWords(space, s, "");
    JoinedWordsAreRead(space, ' ', Words(space, s, ""));
    WordsAreWords(space, t, "");
    JoinedWordsAreRead(space, ' ', Words(space, t, ""));
  }

  /** The separator is white space, so no normalized question has it. */
  lemma QuestionIsFree(space: char -> bool, s: string)
    requires space(SEPARATOR)
    ensures Free(SEPARATOR, Normalized(space, s))
  {
    WordsAreFree(space, s, "", SEPARATOR);
    JoinIsFree(' ', SEPARATOR, Words(space, s, ""));
  }

  // ---------------------------------------------------------------------------
  // _fingerprint
  // ---------------------------------------------------------------------------

  datatype Fields = Fields(tenant: string, user: string, conversation: Option<string>, question: string,
                           knowledgeBases: set<string>, channel: string)

  /** An ID as the validation of a request lets it through: neither empty nor with one of the separators. */
  ghost predicate IsPlain(id: string) {
    id != "" && Free(SEPARATOR, id) && Free(',', id)
  }

  ghost predicate Admissible(space: char -> bool, f: Fields) {
    && space(SEPARATOR)
    && IsPlain(f.tenant) && IsPlain(f.user) && IsPlain(f.channel)
    && (f.conversation.Some? ==> IsPlain(f.conversation.value))
    && (forall id :: id in f.knowledgeBases ==> IsPlain(id))
    && exists raw :: f.question == Normalized(space, raw)
  }

  /** The text, where `list` is the sorted list of the knowledge bases. */
  function Text(f: Fields, list: seq<string>): string {
    Join(SEPARATOR, Parts(f, list))
  }

  function Parts(f: Fields, list: seq<string>): seq<string> {
    var conversation := if f.conversation.Some? then f.conversation.value else "";
    [f.tenant, f.user, conversation, f.question, Join(',', list), f.channel]
  }

  lemma PartsAreFree(space: char -> bool, f: Fields, list: seq<string>)
    requires Admissible(space, f) && IsSorted(f.knowledgeBases, list)
    ensures AllFree(SEPARATOR, Parts(f, list))
  {
    var raw :| f.question == Normalized(space, raw);
    QuestionIsFree(space, raw);
    assert forall i :: 0 <= i < |list| ==> list[i] in f.knowledgeBases;
    JoinIsFree(',', SEPARATOR, list);
  }

  /** A list of IDs is empty exactly if its text is. */
  lemma ListsAgree(a: seq<string>, b: seq<string>)
    requires forall i :: 0 <= i < |a| ==> IsPlain(a[i])
    requires forall i :: 0 <= i < |b| ==> IsPlain(b[i])
    requires Join(',', a) == Join(',', b)
    ensures a == b
  {
    if a != [] { JoinFirst(',', a); }
    if b != [] { JoinFirst(',', b); }
    if a != [] && b != [] { JoinIsInjective(',', a, b); }
  }

  /** Two requests have the same text, before the digest is taken of it, exactly if they have the same fields. */
  lemma TextIsInjective(space: char -> bool, f: Fields, g: Fields, a: seq<string>, b: seq<string>)
    requires Admissible(space, f) && IsSorted(f.knowledgeBases, a)
    requires Admissible(space, g) && IsSorted(g.knowledgeBases, b)
    ensures Text(f, a) == Text(g, b) <==> f == g
  {
    if f == g {
      SortedIsUnique(f.knowledgeBases, a, b);
    }
    if Text(f, a) == Text(g, b) {
      PartsAreFree(space, f, a);
      PartsAreFree(space, g, b);
      JoinIsInjective(SEPARATOR, Parts(f, a), Parts(g, b));
      SamePartsSameFields(f, g, a, b);
    }
  }

  lemma SamePartsSameFields(f: Fields, g: Fields, a: seq<string>, b: seq<string>)
    requires Parts(f, a) == Parts(g, b) && IsSorted(f.knowledgeBases, a) && IsSorted(g.knowledgeBases, b)
    requires forall id :: id in f.knowledgeBases ==> IsPlain(id)
    requires forall id :: id in g.knowledgeBases ==> IsPlain(id)
    requires f.conversation.Some? ==> f.conversation.value != ""
    requires g.conversation.Some? ==> g.conversation.value != ""
    ensures f == g
  {
    var p, q := Parts(f, a), Parts(g, b);
    assert p[0] == q[0] && p[1] == q[1] && p[2] == q[2] && p[3] == q[3] && p[4] == q[4] && p[5] == q[5];
    assert forall i :: 0 <= i < |a| ==> a[i] in f.knowledgeBases;
    assert forall i :: 0 <= i < |b| ==> b[i] in g.knowledgeBases;
    ListsAgree(a, b);
    assert f.knowledgeBases == g.knowledgeBases;
  }
}
