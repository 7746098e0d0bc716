/**
 The text message that carries an answer: the answer, then the list of its sources, cut to what the
 messaging service takes, 2000 bytes, without breaking a character.
 */
module WeComText {
  import opened Octets
  import opened Utf8
  import T = Texts

  const MAX_BYTES := 2000

  datatype OutboundCitation = OutboundCitation(index: int, title: Bytes, locatorType: Bytes, locatorValue: Bytes)

  const ELLIPSIS: Bytes := [0xE2, 0x80, 0xA6]

  /** Two line feeds and three characters: the heading of the list of sources. */
  const HEADING: Bytes := [0x0A, 0x0A, 0xE6, 0x9D, 0xA5, 0xE6, 0xBA, 0x90, 0xEF, 0xBC, 0x9A]

  /** The brackets around a title, U+300A and U+300B. */
  const OPEN: Bytes := [0xE3, 0x80, 0x8A]
  const CLOSE: Bytes := [0xE3, 0x80, 0x8B]

  // ---------------------------------------------------------------------------
  // White space
  // ---------------------------------------------------------------------------

  /** `unicode.IsSpace` */
  predicate IsSpace(c: int) {
    || 0x09 <= c <= 0x0D || c == 0x20 || c == 0x85 || c == 0xA0 || c == 0x1680 || 0x2000 <= c <= 0x200A
    || c == 0x2028 || c == 0x2029 || c == 0x202F || c == 0x205F || c == 0x3000
  }

  function TrimLeft(s: Bytes): Bytes
    decreases |s|
  {
    if s != [] && IsSpace(DecodeRune(s).code) then TrimLeft(s[DecodeRune(s).size..]) else s
  }

  function TrimRight(s: Bytes): (r: Bytes)
    ensures |r| <= |s|
    decreases |s|
  {
    if s == [] then []
    else
      var rune := DecodeRune(s);
      var rest := TrimRight(s[rune.size..]);
      if rest == [] && IsSpace(rune.code) then [] else s[..rune.size] + rest
  }

  /** `strings.TrimSpace` */
  function TrimSpace(s: Bytes): Bytes {
    TrimRight(TrimLeft(s))
  }

  function Flushed(word: Bytes): seq<Bytes> {
    if word == [] then [] else [word]
  }

  /** `strings.Fields`, of what follows after `word` was read. */
  function Fields(s: Bytes, word: Bytes): seq<Bytes>
    decreases |s|
  {
    if s == [] then Flushed(word)
    else
      var r := DecodeRune(s);
      if IsSpace(r.code) then Flushed(word) + Fields(s[r.size..], [])
      else Fields(s[r.size..], word + s[..r.size])
  }

  /** `strings.Join(words, " ")` */
  function Join(words: seq<Bytes>): Bytes {
    if words == [] then [] else if |words| == 1 then words[0] else words[0] + [0x20] + Join(words[1..])
  }

  /** `compact` */
  function Compact(value: Bytes, maxRunes: nat): Bytes
    requires maxRunes > 0
  {
    var text := Join(Fields(value, []));
    if |Codes(text)| <= maxRunes then text
    else
      CodesAreScalars(text);
      Encode(Codes(text)[..maxRunes - 1]) + ELLIPSIS
  }

  // ---------------------------------------------------------------------------
  // Cutting
  // ---------------------------------------------------------------------------

  /** The runes of `s` as long as their encoded lengths fit into `left` bytes. */
  function Cut(s: Bytes, left: nat): Bytes
    decreases |s|
  {
    if s == [] || RuneLen(DecodeRune(s).code) > left then []
    else s[..DecodeRune(s).size] + Cut(s[DecodeRune(s).size..], left - RuneLen(DecodeRune(s).code))
  }

  /** `truncateUTF8` */
  function Truncated(value: Bytes, limit: int): Bytes {
    if |value| <= limit then value else if limit <= 0 then [] else Cut(value, limit)
  }

  // ---------------------------------------------------------------------------
  // The sources
  // ---------------------------------------------------------------------------

  function Digits(n: nat): Bytes {
    if n < 10 then [0x30 + n] else Digits(n / 10) + [0x30 + n % 10]
  }

  /** `%d` */
  function Decimal(n: int): Bytes {
    if n < 0 then [0x2D] + Digits(-n) else Digits(n)
  }

  /** One source: its number, its title in angle brackets, and where it is, if that is known. */
  function SourceLine(c: OutboundCitation): Bytes {
    var place := Compact(TrimSpace(c.locatorType + [0x20] + c.locatorValue), 80);
    [0x0A, 0x5B] + Decimal(c.index) + [0x5D] + OPEN + Compact(c.title, 80) + CLOSE
    + if place == [] then [] else [0x20] + place
  }

  /** The lines of the first `n` sources, behind a heading. */
  function WithLines(heading: Bytes, citations: seq<OutboundCitation>, n: nat): Bytes
    requires n <= |citations|
  {
    if n == 0 then heading else WithLines(heading, citations, n - 1) + SourceLine(citations[n - 1])
  }

  function Sources(citations: seq<OutboundCitation>): Bytes {
    if citations == [] then [] else WithLines(HEADING, citations, |citations|)
  }

  // ---------------------------------------------------------------------------
  // FormatWeComText
  // ---------------------------------------------------------------------------

  function Formatted(answer: Bytes, citations: seq<OutboundCitation>): Bytes {
    var content, suffix := TrimSpace(answer), Sources(citations);
    if |content| + |suffix| <= MAX_BYTES then content + suffix
    else if |suffix| >= MAX_BYTES - 4 then Truncated(content + suffix, MAX_BYTES)
    else Truncated(content, MAX_BYTES - |suffix| - |ELLIPSIS|) + ELLIPSIS + suffix
  }

  method FormatWeComText(answer: Bytes, citations: seq<OutboundCitation>) returns (text: Bytes)
    ensures text == Formatted(answer, citations)
  {
    var content := TrimSpace(answer);
    var suffix := FormatSources(citations);
    if |content| + |suffix| <= MAX_BYTES {
      return content + suffix;
    }
    if |suffix| >= MAX_BYTES - 4 {
      text := TruncateUTF8(content + suffix, MAX_BYTES);
      return;
    }
    var start := TruncateUTF8(content, MAX_BYTES - |suffix| - |ELLIPSIS|);
    return start + ELLIPSIS + suffix;
  }

  method FormatSources(citations: seq<OutboundCitation>) returns (suffix: Bytes)
    ensures suffix == Sources(citations)
  {
    suffix := [];
    if |citations| > 0 {
      suffix := WriteLines(HEADING, citations);
    }
  }

  method WriteLines(heading: Bytes, citations: seq<OutboundCitation>) returns (suffix: Bytes)
    ensures suffix == WithLines(heading, citations, |citations|)
  {
    suffix := heading;
    for i := 0 to |citations|
      invariant suffix == WithLines(heading, citations, i)
    {
      var line := FormatSource(citations[i]);
      suffix := suffix + line;
    }
  }

  method FormatSource(c: OutboundCitation) returns (line: Bytes)
    ensures line == SourceLine(c)
  {
    var title := Compact(c.title, 80);
    var place := Compact(TrimSpace(c.locatorType + [0x20] + c.locatorValue), 80);
    line := [0x0A, 0x5B] + Decimal(c.index) + [0x5D] + OPEN + title + CLOSE;
    if place != [] {
      line := line + ([0x20] + place);
    }
  }

  /** How far the runes of `s` reach whose encoded lengths fit into `left` bytes. */
  function Reach(s: Bytes, left: nat): (end: nat)
    ensures end <= |s|
    decreases |s|
  {
    if s == [] || RuneLen(DecodeRune(s).code) > left then 0
    else DecodeRune(s).size + Reach(s[DecodeRune(s).size..], left - RuneLen(DecodeRune(s).code))
  }

  lemma {:induction false} CutReaches(s: Bytes, left: nat)
    ensures Cut(s, left) == s[..Reach(s, left)]
    decreases |s|
  {
    if s != [] && RuneLen(DecodeRune(s).code) <= left {
      var r := DecodeRune(s);
      var rest, more := s[r.size..], left - RuneLen(r.code);
      CutReaches(rest, more);
      assert s[..r.size] + rest[..Reach(rest, more)] == s[..r.size + Reach(rest, more)];
    }
  }

  lemma ReachOn(value: Bytes, index: nat, left: nat)
    requires index < |value|
    ensures var r := DecodeRune(value[index..]);
            Reach(value[index..], left)
            == if RuneLen(r.code) > left then 0 else r.size + Reach(value[index + r.size..], left - RuneLen(r.code))
  {
    var r := DecodeRune(value[index..]);
    assert value[index..][r.size..] == value[index + r.size..];
  }

  method TruncateUTF8(value: Bytes, limit: int) returns (r: Bytes)
    ensures r == Truncated(value, limit)
  {
    if |value| <= limit {
      return value;
    }
    if limit <= 0 {
      return [];
    }
    r := CutToFit(value, limit);
  }

  /** The loop of `truncateUTF8`. */
  method CutToFit(value: Bytes, limit: nat) returns (r: Bytes)
    ensures r == Cut(value, limit)
  {
    CutReaches(value, limit);
    var end := Stop(value, limit);
    return value[..end];
  }

  method Stop(value: Bytes, limit: nat) returns (index: nat)
    ensures index == Reach(value, limit)
  {
    index := 0;
    var used: nat := 0;
    assert value[0..] == value;
    while index < |value|
      invariant index <= |value| && used <= limit
      invariant index + Reach(value[index..], limit - used) == Reach(value, limit)
    {
      var rune := DecodeRune(value[index..]);
      ReachOn(value, index, limit - used);
      if used + RuneLen(rune.code) > limit {
        return;
      }
      index, used := index + rune.size, used + RuneLen(rune.code);
    }
  }

  // ---------------------------------------------------------------------------
  // Valid texts stay valid
  // ---------------------------------------------------------------------------

  lemma {:induction false} TrimLeftIsValid(s: Bytes)
    requires Valid(s)
    ensures Valid(TrimLeft(s))
    decreases |s|
  {
    if s != [] && IsSpace(DecodeRune(s).code) { TrimLeftIsValid(s[DecodeRune(s).size..]); }
  }

  lemma {:induction false} TrimRightIsValid(s: Bytes)
    requires Valid(s)
    ensures Valid(TrimRight(s))
    decreases |s|
  {
    if s != [] {
      var size := DecodeRune(s).size;
      TrimRightIsValid(s[size..]);
      RuneIsValid(s);
      ConcatIsValid(s[..size], TrimRight(s[size..]));
    }
  }

  lemma TrimSpaceIsValid(s: Bytes)
    requires Valid(s)
    ensures Valid(TrimSpace(s))
  {
    TrimLeftIsValid(s);
    TrimRightIsValid(TrimLeft(s));
  }

  ghost predicate AllValid(words: seq<Bytes>) {
    forall i :: 0 <= i < |words| ==> Valid(words[i])
  }

  lemma {:induction false} FieldsAreValid(s: Bytes, word: Bytes)
    requires Valid(s) && Valid(word)
    ensures AllValid(Fields(s, word))
    decreases |s|
  {
    if s != [] {
      var r := DecodeRune(s);
      if IsSpace(r.code) {
        FieldsAreValid(s[r.size..], []);
      } else {
        RuneIsValid(s);
        ConcatIsValid(word, s[..r.size]);
        FieldsAreValid(s[r.size..], word + s[..r.size]);
      }
    }
  }

  lemma AsciiIsValid(b: Byte)
    requires b < 0x80
    ensures Valid([b])
  {
  }

  lemma {:induction false} JoinIsValid(words: seq<Bytes>)
    requires AllValid(words)
    ensures Valid(Join(words))
  {
    if |words| > 1 {
      JoinIsValid(words[1..]);
      AsciiIsValid(0x20);
      ConcatIsValid(words[0], [0x20]);
      ConcatIsValid(words[0] + [0x20], Join(words[1..]));
    }
  }

  lemma MarksAreValid()
    ensures Valid(ELLIPSIS) && |Codes(ELLIPSIS)| == 1 && Valid(OPEN) && Valid(CLOSE)
  {
  }

  lemma HeadingIsValid()
    ensures Valid(HEADING)
  {
    var a, b, c: Bytes := [0xE6, 0x9D, 0xA5], [0xE6, 0xBA, 0x90], [0xEF, 0xBC, 0x9A];
    assert Valid(a) && Valid(b) && Valid(c) && Valid([0x0A, 0x0A]);
    ConcatIsValid([0x0A, 0x0A], a);
    ConcatIsValid([0x0A, 0x0A] + a, b);
    ConcatIsValid([0x0A, 0x0A] + a + b, c);
    assert HEADING == [0x0A, 0x0A] + a + b + c;
  }

  /** A compacted text has at most `maxRunes` runes, and is valid when the text was. */
  lemma CompactIsShort(value: Bytes, maxRunes: nat)
    requires maxRunes > 0
    ensures |Codes(Compact(value, maxRunes))| <= maxRunes
    ensures Valid(value) ==> Valid(Compact(value, maxRunes))
  {
    var text := Join(Fields(value, []));
    if Valid(value) {
      FieldsAreValid(value, []);
      JoinIsValid(Fields(value, []));
    }
    if |Codes(text)| > maxRunes {
      CodesAreScalars(text);
      var kept := Codes(text)[..maxRunes - 1];
      DecodesEncode(kept);
      MarksAreValid();
      ConcatIsValid(Encode(kept), ELLIPSIS);
      ConcatCodes(Encode(kept), ELLIPSIS);
    }
  }

  lemma {:induction false} DigitsAreValid(n: nat)
    ensures Valid(Digits(n))
  {
    AsciiIsValid(0x30 + n % 10);
    if n >= 10 {
      DigitsAreValid(n / 10);
      ConcatIsValid(Digits(n / 10), [0x30 + n % 10]);
    }
  }

  lemma DecimalIsValid(n: int)
    ensures Valid(Decimal(n))
  {
    DigitsAreValid(if n < 0 then -n else n);
    if n < 0 {
      AsciiIsValid(0x2D);
      ConcatIsValid([0x2D], Digits(-n));
    }
  }

  predicate ValidCitation(c: OutboundCitation) {
    Valid(c.title) && Valid(c.locatorType) && Valid(c.locatorValue)
  }

  lemma PlaceIsValid(c: OutboundCitation)
    requires ValidCitation(c)
    ensures Valid(Compact(TrimSpace(c.locatorType + [0x20] + c.locatorValue), 80))
  {
    AsciiIsValid(0x20);
    ConcatIsValid(c.locatorType, [0x20]);
    ConcatIsValid(c.locatorType + [0x20], c.locatorValue);
    TrimSpaceIsValid(c.locatorType + [0x20] + c.locatorValue);
    CompactIsShort(TrimSpace(c.locatorType + [0x20] + c.locatorValue), 80);
  }

  lemma Concat3(a: Bytes, b: Bytes, c: Bytes)
    requires Valid(a) && Valid(b) && Valid(c)
    ensures Valid(a + b + c)
  {
    ConcatIsValid(a, b);
    ConcatIsValid(a + b, c);
  }

  lemma SourceLineIsValid(c: OutboundCitation)
    requires ValidCitation(c)
    ensures Valid(SourceLine(c))
  {
    var place := Compact(TrimSpace(c.locatorType + [0x20] + c.locatorValue), 80);
    PlaceIsValid(c);
    DecimalIsValid(c.index);
    CompactIsShort(c.title, 80);
    MarksAreValid();
    AsciiIsValid(0x5D);
    AsciiIsValid(0x20);
    Concat3([0x0A, 0x5B], Decimal(c.index), [0x5D]);
    Concat3([0x0A, 0x5B] + Decimal(c.index) + [0x5D], OPEN, Compact(c.title, 80));
    ConcatIsValid([0x20], place);
    Concat3([0x0A, 0x5B] + Decimal(c.index) + [0x5D] + OPEN + Compact(c.title, 80), CLOSE,
            if place == [] then [] else [0x20] + place);
  }

  function Appended(text: Bytes, lines: seq<Bytes>): Bytes {
    if lines == [] then text else Appended(text, lines[..|lines| - 1]) + lines[|lines| - 1]
  }

  function EachLine(citations: seq<OutboundCitation>, n: nat): seq<Bytes>
    requires n <= |citations|
  {
    seq(n, i requires 0 <= i < n => SourceLine(citations[i]))
  }

  lemma {:induction false} LinesAreAppended(heading: Bytes, citations: seq<OutboundCitation>, n: nat)
    requires n <= |citations|
    ensures WithLines(heading, citations, n) == Appended(heading, EachLine(citations, n))
  {
    if n > 0 {
      LinesAreAppended(heading, citations, n - 1);
      assert EachLine(citations, n)[..n - 1] == EachLine(citations, n - 1);
    }
  }

  lemma {:induction false} AppendedIsValid(text: Bytes, lines: seq<Bytes>)
    requires Valid(text) && AllValid(lines)
    ensures Valid(Appended(text, lines))
  {
    if lines != [] {
      var front := lines[..|lines| - 1];
      AppendedIsValid(text, front);
      ConcatIsValid(Appended(text, front), lines[|lines| - 1]);
    }
  }

  lemma EachLineIsValid(citations: seq<OutboundCitation>, n: nat)
    requires n <= |citations| && forall i :: 0 <= i < |citations| ==> ValidCitation(citations[i])
    ensures AllValid(EachLine(citations, n))
  {
    forall i | 0 <= i < n ensures Valid(EachLine(citations, n)[i]) { SourceLineIsValid(citations[i]); }
  }

  lemma SourcesAreValid(citations: seq<OutboundCitation>)
    requires forall i :: 0 <= i < |citations| ==> ValidCitation(citations[i])
    ensures Valid(Sources(citations))
  {
    HeadingIsValid();
    LinesAreAppended(HEADING, citations, |citations|);
    EachLineIsValid(citations, |citations|);
    AppendedIsValid(HEADING, EachLine(citations, |citations|));
  }

  lemma TruncatedIsValid(s: Bytes, limit: int)
    requires Valid(s)
    ensures Valid(Truncated(s, limit))
  {
    if limit > 0 { CutIsValid(s, limit); }
  }

  lemma {:induction false} CutIsValid(s: Bytes, left: nat)
    requires Valid(s)
    ensures Valid(Cut(s, left))
    decreases |s|
  {
    if s != [] && RuneLen(DecodeRune(s).code) <= left {
      var r := DecodeRune(s);
      CutIsValid(s[r.size..], left - RuneLen(r.code));
      RuneIsValid(s);
      ConcatIsValid(s[..r.size], Cut(s[r.size..], left - RuneLen(r.code)));
    }
  }

  /** Whenever the answer and its sources are valid UTF-8, so is the message. */
  lemma FormattedIsValid(answer: Bytes, citations: seq<OutboundCitation>)
    requires Valid(answer) && forall i :: 0 <= i < |citations| ==> ValidCitation(citations[i])
    ensures Valid(Formatted(answer, citations))
  {
    var content, suffix := TrimSpace(answer), Sources(citations);
    TrimSpaceIsValid(answer);
    SourcesAreValid(citations);
    if |content| + |suffix| <= MAX_BYTES || |suffix| >= MAX_BYTES - 4 {
      ConcatIsValid(content, suffix);
      TruncatedIsValid(content + suffix, MAX_BYTES);
    } else {
      var limit := MAX_BYTES - |suffix| - |ELLIPSIS|;
      TruncatedIsValid(content, limit);
      EllipsisIsValid(Truncated(content, limit), suffix);
    }
  }

  lemma EllipsisIsValid(start: Bytes, suffix: Bytes)
    requires Valid(start) && Valid(suffix)
    ensures Valid(start + ELLIPSIS + suffix)
  {
    MarksAreValid();
    Concat3(start, ELLIPSIS, suffix);
  }

  // ---------------------------------------------------------------------------
  // White space is what is lost
  // ---------------------------------------------------------------------------

  lemma ConsSlices(c: int, rest: seq<int>, k: nat)
    requires k <= |rest|
    ensures ([c] + rest)[k + 1..] == rest[k..] && ([c] + rest)[..k + 1] == [c] + rest[..k]
  {
  }

  lemma {:induction false} TrimLeftTrims(s: Bytes) returns (k: nat)
    ensures k <= |Codes(s)| && Codes(TrimLeft(s)) == Codes(s)[k..] && T.AllSpace(IsSpace, Codes(s)[..k])
    ensures k < |Codes(s)| ==> !IsSpace(Codes(s)[k])
    decreases |s|
  {
    k := 0;
    if s != [] && IsSpace(DecodeRune(s).code) {
      var more := s[DecodeRune(s).size..];
      var m := TrimLeftTrims(more);
      ConsSlices(DecodeRune(s).code, Codes(more), m);
      k := m + 1;
    }
  }

  lemma {:induction false} TrimRightTrims(s: Bytes) returns (k: nat)
    requires Valid(s)
    ensures k <= |Codes(s)| && Codes(TrimRight(s)) == Codes(s)[..k] && T.AllSpace(IsSpace, Codes(s)[k..])
    ensures k > 0 ==> !IsSpace(Codes(s)[k - 1])
    decreases |s|
  {
    k := 0;
    if s != [] {
      var r := DecodeRune(s);
      var rest := s[r.size..];
      var m := TrimRightTrims(rest);
      assert |Codes(TrimRight(rest))| == m;
      if TrimRight(rest) == [] && IsSpace(r.code) {
        assert T.AllSpace(IsSpace, [r.code] + Codes(rest));
      } else {
        KeptRune(s, r, rest);
        ConsSlices(r.code, Codes(rest), m);
        assert m == 0 ==> TrimRight(rest) == [];
        k := m + 1;
      }
    }
  }

  /** A rune that is not trimmed stands before what is left of the rest. */
  lemma KeptRune(s: Bytes, r: Rune, rest: Bytes)
    requires Valid(s) && s != [] && r == DecodeRune(s) && rest == s[r.size..]
    requires TrimRight(rest) != [] || !IsSpace(r.code)
    ensures Codes(TrimRight(s)) == [r.code] + Codes(TrimRight(rest))
  {
    RuneIsValid(s);
    OneRune(s);
    TrimRightIsValid(rest);
    ConcatCodes(s[..r.size], TrimRight(rest));
  }

  lemma OneRune(s: Bytes)
    requires s != [] && DecodeRune(s) != INVALID
    ensures Codes(s[..DecodeRune(s).size]) == [DecodeRune(s).code]
  {
    var r := DecodeRune(s);
    EncodesDecoded(s);
    DecodesEncoded(r.code, []);
    assert EncodeRune(r.code) + [] == s[..r.size];
    assert s[..r.size][r.size..] == [];
  }

  /** What `TrimSpace` leaves of a valid text is the part without the white space at its ends. */
  lemma TrimSpaceTrims(s: Bytes) returns (i: nat, j: nat)
    requires Valid(s)
    ensures i <= j <= |Codes(s)| && Codes(TrimSpace(s)) == Codes(s)[i..j]
    ensures T.AllSpace(IsSpace, Codes(s)[..i]) && T.AllSpace(IsSpace, Codes(s)[j..])
    ensures i < j ==> !IsSpace(Codes(s)[i]) && !IsSpace(Codes(s)[j - 1])
  {
    i := TrimLeftTrims(s);
    TrimLeftIsValid(s);
    var k := TrimRightTrims(TrimLeft(s));
    j := i + k;
    var left := Codes(s)[i..];
    assert left[..k] == Codes(s)[i..j] && left[k..] == Codes(s)[j..];
  }

  function EachCodes(words: seq<Bytes>): seq<seq<int>> {
    seq(|words|, i requires 0 <= i < |words| => Codes(words[i]))
  }

  lemma EachCodesAppend(word: Bytes, words: seq<Bytes>)
    ensures EachCodes(Flushed(word) + words) == (if |Codes(word)| == 0 then [] else [Codes(word)]) + EachCodes(words)
  {
    if word != [] { assert (Flushed(word) + words)[0] == word; }
  }

  /** The words of a valid text are, in runes, what lies between its white space. */
  lemma {:induction false} FieldsAreWords(s: Bytes, word: Bytes)
    requires Valid(s) && Valid(word)
    ensures EachCodes(Fields(s, word)) == T.Words(IsSpace, Codes(s), Codes(word))
    decreases |s|
  {
    if s == [] {
      EachCodesAppend(word, []);
      assert Flushed(word) + [] == Flushed(word);
    } else {
      var r := DecodeRune(s);
      var rest := s[r.size..];
      assert Codes(s)[0] == r.code && Codes(s)[1..] == Codes(rest);
      if IsSpace(r.code) {
        FieldsAreWords(rest, []);
        EachCodesAppend(word, Fields(rest, []));
      } else {
        RuneIsValid(s);
        OneRune(s);
        ConcatIsValid(word, s[..r.size]);
        ConcatCodes(word, s[..r.size]);
        FieldsAreWords(rest, word + s[..r.size]);
      }
    }
  }

  /** The words of a valid text are together all of it but the white space, and none is empty or has any. */
  lemma FieldsKeepTheRest(s: Bytes)
    requires Valid(s)
    ensures T.Concat(EachCodes(Fields(s, []))) == T.Visible(IsSpace, Codes(s))
    ensures T.AreWords(IsSpace, EachCodes(Fields(s, [])))
  {
    FieldsAreWords(s, []);
    T.WordsKeepTheRest(IsSpace, Codes(s), []);
    T.WordsAreWords(IsSpace, Codes(s), []);
  }

  lemma {:induction false} JoinCodes(words: seq<Bytes>)
    requires AllValid(words)
    ensures Codes(Join(words)) == T.Join(0x20, EachCodes(words))
  {
    if |words| > 1 {
      JoinCodes(words[1..]);
      AsciiIsValid(0x20);
      ConcatIsValid(words[0], [0x20]);
      ConcatCodes(words[0], [0x20]);
      ConcatCodes(words[0] + [0x20], Join(words[1..]));
      assert Codes([0x20]) == [0x20];
      assert EachCodes(words)[1..] == EachCodes(words[1..]);
      assert Codes(words[0]) + [0x20] + Codes(Join(words[1..])) == Codes(words[0]) + ([0x20] + Codes(Join(words[1..])));
    }
  }

  /** The words of the runes with single blanks between them; of more than `most` runes the front, and an ellipsis. */
  function Shortened(codes: seq<int>, most: nat): seq<int>
    requires most > 0
  {
    var text := T.Join(0x20, T.Words(IsSpace, codes, []));
    if |text| <= most then text else text[..most - 1] + [0x2026]
  }

  lemma CompactShortens(value: Bytes, maxRunes: nat)
    requires maxRunes > 0 && Valid(value)
    ensures Codes(Compact(value, maxRunes)) == Shortened(Codes(value), maxRunes)
  {
    var text := Join(Fields(value, []));
    FieldsAreValid(value, []);
    FieldsAreWords(value, []);
    JoinCodes(Fields(value, []));
    if |Codes(text)| > maxRunes {
      CodesAreScalars(text);
      WithEllipsis(Codes(text)[..maxRunes - 1]);
    }
  }

  lemma WithEllipsis(kept: seq<int>)
    requires Scalars(kept)
    ensures Codes(Encode(kept) + ELLIPSIS) == kept + [0x2026]
  {
    DecodesEncode(kept);
    EllipsisIsARune();
    ConcatCodes(Encode(kept), ELLIPSIS);
  }

  lemma EllipsisIsARune()
    ensures Codes(ELLIPSIS) == [0x2026]
  {
    assert DecodeRune(ELLIPSIS).code == 0x2026 && ELLIPSIS[3..] == [];
  }

  /** White space at the ends of a text does not count. */
  lemma TrimmedShortens(value: Bytes, maxRunes: nat)
    requires maxRunes > 0 && Valid(value)
    ensures Codes(Compact(TrimSpace(value), maxRunes)) == Shortened(Codes(value), maxRunes)
  {
    var i, j := TrimSpaceTrims(value);
    TrimSpaceIsValid(value);
    CompactShortens(TrimSpace(value), maxRunes);
    var codes := Codes(value);
    T.ThreeParts(codes, i, j);
    T.TrimmedHasTheWords(IsSpace, codes, codes[..i], codes[i..j], codes[j..]);
  }

  // ---------------------------------------------------------------------------
  // What the list of sources says
  // ---------------------------------------------------------------------------

  ghost predicate AreDigits(b: Bytes) {
    b != [] && (|b| > 1 ==> b[0] != 0x30) && forall i :: 0 <= i < |b| ==> 0x30 <= b[i] <= 0x39
  }

  /** The number that decimal digits write. */
  function ValueOf(b: Bytes): int {
    if b == [] then 0 else 10 * ValueOf(b[..|b| - 1]) + b[|b| - 1] - 0x30
  }

  ghost predicate Writes(b: Bytes, n: int) {
    if n < 0 then b != [] && b[0] == 0x2D && AreDigits(b[1..]) && ValueOf(b[1..]) == -n
    else AreDigits(b) && ValueOf(b) == n
  }

  lemma {:induction false} DigitsWrite(n: nat)
    ensures AreDigits(Digits(n)) && ValueOf(Digits(n)) == n && (n > 0 ==> Digits(n)[0] != 0x30)
  {
    if n >= 10 {
      DigitsWrite(n / 10);
      assert Digits(n)[..|Digits(n)| - 1] == Digits(n / 10);
    } else {
      assert Digits(n)[..0] == [];
    }
  }

  lemma DecimalWrites(n: int)
    ensures Writes(Decimal(n), n)
  {
    DigitsWrite(if n < 0 then -n else n);
    if n < 0 { assert Decimal(n)[1..] == Digits(-n); }
  }

  datatype Line = Line(number: Bytes, title: Bytes, place: Bytes)

  function PrintLine(line: Line): Bytes {
    [0x0A, 0x5B] + line.number + [0x5D] + OPEN + line.title + CLOSE
    + if line.place == [] then [] else [0x20] + line.place
  }

  function PrintLines(lines: seq<Line>): Bytes {
    if lines == [] then [] else PrintLines(lines[..|lines| - 1]) + PrintLine(lines[|lines| - 1])
  }

  /** The line has the number of the source, and the words of its title and of where it is, cut to 80 runes each. */
  ghost predicate Says(line: Line, c: OutboundCitation) {
    && Writes(line.number, c.index)
    && Codes(line.title) == Shortened(Codes(c.title), 80)
    && Codes(line.place) == Shortened(Codes(c.locatorType) + [0x20] + Codes(c.locatorValue), 80)
  }

  lemma LineSays(c: OutboundCitation) returns (line: Line)
    requires ValidCitation(c)
    ensures SourceLine(c) == PrintLine(line) && Says(line, c)
  {
    var place := c.locatorType + [0x20] + c.locatorValue;
    line := Line(Decimal(c.index), Compact(c.title, 80), Compact(TrimSpace(place), 80));
    DecimalWrites(c.index);
    CompactShortens(c.title, 80);
    PlaceCodes(c, place);
    TrimmedShortens(place, 80);
  }

  lemma PlaceCodes(c: OutboundCitation, place: Bytes)
    requires ValidCitation(c) && place == c.locatorType + [0x20] + c.locatorValue
    ensures Valid(place) && Codes(place) == Codes(c.locatorType) + [0x20] + Codes(c.locatorValue)
  {
    AsciiIsValid(0x20);
    assert Codes([0x20]) == [0x20];
    ConcatIsValid(c.locatorType, [0x20]);
    ConcatCodes(c.locatorType, [0x20]);
    ConcatIsValid(c.locatorType + [0x20], c.locatorValue);
    ConcatCodes(c.locatorType + [0x20], c.locatorValue);
  }

  lemma {:induction false} EachSays(citations: seq<OutboundCitation>, n: nat) returns (lines: seq<Line>)
    requires n <= |citations| && forall i :: 0 <= i < |citations| ==> ValidCitation(citations[i])
    ensures |lines| == n
    ensures forall i :: 0 <= i < n ==> EachLine(citations, n)[i] == PrintLine(lines[i]) && Says(lines[i], citations[i])
  {
    lines := [];
    if n > 0 {
      var front := EachSays(citations, n - 1);
      var line := LineSays(citations[n - 1]);
      lines := front + [line];
      assert EachLine(citations, n) == EachLine(citations, n - 1) + [PrintLine(line)];
    }
  }

  lemma {:induction false} AppendedPrints(text: Bytes, appended: seq<Bytes>, lines: seq<Line>)
    requires |appended| == |lines| && forall i :: 0 <= i < |lines| ==> appended[i] == PrintLine(lines[i])
    ensures Appended(text, appended) == text + PrintLines(lines)
  {
    if lines == [] {
      assert text + [] == text;
    } else {
      var n := |lines| - 1;
      AppendedPrints(text, appended[..n], lines[..n]);
      Regrouped(text, PrintLines(lines[..n]), appended[n]);
    }
  }

  lemma Regrouped(a: Bytes, b: Bytes, c: Bytes)
    ensures (a + b) + c == a + (b + c)
  {
  }

  /** Behind the heading there is one line for each source, in their order, and it says what the source says. */
  lemma SourcesSay(citations: seq<OutboundCitation>) returns (lines: seq<Line>)
    requires forall i :: 0 <= i < |citations| ==> ValidCitation(citations[i])
    ensures |lines| == |citations| && forall i :: 0 <= i < |lines| ==> Says(lines[i], citations[i])
    ensures Sources(citations) == if citations == [] then [] else HEADING + PrintLines(lines)
  {
    lines := EachSays(citations, |citations|);
    LinesAreAppended(HEADING, citations, |citations|);
    AppendedPrints(HEADING, EachLine(citations, |citations|), lines);
  }

  // ---------------------------------------------------------------------------
  // The limit
  // ---------------------------------------------------------------------------

  lemma {:induction false} CutFits(s: Bytes, left: nat)
    ensures |Cut(s, left)| <= left && Cut(s, left) <= s
    decreases |s|
  {
    if s != [] && RuneLen(DecodeRune(s).code) <= left {
      var r := DecodeRune(s);
      SizeIsRuneLen(s);
      CutFits(s[r.size..], left - RuneLen(r.code));
      assert s == s[..r.size] + s[r.size..];
    }
  }

  /** Whatever the bytes are, the message has at most 2000 of them. */
  lemma FormattedFits(answer: Bytes, citations: seq<OutboundCitation>)
    ensures |Formatted(answer, citations)| <= MAX_BYTES
  {
    var content, suffix := TrimSpace(answer), Sources(citations);
    CutFits(content + suffix, MAX_BYTES);
    if MAX_BYTES - |suffix| - |ELLIPSIS| > 0 { CutFits(content, MAX_BYTES - |suffix| - |ELLIPSIS|); }
  }

  /** The first `k` runes of a valid text, as many as fit. */
  ghost predicate IsLongest(s: Bytes, limit: nat, r: Bytes, k: nat) {
    && k <= |Codes(s)| && Scalars(Codes(s))
    && r == Encode(Codes(s)[..k]) && |r| <= limit
    && (k < |Codes(s)| ==> |Encode(Codes(s)[..k + 1])| > limit)
  }

  lemma {:induction false} CutIsLongest(s: Bytes, left: nat) returns (k: nat)
    requires Valid(s)
    ensures IsLongest(s, left, Cut(s, left), k)
    decreases |s|
  {
    CodesAreScalars(s);
    k := 0;
    if s != [] {
      var r := DecodeRune(s);
      EncodesDecoded(s);
      RuneIsValid(s);
      var rest := s[r.size..];
      assert Codes(s) == [r.code] + Codes(rest);
      assert Codes(s)[..1] == [r.code] && Encode([r.code]) == EncodeRune(r.code) + [];
      if r.size <= left {
        var m := CutIsLongest(rest, left - r.size);
        k := m + 1;
        assert Codes(s)[..k] == [r.code] + Codes(rest)[..m];
        if m < |Codes(rest)| { assert Codes(s)[..k + 1] == [r.code] + Codes(rest)[..m + 1]; }
      }
    }
  }

  /**
   Sources of less than 1996 bytes survive whole, whatever the bytes are. Before them stands all of the
   trimmed answer, or a part of its front that fits, and the ellipsis.
   */
  lemma SourcesSurvive(answer: Bytes, citations: seq<OutboundCitation>) returns (kept: Bytes)
    requires |Sources(citations)| < MAX_BYTES - 4
    ensures kept <= TrimSpace(answer)
    ensures if |TrimSpace(answer)| + |Sources(citations)| <= MAX_BYTES
            then kept == TrimSpace(answer) && Formatted(answer, citations) == kept + Sources(citations)
            else |kept| <= MAX_BYTES - 3 - |Sources(citations)|
                 && Formatted(answer, citations) == kept + ELLIPSIS + Sources(citations)
  {
    var content, suffix := TrimSpace(answer), Sources(citations);
    if |content| + |suffix| <= MAX_BYTES {
      kept := content;
    } else {
      kept := Truncated(content, MAX_BYTES - 3 - |suffix|);
      CutFits(content, MAX_BYTES - 3 - |suffix|);
    }
  }

  /**
   What is kept of a valid answer that is cut: as many of its characters as fit beside the ellipsis and the sources.
   */
  lemma AnswerIsCutLast(answer: Bytes, citations: seq<OutboundCitation>) returns (kept: Bytes, k: nat)
    requires Valid(answer) && |Sources(citations)| < MAX_BYTES - 4
    requires |TrimSpace(answer)| + |Sources(citations)| > MAX_BYTES
    ensures Formatted(answer, citations) == kept + ELLIPSIS + Sources(citations)
    ensures IsLongest(TrimSpace(answer), MAX_BYTES - 3 - |Sources(citations)|, kept, k)
  {
    var content, limit := TrimSpace(answer), MAX_BYTES - 3 - |Sources(citations)|;
    TrimSpaceIsValid(answer);
    kept := Truncated(content, limit);
    k := TruncatedIsLongest(content, limit);
  }

  /** If the sources alone are as long as that, the message is the longest front of answer and sources that fits. */
  lemma LongSourcesAreCut(answer: Bytes, citations: seq<OutboundCitation>) returns (k: nat)
    requires Valid(answer) && forall i :: 0 <= i < |citations| ==> ValidCitation(citations[i])
    requires |Sources(citations)| >= MAX_BYTES - 4
    ensures IsLongest(TrimSpace(answer) + Sources(citations), MAX_BYTES, Formatted(answer, citations), k)
  {
    var content, suffix := TrimSpace(answer), Sources(citations);
    TrimSpaceIsValid(answer);
    SourcesAreValid(citations);
    ConcatIsValid(content, suffix);
    k := TruncatedIsLongest(content + suffix, MAX_BYTES);
  }

  lemma TruncatedIsLongest(s: Bytes, limit: nat) returns (k: nat)
    requires Valid(s) && limit > 0
    ensures IsLongest(s, limit, Truncated(s, limit), k)
  {
    if |s| <= limit {
      k := |Codes(s)|;
      EncodesCodes(s);
      assert Codes(s)[..k] == Codes(s);
    } else {
      k := CutIsLongest(s, limit);
    }
  }

  // ---------------------------------------------------------------------------
  // Bytes that are not valid
  // ---------------------------------------------------------------------------

  /** The decoded runes of `s` as long as their bytes fit into `left`. */
  function Fitting(s: Bytes, left: nat): Bytes
    decreases |s|
  {
    if s == [] || DecodeRune(s).size > left then []
    else s[..DecodeRune(s).size] + Fitting(s[DecodeRune(s).size..], left - DecodeRune(s).size)
  }

  /** How many of these runes are bytes that fit nowhere. */
  function Invalids(s: Bytes, left: nat): nat
    decreases |s|
  {
    if s == [] || DecodeRune(s).size > left then 0
    else (if DecodeRune(s) == INVALID then 1 else 0) + Invalids(s[DecodeRune(s).size..], left - DecodeRune(s).size)
  }

  lemma FrontPlus(s: Bytes, size: nat, r: Bytes)
    requires size <= |s| && r <= s[size..]
    ensures s[..size] + r <= s && s[size + |r|..] == s[size..][|r|..]
  {
    assert s == s[..size] + s[size..];
  }

  /** What does not fit behind the longest run: the next rune. */
  ghost predicate IsFull(s: Bytes, left: nat, r: Bytes) {
    r <= s && |r| <= left && (|r| < |s| ==> |r| + DecodeRune(s[|r|..]).size > left)
  }

  lemma FullPlus(s: Bytes, left: nat, size: nat, r: Bytes)
    requires size <= |s| && size <= left && IsFull(s[size..], left - size, r)
    ensures IsFull(s, left, s[..size] + r)
  {
    FrontPlus(s, size, r);
  }

  /** Nothing longer that ends between two runes fits. */
  lemma {:induction false} FittingIsLongest(s: Bytes, left: nat)
    ensures IsFull(s, left, Fitting(s, left))
    decreases |s|
  {
    if s != [] && DecodeRune(s).size <= left {
      var size := DecodeRune(s).size;
      FittingIsLongest(s[size..], left - size);
      FullPlus(s, left, size, Fitting(s[size..], left - size));
    }
  }

  /**
   The cut within `left` bytes is the longest run within `room` if that run fits into `left` with three for an
   invalid byte.
   */
  lemma {:induction false} CutFitsExactly(s: Bytes, left: nat, room: nat)
    requires left <= room
    ensures Cut(s, left) == Fitting(s, room) <==> |Fitting(s, room)| + 2 * Invalids(s, room) <= left
    decreases |s|
  {
    if s != [] {
      var r := DecodeRune(s);
      SizeIsRuneLen(s);
      if r.size <= room && RuneLen(r.code) <= left {
        var rest := s[r.size..];
        CutFitsExactly(rest, left - RuneLen(r.code), room - r.size);
        SameFront(s[..r.size], Cut(rest, left - RuneLen(r.code)), Fitting(rest, room - r.size));
      }
    }
  }

  lemma SameFront(a: Bytes, b: Bytes, c: Bytes)
    ensures a + b == a + c <==> b == c
  {
    if a + b == a + c {
      assert b == (a + b)[|a|..] && c == (a + c)[|a|..];
    }
  }

  lemma {:induction false} AllFitting(s: Bytes, left: nat)
    requires |s| <= left
    ensures Fitting(s, left) == s
    decreases |s|
  {
    if s != [] {
      var size := DecodeRune(s).size;
      AllFitting(s[size..], left - size);
      assert s == s[..size] + s[size..];
    }
  }

  /**
   For all bytes: a text that has to be cut is cut to the longest run of its runes that fits exactly if
   that run fits even when each of its invalid bytes counts as the three bytes of U+FFFD. Otherwise less
   is kept.
   */
  lemma TruncatedExactly(s: Bytes, limit: nat)
    ensures Truncated(s, limit) == Fitting(s, limit)
       <==> |s| <= limit || |Fitting(s, limit)| + 2 * Invalids(s, limit) <= limit
  {
    if |s| <= limit {
      AllFitting(s, limit);
    } else {
      CutFitsExactly(s, limit, limit);
      CutFits(s, 0);
    }
  }

  /** Of two invalid bytes that fit none is kept: they would count as six. */
  lemma InvalidBytesAreLost()
    ensures Truncated([0xFF, 0xFF, 0xFF], 2) == [] && Fitting([0xFF, 0xFF, 0xFF], 2) == [0xFF, 0xFF]
  {
  }
}
