/**
 Citation markers in a generated answer: the scanner for
 `(?:\[|【|［)\s*(\d+)\s*(?:\]|】|］)` and the renumbering of the markers it finds.

 Python decides `\d`, `int()` and `\s` by Unicode tables. They are a parameter here: an
 `Alphabet` gives the decimal value of a character (negative when it has none) and says which
 characters are white space. It also has the normal form NFC of a text.
 */
module Citations {
  import opened Wrappers

  datatype Alphabet = Alphabet(digit: char -> int, space: char -> bool, nfc: string -> string)

  /** What every version of the Unicode tables agrees on, as far as the scanner depends on it. */
  ghost predicate Lawful(a: Alphabet) {
    && (forall c :: a.digit(c) <= 9)
    && (forall c :: '0' <= c <= '9' ==> a.digit(c) == c as int - '0' as int)
    && (forall c :: a.space(c) ==> a.digit(c) < 0)
    && (forall c :: IsOpen(c) || IsClose(c) ==> a.digit(c) < 0 && !a.space(c))
    && a.space(' ')
  }

  predicate IsOpen(c: char) {
    c == '[' || c == '\U{3010}' || c == '\U{FF3B}'
  }

  predicate IsClose(c: char) {
    c == ']' || c == '\U{3011}' || c == '\U{FF3D}'
  }

  // ---------------------------------------------------------------------------
  // The scanner
  // ---------------------------------------------------------------------------

  datatype Hit = Hit(length: nat, value: nat)

  /** Where the matcher stands inside a marker: before, in, or after its digits. */
  datatype Phase = Lead | Digits | Trail

  /** Matches the rest of a marker whose opening bracket has been read; `v` is the number so far. */
  function Body(a: Alphabet, phase: Phase, v: nat, s: string): (r: Option<Hit>)
    ensures r.Some? ==> 0 < r.value.length <= |s|
    decreases |s|
  {
    if s == [] then None
    else if phase != Lead && IsClose(s[0]) then Some(Hit(1, v))
    else
      var next :=
        if a.digit(s[0]) >= 0 && phase != Trail then Body(a, Digits, 10 * v + a.digit(s[0]), s[1..])
        else if a.space(s[0]) then Body(a, if phase == Lead then Lead else Trail, v, s[1..])
        else None;
      match next
      case None => None
      case Some(hit) => Some(Hit(hit.length + 1, hit.value))
  }

  function MatchAt(a: Alphabet, s: string): (r: Option<Hit>)
    ensures r.Some? ==> 1 < r.value.length <= |s|
  {
    if s == [] || !IsOpen(s[0]) then None
    else
      match Body(a, Lead, 0, s[1..])
      case None => None
      case Some(hit) => Some(Hit(hit.length + 1, hit.value))
  }

  /** A text cut into its markers and the characters between them. */
  datatype Piece = Plain(c: char) | Marker(value: nat)

  function Scan(a: Alphabet, s: string): seq<Piece>
    decreases |s|
  {
    if s == [] then []
    else
      match MatchAt(a, s)
      case Some(hit) => [Marker(hit.value)] + Scan(a, s[hit.length..])
      case None => [Plain(s[0])] + Scan(a, s[1..])
  }

  /** `_CITATION_PATTERN.findall`, with `int` applied to each group. */
  function Values(pieces: seq<Piece>): seq<int> {
    if pieces == [] then []
    else (if pieces[0].Marker? then [pieces[0].value] else []) + Values(pieces[1..])
  }

  // ---------------------------------------------------------------------------
  // Printing
  // ---------------------------------------------------------------------------

  function Decimal(n: nat): (s: string)
    ensures s != []
  {
    if n < 10 then [('0' as int + n) as char]
    else Decimal(n / 10) + [('0' as int + n % 10) as char]
  }

  function PrintPiece(p: Piece): (s: string)
    ensures s != []
  {
    match p
    case Plain(c) => [c]
    case Marker(n) => "[" + Decimal(n) + "]"
  }

  function Print(pieces: seq<Piece>): string {
    if pieces == [] then [] else PrintPiece(pieces[0]) + Print(pieces[1..])
  }

  /** Every marker looked up in `m`, as `replace_marker` does; `None` is Python's `KeyError`. */
  function Rename(pieces: seq<Piece>, m: map<int, nat>): (r: Option<seq<Piece>>)
    ensures r.Some? ==> |r.value| == |pieces|
  {
    if pieces == [] then Some([])
    else if pieces[0].Marker? && pieces[0].value !in m then None
    else
      match Rename(pieces[1..], m)
      case None => None
      case Some(rest) => Some([if pieces[0].Marker? then Marker(m[pieces[0].value]) else pieces[0]] + rest)
  }

  // ---------------------------------------------------------------------------
  // _validate_and_renumber
  // ---------------------------------------------------------------------------

  datatype GeneratedAnswer =
    GeneratedAnswer(answer: string, indexes: seq<int>, refused: bool, reason: string)

  datatype Error = InvalidCitations | KeyError

  const ALLOWED_REFUSALS := {
    "NO_RELEVANT_EVIDENCE",
    "CONFLICTING_EVIDENCE",
    "HIGH_RISK_INSUFFICIENT_EVIDENCE",
    "INPUT_POLICY_BLOCKED"
  }

  /** `tuple(dict.fromkeys(xs))`: the first appearance of each value, in order. */
  function Distinct(xs: seq<int>): (r: seq<int>)
    ensures forall x :: x in r <==> x in xs
    ensures forall i, j :: 0 <= i < j < |r| ==> r[i] != r[j]
  {
    if xs == [] then []
    else
      var last := xs[|xs| - 1];
      var before := Distinct(xs[..|xs| - 1]);
      assert xs == xs[..|xs| - 1] + [last];
      if last in before then before else before + [last]
  }

  /** Trailing white space removed, as `str.rstrip` does. */
  function RightStrip(a: Alphabet, s: string): (r: string)
    ensures r <= s
  {
    if s != [] && a.space(s[|s| - 1]) then RightStrip(a, s[..|s| - 1]) else s
  }

  /** A blank and then a marker for each index: what is put behind an answer without markers. */
  function MarkerPieces(indexes: seq<int>): seq<Piece>
    requires forall i :: 0 <= i < |indexes| ==> 0 <= indexes[i]
  {
    if indexes == [] then [] else [Plain(' '), Marker(indexes[0])] + MarkerPieces(indexes[1..])
  }

  /** `{old: new for new, old in enumerate(indexes, start=1)}` for distinct indexes. */
  function Mapping(indexes: seq<int>): (m: map<int, nat>)
    requires forall i, j :: 0 <= i < j < |indexes| ==> indexes[i] != indexes[j]
    ensures forall x :: x in m <==> x in indexes
    ensures forall i :: 0 <= i < |indexes| ==> indexes[i] in m && m[indexes[i]] == i + 1
  {
    if indexes == [] then map[]
    else Mapping(indexes[..|indexes| - 1])[indexes[|indexes| - 1] := |indexes|]
  }

  predicate InRange(indexes: seq<int>, count: nat) {
    forall i :: 0 <= i < |indexes| ==> 1 <= indexes[i] <= count
  }

  /** The indexes an answer cites: those of its markers, or else the structured ones. */
  function Cited(a: Alphabet, g: GeneratedAnswer): (r: seq<int>)
    ensures forall i, j :: 0 <= i < j < |r| ==> r[i] != r[j]
  {
    var marked := Distinct(Values(Scan(a, g.answer)));
    if marked != [] then marked else Distinct(g.indexes)
  }

  /** The text whose markers are renumbered. */
  function Marked(a: Alphabet, g: GeneratedAnswer): string
    requires forall i :: 0 <= i < |Cited(a, g)| ==> 0 <= Cited(a, g)[i]
  {
    if Values(Scan(a, g.answer)) != [] then g.answer
    else RightStrip(a, g.answer) + Print(MarkerPieces(Cited(a, g)))
  }

  function ValidateAndRenumber(a: Alphabet, g: GeneratedAnswer, count: nat): Result<GeneratedAnswer, Error> {
    if g.refused then
      var reason := if g.reason in ALLOWED_REFUSALS then g.reason else "NO_RELEVANT_EVIDENCE";
      Success(GeneratedAnswer(g.answer, [], true, reason))
    else
      var indexes := Cited(a, g);
      if indexes == [] || !InRange(indexes, count) then Failure(InvalidCitations)
      else
        match Rename(Scan(a, Marked(a, g)), Mapping(indexes))
        case None => Failure(KeyError)
        case Some(pieces) => Success(GeneratedAnswer(Print(pieces), indexes, false, ""))
  }

  // ---------------------------------------------------------------------------
  // Printed markers are read back
  // ---------------------------------------------------------------------------

  /** The hit with `k` more characters in front. */
  function Longer(hit: Option<Hit>, k: nat): Option<Hit> {
    match hit case None => None case Some(h) => Some(Hit(h.length + k, h.value))
  }

  lemma DigitIsRead(a: Alphabet, phase: Phase, v: nat, w: nat, t: string)
    requires Lawful(a) && phase != Trail && t != [] && a.digit(t[0]) >= 0 && w == 10 * v + a.digit(t[0])
    ensures Body(a, phase, v, t) == Longer(Body(a, Digits, w, t[1..]), 1)
  {
  }

  lemma {:induction false} DecimalIsRead(a: Alphabet, phase: Phase, v: nat, n: nat, s: string, t: string)
    requires Lawful(a) && phase != Trail && s == Decimal(n) + t
    ensures Body(a, phase, v, s) == Longer(Body(a, Digits, Shifted(v, n), t), |Decimal(n)|)
    decreases n
  {
    var c := ('0' as int + n % 10) as char;
    if n < 10 {
      assert s[1..] == t;
      DigitIsRead(a, phase, v, Shifted(v, n), s);
    } else {
      assert s == Decimal(n / 10) + ([c] + t);
      DecimalIsRead(a, phase, v, n / 10, s, [c] + t);
      assert ([c] + t)[1..] == t;
      DigitIsRead(a, Digits, Shifted(v, n / 10), Shifted(v, n), [c] + t);
      LongerOnce(Body(a, Digits, Shifted(v, n), t), |Decimal(n / 10)|);
    }
  }

  lemma LongerOnce(hit: Option<Hit>, k: nat)
    ensures Longer(Longer(hit, 1), k) == Longer(hit, k + 1)
  {
  }

  /** `v` followed by the decimal digits of `n`, as one number. */
  function Shifted(v: nat, n: nat): nat {
    if n < 10 then 10 * v + n else 10 * Shifted(v, n / 10) + n % 10
  }

  lemma {:induction false} ShiftedFromZero(n: nat)
    ensures Shifted(0, n) == n
  {
    if n >= 10 { ShiftedFromZero(n / 10); }
  }

  lemma {:induction false} PrintedMarkerMatches(a: Alphabet, n: nat, t: string)
    requires Lawful(a)
    ensures MatchAt(a, PrintPiece(Marker(n)) + t) == Some(Hit(|PrintPiece(Marker(n))|, n))
  {
    var s := PrintPiece(Marker(n)) + t;
    assert s[1..] == Decimal(n) + ("]" + t);
    DecimalIsRead(a, Lead, 0, n, s[1..], "]" + t);
    ShiftedFromZero(n);
  }

  lemma {:induction false} ScanPrintedMarker(a: Alphabet, n: nat, t: string)
    requires Lawful(a)
    ensures Scan(a, PrintPiece(Marker(n)) + t) == [Marker(n)] + Scan(a, t)
  {
    PrintedMarkerMatches(a, n, t);
    assert (PrintPiece(Marker(n)) + t)[|PrintPiece(Marker(n))|..] == t;
  }

  // ---------------------------------------------------------------------------
  // What the scanner takes for a marker
  // ---------------------------------------------------------------------------

  ghost predicate Spaces(a: Alphabet, s: string, i: nat, j: nat)
    requires j <= |s|
  {
    forall k :: i <= k < j ==> a.space(s[k])
  }

  ghost predicate AllDigits(a: Alphabet, s: string, i: nat, j: nat)
    requires j <= |s|
  {
    forall k :: i <= k < j ==> a.digit(s[k]) >= 0
  }

  /** The number that the digits from `i` to `j` write, the last one counting units. */
  function Number(a: Alphabet, s: string, i: nat, j: nat): nat
    requires i <= j <= |s| && AllDigits(a, s, i, j)
    decreases j
  {
    if i == j then 0 else 10 * Number(a, s, i, j - 1) + a.digit(s[j - 1])
  }

  /** White space up to `i`, digits up to `j`, white space up to `n`, and a closing bracket. */
  ghost predicate IsInner(a: Alphabet, s: string, b: nat, i: nat, j: nat, n: nat) {
    && b <= i < j <= n < |s| && Spaces(a, s, b, i) && AllDigits(a, s, i, j) && Spaces(a, s, j, n) && IsClose(s[n])
  }

  /** The text begins with a bracket, a number that may have white space around it, and, at `n`, a bracket. */
  ghost predicate IsMarkerText(a: Alphabet, s: string, n: nat, v: nat) {
    s != [] && IsOpen(s[0]) && exists i, j :: IsInner(a, s, 1, i, j, n) && v == Number(a, s, i, j)
  }

  lemma {:induction false} TrailMatches(a: Alphabet, v: nat, s: string, j: nat, n: nat, t: string)
    requires Lawful(a) && j <= n < |s| && Spaces(a, s, j, n) && IsClose(s[n]) && t == s[j..]
    ensures Body(a, Trail, v, t) == Some(Hit(n - j + 1, v))
    decreases |t|
  {
    if j < n { TrailMatches(a, v, s, j + 1, n, t[1..]); }
  }

  /** Behind the digits: white space or the bracket. */
  lemma EndMatches(a: Alphabet, v: nat, s: string, j: nat, n: nat, t: string)
    requires Lawful(a) && j <= n < |s| && Spaces(a, s, j, n) && IsClose(s[n]) && t == s[j..]
    ensures Body(a, Digits, v, t) == Some(Hit(n - j + 1, v))
  {
    if j < n { TrailMatches(a, v, s, j + 1, n, t[1..]); }
  }

  /** From `k` on, after the digits from `i` to `k`. */
  lemma {:induction false} DigitsMatch(a: Alphabet, s: string, i: nat, k: nat, j: nat, n: nat, t: string)
    requires Lawful(a) && i < k <= j <= n < |s| && AllDigits(a, s, i, j) && Spaces(a, s, j, n) && IsClose(s[n])
    requires t == s[k..]
    ensures Body(a, Digits, Number(a, s, i, k), t) == Some(Hit(n - k + 1, Number(a, s, i, j)))
    decreases |t|
  {
    if k < j {
      DigitsMatch(a, s, i, k + 1, j, n, t[1..]);
      DigitIsRead(a, Digits, Number(a, s, i, k), Number(a, s, i, k + 1), t);
    } else {
      EndMatches(a, Number(a, s, i, j), s, j, n, t);
    }
  }

  lemma {:induction false} LeadMatches(a: Alphabet, s: string, b: nat, i: nat, j: nat, n: nat, t: string)
    requires Lawful(a) && IsInner(a, s, b, i, j, n) && t == s[b..]
    ensures Body(a, Lead, 0, t) == Some(Hit(n - b + 1, Number(a, s, i, j)))
    decreases |t|
  {
    if b < i {
      LeadMatches(a, s, b + 1, i, j, n, t[1..]);
    } else {
      assert t[0] == s[i] && Number(a, s, i, i + 1) == a.digit(t[0]);
      DigitsMatch(a, s, i, i + 1, j, n, t[1..]);
    }
  }

  lemma {:induction false} TrailParts(a: Alphabet, v: nat, s: string, j: nat) returns (n: nat)
    requires Lawful(a) && j <= |s| && Body(a, Trail, v, s[j..]).Some?
    ensures j <= n < |s| && Spaces(a, s, j, n) && IsClose(s[n])
    decreases |s| - j
  {
    n := j;
    if !IsClose(s[j]) {
      assert s[j..][1..] == s[j + 1..] && s[j..][0] == s[j];
      n := TrailParts(a, v, s, j + 1);
    }
  }

  lemma {:induction false} DigitsParts(a: Alphabet, s: string, i: nat, k: nat) returns (j: nat, n: nat)
    requires Lawful(a) && i < k <= |s| && AllDigits(a, s, i, k)
    requires Body(a, Digits, Number(a, s, i, k), s[k..]).Some?
    ensures k <= j <= n < |s| && AllDigits(a, s, i, j) && Spaces(a, s, j, n) && IsClose(s[n])
    decreases |s| - k
  {
    j, n := k, k;
    if !IsClose(s[k]) {
      assert s[k..][1..] == s[k + 1..] && s[k..][0] == s[k];
      if a.digit(s[k]) >= 0 {
        j, n := DigitsParts(a, s, i, k + 1);
      } else {
        n := TrailParts(a, Number(a, s, i, k), s, k + 1);
      }
    }
  }

  lemma {:induction false} LeadParts(a: Alphabet, s: string, b: nat) returns (i: nat, j: nat, n: nat)
    requires Lawful(a) && b <= |s| && Body(a, Lead, 0, s[b..]).Some?
    ensures IsInner(a, s, b, i, j, n)
    decreases |s| - b
  {
    assert s[b..] != [] && s[b..][1..] == s[b + 1..] && s[b..][0] == s[b];
    if a.digit(s[b]) >= 0 {
      assert Number(a, s, b, b + 1) == a.digit(s[b]);
      i := b;
      j, n := DigitsParts(a, s, b, b + 1);
    } else {
      i, j, n := LeadParts(a, s, b + 1);
    }
  }

  /**
   The scanner finds a marker at the front of a text exactly if the text begins with an opening bracket, a
   number that may have white space around it, and a closing bracket; and it reads that number.
   */
  lemma MarkersAreRecognized(a: Alphabet, s: string, n: nat, v: nat)
    requires Lawful(a)
    ensures MatchAt(a, s) == Some(Hit(n + 1, v)) <==> IsMarkerText(a, s, n, v)
  {
    if MatchAt(a, s).Some? {
      var i, j, m := LeadParts(a, s, 1);
      LeadMatches(a, s, 1, i, j, m, s[1..]);
    }
    if IsMarkerText(a, s, n, v) {
      var i, j :| IsInner(a, s, 1, i, j, n) && v == Number(a, s, i, j);
      LeadMatches(a, s, 1, i, j, n, s[1..]);
    }
  }

  // ---------------------------------------------------------------------------
  // Renaming markers neither makes nor breaks a match
  // ---------------------------------------------------------------------------

  /** Where no marker starts, the rewritten text goes on with the same character. */
  lemma PrintedPlainHead(a: Alphabet, s: string, m: map<int, nat>)
    requires s != [] && MatchAt(a, s).None? && Rename(Scan(a, s), m).Some?
    ensures Rename(Scan(a, s[1..]), m).Some?
    ensures var out := Print(Rename(Scan(a, s), m).value);
            out != [] && out[0] == s[0] && out[1..] == Print(Rename(Scan(a, s[1..]), m).value)
  {
    assert Scan(a, s)[1..] == Scan(a, s[1..]);
    var renamed := Rename(Scan(a, s), m).value;
    assert renamed[1..] == Rename(Scan(a, s[1..]), m).value;
  }

  lemma PrintedMarkerHead(a: Alphabet, s: string, m: map<int, nat>)
    requires s != [] && MatchAt(a, s).Some? && Rename(Scan(a, s), m).Some?
    ensures var out := Print(Rename(Scan(a, s), m).value); out != [] && IsOpen(out[0])
  {
    var renamed := Rename(Scan(a, s), m).value;
    assert renamed[0].Marker? && PrintPiece(renamed[0])[0] == '[';
  }

  lemma BodyAtOpen(a: Alphabet, phase: Phase, v: nat, s: string)
    requires Lawful(a) && (s == [] || IsOpen(s[0]))
    ensures Body(a, phase, v, s) == None
  {}

  lemma BodyOneStep(a: Alphabet, phase: Phase, v: nat, s: string, t: string)
    requires s != [] && t != [] && s[0] == t[0]
    requires Body(a, Digits, 10 * v + (if a.digit(s[0]) >= 0 then a.digit(s[0]) else 0), s[1..])
          == Body(a, Digits, 10 * v + (if a.digit(s[0]) >= 0 then a.digit(s[0]) else 0), t[1..])
    requires forall p: Phase :: Body(a, p, v, s[1..]) == Body(a, p, v, t[1..])
    ensures Body(a, phase, v, s) == Body(a, phase, v, t)
  {}

  /** The matcher cannot look past the next marker, so it does not see that markers were renamed. */
  lemma {:induction false} BodyIgnoresRenaming(a: Alphabet, phase: Phase, v: nat, s: string, m: map<int, nat>)
    requires Lawful(a) && Rename(Scan(a, s), m).Some?
    ensures Body(a, phase, v, Print(Rename(Scan(a, s), m).value)) == Body(a, phase, v, s)
    decreases |s|
  {
    if s == [] || MatchAt(a, s).Some? {
      if s != [] { PrintedMarkerHead(a, s, m); }
      BodyAtOpen(a, phase, v, s);
      BodyAtOpen(a, phase, v, Print(Rename(Scan(a, s), m).value));
    } else {
      PrintedPlainHead(a, s, m);
      BodyIgnoresRenaming(a, Digits, 10 * v + (if a.digit(s[0]) >= 0 then a.digit(s[0]) else 0), s[1..], m);
      forall p: Phase { BodyIgnoresRenaming(a, p, v, s[1..], m); }
      BodyOneStep(a, phase, v, Print(Rename(Scan(a, s), m).value), s);
    }
  }

  /** Scanning a rewritten text finds exactly the renamed markers, and the same text between them. */
  lemma {:induction false} RescanRenamed(a: Alphabet, s: string, m: map<int, nat>)
    requires Lawful(a) && Rename(Scan(a, s), m).Some?
    ensures Scan(a, Print(Rename(Scan(a, s), m).value)) == Rename(Scan(a, s), m).value
    decreases |s|
  {
    if s != [] {
      var pieces := Scan(a, s);
      var renamed := Rename(pieces, m).value;
      match MatchAt(a, s)
      case Some(hit) =>
        assert pieces[1..] == Scan(a, s[hit.length..]);
        RescanRenamed(a, s[hit.length..], m);
        ScanPrintedMarker(a, m[hit.value], Print(renamed[1..]));
      case None =>
        assert pieces[1..] == Scan(a, s[1..]);
        RescanRenamed(a, s[1..], m);
        BodyIgnoresRenaming(a, Lead, 0, s[1..], m);
        assert Print(renamed) == [s[0]] + Print(renamed[1..]);
        assert Print(renamed)[1..] == Print(renamed[1..]);
    }
  }

  // ---------------------------------------------------------------------------
  // Markers put behind an answer that has none
  // ---------------------------------------------------------------------------

  lemma {:induction false} BodyExtends(a: Alphabet, phase: Phase, v: nat, s: string, t: string)
    requires Body(a, phase, v, s).Some?
    ensures Body(a, phase, v, s + t) == Body(a, phase, v, s)
    decreases |s|
  {
    assert (s + t)[1..] == s[1..] + t;
    if phase != Lead && IsClose(s[0]) {
    } else if a.digit(s[0]) >= 0 && phase != Trail {
      BodyExtends(a, Digits, 10 * v + a.digit(s[0]), s[1..], t);
    } else {
      BodyExtends(a, if phase == Lead then Lead else Trail, v, s[1..], t);
    }
  }

  lemma {:induction false} MarkersSurviveAppending(a: Alphabet, s: string, t: string)
    ensures Values(Scan(a, s)) != [] ==> Values(Scan(a, s + t)) != []
    decreases |s|
  {
    if s != [] {
      assert (s + t)[1..] == s[1..] + t;
      if MatchAt(a, s).Some? {
        BodyExtends(a, Lead, 0, s[1..], t);
        assert Scan(a, s + t)[0].Marker?;
      } else {
        assert Scan(a, s)[1..] == Scan(a, s[1..]);
        if MatchAt(a, s + t).None? {
          assert Scan(a, s + t)[1..] == Scan(a, s[1..] + t);
        } else {
          assert Scan(a, s + t)[0].Marker?;
        }
        MarkersSurviveAppending(a, s[1..], t);
      }
    }
  }

  /** A text that a marker left unfinished at the end of another cannot run on into. */
  predicate Blocks(t: string) {
    t == [] || (|t| >= 2 && t[0] == ' ' && IsOpen(t[1]))
  }

  lemma {:induction false} BodyBlocked(a: Alphabet, phase: Phase, v: nat, s: string, t: string)
    requires Lawful(a) && Blocks(t)
    ensures Body(a, phase, v, s + t) == Body(a, phase, v, s)
    decreases |s|
  {
    if s == [] {
      assert s + t == t;
      if t != [] { BodyAtOpen(a, if phase == Lead then Lead else Trail, v, t[1..]); }
    } else {
      assert (s + t)[1..] == s[1..] + t;
      BodyBlocked(a, Digits, 10 * v + (if a.digit(s[0]) >= 0 then a.digit(s[0]) else 0), s[1..], t);
      forall p: Phase { BodyBlocked(a, p, v, s[1..], t); }
      BodyOneStep(a, phase, v, s + t, s);
    }
  }

  lemma {:induction false} ScanAppend(a: Alphabet, s: string, t: string, both: string)
    requires Lawful(a) && Blocks(t) && both == s + t
    ensures Scan(a, both) == Scan(a, s) + Scan(a, t)
    decreases |s|
  {
    if s == [] {
      assert both == t;
    } else {
      assert both[1..] == s[1..] + t;
      BodyBlocked(a, Lead, 0, s[1..], t);
      var hit := MatchAt(a, s);
      assert MatchAt(a, both) == hit;
      var length := if hit.Some? then hit.value.length else 1;
      assert both[length..] == s[length..] + t;
      ScanAppend(a, s[length..], t, both[length..]);
      FirstPiece(a, s, hit, length);
      FirstPiece(a, both, hit, length);
      OneMorePiece(if hit.Some? then Marker(hit.value.value) else Plain(s[0]), Scan(a, s[length..]), Scan(a, t));
    }
  }

  lemma FirstPiece(a: Alphabet, s: string, hit: Option<Hit>, length: nat)
    requires s != [] && hit == MatchAt(a, s) && length == if hit.Some? then hit.value.length else 1
    ensures Scan(a, s) == [if hit.Some? then Marker(hit.value.value) else Plain(s[0])] + Scan(a, s[length..])
  {
  }

  lemma OneMorePiece(first: Piece, p: seq<Piece>, q: seq<Piece>)
    ensures [first] + (p + q) == ([first] + p) + q
  {
  }

  lemma {:induction false} MarkerValues(indexes: seq<int>)
    requires forall i :: 0 <= i < |indexes| ==> 0 <= indexes[i]
    ensures Values(MarkerPieces(indexes)) == indexes
  {
    if indexes != [] {
      MarkerValues(indexes[1..]);
      var rest := MarkerPieces(indexes[1..]);
      assert MarkerPieces(indexes)[1..] == [Marker(indexes[0])] + rest;
      assert ([Marker(indexes[0])] + rest)[1..] == rest;
    }
  }

  lemma PrintOneMarker(n: nat, rest: seq<Piece>)
    ensures Print([Plain(' '), Marker(n)] + rest) == " " + (PrintPiece(Marker(n)) + Print(rest))
    ensures Blocks(" " + (PrintPiece(Marker(n)) + Print(rest)))
  {
    var pieces := [Plain(' '), Marker(n)] + rest;
    assert pieces[1..] == [Marker(n)] + rest && pieces[1..][1..] == rest;
    assert PrintPiece(Marker(n))[0] == '[';
  }

  lemma ScanBlank(a: Alphabet, t: string)
    ensures Scan(a, " " + t) == [Plain(' ')] + Scan(a, t)
  {
    assert (" " + t)[1..] == t;
  }

  lemma {:induction false} ScanMarkerPieces(a: Alphabet, indexes: seq<int>)
    requires Lawful(a) && forall i :: 0 <= i < |indexes| ==> 0 <= indexes[i]
    ensures Scan(a, Print(MarkerPieces(indexes))) == MarkerPieces(indexes)
    ensures Blocks(Print(MarkerPieces(indexes)))
  {
    if indexes != [] {
      ScanMarkerPieces(a, indexes[1..]);
      var rest := MarkerPieces(indexes[1..]);
      PrintOneMarker(indexes[0], rest);
      ScanBlank(a, PrintPiece(Marker(indexes[0])) + Print(rest));
      ScanPrintedMarker(a, indexes[0], Print(rest));
    }
  }

  lemma {:induction false} ValuesAppend(p: seq<Piece>, q: seq<Piece>)
    ensures Values(p + q) == Values(p) + Values(q)
  {
    if p == [] {
      assert p + q == q;
    } else {
      ValuesAppend(p[1..], q);
      var head := if p[0].Marker? then [p[0].value] else [];
      assert (p + q)[1..] == p[1..] + q;
      assert Values(p + q) == head + (Values(p[1..]) + Values(q));
      assert head + (Values(p[1..]) + Values(q)) == (head + Values(p[1..])) + Values(q);
    }
  }

  lemma {:induction false} DistinctOfDistinct(xs: seq<int>)
    requires forall i, j :: 0 <= i < j < |xs| ==> xs[i] != xs[j]
    ensures Distinct(xs) == xs
  {
    if xs != [] { DistinctOfDistinct(xs[..|xs| - 1]); }
  }

  lemma {:induction false} PlainScan(a: Alphabet, s: string)
    requires Values(Scan(a, s)) == []
    ensures Scan(a, s) == Characters(s)
    decreases |s|
  {
    if s != [] {
      assert MatchAt(a, s).None?;
      assert Scan(a, s)[1..] == Scan(a, s[1..]);
      PlainScan(a, s[1..]);
    }
  }

  function Characters(s: string): seq<Piece> {
    seq(|s|, i requires 0 <= i < |s| => Plain(s[i]))
  }

  lemma AppendedScan(a: Alphabet, s: string, indexes: seq<int>)
    requires Lawful(a) && Values(Scan(a, s)) == [] && forall i :: 0 <= i < |indexes| ==> 0 <= indexes[i]
    ensures Scan(a, RightStrip(a, s) + Print(MarkerPieces(indexes)))
         == Characters(RightStrip(a, s)) + MarkerPieces(indexes)
    ensures Values(Scan(a, RightStrip(a, s) + Print(MarkerPieces(indexes)))) == indexes
  {
    var stripped := RightStrip(a, s);
    assert s == stripped + s[|stripped|..];
    MarkersSurviveAppending(a, stripped, s[|stripped|..]);
    PlainScan(a, stripped);
    ScanWithMarkers(a, stripped, indexes);
  }

  lemma ScanWithMarkers(a: Alphabet, s: string, indexes: seq<int>)
    requires Lawful(a) && Values(Scan(a, s)) == [] && forall i :: 0 <= i < |indexes| ==> 0 <= indexes[i]
    ensures Scan(a, s + Print(MarkerPieces(indexes))) == Scan(a, s) + MarkerPieces(indexes)
    ensures Values(Scan(a, s + Print(MarkerPieces(indexes)))) == indexes
  {
    ScanMarkerPieces(a, indexes);
    MarkerValues(indexes);
    ScanAppend(a, s, Print(MarkerPieces(indexes)), s + Print(MarkerPieces(indexes)));
    ValuesAppend(Scan(a, s), MarkerPieces(indexes));
  }

  /** The text that is renumbered has exactly the cited indexes as the values of its markers. */
  lemma MarkedScan(a: Alphabet, g: GeneratedAnswer)
    requires Lawful(a) && forall i :: 0 <= i < |Cited(a, g)| ==> 0 <= Cited(a, g)[i]
    ensures Distinct(Values(Scan(a, Marked(a, g)))) == Cited(a, g)
    ensures Values(Scan(a, g.answer)) == [] ==>
              Scan(a, Marked(a, g)) == Characters(RightStrip(a, g.answer)) + MarkerPieces(Cited(a, g))
  {
    var values := Values(Scan(a, g.answer));
    if values == [] {
      AppendedScan(a, g.answer, Cited(a, g));
      DistinctOfDistinct(Cited(a, g));
    } else {
      assert values[0] in Distinct(values);
    }
  }

  // ---------------------------------------------------------------------------
  // First appearances of renamed values
  // ---------------------------------------------------------------------------

  function UpTo(n: nat): seq<int> {
    seq(n, i => i + 1)
  }

  ghost predicate Covers(m: map<int, nat>, xs: seq<int>) {
    forall i :: 0 <= i < |xs| ==> xs[i] in m
  }

  function Renamed(xs: seq<int>, m: map<int, nat>): seq<int>
    requires Covers(m, xs)
  {
    seq(|xs|, i requires 0 <= i < |xs| => m[xs[i]])
  }

  lemma CoversTail(pieces: seq<Piece>, m: map<int, nat>)
    requires pieces != [] && Covers(m, Values(pieces))
    ensures Covers(m, Values(pieces[1..])) && (pieces[0].Marker? ==> pieces[0].value in m)
  {
    var head := if pieces[0].Marker? then [pieces[0].value] else [];
    assert Values(pieces) == head + Values(pieces[1..]);
    forall i | 0 <= i < |Values(pieces[1..])| ensures Values(pieces[1..])[i] in m {
      assert Values(pieces)[|head| + i] == Values(pieces[1..])[i];
    }
    if pieces[0].Marker? { assert Values(pieces)[0] in m; }
  }

  lemma {:induction false} RenamedPiecesAre(pieces: seq<Piece>, m: map<int, nat>)
    requires Covers(m, Values(pieces))
    ensures Rename(pieces, m).Some?
    ensures var out := Rename(pieces, m).value;
            forall i :: 0 <= i < |pieces| ==>
              out[i] == (if pieces[i].Marker? && pieces[i].value in m then Marker(m[pieces[i].value]) else pieces[i])
    ensures forall i :: 0 <= i < |pieces| && pieces[i].Marker? ==> pieces[i].value in m
  {
    if pieces != [] {
      CoversTail(pieces, m);
      RenamedPiecesAre(pieces[1..], m);
      assert Rename(pieces, m).value[1..] == Rename(pieces[1..], m).value;
    }
  }

  lemma {:induction false} RenamedValuesAre(pieces: seq<Piece>, m: map<int, nat>)
    requires Covers(m, Values(pieces))
    ensures Rename(pieces, m).Some? && Values(Rename(pieces, m).value) == Renamed(Values(pieces), m)
  {
    if pieces != [] {
      CoversTail(pieces, m);
      RenamedValuesAre(pieces[1..], m);
      assert Rename(pieces, m).value[1..] == Rename(pieces[1..], m).value;
    }
  }

  lemma RenameTotal(pieces: seq<Piece>, m: map<int, nat>)
    requires Covers(m, Values(pieces))
    ensures Rename(pieces, m).Some?
    ensures Values(Rename(pieces, m).value) == Renamed(Values(pieces), m)
    ensures var out := Rename(pieces, m).value;
            forall i :: 0 <= i < |pieces| ==>
              out[i] == (if pieces[i].Marker? && pieces[i].value in m then Marker(m[pieces[i].value]) else pieces[i])
    ensures forall i :: 0 <= i < |pieces| && pieces[i].Marker? ==> pieces[i].value in m
  {
    RenamedPiecesAre(pieces, m);
    RenamedValuesAre(pieces, m);
  }

  lemma {:induction false} DistinctPrefix(xs: seq<int>, k: nat)
    requires k <= |xs|
    ensures Distinct(xs[..k]) <= Distinct(xs)
  {
    if k < |xs| {
      DistinctPrefix(xs[..|xs| - 1], k);
      assert xs[..|xs| - 1][..k] == xs[..k];
    } else {
      assert xs[..k] == xs;
    }
  }

  /** Renaming each value to its place among the first appearances makes these appear as 1, 2, 3... */
  lemma {:induction false} RenamedAppearInOrder(xs: seq<int>, k: nat, m: map<int, nat>)
    requires k <= |xs| && Covers(m, xs)
    requires forall i :: 0 <= i < |Distinct(xs)| ==> Distinct(xs)[i] in m && m[Distinct(xs)[i]] == i + 1
    ensures Distinct(Renamed(xs, m)[..k]) == UpTo(|Distinct(xs[..k])|)
  {
    if k > 0 {
      RenamedAppearInOrder(xs, k - 1, m);
      DistinctPrefix(xs, k - 1);
      DistinctPrefix(xs, k);
      assert xs[..k][..k - 1] == xs[..k - 1];
      assert Renamed(xs, m)[..k][..k - 1] == Renamed(xs, m)[..k - 1];
      OneMoreInOrder(Distinct(xs[..k - 1]), Distinct(xs[..k]), Distinct(xs), xs[k - 1], m);
    }
  }

  /** The next value has appeared before, and its place is among the first; or it has not, and its place is the next. */
  lemma OneMoreInOrder(seen: seq<int>, now: seq<int>, all: seq<int>, x: int, m: map<int, nat>)
    requires seen <= all && now <= all && now == if x in seen then seen else seen + [x]
    requires forall i :: 0 <= i < |all| ==> all[i] in m && m[all[i]] == i + 1
    ensures x in m
    ensures UpTo(|now|) == if m[x] in UpTo(|seen|) then UpTo(|seen|) else UpTo(|seen|) + [m[x]]
  {
    if x in seen {
      var i :| 0 <= i < |seen| && seen[i] == x;
      assert all[i] == x && UpTo(|seen|)[i] == m[x];
    } else {
      assert now[|seen|] == x && all[|seen|] == x;
    }
  }

  // ---------------------------------------------------------------------------
  // Main results
  // ---------------------------------------------------------------------------

  /** What is accepted, and that looking a marker up in `mapping` never misses. */
  lemma AcceptedExactly(a: Alphabet, g: GeneratedAnswer, count: nat)
    requires Lawful(a)
    ensures ValidateAndRenumber(a, g, count).Success? <==>
              g.refused || (Cited(a, g) != [] && InRange(Cited(a, g), count))
    ensures ValidateAndRenumber(a, g, count) != Failure(KeyError)
  {
    if !g.refused && Cited(a, g) != [] && InRange(Cited(a, g), count) {
      MarkedScan(a, g);
      CoveredByMapping(Values(Scan(a, Marked(a, g))), Cited(a, g));
      RenameTotal(Scan(a, Marked(a, g)), Mapping(Cited(a, g)));
    }
  }

  lemma CoveredByMapping(xs: seq<int>, indexes: seq<int>)
    requires Distinct(xs) == indexes
    ensures Covers(Mapping(indexes), xs)
  {
    forall i | 0 <= i < |xs| ensures xs[i] in Mapping(indexes) {
      assert xs[i] in Distinct(xs);
    }
  }

  /** Every marker of the rewritten text names what it named before, through `indexes`. */
  ghost predicate SameCitations(before: seq<Piece>, after: seq<Piece>, indexes: seq<int>) {
    && |after| == |before|
    && forall i :: 0 <= i < |before| ==>
         if before[i].Plain? then after[i] == before[i]
         else after[i].Marker? && 1 <= after[i].value <= |indexes| && indexes[after[i].value - 1] == before[i].value
  }

  lemma PlacesOf(indexes: seq<int>, m: map<int, nat>)
    requires forall x :: x in m ==> x in indexes
    requires forall i :: 0 <= i < |indexes| ==> indexes[i] in m && m[indexes[i]] == i + 1
    ensures forall x :: x in m ==> 1 <= m[x] <= |indexes| && indexes[m[x] - 1] == x
  {
    forall x | x in m ensures 1 <= m[x] <= |indexes| && indexes[m[x] - 1] == x {
      var k :| 0 <= k < |indexes| && indexes[k] == x;
    }
  }

  lemma RenamedPieces(pieces: seq<Piece>, indexes: seq<int>)
    requires Distinct(Values(pieces)) == indexes
    ensures Rename(pieces, Mapping(indexes)).Some?
    ensures SameCitations(pieces, Rename(pieces, Mapping(indexes)).value, indexes)
    ensures Distinct(Values(Rename(pieces, Mapping(indexes)).value)) == UpTo(|indexes|)
  {
    var m := Mapping(indexes);
    CoveredByMapping(Values(pieces), indexes);
    RenameTotal(pieces, m);
    ValuesAppearInOrder(Values(pieces), indexes, m);
    PlacesOf(indexes, m);
    PlacesKeepCitations(pieces, Rename(pieces, m).value, m, indexes);
  }

  lemma PlacesKeepCitations(pieces: seq<Piece>, out: seq<Piece>, m: map<int, nat>, indexes: seq<int>)
    requires |out| == |pieces|
    requires forall x :: x in m ==> 1 <= m[x] <= |indexes| && indexes[m[x] - 1] == x
    requires forall i :: 0 <= i < |pieces| && pieces[i].Marker? ==> pieces[i].value in m
    requires forall i :: 0 <= i < |pieces| ==>
               out[i] == (if pieces[i].Marker? && pieces[i].value in m then Marker(m[pieces[i].value]) else pieces[i])
    ensures SameCitations(pieces, out, indexes)
  {}

  lemma MappingIsPlace(indexes: seq<int>, x: int)
    requires forall i, j :: 0 <= i < j < |indexes| ==> indexes[i] != indexes[j]
    requires x in Mapping(indexes)
    ensures 1 <= Mapping(indexes)[x] <= |indexes| && indexes[Mapping(indexes)[x] - 1] == x
  {
    var k :| 0 <= k < |indexes| && indexes[k] == x;
  }

  lemma ValuesAppearInOrder(xs: seq<int>, indexes: seq<int>, m: map<int, nat>)
    requires Distinct(xs) == indexes && Covers(m, xs)
    requires forall i :: 0 <= i < |indexes| ==> indexes[i] in m && m[indexes[i]] == i + 1
    ensures Distinct(Renamed(xs, m)) == UpTo(|indexes|)
  {
    RenamedAppearInOrder(xs, |xs|, m);
    assert xs[..|xs|] == xs;
    assert Renamed(xs, m)[..|xs|] == Renamed(xs, m);
  }

  /**
   The rewritten answer, scanned again: the text is the same, every marker names the index it named
   before through the returned tuple, and the markers first appear as exactly 1, 2, ..., n.
   */
  lemma RewrittenAnswerRescans(a: Alphabet, g: GeneratedAnswer, count: nat)
    requires Lawful(a) && !g.refused && ValidateAndRenumber(a, g, count).Success?
    ensures forall i :: 0 <= i < |Cited(a, g)| ==> 0 <= Cited(a, g)[i]
    ensures var out := ValidateAndRenumber(a, g, count).value;
            && out.indexes == Cited(a, g) != []
            && SameCitations(Scan(a, Marked(a, g)), Scan(a, out.answer), out.indexes)
            && Distinct(Values(Scan(a, out.answer))) == UpTo(|out.indexes|)
            && Print(Scan(a, out.answer)) == out.answer
  {
    MarkedScan(a, g);
    RenamedPieces(Scan(a, Marked(a, g)), Cited(a, g));
    RescanRenamed(a, Marked(a, g), Mapping(Cited(a, g)));
  }

  lemma {:induction false} DistinctInRangeIsShort(xs: seq<int>, count: nat)
    requires InRange(xs, count) && forall i, j :: 0 <= i < j < |xs| ==> xs[i] != xs[j]
    ensures |xs| <= count
    decreases count
  {
    if count in xs {
      var k :| 0 <= k < |xs| && xs[k] == count;
      DistinctInRangeIsShort(xs[..k] + xs[k + 1..], count - 1);
    } else if xs != [] {
      assert xs[0] <= count - 1;
      forall i | 0 <= i < |xs| ensures xs[i] <= count - 1 { assert xs[i] in xs; }
      DistinctInRangeIsShort(xs, count - 1);
    }
  }

  lemma {:induction false} RenameByIdentity(pieces: seq<Piece>, m: map<int, nat>)
    requires Covers(m, Values(pieces)) && forall x :: x in m ==> m[x] == x
    ensures Rename(pieces, m) == Some(pieces)
  {
    RenameTotal(pieces, m);
    assert Rename(pieces, m).value == pieces;
  }

  lemma MappingOfUpTo(n: nat)
    ensures forall x :: x in Mapping(UpTo(n)) ==> Mapping(UpTo(n))[x] == x
  {
    forall x | x in Mapping(UpTo(n)) ensures Mapping(UpTo(n))[x] == x {
      MappingIsPlace(UpTo(n), x);
    }
  }

  /** Renumbering an accepted answer again changes nothing. */
  lemma RenumberingIsIdempotent(a: Alphabet, g: GeneratedAnswer, count: nat)
    requires Lawful(a) && ValidateAndRenumber(a, g, count).Success?
    ensures var out := ValidateAndRenumber(a, g, count).value;
            var again := out.(indexes := UpTo(|out.indexes|));
            ValidateAndRenumber(a, again, count) == Success(again)
  {
    var out := ValidateAndRenumber(a, g, count).value;
    if g.refused {
      assert UpTo(0) == [];
    } else {
      RewrittenAnswerRescans(a, g, count);
      AcceptedExactly(a, g, count);
      DistinctInRangeIsShort(out.indexes, count);
      AlreadyInOrder(a, out.(indexes := UpTo(|out.indexes|)), |out.indexes|, count);
    }
  }

  lemma AlreadyInOrder(a: Alphabet, g: GeneratedAnswer, n: nat, count: nat)
    requires Lawful(a) && 0 < n <= count && !g.refused && g.reason == "" && g.indexes == UpTo(n)
    requires Distinct(Values(Scan(a, g.answer))) == UpTo(n) && Print(Scan(a, g.answer)) == g.answer
    ensures ValidateAndRenumber(a, g, count) == Success(g)
  {
    CitedInOrder(a, g, n);
    OrderedStays(Scan(a, g.answer), n);
    KeptAsItIs(a, g, count);
  }

  lemma KeptAsItIs(a: Alphabet, g: GeneratedAnswer, count: nat)
    requires !g.refused && g.reason == "" && g.indexes == Cited(a, g) != [] && InRange(Cited(a, g), count)
    requires Marked(a, g) == g.answer && Print(Scan(a, g.answer)) == g.answer
    requires Rename(Scan(a, g.answer), Mapping(Cited(a, g))) == Some(Scan(a, g.answer))
    ensures ValidateAndRenumber(a, g, count) == Success(g)
  {
  }

  lemma CitedInOrder(a: Alphabet, g: GeneratedAnswer, n: nat)
    requires 0 < n && Distinct(Values(Scan(a, g.answer))) == UpTo(n)
    ensures Cited(a, g) == UpTo(n) && Marked(a, g) == g.answer
  {
    var values := Values(Scan(a, g.answer));
    assert Distinct(values)[0] in values;
  }

  lemma OrderedStays(pieces: seq<Piece>, n: nat)
    requires Distinct(Values(pieces)) == UpTo(n)
    ensures Rename(pieces, Mapping(UpTo(n))) == Some(pieces)
  {
    CoveredByMapping(Values(pieces), UpTo(n));
    MappingOfUpTo(n);
    RenameByIdentity(pieces, Mapping(UpTo(n)));
  }

  // ---------------------------------------------------------------------------
  // Which candidates an answer cites
  // ---------------------------------------------------------------------------

  /** `x` is in the list, and up to where it is `y` is not. */
  ghost predicate AppearsBefore(xs: seq<int>, x: int, y: int) {
    exists p :: 0 <= p < |xs| && xs[p] == x && y !in xs[..p + 1]
  }

  /** The elements of `xs`, once each, in the order in which they first appear. */
  ghost predicate FirstAppearances(r: seq<int>, xs: seq<int>) {
    && (forall x :: x in r <==> x in xs)
    && (forall i, j :: 0 <= i < j < |r| ==> r[i] != r[j] && AppearsBefore(xs, r[i], r[j]))
  }

  lemma AppearsBeforeOn(xs: seq<int>, x: int, y: int, z: int)
    requires AppearsBefore(xs, x, y)
    ensures AppearsBefore(xs + [z], x, y)
  {
    var p :| 0 <= p < |xs| && xs[p] == x && y !in xs[..p + 1];
    assert (xs + [z])[..p + 1] == xs[..p + 1];
  }

  lemma {:induction false} DistinctAppears(xs: seq<int>)
    ensures FirstAppearances(Distinct(xs), xs)
  {
    if xs != [] {
      var front, last := xs[..|xs| - 1], xs[|xs| - 1];
      assert xs == front + [last];
      DistinctAppears(front);
      var r := Distinct(xs);
      forall i, j | 0 <= i < j < |r| ensures AppearsBefore(xs, r[i], r[j]) {
        if j < |Distinct(front)| {
          AppearsBeforeOn(front, r[i], r[j], last);
        } else {
          assert r[i] in front && last !in front;
          var p :| 0 <= p < |front| && front[p] == r[i];
          assert xs[..p + 1] == front[..p + 1];
        }
      }
    }
  }

  /** The characters of the text, and then " [1] [2] ... [n]". */
  ghost predicate EndsNumbered(pieces: seq<Piece>, text: string, n: nat) {
    && |pieces| == |text| + 2 * n
    && (forall k :: 0 <= k < |text| ==> pieces[k] == Plain(text[k]))
    && (forall i :: 0 <= i < n ==> pieces[|text| + 2 * i] == Plain(' ') && pieces[|text| + 2 * i + 1] == Marker(i + 1))
  }

  lemma {:induction false} MarkerPieceAt(indexes: seq<int>, i: nat)
    requires (forall k :: 0 <= k < |indexes| ==> 0 <= indexes[k]) && i < |indexes|
    ensures |MarkerPieces(indexes)| == 2 * |indexes|
    ensures MarkerPieces(indexes)[2 * i] == Plain(' ') && MarkerPieces(indexes)[2 * i + 1] == Marker(indexes[i])
  {
    if i > 0 {
      MarkerPieceAt(indexes[1..], i - 1);
    } else if |indexes| > 1 {
      MarkerPieceAt(indexes[1..], 0);
    }
  }

  /** `RightStrip` takes off white space and leaves none at the end. */
  lemma {:induction false} RightStripStrips(a: Alphabet, s: string)
    ensures Spaces(a, s, |RightStrip(a, s)|, |s|)
    ensures RightStrip(a, s) != [] ==> !a.space(RightStrip(a, s)[|RightStrip(a, s)| - 1])
  {
    if s != [] && a.space(s[|s| - 1]) { RightStripStrips(a, s[..|s| - 1]); }
  }

  lemma {:induction false} ValuesOfPlain(pieces: seq<Piece>)
    ensures Values(pieces) == [] <==> forall i :: 0 <= i < |pieces| ==> pieces[i].Plain?
  {
    if pieces != [] {
      ValuesOfPlain(pieces[1..]);
      assert forall i :: 0 <= i < |pieces| ==> pieces[i] == if i == 0 then pieces[0] else pieces[1..][i - 1];
      assert pieces[0].Plain? && (forall i :: 0 <= i < |pieces[1..]| ==> pieces[1..][i].Plain?) ==>
          forall i :: 0 <= i < |pieces| ==> pieces[i].Plain?;
      assert (forall i :: 0 <= i < |pieces| ==> pieces[i].Plain?) ==>
          forall i :: 0 <= i < |pieces[1..]| ==> pieces[1..][i] == pieces[i + 1];
    }
  }

  /** Renumbering the markers put behind a text numbers them. */
  lemma AppendedAreNumbered(text: string, indexes: seq<int>, out: seq<Piece>)
    requires forall k :: 0 <= k < |indexes| ==> 0 <= indexes[k]
    requires forall i, j :: 0 <= i < j < |indexes| ==> indexes[i] != indexes[j]
    requires SameCitations(Characters(text) + MarkerPieces(indexes), out, indexes)
    ensures EndsNumbered(out, text, |indexes|)
  {
    if indexes != [] { AppendedPair(text, indexes, out, 0); }
    forall i | 0 <= i < |indexes|
      ensures out[|text| + 2 * i] == Plain(' ') && out[|text| + 2 * i + 1] == Marker(i + 1)
    {
      AppendedPair(text, indexes, out, i);
    }
  }

  lemma AppendedPair(text: string, indexes: seq<int>, out: seq<Piece>, i: nat)
    requires i < |indexes| && forall k :: 0 <= k < |indexes| ==> 0 <= indexes[k]
    requires forall i, j :: 0 <= i < j < |indexes| ==> indexes[i] != indexes[j]
    requires SameCitations(Characters(text) + MarkerPieces(indexes), out, indexes)
    ensures |out| == |text| + 2 * |indexes|
    ensures out[|text| + 2 * i] == Plain(' ') && out[|text| + 2 * i + 1] == Marker(i + 1)
  {
    MarkerPieceAt(indexes, i);
    var pieces := Characters(text) + MarkerPieces(indexes);
    assert pieces[|text| + 2 * i] == Plain(' ') && pieces[|text| + 2 * i + 1] == Marker(indexes[i]);
  }

  lemma StructuredRescan(a: Alphabet, g: GeneratedAnswer, count: nat, out: GeneratedAnswer)
    requires Lawful(a) && !g.refused && Values(Scan(a, g.answer)) == []
    requires ValidateAndRenumber(a, g, count) == Success(out)
    ensures out.indexes == Distinct(g.indexes) && forall k :: 0 <= k < |out.indexes| ==> 0 <= out.indexes[k]
    ensures SameCitations(Characters(RightStrip(a, g.answer)) + MarkerPieces(out.indexes), Scan(a, out.answer),
                          out.indexes)
  {
    RewrittenAnswerRescans(a, g, count);
    MarkedScan(a, g);
  }

  lemma StructuredResult(a: Alphabet, g: GeneratedAnswer, count: nat, out: GeneratedAnswer)
    requires Lawful(a) && !g.refused && Values(Scan(a, g.answer)) == []
    requires ValidateAndRenumber(a, g, count) == Success(out)
    ensures FirstAppearances(out.indexes, g.indexes) && !out.refused && out.reason == ""
    ensures EndsNumbered(Scan(a, out.answer), RightStrip(a, g.answer), |out.indexes|)
  {
    DistinctAppears(g.indexes);
    StructuredRescan(a, g, count, out);
    AppendedAreNumbered(RightStrip(a, g.answer), out.indexes, Scan(a, out.answer));
  }

  /**
   An answer without markers cites its structured indexes: it is accepted exactly if there are any and all
   are in range; then each is cited once, in the order of first appearance, and behind the text without its
   trailing white space come the markers 1 to n.
   */
  lemma StructuredIndexesAreCited(a: Alphabet, g: GeneratedAnswer, count: nat)
    requires Lawful(a) && !g.refused && forall i :: 0 <= i < |Scan(a, g.answer)| ==> Scan(a, g.answer)[i].Plain?
    ensures var r := ValidateAndRenumber(a, g, count);
            && (r.Success? <==> g.indexes != [] && forall i :: 0 <= i < |g.indexes| ==> 1 <= g.indexes[i] <= count)
            && (r.Failure? ==> r.error == InvalidCitations)
            && (r.Success? ==>
                  && FirstAppearances(r.value.indexes, g.indexes) && !r.value.refused && r.value.reason == ""
                  && EndsNumbered(Scan(a, r.value.answer), RightStrip(a, g.answer), |r.value.indexes|))
  {
    ValuesOfPlain(Scan(a, g.answer));
    StructuredAccepted(a, g, count);
    var r := ValidateAndRenumber(a, g, count);
    if r.Success? { StructuredResult(a, g, count, r.value); }
  }

  lemma StructuredAccepted(a: Alphabet, g: GeneratedAnswer, count: nat)
    requires Lawful(a) && !g.refused && Values(Scan(a, g.answer)) == []
    ensures var r := ValidateAndRenumber(a, g, count);
            && (r.Success? <==> g.indexes != [] && forall i :: 0 <= i < |g.indexes| ==> 1 <= g.indexes[i] <= count)
            && (r.Failure? ==> r.error == InvalidCitations)
  {
    assert Cited(a, g) == Distinct(g.indexes);
    ResultsAre(a, g, count, g.indexes);
  }

  /** What is accepted, said of a list whose first appearances are cited. */
  lemma ResultsAre(a: Alphabet, g: GeneratedAnswer, count: nat, xs: seq<int>)
    requires Lawful(a) && !g.refused && Cited(a, g) == Distinct(xs)
    ensures var r := ValidateAndRenumber(a, g, count);
            && (r.Success? <==> xs != [] && forall i :: 0 <= i < |xs| ==> 1 <= xs[i] <= count)
            && (r.Failure? ==> r.error == InvalidCitations)
  {
    AcceptedExactly(a, g, count);
    InRangeOfDistinct(xs, count);
  }

  lemma InRangeOfDistinct(xs: seq<int>, count: nat)
    ensures Distinct(xs) == [] <==> xs == []
    ensures InRange(Distinct(xs), count) <==> forall i :: 0 <= i < |xs| ==> 1 <= xs[i] <= count
  {
    BothEmpty(xs, Distinct(xs));
    if InRange(Distinct(xs), count) {
      forall i | 0 <= i < |xs| ensures 1 <= xs[i] <= count { assert xs[i] in Distinct(xs); }
    }
    if forall i :: 0 <= i < |xs| ==> 1 <= xs[i] <= count {
      forall i | 0 <= i < |Distinct(xs)| ensures 1 <= Distinct(xs)[i] <= count { assert Distinct(xs)[i] in xs; }
    }
  }

  /**
   An answer with markers cites these, whatever its structured indexes are: it is accepted exactly if all
   markers are in range; then each value is cited once, in the order of first appearance, every marker
   names through the indexes what it named before, and all other characters stay.
   */
  lemma MarkersAreCited(a: Alphabet, g: GeneratedAnswer, count: nat, other: seq<int>)
    requires Lawful(a) && !g.refused && exists i :: 0 <= i < |Scan(a, g.answer)| && Scan(a, g.answer)[i].Marker?
    ensures var r, values := ValidateAndRenumber(a, g, count), Values(Scan(a, g.answer));
            && (r.Success? <==> forall i :: 0 <= i < |values| ==> 1 <= values[i] <= count)
            && (r.Failure? ==> r.error == InvalidCitations)
            && (r.Success? ==>
                  && FirstAppearances(r.value.indexes, values) && !r.value.refused && r.value.reason == ""
                  && SameCitations(Scan(a, g.answer), Scan(a, r.value.answer), r.value.indexes)
                  && FirstAppearances(UpTo(|r.value.indexes|), Values(Scan(a, r.value.answer))))
            && ValidateAndRenumber(a, g.(indexes := other), count) == r
  {
    ValuesOfPlain(Scan(a, g.answer));
    MarkersAccepted(a, g, count);
    var r := ValidateAndRenumber(a, g, count);
    if r.Success? { MarkersResult(a, g, count, r.value); }
    OnlyMarkersCount(a, g, count, other);
  }

  lemma MarkersAccepted(a: Alphabet, g: GeneratedAnswer, count: nat)
    requires Lawful(a) && !g.refused && Values(Scan(a, g.answer)) != []
    ensures var r, values := ValidateAndRenumber(a, g, count), Values(Scan(a, g.answer));
            && (r.Success? <==> forall i :: 0 <= i < |values| ==> 1 <= values[i] <= count)
            && (r.Failure? ==> r.error == InvalidCitations)
  {
    InRangeOfDistinct(Values(Scan(a, g.answer)), count);
    ResultsAre(a, g, count, Values(Scan(a, g.answer)));
  }

  lemma MarkersResult(a: Alphabet, g: GeneratedAnswer, count: nat, out: GeneratedAnswer)
    requires Lawful(a) && !g.refused && Values(Scan(a, g.answer)) != []
    requires ValidateAndRenumber(a, g, count) == Success(out)
    ensures FirstAppearances(out.indexes, Values(Scan(a, g.answer))) && !out.refused && out.reason == ""
    ensures SameCitations(Scan(a, g.answer), Scan(a, out.answer), out.indexes)
    ensures FirstAppearances(UpTo(|out.indexes|), Values(Scan(a, out.answer)))
  {
    InRangeOfDistinct(Values(Scan(a, g.answer)), count);
    DistinctAppears(Values(Scan(a, g.answer)));
    RewrittenAnswerRescans(a, g, count);
    DistinctAppears(Values(Scan(a, out.answer)));
  }

  lemma OnlyMarkersCount(a: Alphabet, g: GeneratedAnswer, count: nat, other: seq<int>)
    requires !g.refused && Values(Scan(a, g.answer)) != []
    ensures ValidateAndRenumber(a, g.(indexes := other), count) == ValidateAndRenumber(a, g, count)
  {
    InRangeOfDistinct(Values(Scan(a, g.answer)), count);
  }

  /** A refusal is accepted with its text, cites nothing, and has one of the allowed reasons. */
  lemma RefusalsCiteNothing(a: Alphabet, g: GeneratedAnswer, count: nat)
    requires g.refused
    ensures var r := ValidateAndRenumber(a, g, count);
            && r.Success? && r.value.refused && r.value.answer == g.answer && r.value.indexes == []
            && r.value.reason in ALLOWED_REFUSALS
            && (g.reason in ALLOWED_REFUSALS ==> r.value.reason == g.reason)
            && (g.reason !in ALLOWED_REFUSALS ==> r.value.reason == "NO_RELEVANT_EVIDENCE")
  {
  }
}
