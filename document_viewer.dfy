/**
 * The document viewer of the chat page
 * (frontend/src/app/components/DocumentViewer.tsx): the three metadata
 * extractors, which are regular-expression searches, the tab selection and
 * the streamed summary of the current document.
 *
 * Each extractor is modelled twice: as the regular expression engine runs
 * it (leftmost start, alternatives tried in order, greedy repetition with
 * backtracking) and as a plain description of what it finds; lemmas show
 * the two agree.
 */
module DocumentViewer {
  import opened Wrappers
  import opened Text
  import opened Chat

  // ---------------------------------------------------------------------
  // extractDocumentId: path.match(/([^\/]+)(?=\.\w+$|$)/), else the path
  // ---------------------------------------------------------------------

  /** The end of the run of non-slash characters starting at `i` (the greedy `[^\/]+`). */
  function RunEnd(path: string, i: nat): (j: nat)
    requires i <= |path|
    ensures i <= j <= |path|
    ensures forall k :: i <= k < j ==> path[k] != '/'
    ensures j == |path| || path[j] == '/'
    decreases |path| - i
  {
    if i == |path| || path[i] == '/' then i else RunEnd(path, i + 1)
  }

  /** The lookahead `(?=\.\w+$|$)` at position `k`. */
  predicate ExtensionOrEnd(path: string, k: nat)
    requires k <= |path|
  {
    || (k + 1 < |path| && path[k] == '.' && forall m :: k + 1 <= m < |path| ==> IsWordChar(path[m]))
    || k == |path|
  }

  /** Backtracking of the greedy run: the longest end in `(i, k]` where the lookahead holds. */
  function Backtrack(path: string, i: nat, k: nat): (e: Option<nat>)
    requires i < k <= |path|
    ensures e.Some? ==> i < e.value <= k
    decreases k
  {
    if ExtensionOrEnd(path, k) then Some(k)
    else if k == i + 1 then None
    else Backtrack(path, i, k - 1)
  }

  /** The end of a match of the whole pattern starting at `i`, if any. */
  function IdMatchAt(path: string, i: nat): (e: Option<nat>)
    requires i <= |path|
    ensures e.Some? ==> i < e.value <= |path|
  {
    var j := RunEnd(path, i);
    if j == i then None else Backtrack(path, i, j)
  }

  /** The leftmost match starting at `i` or later, as its start and end. */
  function IdSearch(path: string, i: nat): (m: Option<(nat, nat)>)
    requires i <= |path|
    ensures m.Some? ==> i <= m.value.0 < m.value.1 <= |path|
    decreases |path| - i
  {
    match IdMatchAt(path, i)
    case Some(e) => Some((i, e))
    case None => if i == |path| then None else IdSearch(path, i + 1)
  }

  /** `extractDocumentId`: the matched text, or the whole path when nothing matches. */
  function ExtractDocumentId(path: string): string {
    match IdSearch(path, 0)
    case Some((s, e)) => path[s..e]
    case None => path
  }

  /** Where the last path segment starts: just after the last slash, or at 0. */
  function SegmentStart(path: string): (i: nat)
    ensures i <= |path|
    ensures forall k :: i <= k < |path| ==> path[k] != '/'
    ensures i == 0 || path[i - 1] == '/'
    decreases |path|
  {
    if path == [] || path[|path| - 1] == '/' then |path| else SegmentStart(path[..|path| - 1])
  }

  /** A run of non-slash characters that ends at a slash never satisfies the lookahead. */
  lemma {:induction false} BacktrackFails(path: string, i: nat, k: nat, slash: nat)
    requires i < k <= slash < |path| && path[slash] == '/'
    ensures Backtrack(path, i, k) == None
    decreases k
  {
    assert !ExtensionOrEnd(path, k) by {
      if k < slash {
        assert !IsWordChar(path[slash]);
      }
    }
    if k > i + 1 {
      BacktrackFails(path, i, k - 1, slash);
    }
  }

  /** No match starts before the last segment. */
  lemma NoIdMatchBefore(path: string, i: nat)
    requires i < SegmentStart(path)
    ensures IdMatchAt(path, i) == None
  {
    var j := RunEnd(path, i);
    var s := SegmentStart(path);
    assert path[s - 1] == '/';
    if j > i {
      BacktrackFails(path, i, j, j);
    }
  }

  /** The search from `i` finds the last segment when it is not empty, and nothing otherwise. */
  lemma {:induction false} IdSearchFinds(path: string, i: nat)
    requires i <= SegmentStart(path)
    ensures var s := SegmentStart(path);
      IdSearch(path, i) == if s < |path| then Some((s, |path|)) else None
    decreases SegmentStart(path) - i
  {
    var s := SegmentStart(path);
    if i < s {
      NoIdMatchBefore(path, i);
      IdSearchFinds(path, i + 1);
    } else {
      assert RunEnd(path, i) == |path|;
    }
  }

  /**
   * `extractDocumentId` gives the text after the last slash when that text
   * is not empty, and the whole path otherwise. The lookahead's `$`
   * alternative always holds at the end of the path, so the extension is
   * kept.
   */
  lemma DocumentIdIsLastSegment(path: string)
    ensures var s := SegmentStart(path);
      ExtractDocumentId(path) == if s < |path| then path[s..] else path
  {
    IdSearchFinds(path, 0);
  }

  // ---------------------------------------------------------------------
  // extractClassification: text.match(/(CONFIDENTIAL|SECRET|TOP SECRET|UNCLASSIFIED)/i)
  // ---------------------------------------------------------------------

  /** The alternatives of the pattern, in the order the engine tries them. */
  const Classifications: seq<string> := ["CONFIDENTIAL", "SECRET", "TOP SECRET", "UNCLASSIFIED"]

  /**
   * The `/i` comparison of `word` with the text at `i`: a character matches
   * an upper-case letter of the pattern when it is that letter in either
   * case; other pattern characters match only themselves.
   */
  predicate MatchesAt(text: string, i: nat, word: string) {
    i + |word| <= |text| && forall k :: 0 <= k < |word| ==> UpperAscii(text[i + k]) == word[k]
  }

  /** The first alternative among `alts` that matches at `i`, as the text it matched. */
  function AlternativeAt(text: string, i: nat, alts: seq<string>): (m: Option<string>)
    ensures m.Some? ==> exists w :: w in alts && MatchesAt(text, i, w) && m.value == text[i..i + |w|]
  {
    if alts == [] then None
    else if MatchesAt(text, i, alts[0]) then Some(text[i..i + |alts[0]|])
    else AlternativeAt(text, i, alts[1..])
  }

  /** The leftmost match starting at `i` or later. */
  function ClassificationSearch(text: string, i: nat): Option<string>
    requires i <= |text|
    decreases |text| - i
  {
    match AlternativeAt(text, i, Classifications)
    case Some(m) => Some(m)
    case None => if i == |text| then None else ClassificationSearch(text, i + 1)
  }

  /** `toUpperCase()` of the matched text, which holds only ASCII letters and a space. */
  function UpperString(s: string): (u: string)
    ensures |u| == |s| && forall k :: 0 <= k < |s| ==> u[k] == UpperAscii(s[k])
  {
    seq(|s|, k requires 0 <= k < |s| => UpperAscii(s[k]))
  }

  /** `extractClassification`: the upper-cased leftmost marker, or null. */
  function ExtractClassification(text: string): Option<string> {
    match ClassificationSearch(text, 0)
    case Some(m) => Some(UpperString(m))
    case None => None
  }

  /** Upper-casing the text a marker matched gives the marker itself. */
  lemma UpperMatched(text: string, i: nat, w: string)
    requires MatchesAt(text, i, w)
    ensures UpperString(text[i..i + |w|]) == w
  {
  }

  /** A match fixes the first letter of the text, up to case. */
  lemma FirstLetter(text: string, i: nat, w: string)
    requires MatchesAt(text, i, w) && |w| > 0
    ensures UpperAscii(text[i]) == w[0]
  {
    assert UpperAscii(text[i + 0]) == w[0];
  }

  /** An alternative whose first letter differs from a matching marker's cannot match. */
  lemma SkipAlternative(text: string, i: nat, alts: seq<string>, w: string)
    requires alts != [] && |w| > 0 && |alts[0]| > 0 && w[0] != alts[0][0]
    requires MatchesAt(text, i, w)
    ensures AlternativeAt(text, i, alts) == AlternativeAt(text, i, alts[1..])
  {
    FirstLetter(text, i, w);
    if MatchesAt(text, i, alts[0]) {
      FirstLetter(text, i, alts[0]);
    }
  }

  /** The first alternative that matches is taken. */
  lemma TakeAlternative(text: string, i: nat, alts: seq<string>, w: string)
    requires alts != [] && alts[0] == w && MatchesAt(text, i, w)
    ensures AlternativeAt(text, i, alts) == Some(text[i..i + |w|])
  {
  }

  /** At most one marker matches at a position: they begin with different letters. */
  lemma AlternativeAtFinds(text: string, i: nat, w: string)
    requires w in Classifications && MatchesAt(text, i, w)
    ensures AlternativeAt(text, i, Classifications) == Some(text[i..i + |w|])
  {
    var alts := Classifications;
    if w != alts[0] {
      SkipAlternative(text, i, alts, w);
      if w != alts[1] {
        SkipAlternative(text, i, alts[1..], w);
        if w != alts[2] {
          SkipAlternative(text, i, alts[2..], w);
          TakeAlternative(text, i, alts[3..], w);
        } else {
          TakeAlternative(text, i, alts[2..], w);
        }
      } else {
        TakeAlternative(text, i, alts[1..], w);
      }
    } else {
      TakeAlternative(text, i, alts, w);
    }
  }

  /** No marker matches at `i`. */
  predicate NoMarkerAt(text: string, i: nat) {
    forall w :: w in Classifications ==> !MatchesAt(text, i, w)
  }

  /** A position where no marker matches gives nothing. */
  lemma AlternativeAtNone(text: string, i: nat)
    requires NoMarkerAt(text, i)
    ensures AlternativeAt(text, i, Classifications) == None
  {
    var alts := Classifications;
    assert alts[1..][1..][1..][1..] == [];
  }

  /** The search from `i` returns the leftmost marker at `p` when none matches in between. */
  lemma {:induction false} ClassificationSearchFinds(text: string, i: nat, p: nat, w: string)
    requires i <= p <= |text| && w in Classifications && MatchesAt(text, p, w)
    requires forall j, v :: i <= j < p && v in Classifications ==> !MatchesAt(text, j, v)
    ensures ClassificationSearch(text, i) == Some(text[p..p + |w|])
    decreases p - i
  {
    if i < p {
      assert NoMarkerAt(text, i);
      AlternativeAtNone(text, i);
      assert ClassificationSearch(text, i) == ClassificationSearch(text, i + 1);
      ClassificationSearchFinds(text, i + 1, p, w);
    } else {
      AlternativeAtFinds(text, p, w);
      assert ClassificationSearch(text, p) == Some(text[p..p + |w|]);
    }
  }

  /** Without any marker from `i` on, the search finds nothing. */
  lemma {:induction false} ClassificationSearchNone(text: string, i: nat)
    requires i <= |text|
    requires forall j, v :: i <= j <= |text| && v in Classifications ==> !MatchesAt(text, j, v)
    ensures ClassificationSearch(text, i) == None
    decreases |text| - i
  {
    assert NoMarkerAt(text, i);
    AlternativeAtNone(text, i);
    if i < |text| {
      ClassificationSearchNone(text, i + 1);
    }
  }

  /**
   * `extractClassification` returns the marker that matches leftmost,
   * ignoring case and with no word boundary, in upper case.
   */
  lemma ClassificationIsLeftmost(text: string, p: nat, w: string)
    requires p <= |text| && w in Classifications && MatchesAt(text, p, w)
    requires forall j, v :: 0 <= j < p && v in Classifications ==> !MatchesAt(text, j, v)
    ensures ExtractClassification(text) == Some(w)
  {
    ClassificationSearchFinds(text, 0, p, w);
    UpperMatched(text, p, w);
  }

  /** `extractClassification` is null exactly when no marker occurs anywhere. */
  lemma ClassificationAbsent(text: string)
    ensures ExtractClassification(text) == None <==>
      forall j, v :: 0 <= j <= |text| && v in Classifications ==> !MatchesAt(text, j, v)
  {
    if forall j, v :: 0 <= j <= |text| && v in Classifications ==> !MatchesAt(text, j, v) {
      ClassificationSearchNone(text, 0);
    } else {
      var j, v :| 0 <= j <= |text| && v in Classifications && MatchesAt(text, j, v);
      var p, w := Leftmost(text, j, v);
      ClassificationIsLeftmost(text, p, w);
    }
  }

  /** Some marker matches: one of them matches leftmost. */
  lemma {:induction false} Leftmost(text: string, j: nat, v: string) returns (p: nat, w: string)
    requires j <= |text| && v in Classifications && MatchesAt(text, j, v)
    ensures p <= j && w in Classifications && MatchesAt(text, p, w)
    ensures forall i, u :: 0 <= i < p && u in Classifications ==> !MatchesAt(text, i, u)
    decreases j
  {
    if forall i, u :: 0 <= i < j && u in Classifications ==> !MatchesAt(text, i, u) {
      p, w := j, v;
    } else {
      var i, u :| 0 <= i < j && u in Classifications && MatchesAt(text, i, u);
      p, w := Leftmost(text, i, u);
    }
  }

  // ---------------------------------------------------------------------
  // extractDate: text.match(/\b(0?[1-9]|1[0-2])[\/\-](0?[1-9]|[12]\d|3[01])[\/\-](19\d{2}|20\d{2})\b/)
  // ---------------------------------------------------------------------

  predicate IsNonZeroDigit(c: char) {
    '1' <= c <= '9'
  }

  /** `[\/\-]` */
  predicate IsSeparator(c: char) {
    c == '/' || c == '-'
  }

  /** `\b` at position `k`: a word character on exactly one side. */
  predicate WordBoundary(text: string, k: nat)
    requires k <= |text|
  {
    (k > 0 && IsWordChar(text[k - 1])) != (k < |text| && IsWordChar(text[k]))
  }

  /** Where `(0?[1-9]|1[0-2])` can end when it starts at `i`, in the order the engine tries. */
  function MonthEnds(text: string, i: nat): (ends: seq<nat>)
    requires i <= |text|
    ensures forall k :: 0 <= k < |ends| ==> i < ends[k] <= |text|
  {
    (if i + 2 <= |text| && text[i] == '0' && IsNonZeroDigit(text[i + 1]) then [i + 2] else [])
    + (if i + 1 <= |text| && IsNonZeroDigit(text[i]) then [i + 1] else [])
    + (if i + 2 <= |text| && text[i] == '1' && '0' <= text[i + 1] <= '2' then [i + 2] else [])
  }

  /** Where `(0?[1-9]|[12]\d|3[01])` can end when it starts at `i`, in the order the engine tries. */
  function DayEnds(text: string, i: nat): (ends: seq<nat>)
    requires i <= |text|
    ensures forall k :: 0 <= k < |ends| ==> i < ends[k] <= |text|
  {
    (if i + 2 <= |text| && text[i] == '0' && IsNonZeroDigit(text[i + 1]) then [i + 2] else [])
    + (if i + 1 <= |text| && IsNonZeroDigit(text[i]) then [i + 1] else [])
    + (if i + 2 <= |text| && (text[i] == '1' || text[i] == '2') && IsDigit(text[i + 1]) then [i + 2] else [])
    + (if i + 2 <= |text| && text[i] == '3' && (text[i + 1] == '0' || text[i + 1] == '1') then [i + 2] else [])
  }

  /** Where `(19\d{2}|20\d{2})` can end when it starts at `i`, in the order the engine tries. */
  function YearEnds(text: string, i: nat): (ends: seq<nat>)
    requires i <= |text|
    ensures forall k :: 0 <= k < |ends| ==> ends[k] == i + 4 <= |text|
  {
    (if i + 4 <= |text| && text[i] == '1' && text[i + 1] == '9' && IsDigit(text[i + 2]) && IsDigit(text[i + 3]) then [i + 4] else [])
    + (if i + 4 <= |text| && text[i] == '2' && text[i + 1] == '0' && IsDigit(text[i + 2]) && IsDigit(text[i + 3]) then [i + 4] else [])
  }

  /** The first year end followed by `\b`. */
  function AfterYear(text: string, ends: seq<nat>): (e: Option<nat>)
    requires forall k :: 0 <= k < |ends| ==> ends[k] <= |text|
    ensures e.Some? ==> e.value in ends
  {
    if ends == [] then None
    else if WordBoundary(text, ends[0]) then Some(ends[0])
    else AfterYear(text, ends[1..])
  }

  /** The rest of the pattern after the day: a separator at `q`, the year, `\b`. */
  function YearPart(text: string, q: nat): (e: Option<nat>)
    requires q <= |text|
    ensures e.Some? ==> q < e.value <= |text|
  {
    if q < |text| && IsSeparator(text[q]) then AfterYear(text, YearEnds(text, q + 1)) else None
  }

  /** Backtracking over the day's ends: the first that the rest of the pattern accepts. */
  function AfterDay(text: string, start: nat, ends: seq<nat>): (e: Option<nat>)
    requires forall k :: 0 <= k < |ends| ==> start < ends[k] <= |text|
    ensures e.Some? ==> start < e.value <= |text|
  {
    if ends == [] then None
    else match YearPart(text, ends[0])
      case Some(e) => Some(e)
      case None => AfterDay(text, start, ends[1..])
  }

  /** The rest of the pattern after the month: a separator at `p`, the day, and so on. */
  function DayPart(text: string, p: nat): (e: Option<nat>)
    requires p <= |text|
    ensures e.Some? ==> p < e.value <= |text|
  {
    if p < |text| && IsSeparator(text[p]) then AfterDay(text, p, DayEnds(text, p + 1)) else None
  }

  /** Backtracking over the month's ends. */
  function AfterMonth(text: string, start: nat, ends: seq<nat>): (e: Option<nat>)
    requires forall k :: 0 <= k < |ends| ==> start < ends[k] <= |text|
    ensures e.Some? ==> start < e.value <= |text|
  {
    if ends == [] then None
    else match DayPart(text, ends[0])
      case Some(e) => Some(e)
      case None => AfterMonth(text, start, ends[1..])
  }

  /** The end of a match of the whole pattern starting at `i`, if any. */
  function DateAt(text: string, i: nat): (e: Option<nat>)
    requires i <= |text|
    ensures e.Some? ==> i < e.value <= |text|
  {
    if WordBoundary(text, i) then AfterMonth(text, i, MonthEnds(text, i)) else None
  }

  /** The leftmost match starting at `i` or later, as the text it matched. */
  function DateSearch(text: string, i: nat): Option<string>
    requires i <= |text|
    decreases |text| - i
  {
    match DateAt(text, i)
    case Some(e) => Some(text[i..e])
    case None => if i == |text| then None else DateSearch(text, i + 1)
  }

  /** `extractDate`: the leftmost date, or null. */
  function ExtractDate(text: string): Option<string> {
    DateSearch(text, 0)
  }

  /** The end of the run of digits starting at `i`. */
  function DigitsEnd(text: string, i: nat): (j: nat)
    requires i <= |text|
    ensures i <= j <= |text|
    ensures forall k :: i <= k < j ==> IsDigit(text[k])
    ensures j == |text| || !IsDigit(text[j])
    decreases |text| - i
  {
    if i == |text| || !IsDigit(text[i]) then i else DigitsEnd(text, i + 1)
  }

  /** A field of one or two digits whose value lies in `[lo, hi]`. */
  predicate NumberField(text: string, i: nat, j: nat, lo: nat, hi: nat)
    requires i <= j <= |text|
  {
    && 1 <= j - i <= 2
    && (forall k :: i <= k < j ==> IsDigit(text[k]))
    && lo <= DigitsValue(text, i, j) <= hi
  }

  /** The value of the digits `text[i..j]`. */
  function DigitsValue(text: string, i: nat, j: nat): nat
    requires i <= j <= |text|
    requires forall k :: i <= k < j ==> IsDigit(text[k])
    decreases j - i
  {
    if i == j then 0
    else
      assert IsDigit(text[j - 1]);
      10 * DigitsValue(text, i, j - 1) + (text[j - 1] as int - '0' as int)
  }

  /**
   * A date at `i`, described without the engine: after a word boundary, a
   * month of one or two digits worth 1 to 12, then the rest of the date
   * (`DayToken`). The result is where the date ends.
   */
  function DateToken(text: string, i: nat): Option<nat>
    requires i <= |text|
  {
    var m := DigitsEnd(text, i);
    if WordBoundary(text, i) && NumberField(text, i, m, 1, 12) then DayToken(text, m) else None
  }

  /** A separator at `m`, a day of one or two digits worth 1 to 31, then the year (`YearToken`). */
  function DayToken(text: string, m: nat): Option<nat>
    requires m <= |text|
  {
    if m < |text| && IsSeparator(text[m]) then
      var d := DigitsEnd(text, m + 1);
      if NumberField(text, m + 1, d, 1, 31) then YearToken(text, d) else None
    else None
  }

  /** A separator at `d`, four digits worth 1900 to 2099, and a word boundary. */
  function YearToken(text: string, d: nat): Option<nat>
    requires d <= |text|
  {
    var y := d + 1;
    if d < |text| && IsSeparator(text[d]) && YearField(text, y) && WordBoundary(text, y + 4) then Some(y + 4) else None
  }

  /** Four digits at `y` worth 1900 to 2099. */
  predicate YearField(text: string, y: nat) {
    y + 4 <= |text| && (forall k :: y <= k < y + 4 ==> IsDigit(text[k])) && 1900 <= DigitsValue(text, y, y + 4) <= 2099
  }

  /** Backtracking over the day's ends when only `target` can be followed by the rest. */
  lemma {:induction false} AfterDayOnly(text: string, start: nat, ends: seq<nat>, target: nat)
    requires forall k :: 0 <= k < |ends| ==> start < ends[k] <= |text|
    requires forall k :: 0 <= k < |ends| && ends[k] != target ==> YearPart(text, ends[k]) == None
    ensures AfterDay(text, start, ends) == if target in ends then YearPart(text, target) else None
    decreases |ends|
  {
    if ends != [] {
      AfterDayOnly(text, start, ends[1..], target);
      assert ends == [ends[0]] + ends[1..];
    }
  }

  /** Backtracking over the month's ends when only `target` can be followed by the rest. */
  lemma {:induction false} AfterMonthOnly(text: string, start: nat, ends: seq<nat>, target: nat)
    requires forall k :: 0 <= k < |ends| ==> start < ends[k] <= |text|
    requires forall k :: 0 <= k < |ends| && ends[k] != target ==> DayPart(text, ends[k]) == None
    ensures AfterMonth(text, start, ends) == if target in ends then DayPart(text, target) else None
    decreases |ends|
  {
    if ends != [] {
      AfterMonthOnly(text, start, ends[1..], target);
      assert ends == [ends[0]] + ends[1..];
    }
  }

  /** The value of two digits. */
  lemma TwoDigits(text: string, i: nat)
    requires i + 2 <= |text| && IsDigit(text[i]) && IsDigit(text[i + 1])
    ensures DigitsValue(text, i, i + 2) == 10 * (text[i] as int - '0' as int) + (text[i + 1] as int - '0' as int)
  {
    assert DigitsValue(text, i, i + 1) == text[i] as int - '0' as int;
  }

  /** The value of four digits. */
  lemma FourDigits(text: string, i: nat)
    requires i + 4 <= |text| && forall k :: i <= k < i + 4 ==> IsDigit(text[k])
    ensures DigitsValue(text, i, i + 4) ==
      1000 * (text[i] as int - '0' as int) + 100 * (text[i + 1] as int - '0' as int)
      + 10 * (text[i + 2] as int - '0' as int) + (text[i + 3] as int - '0' as int)
  {
    TwoDigits(text, i);
    assert DigitsValue(text, i, i + 3) == 10 * DigitsValue(text, i, i + 2) + (text[i + 2] as int - '0' as int);
  }

  /**
   * The month alternatives end either inside the run of digits, where a
   * digit follows, or at its end, which they reach exactly when the run
   * is a month of 1 to 12.
   */
  lemma MonthEndsShape(text: string, i: nat)
    requires i <= |text|
    ensures var ends, m := MonthEnds(text, i), DigitsEnd(text, i);
      && (forall k :: 0 <= k < |ends| && ends[k] != m ==> ends[k] < |text| && IsDigit(text[ends[k]]))
      && (m in ends <==> NumberField(text, i, m, 1, 12))
  {
    var ends, m := MonthEnds(text, i), DigitsEnd(text, i);
    if m == i {
      assert ends == [];
    } else if m == i + 1 {
      assert DigitsValue(text, i, i + 1) == text[i] as int - '0' as int;
      assert ends == if IsNonZeroDigit(text[i]) then [i + 1] else [];
    } else {
      TwoDigits(text, i);
      assert IsDigit(text[i + 1]);
      if m == i + 2 {
        assert m in ends <==> NumberField(text, i, m, 1, 12);
      } else {
        assert IsDigit(text[i + 2]);
        assert m !in ends;
      }
    }
  }

  /** The same for the day alternatives and days of 1 to 31. */
  lemma DayEndsShape(text: string, i: nat)
    requires i <= |text|
    ensures var ends, d := DayEnds(text, i), DigitsEnd(text, i);
      && (forall k :: 0 <= k < |ends| && ends[k] != d ==> ends[k] < |text| && IsDigit(text[ends[k]]))
      && (d in ends <==> NumberField(text, i, d, 1, 31))
  {
    var ends, d := DayEnds(text, i), DigitsEnd(text, i);
    if d == i {
      assert ends == [];
    } else if d == i + 1 {
      assert DigitsValue(text, i, i + 1) == text[i] as int - '0' as int;
      assert ends == if IsNonZeroDigit(text[i]) then [i + 1] else [];
    } else {
      TwoDigits(text, i);
      assert IsDigit(text[i + 1]);
      if d == i + 2 {
        assert d in ends <==> NumberField(text, i, d, 1, 31);
      } else {
        assert IsDigit(text[i + 2]);
        assert d !in ends;
      }
    }
  }

  /** The year alternatives: exactly the four-digit years from 1900 to 2099. */
  lemma YearEndsShape(text: string, y: nat)
    requires y <= |text|
    ensures YearEnds(text, y) == if YearField(text, y) then [y + 4] else []
  {
    if y + 4 <= |text| && (forall k :: y <= k < y + 4 ==> IsDigit(text[k])) {
      FourDigits(text, y);
    } else if y + 4 <= |text| {
      var k :| y <= k < y + 4 && !IsDigit(text[k]);
      assert YearEnds(text, y) == [];
    }
  }

  /** The year alternatives, then `\b`. */
  lemma YearPartShape(text: string, q: nat)
    requires q <= |text|
    ensures YearPart(text, q) == YearToken(text, q)
  {
    if q < |text| && IsSeparator(text[q]) {
      var y := q + 1;
      YearEndsShape(text, y);
      if YearField(text, y) {
        assert YearEnds(text, y)[1..] == [];
      }
    }
  }

  /** Backtracking over the month: only the whole run of digits can be followed by a separator. */
  lemma MonthStep(text: string, i: nat)
    requires i <= |text|
    ensures var m := DigitsEnd(text, i);
      AfterMonth(text, i, MonthEnds(text, i)) == if NumberField(text, i, m, 1, 12) then DayPart(text, m) else None
  {
    var ends, m := MonthEnds(text, i), DigitsEnd(text, i);
    MonthEndsShape(text, i);
    forall k | 0 <= k < |ends| && ends[k] != m
      ensures DayPart(text, ends[k]) == None
    {
    }
    AfterMonthOnly(text, i, ends, m);
  }

  /** The same for the day. */
  lemma DayStep(text: string, p: nat)
    requires p < |text|
    ensures var d := DigitsEnd(text, p + 1);
      AfterDay(text, p, DayEnds(text, p + 1)) == if NumberField(text, p + 1, d, 1, 31) then YearPart(text, d) else None
  {
    var ends, d := DayEnds(text, p + 1), DigitsEnd(text, p + 1);
    DayEndsShape(text, p + 1);
    forall k | 0 <= k < |ends| && ends[k] != d
      ensures YearPart(text, ends[k]) == None
    {
    }
    AfterDayOnly(text, p, ends, d);
  }

  /** After the month, the engine's match is the rest of the date described by `DayToken`. */
  lemma DayPartIsToken(text: string, m: nat)
    requires m <= |text|
    ensures DayPart(text, m) == DayToken(text, m)
  {
    if m < |text| && IsSeparator(text[m]) {
      DayStep(text, m);
      var d := DigitsEnd(text, m + 1);
      if NumberField(text, m + 1, d, 1, 31) {
        YearPartShape(text, d);
      }
    }
  }

  /** The engine's match at `i` is the date described by `DateToken`. */
  lemma DateAtIsToken(text: string, i: nat)
    requires i <= |text|
    ensures DateAt(text, i) == DateToken(text, i)
  {
    if WordBoundary(text, i) {
      MonthStep(text, i);
      var m := DigitsEnd(text, i);
      if NumberField(text, i, m, 1, 12) {
        DayPartIsToken(text, m);
      }
    }
  }

  /** The search from `i` returns the leftmost date at `p` when none starts in between. */
  lemma {:induction false} DateSearchFinds(text: string, i: nat, p: nat, e: nat)
    requires i <= p <= |text| && DateToken(text, p) == Some(e)
    requires forall j :: i <= j < p ==> DateToken(text, j).None?
    ensures DateSearch(text, i) == Some(text[p..e])
    decreases p - i
  {
    DateAtIsToken(text, i);
    if i < p {
      DateSearchFinds(text, i + 1, p, e);
    }
  }

  /** Without any date from `i` on, the search finds nothing. */
  lemma {:induction false} DateSearchNone(text: string, i: nat)
    requires i <= |text|
    requires forall j :: i <= j <= |text| ==> DateToken(text, j).None?
    ensures DateSearch(text, i) == None
    decreases |text| - i
  {
    DateAtIsToken(text, i);
    if i < |text| {
      DateSearchNone(text, i + 1);
    }
  }

  /** `extractDate` returns the leftmost date. */
  lemma DateIsLeftmost(text: string, p: nat, e: nat)
    requires p <= |text| && DateToken(text, p) == Some(e)
    requires forall j :: 0 <= j < p ==> DateToken(text, j).None?
    ensures ExtractDate(text) == Some(text[p..e])
  {
    DateSearchFinds(text, 0, p, e);
  }

  /** `extractDate` is null exactly when no date starts anywhere. */
  lemma DateAbsent(text: string)
    ensures ExtractDate(text) == None <==> forall j :: 0 <= j <= |text| ==> DateToken(text, j).None?
  {
    if forall j :: 0 <= j <= |text| ==> DateToken(text, j).None? {
      DateSearchNone(text, 0);
    } else {
      var j :| 0 <= j <= |text| && DateToken(text, j).Some?;
      var p := FirstDate(text, j);
      DateIsLeftmost(text, p, DateToken(text, p).value);
    }
  }

  /** Some date starts at `j`: one starts leftmost. */
  lemma {:induction false} FirstDate(text: string, j: nat) returns (p: nat)
    requires j <= |text| && DateToken(text, j).Some?
    ensures p <= j && DateToken(text, p).Some?
    ensures forall i :: 0 <= i < p ==> DateToken(text, i).None?
    decreases j
  {
    if forall i :: 0 <= i < j ==> DateToken(text, i).None? {
      p := j;
    } else {
      var i :| 0 <= i < j && DateToken(text, i).Some?;
      p := FirstDate(text, i);
    }
  }

  // ---------------------------------------------------------------------
  // The summary stream, the tabs and the render guard
  // ---------------------------------------------------------------------

  /** A document: its path and its text. */
  datatype Document = Document(path: string, text: string)

  /**
   * How the summary request goes: refused before anything is read (the
   * fetch threw, the status was not ok, or the body has no reader), or a
   * body read chunk by chunk, whose reading may end by throwing.
   */
  datatype SummaryReply = Refused | Body(chunks: seq<string>, broken: bool)

  /** The text shown when anything goes wrong. */
  const SummaryFailure := "Error generating summary. Please try again."

  /** The payload prefix the backend uses to report a failure. */
  const ErrorMarker := "[ERROR]"

  /** A `data:` frame whose payload reports a failure: reading it throws. */
  predicate IsErrorFrame(frame: string) {
    StartsWith(frame, DataPrefix) && StartsWith(frame[|DataPrefix|..], ErrorMarker)
  }

  /** The summary after the frames of one chunk are appended to `acc`, or `None` once a frame throws. */
  function ReadFrames(acc: string, frames: seq<string>): Option<string>
    decreases |frames|
  {
    if frames == [] then Some(acc)
    else if IsErrorFrame(frames[0]) then None
    else if StartsWith(frames[0], DataPrefix) then ReadFrames(acc + frames[0][|DataPrefix|..], frames[1..])
    else ReadFrames(acc, frames[1..])
  }

  /** The read loop: each chunk split on a blank line by itself. */
  function ReadSummaryChunks(acc: string, chunks: seq<string>): Option<string>
    decreases |chunks|
  {
    if chunks == [] then Some(acc)
    else match ReadFrames(acc, Split(chunks[0], "\n\n"))
      case None => None
      case Some(next) => ReadSummaryChunks(next, chunks[1..])
  }

  /** The summary shown once the request has ended. */
  function SummaryAfter(reply: SummaryReply): string {
    match reply
    case Refused => SummaryFailure
    case Body(chunks, broken) =>
      match ReadSummaryChunks("", chunks)
      case None => SummaryFailure
      case Some(text) => if broken then SummaryFailure else text
  }

  /** All frames of a body, chunk after chunk. */
  function SummaryFrames(chunks: seq<string>): seq<string>
    decreases |chunks|
  {
    if chunks == [] then [] else Split(chunks[0], "\n\n") + SummaryFrames(chunks[1..])
  }

  /** Some frame throws. */
  predicate HasErrorFrame(frames: seq<string>)
    decreases |frames|
  {
    frames != [] && (IsErrorFrame(frames[0]) || HasErrorFrame(frames[1..]))
  }

  /** The payloads of the `data:` frames, in order. */
  function Payloads(frames: seq<string>): seq<string>
    decreases |frames|
  {
    if frames == [] then []
    else if StartsWith(frames[0], DataPrefix) then [frames[0][|DataPrefix|..]] + Payloads(frames[1..])
    else Payloads(frames[1..])
  }

  lemma {:induction false} HasErrorFrameAppend(a: seq<string>, b: seq<string>)
    ensures HasErrorFrame(a + b) <==> HasErrorFrame(a) || HasErrorFrame(b)
    decreases |a|
  {
    if a != [] {
      assert (a + b)[1..] == a[1..] + b;
      HasErrorFrameAppend(a[1..], b);
    } else {
      assert a + b == b;
    }
  }

  lemma {:induction false} PayloadsAppend(a: seq<string>, b: seq<string>)
    ensures Payloads(a + b) == Payloads(a) + Payloads(b)
    decreases |a|
  {
    if a != [] {
      assert (a + b)[1..] == a[1..] + b;
      PayloadsAppend(a[1..], b);
    } else {
      assert a + b == b;
    }
  }

  /** One chunk's frames: the payloads are appended in order unless some frame throws. */
  lemma {:induction false} ReadFramesAppends(acc: string, frames: seq<string>)
    ensures ReadFrames(acc, frames) ==
      if HasErrorFrame(frames) then None else Some(acc + Concat(Payloads(frames)))
    decreases |frames|
  {
    if frames != [] {
      ReadFramesAppends(acc, frames[1..]);
      if StartsWith(frames[0], DataPrefix) {
        var content := frames[0][|DataPrefix|..];
        ReadFramesAppends(acc + content, frames[1..]);
        var ps := [content] + Payloads(frames[1..]);
        assert ps[1..] == Payloads(frames[1..]);
        assert Concat(ps) == content + Concat(Payloads(frames[1..]));
        assert acc + content + Concat(Payloads(frames[1..])) == acc + (content + Concat(Payloads(frames[1..])));
      }
    } else {
      assert acc + Concat([]) == acc;
    }
  }

  /**
   * The summary is the concatenation of every `data:` payload of every
   * chunk, in order, unless one of them is an `[ERROR]` payload.
   */
  lemma {:induction false} SummaryIsPayloads(acc: string, chunks: seq<string>)
    ensures ReadSummaryChunks(acc, chunks) ==
      if HasErrorFrame(SummaryFrames(chunks)) then None else Some(acc + Concat(Payloads(SummaryFrames(chunks))))
    decreases |chunks|
  {
    if chunks != [] {
      var frames := Split(chunks[0], "\n\n");
      var rest := SummaryFrames(chunks[1..]);
      assert SummaryFrames(chunks) == frames + rest;
      ReadFramesAppends(acc, frames);
      HasErrorFrameAppend(frames, rest);
      PayloadsAppend(frames, rest);
      ConcatAppend(Payloads(frames), Payloads(rest));
      if HasErrorFrame(frames) {
        assert ReadFrames(acc, frames) == None;
      } else {
        var next := acc + Concat(Payloads(frames));
        assert ReadSummaryChunks(acc, chunks) == ReadSummaryChunks(next, chunks[1..]);
        SummaryIsPayloads(next, chunks[1..]);
        assert next + Concat(Payloads(rest)) == acc + (Concat(Payloads(frames)) + Concat(Payloads(rest)));
      }
    } else {
      assert Payloads(SummaryFrames(chunks)) == [];
      assert acc + Concat([]) == acc;
    }
  }

  /** The viewer's state: the documents it was given and its `useState` values. */
  class Viewer {
    const documents: seq<Document>
    var current: Option<Document>
    var summaryLoading: bool
    var summary: string
    var showSummary: bool

    /** The component renders something: the list is not empty and a document is current. */
    predicate Renders()
      reads this
    {
      current.Some? && |documents| > 0
    }

    /** The initial state: the first document, if any, is current. */
    constructor(documents: seq<Document>)
      ensures this.documents == documents
      ensures current == if |documents| > 0 then Some(documents[0]) else None
      ensures !summaryLoading && summary == "" && !showSummary
      ensures Renders() <==> |documents| > 0
    {
      this.documents := documents;
      current := if |documents| > 0 then Some(documents[0]) else None;
      summaryLoading := false;
      summary := "";
      showSummary := false;
    }

    /** A tab click: that document becomes current and its summary is hidden. */
    method SelectTab(idx: nat)
      requires idx < |documents|
      modifies this
      ensures current == Some(documents[idx]) && !showSummary
      ensures summaryLoading == old(summaryLoading) && summary == old(summary)
      ensures Renders()
    {
      current := Some(documents[idx]);
      showSummary := false;
    }

    /**
     * The summarize button: a click while the summary shows only hides it;
     * otherwise the summary is reset, shown, and filled from the reply.
     * The loading flag is cleared on every way out.
     */
    method Summarize(reply: SummaryReply)
      requires Renders()
      modifies this
      ensures current == old(current) && !summaryLoading
      ensures old(showSummary) ==> !showSummary && summary == old(summary)
      ensures !old(showSummary) ==> showSummary && summary == SummaryAfter(reply)
    {
      if showSummary {
        showSummary := false;
        summaryLoading := false;
        return;
      }
      summaryLoading := true;
      summary := "";
      showSummary := true;
      match reply {
        case Refused =>
          summary := SummaryFailure;
        case Body(chunks, broken) =>
          var failed := ReadSummary(chunks);
          if failed || broken {
            summary := SummaryFailure;
          }
      }
      summaryLoading := false;
    }

    /** The read loop: appends each chunk's `data:` payloads; reports whether a frame threw. */
    method ReadSummary(chunks: seq<string>) returns (failed: bool)
      modifies this
      ensures failed <==> ReadSummaryChunks(old(summary), chunks).None?
      ensures !failed ==> summary == ReadSummaryChunks(old(summary), chunks).value
      ensures current == old(current) && showSummary == old(showSummary) && summaryLoading == old(summaryLoading)
    {
      failed := false;
      var i := 0;
      while i < |chunks|
        invariant 0 <= i <= |chunks|
        invariant ReadSummaryChunks(summary, chunks[i..]) == ReadSummaryChunks(old(summary), chunks)
        invariant current == old(current) && showSummary == old(showSummary) && summaryLoading == old(summaryLoading)
      {
        var frames := Split(chunks[i], "\n\n");
        ghost var before := summary;
        var j := 0;
        while j < |frames|
          invariant 0 <= j <= |frames|
          invariant ReadFrames(summary, frames[j..]) == ReadFrames(before, frames)
          invariant current == old(current) && showSummary == old(showSummary) && summaryLoading == old(summaryLoading)
        {
          var frame := frames[j];
          assert frames[j..][1..] == frames[j + 1..];
          if StartsWith(frame, DataPrefix) {
            var content := frame[|DataPrefix|..];
            if StartsWith(content, ErrorMarker) {
              failed := true;
              return;
            }
            summary := summary + content;
          }
          j := j + 1;
        }
        assert chunks[i..][1..] == chunks[i + 1..];
        i := i + 1;
      }
    }
  }
}
