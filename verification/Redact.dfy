/**
 * The chat guard's redaction: spans found in any order, overlapping or
 * touching, are sorted, merged and each replaced by one marker. Which spans
 * are found is not part of this model.
 */
module Redact {
  import opened Wrappers

  datatype Span = Span(start: nat, end: nat)

  const HIDDEN := "[hidden for safety]"

  predicate InText(text: string, spans: seq<Span>) {
    forall s :: s in spans ==> s.start < s.end <= |text|
  }

  predicate Covers(s: Span, i: nat) {
    s.start <= i < s.end
  }

  predicate Covered(spans: seq<Span>, i: nat) {
    exists s | s in spans :: Covers(s, i)
  }

  /** Where a maximal covered run starts. */
  predicate RunStarts(spans: seq<Span>, i: nat) {
    Covered(spans, i) && (i == 0 || !Covered(spans, i - 1))
  }

  /* ---------------------------------------------------------------- */
  /* The pointwise meaning                                             */
  /* ---------------------------------------------------------------- */

  /** What position i adds to the output. */
  function MaskAt(text: string, mark: string, spans: seq<Span>, i: nat): string
    requires i < |text|
  {
    if !Covered(spans, i) then [text[i]] else if RunStarts(spans, i) then mark else []
  }

  /** What redaction must give, position by position. */
  function Masked(text: string, mark: string, spans: seq<Span>, n: nat): string
    requires n <= |text|
  {
    if n == 0 then [] else Masked(text, mark, spans, n - 1) + MaskAt(text, mark, spans, n - 1)
  }

  lemma {:induction false} MaskedGrows(text: string, mark: string, spans: seq<Span>, i: nat, n: nat)
    requires i <= n <= |text|
    ensures Masked(text, mark, spans, i) <= Masked(text, mark, spans, n)
  {
    if i < n {
      MaskedGrows(text, mark, spans, i, n - 1);
    }
  }

  /**
   * Every position has its own place in the output: an uncovered character is
   * there and in order, the start of a maximal covered run shows the marker,
   * and the rest of the run shows nothing.
   */
  lemma EveryPositionHasItsPlace(text: string, mark: string, spans: seq<Span>, i: nat)
    requires i < |text|
    ensures var out, from, to := Masked(text, mark, spans, |text|), |Masked(text, mark, spans, i)|, |Masked(text, mark, spans, i + 1)|;
      && from <= to <= |out|
      && out[from..to] == (if !Covered(spans, i) then [text[i]] else if i == 0 || !Covered(spans, i - 1) then mark else [])
  {
    MaskedGrows(text, mark, spans, i + 1, |text|);
    var out, before, next := Masked(text, mark, spans, |text|), Masked(text, mark, spans, i), Masked(text, mark, spans, i + 1);
    assert next == before + MaskAt(text, mark, spans, i);
    assert out[..|next|] == next;
    assert out[|before|..|next|] == next[|before|..];
  }

  lemma Append(a: string, b: string, c: string)
    ensures (a + b) + c == a + (b + c)
  {
  }

  /** A stretch no span covers is copied. */
  lemma {:induction false} PlainStretch(text: string, mark: string, spans: seq<Span>, a: nat, b: nat)
    requires a <= b <= |text| && forall i :: a <= i < b ==> !Covered(spans, i)
    ensures Masked(text, mark, spans, b) == Masked(text, mark, spans, a) + text[a..b]
  {
    if a < b {
      PlainStretch(text, mark, spans, a, b - 1);
      Append(Masked(text, mark, spans, a), text[a..b - 1], [text[b - 1]]);
      assert text[a..b] == text[a..b - 1] + [text[b - 1]];
    }
  }

  /** A covered run from its start becomes one marker. */
  lemma {:induction false} CoveredRun(text: string, mark: string, spans: seq<Span>, a: nat, b: nat)
    requires a < b <= |text| && RunStarts(spans, a) && forall i :: a <= i < b ==> Covered(spans, i)
    ensures Masked(text, mark, spans, b) == Masked(text, mark, spans, a) + mark
  {
    if a < b - 1 {
      CoveredRun(text, mark, spans, a, b - 1);
      assert Covered(spans, b - 2);
      assert MaskAt(text, mark, spans, b - 1) == [];
    } else {
      assert MaskAt(text, mark, spans, b - 1) == mark;
    }
  }

  /* ---------------------------------------------------------------- */
  /* Sorting                                                           */
  /* ---------------------------------------------------------------- */

  function InsertByStart(spans: seq<Span>, s: Span): seq<Span> {
    if spans == [] || s.start < spans[0].start then [s] + spans else [spans[0]] + InsertByStart(spans[1..], s)
  }

  /** Stable: equal starts keep their order. */
  function SortByStart(spans: seq<Span>): seq<Span> {
    if spans == [] then [] else InsertByStart(SortByStart(spans[..|spans| - 1]), spans[|spans| - 1])
  }

  ghost predicate Sorted(spans: seq<Span>) {
    forall i, j :: 0 <= i < j < |spans| ==> spans[i].start <= spans[j].start
  }

  lemma ConsSorted(s: Span, spans: seq<Span>)
    requires Sorted(spans) && forall x :: x in spans ==> s.start <= x.start
    ensures Sorted([s] + spans)
  {
    var all := [s] + spans;
    forall i, j | 0 <= i < j < |all| ensures all[i].start <= all[j].start {
      assert all[j] == spans[j - 1] && spans[j - 1] in spans;
      assert i > 0 ==> all[i] == spans[i - 1];
    }
  }

  lemma {:induction false} InsertKeepsAll(spans: seq<Span>, s: Span)
    ensures multiset(InsertByStart(spans, s)) == multiset(spans) + multiset{s}
  {
    if spans != [] && s.start >= spans[0].start {
      assert spans == [spans[0]] + spans[1..];
      InsertKeepsAll(spans[1..], s);
    }
  }

  lemma {:induction false} InsertSorted(spans: seq<Span>, s: Span)
    requires Sorted(spans)
    ensures Sorted(InsertByStart(spans, s))
    ensures forall x :: x in InsertByStart(spans, s) <==> x in spans || x == s
  {
    if spans == [] {
    } else if s.start < spans[0].start {
      forall x | x in spans ensures s.start <= x.start {
        var k :| 0 <= k < |spans| && spans[k] == x;
      }
      ConsSorted(s, spans);
    } else {
      var rest := spans[1..];
      assert spans == [spans[0]] + rest && forall i :: 0 <= i < |rest| ==> rest[i] == spans[i + 1];
      InsertSorted(rest, s);
      forall x | x in InsertByStart(rest, s) ensures spans[0].start <= x.start {
        if x in rest {
          var k :| 0 <= k < |rest| && rest[k] == x;
        }
      }
      ConsSorted(spans[0], InsertByStart(rest, s));
    }
  }

  lemma {:induction false} SortIsSorted(spans: seq<Span>)
    ensures Sorted(SortByStart(spans)) && multiset(SortByStart(spans)) == multiset(spans)
    ensures forall x :: x in SortByStart(spans) <==> x in spans
  {
    if spans != [] {
      var n := |spans| - 1;
      assert spans == spans[..n] + [spans[n]];
      SortIsSorted(spans[..n]);
      InsertSorted(SortByStart(spans[..n]), spans[n]);
      InsertKeepsAll(SortByStart(spans[..n]), spans[n]);
    }
  }

  /* ---------------------------------------------------------------- */
  /* Merging                                                           */
  /* ---------------------------------------------------------------- */

  /** The span being merged, after the first k sorted spans: it covers what they cover from `cursor` on. */
  ghost predicate OpenAt(sorted: seq<Span>, k: nat, cursor: nat, open: Option<Span>) {
    && k <= |sorted|
    && (open == None ==> k == 0 && cursor == 0)
    && (open.Some? ==>
          && k > 0 && open.value.start < open.value.end && cursor <= open.value.start && (cursor == 0 || cursor < open.value.start)
          && open.value.start <= sorted[k - 1].start
          && (forall i :: i >= cursor ==> (Covered(sorted[..k], i) <==> Covers(open.value, i))))
  }

  lemma CoveredSnoc(sorted: seq<Span>, k: nat, i: nat)
    requires k < |sorted|
    ensures Covered(sorted[..k + 1], i) <==> Covered(sorted[..k], i) || Covers(sorted[k], i)
  {
    assert sorted[..k + 1] == sorted[..k] + [sorted[k]];
    if Covered(sorted[..k], i) {
      var s :| s in sorted[..k] && Covers(s, i);
      assert s in sorted[..k + 1];
    }
    if Covers(sorted[k], i) {
      assert sorted[k] in sorted[..k + 1];
    }
  }

  /** Later spans start no earlier, so below the next start only the first k count. */
  lemma LaterSpansStartLater(sorted: seq<Span>, k: nat, i: nat)
    requires Sorted(sorted) && k <= |sorted| && (k < |sorted| ==> i < sorted[k].start)
    ensures Covered(sorted, i) <==> Covered(sorted[..k], i)
  {
    if Covered(sorted, i) {
      var s :| s in sorted && Covers(s, i);
      var j :| 0 <= j < |sorted| && sorted[j] == s;
      assert j < k ==> sorted[..k][j] == s;
    }
    if Covered(sorted[..k], i) {
      var s :| s in sorted[..k] && Covers(s, i);
      assert s in sorted;
    }
  }

  /** Closing the open span: the text before it, then one marker. */
  lemma CloseSpan(text: string, mark: string, sorted: seq<Span>, k: nat, cursor: nat, open: Span)
    requires Sorted(sorted) && InText(text, sorted) && OpenAt(sorted, k, cursor, Some(open)) && open.end <= |text|
    requires k < |sorted| ==> open.end < sorted[k].start
    ensures Masked(text, mark, sorted, open.end) == Masked(text, mark, sorted, cursor) + (text[cursor..open.start] + mark)
  {
    forall i | cursor <= i < open.end ensures Covered(sorted, i) <==> Covers(open, i) {
      LaterSpansStartLater(sorted, k, i);
    }
    PlainStretch(text, mark, sorted, cursor, open.start);
    assert open.start > 0 ==> cursor == open.start || !Covered(sorted, open.start - 1);
    CoveredRun(text, mark, sorted, open.start, open.end);
    Append(Masked(text, mark, sorted, cursor), text[cursor..open.start], mark);
  }

  lemma MergeNext(sorted: seq<Span>, k: nat, cursor: nat, open: Span)
    requires Sorted(sorted) && OpenAt(sorted, k, cursor, Some(open)) && k < |sorted|
    requires sorted[k].start < sorted[k].end && sorted[k].start <= open.end
    ensures OpenAt(sorted, k + 1, cursor, Some(Span(open.start, Max(open.end, sorted[k].end))))
  {
    forall i | i >= cursor ensures Covered(sorted[..k + 1], i) <==> Covers(Span(open.start, Max(open.end, sorted[k].end)), i) {
      CoveredSnoc(sorted, k, i);
    }
  }

  lemma OpenNext(sorted: seq<Span>, k: nat, cursor: nat, open: Option<Span>)
    requires Sorted(sorted) && OpenAt(sorted, k, cursor, open) && k < |sorted| && sorted[k].start < sorted[k].end
    requires open.Some? ==> open.value.end < sorted[k].start
    ensures OpenAt(sorted, k + 1, if open.Some? then open.value.end else 0, Some(sorted[k]))
  {
    var cursor' := if open.Some? then open.value.end else 0;
    forall i | i >= cursor' ensures Covered(sorted[..k + 1], i) <==> Covers(sorted[k], i) {
      CoveredSnoc(sorted, k, i);
      if open == None {
        assert sorted[..k] == [];
      }
    }
  }

  /** Replaces each merged span with one marker: exactly the pointwise meaning, for spans in any order. */
  method Redact(text: string, mark: string, spans: seq<Span>) returns (out: string)
    requires InText(text, spans)
    ensures out == Masked(text, mark, spans, |text|)
  {
    var sorted := SortByStart(spans);
    SortIsSorted(spans);
    out := "";
    var cursor: nat := 0;
    var open: Option<Span> := None;
    var k: nat := 0;
    while k < |sorted|
      invariant 0 <= k <= |sorted|
      invariant Merging(text, mark, sorted, k, cursor, open, out)
    {
      var s := sorted[k];
      if open.Some? && s.start <= open.value.end {
        MergeKeeps(text, mark, sorted, k, cursor, open.value, out);
        open := Some(Span(open.value.start, Max(open.value.end, s.end)));
      } else {
        OpenKeeps(text, mark, sorted, k, cursor, open, out);
        if open.Some? {
          out := out + (text[cursor..open.value.start] + mark);
          cursor := open.value.end;
        }
        open := Some(s);
      }
      k := k + 1;
    }
    EndOfMerge(text, mark, sorted, cursor, open, out);
    if open.Some? {
      out := out + (text[cursor..open.value.start] + mark);
      cursor := open.value.end;
    }
    out := out + text[cursor..];
    SameSpansSameMask(text, mark, spans, sorted, |text|);
  }

  /** Everything before `cursor` is written, and the open span is inside the text. */
  ghost predicate Merging(text: string, mark: string, sorted: seq<Span>, k: nat, cursor: nat, open: Option<Span>, out: string) {
    && cursor <= |text| && OpenAt(sorted, k, cursor, open) && (open.Some? ==> open.value.end <= |text|)
    && out == Masked(text, mark, sorted, cursor)
  }

  lemma MergeKeeps(text: string, mark: string, sorted: seq<Span>, k: nat, cursor: nat, open: Span, out: string)
    requires Sorted(sorted) && InText(text, sorted) && Merging(text, mark, sorted, k, cursor, Some(open), out)
    requires k < |sorted| && sorted[k].start <= open.end
    ensures Merging(text, mark, sorted, k + 1, cursor, Some(Span(open.start, Max(open.end, sorted[k].end))), out)
  {
    assert sorted[k] in sorted;
    MergeNext(sorted, k, cursor, open);
  }

  lemma OpenKeeps(text: string, mark: string, sorted: seq<Span>, k: nat, cursor: nat, open: Option<Span>, out: string)
    requires Sorted(sorted) && InText(text, sorted) && Merging(text, mark, sorted, k, cursor, open, out)
    requires k < |sorted| && (open.Some? ==> open.value.end < sorted[k].start)
    ensures if open.Some? then
              cursor <= open.value.start <= |text|
              && Merging(text, mark, sorted, k + 1, open.value.end, Some(sorted[k]), out + (text[cursor..open.value.start] + mark))
            else Merging(text, mark, sorted, k + 1, cursor, Some(sorted[k]), out)
  {
    assert sorted[k] in sorted;
    OpenNext(sorted, k, cursor, open);
    if open.Some? {
      CloseSpan(text, mark, sorted, k, cursor, open.value);
    }
  }

  /** After the last span nothing is covered. */
  lemma EndOfMerge(text: string, mark: string, sorted: seq<Span>, cursor: nat, open: Option<Span>, out: string)
    requires Sorted(sorted) && InText(text, sorted) && Merging(text, mark, sorted, |sorted|, cursor, open, out)
    ensures if open.Some? then
              cursor <= open.value.start <= |text| && open.value.end <= |text|
              && Masked(text, mark, sorted, |text|) == out + (text[cursor..open.value.start] + mark) + text[open.value.end..]
            else Masked(text, mark, sorted, |text|) == out + text[cursor..]
  {
    var from := if open.Some? then open.value.end else 0;
    forall i: nat | from <= i < |text| ensures !Covered(sorted, i) {
      LaterSpansStartLater(sorted, |sorted|, i);
      assert sorted[..|sorted|] == sorted;
    }
    PlainStretch(text, mark, sorted, from, |text|);
    assert text[from..|text|] == text[from..];
    if open.Some? {
      CloseSpan(text, mark, sorted, |sorted|, cursor, open.value);
    }
  }

  lemma SameCoverage(spans: seq<Span>, others: seq<Span>, i: nat)
    requires forall x :: x in spans <==> x in others
    ensures Covered(spans, i) == Covered(others, i)
  {
    if Covered(spans, i) {
      var s :| s in spans && Covers(s, i);
      assert s in others;
    }
    if Covered(others, i) {
      var s :| s in others && Covers(s, i);
      assert s in spans;
    }
  }

  /** Only what is covered matters, not how the spans were found or listed. */
  lemma {:induction false} SameSpansSameMask(text: string, mark: string, spans: seq<Span>, others: seq<Span>, n: nat)
    requires n <= |text| && forall x :: x in spans <==> x in others
    ensures Masked(text, mark, spans, n) == Masked(text, mark, others, n)
  {
    if n > 0 {
      SameSpansSameMask(text, mark, spans, others, n - 1);
      SameCoverage(spans, others, n - 1);
      if n > 1 {
        SameCoverage(spans, others, n - 2);
      }
    }
  }

  datatype ChatGuard = ChatGuard(text: string, redacted: bool)

  /** Text is changed only during the guarded part of a call, and then exactly when something was found. */
  method GuardChat(text: string, spans: seq<Span>, redact: bool) returns (result: ChatGuard)
    requires InText(text, spans)
    ensures result.redacted <==> redact && spans != []
    ensures result.text == if redact then Masked(text, HIDDEN, spans, |text|) else text
  {
    if !redact || spans == [] {
      if redact {
        PlainStretch(text, HIDDEN, spans, 0, |text|);
      }
      return ChatGuard(text, false);
    }
    var masked := Redact(text, HIDDEN, spans);
    return ChatGuard(masked, true);
  }
}
