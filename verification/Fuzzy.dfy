/**
 The fuzzy matcher and filter, on strings already lowered and tokens already split; scores are reals.
 */
module Fuzzy {
  import opened Common
  import opened StableSort

  // ---------------------------------------------------------------- what a match is

  /** Where the first characters of `q` sit in `t`, left to right. */
  predicate EmbedsSoFar(q: string, t: string, p: seq<nat>) {
    && |p| <= |q|
    && (forall k :: 0 <= k < |p| ==> p[k] < |t| && t[p[k]] == q[k])
    && (forall j, k :: 0 <= j < k < |p| ==> p[j] < p[k])
  }

  predicate Embeds(q: string, t: string, p: seq<nat>) { EmbedsSoFar(q, t, p) && |p| == |q| }

  ghost predicate Subsequence(q: string, t: string) { exists p :: Embeds(q, t, p) }

  /** The first place from which the next character can be taken. */
  function After(p: seq<nat>, k: nat): nat
    requires k <= |p|
  {
    if k == 0 then 0 else p[k - 1] + 1
  }

  /** Every character sits at the first place after the one before it. */
  predicate LeftmostSoFar(q: string, t: string, p: seq<nat>) {
    EmbedsSoFar(q, t, p) && forall k: nat :: k < |p| ==> PlacedFirst(q, t, p, k)
  }

  predicate PlacedFirst(q: string, t: string, p: seq<nat>, k: nat)
    requires k < |p| <= |q|
  {
    NotIn(q[k], t, After(p, k), p[k])
  }

  predicate Leftmost(q: string, t: string, p: seq<nat>) { LeftmostSoFar(q, t, p) && |p| == |q| }

  predicate NotIn(c: char, t: string, from: nat, to: nat) {
    to <= |t| && forall j :: from <= j < to ==> t[j] != c
  }

  /** No embedding is ahead of the leftmost one. */
  lemma {:induction false} LeftmostIsFirst(q: string, t: string, p: seq<nat>, e: seq<nat>, k: nat)
    requires LeftmostSoFar(q, t, p) && EmbedsSoFar(q, t, e) && k < |p| && k < |e|
    ensures p[k] <= e[k]
  {
    if k > 0 { LeftmostIsFirst(q, t, p, e, k - 1); }
    assert PlacedFirst(q, t, p, k);
    assert After(p, k) <= e[k] && t[e[k]] == q[k];
  }

  lemma LeftmostIsUnique(q: string, t: string, p: seq<nat>, r: seq<nat>)
    requires Leftmost(q, t, p) && Leftmost(q, t, r)
    ensures p == r
  {
    forall k: nat | k < |p| ensures p[k] == r[k] {
      LeftmostIsFirst(q, t, p, r, k);
      LeftmostIsFirst(q, t, r, p, k);
    }
  }

  lemma {:induction false} EmbeddingAt(q: string, t: string, e: seq<nat>, k: nat)
    requires Embeds(q, t, e) && k < |e|
    ensures k <= e[k]
  {
    if k > 0 { EmbeddingAt(q, t, e, k - 1); }
  }

  /**
   When the next character is not found behind the leftmost embedding of a proper prefix, there is no embedding at all.
   */
  lemma Stuck(q: string, t: string, p: seq<nat>)
    requires LeftmostSoFar(q, t, p) && |p| < |q| && NotIn(q[|p|], t, After(p, |p|), |t|)
    ensures !Subsequence(q, t)
  {
    forall e | Embeds(q, t, e) ensures false {
      var n := |p|;
      if n > 0 { LeftmostIsFirst(q, t, p, e, n - 1); }
    }
  }

  // ---------------------------------------------------------------- the score

  /** How many matches in a row end with the `k`th, not counting one that follows a gap. */
  function RunLength(p: seq<nat>, k: nat): nat
    requires k < |p|
  {
    if p[k] != After(p, k) then 0 else 1 + if k == 0 then 0 else RunLength(p, k - 1)
  }

  /** The characters that the class `\s` of ECMAScript's regular expressions matches. */
  predicate IsSpace(c: char) {
    || c in "\t\n\U{0B}\U{0C}\r \U{A0}\U{1680}" || '\U{2000}' <= c <= '\U{200A}'
    || c in "\U{2028}\U{2029}\U{202F}\U{205F}\U{3000}\U{FEFF}"
  }

  predicate IsSeparator(c: char) { IsSpace(c) || c in "-_./:" }

  predicate AtBoundary(t: string, i: nat)
    requires i <= |t|
  {
    i == 0 || IsSeparator(t[i - 1])
  }

  /** Characters skipped before the `k`th match. */
  function Gap(p: seq<nat>, k: nat): int
    requires 0 < k < |p|
  {
    p[k] as int - p[k - 1] as int - 1
  }

  predicate Increasing(t: string, p: seq<nat>) {
    (forall k :: 0 <= k < |p| ==> p[k] < |t|) && forall j, k :: 0 <= j < k < |p| ==> p[j] < p[k]
  }

  /** Rows of matches are rewarded, gaps between matches and late matches cost, word starts are rewarded. */
  function Points(t: string, p: seq<nat>, k: nat): real
    requires Increasing(t, p) && k < |p|
  {
    (if RunLength(p, k) > 0 then -5.0 * RunLength(p, k) as real
     else if k > 0 then 2.0 * Gap(p, k) as real else 0.0)
    + (if AtBoundary(t, p[k]) then -10.0 else 0.0)
    + p[k] as real * 0.1
  }

  function Total(t: string, p: seq<nat>, n: nat): real
    requires Increasing(t, p) && n <= |p|
  {
    if n == 0 then 0.0 else Total(t, p, n - 1) + Points(t, p, n - 1)
  }

  /** The score of a query that matches. */
  ghost predicate Scores(q: string, t: string, score: real) {
    if q == "" then score == 0.0
    else exists p :: Leftmost(q, t, p) && score == Total(t, p, |p|) - if q == t then 100.0 else 0.0
  }

  lemma ScoreIsUnique(q: string, t: string, a: real, b: real)
    requires Scores(q, t, a) && Scores(q, t, b)
    ensures a == b
  {
    if q != "" {
      var p :| Leftmost(q, t, p) && a == Total(t, p, |p|) - if q == t then 100.0 else 0.0;
      var r :| Leftmost(q, t, r) && b == Total(t, r, |r|) - if q == t then 100.0 else 0.0;
      LeftmostIsUnique(q, t, p, r);
    }
  }

  // ---------------------------------------------------------------- what the points add up to

  /** The `k`th place; the one before the first is just before the text. */
  function Place(p: seq<nat>, k: int): int
    requires -1 <= k < |p|
  {
    if k < 0 then -1 else p[k]
  }

  /** Nothing is skipped between the two places. */
  predicate Touching(p: seq<nat>, j: int, k: int)
    requires -1 <= j <= k < |p|
  {
    Place(p, k) - Place(p, j) == k - j
  }

  function Unbroken(p: seq<nat>, n: nat): set<(int, int)>
    requires n <= |p|
  {
    set j, k | -1 <= j < k < n && Touching(p, j, k) :: (j, k)
  }

  /** Places at the start of a word. */
  function WordStarts(t: string, p: seq<nat>, n: nat): set<nat>
    requires Increasing(t, p) && n <= |p|
  {
    set k: nat | k < n && (p[k] == 0 || IsSeparator(t[p[k] - 1]))
  }

  function PlaceSum(p: seq<nat>, n: nat): nat
    requires n <= |p|
  {
    if n == 0 then 0 else PlaceSum(p, n - 1) + p[n - 1]
  }

  /**
   Two points for every character skipped between the first match and the last, a tenth for every character before each
   match; ten less for every word start and five less for every unbroken pair.
   */
  lemma {:induction false} TotalIs(t: string, p: seq<nat>, n: nat)
    requires Increasing(t, p) && 0 < n <= |p|
    ensures Total(t, p, n) == 2.0 * (p[n - 1] - p[0] - (n - 1)) as real + 0.1 * PlaceSum(p, n) as real
      - 10.0 * |WordStarts(t, p, n)| as real - 5.0 * |Unbroken(p, n)| as real
  {
    var k := n - 1;
    StartsNext(t, p, k);
    UnbrokenNext(t, p, k);
    RunIs(t, p, k);
    hide WordStarts, Unbroken, RunLength, IsSeparator;
    if k > 0 {
      TotalIs(t, p, k);
      RunMeans(p, k);
      assert PlaceSum(p, n) == PlaceSum(p, k) + p[k];
    } else {
      NoneYet(t, p);
      RunFirst(p);
    }
  }

  lemma NoneYet(t: string, p: seq<nat>)
    requires Increasing(t, p)
    ensures WordStarts(t, p, 0) == {} && Unbroken(p, 0) == {}
  {
  }

  lemma RunMeans(p: seq<nat>, k: nat)
    requires 0 < k < |p|
    ensures RunLength(p, k) > 0 ==> Gap(p, k) == 0
  {
  }

  lemma RunFirst(p: seq<nat>)
    requires p != []
    ensures RunLength(p, 0) == if p[0] == 0 then 1 else 0
  {
  }

  lemma StartsNext(t: string, p: seq<nat>, k: nat)
    requires Increasing(t, p) && k < |p|
    ensures |WordStarts(t, p, k + 1)| == |WordStarts(t, p, k)| + if AtBoundary(t, p[k]) then 1 else 0
  {
    assert WordStarts(t, p, k + 1) == WordStarts(t, p, k) + if AtBoundary(t, p[k]) then {k} else {};
  }

  /** At least one character for each step from one place to a later one. */
  lemma {:induction false} Apart(t: string, p: seq<nat>, j: int, k: nat)
    requires Increasing(t, p) && -1 <= j <= k < |p|
    ensures Place(p, k) - Place(p, j) >= k - j
    decreases k - j
  {
    if j < k { Apart(t, p, j + 1, k); }
  }

  /** A match ends a row of this length exactly if it is unbroken with that many places before it. */
  lemma {:induction false} RunIs(t: string, p: seq<nat>, k: nat)
    requires Increasing(t, p) && k < |p|
    ensures RunLength(p, k) <= k + 1
    ensures forall j :: -1 <= j < k ==> (Touching(p, j, k) <==> j >= k - RunLength(p, k))
  {
    if p[k] == After(p, k) {
      if k > 0 { RunIs(t, p, k - 1); }
      forall j | -1 <= j < k ensures Touching(p, j, k) <==> j >= k - RunLength(p, k) {
        assert j < k - 1 ==> (Touching(p, j, k) <==> Touching(p, j, k - 1));
      }
    } else {
      forall j | -1 <= j < k ensures !Touching(p, j, k) {
        if k > 0 { Apart(t, p, j, k - 1); }
      }
    }
  }

  lemma UnbrokenNext(t: string, p: seq<nat>, k: nat)
    requires Increasing(t, p) && k < |p|
    ensures |Unbroken(p, k + 1)| == |Unbroken(p, k)| + RunLength(p, k)
  {
    RunIs(t, p, k);
    hide Touching, RunLength, Increasing;
    var before, now, row := Unbroken(p, k), Unbroken(p, k + 1), Row(k, RunLength(p, k));
    forall x: (int, int) ensures x in now <==> x in before || x in row { assert x == (x.0, x.1); }
    assert now == before + row;
  }

  /** The pairs of the `k`th place with those of its row. */
  function Row(k: nat, run: nat): (pairs: set<(int, int)>)
    ensures |pairs| == run && forall i, j :: (i, j) in pairs <==> j == k && k - run <= i < k
  {
    if run == 0 then {} else Row(k, run - 1) + {(k - run, k as int)}
  }

  /** So the score, for a query and a text that are the same a hundred points less. */
  lemma ScoreIs(q: string, t: string, score: real) returns (p: seq<nat>)
    requires q != "" && Scores(q, t, score)
    ensures Leftmost(q, t, p) && Increasing(t, p)
    ensures var n := |p|;
      score == 2.0 * (p[n - 1] - p[0] - (n - 1)) as real + 0.1 * PlaceSum(p, n) as real
        - 10.0 * |WordStarts(t, p, n)| as real - 5.0 * |Unbroken(p, n)| as real - if q == t then 100.0 else 0.0
  {
    hide PlacedFirst;
    p :| Leftmost(q, t, p) && score == Total(t, p, |p|) - if q == t then 100.0 else 0.0;
    TotalIs(t, p, |p|);
  }

  lemma {:induction false} TotalOfPrefix(t: string, p: seq<nat>, i: nat, n: nat)
    requires Increasing(t, p) && Increasing(t, p + [i]) && n <= |p|
    ensures Total(t, p + [i], n) == Total(t, p, n)
  {
    if n > 0 {
      TotalOfPrefix(t, p, i, n - 1);
      RunOfPrefix(p, i, n - 1);
    }
  }

  lemma {:induction false} RunOfPrefix(p: seq<nat>, i: nat, k: nat)
    requires k < |p|
    ensures RunLength(p + [i], k) == RunLength(p, k)
  {
    if k > 0 { RunOfPrefix(p, i, k - 1); }
  }

  /** The greedy scan: succeeds exactly on subsequences, and scores the leftmost embedding. */
  method MatchQuery(q: string, t: string) returns (matches: bool, score: real)
    ensures matches <==> Subsequence(q, t)
    ensures matches ==> Scores(q, t, score)
    ensures !matches ==> score == 0.0
  {
    hide LeftmostSoFar, NotIn, Total, RunLength, Points, Increasing, IsSeparator, Subsequence, Scores, EmbedsSoFar;
    if |q| == 0 {
      EmptyQuery(t);
      return true, 0.0;
    }
    if |q| > |t| {
      TooLong(q, t);
      return false, 0.0;
    }
    var queryIndex := 0;
    score := 0.0;
    var lastMatchIndex := -1;
    var consecutiveMatches := 0;
    ghost var p: seq<nat> := [];
    NothingYet(q, t);
    var i := 0;
    while i < |t| && queryIndex < |q|
      invariant 0 <= i <= |t| && queryIndex == |p| <= |q|
      invariant LeftmostSoFar(q, t, p) && Increasing(t, p)
      invariant lastMatchIndex + 1 == After(p, |p|) <= i
      invariant queryIndex < |q| ==> NotIn(q[queryIndex], t, After(p, |p|), i)
      invariant consecutiveMatches == if p == [] then 0 else RunLength(p, |p| - 1)
      invariant score == Total(t, p, |p|)
    {
      if t[i] == q[queryIndex] {
        NextMatch(q, t, p, i);
        consecutiveMatches, score := Credit(t, p, i, lastMatchIndex, consecutiveMatches, score);
        lastMatchIndex := i;
        queryIndex := queryIndex + 1;
        p := p + [i];
        if queryIndex < |q| { NoneBetween(q[queryIndex], t, i + 1); }
      } else {
        NotHere(q[queryIndex], t, After(p, |p|), i);
      }
      i := i + 1;
    }
    if queryIndex < |q| {
      Stuck(q, t, p);
      return false, 0.0;
    }
    if q == t { score := score - 100.0; }
    matches := true;
    Found(q, t, p, score);
  }

  lemma EmptyQuery(t: string)
    ensures Subsequence("", t) && Scores("", t, 0.0)
  {
    assert Embeds("", t, []);
  }

  lemma NothingYet(q: string, t: string)
    requires q != ""
    ensures LeftmostSoFar(q, t, []) && Increasing(t, []) && Total(t, [], 0) == 0.0 && NotIn(q[0], t, 0, 0)
  {
  }

  lemma NoneBetween(c: char, t: string, i: nat)
    requires i <= |t|
    ensures NotIn(c, t, i, i)
  {
  }

  lemma NotHere(c: char, t: string, from: nat, i: nat)
    requires NotIn(c, t, from, i) && i < |t| && t[i] != c
    ensures NotIn(c, t, from, i + 1)
  {
  }

  lemma Found(q: string, t: string, p: seq<nat>, score: real)
    requires q != "" && Leftmost(q, t, p) && Increasing(t, p) && score == Total(t, p, |p|) - if q == t then 100.0
      else 0.0
    ensures Subsequence(q, t) && Scores(q, t, score)
  {
    assert Embeds(q, t, p);
  }

  /** The points for one more match. */
  method Credit(t: string, ghost p: seq<nat>, i: nat, lastMatchIndex: int, consecutive: nat, score: real)
      returns (consecutiveMatches: nat, newScore: real)
    requires Increasing(t, p + [i]) && lastMatchIndex + 1 == After(p, |p|) <= i
    requires RunLength(p + [i], |p|) == if After(p, |p|) == i then 1 + consecutive else 0
    ensures consecutiveMatches == RunLength(p + [i], |p|)
    ensures newScore == score + Points(t, p + [i], |p|)
  {
    hide RunLength;
    assert (p + [i])[|p|] == i;
    var isWordBoundary := i == 0 || IsSeparator(t[i - 1]);
    newScore := score;
    if lastMatchIndex == i - 1 {
      consecutiveMatches := consecutive + 1;
      newScore := newScore - consecutiveMatches as real * 5.0;
    } else {
      consecutiveMatches := 0;
      if lastMatchIndex >= 0 { newScore := newScore + (i - lastMatchIndex - 1) as real * 2.0; }
    }
    if isWordBoundary { newScore := newScore - 10.0; }
    newScore := newScore + i as real * 0.1;
  }

  /** Extending a leftmost embedding by the next character found. */
  lemma NextMatch(q: string, t: string, p: seq<nat>, i: nat)
    requires LeftmostSoFar(q, t, p) && |p| < |q| && i < |t|
    requires After(p, |p|) <= i && t[i] == q[|p|] && NotIn(q[|p|], t, After(p, |p|), i)
    ensures LeftmostSoFar(q, t, p + [i]) && Increasing(t, p) && Increasing(t, p + [i])
    ensures RunLength(p + [i], |p|) == if After(p, |p|) == i then 1 + (if p == [] then 0 else RunLength(p, |p| - 1))
      else 0
    ensures Total(t, p + [i], |p| + 1) == Total(t, p, |p|) + Points(t, p + [i], |p|)
  {
    NextPlace(q, t, p, i);
    if |p| > 0 { RunOfPrefix(p, i, |p| - 1); }
    TotalOfPrefix(t, p, i, |p|);
  }

  lemma NextPlace(q: string, t: string, p: seq<nat>, i: nat)
    requires LeftmostSoFar(q, t, p) && |p| < |q| && i < |t|
    requires After(p, |p|) <= i && t[i] == q[|p|] && NotIn(q[|p|], t, After(p, |p|), i)
    ensures LeftmostSoFar(q, t, p + [i]) && Increasing(t, p + [i])
  {
    var r := p + [i];
    forall k: nat | k < |r| ensures PlacedFirst(q, t, r, k) {
      if k < |p| { assert PlacedFirst(q, t, p, k) && After(r, k) == After(p, k); }
    }
  }

  lemma TooLong(q: string, t: string)
    requires |q| > |t|
    ensures !Subsequence(q, t)
  {
    forall e | Embeds(q, t, e) ensures false { EmbeddingAt(q, t, e, |e| - 1); }
  }

  // ---------------------------------------------------------------- letters and digits swapped

  predicate IsLetter(c: char) { 'a' <= c <= 'z' }

  predicate IsDigit(c: char) { '0' <= c <= '9' }

  predicate AllLetters(s: string) { s != "" && forall i :: 0 <= i < |s| ==> IsLetter(s[i]) }

  predicate AllDigits(s: string) { s != "" && forall i :: 0 <= i < |s| ==> IsDigit(s[i]) }

  /** Both halves are of one kind each. */
  predicate TwoKinds(a: string, b: string) { (AllLetters(a) && AllDigits(b)) || (AllDigits(a) && AllLetters(b)) }

  /** Letters followed by digits, or digits followed by letters: the other way round. */
  method SwapQuery(q: string) returns (swapped: Option<string>)
    ensures swapped.Some? ==> exists a, b :: q == a + b && TwoKinds(a, b) && swapped.value == b + a
    ensures swapped.None? ==> forall a, b :: q == a + b ==> !TwoKinds(a, b)
  {
    var n := 0;
    while n < |q| && (IsLetter(q[n]) == IsLetter(q[0])) && (IsDigit(q[n]) == IsDigit(q[0]))
      invariant 0 <= n <= |q|
      invariant forall i :: 0 <= i < n ==> IsLetter(q[i]) == IsLetter(q[0]) && IsDigit(q[i]) == IsDigit(q[0])
    {
      n := n + 1;
    }
    var a, b := q[..n], q[n..];
    assert q == a + b;
    var allLetters, allDigits := OnlyLetters(a), OnlyDigits(a);
    var restDigits, restLetters := OnlyDigits(b), OnlyLetters(b);
    if (allLetters && restDigits) || (allDigits && restLetters) {
      swapped := Some(b + a);
    } else {
      swapped := None;
      forall x, y | q == x + y && TwoKinds(x, y) ensures false { SplitHere(q, x, y, n); }
    }
  }

  function OnlyLetters(s: string): (r: bool)
    ensures r == AllLetters(s)
  {
    s != "" && forall i :: 0 <= i < |s| ==> IsLetter(s[i])
  }

  function OnlyDigits(s: string): (r: bool)
    ensures r == AllDigits(s)
  {
    s != "" && forall i :: 0 <= i < |s| ==> IsDigit(s[i])
  }

  /** There is only one place to split such a query: where its first kind ends. */
  lemma SplitHere(q: string, x: string, y: string, n: nat)
    requires q == x + y && TwoKinds(x, y) && n <= |q|
    requires forall i :: 0 <= i < n ==> IsLetter(q[i]) == IsLetter(q[0]) && IsDigit(q[i]) == IsDigit(q[0])
    requires n < |q| ==> IsLetter(q[n]) != IsLetter(q[0]) || IsDigit(q[n]) != IsDigit(q[0])
    ensures x == q[..n] && y == q[n..]
  {
    assert q[0] == x[0] && q[|x|] == y[0];
    assert forall i :: 0 <= i < |x| ==> q[i] == x[i];
  }

  // ---------------------------------------------------------------- match and filter

  ghost predicate Swapped(q: string, s: string) {
    exists a, b :: q == a + b && TwoKinds(a, b) && s == b + a
  }

  /** A query matches as it stands, or else with its letters and digits swapped, at a small extra cost. */
  ghost predicate Matches(q: string, t: string) {
    Subsequence(q, t) || exists s :: Swapped(q, s) && Subsequence(s, t)
  }

  ghost predicate MatchScores(q: string, t: string, score: real) {
    if Subsequence(q, t) then Scores(q, t, score)
    else exists s :: Swapped(q, s) && Subsequence(s, t) && Scores(s, t, score - 5.0)
  }

  lemma SwapIsUnique(q: string, s: string, r: string)
    requires Swapped(q, s) && Swapped(q, r)
    ensures s == r
  {
    var a, b :| q == a + b && TwoKinds(a, b) && s == b + a;
    var c, d :| q == c + d && TwoKinds(c, d) && r == d + c;
    FirstKind(q, a, b);
    FirstKind(q, c, d);
    SplitHere(q, a, b, |a|);
    SplitHere(q, c, d, |a|);
  }

  /** Its first half is the longest stretch of one kind. */
  lemma FirstKind(q: string, a: string, b: string)
    requires q == a + b && TwoKinds(a, b)
    ensures forall i :: 0 <= i < |a| ==> IsLetter(q[i]) == IsLetter(q[0]) && IsDigit(q[i]) == IsDigit(q[0])
    ensures |a| < |q| && (IsLetter(q[|a|]) != IsLetter(q[0]) || IsDigit(q[|a|]) != IsDigit(q[0]))
  {
    assert q[0] == a[0] && q[|a|] == b[0];
    assert forall i :: 0 <= i < |a| ==> q[i] == a[i];
  }

  lemma MatchScoreIsUnique(q: string, t: string, a: real, b: real)
    requires MatchScores(q, t, a) && MatchScores(q, t, b)
    ensures a == b
  {
    if Subsequence(q, t) {
      ScoreIsUnique(q, t, a, b);
    } else {
      var s :| Swapped(q, s) && Subsequence(s, t) && Scores(s, t, a - 5.0);
      var r :| Swapped(q, r) && Subsequence(r, t) && Scores(r, t, b - 5.0);
      SwapIsUnique(q, s, r);
      ScoreIsUnique(s, t, a - 5.0, b - 5.0);
    }
  }

  method FuzzyMatch(q: string, t: string) returns (matches: bool, score: real)
    ensures matches <==> Matches(q, t)
    ensures matches ==> MatchScores(q, t, score)
  {
    hide Subsequence, Scores;
    matches, score := MatchQuery(q, t);
    if matches { return; }
    var swapped := SwapQuery(q);
    if swapped.None? {
      return;
    }
    assert Swapped(q, swapped.value);
    var swappedMatches, swappedScore := MatchQuery(swapped.value, t);
    if !swappedMatches {
      forall s | Swapped(q, s) ensures s == swapped.value { SwapIsUnique(q, s, swapped.value); }
      return;
    }
    return true, swappedScore + 5.0;
  }

  /** Every token matches, and the scores add up. */
  ghost predicate AllMatch(tokens: seq<string>, t: string) {
    forall i :: 0 <= i < |tokens| ==> Matches(tokens[i], t)
  }

  function Sum(scores: seq<real>): real {
    if scores == [] then 0.0 else Sum(scores[..|scores| - 1]) + scores[|scores| - 1]
  }

  ghost predicate EachScores(tokens: seq<string>, t: string, scores: seq<real>) {
    |scores| == |tokens| && forall i :: 0 <= i < |tokens| ==> MatchScores(tokens[i], t, scores[i])
  }

  ghost predicate TotalScores(tokens: seq<string>, t: string, total: real) {
    exists scores :: EachScores(tokens, t, scores) && total == Sum(scores)
  }

  lemma TotalScoreIsUnique(tokens: seq<string>, t: string, a: real, b: real)
    requires TotalScores(tokens, t, a) && TotalScores(tokens, t, b)
    ensures a == b
  {
    hide MatchScores;
    var xs :| EachScores(tokens, t, xs) && a == Sum(xs);
    var ys :| EachScores(tokens, t, ys) && b == Sum(ys);
    forall i | 0 <= i < |tokens| ensures xs[i] == ys[i] { MatchScoreIsUnique(tokens[i], t, xs[i], ys[i]); }
    assert xs == ys;
  }

  method ScoreItem(tokens: seq<string>, t: string) returns (allMatch: bool, totalScore: real)
    ensures allMatch <==> AllMatch(tokens, t)
    ensures allMatch ==> TotalScores(tokens, t, totalScore)
  {
    hide Matches, MatchScores;
    totalScore := 0.0;
    ghost var scores: seq<real> := [];
    var i := 0;
    while i < |tokens|
      invariant 0 <= i <= |tokens| && AllMatch(tokens[..i], t)
      invariant EachScores(tokens[..i], t, scores) && totalScore == Sum(scores)
    {
      var matches, score := FuzzyMatch(tokens[i], t);
      if !matches { return false, 0.0; }
      assert (scores + [score])[..|scores|] == scores;
      totalScore := totalScore + score;
      scores := scores + [score];
      i := i + 1;
    }
    assert tokens[..i] == tokens;
    allMatch := true;
  }

  // ---------------------------------------------------------------- sorted by score

  /** Lower scores are better. */
  predicate Better(a: real, b: real) { a < b }

  predicate HasPlace(rs: seq<Placed<real>>, k: nat) { exists r :: r in rs && r.place == k }

  /** Results for exactly the texts on which every token matches, each with the sum of its tokens' scores. */
  ghost predicate ResultsFor(texts: seq<string>, tokens: seq<string>, rs: seq<Placed<real>>) {
    && (forall r :: r in rs ==> r.place < |texts| && TotalScores(tokens, texts[r.place], r.item))
    && (forall k :: 0 <= k < |texts| ==> (AllMatch(tokens, texts[k]) <==> HasPlace(rs, k)))
  }

  /**
   By non-decreasing score, ties in input order, there is one such list: the answer is a function of texts and tokens.
   */
  lemma FilterIsUnique(texts: seq<string>, tokens: seq<string>, a: seq<Placed<real>>, b: seq<Placed<real>>)
    requires Ordered(Better, a) && ResultsFor(texts, tokens, a) && Ordered(Better, b) && ResultsFor(texts, tokens, b)
    ensures a == b
  {
    forall r | r in a ensures r in b { ResultIn(texts, tokens, a, b, r); }
    forall r | r in b ensures r in a { ResultIn(texts, tokens, b, a, r); }
    OrderedIsUnique(Better, a, b);
  }

  lemma ResultIn(texts: seq<string>, tokens: seq<string>, a: seq<Placed<real>>, b: seq<Placed<real>>, r: Placed<real>)
    requires ResultsFor(texts, tokens, a) && ResultsFor(texts, tokens, b) && r in a
    ensures r in b
  {
    hide AllMatch, TotalScores;
    assert HasPlace(a, r.place);
    var s :| s in b && s.place == r.place;
    TotalScoreIsUnique(tokens, texts[r.place], r.item, s.item);
  }

  lemma NextResult(texts: seq<string>, tokens: seq<string>, rs: seq<Placed<real>>, r: Placed<real>)
    requires r.place < |texts| && ResultsFor(texts[..r.place], tokens, rs)
    requires AllMatch(tokens, texts[r.place]) && TotalScores(tokens, texts[r.place], r.item)
    ensures ResultsFor(texts[..r.place + 1], tokens, rs + [r])
  {
    hide AllMatch, TotalScores;
    var now := rs + [r];
    assert r in now;
    forall k | 0 <= k < r.place && HasPlace(rs, k) ensures HasPlace(now, k) {
      var x :| x in rs && x.place == k;
      assert x in now;
    }
  }

  lemma NoResult(texts: seq<string>, tokens: seq<string>, rs: seq<Placed<real>>, i: nat)
    requires i < |texts| && ResultsFor(texts[..i], tokens, rs) && !AllMatch(tokens, texts[i])
    ensures ResultsFor(texts[..i + 1], tokens, rs)
  {
    hide AllMatch, TotalScores;
  }

  /**
   Exactly the items on which every token matches, by non-decreasing total score, ties in input order.
   `texts` are the items' texts; the result lists places. Without tokens the input is returned as it is.
   */
  method FuzzyFilter(texts: seq<string>, tokens: seq<string>)
      returns (places: seq<nat>, ghost sorted: seq<Placed<real>>)
    ensures tokens == [] ==> places == seq(|texts|, i => i)
    ensures tokens != [] ==>
      && |places| == |sorted| && (forall k :: 0 <= k < |places| ==> places[k] == sorted[k].place)
      && Ordered(Better, sorted) && ResultsFor(texts, tokens, sorted)
      && (forall k :: 0 <= k < |texts| ==> (AllMatch(tokens, texts[k]) <==> k in places))
  {
    hide AllMatch, TotalScores, ResultsFor;
    if tokens == [] {
      return seq(|texts|, i => i), [];
    }
    var results: seq<Placed<real>> := [];
    var i := 0;
    NoResults(tokens);
    while i < |texts|
      invariant 0 <= i <= |texts| && ResultsFor(texts[..i], tokens, results)
      invariant forall r :: r in results ==> r.place < i
      invariant forall j, k :: 0 <= j < k < |results| ==> results[j].place < results[k].place
    {
      var allMatch, totalScore := ScoreItem(tokens, texts[i]);
      if allMatch {
        NextResult(texts, tokens, results, Placed(i, totalScore));
        results := results + [Placed(i, totalScore)];
      } else {
        NoResult(texts, tokens, results, i);
      }
      i := i + 1;
    }
    assert texts[..i] == texts;
    var inOrder := Sort(Better, results);
    places := seq(|inOrder|, k requires 0 <= k < |inOrder| => inOrder[k].place);
    sorted := inOrder;
    SortedResults(texts, tokens, results, inOrder);
    PlacesAre(texts, tokens, inOrder, places);
  }

  lemma NoResults(tokens: seq<string>)
    ensures ResultsFor([], tokens, [])
  {
  }

  lemma SortedResults(texts: seq<string>, tokens: seq<string>, rs: seq<Placed<real>>, sorted: seq<Placed<real>>)
    requires ResultsFor(texts, tokens, rs) && SameElements(sorted, rs)
    ensures ResultsFor(texts, tokens, sorted)
  {
    hide AllMatch, TotalScores;
    forall k | 0 <= k < |texts| ensures HasPlace(sorted, k) <==> HasPlace(rs, k) { }
  }

  lemma PlacesAre(texts: seq<string>, tokens: seq<string>, rs: seq<Placed<real>>, places: seq<nat>)
    requires ResultsFor(texts, tokens, rs) && |places| == |rs| && forall k :: 0 <= k < |rs| ==> places[k] == rs[k].place
    ensures forall k :: 0 <= k < |texts| ==> (AllMatch(tokens, texts[k]) <==> k in places)
  {
    hide AllMatch, TotalScores;
    forall k: nat | k < |texts| ensures HasPlace(rs, k) <==> k in places {
      if k in places {
        var j :| 0 <= j < |places| && places[j] == k;
        assert rs[j] in rs;
      }
      if HasPlace(rs, k) {
        var r :| r in rs && r.place == k;
        var j :| 0 <= j < |rs| && rs[j] == r;
        assert places[j] == k;
      }
    }
  }
}
