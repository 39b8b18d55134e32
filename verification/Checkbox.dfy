/** The checkbox counters: leftmost non-overlapping scans for checked markdown
    items, against the set of places where such an item ends. */
module Checkbox {
  import opened RepoKey

  // ----- the pattern, read declaratively -----

  /** Where ^ matches in multi-line mode. */
  predicate LineStart(t: string, p: nat) {
    p == 0 || (p <= |t| && t[p - 1] == '\n')
  }

  /** \s, any number of times. */
  predicate AllSpace(t: string, from: nat, to: nat) {
    from <= to <= |t| && forall i :: from <= i < to ==> t[i] in {'\t', '\n', '\U{000C}', '\r', ' '}
  }

  /** One of - * +, or digits and a dot. */
  predicate IsMarker(t: string, a: nat, b: nat) {
    && a < b <= |t|
    && (|| (b == a + 1 && t[a] in {'-', '*', '+'})
        || (a + 1 < b && t[b - 1] == '.' && forall i :: a <= i < b - 1 ==> '0' <= t[i] <= '9'))
  }

  predicate IsBox(t: string, c: nat) {
    c + 3 <= |t| && (t[c..c + 3] == "[x]" || t[c..c + 3] == "[X]")
  }

  /** The regular expression matches t[p..c] up to the box at c. */
  ghost predicate LeadsTo(t: string, p: nat, c: nat) {
    LineStart(t, p) && exists a: nat, b: nat :: AllSpace(t, p, a) && IsMarker(t, a, b) && b < c && AllSpace(t, b, c)
  }

  /** Some way of matching the whole expression at p ends at e. */
  ghost predicate Matches(t: string, p: nat, e: nat) {
    e >= 3 && LeadsTo(t, p, e - 3) && IsBox(t, e - 3)
  }

  // ----- the pattern, matched from left to right -----

  predicate Space(c: char) {
    c == ' ' || c == '\t' || c == '\n' || c == '\r' || c == '\U{000C}'
  }

  predicate Digit(c: char) {
    '0' <= c <= '9'
  }

  predicate Bullet(c: char) {
    c == '-' || c == '*' || c == '+'
  }

  predicate Ticked(t: string, c: nat) {
    c + 3 <= |t| && t[c] == '[' && (t[c + 1] == 'x' || t[c + 1] == 'X') && t[c + 2] == ']'
  }

  function SkipSpace(t: string, p: nat): (q: nat)
    requires p <= |t|
    ensures p <= q && AllSpace(t, p, q) && (q < |t| ==> !Space(t[q]))
    decreases |t| - p
  {
    if p < |t| && Space(t[p]) then SkipSpace(t, p + 1) else p
  }

  function SkipDigits(t: string, p: nat): (q: nat)
    requires p <= |t|
    ensures p <= q <= |t| && (forall i :: p <= i < q ==> Digit(t[i])) && (q < |t| ==> !Digit(t[q]))
    decreases |t| - p
  {
    if p < |t| && Digit(t[p]) then SkipDigits(t, p + 1) else p
  }

  function MarkerEnd(t: string, a: nat): Option<nat>
    requires a <= |t|
  {
    if a < |t| && Bullet(t[a]) then Some(a + 1)
    else
      var d := SkipDigits(t, a);
      if a < d < |t| && t[d] == '.' then Some(d + 1) else None
  }

  /** Where the box has to be for an item that starts on the line at p. */
  function BoxAt(t: string, p: nat): Option<nat> {
    if p > |t| || (p > 0 && t[p - 1] != '\n') then None
    else
      match MarkerEnd(t, SkipSpace(t, p))
      case None => None
      case Some(b) =>
        var c := SkipSpace(t, b);
        if c > b && c < |t| then Some(c) else None
  }

  function ItemEnd(t: string, p: nat): Option<nat> {
    match BoxAt(t, p)
    case None => None
    case Some(c) => if Ticked(t, c) then Some(c + 3) else None
  }

  lemma BoxIsTicked(t: string, c: nat)
    ensures IsBox(t, c) <==> Ticked(t, c)
  {
    if c + 3 <= |t| {
      var box := t[c..c + 3];
      assert box == [t[c], t[c + 1], t[c + 2]];
    }
  }

  lemma MarkerIsUnique(t: string, a: nat, b: nat)
    requires IsMarker(t, a, b)
    ensures MarkerEnd(t, a) == Some(b) && !Space(t[a])
  {
  }

  lemma SkipReaches(t: string, p: nat, q: nat)
    requires AllSpace(t, p, q) && q < |t| && !Space(t[q])
    ensures SkipSpace(t, p) == q
  {
  }

  lemma MatchIsFound(t: string, p: nat, e: nat)
    requires Matches(t, p, e)
    ensures ItemEnd(t, p) == Some(e)
  {
    var c := e - 3;
    var a: nat, b: nat :| AllSpace(t, p, a) && IsMarker(t, a, b) && b < c && AllSpace(t, b, c);
    BoxIsTicked(t, c);
    MarkerIsUnique(t, a, b);
    SkipReaches(t, p, a);
    SkipReaches(t, b, c);
  }

  lemma FoundIsMatch(t: string, p: nat, e: nat)
    requires ItemEnd(t, p) == Some(e)
    ensures Matches(t, p, e)
  {
    BoxIsTicked(t, e - 3);
    var a := SkipSpace(t, p);
    var b := MarkerEnd(t, a).value;
    assert IsMarker(t, a, b) && AllSpace(t, p, a) && AllSpace(t, b, e - 3);
  }

  /** Backtracking never matters: from a given start the expression matches in
      at most one way, the one found from left to right. */
  lemma MatchIsUnique(t: string, p: nat, e: nat)
    ensures Matches(t, p, e) <==> ItemEnd(t, p) == Some(e)
  {
    if Matches(t, p, e) {
      MatchIsFound(t, p, e);
    } else if ItemEnd(t, p) == Some(e) {
      FoundIsMatch(t, p, e);
    }
  }

  // ----- the scan -----

  lemma ItemEndAdvances(t: string, p: nat)
    ensures ItemEnd(t, p).Some? ==> p + 5 <= ItemEnd(t, p).value <= |t|
  {
  }

  /** FindAllString: the leftmost match at or after pos, then on from its end. */
  function CountFrom(t: string, pos: nat): nat
    decreases |t| + 1 - pos
  {
    if pos > |t| then 0
    else
      ItemEndAdvances(t, pos);
      match ItemEnd(t, pos)
      case Some(e) => 1 + CountFrom(t, e)
      case None => CountFrom(t, pos + 1)
  }

  function CheckedItems(t: string): nat {
    CountFrom(t, 0)
  }

  /** An item that starts at or after pos ends at e. */
  ghost predicate EndsAt(t: string, pos: nat, e: nat) {
    exists p :: pos <= p <= |t| && ItemEnd(t, p) == Some(e)
  }

  ghost function Ends(t: string, pos: nat): set<nat> {
    set e | 0 <= e <= |t| && EndsAt(t, pos, e)
  }

  /** Overlapping matches share one end. */
  lemma OverlapSharesEnd(t: string, p: nat, q: nat)
    requires ItemEnd(t, p).Some? && ItemEnd(t, q).Some? && p < q < ItemEnd(t, p).value
    ensures ItemEnd(t, q) == ItemEnd(t, p)
  {
  }

  lemma EndsSkip(t: string, pos: nat)
    requires pos <= |t| && ItemEnd(t, pos).None?
    ensures Ends(t, pos) == Ends(t, pos + 1)
  {
  }

  lemma EndsTakeOnly(t: string, pos: nat, e: nat, other: nat)
    requires pos <= |t| && ItemEnd(t, pos) == Some(e) && EndsAt(t, pos, other) && other != e
    ensures EndsAt(t, e, other)
  {
    var p :| pos <= p <= |t| && ItemEnd(t, p) == Some(other);
    if pos < p < e {
      OverlapSharesEnd(t, pos, p);
    }
  }

  lemma EndsTake(t: string, pos: nat, e: nat)
    requires pos <= |t| && ItemEnd(t, pos) == Some(e)
    ensures Ends(t, pos) == {e} + Ends(t, e) && e !in Ends(t, e)
  {
    ItemEndAdvances(t, pos);
    EndsShrink(t, pos, e);
    EndsAreLater(t, e, e);
    forall other: nat | EndsAt(t, pos, other) ensures other == e || EndsAt(t, e, other) {
      if other != e {
        EndsTakeOnly(t, pos, e, other);
      }
    }
    assert EndsAt(t, pos, e);
  }

  /** An item ends after the position it starts at. */
  lemma EndsAreLater(t: string, pos: nat, e: nat)
    requires e <= pos
    ensures !EndsAt(t, pos, e)
  {
  }

  /** The scan counts the distinct places where a checked item ends. */
  lemma {:induction false} ScanCountsEnds(t: string, pos: nat)
    ensures CountFrom(t, pos) == |Ends(t, pos)|
    decreases |t| + 1 - pos
  {
    if pos > |t| {
      assert Ends(t, pos) == {};
    } else {
      ItemEndAdvances(t, pos);
      match ItemEnd(t, pos) {
        case Some(e) =>
          EndsTake(t, pos, e);
          ScanCountsEnds(t, e);
        case None =>
          EndsSkip(t, pos);
          ScanCountsEnds(t, pos + 1);
      }
    }
  }

  // ----- ticking a box -----

  /** An unchecked list item whose box is at c. */
  ghost predicate Unchecked(t: string, c: nat) {
    && c + 3 <= |t| && t[c] == '[' && t[c + 1] == ' ' && t[c + 2] == ']'
    && exists p :: 0 <= p <= |t| && BoxAt(t, p) == Some(c)
  }

  /** The texts agree but for the inside of the box at c. */
  predicate SameButBox(t: string, u: string, c: nat) {
    && |t| == |u| && c + 3 <= |t| && t[c] == '[' && t[c + 1] == ' ' && t[c + 2] == ']'
    && u == t[c + 1 := u[c + 1]] && (u[c + 1] == 'x' || u[c + 1] == 'X')
  }

  lemma SkipSpaceSame(t: string, u: string, c: nat, p: nat)
    requires SameButBox(t, u, c) && p <= |t| && p != c + 1
    ensures SkipSpace(t, p) == SkipSpace(u, p) && (p <= c ==> SkipSpace(t, p) <= c)
    decreases |t| - p
  {
    if p < |t| && p != c && Space(t[p]) {
      SkipSpaceSame(t, u, c, p + 1);
    }
  }

  lemma MarkerEndSame(t: string, u: string, c: nat, a: nat)
    requires SameButBox(t, u, c) && a <= |t| && a != c + 1
    ensures MarkerEnd(t, a) == MarkerEnd(u, a)
    ensures a <= c && MarkerEnd(t, a).Some? ==> MarkerEnd(t, a).value <= c
    ensures MarkerEnd(t, a).Some? ==> MarkerEnd(t, a).value != c + 1
  {
    SkipDigitsSame(t, u, c, a);
  }

  lemma SkipDigitsSame(t: string, u: string, c: nat, p: nat)
    requires SameButBox(t, u, c) && p <= |t| && p != c + 1
    ensures SkipDigits(t, p) == SkipDigits(u, p) && (p <= c ==> SkipDigits(t, p) <= c)
    decreases |t| - p
  {
    if p < |t| && p != c && Digit(t[p]) {
      SkipDigitsSame(t, u, c, p + 1);
    }
  }

  /** What is inside a box has no say in where boxes have to be. */
  lemma BoxAtSame(t: string, u: string, c: nat, p: nat)
    requires SameButBox(t, u, c)
    ensures BoxAt(t, p) == BoxAt(u, p)
  {
    assert LineStart(t, p) <==> LineStart(u, p);
    if LineStart(t, p) {
      assert p != c + 1;
      SkipSpaceSame(t, u, c, p);
      var a := SkipSpace(t, p);
      assert a != c + 1;
      MarkerEndSame(t, u, c, a);
      match MarkerEnd(t, a)
      case None =>
      case Some(b) => SkipSpaceSame(t, u, c, b);
    }
  }

  lemma ItemEndTicked(t: string, u: string, c: nat, p: nat)
    requires SameButBox(t, u, c)
    ensures ItemEnd(u, p) == if BoxAt(t, p) == Some(c) then Some(c + 3) else ItemEnd(t, p)
    ensures ItemEnd(t, p) != Some(c + 3)
  {
    BoxAtSame(t, u, c, p);
    assert forall i :: 0 <= i < |t| && i != c + 1 ==> t[i] == u[i];
  }

  lemma EndSurvivesTick(t: string, u: string, c: nat, e: nat)
    requires SameButBox(t, u, c) && EndsAt(t, 0, e)
    ensures EndsAt(u, 0, e)
  {
    var p :| 0 <= p <= |t| && ItemEnd(t, p) == Some(e);
    ItemEndTicked(t, u, c, p);
  }

  lemma TickMakesEnd(t: string, u: string, c: nat)
    requires Unchecked(t, c) && SameButBox(t, u, c)
    ensures EndsAt(u, 0, c + 3)
  {
    var p :| 0 <= p <= |t| && BoxAt(t, p) == Some(c);
    ItemEndTicked(t, u, c, p);
  }

  lemma TickMakesNoOther(t: string, u: string, c: nat, e: nat)
    requires SameButBox(t, u, c) && EndsAt(u, 0, e) && e != c + 3
    ensures EndsAt(t, 0, e)
  {
    var p :| 0 <= p <= |u| && ItemEnd(u, p) == Some(e);
    ItemEndTicked(t, u, c, p);
  }

  lemma EndsAtTicked(t: string, u: string, c: nat, e: nat)
    requires Unchecked(t, c) && SameButBox(t, u, c)
    ensures EndsAt(u, 0, e) <==> e == c + 3 || EndsAt(t, 0, e)
  {
    TickMakesEnd(t, u, c);
    if EndsAt(t, 0, e) {
      EndSurvivesTick(t, u, c, e);
    } else if EndsAt(u, 0, e) && e != c + 3 {
      TickMakesNoOther(t, u, c, e);
    }
  }

  lemma UncheckedIsNoEnd(t: string, u: string, c: nat)
    requires SameButBox(t, u, c)
    ensures !EndsAt(t, 0, c + 3)
  {
  }

  lemma EndsTicked(t: string, u: string, c: nat)
    requires Unchecked(t, c) && SameButBox(t, u, c)
    ensures Ends(u, 0) == Ends(t, 0) + {c + 3} && c + 3 !in Ends(t, 0)
  {
    forall e: nat ensures e in Ends(u, 0) <==> e in Ends(t, 0) + {c + 3} {
      InEndsTicked(t, u, c, e);
    }
    UncheckedIsNoEnd(t, u, c);
  }

  lemma InEndsTicked(t: string, u: string, c: nat, e: nat)
    requires Unchecked(t, c) && SameButBox(t, u, c)
    ensures e in Ends(u, 0) <==> e == c + 3 || e in Ends(t, 0)
  {
    EndsAtTicked(t, u, c, e);
  }

  /** Ticking one list checkbox raises the count by exactly one, and unticking
      it lowers the count by exactly one, whatever else the text holds. */
  lemma TickChangesByOne(t: string, u: string, c: nat)
    requires Unchecked(t, c) && SameButBox(t, u, c)
    ensures CheckedItems(u) == CheckedItems(t) + 1
  {
    ScanCountsEnds(t, 0);
    ScanCountsEnds(u, 0);
    EndsTicked(t, u, c);
  }

  // ----- items with a marker comment -----

  function Find(t: string, ch: char, p: nat): (q: nat)
    requires p <= |t|
    ensures p <= q <= |t| && (forall i :: p <= i < q ==> t[i] != ch) && (q < |t| ==> t[q] == ch)
    decreases |t| - p
  {
    if p < |t| && t[p] != ch then Find(t, ch, p + 1) else p
  }

  predicate OpensComment(t: string, q: nat) {
    q + 4 <= |t| && t[q] == '<' && t[q + 1] == '!' && t[q + 2] == '-' && t[q + 3] == '-'
  }

  /** <!--[^>]*--> at q: the closing arrow is at the first > there is. */
  function CommentEnd(t: string, q: nat): Option<nat> {
    if OpensComment(t, q) then
      var g := Find(t, '>', q + 4);
      if g < |t| && q + 6 <= g && t[g - 1] == '-' && t[g - 2] == '-' then Some(g + 1) else None
    else None
  }

  /** [^\n]* is greedy: the last comment that starts in t[from..q]. */
  function LastComment(t: string, from: nat, q: nat): Option<nat>
    decreases q
  {
    if q < from then None
    else if CommentEnd(t, q).Some? then CommentEnd(t, q)
    else if q == 0 then None
    else LastComment(t, from, q - 1)
  }

  function MarkedEnd(t: string, p: nat): Option<nat> {
    ItemEndAdvances(t, p);
    match ItemEnd(t, p)
    case None => None
    case Some(e) => LastComment(t, e, Find(t, '\n', e))
  }

  /** Some way of matching <!--[^>]*--> at q ends at f. */
  ghost predicate CommentAt(t: string, q: nat, f: nat) {
    && q + 7 <= f <= |t| && t[q] == '<' && t[q + 1] == '!' && t[q + 2] == '-' && t[q + 3] == '-'
    && t[f - 3] == '-' && t[f - 2] == '-' && t[f - 1] == '>'
    && forall i :: q + 4 <= i < f - 3 ==> t[i] != '>'
  }

  lemma CommentIsUnique(t: string, q: nat, f: nat)
    ensures CommentAt(t, q, f) <==> CommentEnd(t, q) == Some(f)
  {
  }

  /** Some way of matching the whole marker expression at p has its comment at
      q and ends at f. */
  ghost predicate MarkedMatches(t: string, p: nat, q: nat, f: nat) {
    CommentAt(t, q, f) && exists e: nat :: Matches(t, p, e) && e <= q && forall i :: e <= i < q ==> t[i] != '\n'
  }

  lemma {:induction false} LastCommentIsLast(t: string, from: nat, q: nat) returns (r: nat)
    ensures LastComment(t, from, q).Some? ==>
              from <= r <= q && CommentEnd(t, r) == LastComment(t, from, q)
              && forall i :: r < i <= q ==> CommentEnd(t, i).None?
    ensures LastComment(t, from, q).None? ==> forall i :: from <= i <= q ==> CommentEnd(t, i).None?
    decreases q
  {
    r := q;
    if q >= from && CommentEnd(t, q).None? && q > 0 {
      r := LastCommentIsLast(t, from, q - 1);
    }
  }

  /** The scan reports a match at p if and only if there is one, and of all the
      ways to match it reports the one with the last comment on the line. */
  lemma MarkedIsGreedy(t: string, p: nat)
    ensures MarkedEnd(t, p).None? ==> forall q: nat, f: nat :: !MarkedMatches(t, p, q, f)
    ensures MarkedEnd(t, p).Some? ==>
              exists r: nat :: MarkedMatches(t, p, r, MarkedEnd(t, p).value)
                               && forall q: nat, f: nat :: MarkedMatches(t, p, q, f) ==> q <= r
  {
    ItemEndAdvances(t, p);
    if ItemEnd(t, p).Some? {
      var e := ItemEnd(t, p).value;
      var line := Find(t, '\n', e);
      MatchIsUnique(t, p, e);
      var r := LastCommentIsLast(t, e, line);
      forall q: nat, f: nat | MarkedMatches(t, p, q, f) ensures e <= q <= line && CommentEnd(t, q) == Some(f) {
        MarkedComesFrom(t, p, q, f);
      }
      if MarkedEnd(t, p).Some? {
        var f := MarkedEnd(t, p).value;
        CommentIsUnique(t, r, f);
        assert MarkedMatches(t, p, r, f);
      }
    } else {
      forall e: nat ensures !Matches(t, p, e) {
        MatchIsUnique(t, p, e);
      }
    }
  }

  lemma MarkedComesFrom(t: string, p: nat, q: nat, f: nat)
    requires MarkedMatches(t, p, q, f) && ItemEnd(t, p).Some? && ItemEnd(t, p).value <= |t|
    ensures var e := ItemEnd(t, p).value; e <= q <= Find(t, '\n', e) && CommentEnd(t, q) == Some(f)
  {
    var e: nat :| Matches(t, p, e) && e <= q && forall i :: e <= i < q ==> t[i] != '\n';
    MatchIsUnique(t, p, e);
    CommentIsUnique(t, q, f);
  }

  lemma {:induction false} LastCommentLater(t: string, from: nat, q: nat)
    ensures LastComment(t, from, q).Some? ==> from < LastComment(t, from, q).value <= |t|
    decreases q
  {
    if q >= from && CommentEnd(t, q).None? && q > 0 {
      LastCommentLater(t, from, q - 1);
    }
  }

  lemma MarkedEndAdvances(t: string, p: nat)
    ensures MarkedEnd(t, p).Some? ==>
              ItemEnd(t, p).Some? && p < ItemEnd(t, p).value < MarkedEnd(t, p).value <= |t|
  {
    ItemEndAdvances(t, p);
    if ItemEnd(t, p).Some? {
      LastCommentLater(t, ItemEnd(t, p).value, Find(t, '\n', ItemEnd(t, p).value));
    }
  }

  function MarkedFrom(t: string, pos: nat): nat
    decreases |t| + 1 - pos
  {
    if pos > |t| then 0
    else
      MarkedEndAdvances(t, pos);
      match MarkedEnd(t, pos)
      case Some(f) => 1 + MarkedFrom(t, f)
      case None => MarkedFrom(t, pos + 1)
  }

  function CheckedMarkerItems(t: string): nat {
    MarkedFrom(t, 0)
  }

  // ----- the count of marker items, declaratively -----

  /** A match of the marker expression: where it starts, where its comment
      starts, where it ends. */
  datatype Found = Found(start: nat, comment: nat, end: nat)

  /** Some match starts at p. */
  ghost predicate Starts(t: string, p: nat) {
    exists q: nat, f: nat :: MarkedMatches(t, p, q, f)
  }

  /** A match with the last comment on its line. */
  ghost predicate Greedy(t: string, m: Found) {
    && MarkedMatches(t, m.start, m.comment, m.end)
    && forall q: nat, f: nat :: MarkedMatches(t, m.start, q, f) ==> q <= m.comment
  }

  /** The leftmost non-overlapping greedy matches from pos on: each starts at or
      after the end of the one before, and no match starts anywhere between. */
  ghost predicate AllFound(t: string, pos: nat, ms: seq<Found>)
    decreases |ms|
  {
    if ms == [] then forall p :: pos <= p <= |t| ==> !Starts(t, p)
    else
      && pos <= ms[0].start && (forall p :: pos <= p < ms[0].start ==> !Starts(t, p))
      && Greedy(t, ms[0]) && AllFound(t, ms[0].end, ms[1..])
  }

  lemma GreedyEnd(t: string, m: Found)
    requires Greedy(t, m)
    ensures MarkedEnd(t, m.start) == Some(m.end)
  {
    MarkedIsGreedy(t, m.start);
    var r: nat :| MarkedMatches(t, m.start, r, MarkedEnd(t, m.start).value)
                  && forall q: nat, f: nat :: MarkedMatches(t, m.start, q, f) ==> q <= r;
    assert r == m.comment;
    CommentIsUnique(t, r, m.end);
    CommentIsUnique(t, r, MarkedEnd(t, m.start).value);
  }

  lemma NoStart(t: string, p: nat)
    ensures Starts(t, p) <==> MarkedEnd(t, p).Some?
  {
    MarkedIsGreedy(t, p);
  }

  lemma {:induction false} SkipGap(t: string, pos: nat, next: nat)
    requires pos <= next <= |t| + 1 && forall p :: pos <= p < next ==> !Starts(t, p)
    ensures MarkedFrom(t, pos) == MarkedFrom(t, next)
    decreases next - pos
  {
    if pos < next {
      NoStart(t, pos);
      SkipGap(t, pos + 1, next);
    }
  }

  lemma {:induction false} FoundAreCounted(t: string, pos: nat, ms: seq<Found>)
    requires AllFound(t, pos, ms)
    ensures MarkedFrom(t, pos) == |ms|
    decreases |ms|
  {
    if ms == [] {
      if pos <= |t| {
        SkipGap(t, pos, |t| + 1);
      }
    } else {
      var p := ms[0].start;
      GreedyEnd(t, ms[0]);
      MarkedEndAdvances(t, p);
      SkipGap(t, pos, p);
      FoundAreCounted(t, ms[0].end, ms[1..]);
    }
  }

  lemma FoundEarlier(t: string, pos: nat, ms: seq<Found>)
    requires !Starts(t, pos) && AllFound(t, pos + 1, ms)
    ensures AllFound(t, pos, ms)
  {
  }

  lemma GreedyAt(t: string, p: nat) returns (m: Found)
    requires MarkedEnd(t, p).Some?
    ensures Greedy(t, m) && m.start == p && m.end == MarkedEnd(t, p).value
  {
    MarkedIsGreedy(t, p);
    var f := MarkedEnd(t, p).value;
    var q: nat :| MarkedMatches(t, p, q, f) && forall q': nat, f': nat :: MarkedMatches(t, p, q', f') ==> q' <= q;
    m := Found(p, q, f);
  }

  lemma {:induction false} FindAll(t: string, pos: nat) returns (ms: seq<Found>)
    ensures AllFound(t, pos, ms)
    decreases |t| + 1 - pos
  {
    if pos > |t| {
      ms := [];
    } else if MarkedEnd(t, pos).None? {
      ms := FindAll(t, pos + 1);
      NoStart(t, pos);
      FoundEarlier(t, pos, ms);
    } else {
      MarkedEndAdvances(t, pos);
      var m := GreedyAt(t, pos);
      var rest := FindAll(t, m.end);
      ms := [m] + rest;
      assert ms[1..] == rest;
    }
  }

  /** The count is exact: there is a list of all leftmost non-overlapping matches,
      and every such list has as many members as the count says; so the count is
      positive exactly if there is a match at all. */
  lemma MarkerCountIsExact(t: string) returns (ms: seq<Found>)
    ensures AllFound(t, 0, ms) && |ms| == CheckedMarkerItems(t)
    ensures forall other :: AllFound(t, 0, other) ==> |other| == CheckedMarkerItems(t)
    ensures CheckedMarkerItems(t) > 0 <==> exists p: nat, q: nat, f: nat :: MarkedMatches(t, p, q, f)
  {
    ms := FindAll(t, 0);
    FoundAreCounted(t, 0, ms);
    forall other | AllFound(t, 0, other) ensures |other| == CheckedMarkerItems(t) {
      FoundAreCounted(t, 0, other);
    }
    if ms == [] {
      forall p: nat, q: nat, f: nat ensures !MarkedMatches(t, p, q, f) {
        if MarkedMatches(t, p, q, f) {
          assert Starts(t, p);
        }
      }
    }
  }

  lemma EndsShrink(t: string, pos: nat, later: nat)
    requires pos <= later
    ensures Ends(t, later) <= Ends(t, pos)
  {
  }

  lemma SubsetCard(a: set<nat>, b: set<nat>)
    requires a <= b
    ensures |a| <= |b|
  {
    assert b == a + (b - a);
  }

  lemma EndsAcross(t: string, pos: nat, e: nat, f: nat)
    requires pos <= |t| && ItemEnd(t, pos) == Some(e) && e <= f
    ensures 1 + |Ends(t, f)| <= |Ends(t, pos)|
  {
    ItemEndAdvances(t, pos);
    EndsShrink(t, pos, f);
    EndsAreLater(t, f, e);
    assert EndsAt(t, pos, e);
    SubsetCard({e} + Ends(t, f), Ends(t, pos));
  }

  lemma EndsCardShrink(t: string, pos: nat)
    ensures |Ends(t, pos + 1)| <= |Ends(t, pos)|
  {
    EndsShrink(t, pos, pos + 1);
    SubsetCard(Ends(t, pos + 1), Ends(t, pos));
  }

  /** One turn of the marker scan, with what is left to bound it. */
  lemma MarkedTurn(t: string, pos: nat) returns (next: nat)
    requires pos <= |t|
    ensures pos < next <= |t| + 1
    ensures MarkedFrom(t, pos) + |Ends(t, next)| <= MarkedFrom(t, next) + |Ends(t, pos)|
  {
    MarkedEndAdvances(t, pos);
    if MarkedEnd(t, pos).Some? {
      next := MarkedEnd(t, pos).value;
      EndsAcross(t, pos, ItemEnd(t, pos).value, next);
    } else {
      next := pos + 1;
      EndsCardShrink(t, pos);
    }
  }

  lemma {:induction false} MarkedBelow(t: string, pos: nat)
    ensures MarkedFrom(t, pos) <= |Ends(t, pos)|
    decreases |t| + 1 - pos
  {
    if pos <= |t| {
      var next := MarkedTurn(t, pos);
      MarkedBelow(t, next);
    }
  }

  /** Every counted marker item is a checked item of its own. */
  lemma MarkerItemsAreItems(t: string)
    ensures CheckedMarkerItems(t) <= CheckedItems(t)
  {
    MarkedBelow(t, 0);
    ScanCountsEnds(t, 0);
  }
}
