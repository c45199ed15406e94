/** The persisted score history: the best score and the top-5 list. The list is
    kept as "sort descending, take the first five", both after each run and
    after loading the saved lines. */
module ScoreBoard {

  datatype Option<T> = None | Some(value: T)

  const Capacity: nat := 5

  predicate NonIncreasing(s: seq<int>)
  {
    forall i, j :: 0 <= i < j < |s| ==> s[i] >= s[j]
  }

  /** Inserts `x` into a descending list before the first element not above it. */
  function Insert(x: int, s: seq<int>): (r: seq<int>)
    requires NonIncreasing(s)
    ensures NonIncreasing(r)
    ensures |r| == |s| + 1 && r[0] == (if s == [] || x >= s[0] then x else s[0])
  {
    if s == [] then [x]
    else if x >= s[0] then [x] + s
    else
      assert s == [s[0]] + s[1..];
      [s[0]] + Insert(x, s[1..])
  }

  /** `OrderByDescending(x => x)` on integers, as an insertion sort that takes
      the elements from the back. */
  function SortDescending(s: seq<int>): (r: seq<int>)
    ensures NonIncreasing(r) && |r| == |s|
  {
    if s == [] then []
    else
      assert s == s[..|s| - 1] + [s[|s| - 1]];
      Insert(s[|s| - 1], SortDescending(s[..|s| - 1]))
  }

  /** `Take(k)`: the first `k` elements, or all of them when there are fewer. */
  function Take(k: nat, s: seq<int>): (r: seq<int>)
    ensures |r| == if |s| <= k then |s| else k
    ensures r == s[..|r|]
    ensures NonIncreasing(s) ==> NonIncreasing(r)
  {
    if |s| <= k then s else s[..k]
  }

  /** `OrderByDescending(x => x).Take(5)`. */
  function TopFive(s: seq<int>): (r: seq<int>)
    ensures |r| <= Capacity && (|r| == Capacity || |r| == |s|)
    ensures NonIncreasing(r)
  {
    Take(Capacity, SortDescending(s))
  }

  /** `UpdateTopScores`: append the run's score, then keep the five best. */
  function RecordRun(tops: seq<int>, score: int): seq<int>
  {
    TopFive(tops + [score])
  }

  /** The best score only moves on a strict improvement, and then to that score. */
  function RaisedHighScore(highScore: int, score: int): (r: int)
    ensures r >= highScore && r >= score
    ensures r != highScore <==> score > highScore
    ensures r != highScore ==> r == score
  {
    if score > highScore then score else highScore
  }

  /** The values of the lines `int.TryParse` accepts, in file order. */
  function ParsedScores(lines: seq<Option<int>>): (r: seq<int>)
    ensures |r| <= |lines|
  {
    if lines == [] then []
    else (if lines[0].Some? then [lines[0].value] else []) + ParsedScores(lines[1..])
  }

  /** The list `LoadTopScores` keeps from the saved file's parsed lines. */
  function LoadedTopScores(lines: seq<Option<int>>): seq<int>
  {
    TopFive(ParsedScores(lines))
  }

  /** The lines `SaveTopScores` writes, each read back as the number it came from. */
  function Saved(tops: seq<int>): seq<Option<int>>
  {
    seq(|tops|, i requires 0 <= i < |tops| => Some(tops[i]))
  }

  // ---------------------------------------------------------------------

  /** Every element of a descending list is at most its head. */
  lemma HeadIsLargest(a: seq<int>, x: int)
    requires NonIncreasing(a) && x in multiset(a)
    ensures a != [] && x <= a[0]
  {
    var k :| 0 <= k < |a| && a[k] == x;
  }

  lemma SplitHead(a: seq<int>)
    requires a != []
    ensures multiset(a[1..]) == multiset(a) - multiset{a[0]}
    ensures NonIncreasing(a) ==> NonIncreasing(a[1..])
  {
    assert a == [a[0]] + a[1..];
  }

  /** Two descending lists with the same elements start with the same element. */
  lemma HeadsAgree(a: seq<int>, b: seq<int>)
    requires NonIncreasing(a) && NonIncreasing(b) && multiset(a) == multiset(b)
    requires a != []
    ensures b != [] && a[0] == b[0]
  {
    assert a[0] in multiset(b);
    HeadIsLargest(b, a[0]);
    assert b[0] in multiset(a);
    HeadIsLargest(a, b[0]);
  }

  /** Descending order is unique: two descending lists with the same elements
      are equal, so SortDescending is exactly `OrderByDescending`. */
  lemma {:induction false} DescendingOrderIsUnique(a: seq<int>, b: seq<int>)
    requires NonIncreasing(a) && NonIncreasing(b) && multiset(a) == multiset(b)
    ensures a == b
  {
    if a == [] {
      assert |b| == |multiset(b)| == |multiset(a)| == 0;
    } else {
      HeadsAgree(a, b);
      SplitHead(a);
      SplitHead(b);
      DescendingOrderIsUnique(a[1..], b[1..]);
      assert a == [a[0]] + a[1..];
      assert b == [b[0]] + b[1..];
    }
  }

  /** Inserting adds exactly the one element. */
  lemma {:induction false} InsertKeepsElements(x: int, s: seq<int>)
    requires NonIncreasing(s)
    ensures multiset(Insert(x, s)) == multiset(s) + multiset{x}
  {
    if s != [] && x < s[0] {
      InsertKeepsElements(x, s[1..]);
      assert s == [s[0]] + s[1..];
    }
  }

  /** Sorting rearranges the list: it keeps every element, as often as it occurs. */
  lemma {:induction false} SortKeepsElements(s: seq<int>)
    ensures multiset(SortDescending(s)) == multiset(s)
  {
    if s != [] {
      var init := s[..|s| - 1];
      SortKeepsElements(init);
      InsertKeepsElements(s[|s| - 1], SortDescending(init));
      assert s == init + [s[|s| - 1]];
    }
  }

  lemma SortedIsFixed(s: seq<int>)
    requires NonIncreasing(s)
    ensures SortDescending(s) == s
  {
    SortKeepsElements(s);
    DescendingOrderIsUnique(SortDescending(s), s);
  }

  /** The top five are taken from the list's own elements, and with five or
      fewer elements nothing is dropped. */
  lemma TopFiveKeepsElements(s: seq<int>)
    ensures multiset(TopFive(s)) <= multiset(s)
    ensures |s| <= Capacity ==> multiset(TopFive(s)) == multiset(s)
  {
    var sorted := SortDescending(s);
    SortKeepsElements(s);
    assert sorted == TopFive(s) + sorted[|TopFive(s)|..];
  }

  /** The list after a run is never longer than five and never increases; every
      dropped score is at most every kept one, so the five best are kept. */
  lemma TopFiveKeepsLargest(s: seq<int>)
    ensures |TopFive(s)| <= Capacity && NonIncreasing(TopFive(s))
    ensures forall x, y :: x in multiset(s) - multiset(TopFive(s)) && y in TopFive(s) ==> x <= y
  {
    var sorted := SortDescending(s);
    var r := TopFive(s);
    SortKeepsElements(s);
    assert sorted == r + sorted[|r|..];
    assert multiset(s) == multiset(r) + multiset(sorted[|r|..]);
    assert multiset(s) - multiset(r) == multiset(sorted[|r|..]);
    forall x, y | x in multiset(s) - multiset(r) && y in r
      ensures x <= y
    {
      assert x in sorted[|r|..];
      var k :| |r| <= k < |sorted| && sorted[k] == x;
      var j :| 0 <= j < |r| && r[j] == y;
      assert sorted[j] == y;
    }
  }

  lemma TakeCons(k: nat, x: int, s: seq<int>)
    requires k >= 1
    ensures Take(k, [x] + s) == [x] + Take(k - 1, s)
  {
  }

  /** Cutting to `k` before inserting does not change the first `k` of the result. */
  lemma {:induction false} TakeInsert(k: nat, x: int, s: seq<int>)
    requires NonIncreasing(s)
    ensures Take(k, Insert(x, Take(k, s))) == Take(k, Insert(x, s))
  {
    if k == 0 || s == [] {
    } else if x >= s[0] {
      assert Take(k, s)[0] == s[0];
      assert Insert(x, Take(k, s)) == [x] + Take(k, s);
      TakeCons(k, x, Take(k, s));
      TakeCons(k, x, s);
      assert Take(k - 1, Take(k, s)) == Take(k - 1, s);
    } else {
      var t := Take(k - 1, s[1..]);
      assert Take(k, s) == [s[0]] + t;
      assert Insert(x, Take(k, s)) == [s[0]] + Insert(x, t);
      TakeInsert(k - 1, x, s[1..]);
      TakeCons(k, s[0], Insert(x, t));
      TakeCons(k, s[0], Insert(x, s[1..]));
    }
  }

  /** Keeping only the current top five loses nothing: recording a run on the
      trimmed list gives the top five of the whole history plus the run. */
  lemma RecordRunMatchesFullHistory(history: seq<int>, score: int)
    ensures RecordRun(TopFive(history), score) == TopFive(history + [score])
  {
    var tops := TopFive(history);
    assert (history + [score])[..|history|] == history;
    assert (tops + [score])[..|tops|] == tops;
    SortedIsFixed(tops);
    TakeInsert(Capacity, score, SortDescending(history));
  }

  /** While the list holds fewer than five scores, recording a run keeps every
      score: the result is the descending arrangement of all of them. */
  lemma RecordRunBelowCapacity(tops: seq<int>, score: int, expected: seq<int>)
    requires |tops| < Capacity
    requires NonIncreasing(expected) && multiset(tops + [score]) == multiset(expected)
    ensures RecordRun(tops, score) == expected
  {
    TopFiveKeepsElements(tops + [score]);
    DescendingOrderIsUnique(RecordRun(tops, score), expected);
  }

  /** With room left, a score at least the current best goes to the front. */
  lemma RecordRunNewBest(tops: seq<int>, score: int)
    requires NonIncreasing(tops) && |tops| < Capacity
    requires forall i :: 0 <= i < |tops| ==> tops[i] <= score
    ensures RecordRun(tops, score) == [score] + tops
  {
    var expected := [score] + tops;
    assert NonIncreasing(expected) by {
      forall i, j | 0 <= i < j < |expected| ensures expected[i] >= expected[j] {
        if i > 0 { assert expected[i] == tops[i - 1]; }
        assert expected[j] == tops[j - 1];
      }
    }
    assert multiset(tops + [score]) == multiset(expected);
    RecordRunBelowCapacity(tops, score, expected);
  }

  /** With room left, a score at most the current worst goes to the back. */
  lemma RecordRunNewWorst(tops: seq<int>, score: int)
    requires NonIncreasing(tops) && |tops| < Capacity
    requires forall i :: 0 <= i < |tops| ==> score <= tops[i]
    ensures RecordRun(tops, score) == tops + [score]
  {
    var expected := tops + [score];
    assert NonIncreasing(expected) by {
      forall i, j | 0 <= i < j < |expected| ensures expected[i] >= expected[j] {
        assert expected[i] == tops[i];
      }
    }
    RecordRunBelowCapacity(tops, score, expected);
  }

  lemma {:induction false} ParsedScoresOfSaved(tops: seq<int>)
    ensures ParsedScores(Saved(tops)) == tops
  {
    if tops != [] {
      assert Saved(tops)[1..] == Saved(tops[1..]);
      ParsedScoresOfSaved(tops[1..]);
    }
  }

  /** Saving the list and loading it back gives the same list. */
  lemma SaveLoadRoundTrip(tops: seq<int>)
    requires NonIncreasing(tops) && |tops| <= Capacity
    ensures LoadedTopScores(Saved(tops)) == tops
  {
    ParsedScoresOfSaved(tops);
    SortedIsFixed(tops);
  }

  /** Loading keeps exactly the values of the lines that parse. */
  lemma {:induction false} ParsedScoresMembership(lines: seq<Option<int>>)
    ensures forall x :: x in ParsedScores(lines) <==> Some(x) in lines
  {
    if lines != [] {
      ParsedScoresMembership(lines[1..]);
      assert lines == [lines[0]] + lines[1..];
    }
  }
}
