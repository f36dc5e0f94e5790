/**
 * utils.py: keyword-driven re-ranking of candidate lists.
 * The query picks exactly one sort bucket (first match in a fixed order wins) and the
 * list is sorted in place by that bucket's key, largest key first.
 */
module Utils {

  import opened Wrappers
  import opened Text
  import opened Records
  import opened Sorting

  /** The sort buckets, in the order the query is checked against them. */
  datatype Bucket =
    | LowFear | HighFear | Easy | Puzzle | LowActivity | HighActivity
    | Story | Interior | Staging | ByRating

  /** The keywords that select each bucket. */
  function Tokens(b: Bucket): seq<string>
  {
    match b
    case LowFear => ["안무서운", "무섭지 않은", "겁쟁이", "극쫄"]
    case HighFear => ["공포", "무서운", "호러", "스릴러"]
    case Easy => ["쉬운", "안어려운", "입문", "초보"]
    case Puzzle => ["문제방", "어려운", "문제", "숙련자"]
    case LowActivity => ["활동적이지 않은", "치마", "힐", "걷는"]
    case HighActivity => ["활동", "동적인", "바지", "체력"]
    case Story => ["스토리", "드라마", "감성", "서사"]
    case Interior => ["인테리어", "리얼리티", "실제같은", "배경"]
    case Staging => ["연출", "장치", "화려", "스케일"]
    case ByRating => []
  }

  /** Position of a bucket in the testing order; the default bucket comes last. */
  function Rank(b: Bucket): nat
  {
    match b
    case LowFear => 0
    case HighFear => 1
    case Easy => 2
    case Puzzle => 3
    case LowActivity => 4
    case HighActivity => 5
    case Story => 6
    case Interior => 7
    case Staging => 8
    case ByRating => 9
  }

  /** Some keyword of the list occurs in the query. */
  predicate MatchesAny(query: string, tokens: seq<string>)
  {
    exists k | 0 <= k < |tokens| :: Contains(query, tokens[k])
  }

  /** Some keyword of bucket b occurs in the query. */
  predicate Matches(query: string, b: Bucket)
  {
    MatchesAny(query, Tokens(b))
  }

  /** For a keyword list of at most four, matching is the disjunction over its members. */
  lemma MatchesAnyUpToFour(q: string, tokens: seq<string>)
    requires |tokens| <= 4
    ensures MatchesAny(q, tokens) <==>
      || (|tokens| > 0 && Contains(q, tokens[0]))
      || (|tokens| > 1 && Contains(q, tokens[1]))
      || (|tokens| > 2 && Contains(q, tokens[2]))
      || (|tokens| > 3 && Contains(q, tokens[3]))
  {
  }

  /** `user_query if user_query else ""`: None and "" both become "". */
  function QueryText(userQuery: Option<string>): (q: string)
    ensures userQuery.Some? ==> q == userQuery.value
    ensures userQuery.None? ==> q == ""
  {
    match userQuery
    case Some(s) => s
    case None => ""
  }

  /** The if/elif chain of sort_candidates_by_query. */
  function SelectBucket(q: string): Bucket
  {
    if Matches(q, LowFear) then LowFear
    else if Matches(q, HighFear) then HighFear
    else if Matches(q, Easy) then Easy
    else if Matches(q, Puzzle) then Puzzle
    else if Matches(q, LowActivity) then LowActivity
    else if Matches(q, HighActivity) then HighActivity
    else if Matches(q, Story) then Story
    else if Matches(q, Interior) then Interior
    else if Matches(q, Staging) then Staging
    else ByRating
  }

  /** Matching a bucket is matching one of its four keywords. */
  lemma MatchesAnyOfFour(q: string, b: Bucket)
    requires b != ByRating
    ensures |Tokens(b)| == 4
    ensures Matches(q, b) <==>
      Contains(q, Tokens(b)[0]) || Contains(q, Tokens(b)[1]) || Contains(q, Tokens(b)[2]) || Contains(q, Tokens(b)[3])
  {
    MatchesAnyUpToFour(q, Tokens(b));
  }

  /**
   * First match wins: the selected bucket matches the query (unless it is the default),
   * no bucket checked earlier matches, and the default is chosen exactly when no bucket
   * matches at all.
   */
  lemma SelectBucketIsFirstMatch(q: string)
    ensures SelectBucket(q) != ByRating ==> Matches(q, SelectBucket(q))
    ensures forall c: Bucket :: Rank(c) < Rank(SelectBucket(q)) ==> !Matches(q, c)
    ensures SelectBucket(q) == ByRating <==> forall c: Bucket :: c != ByRating ==> !Matches(q, c)
  {
    var s := SelectBucket(q);
    forall c: Bucket | Matches(q, c)
      ensures Rank(s) <= Rank(c)
    {
      SelectedNoLaterThan(q, c);
    }
    if s != ByRating {
      SelectedMatches(q);
    }
  }

  /** A bucket whose keywords occur is the selected bucket or one checked after it. */
  lemma SelectedNoLaterThan(q: string, c: Bucket)
    requires Matches(q, c)
    ensures Rank(SelectBucket(q)) <= Rank(c)
  {
    match c
    case LowFear =>
    case HighFear =>
    case Easy =>
    case Puzzle =>
    case LowActivity =>
    case HighActivity =>
    case Story =>
    case Interior =>
    case Staging =>
    case ByRating =>
  }

  /** The selected bucket, unless it is the default, matches the query. */
  lemma SelectedMatches(q: string)
    requires SelectBucket(q) != ByRating
    ensures Matches(q, SelectBucket(q))
  {
    if Matches(q, LowFear) {
    } else if Matches(q, HighFear) {
    } else if Matches(q, Easy) {
    } else if Matches(q, Puzzle) {
    } else if Matches(q, LowActivity) {
    } else if Matches(q, HighActivity) {
    } else if Matches(q, Story) {
    } else if Matches(q, Interior) {
    } else {
      assert Matches(q, Staging);
    }
  }

  /** In the puzzle bucket: rank by problem score first when "문제방" or "문제" occurs. */
  predicate ProblemFirst(q: string)
  {
    Contains(q, "문제방") || Contains(q, "문제")
  }

  /** Keywords that hold other keywords of a later bucket. */
  lemma KeywordNesting()
    ensures Contains("안무서운", "무서운")
    ensures Contains("안어려운", "어려운")
    ensures Contains("활동적이지 않은", "활동")
    ensures Contains("문제방", "문제")
  {
    assert "안무서운"[1..4] == "무서운";
    ContainsAt("안무서운", "무서운", 1);
    assert "안어려운"[1..4] == "어려운";
    ContainsAt("안어려운", "어려운", 1);
    assert "활동적이지 않은"[0..2] == "활동";
    ContainsAt("활동적이지 않은", "활동", 0);
    assert "문제방"[0..2] == "문제";
    ContainsAt("문제방", "문제", 0);
  }

  /** "문제방" contains "문제", so the puzzle bucket ranks by problem first exactly when "문제" occurs. */
  lemma ProblemFirstIffMunje(q: string)
    ensures ProblemFirst(q) <==> Contains(q, "문제")
  {
    if Contains(q, "문제방") {
      KeywordNesting();
      ContainsTransitive(q, "문제방", "문제");
    }
  }

  /**
   * Negated keywords are checked before the keywords they contain: "안무서운" holds
   * "무서운", yet selects the low-fear bucket.
   */
  lemma NegatedFearSelectsLowFear(q: string)
    requires Contains(q, "안무서운")
    ensures Matches(q, HighFear)
    ensures SelectBucket(q) == LowFear
  {
    KeywordNesting();
    ContainsTransitive(q, "안무서운", "무서운");
    MatchesAnyOfFour(q, HighFear);
  }

  /** "안어려운" holds "어려운" (puzzle), yet selects the easy bucket when no fear keyword occurs. */
  lemma NegatedDifficultySelectsEasy(q: string)
    requires Contains(q, "안어려운")
    requires !Matches(q, LowFear) && !Matches(q, HighFear)
    ensures Matches(q, Puzzle)
    ensures SelectBucket(q) == Easy
  {
    KeywordNesting();
    ContainsTransitive(q, "안어려운", "어려운");
    MatchesAnyOfFour(q, Puzzle);
    MatchesAnyOfFour(q, LowFear);
    MatchesAnyOfFour(q, HighFear);
  }

  /**
   * "활동적이지 않은" holds "활동" (high activity), yet selects the low-activity bucket
   * when no earlier bucket matches.
   */
  lemma NegatedActivitySelectsLowActivity(q: string)
    requires Contains(q, "활동적이지 않은")
    requires forall c: Bucket :: Rank(c) < Rank(LowActivity) ==> !Matches(q, c)
    ensures Matches(q, HighActivity)
    ensures SelectBucket(q) == LowActivity
  {
    KeywordNesting();
    ContainsTransitive(q, "활동적이지 않은", "활동");
    MatchesAnyOfFour(q, HighActivity);
    SelectBucketIsFirstMatch(q);
    MatchesAnyOfFour(q, LowActivity);
    assert Rank(LowFear) < Rank(LowActivity) && Rank(HighFear) < Rank(LowActivity);
    assert Rank(Easy) < Rank(LowActivity) && Rank(Puzzle) < Rank(LowActivity);
    MatchesAnyOfFour(q, LowFear);
    MatchesAnyOfFour(q, HighFear);
    MatchesAnyOfFour(q, Easy);
    MatchesAnyOfFour(q, Puzzle);
  }

  /**
   * get_val: the field as a float; a missing key, None or a value float() rejects
   * gives 0.0 instead of an error.
   */
  function GetVal(item: Candidate, key: string): (r: real)
    ensures key in item && item[key].Real? ==> r == item[key].r
    ensures key in item && item[key].Int? ==> r == item[key].i as real
    ensures key !in item || !(item[key].Int? || item[key].Real?) ==> r == 0.0
  {
    match ToFloat(Get(item, key))
    case Some(x) => x
    case None => 0.0
  }

  /** The tuple each bucket passes as `key=` (sorted with reverse=True). */
  function Key(b: Bucket, q: string, x: Candidate): seq<real>
  {
    match b
    case LowFear => [-GetVal(x, "fear"), GetVal(x, "rating")]
    case HighFear => [GetVal(x, "fear"), GetVal(x, "rating")]
    case Easy => [-GetVal(x, "difficulty"), GetVal(x, "rating")]
    case Puzzle =>
      if ProblemFirst(q) then [GetVal(x, "problem"), GetVal(x, "difficulty"), GetVal(x, "rating")]
      else [GetVal(x, "difficulty"), GetVal(x, "rating")]
    case LowActivity => [-GetVal(x, "activity"), GetVal(x, "rating")]
    case HighActivity => [GetVal(x, "activity"), GetVal(x, "rating")]
    case Story => [GetVal(x, "story"), GetVal(x, "rating")]
    case Interior => [GetVal(x, "interior"), GetVal(x, "rating")]
    case Staging => [GetVal(x, "act"), GetVal(x, "rating")]
    case ByRating => [GetVal(x, "rating")]
  }

  datatype Direction = Ascending | Descending

  /** What each bucket promises, in words: fields compared in turn, each in a direction. */
  function Criteria(b: Bucket, q: string): seq<(string, Direction)>
  {
    match b
    case LowFear => [("fear", Ascending), ("rating", Descending)]
    case HighFear => [("fear", Descending), ("rating", Descending)]
    case Easy => [("difficulty", Ascending), ("rating", Descending)]
    case Puzzle =>
      if ProblemFirst(q) then [("problem", Descending), ("difficulty", Descending), ("rating", Descending)]
      else [("difficulty", Descending), ("rating", Descending)]
    case LowActivity => [("activity", Ascending), ("rating", Descending)]
    case HighActivity => [("activity", Descending), ("rating", Descending)]
    case Story => [("story", Descending), ("rating", Descending)]
    case Interior => [("interior", Descending), ("rating", Descending)]
    case Staging => [("act", Descending), ("rating", Descending)]
    case ByRating => [("rating", Descending)]
  }

  /** x may stand before y: on the first field where they differ, x is on the preferred side. */
  predicate Precedes(criteria: seq<(string, Direction)>, x: Candidate, y: Candidate)
  {
    if criteria == [] then true
    else
      var vx := GetVal(x, criteria[0].0);
      var vy := GetVal(y, criteria[0].0);
      if vx != vy then (if criteria[0].1 == Ascending then vx < vy else vx > vy)
      else Precedes(criteria[1..], x, y)
  }

  /** A field value as it enters a key tuple: negated for an ascending field. */
  function Oriented(d: Direction, v: real): real
  {
    if d == Ascending then -v else v
  }

  function OrientedKey(criteria: seq<(string, Direction)>, x: Candidate): (k: seq<real>)
    ensures |k| == |criteria|
  {
    if criteria == [] then []
    else [Oriented(criteria[0].1, GetVal(x, criteria[0].0))] + OrientedKey(criteria[1..], x)
  }

  lemma {:induction false} OrientedKeyOrder(criteria: seq<(string, Direction)>, x: Candidate, y: Candidate)
    ensures LexGe(OrientedKey(criteria, x), OrientedKey(criteria, y)) <==> Precedes(criteria, x, y)
  {
    if criteria != [] {
      OrientedKeyOrder(criteria[1..], x, y);
      var kx, ky := OrientedKey(criteria, x), OrientedKey(criteria, y);
      assert kx[1..] == OrientedKey(criteria[1..], x);
      assert ky[1..] == OrientedKey(criteria[1..], y);
    }
  }

  /** Each bucket's key tuple is its criteria, with ascending fields negated. */
  lemma KeyIsOrientedCriteria(b: Bucket, q: string, x: Candidate)
    ensures Key(b, q, x) == OrientedKey(Criteria(b, q), x)
  {
    var c := Criteria(b, q);
    if |c| == 3 {
      assert OrientedKey(c, x) == [Oriented(c[0].1, GetVal(x, c[0].0))] + OrientedKey(c[1..], x);
      assert OrientedKey(c[1..], x) == [Oriented(c[1].1, GetVal(x, c[1].0))] + OrientedKey(c[2..], x);
    }
  }

  /** Descending order of a bucket's key tuple is exactly the bucket's stated ordering. */
  lemma KeyOrderMeansCriteria(b: Bucket, q: string, x: Candidate, y: Candidate)
    ensures LexGe(Key(b, q, x), Key(b, q, y)) <==> Precedes(Criteria(b, q), x, y)
  {
    KeyIsOrientedCriteria(b, q, x);
    KeyIsOrientedCriteria(b, q, y);
    OrientedKeyOrder(Criteria(b, q), x, y);
  }

  /** Every candidate may stand before every later one under the given criteria. */
  ghost predicate RankedBy(s: seq<Candidate>, criteria: seq<(string, Direction)>)
  {
    forall i, j :: 0 <= i < j < |s| ==> Precedes(criteria, s[i], s[j])
  }

  /** The ordering a list sorted for query q is in. */
  ghost predicate RankedFor(s: seq<Candidate>, q: string)
  {
    RankedBy(s, Criteria(SelectBucket(q), q))
  }

  /** The field a bucket ranks by first, and in which direction. */
  function Primary(b: Bucket, q: string): (string, Direction)
  {
    Criteria(b, q)[0]
  }

  /** x is strictly on the preferred side of y in the bucket's first field. */
  predicate StrictlyBetter(b: Bucket, q: string, x: Candidate, y: Candidate)
  {
    var (f, d) := Primary(b, q);
    if d == Ascending then GetVal(x, f) < GetVal(y, f) else GetVal(x, f) > GetVal(y, f)
  }

  /**
   * In a ranked list no candidate is strictly better in the bucket's first field than
   * one placed before it; so a candidate strictly better than all others comes first,
   * whatever its rating.
   */
  lemma PrimaryFieldMonotone(s: seq<Candidate>, q: string)
    requires RankedFor(s, q)
    ensures forall i, j :: 0 <= i < j < |s| ==> !StrictlyBetter(SelectBucket(q), q, s[j], s[i])
  {
    var b := SelectBucket(q);
    forall i, j | 0 <= i < j < |s|
      ensures !StrictlyBetter(b, q, s[j], s[i])
    {
      assert Precedes(Criteria(b, q), s[i], s[j]);
    }
  }

  /**
   * sort_candidates_by_query: an empty or missing list gives a new empty list; any other
   * list is reordered in place, keeps exactly its candidates, ends up in the order of the
   * bucket the query selects, and is itself returned.
   */
  method SortCandidatesByQuery(candidates: array?<Candidate>, userQuery: Option<string>)
      returns (r: array<Candidate>)
    modifies candidates
    ensures candidates == null || candidates.Length == 0 ==> fresh(r) && r.Length == 0
    ensures candidates != null && candidates.Length > 0 ==>
      && r == candidates
      && multiset(r[..]) == multiset(old(candidates[..]))
      && RankedFor(r[..], QueryText(userQuery))
  {
    if candidates == null || candidates.Length == 0 {
      r := new Candidate[0];
      return;
    }
    var q := QueryText(userQuery);
    var b := SelectBucket(q);
    SortDesc(candidates, x => Key(b, q, x));
    forall i, j | 0 <= i < j < candidates.Length
      ensures Precedes(Criteria(b, q), candidates[i], candidates[j])
    {
      KeyOrderMeansCriteria(b, q, candidates[i], candidates[j]);
    }
    r := candidates;
  }
}
