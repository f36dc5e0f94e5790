/**
 * app.py's own copy of sort_candidates_by_query (the older variant): fewer keywords,
 * no puzzle sub-choice, and the "low" buckets rank by rating first with the
 * dimension ascending only as a tie-break. Fields are read with `x[key]`.
 */
module AppSort {

  import opened Wrappers
  import opened Text
  import opened Records
  import opened Sorting
  import opened Utils

  /** The keywords that select each bucket in this variant. */
  function AppTokens(b: Bucket): seq<string>
  {
    match b
    case LowFear => ["안무서운", "무섭지 않은"]
    case HighFear => ["공포", "무서운", "호러"]
    case Easy => ["쉬운", "안어려운"]
    case Puzzle => ["문제방", "어려운", "문제"]
    case LowActivity => ["활동적이지 않은", "치마"]
    case HighActivity => ["활동", "동적인", "바지"]
    case Story => ["스토리", "드라마", "감성"]
    case Interior => ["인테리어", "리얼리티", "실제같은"]
    case Staging => ["연출", "장치", "화려", "스케일"]
    case ByRating => []
  }

  predicate AppMatches(q: string, b: Bucket)
  {
    MatchesAny(q, AppTokens(b))
  }

  /** The if/elif chain of app.py's sort_candidates_by_query. */
  function AppSelectBucket(q: string): Bucket
  {
    if AppMatches(q, LowFear) then LowFear
    else if AppMatches(q, HighFear) then HighFear
    else if AppMatches(q, Easy) then Easy
    else if AppMatches(q, Puzzle) then Puzzle
    else if AppMatches(q, LowActivity) then LowActivity
    else if AppMatches(q, HighActivity) then HighActivity
    else if AppMatches(q, Story) then Story
    else if AppMatches(q, Interior) then Interior
    else if AppMatches(q, Staging) then Staging
    else ByRating
  }

  /** First match wins, in the same bucket order as utils.py. */
  lemma AppSelectBucketIsFirstMatch(q: string)
    ensures AppSelectBucket(q) != ByRating ==> AppMatches(q, AppSelectBucket(q))
    ensures forall c: Bucket :: Rank(c) < Rank(AppSelectBucket(q)) ==> !AppMatches(q, c)
    ensures AppSelectBucket(q) == ByRating <==> forall c: Bucket :: c != ByRating ==> !AppMatches(q, c)
  {
    var s := AppSelectBucket(q);
    forall c: Bucket | AppMatches(q, c)
      ensures Rank(s) <= Rank(c)
    {
      AppSelectedNoLaterThan(q, c);
    }
    if s != ByRating {
      AppSelectedMatches(q);
    }
  }

  lemma AppSelectedNoLaterThan(q: string, c: Bucket)
    requires AppMatches(q, c)
    ensures Rank(AppSelectBucket(q)) <= Rank(c)
  {
    match c
    case LowFear =>
    case HighFear =>
    case Easy =>
    case Puzzle =>
    case LowActivity =>
    case HighActivity =>
    case Story =>
    case Interior =>
    case Staging =>
    case ByRating =>
  }

  lemma AppSelectedMatches(q: string)
    requires AppSelectBucket(q) != ByRating
    ensures AppMatches(q, AppSelectBucket(q))
  {
    if AppMatches(q, LowFear) {
    } else if AppMatches(q, HighFear) {
    } else if AppMatches(q, Easy) {
    } else if AppMatches(q, Puzzle) {
    } else if AppMatches(q, LowActivity) {
    } else if AppMatches(q, HighActivity) {
    } else if AppMatches(q, Story) {
    } else if AppMatches(q, Interior) {
    } else {
      assert AppMatches(q, Staging);
    }
  }

  /** Any of "문제방", "어려운", "문제" (and no earlier bucket) selects the puzzle bucket. */
  lemma AppPuzzleKeywords(q: string)
    requires Contains(q, "문제방") || Contains(q, "어려운") || Contains(q, "문제")
    requires !AppMatches(q, LowFear) && !AppMatches(q, HighFear) && !AppMatches(q, Easy)
    ensures AppSelectBucket(q) == Puzzle
  {
    MatchesAnyUpToFour(q, AppTokens(Puzzle));
  }

  /** The tuple each bucket of this variant passes as `key=` (sorted with reverse=True). */
  function AppKey(b: Bucket, x: Candidate): seq<real>
  {
    match b
    case LowFear => [GetVal(x, "rating"), -GetVal(x, "fear")]
    case HighFear => [GetVal(x, "fear"), GetVal(x, "rating")]
    case Easy => [GetVal(x, "rating"), -GetVal(x, "difficulty")]
    case Puzzle => [GetVal(x, "problem"), GetVal(x, "difficulty"), GetVal(x, "rating")]
    case LowActivity => [GetVal(x, "rating"), -GetVal(x, "activity")]
    case HighActivity => [GetVal(x, "activity"), GetVal(x, "rating")]
    case Story => [GetVal(x, "story"), GetVal(x, "rating")]
    case Interior => [GetVal(x, "interior"), GetVal(x, "rating")]
    case Staging => [GetVal(x, "act"), GetVal(x, "rating")]
    case ByRating => [GetVal(x, "rating")]
  }

  /** The ordering each bucket of this variant produces, field by field. */
  function AppCriteria(b: Bucket): seq<(string, Direction)>
  {
    match b
    case LowFear => [("rating", Descending), ("fear", Ascending)]
    case HighFear => [("fear", Descending), ("rating", Descending)]
    case Easy => [("rating", Descending), ("difficulty", Ascending)]
    case Puzzle => [("problem", Descending), ("difficulty", Descending), ("rating", Descending)]
    case LowActivity => [("rating", Descending), ("activity", Ascending)]
    case HighActivity => [("activity", Descending), ("rating", Descending)]
    case Story => [("story", Descending), ("rating", Descending)]
    case Interior => [("interior", Descending), ("rating", Descending)]
    case Staging => [("act", Descending), ("rating", Descending)]
    case ByRating => [("rating", Descending)]
  }

  lemma AppKeyIsOrientedCriteria(b: Bucket, x: Candidate)
    ensures AppKey(b, x) == OrientedKey(AppCriteria(b), x)
  {
    var c := AppCriteria(b);
    if |c| == 3 {
      assert OrientedKey(c, x) == [Oriented(c[0].1, GetVal(x, c[0].0))] + OrientedKey(c[1..], x);
      assert OrientedKey(c[1..], x) == [Oriented(c[1].1, GetVal(x, c[1].0))] + OrientedKey(c[2..], x);
    }
  }

  /** Descending order of this variant's key tuple is exactly its stated ordering. */
  lemma AppKeyOrderMeansCriteria(b: Bucket, x: Candidate, y: Candidate)
    ensures LexGe(AppKey(b, x), AppKey(b, y)) <==> Precedes(AppCriteria(b), x, y)
  {
    AppKeyIsOrientedCriteria(b, x);
    AppKeyIsOrientedCriteria(b, y);
    OrientedKeyOrder(AppCriteria(b), x, y);
  }

  /** `x[key]` succeeds and is a number for every field the bucket reads. */
  predicate HasFields(x: Candidate, b: Bucket)
  {
    forall p | p in AppCriteria(b) :: p.0 in x && (x[p.0].Int? || x[p.0].Real?)
  }

  /** The ordering a list sorted by this variant for query q is in. */
  ghost predicate AppRankedFor(s: seq<Candidate>, q: string)
  {
    RankedBy(s, AppCriteria(AppSelectBucket(q)))
  }

  /**
   * app.py's sort_candidates_by_query: an empty or missing list gives a new empty list;
   * any other list is reordered in place into the order of the selected bucket, keeps
   * exactly its candidates, and is itself returned.
   */
  method AppSortCandidatesByQuery(candidates: array?<Candidate>, userQuery: Option<string>)
      returns (r: array<Candidate>)
    requires candidates != null ==>
      forall i :: 0 <= i < candidates.Length ==> HasFields(candidates[i], AppSelectBucket(QueryText(userQuery)))
    modifies candidates
    ensures candidates == null || candidates.Length == 0 ==> fresh(r) && r.Length == 0
    ensures candidates != null && candidates.Length > 0 ==>
      && r == candidates
      && multiset(r[..]) == multiset(old(candidates[..]))
      && AppRankedFor(r[..], QueryText(userQuery))
  {
    if candidates == null || candidates.Length == 0 {
      r := new Candidate[0];
      return;
    }
    var q := QueryText(userQuery);
    var b := AppSelectBucket(q);
    SortDesc(candidates, x => AppKey(b, x));
    forall i, j | 0 <= i < j < candidates.Length
      ensures Precedes(AppCriteria(b), candidates[i], candidates[j])
    {
      AppKeyOrderMeansCriteria(b, candidates[i], candidates[j]);
    }
    r := candidates;
  }

  /**
   * In this variant a low-fear query ranks by rating first: in a ranked list the
   * ratings never increase, so a scarier theme with a higher rating comes before a
   * less scary one.
   */
  lemma AppLowFearRanksByRating(s: seq<Candidate>, q: string)
    requires AppSelectBucket(q) == LowFear
    requires AppRankedFor(s, q)
    ensures forall i, j :: 0 <= i < j < |s| ==> GetVal(s[i], "rating") >= GetVal(s[j], "rating")
  {
    forall i, j | 0 <= i < j < |s|
      ensures GetVal(s[i], "rating") >= GetVal(s[j], "rating")
    {
      assert Precedes(AppCriteria(LowFear), s[i], s[j]);
    }
  }
}
