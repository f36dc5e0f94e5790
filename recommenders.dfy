/**
 * The two recommenders: the rule-based search over the theme collection (play-history
 * exclusion, id reconciliation, location filter, projection, keyword sort, top `limit`)
 * and the vector recommender (nearest-neighbour search with exclusions, the group taste
 * vector, re-ranking by similarity). Store queries are inputs: `users` is the user
 * collection, `docs` / `neighbours` are what the theme query returns.
 */
module Recommenders {

  import opened Wrappers
  import opened Text
  import opened Records
  import opened Sorting
  import opened Utils
  import opened AppSort

  // ---------------------------------------------------------------------------
  // Nicknames and play history
  // ---------------------------------------------------------------------------

  /** The `nicknames` argument: absent (or of another type), a comma-joined string, or a list. */
  datatype Nicknames = NoNames | NameString(s: string) | NameList(names: seq<string>)

  /**
   * `target_users`: a string is split on ',' and every part trimmed, so it always names
   * at least one user (possibly ""); a list is taken as it is; anything else names nobody.
   */
  function TargetUsers(n: Nicknames): (t: seq<string>)
    ensures n.NoNames? ==> t == []
    ensures n.NameList? ==> t == n.names
    ensures n.NameString? ==> t == SplitStrip(n.s)
    ensures n.NameString? ==> |t| >= 1 && |t| == |Split(n.s, ',')|
    ensures n.NameString? ==> forall k :: 0 <= k < |t| ==> ',' !in t[k]
    ensures n.NameString? && ',' !in n.s ==> t == [Strip(n.s)]
  {
    match n
    case NoNames => []
    case NameList(names) => names
    case NameString(s) =>
      var t := SplitStrip(s);
      forall k | 0 <= k < |t| ensures ',' !in t[k] {
        StripKeepsOut(Split(s, ',')[k], ',');
      }
      t
  }

  /** `target_users[:10]`: at most ten names reach the store's `in` query, the first ten. */
  function FirstTen(t: seq<string>): (r: seq<string>)
    ensures |r| == if |t| > 10 then 10 else |t|
    ensures r == t[..|r|]
  {
    if |t| > 10 then t[..10] else t
  }

  /** The users the store returns for `nickname in names`, in collection order. */
  function UsersNamed(users: seq<User>, names: seq<string>): (r: seq<User>)
    ensures forall u :: u in r <==> u in users && u.nickname in names
    ensures |r| <= |users|
  {
    if users == [] then []
    else
      assert users == [users[0]] + users[1..];
      (if users[0].nickname in names then [users[0]] else []) + UsersNamed(users[1..], names)
  }

  /** Every `played` entry of the given users, user by user. */
  function AllPlayed(us: seq<User>): seq<Value>
  {
    if us == [] then [] else AllPlayed(us[..|us| - 1]) + us[|us| - 1].played
  }

  /** `int(p)` succeeds on every entry. */
  predicate AllParse(ps: seq<Value>)
  {
    forall k :: 0 <= k < |ps| ==> IntOf(ps[k]).Some?
  }

  /**
   * Running `.add(int(pid))` over the entries: the ids collected, and whether every entry
   * parsed. At the first entry int() rejects the exception ends the collection.
   */
  function Collect(ps: seq<Value>): (set<int>, bool)
  {
    if ps == [] then ({}, true)
    else
      var (ids, ok) := Collect(ps[..|ps| - 1]);
      if !ok then (ids, false)
      else match IntOf(ps[|ps| - 1])
        case None => (ids, false)
        case Some(n) => (ids + {n}, true)
  }

  /** Once an entry has failed to parse, later entries add nothing. */
  lemma {:induction false} CollectStops(xs: seq<Value>, ys: seq<Value>)
    requires !Collect(xs).1
    ensures Collect(xs + ys) == Collect(xs)
  {
    if ys == [] {
      assert xs + ys == xs;
    } else {
      assert (xs + ys)[..|xs + ys| - 1] == xs + ys[..|ys| - 1];
      CollectStops(xs, ys[..|ys| - 1]);
    }
  }

  /**
   * Collection succeeds exactly when every entry parses, and then the collected set is
   * exactly the set of parsed entries.
   */
  lemma {:induction false} CollectAll(ps: seq<Value>)
    ensures Collect(ps).1 <==> AllParse(ps)
    ensures AllParse(ps) ==> forall n :: n in Collect(ps).0 <==> exists k :: 0 <= k < |ps| && IntOf(ps[k]) == Some(n)
  {
    if ps != [] {
      var init := ps[..|ps| - 1];
      CollectAll(init);
      assert forall k :: 0 <= k < |init| ==> init[k] == ps[k];
      if AllParse(ps) {
        assert AllParse(init);
        forall n ensures n in Collect(ps).0 <==> exists k :: 0 <= k < |ps| && IntOf(ps[k]) == Some(n) {
          if exists k :: 0 <= k < |ps| && IntOf(ps[k]) == Some(n) {
            var k :| 0 <= k < |ps| && IntOf(ps[k]) == Some(n);
            if k < |init| {
              assert IntOf(init[k]) == Some(n);
            }
          }
        }
      } else if AllParse(init) {
        assert IntOf(ps[|ps| - 1]).None?;
      }
    }
  }

  lemma {:induction false} AllPlayedConcat(a: seq<User>, b: seq<User>)
    ensures AllPlayed(a + b) == AllPlayed(a) + AllPlayed(b)
  {
    if b == [] {
      assert a + b == a;
    } else {
      assert (a + b)[..|a + b| - 1] == a + b[..|b| - 1];
      AllPlayedConcat(a, b[..|b| - 1]);
    }
  }

  /**
   * `played_theme_ids` after the history lookup: nothing when no user is named or the
   * store cannot be queried; otherwise the parsed `played` entries of the (at most ten)
   * named users, up to the first entry int() rejects, where the exception ends the loop.
   */
  function GroupHistory(n: Nicknames, users: seq<User>, reachable: bool): set<int>
  {
    var t := TargetUsers(n);
    if t == [] || !reachable then {} else Collect(AllPlayed(UsersNamed(users, FirstTen(t)))).0
  }

  /**
   * When every `played` entry of the named users parses, the history is the union of
   * their played ids.
   */
  lemma GroupHistoryIsUnion(n: Nicknames, users: seq<User>, ps: seq<Value>)
    requires TargetUsers(n) != []
    requires ps == AllPlayed(UsersNamed(users, FirstTen(TargetUsers(n))))
    requires AllParse(ps)
    ensures forall id :: id in GroupHistory(n, users, true) <==> exists k :: 0 <= k < |ps| && IntOf(ps[k]) == Some(id)
  {
    CollectAll(ps);
  }

  /** One more entry: collected if it parses and nothing before it failed. */
  lemma CollectSnoc(xs: seq<Value>, x: Value)
    ensures Collect(xs + [x]) ==
      if !Collect(xs).1 then Collect(xs)
      else if IntOf(x).None? then (Collect(xs).0, false)
      else (Collect(xs).0 + {IntOf(x).value}, true)
  {
    assert (xs + [x])[..|xs|] == xs;
  }

  /**
   * The play-history loop of search_themes: `.add(int(pid))` for each entry of each matched
   * user, an exception (store unreachable, an unparsable entry) ending the lookup with
   * whatever was collected so far.
   */
  method CollectPlayed(n: Nicknames, users: seq<User>, reachable: bool) returns (played: set<int>)
    ensures played == GroupHistory(n, users, reachable)
  {
    played := {};
    var targetUsers := TargetUsers(n);
    if targetUsers == [] || !reachable {
      return;
    }
    played := CollectFrom(UsersNamed(users, FirstTen(targetUsers)));
  }

  /** The nested loops over the matched users and their `played` entries. */
  method CollectFrom(matched: seq<User>) returns (played: set<int>)
    ensures played == Collect(AllPlayed(matched)).0
  {
    played := {};
    var failed := false;
    var i := 0;
    while i < |matched| && !failed
      invariant 0 <= i <= |matched|
      invariant !failed ==> Collect(AllPlayed(matched[..i])) == (played, true)
      invariant failed ==> played == Collect(AllPlayed(matched)).0
      decreases |matched| - i, !failed
    {
      var ps := matched[i].played;
      var done := AllPlayed(matched[..i]);
      var j := 0;
      assert done + ps[..0] == done;
      while j < |ps| && !failed
        invariant 0 <= j <= |ps|
        invariant !failed ==> Collect(done + ps[..j]) == (played, true)
        invariant failed ==> played == Collect(AllPlayed(matched)).0
        decreases |ps| - j, !failed
      {
        var id := IntOf(ps[j]);
        CollectSnoc(done + ps[..j], ps[j]);
        if id.None? {
          HistoryFailsAt(matched, i, j);
          failed := true;
        } else {
          played := played + {id.value};
          SnocSlice(done, ps, j);
          j := j + 1;
        }
      }
      if !failed {
        assert ps[..j] == ps;
        AllPlayedSnoc(matched, i);
        i := i + 1;
      }
    }
    if !failed {
      assert matched[..i] == matched;
    }
  }

  lemma SnocSlice(a: seq<Value>, b: seq<Value>, j: int)
    requires 0 <= j < |b|
    ensures a + b[..j + 1] == (a + b[..j]) + [b[j]]
  {
    assert b[..j + 1] == b[..j] + [b[j]];
  }

  lemma AllPlayedSnoc(us: seq<User>, i: int)
    requires 0 <= i < |us|
    ensures AllPlayed(us[..i + 1]) == AllPlayed(us[..i]) + us[i].played
  {
    assert us[..i + 1][..i] == us[..i];
  }

  /** The entries of all users split around user i. */
  lemma AllPlayedAround(us: seq<User>, i: int)
    requires 0 <= i < |us|
    ensures AllPlayed(us) == AllPlayed(us[..i]) + us[i].played + AllPlayed(us[i + 1..])
  {
    assert us == us[..i + 1] + us[i + 1..];
    AllPlayedConcat(us[..i + 1], us[i + 1..]);
    AllPlayedSnoc(us, i);
  }

  /**
   * An entry that fails to parse, after all earlier entries parsed, fixes the collected
   * history of all users.
   */
  lemma HistoryFailsAt(us: seq<User>, i: int, j: int)
    requires 0 <= i < |us| && 0 <= j < |us[i].played|
    requires Collect(AllPlayed(us[..i]) + us[i].played[..j]).1
    requires IntOf(us[i].played[j]).None?
    ensures Collect(AllPlayed(us)).0 == Collect(AllPlayed(us[..i]) + us[i].played[..j]).0
  {
    var ps := us[i].played;
    var done := AllPlayed(us[..i]);
    var after := AllPlayed(us[i + 1..]);
    var p := (done + ps[..j]) + [ps[j]];
    CollectSnoc(done + ps[..j], ps[j]);
    var rest := ps[j + 1..] + after;
    AllPlayedAround(us, i);
    SplitAt(done, ps, after, j);
    CollectStops(p, rest);
  }

  lemma SplitAt(a: seq<Value>, b: seq<Value>, c: seq<Value>, j: int)
    requires 0 <= j < |b|
    ensures a + b + c == (a + b[..j]) + [b[j]] + (b[j + 1..] + c)
  {
    assert b == b[..j] + [b[j]] + b[j + 1..];
  }

  // ---------------------------------------------------------------------------
  // Exclusion and id reconciliation
  // ---------------------------------------------------------------------------

  /** `total_exclude_ids`: the given ids together with every played id, as an int. */
  function ExclusionSet(excludeIds: seq<Id>, played: set<int>): (s: set<Id>)
    ensures forall x :: x in s <==> x in excludeIds || (x.IntId? && x.n in played)
  {
    (set x | x in excludeIds) + (set n | n in played :: IntId(n))
  }

  /** The theme's numeric id: `int(ref_id)` when ref_id is not None, else `int(doc.id)`. */
  function CanonicalId(doc: ThemeDoc): (r: Option<int>)
    ensures Get(doc.data, "ref_id") == Null ==> r == ParseInt(doc.id)
    ensures Get(doc.data, "ref_id") != Null ==> r == IntOf(Get(doc.data, "ref_id"))
    ensures Get(doc.data, "ref_id").Int? ==> r == Some(Get(doc.data, "ref_id").i)
  {
    var ref := Get(doc.data, "ref_id");
    if ref != Null then IntOf(ref) else ParseInt(doc.id)
  }

  /**
   * The document is skipped: its numeric id as an int or as a string, or its document key,
   * is excluded; when the numeric id cannot be parsed only the document key is checked.
   */
  predicate Excluded(doc: ThemeDoc, excl: set<Id>)
  {
    match CanonicalId(doc)
    case Some(tid) => IntId(tid) in excl || StrId(IntToString(tid)) in excl || StrId(doc.id) in excl
    case None => StrId(doc.id) in excl
  }

  /** An excluded document key is always skipped, whether or not the id parses. */
  lemma ExcludedByKey(doc: ThemeDoc, excl: set<Id>)
    requires StrId(doc.id) in excl
    ensures Excluded(doc, excl)
  {
  }

  /**
   * A theme a named user has played is never offered again: when its numeric id (from
   * ref_id, or from a document key like "123") is in the play history, it is excluded,
   * whatever ids were passed in.
   */
  lemma PlayedThemeExcluded(doc: ThemeDoc, excludeIds: seq<Id>, played: set<int>, n: int)
    requires CanonicalId(doc) == Some(n) && n in played
    ensures Excluded(doc, ExclusionSet(excludeIds, played))
  {
  }

  /**
   * Ids reconcile across int and string forms: a document keyed "n" without ref_id is
   * skipped when n is excluded as an int, and when it is excluded as the string "n".
   */
  lemma KeyedByDecimalId(doc: ThemeDoc, n: int, excl: set<Id>)
    requires Get(doc.data, "ref_id") == Null && doc.id == IntToString(n)
    requires IntId(n) in excl || StrId(IntToString(n)) in excl
    ensures Excluded(doc, excl)
  {
    ParseIntRoundTrip(n);
  }

  // ---------------------------------------------------------------------------
  // Location filter and projection
  // ---------------------------------------------------------------------------

  /** `f"{data.get('location', '')} {data.get('store_name', '')}"`. */
  function LocationText(doc: ThemeDoc): string
  {
    Display(GetOr(doc.data, "location", Str(""))) + " " + Display(GetOr(doc.data, "store_name", Str("")))
  }

  /** The eight rating fields of a candidate. */
  const ScoreNames: set<string> := {"rating", "fear", "difficulty", "activity", "problem", "story", "interior", "act"}

  /** The stored field a rating is read from. */
  function StoreField(name: string): string
  {
    if name == "rating" then "satisfyTotalRating" else name + "TotalRating"
  }

  /** Every rating field is present as a float. */
  predicate HasScores(c: Candidate)
  {
    forall k | k in ScoreNames :: k in c && c[k].Real?
  }

  /** `float(data.get(field) or 0)` for every rating; None when one of them raises. */
  function Scores(d: map<string, Value>): (r: Option<map<string, Value>>)
    ensures r.Some? <==> forall k | k in ScoreNames :: RatingOf(Get(d, StoreField(k))).Some?
    ensures r.Some? ==> r.value.Keys == ScoreNames && HasScores(r.value)
    ensures r.Some? ==> forall k | k in ScoreNames :: r.value[k] == Real(RatingOf(Get(d, StoreField(k))).value)
  {
    if forall k | k in ScoreNames :: RatingOf(Get(d, StoreField(k))).Some? then
      Some(map k | k in ScoreNames :: Real(RatingOf(Get(d, StoreField(k))).value))
    else None
  }

  /** `v[:150]`: at most 150 characters (or items); None where slicing raises. */
  function Head150(v: Value): (r: Option<Value>)
    ensures r.Some? <==> v.Str? || v.Vec?
    ensures r.Some? && v.Str? ==> r.value.Str? && |r.value.s| <= 150 && |r.value.s| <= |v.s| && r.value.s == v.s[..|r.value.s|]
    ensures r.Some? && v.Vec? ==> r.value.Vec? && |r.value.v| <= 150 && |r.value.v| <= |v.v| && r.value.v == v.v[..|r.value.v|]
    ensures r.Some? && v.Str? && |v.s| <= 150 ==> r.value == v
    ensures r.Some? && v.Str? && |v.s| > 150 ==> |r.value.s| == 150
    ensures r.Some? && v.Vec? && |v.v| <= 150 ==> r.value == v
    ensures r.Some? && v.Vec? && |v.v| > 150 ==> |r.value.v| == 150
  {
    match v
    case Str(s) => Some(Str(if |s| > 150 then s[..150] else s))
    case Vec(xs) => Some(Vec(if |xs| > 150 then xs[..150] else xs))
    case _ => None
  }

  /** The stored embedding when it is a non-empty vector, else None. */
  function VectorOf(v: Value): (r: Value)
    ensures r == Null || (r == v && Truthy(v))
    ensures v.Vec? && Truthy(v) ==> r == v
  {
    if v.Vec? && Truthy(v) then v else Null
  }

  /** At most 150 characters or items. */
  predicate ShortDesc(v: Value)
  {
    (v.Str? && |v.s| <= 150) || (v.Vec? && |v.v| <= 150)
  }

  /**
   * The view carries the document's own values: title, store, location and genre as
   * stored, the first 150 characters of the description field, and every rating as
   * `float(field or 0)`.
   */
  predicate Copied(c: Candidate, d: map<string, Value>, descField: string)
  {
    && "title" in c && c["title"] == Get(d, "title")
    && "store" in c && c["store"] == Get(d, "store_name")
    && "location" in c && c["location"] == Get(d, "location")
    && "genre" in c && c["genre"] == Get(d, "genre")
    && "desc" in c && Head150(GetOr(d, descField, Str(""))) == Some(c["desc"])
    && forall k | k in ScoreNames :: k in c && c[k].Real? && RatingOf(Get(d, StoreField(k))) == Some(c[k].r)
  }

  /** A candidate view: document key as `id`, every rating a float, a short description. */
  predicate WellFormed(c: Candidate, doc: ThemeDoc)
  {
    && "id" in c && c["id"] == Str(doc.id)
    && HasScores(c)
    && "desc" in c && ShortDesc(c["desc"])
    && forall k | k in ScoreNames :: StoreField(k) !in doc.data ==> c[k] == Real(0.0)
  }

  /** The descriptive fields of a candidate, none of them a rating name. */
  const InfoNames: set<string> := {"id", "title", "store", "location", "genre", "desc", "vector"}

  lemma InfoNamesAreNotScores()
    ensures InfoNames !! ScoreNames
  {
  }

  /**
   * A dict of descriptive fields merged with the ratings: the descriptive fields keep
   * their values and the ratings theirs.
   */
  function Merge(info: map<string, Value>, sc: map<string, Value>): (c: Candidate)
    requires info.Keys <= InfoNames && sc.Keys == ScoreNames
    ensures c.Keys == info.Keys + ScoreNames
    ensures forall k | k in info :: c[k] == info[k]
    ensures forall k | k in ScoreNames :: c[k] == sc[k]
  {
    InfoNamesAreNotScores();
    sc + info
  }

  /** The merged dict is a well-formed view of the document it was built from. */
  lemma MergeWellFormed(doc: ThemeDoc, info: map<string, Value>, sc: map<string, Value>)
    requires info.Keys <= InfoNames && Scores(doc.data) == Some(sc)
    requires "id" in info && info["id"] == Str(doc.id) && "desc" in info && ShortDesc(info["desc"])
    ensures WellFormed(Merge(info, sc), doc)
  {
  }

  /**
   * The candidate dict search_themes builds; None where building it raises (a null or
   * numeric description, a rating float() rejects).
   */
  function ProjectRule(doc: ThemeDoc): (r: Option<Candidate>)
    ensures r.Some? <==> Head150(GetOr(doc.data, "description", Str(""))).Some? && Scores(doc.data).Some?
    ensures r.Some? ==> WellFormed(r.value, doc) && "vector" in r.value
    ensures r.Some? ==> Copied(r.value, doc.data, "description")
    ensures r.Some? ==> r.value["vector"] == VectorOf(Get(doc.data, "embedding_field"))
  {
    var d := doc.data;
    match Head150(GetOr(d, "description", Str("")))
    case None => None
    case Some(desc) =>
      match Scores(d)
      case None => None
      case Some(sc) =>
        var info := map["id" := Str(doc.id), "title" := Get(d, "title"), "store" := Get(d, "store_name"),
                        "location" := Get(d, "location"), "genre" := Get(d, "genre"), "desc" := desc,
                        "vector" := VectorOf(Get(d, "embedding_field"))];
        MergeWellFormed(doc, info, sc);
        Some(Merge(info, sc))
  }

  /**
   * The candidate dict _execute_vector_search builds: the description comes from
   * `search_text` and there is no `vector`; None where building it raises.
   */
  function ProjectVector(doc: ThemeDoc): (r: Option<Candidate>)
    ensures r.Some? <==> Head150(GetOr(doc.data, "search_text", Str(""))).Some? && Scores(doc.data).Some?
    ensures r.Some? ==> WellFormed(r.value, doc) && "vector" !in r.value
    ensures r.Some? ==> Copied(r.value, doc.data, "search_text")
  {
    var d := doc.data;
    match Head150(GetOr(d, "search_text", Str("")))
    case None => None
    case Some(desc) =>
      match Scores(d)
      case None => None
      case Some(sc) =>
        var info := map["id" := Str(doc.id), "title" := Get(d, "title"), "store" := Get(d, "store_name"),
                        "location" := Get(d, "location"), "genre" := Get(d, "genre"), "desc" := desc];
        MergeWellFormed(doc, info, sc);
        InfoNamesAreNotScores();
        assert "vector" !in info;
        Some(Merge(info, sc))
  }

  /** A record with no rating fields at all is projected with every rating 0.0. */
  lemma UnratedThemeScoresZero(doc: ThemeDoc)
    requires forall k | k in ScoreNames :: StoreField(k) !in doc.data
    requires GetOr(doc.data, "description", Str("")).Str?
    ensures ProjectRule(doc).Some?
    ensures forall k | k in ScoreNames :: ProjectRule(doc).value[k] == Real(0.0)
  {
  }

  // ---------------------------------------------------------------------------
  // search_themes
  // ---------------------------------------------------------------------------

  /** What the document loop does with one document. */
  datatype Step = Skip | Keep(c: Candidate) | Raise

  /** One document: skipped (excluded, or location not matched), projected, or raising. */
  function RuleStep(doc: ThemeDoc, excl: set<Id>, loc: Option<string>): (st: Step)
    ensures st.Keep? ==> !Excluded(doc, excl) && ProjectRule(doc) == Some(st.c)
    ensures st.Keep? && loc.Some? ==> Contains(LocationText(doc), loc.value)
    ensures st.Raise? <==> !Excluded(doc, excl) && (loc.Some? ==> Contains(LocationText(doc), loc.value)) && ProjectRule(doc).None?
  {
    if Excluded(doc, excl) then Skip
    else if loc.Some? && !Contains(LocationText(doc), loc.value) then Skip
    else match ProjectRule(doc)
      case None => Raise
      case Some(c) => Keep(c)
  }

  /** The outcome of each document, in store order. */
  function Steps(docs: seq<ThemeDoc>, excl: set<Id>, loc: Option<string>): (st: seq<Step>)
    ensures |st| == |docs| && forall k :: 0 <= k < |docs| ==> st[k] == RuleStep(docs[k], excl, loc)
  {
    seq(|docs|, k requires 0 <= k < |docs| => RuleStep(docs[k], excl, loc))
  }

  /** The list the loop appends to, given each document's outcome; None once one raised. */
  function Gather(steps: seq<Step>): Option<seq<Candidate>>
  {
    if steps == [] then Some([])
    else match Gather(steps[..|steps| - 1])
      case None => None
      case Some(cs) =>
        match steps[|steps| - 1]
        case Skip => Some(cs)
        case Keep(c) => Some(cs + [c])
        case Raise => None
  }

  /** `raw_candidates` after the loop over docs; None if building a candidate raised. */
  function Survivors(docs: seq<ThemeDoc>, excl: set<Id>, loc: Option<string>): Option<seq<Candidate>>
  {
    Gather(Steps(docs, excl, loc))
  }

  /** The loop raises exactly when some outcome is a raise. */
  lemma {:induction false} GatherRaise(steps: seq<Step>)
    ensures Gather(steps).None? <==> exists k :: 0 <= k < |steps| && steps[k].Raise?
  {
    if steps != [] {
      var init := steps[..|steps| - 1];
      GatherRaise(init);
      if exists k :: 0 <= k < |init| && init[k].Raise? {
        var k :| 0 <= k < |init| && init[k].Raise?;
        assert steps[k].Raise?;
      }
      if exists k :: 0 <= k < |steps| && steps[k].Raise? {
        var k :| 0 <= k < |steps| && steps[k].Raise?;
        if k < |init| {
          assert init[k].Raise?;
        }
      }
    }
  }

  /** When nothing raises, the list holds exactly the kept candidates. */
  lemma {:induction false} GatherKept(steps: seq<Step>)
    requires Gather(steps).Some?
    ensures forall c :: c in Gather(steps).value <==> exists k :: 0 <= k < |steps| && steps[k] == Keep(c)
  {
    if steps != [] {
      var init := steps[..|steps| - 1];
      GatherKept(init);
      var cs := Gather(init).value;
      forall c ensures c in Gather(steps).value <==> exists k :: 0 <= k < |steps| && steps[k] == Keep(c) {
        if c in cs {
          var k :| 0 <= k < |init| && init[k] == Keep(c);
          assert steps[k] == Keep(c);
        }
        if exists k :: 0 <= k < |steps| && steps[k] == Keep(c) {
          var k :| 0 <= k < |steps| && steps[k] == Keep(c);
          if k < |init| {
            assert init[k] == Keep(c);
          }
        }
      }
    }
  }

  /**
   * search_themes raises exactly when some document passes both filters but cannot be
   * projected; otherwise it ranks exactly the projections of the documents that pass.
   */
  lemma SurvivorsMeaning(docs: seq<ThemeDoc>, excl: set<Id>, loc: Option<string>)
    ensures Survivors(docs, excl, loc).None? <==> exists k :: 0 <= k < |docs| && RuleStep(docs[k], excl, loc).Raise?
    ensures Survivors(docs, excl, loc).Some? ==>
      forall c :: c in Survivors(docs, excl, loc).value <==> exists k :: 0 <= k < |docs| && RuleStep(docs[k], excl, loc) == Keep(c)
  {
    var st := Steps(docs, excl, loc);
    GatherRaise(st);
    if Gather(st).Some? {
      GatherKept(st);
    }
  }

  /**
   * Every candidate search_themes ranks comes from a document that is not excluded and,
   * under a location criterion, whose location text contains it.
   */
  lemma SurvivorsFiltered(docs: seq<ThemeDoc>, excl: set<Id>, loc: Option<string>, c: Candidate)
    requires Survivors(docs, excl, loc).Some? && c in Survivors(docs, excl, loc).value
    ensures exists k :: 0 <= k < |docs| && !Excluded(docs[k], excl) && ProjectRule(docs[k]) == Some(c)
                          && (loc.Some? ==> Contains(LocationText(docs[k]), loc.value))
  {
    SurvivorsMeaning(docs, excl, loc);
    var k :| 0 <= k < |docs| && RuleStep(docs[k], excl, loc) == Keep(c);
  }

  lemma SurvivorsSnoc(docs: seq<ThemeDoc>, i: int, excl: set<Id>, loc: Option<string>)
    requires 0 <= i < |docs|
    ensures Survivors(docs[..i + 1], excl, loc) ==
      match Survivors(docs[..i], excl, loc)
      case None => None
      case Some(cs) =>
        match RuleStep(docs[i], excl, loc)
        case Skip => Some(cs)
        case Keep(c) => Some(cs + [c])
        case Raise => None
  {
    var st := Steps(docs[..i + 1], excl, loc);
    assert st[..i] == Steps(docs[..i], excl, loc);
  }

  /** Once the loop has raised, the later documents do not matter. */
  /** One document's outcome applied to the candidates gathered so far. */
  lemma SurvivorsStep(docs: seq<ThemeDoc>, i: int, excl: set<Id>, loc: Option<string>, cs: seq<Candidate>)
    requires 0 <= i < |docs| && Survivors(docs[..i], excl, loc) == Some(cs)
    ensures RuleStep(docs[i], excl, loc).Skip? ==> Survivors(docs[..i + 1], excl, loc) == Some(cs)
    ensures RuleStep(docs[i], excl, loc).Keep? ==> Survivors(docs[..i + 1], excl, loc) == Some(cs + [RuleStep(docs[i], excl, loc).c])
    ensures RuleStep(docs[i], excl, loc).Raise? ==> Survivors(docs[..i + 1], excl, loc).None?
  {
    SurvivorsSnoc(docs, i, excl, loc);
  }

  /** Every survivor carries all eight ratings as floats. */
  lemma {:induction false} SurvivorsScored(docs: seq<ThemeDoc>, excl: set<Id>, loc: Option<string>)
    ensures Survivors(docs, excl, loc).Some? ==>
      forall k :: 0 <= k < |Survivors(docs, excl, loc).value| ==> HasScores(Survivors(docs, excl, loc).value[k])
  {
    if docs != [] {
      var i := |docs| - 1;
      assert docs[..i + 1] == docs;
      SurvivorsSnoc(docs, i, excl, loc);
      SurvivorsScored(docs[..i], excl, loc);
      var st := RuleStep(docs[i], excl, loc);
      if st.Keep? {
        assert WellFormed(st.c, docs[i]);
      }
    } else {
      assert Survivors(docs, excl, loc) == Some([]);
    }
  }

  lemma {:induction false} SurvivorsRaised(docs: seq<ThemeDoc>, i: int, excl: set<Id>, loc: Option<string>)
    requires 0 <= i <= |docs| && Survivors(docs[..i], excl, loc).None?
    ensures Survivors(docs, excl, loc).None?
    decreases |docs| - i
  {
    if i < |docs| {
      SurvivorsSnoc(docs, i, excl, loc);
      SurvivorsRaised(docs, i + 1, excl, loc);
    } else {
      assert docs[..i] == docs;
    }
  }

  /** Which sort_candidates_by_query orders the candidates: utils.py's, or app.py's older one. */
  datatype Ranker = CurrentRanker | LegacyRanker

  /** The ordering the chosen sort puts a list in for query q. */
  function Ordering(ranker: Ranker, q: string): seq<(string, Direction)>
  {
    match ranker
    case CurrentRanker => Criteria(SelectBucket(q), q)
    case LegacyRanker => AppCriteria(AppSelectBucket(q))
  }

  /**
   * out is the best `limit` of all under the ordering: as many as fit, drawn from all,
   * ranked, and every candidate left out may stand after every one kept.
   */
  ghost predicate TopRanked(out: seq<Candidate>, all: seq<Candidate>, limit: nat, ordering: seq<(string, Direction)>)
  {
    && |out| == (if limit < |all| then limit else |all|)
    && multiset(out) <= multiset(all)
    && RankedBy(out, ordering)
    && forall c, y :: c in multiset(all) - multiset(out) && y in out ==> Precedes(ordering, y, c)
  }

  /** A ranked permutation of all, cut to its first `limit`, is the top `limit` of all. */
  lemma RankedPrefixIsTop(s: seq<Candidate>, all: seq<Candidate>, limit: nat, ordering: seq<(string, Direction)>)
    requires multiset(s) == multiset(all) && RankedBy(s, ordering)
    ensures TopRanked(s[..if limit < |s| then limit else |s|], all, limit, ordering)
  {
    var n := if limit < |s| then limit else |s|;
    assert |s| == |all| by {
      assert |multiset(s)| == |multiset(all)|;
    }
    assert s == s[..n] + s[n..];
    assert multiset(s) == multiset(s[..n]) + multiset(s[n..]);
    assert multiset(all) - multiset(s[..n]) == multiset(s[n..]);
    PrefixRanked(s, n, ordering);
    PrefixBeforeRest(s, n, ordering);
  }

  lemma PrefixRanked(s: seq<Candidate>, n: nat, ordering: seq<(string, Direction)>)
    requires n <= |s| && RankedBy(s, ordering)
    ensures RankedBy(s[..n], ordering)
  {
    forall i, j | 0 <= i < j < n
      ensures Precedes(ordering, s[..n][i], s[..n][j])
    {
      assert s[..n][i] == s[i] && s[..n][j] == s[j];
    }
  }

  /** In a ranked list every item of a prefix may stand before every item after it. */
  lemma PrefixBeforeRest(s: seq<Candidate>, n: nat, ordering: seq<(string, Direction)>)
    requires n <= |s| && RankedBy(s, ordering)
    ensures forall c, y :: c in multiset(s[n..]) && y in s[..n] ==> Precedes(ordering, y, c)
  {
    forall c, y | c in multiset(s[n..]) && y in s[..n]
      ensures Precedes(ordering, y, c)
    {
      assert c in s[n..];
      var j :| 0 <= j < |s[n..]| && s[n..][j] == c;
      var i :| 0 <= i < n && s[..n][i] == y;
      assert s[i] == y && s[n + j] == c;
    }
  }

  /** Every rating field the older sort reads is one of the projected ratings. */
  lemma ScoresCoverLegacyFields(c: Candidate, b: Bucket)
    requires HasScores(c)
    ensures HasFields(c, b)
  {
  }

  /**
   * search_themes: play history and the given ids form the exclusion set, the documents
   * are filtered and projected in store order, and the result is the top `limit` of the
   * survivors under the ordering the query selects; None where the source raises.
   */
  method SearchThemes(criteria: Filters, userQuery: Option<string>, limit: nat, nicknames: Nicknames,
                      excludeIds: seq<Id>, users: seq<User>, usersReachable: bool, docs: seq<ThemeDoc>,
                      ranker: Ranker)
      returns (r: Option<seq<Candidate>>)
    ensures var all := Survivors(docs, ExclusionSet(excludeIds, GroupHistory(nicknames, users, usersReachable)), LocationOf(criteria));
      && (r.None? <==> all.None?)
      && (r.Some? ==> TopRanked(r.value, all.value, limit, Ordering(ranker, QueryText(userQuery))))
  {
    var played := CollectPlayed(nicknames, users, usersReachable);
    var excl := ExclusionSet(excludeIds, played);
    var raw := FilterDocs(docs, excl, LocationOf(criteria));
    SurvivorsScored(docs, excl, LocationOf(criteria));
    if raw.None? {
      return None;
    }
    var top := RankTop(raw.value, userQuery, limit, ranker);
    r := Some(top);
  }

  /** The loop over the theme documents, building `raw_candidates`; None where it raises. */
  method FilterDocs(docs: seq<ThemeDoc>, excl: set<Id>, loc: Option<string>) returns (raw: Option<seq<Candidate>>)
    ensures raw == Survivors(docs, excl, loc)
  {
    var cs: seq<Candidate> := [];
    var i := 0;
    while i < |docs|
      invariant 0 <= i <= |docs|
      invariant Survivors(docs[..i], excl, loc) == Some(cs)
    {
      var next := FilterStep(docs, i, excl, loc, cs);
      if next.None? {
        SurvivorsRaised(docs, i + 1, excl, loc);
        return None;
      }
      cs := next.value;
      i := i + 1;
    }
    assert docs[..i] == docs;
    raw := Some(cs);
  }

  /** One turn of the document loop: `raw_candidates` after document i, or None where it raised. */
  method FilterStep(docs: seq<ThemeDoc>, i: int, excl: set<Id>, loc: Option<string>, cs: seq<Candidate>)
      returns (next: Option<seq<Candidate>>)
    requires 0 <= i < |docs| && Survivors(docs[..i], excl, loc) == Some(cs)
    ensures next == Survivors(docs[..i + 1], excl, loc)
  {
    var st := ClassifyDoc(docs[i], excl, loc);
    SurvivorsStep(docs, i, excl, loc, cs);
    match st {
      case Raise => next := None;
      case Skip => next := Some(cs);
      case Keep(c) => next := Some(cs + [c]);
    }
  }

  /**
   * The body of the document loop for one record: skipped when excluded (the id check and
   * its `except` fallback) or outside the location, otherwise projected; Raise where the
   * projection raises.
   */
  method ClassifyDoc(doc: ThemeDoc, excl: set<Id>, loc: Option<string>) returns (st: Step)
    ensures st == RuleStep(doc, excl, loc)
  {
    if Excluded(doc, excl) {
      return Skip;
    }
    var isMatch := true;
    if loc.Some? && !Contains(LocationText(doc), loc.value) {
      isMatch := false;
    }
    if !isMatch {
      return Skip;
    }
    var c := ProjectRule(doc);
    if c.None? {
      return Raise;
    }
    return Keep(c.value);
  }

  /** `sort_candidates_by_query(raw_candidates, user_query)[:limit]`. */
  method RankTop(raw: seq<Candidate>, userQuery: Option<string>, limit: nat, ranker: Ranker) returns (top: seq<Candidate>)
    requires forall k :: 0 <= k < |raw| ==> HasScores(raw[k])
    ensures TopRanked(top, raw, limit, Ordering(ranker, QueryText(userQuery)))
  {
    var arr := new Candidate[|raw|](k requires 0 <= k < |raw| => raw[k]);
    assert arr[..] == raw;
    var q := QueryText(userQuery);
    var sorted: array<Candidate>;
    if ranker == CurrentRanker {
      sorted := SortCandidatesByQuery(arr, userQuery);
    } else {
      forall k | 0 <= k < arr.Length ensures HasFields(arr[k], AppSelectBucket(q)) {
        ScoresCoverLegacyFields(arr[k], AppSelectBucket(q));
      }
      sorted := AppSortCandidatesByQuery(arr, userQuery);
    }
    assert multiset(sorted[..]) == multiset(raw);
    RankedPrefixIsTop(sorted[..], raw, limit, Ordering(ranker, q));
    var n := if limit < sorted.Length then limit else sorted.Length;
    top := sorted[..n];
  }

  // ---------------------------------------------------------------------------
  // _execute_vector_search
  // ---------------------------------------------------------------------------

  /** `limit + len(exclude_ids) if exclude_ids else limit`: how many neighbours are requested. */
  function FetchLimit(limit: nat, excludeIds: seq<Id>): (n: nat)
    ensures n == limit + |excludeIds|
  {
    if excludeIds != [] then limit + |excludeIds| else limit
  }

  /** The neighbours whose document key is not excluded, in the store's order. */
  function Unexcluded(docs: seq<ThemeDoc>, excludeIds: seq<Id>): (r: seq<ThemeDoc>)
    ensures |r| <= |docs|
  {
    if docs == [] then []
    else
      var last := docs[|docs| - 1];
      Unexcluded(docs[..|docs| - 1], excludeIds) + (if StrId(last.id) in excludeIds then [] else [last])
  }

  /** The kept neighbours are exactly the neighbours whose key is not excluded. */
  lemma {:induction false} UnexcludedMembers(docs: seq<ThemeDoc>, excludeIds: seq<Id>)
    ensures forall d :: d in Unexcluded(docs, excludeIds) <==> d in docs && StrId(d.id) !in excludeIds
  {
    if docs != [] {
      var init := docs[..|docs| - 1];
      UnexcludedMembers(init, excludeIds);
      assert docs == init + [docs[|docs| - 1]];
    }
  }

  /**
   * The length check runs after each append, so the loop stops once it holds `limit`
   * items, and after the first item when limit is 0.
   */
  function Cap(limit: nat): (n: nat)
    ensures n >= 1 && (limit >= 1 ==> n == limit)
    ensures limit == 0 ==> n == 1
  {
    if limit == 0 then 1 else limit
  }

  /** Each document's projection, or None where it raises. */
  function ProjectAll(ds: seq<ThemeDoc>): (os: seq<Option<Candidate>>)
    ensures |os| == |ds|
  {
    seq(|ds|, k requires 0 <= k < |ds| => ProjectVector(ds[k]))
  }

  lemma ProjectAllAt(ds: seq<ThemeDoc>)
    ensures forall k :: 0 <= k < |ds| ==> ProjectAll(ds)[k] == ProjectVector(ds[k])
  {
  }

  /** All the projections, in order; None if one of them raised. */
  function AllOf(os: seq<Option<Candidate>>): (r: Option<seq<Candidate>>)
    ensures r.Some? ==> |r.value| == |os| && forall k :: 0 <= k < |os| ==> os[k] == Some(r.value[k])
    ensures r.None? ==> exists k :: 0 <= k < |os| && os[k].None?
  {
    if os == [] then Some([])
    else
      match AllOf(os[..|os| - 1])
      case None => None
      case Some(cs) =>
        match os[|os| - 1]
        case None => None
        case Some(c) => Some(cs + [c])
  }

  /** The projections of the documents in order; None if one of them raises. */
  function Projections(ds: seq<ThemeDoc>): Option<seq<Candidate>>
  {
    AllOf(ProjectAll(ds))
  }

  /**
   * What _execute_vector_search returns for the neighbours the store gave: the first
   * `Cap(limit)` neighbours whose key is not excluded, projected in order; [] when any of
   * those projections raises.
   */
  function VectorResults(docs: seq<ThemeDoc>, excludeIds: seq<Id>, limit: nat): seq<Candidate>
  {
    var kept := Unexcluded(docs, excludeIds);
    var taken := if |kept| > Cap(limit) then kept[..Cap(limit)] else kept;
    match Projections(taken)
    case None => []
    case Some(cs) => cs
  }

  /**
   * The vector search never returns an excluded document key, returns at most `limit`
   * items (one when limit is 0), and lists its items in the neighbours' order: item k is
   * the projection of the k-th neighbour that is not excluded.
   */
  lemma VectorResultsShape(docs: seq<ThemeDoc>, excludeIds: seq<Id>, limit: nat)
    ensures |VectorResults(docs, excludeIds, limit)| <= Cap(limit)
    ensures forall k :: 0 <= k < |VectorResults(docs, excludeIds, limit)| ==>
      ProjectVector(Unexcluded(docs, excludeIds)[k]) == Some(VectorResults(docs, excludeIds, limit)[k])
    ensures forall k :: 0 <= k < |VectorResults(docs, excludeIds, limit)| ==>
      exists d :: d in docs && StrId(d.id) !in excludeIds && VectorResults(docs, excludeIds, limit)[k]["id"] == Str(d.id)
  {
    var kept := Unexcluded(docs, excludeIds);
    var taken := if |kept| > Cap(limit) then kept[..Cap(limit)] else kept;
    var r := VectorResults(docs, excludeIds, limit);
    if Projections(taken).Some? {
      var cs := Projections(taken).value;
      assert r == cs && |cs| == |taken|;
      ProjectAllAt(taken);
      forall k | 0 <= k < |r|
        ensures ProjectVector(kept[k]) == Some(r[k])
        ensures exists d :: d in docs && StrId(d.id) !in excludeIds && r[k]["id"] == Str(d.id)
      {
        assert taken[k] == kept[k];
        assert ProjectAll(taken)[k] == Some(cs[k]);
        KeptNeighbour(docs, excludeIds, kept[k]);
        assert WellFormed(r[k], kept[k]);
      }
    }
  }

  lemma KeptNeighbour(docs: seq<ThemeDoc>, excludeIds: seq<Id>, d: ThemeDoc)
    requires d in Unexcluded(docs, excludeIds)
    ensures d in docs && StrId(d.id) !in excludeIds
  {
    UnexcludedMembers(docs, excludeIds);
  }

  lemma {:induction false} UnexcludedConcat(a: seq<ThemeDoc>, b: seq<ThemeDoc>, excludeIds: seq<Id>)
    ensures Unexcluded(a + b, excludeIds) == Unexcluded(a, excludeIds) + Unexcluded(b, excludeIds)
  {
    if b == [] {
      assert a + b == a;
    } else {
      assert (a + b)[..|a + b| - 1] == a + b[..|b| - 1];
      UnexcludedConcat(a, b[..|b| - 1], excludeIds);
    }
  }

  lemma UnexcludedSnoc(docs: seq<ThemeDoc>, i: int, excludeIds: seq<Id>)
    requires 0 <= i < |docs|
    ensures Unexcluded(docs[..i + 1], excludeIds) ==
      Unexcluded(docs[..i], excludeIds) + (if StrId(docs[i].id) in excludeIds then [] else [docs[i]])
  {
    assert docs[..i + 1][..i] == docs[..i];
  }

  lemma ProjectAllSnoc(ds: seq<ThemeDoc>, d: ThemeDoc)
    ensures ProjectAll(ds + [d]) == ProjectAll(ds) + [ProjectVector(d)]
  {
    ProjectAllAt(ds + [d]);
    ProjectAllAt(ds);
  }

  lemma ProjectionsSnoc(ds: seq<ThemeDoc>, cs: seq<Candidate>, d: ThemeDoc, c: Candidate)
    requires Projections(ds) == Some(cs) && ProjectVector(d) == Some(c)
    ensures Projections(ds + [d]) == Some(cs + [c])
  {
    ProjectAllSnoc(ds, d);
    var os := ProjectAll(ds + [d]);
    assert os[..|os| - 1] == ProjectAll(ds);
  }

  lemma ProjectionsFail(ds: seq<ThemeDoc>, d: ThemeDoc)
    requires ProjectVector(d).None?
    ensures Projections(ds + [d]).None?
  {
    ProjectAllSnoc(ds, d);
  }

  /** The prefix kept so far is a prefix of all kept neighbours. */
  lemma KeptPrefix(docs: seq<ThemeDoc>, i: int, excludeIds: seq<Id>)
    requires 0 <= i <= |docs|
    ensures Unexcluded(docs, excludeIds) == Unexcluded(docs[..i], excludeIds) + Unexcluded(docs[i..], excludeIds)
  {
    assert docs == docs[..i] + docs[i..];
    UnexcludedConcat(docs[..i], docs[i..], excludeIds);
  }

  /** Keeping neighbour i extends the kept prefix, which stays a prefix of all kept neighbours. */
  lemma KeptStep(docs: seq<ThemeDoc>, i: int, excludeIds: seq<Id>)
    requires 0 <= i < |docs| && StrId(docs[i].id) !in excludeIds
    ensures Unexcluded(docs[..i + 1], excludeIds) == Unexcluded(docs[..i], excludeIds) + [docs[i]]
    ensures |Unexcluded(docs[..i + 1], excludeIds)| <= |Unexcluded(docs, excludeIds)|
    ensures Unexcluded(docs[..i + 1], excludeIds) == Unexcluded(docs, excludeIds)[..|Unexcluded(docs[..i + 1], excludeIds)|]
  {
    UnexcludedSnoc(docs, i, excludeIds);
    KeptPrefix(docs, i + 1, excludeIds);
  }

  /**
   * _execute_vector_search: asks the store for `FetchLimit` neighbours (the store's answer,
   * or None for a failing query, is `neighbours`), skips excluded document keys, appends
   * projections until `limit` is reached, and returns [] on any exception.
   */
  method ExecuteVectorSearch(limit: nat, excludeIds: seq<Id>, neighbours: Option<seq<ThemeDoc>>)
      returns (fetchLimit: nat, results: seq<Candidate>)
    ensures fetchLimit == limit + |excludeIds|
    ensures neighbours.None? ==> results == []
    ensures neighbours.Some? ==> results == VectorResults(neighbours.value, excludeIds, limit)
  {
    fetchLimit := FetchLimit(limit, excludeIds);
    results := [];
    if neighbours.None? {
      return;
    }
    var docs := neighbours.value;
    var i := 0;
    while i < |docs|
      invariant 0 <= i <= |docs|
      invariant Projections(Unexcluded(docs[..i], excludeIds)) == Some(results)
      invariant |results| < Cap(limit)
    {
      var doc := docs[i];
      if excludeIds != [] && StrId(doc.id) in excludeIds {
        SkipStep(docs, i, excludeIds, results);
        i := i + 1;
        continue;
      }
      var c := ProjectVector(doc);
      if c.None? {
        RaiseStep(docs, i, excludeIds, limit, results);
        results := [];
        return;
      }
      KeepStep(docs, i, excludeIds, limit, results, c.value);
      results := results + [c.value];
      if |results| >= limit {
        return;
      }
      i := i + 1;
    }
    assert docs[..i] == docs;
    VectorRunsOut(docs, excludeIds, limit, results);
  }

  /** Skipping an excluded neighbour leaves the kept projections as they were. */
  lemma SkipStep(docs: seq<ThemeDoc>, i: int, excludeIds: seq<Id>, results: seq<Candidate>)
    requires 0 <= i < |docs| && StrId(docs[i].id) in excludeIds
    requires Projections(Unexcluded(docs[..i], excludeIds)) == Some(results)
    ensures Projections(Unexcluded(docs[..i + 1], excludeIds)) == Some(results)
  {
    UnexcludedSnoc(docs, i, excludeIds);
    var before := Unexcluded(docs[..i], excludeIds);
    assert before + [] == before;
    assert Unexcluded(docs[..i + 1], excludeIds) == before;
  }

  /** A kept neighbour whose projection raises makes the search return []. */
  lemma RaiseStep(docs: seq<ThemeDoc>, i: int, excludeIds: seq<Id>, limit: nat, results: seq<Candidate>)
    requires 0 <= i < |docs| && StrId(docs[i].id) !in excludeIds && ProjectVector(docs[i]).None?
    requires Projections(Unexcluded(docs[..i], excludeIds)) == Some(results) && |results| < Cap(limit)
    ensures VectorResults(docs, excludeIds, limit) == []
  {
    var kept := Unexcluded(docs[..i], excludeIds);
    KeptStep(docs, i, excludeIds);
    ProjectionsFail(kept, docs[i]);
    ProjectAllAt(kept);
    VectorRaisesAt(docs, excludeIds, limit, kept + [docs[i]]);
  }

  /**
   * A kept neighbour whose projection succeeds is appended; reaching `limit` there makes
   * the results final.
   */
  lemma KeepStep(docs: seq<ThemeDoc>, i: int, excludeIds: seq<Id>, limit: nat, results: seq<Candidate>, c: Candidate)
    requires 0 <= i < |docs| && StrId(docs[i].id) !in excludeIds && ProjectVector(docs[i]) == Some(c)
    requires Projections(Unexcluded(docs[..i], excludeIds)) == Some(results) && |results| < Cap(limit)
    ensures Projections(Unexcluded(docs[..i + 1], excludeIds)) == Some(results + [c])
    ensures |results + [c]| >= limit ==> VectorResults(docs, excludeIds, limit) == results + [c]
  {
    var kept := Unexcluded(docs[..i], excludeIds);
    KeptStep(docs, i, excludeIds);
    ProjectionsSnoc(kept, results, docs[i], c);
    if |results + [c]| >= limit {
      ProjectAllAt(kept);
      VectorStopsAt(docs, excludeIds, limit, kept + [docs[i]], results + [c]);
    }
  }

  /** A projection raising among the first Cap(limit) kept neighbours gives []. */
  lemma VectorRaisesAt(docs: seq<ThemeDoc>, excludeIds: seq<Id>, limit: nat, p: seq<ThemeDoc>)
    requires |p| <= Cap(limit) && |p| <= |Unexcluded(docs, excludeIds)|
    requires p == Unexcluded(docs, excludeIds)[..|p|]
    requires Projections(p).None?
    ensures VectorResults(docs, excludeIds, limit) == []
  {
    TakenHasPrefix(Unexcluded(docs, excludeIds), p, Cap(limit));
  }

  /** Reaching Cap(limit) kept neighbours, all projected, gives their projections. */
  lemma VectorStopsAt(docs: seq<ThemeDoc>, excludeIds: seq<Id>, limit: nat, p: seq<ThemeDoc>, cs: seq<Candidate>)
    requires |p| == Cap(limit) && |p| <= |Unexcluded(docs, excludeIds)|
    requires p == Unexcluded(docs, excludeIds)[..|p|]
    requires Projections(p) == Some(cs)
    ensures VectorResults(docs, excludeIds, limit) == cs
  {
    TakenHasPrefix(Unexcluded(docs, excludeIds), p, Cap(limit));
  }

  /** Running out of neighbours before Cap(limit) gives the projections of all kept ones. */
  lemma VectorRunsOut(docs: seq<ThemeDoc>, excludeIds: seq<Id>, limit: nat, cs: seq<Candidate>)
    requires Projections(Unexcluded(docs, excludeIds)) == Some(cs) && |cs| < Cap(limit)
    ensures VectorResults(docs, excludeIds, limit) == cs
  {
  }

  /**
   * The first n kept neighbours: exactly the prefix p once p has n items, and never
   * projected without failure when p is not.
   */
  lemma TakenHasPrefix(kept: seq<ThemeDoc>, p: seq<ThemeDoc>, n: nat)
    requires |p| <= n && |p| <= |kept| && p == kept[..|p|]
    ensures var taken := if |kept| > n then kept[..n] else kept;
      && (|p| == n ==> taken == p)
      && (Projections(taken).Some? ==> Projections(p).Some?)
  {
    var taken := if |kept| > n then kept[..n] else kept;
    assert p == taken[..|p|];
    if Projections(taken).Some? {
      var os, ps := ProjectAll(taken), ProjectAll(p);
      ProjectAllAt(taken);
      ProjectAllAt(p);
      forall k | 0 <= k < |ps| ensures ps[k].Some? {
        assert ps[k] == ProjectVector(p[k]) == ProjectVector(taken[k]) == os[k];
      }
    }
  }

  // ---------------------------------------------------------------------------
  // get_group_vector and the searches built on it
  // ---------------------------------------------------------------------------

  /** Whom a recommendation is for: nobody, one nickname (possibly comma-joined), or a list. */
  datatype Context = NoContext | One(name: string) | Many(names: seq<string>)

  /**
   * `get_group_vector(user_context)` for a list or a comma-joined string, and
   * `get_group_vector([user_context])` otherwise.
   */
  function ContextNames(ctx: Context): (n: Nicknames)
    ensures ctx.Many? ==> n == NameList(ctx.names)
    ensures ctx.One? && ',' in ctx.name ==> n == NameString(ctx.name)
    ensures ctx.One? && ',' !in ctx.name ==> n == NameList([ctx.name])
  {
    match ctx
    case Many(names) => NameList(names)
    case One(name) => if ',' in name then NameString(name) else NameList([name])
    case NoContext => NoNames
  }

  /** The user has a stored, non-empty taste vector. */
  predicate HasVector(u: User)
  {
    u.embedding.Vec? && u.embedding.v != []
  }

  /**
   * The taste vectors of the users that have one, in order: every such user's vector
   * is collected, and nothing else is.
   */
  function UserVectors(us: seq<User>): (vs: seq<seq<real>>)
    ensures forall k :: 0 <= k < |vs| ==> vs[k] != []
    ensures vs == [] <==> forall u :: u in us ==> !HasVector(u)
    ensures |vs| <= |us|
    ensures forall u :: u in us && HasVector(u) ==> u.embedding.v in vs
    ensures forall v :: v in vs ==> exists u :: u in us && HasVector(u) && u.embedding.v == v
  {
    if us == [] then []
    else
      assert us == [us[0]] + us[1..];
      (if HasVector(us[0]) then [us[0].embedding.v] else []) + UserVectors(us[1..])
  }

  /** All vectors have the same width. */
  predicate SameWidth(vs: seq<seq<real>>)
    requires vs != []
  {
    forall k :: 0 <= k < |vs| ==> |vs[k]| == |vs[0]|
  }

  /** The sum of component j over the vectors. */
  function ColumnSum(vs: seq<seq<real>>, j: nat): real
    requires forall k :: 0 <= k < |vs| ==> j < |vs[k]|
  {
    if vs == [] then 0.0 else ColumnSum(vs[..|vs| - 1], j) + vs[|vs| - 1][j]
  }

  /** `np.mean(matrix, axis=0)`. */
  function Mean(vs: seq<seq<real>>): (m: seq<real>)
    requires vs != [] && SameWidth(vs)
    ensures |m| == |vs[0]|
  {
    seq(|vs[0]|, j requires 0 <= j < |vs[0]| => ColumnSum(vs, j) / (|vs| as real))
  }

  lemma {:induction false} ColumnSumOfIdentical(vs: seq<seq<real>>, v: seq<real>, j: nat)
    requires forall k :: 0 <= k < |vs| ==> vs[k] == v
    requires j < |v|
    ensures ColumnSum(vs, j) == (|vs| as real) * v[j]
  {
    if vs != [] {
      ColumnSumOfIdentical(vs[..|vs| - 1], v, j);
    }
  }

  /** The mean of copies of one vector is that vector. */
  lemma MeanOfIdentical(vs: seq<seq<real>>, v: seq<real>)
    requires vs != [] && forall k :: 0 <= k < |vs| ==> vs[k] == v
    ensures SameWidth(vs) && Mean(vs) == v
  {
    forall j | 0 <= j < |v| ensures Mean(vs)[j] == v[j] {
      ColumnSumOfIdentical(vs, v, j);
    }
  }

  /**
   * get_group_vector: None when nobody is named, the store fails, no named user has a
   * taste vector, or the vectors differ in width (numpy raises); otherwise the mean of
   * the named users' vectors, which is never empty.
   */
  function GroupVector(n: Nicknames, users: seq<User>, reachable: bool): (r: Option<seq<real>>)
    ensures TargetUsers(n) == [] || !reachable ==> r == None
    ensures r.Some? ==> r.value != []
  {
    var t := TargetUsers(n);
    if t == [] || !reachable then None
    else
      var vs := UserVectors(UsersNamed(users, FirstTen(t)));
      if vs == [] || !SameWidth(vs) then None else Some(Mean(vs))
  }

  /**
   * The other direction: when the store answers, some named user has a taste vector
   * and all named users' vectors have width w, the group vector is their mean, of width w.
   */
  lemma GroupVectorPresent(n: Nicknames, users: seq<User>, w: nat)
    requires TargetUsers(n) != []
    requires exists u :: u in users && u.nickname in FirstTen(TargetUsers(n)) && HasVector(u)
    requires forall u :: u in users && u.nickname in FirstTen(TargetUsers(n)) && HasVector(u) ==> |u.embedding.v| == w
    ensures var vs := UserVectors(UsersNamed(users, FirstTen(TargetUsers(n))));
      && vs != [] && SameWidth(vs)
      && GroupVector(n, users, true) == Some(Mean(vs))
      && |GroupVector(n, users, true).value| == w
  {
    var named := UsersNamed(users, FirstTen(TargetUsers(n)));
    var u0 :| u0 in users && u0.nickname in FirstTen(TargetUsers(n)) && HasVector(u0);
    assert u0 in named;
    UserVectorsWidth(named, w);
  }

  lemma {:induction false} UserVectorsWidth(us: seq<User>, w: nat)
    requires forall u :: u in us && HasVector(u) ==> |u.embedding.v| == w
    ensures forall k :: 0 <= k < |UserVectors(us)| ==> |UserVectors(us)[k]| == w
  {
    if us != [] {
      UserVectorsWidth(us[1..], w);
      UserVectorsCons(us[0], us[1..]);
      assert us == [us[0]] + us[1..];
    }
  }

  /** No named user with a taste vector: no group vector. */
  lemma GroupVectorNeedsAVector(n: Nicknames, users: seq<User>, reachable: bool)
    requires forall u :: u in users && u.nickname in FirstTen(TargetUsers(n)) ==> !HasVector(u)
    ensures GroupVector(n, users, reachable) == None
  {
  }

  lemma {:induction false} UserVectorsAlike(us: seq<User>, v: seq<real>)
    requires forall u :: u in us && HasVector(u) ==> u.embedding.v == v
    ensures forall k :: 0 <= k < |UserVectors(us)| ==> UserVectors(us)[k] == v
  {
    if us != [] {
      UserVectorsAlike(us[1..], v);
      UserVectorsCons(us[0], us[1..]);
      assert us == [us[0]] + us[1..];
    }
  }

  /** When every named user with a vector has the same vector v, the group vector is v. */
  lemma GroupVectorOfAlikeUsers(n: Nicknames, users: seq<User>, v: seq<real>)
    requires TargetUsers(n) != []
    requires exists u :: u in users && u.nickname in FirstTen(TargetUsers(n)) && HasVector(u)
    requires forall u :: u in users && u.nickname in FirstTen(TargetUsers(n)) && HasVector(u) ==> u.embedding.v == v
    ensures GroupVector(n, users, true) == Some(v)
  {
    var named := UsersNamed(users, FirstTen(TargetUsers(n)));
    var vs := UserVectors(named);
    UserVectorsAlike(named, v);
    MeanOfIdentical(vs, v);
  }

  /** The users agree on everything but their play history. */
  predicate SameButHistory(us1: seq<User>, us2: seq<User>)
  {
    |us1| == |us2| &&
    forall k :: 0 <= k < |us1| ==> us1[k].nickname == us2[k].nickname && us1[k].embedding == us2[k].embedding
  }

  lemma UserVectorsCons(x: User, r: seq<User>)
    ensures UserVectors([x] + r) == (if HasVector(x) then [x.embedding.v] else []) + UserVectors(r)
  {
    assert ([x] + r)[0] == x && ([x] + r)[1..] == r;
  }

  lemma UsersNamedCons(us: seq<User>, names: seq<string>)
    requires us != []
    ensures UsersNamed(us, names) == (if us[0].nickname in names then [us[0]] else []) + UsersNamed(us[1..], names)
  {
  }

  lemma {:induction false} VectorsIgnoreHistory(us1: seq<User>, us2: seq<User>, names: seq<string>)
    requires SameButHistory(us1, us2)
    ensures UserVectors(UsersNamed(us1, names)) == UserVectors(UsersNamed(us2, names))
  {
    if us1 != [] {
      assert SameButHistory(us1[1..], us2[1..]) by {
        forall k | 0 <= k < |us1| - 1
          ensures us1[1..][k].nickname == us2[1..][k].nickname && us1[1..][k].embedding == us2[1..][k].embedding
        {
          assert us1[1..][k] == us1[k + 1] && us2[1..][k] == us2[k + 1];
        }
      }
      VectorsIgnoreHistory(us1[1..], us2[1..], names);
      var r1, r2 := UsersNamed(us1[1..], names), UsersNamed(us2[1..], names);
      UsersNamedCons(us1, names);
      UsersNamedCons(us2, names);
      assert us1[0].nickname == us2[0].nickname && us1[0].embedding == us2[0].embedding;
      if us1[0].nickname in names {
        UserVectorsCons(us1[0], r1);
        UserVectorsCons(us2[0], r2);
      } else {
        assert UsersNamed(us1, names) == r1 && UsersNamed(us2, names) == r2;
      }
    }
  }

  /**
   * The personalised search does not consult play history: users who differ only in
   * what they have played give the same group vector, hence the same recommendations.
   */
  lemma GroupVectorIgnoresHistory(n: Nicknames, us1: seq<User>, us2: seq<User>, reachable: bool)
    requires SameButHistory(us1, us2)
    ensures GroupVector(n, us1, reachable) == GroupVector(n, us2, reachable)
  {
    VectorsIgnoreHistory(us1, us2, FirstTen(TargetUsers(n)));
  }

  /** What the vector search returns for the store's answer to the neighbour query. */
  function NeighbourResults(neighbours: Option<seq<ThemeDoc>>, excludeIds: seq<Id>, limit: nat): seq<Candidate>
  {
    match neighbours
    case None => []
    case Some(docs) => VectorResults(docs, excludeIds, limit)
  }

  /**
   * recommend_by_user_search: [] when there is no group vector; otherwise the vector
   * search around it (the store's neighbours of that vector are `neighbours`).
   */
  method RecommendByUserSearch(ctx: Context, limit: nat, excludeIds: seq<Id>, users: seq<User>,
                               reachable: bool, neighbours: Option<seq<ThemeDoc>>)
      returns (r: seq<Candidate>)
    ensures GroupVector(ContextNames(ctx), users, reachable).None? ==> r == []
    ensures GroupVector(ContextNames(ctx), users, reachable).Some? ==> r == NeighbourResults(neighbours, excludeIds, limit)
  {
    var target := GroupVector(ContextNames(ctx), users, reachable);
    if target.None? {
      return [];
    }
    var _, results := ExecuteVectorSearch(limit, excludeIds, neighbours);
    r := results;
  }

  /**
   * recommend_by_text: [] without an embedding model (`queryVector` is the model's
   * encoding of the query, None when there is no model); otherwise the vector search
   * with the default limit of 20.
   */
  method RecommendByText(queryVector: Option<seq<real>>, excludeIds: seq<Id>, neighbours: Option<seq<ThemeDoc>>)
      returns (r: seq<Candidate>)
    ensures queryVector.None? ==> r == []
    ensures queryVector.Some? ==> r == NeighbourResults(neighbours, excludeIds, 20)
    ensures |r| <= 20
  {
    if queryVector.None? {
      return [];
    }
    var _, results := ExecuteVectorSearch(20, excludeIds, neighbours);
    r := results;
    if neighbours.Some? {
      VectorResultsShape(neighbours.value, excludeIds, 20);
    }
  }

  // ---------------------------------------------------------------------------
  // rerank_candidates
  // ---------------------------------------------------------------------------

  /** `np.linalg.norm(v) == 0`: every component is zero. */
  predicate IsZero(v: seq<real>)
  {
    forall k :: 0 <= k < |v| ==> v[k] == 0.0
  }

  /**
   * `score_vec`: -1 without a vector, 0 for a zero vector, otherwise the cosine
   * similarity to the target (an input function; its numerics are not modelled).
   */
  function Score(c: Candidate, target: seq<real>, similarity: (seq<real>, seq<real>) -> real): (r: real)
    ensures !(Get(c, "vector").Vec? && Get(c, "vector").v != []) ==> r == -1.0
    ensures Get(c, "vector").Vec? && Get(c, "vector").v != [] && IsZero(Get(c, "vector").v) ==> r == 0.0
    ensures Get(c, "vector").Vec? && Get(c, "vector").v != [] && !IsZero(Get(c, "vector").v) ==>
      r == similarity(target, Get(c, "vector").v)
  {
    var v := Get(c, "vector");
    if v.Vec? && v.v != [] then (if IsZero(v.v) then 0.0 else similarity(target, v.v)) else -1.0
  }

  /** The candidate with its `score_vec` written in. */
  function WithScore(c: Candidate, target: seq<real>, similarity: (seq<real>, seq<real>) -> real): (d: Candidate)
    ensures GetVal(d, "score_vec") == Score(c, target, similarity)
  {
    c["score_vec" := Real(Score(c, target, similarity))]
  }

  /** Scoring adds the `score_vec` field and changes no other field. */
  lemma WithScoreKeepsFields(c: Candidate, target: seq<real>, similarity: (seq<real>, seq<real>) -> real)
    ensures WithScore(c, target, similarity).Keys == c.Keys + {"score_vec"}
    ensures forall k | k in c && k != "score_vec" :: WithScore(c, target, similarity)[k] == c[k]
  {
  }

  /** Every candidate with its score written in, in the same order. */
  function Scored(cs: seq<Candidate>, target: seq<real>, similarity: (seq<real>, seq<real>) -> real): (r: seq<Candidate>)
    ensures |r| == |cs| && forall k :: 0 <= k < |cs| ==> r[k] == WithScore(cs[k], target, similarity)
  {
    seq(|cs|, k requires 0 <= k < |cs| => WithScore(cs[k], target, similarity))
  }

  /** A one-field key ordered descending is that field ordered descending. */
  lemma SingleKeyOrder(x: Candidate, y: Candidate)
    ensures LexGe([GetVal(x, "score_vec")], [GetVal(y, "score_vec")]) ==> GetVal(x, "score_vec") >= GetVal(y, "score_vec")
  {
  }

  /** Writes each candidate's `score_vec` in place. */
  method ScoreAll(candidates: array<Candidate>, target: seq<real>, similarity: (seq<real>, seq<real>) -> real)
    modifies candidates
    ensures candidates[..] == Scored(old(candidates[..]), target, similarity)
  {
    var i := 0;
    while i < candidates.Length
      invariant 0 <= i <= candidates.Length
      invariant forall k :: 0 <= k < i ==> candidates[k] == WithScore(old(candidates[k]), target, similarity)
      invariant forall k :: i <= k < candidates.Length ==> candidates[k] == old(candidates[k])
    {
      candidates[i] := WithScore(candidates[i], target, similarity);
      i := i + 1;
    }
  }

  /**
   * rerank_candidates: without a (non-zero) target vector the list is left as it is;
   * otherwise every candidate gets its `score_vec` and the list is sorted in place by
   * it, highest first, keeping exactly the scored candidates.
   */
  method RerankCandidates(candidates: array<Candidate>, ctx: Context, users: seq<User>, reachable: bool,
                          similarity: (seq<real>, seq<real>) -> real)
    modifies candidates
    ensures var t := GroupVector(ContextNames(ctx), users, reachable);
      t.None? || IsZero(t.value) ==> candidates[..] == old(candidates[..])
    ensures var t := GroupVector(ContextNames(ctx), users, reachable);
      t.Some? && !IsZero(t.value) ==>
        && multiset(candidates[..]) == multiset(Scored(old(candidates[..]), t.value, similarity))
        && forall i, j :: 0 <= i < j < candidates.Length ==>
             GetVal(candidates[i], "score_vec") >= GetVal(candidates[j], "score_vec")
  {
    var target := GroupVector(ContextNames(ctx), users, reachable);
    if target.None? {
      return;
    }
    var u := target.value;
    if IsZero(u) {
      return;
    }
    ScoreAll(candidates, u, similarity);
    SortDesc(candidates, c => [GetVal(c, "score_vec")]);
    forall i, j | 0 <= i < j < candidates.Length
      ensures GetVal(candidates[i], "score_vec") >= GetVal(candidates[j], "score_vec")
    {
      SingleKeyOrder(candidates[i], candidates[j]);
    }
  }
}
