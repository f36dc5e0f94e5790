/**
 * The turn orchestration of the escape-room bot (EscapeBotEngine): reading the
 * user's intent, managing play history, choosing whom to recommend for, carrying
 * filters over for "another one", and filling the recommendation buckets in order.
 *
 * The language model, the document store and the embedding model are not run:
 * what they answer in a turn is given as input (a Completion, a parse function for
 * the JSON the model returns, the store's collections and query answers).
 */
module BotEngine {

  import opened Wrappers
  import opened Text
  import opened Records
  import opened Utils
  import opened Recommenders

  // ---------------------------------------------------------------------------
  // The language model and the intent it extracts
  // ---------------------------------------------------------------------------

  /** What one chat-completion call gives: an API failure, or the message content (possibly None). */
  datatype Completion = ApiFailure(detail: string) | Completed(content: Option<string>)

  /** An `items` entry of the multi-item intent: a location and a theme, each possibly missing. */
  datatype Item = Item(location: Option<string>, theme: Option<string>)

  /**
   * The intent dict. A missing `action` is None; a missing or null `location`/`theme`
   * is None; missing `keywords`, `mentioned_users` and `items` are [].
   */
  datatype Intent = Intent(action: Option<string>, location: Option<string>, theme: Option<string>,
                           keywords: seq<string>, mentionedUsers: seq<string>, items: seq<Item>)

  /** `{}`: what the analysis gives without a client. */
  const NoIntent: Intent := Intent(None, None, None, [], [], [])

  /** `{"action": "recommend", "keywords": []}`: the fallback when the analysis fails. */
  const Fallback: Intent := Intent(Some("recommend"), None, None, [], [], [])

  /** `intent_data.get('action', 'recommend')`. */
  function ActionOf(i: Intent): (a: string)
    ensures i.action.None? ==> a == "recommend"
    ensures i.action.Some? ==> a == i.action.value
  {
    if i.action.Some? then i.action.value else "recommend"
  }

  const NoClientError: string := "Error:" + " Groq Client not initialized (Missing API Key)"

  /**
   * `_call_llm`: the content of the completion, or an error string carrying "Error:"
   * when there is no client or the API call fails.
   */
  function CallLlm(hasClient: bool, c: Completion): (r: Option<string>)
    ensures !hasClient || c.ApiFailure? ==> r.Some? && r.value != [] && Contains(r.value, "Error:")
    ensures !hasClient ==> r == Some(NoClientError)
    ensures hasClient && c.ApiFailure? ==> r == Some("Groq API Error: " + c.detail)
    ensures hasClient && c.Completed? ==> r == c.content
  {
    if !hasClient then
      assert NoClientError[0..6] == "Error:";
      ContainsAt(NoClientError, "Error:", 0);
      Some(NoClientError)
    else
      match c
      case ApiFailure(e) =>
        var s := "Groq API " + "Error:" + " " + e;
        assert s[9..15] == "Error:";
        ContainsAt(s, "Error:", 9);
        assert s == "Groq API Error: " + e;
        Some(s)
      case Completed(content) => content
  }

  /** The model's text reports an error: it is non-empty and holds "Error:". */
  predicate IsErrorText(s: Option<string>)
  {
    s.Some? && s.value != [] && Contains(s.value, "Error:")
  }

  /**
   * `analyze_user_intent`: `{}` without a client; the fallback intent when the call
   * reports an error, returns nothing, or returns text that does not parse; otherwise
   * the parsed intent. `parse` stands for `json.loads` on the model's text.
   */
  function AnalyzeUserIntent(hasClient: bool, c: Completion, parse: string -> Option<Intent>): (r: Intent)
    ensures !hasClient ==> r == NoIntent
    ensures hasClient && c.ApiFailure? ==> r == Fallback
    ensures hasClient && c.Completed? && (c.content.None? || c.content.value == []) ==> r == Fallback
    ensures hasClient && c.Completed? && c.content.Some? && c.content.value != [] ==>
      r == (if Contains(c.content.value, "Error:") || parse(c.content.value).None? then Fallback
            else parse(c.content.value).value)
  {
    if !hasClient then NoIntent
    else
      var s := CallLlm(true, c);
      if IsErrorText(s) then Fallback
      else if s.None? || s.value == [] then Fallback
      else
        match parse(s.value)
        case None => Fallback
        case Some(i) => i
  }

  /** Whatever goes wrong in the analysis, the turn is handled as a recommendation. */
  lemma FailedAnalysisRecommends(c: Completion, parse: string -> Option<Intent>)
    requires c.ApiFailure? || c.content.None? || c.content.value == [] || parse(c.content.value).None?
    ensures ActionOf(AnalyzeUserIntent(true, c, parse)) == "recommend"
  {
  }

  // ---------------------------------------------------------------------------
  // Whom the recommendation is for
  // ---------------------------------------------------------------------------

  /** `user_context` is truthy: present and non-empty. */
  predicate Given(userContext: Option<string>)
  {
    userContext.Some? && userContext.value != []
  }

  /** The names in `user_context`: split on ',' and trimmed; [] without one. */
  function BaseUsers(userContext: Option<string>): (r: seq<string>)
    ensures !Given(userContext) ==> r == []
    ensures Given(userContext) ==> r == SplitStrip(userContext.value) && |r| >= 1
    ensures Given(userContext) && ',' !in userContext.value ==> r == [Strip(userContext.value)]
  {
    if Given(userContext) then TargetUsers(NameString(userContext.value)) else []
  }

  /** The mentioned users appended after `seen`: each one not yet present, in order. */
  function Added(seen: seq<string>, ms: seq<string>): seq<string>
  {
    if ms == [] then []
    else
      var a := Added(seen, ms[..|ms| - 1]);
      var m := ms[|ms| - 1];
      if m in seen || m in a then a else a + [m]
  }

  /** No name occurs twice. */
  predicate Distinct(s: seq<string>)
  {
    forall i, j :: 0 <= i < j < |s| ==> s[i] != s[j]
  }

  /**
   * The appended names are exactly the mentioned users not already present, each
   * once: no new duplicates.
   */
  lemma {:induction false} AddedMeaning(seen: seq<string>, ms: seq<string>)
    ensures forall x :: x in Added(seen, ms) <==> x in ms && x !in seen
    ensures Distinct(Added(seen, ms))
  {
    if ms != [] {
      var init := ms[..|ms| - 1];
      AddedMeaning(seen, init);
      assert ms == init + [ms[|ms| - 1]];
    }
  }

  /** The participant list: the context's names, then each new mentioned user. */
  method Participants(userContext: Option<string>, mentioned: seq<string>) returns (current: seq<string>)
    ensures current == BaseUsers(userContext) + Added(BaseUsers(userContext), mentioned)
  {
    current := [];
    if Given(userContext) {
      if ',' in userContext.value {
        current := SplitStrip(userContext.value);
      } else {
        current := [Strip(userContext.value)];
      }
    }
    ghost var base := current;
    assert base == BaseUsers(userContext);
    var i := 0;
    while i < |mentioned|
      invariant 0 <= i <= |mentioned|
      invariant current == base + Added(base, mentioned[..i])
    {
      var u := mentioned[i];
      AddedSnoc(base, mentioned, i);
      if u !in current {
        current := current + [u];
      }
      i := i + 1;
    }
    assert mentioned[..i] == mentioned;
  }

  lemma AddedSnoc(seen: seq<string>, ms: seq<string>, i: nat)
    requires i < |ms|
    ensures var a := Added(seen, ms[..i]);
      Added(seen, ms[..i + 1]) == if ms[i] in seen + a then a else a + [ms[i]]
  {
    assert ms[..i + 1][..i] == ms[..i];
  }

  /** Every mentioned user is a participant, and the mentioned users add no duplicate. */
  lemma ParticipantsCoverMentioned(userContext: Option<string>, mentioned: seq<string>)
    ensures var ps := BaseUsers(userContext) + Added(BaseUsers(userContext), mentioned);
      && (forall m :: m in mentioned ==> m in ps)
      && (forall x :: x in ps ==> x in BaseUsers(userContext) || x in mentioned)
      && Distinct(Added(BaseUsers(userContext), mentioned))
  {
    AddedMeaning(BaseUsers(userContext), mentioned);
  }

  /** `final_context`: the list for two or more names, the one name, or None. */
  function FinalContext(current: seq<string>): (ctx: Context)
    ensures ctx.NoContext? <==> current == []
    ensures ctx.One? ==> current == [ctx.name]
    ensures ctx.Many? ==> ctx.names == current && |current| > 1
  {
    if |current| > 1 then Many(current) else if |current| == 1 then One(current[0]) else NoContext
  }

  /**
   * `if final_context:`: a list (it always holds two or more names) or a non-empty
   * name. A single "" (a blank nickname) is false, like None.
   */
  predicate ContextGiven(ctx: Context)
  {
    ctx.Many? || (ctx.One? && ctx.name != [])
  }

  /**
   * A blank nickname strips to "", so the turn's context is the one name "", and
   * the personalised search, which `if final_context:` guards, does not run.
   */
  lemma BlankNicknameIsNotPersonal(excludeIds: seq<Id>, users: seq<User>, world: World)
    ensures var base := BaseUsers(Some(" "));
      FinalContext(base + Added(base, [])) == One("")
    ensures !ContextGiven(One("")) && PersonalPool(excludeIds, One(""), users, world) == []
  {
    var base := BaseUsers(Some(" "));
    assert IsSpace(" "[0]);
    assert base == [Strip(" ")] == [""];
    assert base + Added(base, []) == [""];
  }

  /** How `search_themes` reads `final_context`: a list as is, a string split on ','. */
  function SearchNames(ctx: Context): (n: Nicknames)
    ensures ctx.NoContext? ==> n == NoNames
    ensures ctx.One? ==> n == NameString(ctx.name)
    ensures ctx.Many? ==> n == NameList(ctx.names)
  {
    match ctx
    case NoContext => NoNames
    case One(name) => NameString(name)
    case Many(names) => NameList(names)
  }

  // ---------------------------------------------------------------------------
  // Filters and exclusions for the turn
  // ---------------------------------------------------------------------------

  /** The session's memory: the filters and the theme keys of the previous turn (`{}` is NoSession). */
  datatype Session = NoSession | Session(lastFilters: Filters, shownIds: seq<Id>)

  /** The filters taken from the intent. */
  function CurrentFilters(i: Intent): Filters
  {
    Filters(i.location, i.keywords, i.mentionedUsers)
  }

  /**
   * The filters and exclusions used: "another_recommend" reuses the session's last
   * filters and excludes every theme shown so far; any other action uses the intent's
   * filters and excludes nothing.
   */
  function Carried(action: string, i: Intent, session: Session): (r: (Filters, seq<Id>))
    ensures action != "another_recommend" ==> r == (CurrentFilters(i), [])
    ensures action == "another_recommend" && session.Session? ==> r == (session.lastFilters, session.shownIds)
    ensures action == "another_recommend" && session.NoSession? ==> r == (NoFilters, [])
  {
    if action == "another_recommend" then
      match session
      case NoSession => (NoFilters, [])
      case Session(f, ids) => (f, ids)
    else (CurrentFilters(i), [])
  }

  // ---------------------------------------------------------------------------
  // find_theme_id
  // ---------------------------------------------------------------------------

  /** The store returns at most this many themes to the lookup. */
  const LookupLimit: nat := 500

  /**
   * The lookup query's answer over the themes collection: the first 500 themes, in
   * collection order, whose stored `location` equals the given one (every theme when
   * no location is given).
   */
  function Scope(catalog: seq<ThemeDoc>, location: Option<string>): (r: seq<ThemeDoc>)
    ensures var m := if location.Some? && location.value != [] then AtLocation(catalog, location.value) else catalog;
      |r| == (if |m| > LookupLimit then LookupLimit else |m|) && r == m[..|r|]
    ensures |r| <= LookupLimit
    ensures forall d :: d in r ==> d in catalog
    ensures location.Some? && location.value != [] ==> forall d :: d in r ==> Get(d.data, "location") == Str(location.value)
  {
    var matching := if location.Some? && location.value != [] then AtLocation(catalog, location.value) else catalog;
    if |matching| > LookupLimit then matching[..LookupLimit] else matching
  }

  /** The themes stored at exactly this location, in collection order. */
  function AtLocation(catalog: seq<ThemeDoc>, location: string): (r: seq<ThemeDoc>)
    ensures forall d :: d in r <==> d in catalog && Get(d.data, "location") == Str(location)
  {
    if catalog == [] then []
    else
      var init := AtLocation(catalog[..|catalog| - 1], location);
      var last := catalog[|catalog| - 1];
      assert catalog == catalog[..|catalog| - 1] + [last];
      if Get(last.data, "location") == Str(location) then init + [last] else init
  }

  /** `data.get('title', '')` as a string; None when the stored title is not one (`.replace` raises). */
  function TitleOf(d: ThemeDoc): (r: Option<string>)
    ensures "title" !in d.data ==> r == Some("")
    ensures "title" in d.data && d.data["title"].Str? ==> r == Some(d.data["title"].s)
    ensures "title" in d.data && !d.data["title"].Str? ==> r == None
  {
    match GetOr(d.data, "title", Str(""))
    case Str(t) => Some(t)
    case _ => None
  }

  /** `int(data.get('ref_id') or doc.id)`; None when int() raises. */
  function ThemeIdOf(d: ThemeDoc): (r: Option<int>)
    ensures !Truthy(Get(d.data, "ref_id")) ==> r == ParseInt(d.id)
    ensures Truthy(Get(d.data, "ref_id")) ==> r == IntOf(Get(d.data, "ref_id"))
    ensures Get(d.data, "ref_id").Int? && Truthy(Get(d.data, "ref_id")) ==> r == Some(Get(d.data, "ref_id").i)
  {
    var ref := Get(d.data, "ref_id");
    if Truthy(ref) then IntOf(ref) else ParseInt(d.id)
  }

  /** The title, spaces removed, contains the wanted name. */
  predicate TitleMatches(d: ThemeDoc, target: string)
  {
    TitleOf(d).Some? && Contains(RemoveSpaces(TitleOf(d).value), target)
  }

  /**
   * The first-match scan: the id of the first theme whose space-free title contains
   * the space-free name; None when none does or when the scan raises first.
   */
  function Lookup(docs: seq<ThemeDoc>, target: string): Option<int>
  {
    if docs == [] then None
    else if TitleOf(docs[0]).None? then None
    else if TitleMatches(docs[0], target) then ThemeIdOf(docs[0])
    else Lookup(docs[1..], target)
  }

  /** A found id belongs to the first theme whose title matches; every theme before it has a string title that does not. */
  lemma {:induction false} LookupFindsFirstMatch(docs: seq<ThemeDoc>, target: string)
    requires Lookup(docs, target).Some?
    ensures exists k ::
              && 0 <= k < |docs| && TitleMatches(docs[k], target)
              && ThemeIdOf(docs[k]) == Lookup(docs, target)
              && forall j :: 0 <= j < k ==> TitleOf(docs[j]).Some? && !TitleMatches(docs[j], target)
  {
    if !TitleMatches(docs[0], target) {
      var rest := docs[1..];
      assert TitleOf(docs[0]).Some? && Lookup(docs, target) == Lookup(rest, target);
      LookupFindsFirstMatch(rest, target);
      var k :| && 0 <= k < |rest| && TitleMatches(rest[k], target)
               && ThemeIdOf(rest[k]) == Lookup(rest, target)
               && forall j :: 0 <= j < k ==> TitleOf(rest[j]).Some? && !TitleMatches(rest[j], target);
      assert docs[k + 1] == rest[k];
      forall j | 0 <= j < k + 1
        ensures TitleOf(docs[j]).Some? && !TitleMatches(docs[j], target)
      {
        if j > 0 {
          assert docs[j] == rest[j - 1];
        }
      }
      assert 0 <= k + 1 < |docs| && TitleMatches(docs[k + 1], target) && ThemeIdOf(docs[k + 1]) == Lookup(docs, target);
    } else {
      assert 0 < |docs| && TitleMatches(docs[0], target) && ThemeIdOf(docs[0]) == Lookup(docs, target);
    }
  }

  /** When the first matching theme has a parseable id, that id is found. */
  lemma {:induction false} LookupFindsIt(docs: seq<ThemeDoc>, target: string, k: nat)
    requires k < |docs| && TitleMatches(docs[k], target) && ThemeIdOf(docs[k]).Some?
    requires forall j :: 0 <= j < k ==> TitleOf(docs[j]).Some? && !TitleMatches(docs[j], target)
    ensures Lookup(docs, target) == ThemeIdOf(docs[k])
  {
    if k > 0 {
      assert forall j :: 0 <= j < k - 1 ==> docs[1..][j] == docs[j + 1];
      LookupFindsIt(docs[1..], target, k - 1);
    }
  }

  /** No theme matches: nothing is found. */
  lemma {:induction false} LookupNoMatch(docs: seq<ThemeDoc>, target: string)
    requires forall d :: d in docs ==> !TitleMatches(d, target)
    ensures Lookup(docs, target) == None
  {
    if docs != [] {
      assert forall d :: d in docs[1..] ==> d in docs;
      LookupNoMatch(docs[1..], target);
    }
  }

  /**
   * `find_theme_id`: scans the lookup's answer (`catalog` is the themes collection;
   * None when the query raises) for the first title holding the name, ignoring spaces.
   */
  method FindThemeId(location: Option<string>, themeName: string, catalog: Option<seq<ThemeDoc>>)
      returns (tid: Option<int>)
    ensures catalog.None? ==> tid == None
    ensures catalog.Some? ==> tid == Lookup(Scope(catalog.value, location), RemoveSpaces(themeName))
  {
    if catalog.None? {
      return None;
    }
    var docs := Scope(catalog.value, location);
    var target := RemoveSpaces(themeName);
    var i := 0;
    while i < |docs|
      invariant 0 <= i <= |docs|
      invariant Lookup(docs, target) == Lookup(docs[i..], target)
    {
      assert docs[i..][1..] == docs[i + 1..];
      var title := TitleOf(docs[i]);
      if title.None? {
        return None;
      }
      if Contains(RemoveSpaces(title.value), target) {
        return ThemeIdOf(docs[i]);
      }
      i := i + 1;
    }
    return None;
  }

  // ---------------------------------------------------------------------------
  // update_play_history
  // ---------------------------------------------------------------------------

  /** `firestore.ArrayUnion([x])`: x is appended unless already present. */
  function ArrayUnion(a: seq<Value>, x: Value): (r: seq<Value>)
    ensures x in r && forall y :: y in a ==> y in r
    ensures forall y :: y in r ==> y in a || y == x
  {
    if x in a then a else a + [x]
  }

  /** `firestore.ArrayRemove([x])`: every occurrence of x is removed, the rest kept in order. */
  function ArrayRemove(a: seq<Value>, x: Value): (r: seq<Value>)
    ensures x !in r
    ensures forall y :: y in r <==> y in a && y != x
    ensures |r| <= |a|
  {
    if a == [] then []
    else
      var init := ArrayRemove(a[..|a| - 1], x);
      var last := a[|a| - 1];
      assert a == a[..|a| - 1] + [last];
      if last == x then init else init + [last]
  }

  /** Marking a theme played twice is the same as once. */
  lemma ArrayUnionIdempotent(a: seq<Value>, x: Value)
    ensures ArrayUnion(ArrayUnion(a, x), x) == ArrayUnion(a, x)
  {
  }

  /** Removing an absent theme changes nothing. */
  lemma {:induction false} ArrayRemoveAbsent(a: seq<Value>, x: Value)
    requires x !in a
    ensures ArrayRemove(a, x) == a
  {
    if a != [] {
      assert a == a[..|a| - 1] + [a[|a| - 1]];
      ArrayRemoveAbsent(a[..|a| - 1], x);
    }
  }

  /** Marking a theme played and then unplayed restores a history that did not hold it. */
  lemma UnionThenRemove(a: seq<Value>, x: Value)
    requires x !in a
    ensures ArrayRemove(ArrayUnion(a, x), x) == a
  {
    var u := a + [x];
    assert u[..|u| - 1] == a;
    ArrayRemoveAbsent(a, x);
  }

  /** The index of the first user with the nickname (`where nickname == n .limit(1)`). */
  function FindUser(users: seq<User>, nickname: string): (r: Option<nat>)
    ensures r.Some? ==> r.value < |users| && users[r.value].nickname == nickname
    ensures r.Some? ==> forall k :: 0 <= k < r.value ==> users[k].nickname != nickname
    ensures r.None? ==> forall k :: 0 <= k < |users| ==> users[k].nickname != nickname
  {
    if users == [] then None
    else if users[0].nickname == nickname then Some(0)
    else
      match FindUser(users[1..], nickname)
      case None => None
      case Some(k) => Some(k + 1)
  }

  const UserNotFound: string := "❌ 유저를 찾을 수 없습니다."
  const AddedToPlayed: string := "✅ 플레이 목록에 추가했습니다!"
  const RemovedFromPlayed: string := "✅ 플레이 목록에서 제외했습니다."
  const UnknownRequest: string := "❓ 알 수 없는 요청입니다."

  /** The `played` history after the action, for the one user it applies to. */
  function Revised(played: seq<Value>, themeId: int, action: string): seq<Value>
  {
    if action == "played_check" then ArrayUnion(played, Int(themeId))
    else if action == "not_played_check" then ArrayRemove(played, Int(themeId))
    else played
  }

  lemma {:induction false} AllPlayedHas(us: seq<User>, u: User, x: Value)
    requires u in us && x in u.played
    ensures x in AllPlayed(us)
  {
    var init := us[..|us| - 1];
    if u != us[|us| - 1] {
      assert us == init + [us[|us| - 1]];
      AllPlayedHas(init, u, x);
    }
  }

  /**
   * After a theme is marked played for a user, the rule-based search for that user
   * treats it as played (provided the user's history parses, as int() requires).
   */
  lemma MarkedPlayedIsExcluded(users: seq<User>, nickname: string, themeId: int)
    requires FindUser(users, nickname).Some?
    requires var k := FindUser(users, nickname).value;
      AllParse(AllPlayed(UsersNamed(users[k := users[k].(played := Revised(users[k].played, themeId, "played_check"))],
                                    [nickname])))
    ensures var k := FindUser(users, nickname).value;
      themeId in GroupHistory(NameList([nickname]),
                              users[k := users[k].(played := Revised(users[k].played, themeId, "played_check"))], true)
  {
    var k := FindUser(users, nickname).value;
    var after := users[k := users[k].(played := Revised(users[k].played, themeId, "played_check"))];
    var ps := AllPlayed(UsersNamed(after, [nickname]));
    assert after[k] in UsersNamed(after, [nickname]);
    AllPlayedHas(UsersNamed(after, [nickname]), after[k], Int(themeId));
    var j :| 0 <= j < |ps| && ps[j] == Int(themeId);
    GroupHistoryIsUnion(NameList([nickname]), after, ps);
  }

  /** The message update_play_history returns. */
  function UpdateMessage(users: seq<User>, nickname: string, action: string, failure: Option<string>): (msg: string)
    ensures failure.Some? ==> msg == "❌ 업데이트 중 오류: " + failure.value
    ensures failure.None? && FindUser(users, nickname).None? ==> msg == UserNotFound
    ensures failure.None? && FindUser(users, nickname).Some? ==>
      msg == (if action == "played_check" then AddedToPlayed
              else if action == "not_played_check" then RemovedFromPlayed
              else UnknownRequest)
  {
    if failure.Some? then "❌ 업데이트 중 오류: " + failure.value
    else if FindUser(users, nickname).None? then UserNotFound
    else if action == "played_check" then AddedToPlayed
    else if action == "not_played_check" then RemovedFromPlayed
    else UnknownRequest
  }

  /**
   * The users collection after update_play_history: only the first user with the
   * nickname changes, and only in `played`; a failure or an unknown user changes nothing.
   */
  function Updated(users: seq<User>, nickname: string, themeId: int, action: string, failure: Option<string>)
    : (r: seq<User>)
    ensures failure.Some? || FindUser(users, nickname).None? ==> r == users
    ensures failure.None? && FindUser(users, nickname).Some? ==>
      var k := FindUser(users, nickname).value;
      r == users[k := users[k].(played := Revised(users[k].played, themeId, action))]
  {
    if failure.Some? then users
    else match FindUser(users, nickname)
      case None => users
      case Some(k) => users[k := users[k].(played := Revised(users[k].played, themeId, action))]
  }

  /** Rewriting a user's history does not change whom a nickname finds. */
  lemma {:induction false} FindUserIgnoresPlayed(users: seq<User>, k: nat, played: seq<Value>, nickname: string)
    requires k < |users|
    ensures FindUser(users[k := users[k].(played := played)], nickname) == FindUser(users, nickname)
  {
    if users != [] && users[0].nickname != nickname {
      var after := users[k := users[k].(played := played)];
      if k > 0 {
        assert after[1..] == users[1..][k - 1 := users[1..][k - 1].(played := played)];
        FindUserIgnoresPlayed(users[1..], k - 1, played, nickname);
      } else {
        assert after[1..] == users[1..];
      }
    }
  }

  /** The users collection, whose `played` arrays the bot updates. */
  class UserStore {
    var users: seq<User>

    constructor(users0: seq<User>)
      ensures users == users0
    {
      users := users0;
    }

    /**
     * `update_play_history`: the first user with the nickname gets the theme added to
     * (played_check) or removed from (not_played_check) their history; an unknown user,
     * an unknown action or a store failure (`failure`, the exception's text) changes
     * nothing and is reported in the message.
     */
    method UpdatePlayHistory(nickname: string, themeId: int, action: string, failure: Option<string>)
        returns (msg: string)
      modifies this
      ensures users == Updated(old(users), nickname, themeId, action, failure)
      ensures msg == UpdateMessage(old(users), nickname, action, failure)
    {
      if failure.Some? {
        return "❌ 업데이트 중 오류: " + failure.value;
      }
      var found := FindUser(users, nickname);
      if found.None? {
        return UserNotFound;
      }
      var k := found.value;
      if action == "played_check" {
        users := users[k := users[k].(played := ArrayUnion(users[k].played, Int(themeId)))];
        msg := AddedToPlayed;
      } else if action == "not_played_check" {
        users := users[k := users[k].(played := ArrayRemove(users[k].played, Int(themeId)))];
        msg := RemovedFromPlayed;
      } else {
        msg := UnknownRequest;
      }
    }
  }

  // ---------------------------------------------------------------------------
  // Filling the recommendation buckets
  // ---------------------------------------------------------------------------

  /** What the store and the embedding model answer during one turn. */
  datatype World = World(
    themes: seq<ThemeDoc>,                  // search_themes' theme query
    usersReachable: bool,                   // false: the users query raises
    userNeighbours: Option<seq<ThemeDoc>>,  // neighbours of the group vector; None: the query raises
    queryVector: Option<seq<real>>,         // the model's encoding of the query; None: no model
    textNeighbours: Option<seq<ThemeDoc>>,  // neighbours of that encoding
    catalog: Option<seq<ThemeDoc>>,         // the themes find_theme_id reads; None: the query raises
    updateFailure: Option<string>)          // the text of a failed play-history update

  /** The three result lists of a turn; None where the key is absent from `final_results`. */
  datatype Buckets = Buckets(ruleBased: Option<seq<Candidate>>, personalized: Option<seq<Candidate>>,
                             textSearch: Option<seq<Candidate>>)

  /** `{}`. */
  const NoBuckets: Buckets := Buckets(None, None, None)

  /** How a search step ends: search_themes raised, nothing matched, or buckets were filled. */
  datatype Outcome = Raised | NoMatch | Found(buckets: Buckets)

  /** The rule-based pool: every theme search_themes keeps, before ranking; None if it raises. */
  function RulePool(filters: Filters, excludeIds: seq<Id>, ctx: Context, users: seq<User>, world: World)
    : Option<seq<Candidate>>
  {
    Survivors(world.themes, ExclusionSet(excludeIds, GroupHistory(SearchNames(ctx), users, world.usersReachable)),
              LocationOf(filters))
  }

  /** The personalised pool: the vector search around the group vector, [] without a (truthy) context or vector. */
  function PersonalPool(excludeIds: seq<Id>, ctx: Context, users: seq<User>, world: World): seq<Candidate>
  {
    if !ContextGiven(ctx) || GroupVector(ContextNames(ctx), users, world.usersReachable).None? then []
    else NeighbourResults(world.userNeighbours, excludeIds, 3)
  }

  /** The text-search pool: the vector search around the query's encoding, [] without a model. */
  function TextPool(excludeIds: seq<Id>, world: World): seq<Candidate>
  {
    if world.queryVector.None? then [] else NeighbourResults(world.textNeighbours, excludeIds, 20)
  }

  /** Every result of the vector search carries its ratings. */
  lemma NeighbourResultsScored(neighbours: Option<seq<ThemeDoc>>, excludeIds: seq<Id>, limit: nat)
    ensures forall k :: 0 <= k < |NeighbourResults(neighbours, excludeIds, limit)| ==>
      HasScores(NeighbourResults(neighbours, excludeIds, limit)[k])
  {
    if neighbours.Some? {
      VectorResultsShape(neighbours.value, excludeIds, limit);
    }
  }

  /**
   * The buckets hold what the turn promises: the top 3 rule-based themes when there
   * are any; all personalised themes, ranked, when there are any; and the top 3 of
   * the text search only when both others are empty and it found something.
   */
  ghost predicate Filled(b: Buckets, rule: seq<Candidate>, personal: seq<Candidate>, text: seq<Candidate>,
                         ordering: seq<(string, Direction)>)
  {
    && (b.ruleBased.Some? <==> rule != [])
    && (b.ruleBased.Some? ==> TopRanked(b.ruleBased.value, rule, 3, ordering))
    && (b.personalized.Some? <==> personal != [])
    && (b.personalized.Some? ==> TopRanked(b.personalized.value, personal, |personal|, ordering))
    && (b.textSearch.Some? <==> rule == [] && personal == [] && text != [])
    && (b.textSearch.Some? ==> TopRanked(b.textSearch.value, text, 3, ordering))
  }

  /** A filled bucket is never empty, and some bucket is filled. */
  lemma FilledBucketsAreNonEmpty(b: Buckets, rule: seq<Candidate>, personal: seq<Candidate>, text: seq<Candidate>,
                                 ordering: seq<(string, Direction)>)
    requires Filled(b, rule, personal, text, ordering)
    requires rule != [] || personal != [] || text != []
    ensures b != NoBuckets
    ensures b.ruleBased.Some? ==> b.ruleBased.value != [] && |b.ruleBased.value| <= 3
    ensures b.personalized.Some? ==> |b.personalized.value| == |personal|
    ensures b.textSearch.Some? ==> b.textSearch.value != [] && |b.textSearch.value| <= 3
  {
  }

  /** Step 1: the rule-based search, limit 3; `raised` when search_themes raises. */
  method RuleBasedBucket(userQuery: string, filters: Filters, excludeIds: seq<Id>, ctx: Context, users: seq<User>,
                         world: World, ranker: Ranker)
      returns (raised: bool, bucket: Option<seq<Candidate>>)
    ensures raised <==> RulePool(filters, excludeIds, ctx, users, world).None?
    ensures !raised ==> var rule := RulePool(filters, excludeIds, ctx, users, world).value;
      && (bucket.Some? <==> rule != [])
      && (bucket.Some? ==> TopRanked(bucket.value, rule, 3, Ordering(ranker, QueryText(Some(userQuery)))))
  {
    var result := SearchThemes(filters, Some(userQuery), 3, SearchNames(ctx), excludeIds, users,
                               world.usersReachable, world.themes, ranker);
    raised := result.None?;
    bucket := None;
    if result.Some? && result.value != [] {
      bucket := result;
    }
  }

  /** Step 2: with a truthy context, the personalised search, re-sorted by the query. */
  method PersonalizedBucket(userQuery: string, excludeIds: seq<Id>, ctx: Context, users: seq<User>,
                            world: World, ranker: Ranker)
      returns (bucket: Option<seq<Candidate>>)
    ensures var personal := PersonalPool(excludeIds, ctx, users, world);
      && (bucket.Some? <==> personal != [])
      && (bucket.Some? ==> TopRanked(bucket.value, personal, |personal|, Ordering(ranker, QueryText(Some(userQuery)))))
  {
    bucket := None;
    if ContextGiven(ctx) {
      var found := RecommendByUserSearch(ctx, 3, excludeIds, users, world.usersReachable, world.userNeighbours);
      if found != [] {
        NeighbourResultsScored(world.userNeighbours, excludeIds, 3);
        var reranked := RankTop(found, Some(userQuery), |found|, ranker);
        bucket := Some(reranked);
      }
    }
  }

  /** Step 3: the text search, sorted by the query and cut to 3. */
  method TextSearchBucket(userQuery: string, excludeIds: seq<Id>, world: World, ranker: Ranker)
      returns (bucket: Option<seq<Candidate>>)
    ensures var text := TextPool(excludeIds, world);
      && (bucket.Some? <==> text != [])
      && (bucket.Some? ==> TopRanked(bucket.value, text, 3, Ordering(ranker, QueryText(Some(userQuery)))))
  {
    bucket := None;
    var found := RecommendByText(world.queryVector, excludeIds, world.textNeighbours);
    if found != [] {
      NeighbourResultsScored(world.textNeighbours, excludeIds, 20);
      var top := RankTop(found, Some(userQuery), 3, ranker);
      bucket := Some(top);
    }
  }

  /**
   * Steps 1 to 3 of a recommendation turn: the rule-based search, then the
   * personalised search when there is a context, then the text search only when both
   * came back empty; NoMatch when all three are empty.
   */
  method FillBuckets(userQuery: string, filters: Filters, excludeIds: seq<Id>, ctx: Context, users: seq<User>,
                     world: World, ranker: Ranker)
      returns (r: Outcome)
    ensures r.Raised? <==> RulePool(filters, excludeIds, ctx, users, world).None?
    ensures r.NoMatch? <==>
              && RulePool(filters, excludeIds, ctx, users, world) == Some([])
              && PersonalPool(excludeIds, ctx, users, world) == [] && TextPool(excludeIds, world) == []
    ensures r.Found? ==> Filled(r.buckets, RulePool(filters, excludeIds, ctx, users, world).value,
      PersonalPool(excludeIds, ctx, users, world), TextPool(excludeIds, world),
      Ordering(ranker, QueryText(Some(userQuery))))
  {
    var raised, ruleBased := RuleBasedBucket(userQuery, filters, excludeIds, ctx, users, world, ranker);
    if raised {
      return Raised;
    }
    var personalized := PersonalizedBucket(userQuery, excludeIds, ctx, users, world, ranker);
    var textSearch: Option<seq<Candidate>> := None;
    if ruleBased.None? && personalized.None? {
      textSearch := TextSearchBucket(userQuery, excludeIds, world, ranker);
      if textSearch.None? {
        return NoMatch;
      }
    }
    r := Found(Buckets(ruleBased, personalized, textSearch));
  }

  // ---------------------------------------------------------------------------
  // generate_reply
  // ---------------------------------------------------------------------------

  /** A reply: the text, the buckets, the filters used and the action. */
  datatype Reply = Reply(text: string, buckets: Buckets, filters: Filters, action: string)

  const NoKeyText: string := "⚠️ Groq API Key가 설정되지 않았습니다."
  const NeedNickname: string := "⚠️ 플레이 기록을 관리하려면 닉네임 입력이 필요합니다."
  const NoThemeName: string := "⚠️ 테마 이름을 인식하지 못했습니다."
  const NoMatchText: string := "죄송합니다. 조건에 맞는 테마를 찾지 못했습니다."
  const ReplyFailed: string := "죄송합니다. 답변 생성 중 오류가 발생했습니다.\n\n🛠️ **디버깅 정보:**\n"

  /** The actions that manage play history instead of recommending. */
  predicate IsPlayAction(action: string)
  {
    action == "played_check" || action == "not_played_check"
  }

  /** `f"⚠️ '{theme}' 테마를 찾을 수 없습니다. ..."`. */
  function ThemeNotFound(theme: string): string
  {
    "⚠️ '" + theme + "' 테마를 찾을 수 없습니다. 지역 정보가 정확한지 확인해주세요."
  }

  /** `f"{msg} ({loc if loc else ''} {theme})"`. */
  function Annotated(msg: string, location: Option<string>, theme: string): string
  {
    msg + " (" + (if location.Some? then location.value else "") + " " + theme + ")"
  }

  /**
   * The answer text: the model's reply when it is non-empty and reports no error;
   * otherwise an apology followed by the error (or "No response returned").
   */
  function ReplyText(c: Completion): (t: string)
    ensures c.Completed? && c.content.Some? && c.content.value != [] && !Contains(c.content.value, "Error:") ==>
      t == c.content.value
    ensures c.Completed? && c.content.Some? && c.content.value != [] && Contains(c.content.value, "Error:") ==>
      t == ReplyFailed + c.content.value
    ensures c.ApiFailure? ==> t == ReplyFailed + CallLlm(true, c).value
    ensures c.Completed? && (c.content.None? || c.content.value == []) ==> t == ReplyFailed + "No response returned"
  {
    var s := CallLlm(true, c);
    if s.None? || s.value == [] then ReplyFailed + "No response returned"
    else if Contains(s.value, "Error:") then ReplyFailed + s.value
    else s.value
  }

  /**
   * What a play-history turn answers and leaves in the users collection. It needs a
   * nickname, then a theme name, then a theme that resolves to a non-zero id; each
   * earlier stop answers with its message and leaves the users as they were. Past
   * them, the history is updated as update_play_history does (a store failure
   * included), and the store's message is returned with the location and theme.
   */
  predicate PlayTurnDone(text: string, before: seq<User>, after: seq<User>, userContext: Option<string>,
                         intent: Intent, action: string, world: World)
  {
    if !Given(userContext) then text == NeedNickname && after == before
    else if intent.theme.None? || intent.theme.value == [] then text == NoThemeName && after == before
    else
      var theme := intent.theme.value;
      var tid := if world.catalog.None? then None
                 else Lookup(Scope(world.catalog.value, intent.location), RemoveSpaces(theme));
      if tid.None? || tid.value == 0 then text == ThemeNotFound(theme) && after == before
      else
        && text == Annotated(UpdateMessage(before, userContext.value, action, world.updateFailure), intent.location, theme)
        && after == Updated(before, userContext.value, tid.value, action, world.updateFailure)
  }

  /** Marking the same theme played in two turns leaves the users as one turn does. */
  lemma PlayedTwiceIsOnce(t1: string, t2: string, u0: seq<User>, u1: seq<User>, u2: seq<User>,
                          userContext: Option<string>, intent: Intent, world: World)
    requires PlayTurnDone(t1, u0, u1, userContext, intent, "played_check", world)
    requires PlayTurnDone(t2, u1, u2, userContext, intent, "played_check", world)
    ensures u2 == u1
  {
    if Given(userContext) && intent.theme.Some? && intent.theme.value != [] && world.catalog.Some? {
      var tid := Lookup(Scope(world.catalog.value, intent.location), RemoveSpaces(intent.theme.value));
      var nickname := userContext.value;
      if tid.Some? && tid.value != 0 && world.updateFailure.None? && FindUser(u0, nickname).Some? {
        var k := FindUser(u0, nickname).value;
        var x := Int(tid.value);
        FindUserIgnoresPlayed(u0, k, ArrayUnion(u0[k].played, x), nickname);
        ArrayUnionIdempotent(u0[k].played, x);
        assert u2 == u1[k := u1[k].(played := ArrayUnion(u1[k].played, x))];
      }
    }
  }

  /** The bot: whether it has a language-model client, and the users collection it updates. */
  class Engine {
    const hasClient: bool
    const store: UserStore

    constructor(hasClient: bool, store: UserStore)
      ensures this.hasClient == hasClient && this.store == store
    {
      this.hasClient := hasClient;
      this.store := store;
    }

    /**
     * The play-history branch, as PlayTurnDone describes it. Buckets and filters are
     * always empty.
     */
    method PlayHistoryTurn(userContext: Option<string>, intent: Intent, action: string, world: World)
        returns (r: Reply)
      requires IsPlayAction(action)
      modifies store
      ensures r.buckets == NoBuckets && r.filters == NoFilters && r.action == action
      ensures PlayTurnDone(r.text, old(store.users), store.users, userContext, intent, action, world)
    {
      if !Given(userContext) {
        return Reply(NeedNickname, NoBuckets, NoFilters, action);
      }
      if intent.theme.None? || intent.theme.value == [] {
        return Reply(NoThemeName, NoBuckets, NoFilters, action);
      }
      var theme := intent.theme.value;
      var tid := FindThemeId(intent.location, theme, world.catalog);
      if tid.None? || tid.value == 0 {
        return Reply(ThemeNotFound(theme), NoBuckets, NoFilters, action);
      }
      var msg := store.UpdatePlayHistory(userContext.value, tid.value, action, world.updateFailure);
      r := Reply(Annotated(msg, intent.location, theme), NoBuckets, NoFilters, action);
    }

    /**
     * `generate_reply`: without a client, an error reply before anything else; a
     * play-history action goes to the play-history branch; any other action is a
     * recommendation turn for the participants, with the filters and exclusions
     * `Carried` chooses. None where search_themes raises.
     */
    method GenerateReply(userQuery: string, userContext: Option<string>, session: Session,
                         intentCompletion: Completion, parse: string -> Option<Intent>,
                         world: World, replyCompletion: Completion)
        returns (r: Option<Reply>)
      modifies store
      ensures !hasClient ==> r == Some(Reply(NoKeyText, NoBuckets, NoFilters, "error")) && store.users == old(store.users)
      ensures hasClient ==>
        var intent := AnalyzeUserIntent(true, intentCompletion, parse);
        var action := ActionOf(intent);
        && (IsPlayAction(action) ==>
              && r.Some? && r.value.buckets == NoBuckets && r.value.filters == NoFilters && r.value.action == action
              && PlayTurnDone(r.value.text, old(store.users), store.users, userContext, intent, action, world))
        && (!IsPlayAction(action) ==>
              var carried := Carried(action, intent, session);
              var ctx := FinalContext(BaseUsers(userContext) + Added(BaseUsers(userContext), intent.mentionedUsers));
              var rule := RulePool(carried.0, carried.1, ctx, old(store.users), world);
              var personal := PersonalPool(carried.1, ctx, old(store.users), world);
              var text := TextPool(carried.1, world);
              && store.users == old(store.users)
              && (r.None? <==> rule.None?)
              && (r.Some? ==> r.value.action == action && r.value.filters == carried.0)
              && (r.Some? && rule.value == [] && personal == [] && text == [] ==>
                    r.value == Reply(NoMatchText, NoBuckets, carried.0, action))
              && (r.Some? && (rule.value != [] || personal != [] || text != []) ==>
                    && r.value.text == ReplyText(replyCompletion)
                    && Filled(r.value.buckets, rule.value, personal, text, Ordering(CurrentRanker, QueryText(Some(userQuery))))))
    {
      if !hasClient {
        return Some(Reply(NoKeyText, NoBuckets, NoFilters, "error"));
      }
      var intent := AnalyzeUserIntent(true, intentCompletion, parse);
      var action := ActionOf(intent);
      if IsPlayAction(action) {
        var reply := PlayHistoryTurn(userContext, intent, action, world);
        return Some(reply);
      }
      var current := Participants(userContext, intent.mentionedUsers);
      var ctx := FinalContext(current);
      var carried := Carried(action, intent, session);
      var outcome := FillBuckets(userQuery, carried.0, carried.1, ctx, store.users, world, CurrentRanker);
      match outcome
      case Raised => r := None;
      case NoMatch => r := Some(Reply(NoMatchText, NoBuckets, carried.0, action));
      case Found(buckets) => r := Some(Reply(ReplyText(replyCompletion), buckets, carried.0, action));
    }
  }
}
