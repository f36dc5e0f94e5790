/**
 * The single-file variant of the bot engine: its language-model helper returns None
 * on failure, its intent analysis falls back to `{"action": "recommend"}`, it answers
 * a "how do I record a theme" inquiry, and it records several themes in one turn.
 * Its recommendation turn is the bot engine's, ranked by the older sort.
 */
module App {

  import opened Wrappers
  import opened Text
  import opened Records
  import opened Utils
  import opened Recommenders
  import opened BotEngine

  // ---------------------------------------------------------------------------
  // The language model
  // ---------------------------------------------------------------------------

  /** `_call_llm`: the completion's content; None without a client or when the call fails. */
  function AppCallLlm(hasClient: bool, c: Completion): (r: Option<string>)
    ensures !hasClient || c.ApiFailure? ==> r.None?
    ensures hasClient && c.Completed? ==> r == c.content
  {
    if hasClient && c.Completed? then c.content else None
  }

  /**
   * `analyze_user_intent`: `{}` without a client; `{"action": "recommend"}` when the
   * call gives nothing or its text does not parse; otherwise the parsed intent.
   */
  function AppAnalyzeUserIntent(hasClient: bool, c: Completion, parse: string -> Option<Intent>): (r: Intent)
    ensures !hasClient ==> r == NoIntent
    ensures hasClient && (c.ApiFailure? || c.content.None? || c.content.value == []) ==> r == Fallback
    ensures hasClient && c.Completed? && c.content.Some? && c.content.value != [] ==>
      r == (if parse(c.content.value).None? then Fallback else parse(c.content.value).value)
  {
    if !hasClient then NoIntent
    else
      var s := AppCallLlm(true, c);
      if s.None? || s.value == [] then Fallback
      else
        match parse(s.value)
        case None => Fallback
        case Some(i) => i
  }

  /**
   * Unlike the bot engine, this variant does not screen the model's text for
   * "Error:": a parseable answer holding it is taken as the intent.
   */
  lemma ErrorTextIsParsedHere(c: Completion, parse: string -> Option<Intent>)
    requires c.Completed? && c.content.Some? && c.content.value != []
    requires Contains(c.content.value, "Error:") && parse(c.content.value).Some?
    ensures AppAnalyzeUserIntent(true, c, parse) == parse(c.content.value).value
    ensures AnalyzeUserIntent(true, c, parse) == Fallback
  {
  }

  // ---------------------------------------------------------------------------
  // Recording several themes in one turn
  // ---------------------------------------------------------------------------

  const InquiryText: string := "테마를 [지역, 테마명] 형식으로 알려주세요."
  const AppNeedNickname: string := "⚠️ 닉네임 입력이 필요합니다."
  const NotFoundNote: string := "⚠️ 테마 못 찾음"

  /** The actions handled by the play-history branch. */
  predicate IsAppPlayAction(action: string)
  {
    action == "played_check" || action == "not_played_check" || action == "played_check_inquiry"
  }

  /** The items to record: the intent's list, or one item made from its location and theme. */
  function Items(intent: Intent): (r: seq<Item>)
    ensures intent.items != [] ==> r == intent.items
    ensures intent.items == [] && intent.theme.Some? && intent.theme.value != [] ==>
      r == [Item(intent.location, intent.theme)]
    ensures intent.items == [] && (intent.theme.None? || intent.theme.value == []) ==> r == []
  {
    if intent.items == [] && intent.theme.Some? && intent.theme.value != [] then [Item(intent.location, intent.theme)]
    else intent.items
  }

  /** The item names a theme. */
  predicate Themed(item: Item)
  {
    item.theme.Some? && item.theme.value != []
  }

  /** The id find_theme_id gives for the item's theme. */
  function Resolve(item: Item, catalog: Option<seq<ThemeDoc>>): Option<int>
    requires Themed(item)
  {
    if catalog.None? then None else Lookup(Scope(catalog.value, item.location), RemoveSpaces(item.theme.value))
  }

  /** The theme resolved to a usable (non-zero) id. */
  predicate Resolved(item: Item, catalog: Option<seq<ThemeDoc>>)
    requires Themed(item)
  {
    Resolve(item, catalog).Some? && Resolve(item, catalog).value != 0
  }

  /** The result line of one themed item: the store's message, or the not-found note. */
  function Line(item: Item, catalog: Option<seq<ThemeDoc>>, msg: string): string
    requires Themed(item)
  {
    "- " + item.theme.value + ": " + (if Resolved(item, catalog) then msg else NotFoundNote)
  }

  /**
   * The items that name a theme: exactly those, no more often than they occur; all of
   * a list whose items all name one, none of a list where none does; with
   * ThemedItemsConcat, in their order.
   */
  function ThemedItems(items: seq<Item>): (r: seq<Item>)
    ensures forall k :: 0 <= k < |r| ==> Themed(r[k])
    ensures forall k :: 0 <= k < |r| ==> r[k] in items
    ensures forall k :: 0 <= k < |items| && Themed(items[k]) ==> items[k] in r
    ensures |r| <= |items|
    ensures (forall k :: 0 <= k < |items| ==> Themed(items[k])) ==> r == items
    ensures (forall k :: 0 <= k < |items| ==> !Themed(items[k])) ==> r == []
  {
    if items == [] then []
    else
      var init := items[..|items| - 1];
      var last := items[|items| - 1];
      assert items == init + [last];
      ThemedItems(init) + (if Themed(last) then [last] else [])
  }

  /** Selecting the themed items works piece by piece, so it keeps their order. */
  lemma {:induction false} ThemedItemsConcat(a: seq<Item>, b: seq<Item>)
    ensures ThemedItems(a + b) == ThemedItems(a) + ThemedItems(b)
  {
    if b == [] {
      assert a + b == a;
    } else {
      var init, last := b[..|b| - 1], b[|b| - 1];
      var tail := if Themed(last) then [last] else [];
      calc {
        ThemedItems(a + b);
        { var ab := a + b;
          assert ab[..|ab| - 1] == a + init && ab[|ab| - 1] == last; }
        ThemedItems(a + init) + tail;
        { ThemedItemsConcat(a, init); }
        (ThemedItems(a) + ThemedItems(init)) + tail;
        ThemedItems(a) + (ThemedItems(init) + tail);
        ThemedItems(a) + ThemedItems(b);
      }
    }
  }

  /** The lines of the reply, item by item; `msg` is the store's message for an update. */
  function Lines(items: seq<Item>, catalog: Option<seq<ThemeDoc>>, msg: string): seq<string>
  {
    if items == [] then []
    else
      var last := items[|items| - 1];
      Lines(items[..|items| - 1], catalog, msg) + (if Themed(last) then [Line(last, catalog, msg)] else [])
  }

  /** The resolved ids, in item order. */
  function ResolvedIds(items: seq<Item>, catalog: Option<seq<ThemeDoc>>): seq<int>
  {
    if items == [] then []
    else
      var last := items[|items| - 1];
      ResolvedIds(items[..|items| - 1], catalog) + (if Themed(last) && Resolved(last, catalog) then [Resolve(last, catalog).value] else [])
  }

  /** The users collection after one update per resolved id, in order. */
  function AppliedAll(users: seq<User>, nickname: string, ids: seq<int>, action: string, failure: Option<string>)
    : seq<User>
  {
    if ids == [] then users
    else Updated(AppliedAll(users, nickname, ids[..|ids| - 1], action, failure), nickname, ids[|ids| - 1], action, failure)
  }

  /**
   * Every item with a theme contributes exactly one line, in order, and the line of
   * an item whose theme was not found carries the not-found note; items without a
   * theme contribute nothing.
   */
  lemma {:induction false} ThemedItemsReported(items: seq<Item>, catalog: Option<seq<ThemeDoc>>, msg: string)
    ensures |Lines(items, catalog, msg)| == |ThemedItems(items)|
    ensures forall k :: 0 <= k < |ThemedItems(items)| ==>
      Lines(items, catalog, msg)[k] == Line(ThemedItems(items)[k], catalog, msg)
    ensures forall k :: 0 <= k < |ThemedItems(items)| && !Resolved(ThemedItems(items)[k], catalog) ==>
      Lines(items, catalog, msg)[k] == "- " + ThemedItems(items)[k].theme.value + ": " + NotFoundNote
  {
    if items != [] {
      ThemedItemsReported(items[..|items| - 1], catalog, msg);
    }
  }

  /** The updates leave every nickname finding the same user. */
  lemma {:induction false} AppliedKeepsUsers(users: seq<User>, nickname: string, ids: seq<int>, action: string,
                                              failure: Option<string>, name: string)
    ensures |AppliedAll(users, nickname, ids, action, failure)| == |users|
    ensures FindUser(AppliedAll(users, nickname, ids, action, failure), name) == FindUser(users, name)
  {
    if ids != [] {
      var before := AppliedAll(users, nickname, ids[..|ids| - 1], action, failure);
      AppliedKeepsUsers(users, nickname, ids[..|ids| - 1], action, failure, name);
      AppliedKeepsUsers(users, nickname, ids[..|ids| - 1], action, failure, nickname);
      var id := ids[|ids| - 1];
      if failure.None? && FindUser(before, nickname).Some? {
        var k := FindUser(before, nickname).value;
        FindUserIgnoresPlayed(before, k, Revised(before[k].played, id, action), name);
      }
    }
  }

  /**
   * After recording items as played, the user holds every resolved theme; after
   * recording them as not played, the user holds none of them.
   */
  lemma {:induction false} ItemsApplied(users: seq<User>, nickname: string, ids: seq<int>, action: string)
    requires FindUser(users, nickname).Some?
    ensures var k := FindUser(users, nickname).value;
      var after := AppliedAll(users, nickname, ids, action, None);
      && |after| == |users|
      && (action == "played_check" ==> forall id :: id in ids ==> Int(id) in after[k].played)
      && (action == "not_played_check" ==> forall id :: id in ids ==> Int(id) !in after[k].played)
  {
    var k := FindUser(users, nickname).value;
    AppliedKeepsUsers(users, nickname, ids, action, None, nickname);
    if ids != [] {
      var init := ids[..|ids| - 1];
      ItemsApplied(users, nickname, init, action);
      AppliedKeepsUsers(users, nickname, init, action, None, nickname);
      var before := AppliedAll(users, nickname, init, action, None);
      assert forall id :: id in ids ==> id in init || id == ids[|ids| - 1];
      assert AppliedAll(users, nickname, ids, action, None)[k].played == Revised(before[k].played, ids[|ids| - 1], action);
    }
  }

  /**
   * What a play-history turn of the single-file variant answers and leaves in the
   * users collection: the inquiry gets its fixed instructions before any identity
   * check and changes nothing; without a nickname the guidance message and no change;
   * otherwise one line per themed item, joined by newlines, with every resolved
   * theme recorded in item order.
   */
  predicate AppPlayTurnDone(text: Option<string>, before: seq<User>, after: seq<User>, userContext: Option<string>,
                            intent: Intent, action: string, world: World)
  {
    if action == "played_check_inquiry" then text == Some(InquiryText) && after == before
    else if !Given(userContext) then text == Some(AppNeedNickname) && after == before
    else
      && text == Some(Join(Lines(Items(intent), world.catalog,
                                 UpdateMessage(before, userContext.value, action, world.updateFailure)), '\n'))
      && after == AppliedAll(before, userContext.value, ResolvedIds(Items(intent), world.catalog),
                             action, world.updateFailure)
  }

  /** The theme-recording engine of the single-file variant. */
  class AppEngine {
    const hasClient: bool
    const store: UserStore

    constructor(hasClient: bool, store: UserStore)
      ensures this.hasClient == hasClient && this.store == store
    {
      this.hasClient := hasClient;
      this.store := store;
    }

    /**
     * The loop over the items: each themed item is looked up, recorded when found,
     * and reported on its own line; items without a theme are passed over.
     */
    method RecordItems(nickname: string, items: seq<Item>, action: string, world: World)
        returns (lines: seq<string>)
      modifies store
      ensures lines == Lines(items, world.catalog, UpdateMessage(old(store.users), nickname, action, world.updateFailure))
      ensures store.users == AppliedAll(old(store.users), nickname, ResolvedIds(items, world.catalog), action,
                                        world.updateFailure)
    {
      ghost var users0 := store.users;
      ghost var msg := UpdateMessage(users0, nickname, action, world.updateFailure);
      lines := [];
      var i := 0;
      while i < |items|
        invariant 0 <= i <= |items|
        invariant lines == Lines(items[..i], world.catalog, msg)
        invariant store.users == AppliedAll(users0, nickname, ResolvedIds(items[..i], world.catalog), action,
                                            world.updateFailure)
      {
        ghost var ids := ResolvedIds(items[..i], world.catalog);
        AppliedKeepsUsers(users0, nickname, ids, action, world.updateFailure, nickname);
        assert UpdateMessage(store.users, nickname, action, world.updateFailure) == msg;
        var line := RecordItem(nickname, items[i], action, world);
        assert items[..i + 1][..i] == items[..i];
        if Themed(items[i]) && Resolved(items[i], world.catalog) {
          var id := Resolve(items[i], world.catalog).value;
          assert ResolvedIds(items[..i + 1], world.catalog) == ids + [id];
          assert (ids + [id])[..|ids|] == ids;
        } else {
          assert ResolvedIds(items[..i + 1], world.catalog) == ids;
        }
        if line.Some? {
          lines := lines + [line.value];
        }
        i := i + 1;
      }
      assert items[..i] == items;
    }

    /**
     * One item of that loop: nothing for an item without a theme; otherwise its line,
     * after recording the theme when it resolves to a non-zero id.
     */
    method RecordItem(nickname: string, item: Item, action: string, world: World) returns (line: Option<string>)
      modifies store
      ensures line.Some? <==> Themed(item)
      ensures Themed(item) ==>
        line == Some(Line(item, world.catalog, UpdateMessage(old(store.users), nickname, action, world.updateFailure)))
      ensures Themed(item) && Resolved(item, world.catalog) ==>
        store.users == Updated(old(store.users), nickname, Resolve(item, world.catalog).value, action, world.updateFailure)
      ensures !(Themed(item) && Resolved(item, world.catalog)) ==> store.users == old(store.users)
    {
      if item.theme.Some? && item.theme.value != [] {
        var thm := item.theme.value;
        var tid := FindThemeId(item.location, thm, world.catalog);
        if tid.Some? && tid.value != 0 {
          var res := store.UpdatePlayHistory(nickname, tid.value, action, world.updateFailure);
          line := Some("- " + thm + ": " + res);
        } else {
          line := Some("- " + thm + ": " + NotFoundNote);
        }
      } else {
        line := None;
      }
    }

    /** The play-history branch, as AppPlayTurnDone describes it. Buckets and filters are always empty. */
    method PlayHistoryTurn(userContext: Option<string>, intent: Intent, action: string, world: World)
        returns (r: AppReply)
      requires IsAppPlayAction(action)
      modifies store
      ensures r.buckets == NoBuckets && r.filters == NoFilters && r.action == action
      ensures AppPlayTurnDone(r.text, old(store.users), store.users, userContext, intent, action, world)
    {
      if action == "played_check_inquiry" {
        return AppReply(Some(InquiryText), NoBuckets, NoFilters, action);
      }
      if !Given(userContext) {
        return AppReply(Some(AppNeedNickname), NoBuckets, NoFilters, action);
      }
      var lines := RecordItems(userContext.value, Items(intent), action, world);
      r := AppReply(Some(Join(lines, '\n')), NoBuckets, NoFilters, action);
    }

    /**
     * `generate_reply` of the single-file variant: the bot engine's turn, with the
     * inquiry and multi-item branch above, the older sort for ranking, and the model's
     * answer returned as it is (None when the call fails).
     */
    method GenerateReply(userQuery: string, userContext: Option<string>, session: Session,
                         intentCompletion: Completion, parse: string -> Option<Intent>,
                         world: World, replyCompletion: Completion)
        returns (r: Option<AppReply>)
      modifies store
      ensures !hasClient ==> r == Some(AppReply(Some(NoKeyText), NoBuckets, NoFilters, "error"))
                             && store.users == old(store.users)
      ensures hasClient ==>
        var intent := AppAnalyzeUserIntent(true, intentCompletion, parse);
        var action := ActionOf(intent);
        && (IsAppPlayAction(action) ==>
              && r.Some? && r.value.buckets == NoBuckets && r.value.filters == NoFilters && r.value.action == action
              && AppPlayTurnDone(r.value.text, old(store.users), store.users, userContext, intent, action, world))
        && (!IsAppPlayAction(action) ==>
              var carried := Carried(action, intent, session);
              var ctx := FinalContext(BaseUsers(userContext) + Added(BaseUsers(userContext), intent.mentionedUsers));
              var rule := RulePool(carried.0, carried.1, ctx, old(store.users), world);
              var personal := PersonalPool(carried.1, ctx, old(store.users), world);
              var text := TextPool(carried.1, world);
              && store.users == old(store.users)
              && (r.None? <==> rule.None?)
              && (r.Some? ==> r.value.action == action && r.value.filters == carried.0)
              && (r.Some? && rule.value == [] && personal == [] && text == [] ==>
                    r.value == AppReply(Some(NoMatchText), NoBuckets, carried.0, action))
              && (r.Some? && (rule.value != [] || personal != [] || text != []) ==>
                    && r.value.text == AppCallLlm(true, replyCompletion)
                    && Filled(r.value.buckets, rule.value, personal, text, Ordering(LegacyRanker, QueryText(Some(userQuery))))))
    {
      if !hasClient {
        return Some(AppReply(Some(NoKeyText), NoBuckets, NoFilters, "error"));
      }
      var intent := AppAnalyzeUserIntent(true, intentCompletion, parse);
      var action := ActionOf(intent);
      if IsAppPlayAction(action) {
        var reply := PlayHistoryTurn(userContext, intent, action, world);
        return Some(reply);
      }
      var current := Participants(userContext, intent.mentionedUsers);
      var ctx := FinalContext(current);
      var carried := Carried(action, intent, session);
      var outcome := FillBuckets(userQuery, carried.0, carried.1, ctx, store.users, world, LegacyRanker);
      match outcome
      case Raised => r := None;
      case NoMatch => r := Some(AppReply(Some(NoMatchText), NoBuckets, carried.0, action));
      case Found(buckets) => r := Some(AppReply(AppCallLlm(true, replyCompletion), buckets, carried.0, action));
    }
  }

  /** A reply of the single-file variant; its text is None when the answer call fails. */
  datatype AppReply = AppReply(text: Option<string>, buckets: Buckets, filters: Filters, action: string)
}
