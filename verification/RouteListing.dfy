/**
 * The routes a user is told about, and how that listing relates to what the
 * authentication middleware lets through.
 */
module RouteListing {
  import opened AccessRules
  import opened LikePatterns
  import opened ObjectKeys
  import opened Wrappers

  datatype RouteInfo = RouteInfo(httpMethod: HttpMethod, path: string, category: string, description: string)

  // Not yet expired, as the effective-rule query asks; a rule counts in its last instant.
  predicate Effective(expiresAt: Option<int>, now: int) {
    expiresAt.None? || expiresAt.value >= now
  }

  predicate ListsRoute(pattern: string, allowed: HttpMethod, route: RouteInfo) {
    StartsWith(route.path, pattern) && (route.httpMethod == allowed || allowed == ALL)
  }

  // The (pattern, method) pairs of the user's effective rules.
  function EffectiveRules(rules: Rules, user: Uuid, now: int): set<(string, HttpMethod)> {
    set key | key in rules && key.user == user && Effective(rules[key].expiresAt, now) :: (key.pattern, key.httpMethod)
  }

  predicate IsListed(rules: set<(string, HttpMethod)>, route: RouteInfo) {
    exists rule :: rule in rules && ListsRoute(rule.0, rule.1, route)
  }

  function RetainOne(route: RouteInfo, rules: set<(string, HttpMethod)>, listed: bool): seq<RouteInfo> {
    if IsListed(rules, route) == listed then [route] else []
  }

  // Vec::retain, of the listed routes or of the others.
  function Retain(routes: seq<RouteInfo>, rules: set<(string, HttpMethod)>, listed: bool): seq<RouteInfo> {
    if routes == [] then []
    else Retain(routes[..|routes| - 1], rules, listed) + RetainOne(routes[|routes| - 1], rules, listed)
  }

  lemma RetainOneMore(routes: seq<RouteInfo>, i: nat, rules: set<(string, HttpMethod)>, listed: bool)
    requires i < |routes|
    ensures Retain(routes[..i + 1], rules, listed) ==
      Retain(routes[..i], rules, listed) + RetainOne(routes[i], rules, listed)
  {
    assert routes[..i + 1][..i] == routes[..i];
  }

  /** get_user_effective_routes: the registered routes under some effective rule. */
  method GetUserEffectiveRoutes(store: RuleStore, registry: seq<RouteInfo>, user: Uuid, now: int)
    returns (routes: seq<RouteInfo>)
    ensures routes == Retain(registry, EffectiveRules(store.rules, user, now), true)
  {
    var rules := EffectiveRules(store.rules, user, now);
    routes := [];
    for i := 0 to |registry|
      invariant routes == Retain(registry[..i], rules, true)
    {
      RetainOneMore(registry, i, rules, true);
      if exists rule :: rule in rules && ListsRoute(rule.0, rule.1, registry[i]) {
        routes := routes + [registry[i]];
      }
    }
    assert registry[..|registry|] == registry;
  }

  /** do_filter_with_user_exists_rules: the routes that no effective rule lists. */
  method FilterWithUserExistsRules(store: RuleStore, registry: seq<RouteInfo>, user: Uuid, now: int)
    returns (routes: seq<RouteInfo>)
    ensures routes == Retain(registry, EffectiveRules(store.rules, user, now), false)
  {
    var rules := EffectiveRules(store.rules, user, now);
    routes := [];
    for i := 0 to |registry|
      invariant routes == Retain(registry[..i], rules, false)
    {
      RetainOneMore(registry, i, rules, false);
      if forall rule :: rule in rules ==>
           !StartsWith(registry[i].path, rule.0) || (registry[i].httpMethod != rule.1 && rule.1 != ALL) {
        routes := routes + [registry[i]];
      }
    }
    assert registry[..|registry|] == registry;
  }

  lemma {:induction false} Retained(routes: seq<RouteInfo>, rules: set<(string, HttpMethod)>, listed: bool,
                                    route: RouteInfo)
    ensures route in Retain(routes, rules, listed) <==> route in routes && IsListed(rules, route) == listed
    decreases |routes|
  {
    if routes != [] {
      var init, last := routes[..|routes| - 1], routes[|routes| - 1];
      Retained(init, rules, listed, route);
      assert routes == init + [last];
    }
  }

  lemma SplitOneMore(a: seq<RouteInfo>, b: seq<RouteInfo>, init: seq<RouteInfo>, last: RouteInfo,
                     rules: set<(string, HttpMethod)>)
    requires multiset(a) + multiset(b) == multiset(init)
    ensures multiset(a + RetainOne(last, rules, true)) + multiset(b + RetainOne(last, rules, false)) ==
      multiset(init + [last])
  {
    if IsListed(rules, last) {
      assert b + [] == b;
    } else {
      assert a + [] == a;
    }
  }

  /** What is kept stays in order: at increasing places of the registry. */
  lemma {:induction false} RetainedInOrder(routes: seq<RouteInfo>, rules: set<(string, HttpMethod)>, listed: bool)
    returns (places: seq<nat>)
    ensures |places| == |Retain(routes, rules, listed)|
    ensures forall i :: 0 <= i < |places| ==>
      places[i] < |routes| && routes[places[i]] == Retain(routes, rules, listed)[i]
    ensures forall i, j :: 0 <= i < j < |places| ==> places[i] < places[j]
    decreases |routes|
  {
    places := [];
    if routes != [] {
      places := RetainedInOrder(routes[..|routes| - 1], rules, listed);
      if IsListed(rules, routes[|routes| - 1]) == listed {
        places := places + [|routes| - 1];
      }
    }
  }

  /** Listing and filtering split the routes: each goes to one side, as often as it occurs. */
  lemma {:induction false} ListingAndFilterPartition(routes: seq<RouteInfo>, rules: set<(string, HttpMethod)>)
    ensures multiset(Retain(routes, rules, true)) + multiset(Retain(routes, rules, false)) == multiset(routes)
    decreases |routes|
  {
    if routes != [] {
      var init, last := routes[..|routes| - 1], routes[|routes| - 1];
      ListingAndFilterPartition(init, rules);
      SplitOneMore(Retain(init, rules, true), Retain(init, rules, false), init, last, rules);
      LastSplitOff(routes);
    }
  }

  lemma LastSplitOff(routes: seq<RouteInfo>)
    requires routes != []
    ensures routes == routes[..|routes| - 1] + [routes[|routes| - 1]]
  {
  }

  // The route's path, or the same without its last slash.
  ghost predicate IsFormOf(path: string, route: RouteInfo) {
    path == route.path || (path + "/" == route.path && (path == "" || path[|path| - 1] != '/'))
  }

  // What a valid pattern matches: wildcard prefixes, and itself without its last slash.
  ghost predicate Reaches(pattern: string, path: string) {
    WildPrefix(path, pattern) || pattern == path + "/"
  }

  lemma NoDoubleSlash(pattern: string, path: string)
    requires ValidPattern(pattern) && path != "" && path[|path| - 1] == '/'
    ensures pattern != path + "/"
  {
    assert pattern[|pattern| - 2] != '/';
    assert (path + "/")[|path| - 1] == '/';
  }

  lemma MatchesPathIff(pattern: string, path: string)
    requires ValidPattern(pattern)
    ensures MatchesPath(pattern, path) <==> Reaches(pattern, path)
  {
    ValidPatternFacts(pattern);
    LikeIsWildPrefix(path, pattern);
    assert pattern == pattern[..|pattern| - 1] + "/";
    if pattern == path + "/" {
      assert pattern[..|pattern| - 1] == path;
    }
  }

  lemma SameName(a: HttpMethod, b: HttpMethod)
    requires a.AsStr() == b.AsStr() || b == ALL
    ensures a == b || b == ALL
  {
    if b != ALL {
      assert a.AsStr()[0] == b.AsStr()[0] && a.AsStr()[1] == b.AsStr()[1];
    }
  }

  // A live rule of the user that lets this path of the route through.
  ghost predicate LetsThrough(rules: Rules, key: RuleKey, user: Uuid, route: RouteInfo, path: string, t: int) {
    && key in rules && key.user == user && (key.httpMethod == ALL || key.httpMethod == route.httpMethod)
    && Live(rules[key].expiresAt, t) && Reaches(key.pattern, path)
  }

  /** Exactly when a path is admitted with a route's method. */
  lemma AdmittedIff(rules: Rules, user: Uuid, route: RouteInfo, path: string, t: int)
    requires ValidRules(rules)
    ensures Admitted(rules, user, path, route.httpMethod.AsStr(), t) <==>
      StartsWith(path, "/api/user/") || exists key :: LetsThrough(rules, key, user, route, path, t)
  {
    var name := route.httpMethod.AsStr();
    BasicIsUserArea(path, name);
    forall key | key in rules
      ensures RuleAdmits(key, rules[key].expiresAt, user, path, name, t) <==>
        LetsThrough(rules, key, user, route, path, t)
    {
      MatchesPathIff(key.pattern, path);
      if MatchesMethod(key.httpMethod, name) {
        SameName(route.httpMethod, key.httpMethod);
      }
    }
    if exists key :: LetsThrough(rules, key, user, route, path, t) {
      var key :| LetsThrough(rules, key, user, route, path, t);
      assert RuleAdmits(key, rules[key].expiresAt, user, path, name, t);
    }
  }

  /** The same for a route outside the user area that ends in a slash: wildcard prefixes alone. */
  lemma AdmittedRouteIff(rules: Rules, user: Uuid, route: RouteInfo, t: int)
    requires ValidRules(rules)
    requires route.path != "" && route.path[|route.path| - 1] == '/' && !StartsWith(route.path, "/api/user/")
    ensures Admitted(rules, user, route.path, route.httpMethod.AsStr(), t) <==>
      exists key :: key in rules && key.user == user
        && (key.httpMethod == ALL || key.httpMethod == route.httpMethod)
        && Live(rules[key].expiresAt, t) && WildPrefix(route.path, key.pattern)
  {
    AdmittedIff(rules, user, route, route.path, t);
    forall key | key in rules ensures key.pattern != route.path + "/" {
      NoDoubleSlash(key.pattern, route.path);
    }
    if Admitted(rules, user, route.path, route.httpMethod.AsStr(), t) {
      var key :| LetsThrough(rules, key, user, route, route.path, t);
      assert WildPrefix(route.path, key.pattern);
    }
    if key :| key in rules && key.user == user && (key.httpMethod == ALL || key.httpMethod == route.httpMethod)
              && Live(rules[key].expiresAt, t) && WildPrefix(route.path, key.pattern) {
      assert LetsThrough(rules, key, user, route, route.path, t);
    }
  }

  // A rule that lists the route, and one that does so without expiring in this instant.
  ghost predicate ListsIt(rules: Rules, key: RuleKey, user: Uuid, route: RouteInfo, t: int) {
    key in rules && key.user == user && Effective(rules[key].expiresAt, t)
      && ListsRoute(key.pattern, key.httpMethod, route)
  }

  ghost predicate ListsItLive(rules: Rules, key: RuleKey, user: Uuid, route: RouteInfo, t: int) {
    ListsIt(rules, key, user, route, t) && rules[key].expiresAt != Some(t)
  }

  lemma ListedIff(rules: Rules, user: Uuid, route: RouteInfo, t: int)
    ensures IsListed(EffectiveRules(rules, user, t), route) <==> exists key :: ListsIt(rules, key, user, route, t)
  {
    if IsListed(EffectiveRules(rules, user, t), route) {
      var rule :| rule in EffectiveRules(rules, user, t) && ListsRoute(rule.0, rule.1, route);
      var key :| key in rules && key.user == user && Effective(rules[key].expiresAt, t)
        && (key.pattern, key.httpMethod) == rule;
      assert ListsIt(rules, key, user, route, t);
    }
    if key :| ListsIt(rules, key, user, route, t) {
      assert (key.pattern, key.httpMethod) in EffectiveRules(rules, user, t);
    }
  }

  lemma ListingLetsThrough(rules: Rules, key: RuleKey, user: Uuid, route: RouteInfo, path: string, t: int)
    requires ValidRules(rules) && ListsItLive(rules, key, user, route, t) && IsFormOf(path, route)
    ensures LetsThrough(rules, key, user, route, path, t)
  {
    if path != route.path && |key.pattern| == |route.path| {
      assert key.pattern == path + "/";
    }
  }

  /**
   * Listed routes work: of a route that get_user_effective_routes lists, each form, with
   * its last slash or without, is admitted unless every rule that lists it expires in
   * this very instant.
   */
  lemma ListedRouteIsAdmitted(rules: Rules, user: Uuid, route: RouteInfo, path: string, t: int)
    requires ValidRules(rules) && IsFormOf(path, route)
    requires IsListed(EffectiveRules(rules, user, t), route)
    ensures Admitted(rules, user, path, route.httpMethod.AsStr(), t)
      || forall key :: ListsIt(rules, key, user, route, t) ==> rules[key].expiresAt == Some(t)
  {
    AdmittedIff(rules, user, route, path, t);
    forall key | ListsIt(rules, key, user, route, t) && rules[key].expiresAt != Some(t)
      ensures Admitted(rules, user, path, route.httpMethod.AsStr(), t)
    {
      ListingLetsThrough(rules, key, user, route, path, t);
    }
  }

  /**
   * And exactly then, where no pattern has the wildcard '_': outside the user area both
   * forms of a route are admitted if and only if a rule that does not expire in this
   * instant lists it. What is admitted is therefore listed.
   */
  lemma AdmittedIffListedLive(rules: Rules, user: Uuid, route: RouteInfo, path: string, t: int)
    requires ValidRules(rules) && forall key :: key in rules ==> '_' !in key.pattern
    requires route.path != "" && route.path[|route.path| - 1] == '/' && IsFormOf(path, route)
    requires !StartsWith(path, "/api/user/")
    ensures Admitted(rules, user, path, route.httpMethod.AsStr(), t) <==>
      exists key :: ListsItLive(rules, key, user, route, t)
    ensures Admitted(rules, user, path, route.httpMethod.AsStr(), t) ==> IsListed(EffectiveRules(rules, user, t), route)
  {
    AdmittedIff(rules, user, route, path, t);
    ListedIff(rules, user, route, t);
    if key :| LetsThrough(rules, key, user, route, path, t) {
      LettingThroughLists(rules, key, user, route, path, t);
      assert ListsIt(rules, key, user, route, t);
    }
    if key :| ListsItLive(rules, key, user, route, t) {
      ListingLetsThrough(rules, key, user, route, path, t);
    }
  }

  lemma LettingThroughLists(rules: Rules, key: RuleKey, user: Uuid, route: RouteInfo, path: string, t: int)
    requires ValidRules(rules) && LetsThrough(rules, key, user, route, path, t) && '_' !in key.pattern
    requires route.path != "" && route.path[|route.path| - 1] == '/' && IsFormOf(path, route)
    ensures ListsItLive(rules, key, user, route, t)
  {
    NoDoubleSlash(key.pattern, route.path);
    assert path <= route.path;
    if WildPrefix(path, key.pattern) {
      assert forall i :: 0 <= i < |key.pattern| ==> key.pattern[i] in key.pattern && key.pattern[i] == path[i];
      assert key.pattern <= path;
    }
  }

  /** In the instant a rule expires its routes are still listed and already refused. */
  lemma ListedButRefusedAtExpiry(user: Uuid, ruleId: Uuid, t: int)
    ensures
      var rules: Rules := map[RuleKey(user, "/api/archive/", GET) := Rule(ruleId, Some(t), None, 0, None)];
      var route := RouteInfo(GET, "/api/archive/", "", "");
      && ValidRules(rules)
      && IsListed(EffectiveRules(rules, user, t), route)
      && !Admitted(rules, user, route.path, "GET", t)
  {
    var key := RuleKey(user, "/api/archive/", GET);
    var rules: Rules := map[key := Rule(ruleId, Some(t), None, 0, None)];
    assert (key.pattern, key.httpMethod) in EffectiveRules(rules, user, t) by {
      assert key in rules && key.user == user && Effective(rules[key].expiresAt, t);
    }
    BasicIsUserArea("/api/archive/", "GET");
    assert "/api/archive/"[5] != "/api/user/"[5];
  }
}
