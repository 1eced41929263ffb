/**
 * Granting through the handler, which first asks whether the pattern leads to some
 * registered route. This is what keeps '_' in patterns from doing harm: with the routes
 * this program registers, a refused grant was always covered already.
 */
module RuleRegistry {
  import opened AccessRules
  import opened Errors
  import opened LikePatterns
  import opened ObjectKeys
  import opened RouteListing
  import opened Wrappers

  // What do_filter_with_prefix keeps.
  predicate LeadsTo(pattern: string, httpMethod: HttpMethod, route: RouteInfo) {
    StartsWith(route.path, pattern) && (route.httpMethod == httpMethod || httpMethod == ALL)
  }

  /** check_api_rule_validity: some route is left after filtering. */
  method CheckApiRuleValidity(routes: seq<RouteInfo>, pattern: string, httpMethod: HttpMethod)
    returns (result: Result<(), AppError>)
    ensures result == if exists r :: r in routes && LeadsTo(pattern, httpMethod, r) then Ok(()) else Err(DataNotFound)
    ensures result.Ok? <==>
      exists r :: r in routes && pattern <= r.path && (httpMethod == ALL || r.httpMethod == httpMethod)
  {
    for i := 0 to |routes|
      invariant forall j :: 0 <= j < i ==> !LeadsTo(pattern, httpMethod, routes[j])
    {
      if LeadsTo(pattern, httpMethod, routes[i]) {
        return Ok(());
      }
    }
    result := Err(DataNotFound);
  }

  // A pattern that is a prefix of some path.
  ghost predicate Under(pattern: string, paths: set<string>) {
    exists path :: path in paths && StartsWith(path, pattern)
  }

  ghost predicate AllUnder(rules: Rules, paths: set<string>) {
    forall key :: key in rules ==> Under(key.pattern, paths)
  }

  ghost function PathsOf(routes: seq<RouteInfo>): set<string> {
    set r | r in routes :: r.path
  }

  // Two different patterns under registered paths, one of which the other's '_' matches.
  ghost predicate Collide(paths: set<string>) {
    exists p, r :: CollidingPatterns(p, r, paths)
  }

  ghost predicate CollidingPatterns(p: string, r: string, paths: set<string>) {
    && Under(p, paths) && Under(r, paths) && ValidPattern(p) && ValidPattern(r)
    && p != r && |p| == |r| && WildPrefix(p, r) && !StartsWith(RTrim(p, '/'), "/api/user/")
  }

  /**
   * grant_user_api_rule_handler after the request's own validation: a pattern that leads
   * nowhere changes nothing; every rule stored stays under the registered paths.
   */
  method GrantUserApiRule(store: RuleStore, routes: seq<RouteInfo>, req: GrantRequest, grantedBy: Uuid,
                          users: set<Uuid>, freshId: Uuid, now: int)
    returns (result: Result<ApiRuleDTO, AppError>)
    requires store.Valid() && ValidPattern(req.pattern) && freshId !in RuleIds(store.rules)
    modifies store
    ensures store.Valid()
    ensures result.Err? ==> store.rules == old(store.rules)
    ensures !(exists r :: r in routes && LeadsTo(req.pattern, req.httpMethod, r)) ==> result == Err(DataNotFound)
    ensures result.Ok? ==>
      && store.rules == Upsert(old(store.rules), req, grantedBy, freshId, now)
      && Under(req.pattern, PathsOf(routes))
      && exists r :: r in routes && req.pattern <= r.path && (req.httpMethod == ALL || r.httpMethod == req.httpMethod)
    ensures forall paths :: PathsOf(routes) <= paths && AllUnder(old(store.rules), paths) ==>
      AllUnder(store.rules, paths)
    ensures result.Err? && result.error.ApiRuleConflict? && (req.expiresAt.Some? ==> req.expiresAt.value > now) ==>
      forall paths :: PathsOf(routes) <= paths && AllUnder(old(store.rules), paths) && !Collide(paths) ==>
        AlreadyCovered(store.rules, req, now)
  {
    var checked := CheckApiRuleValidity(routes, req.pattern, req.httpMethod);
    if checked.Err? {
      return Err(checked.error);
    }
    ghost var route :| route in routes && LeadsTo(req.pattern, req.httpMethod, route);
    assert route.path in PathsOf(routes);
    result := store.Grant(req, grantedBy, users, freshId, now);
    if result.Err? && result.error.ApiRuleConflict? && (req.expiresAt.Some? ==> req.expiresAt.value > now) {
      forall paths | PathsOf(routes) <= paths && AllUnder(old(store.rules), paths) && !Collide(paths)
        ensures AlreadyCovered(store.rules, req, now)
      {
        RefusalIsUnionUnlessCollision(store.rules, req, paths, now);
      }
    }
  }

  /** Without a collision among the registered paths, a refused grant was covered already. */
  lemma RefusalIsUnionUnlessCollision(rules: Rules, req: GrantRequest, paths: set<string>, now: int)
    requires ValidRules(rules) && AllUnder(rules, paths) && ValidPattern(req.pattern) && Under(req.pattern, paths)
    requires req.expiresAt.Some? ==> req.expiresAt.value > now
    requires Conflicting(rules, req) != {}
    ensures AlreadyCovered(rules, req, now) || Collide(paths)
  {
    RefusedGrantIsUnionIff(rules, req, now);
    var key :| key in Conflicting(rules, req);
    ValidPatternFacts(key.pattern);
    LikeIsWildPrefix(req.pattern, key.pattern);
    if !ConflictIsGenuine(rules, req) {
      assert CollidingPatterns(req.pattern, key.pattern, paths);
    }
  }

  // A store and a request, all under these paths, whose refusal leaves something uncovered.
  ghost predicate WronglyRefused(rules: Rules, req: GrantRequest, paths: set<string>, now: int) {
    && ValidRules(rules) && AllUnder(rules, paths) && ValidPattern(req.pattern) && Under(req.pattern, paths)
    && (req.expiresAt.Some? ==> req.expiresAt.value > now)
    && Conflicting(rules, req) != {} && !AlreadyCovered(rules, req, now)
  }

  /** The condition is exact: some grant is wrongly refused if and only if two patterns collide. */
  lemma WrongRefusalIffCollision(paths: set<string>, now: int)
    ensures (exists rules, req :: WronglyRefused(rules, req, paths, now)) <==> Collide(paths)
  {
    forall rules, req | WronglyRefused(rules, req, paths, now) ensures Collide(paths) {
      RefusalIsUnionUnlessCollision(rules, req, paths, now);
    }
    if Collide(paths) {
      var p, r :| CollidingPatterns(p, r, paths);
      CollisionRefusesWrongly(p, r, paths, NIL_UUID, NIL_UUID, now);
    }
  }

  /** The failing family: the one pattern stored, the other asked for. */
  lemma CollisionRefusesWrongly(p: string, r: string, paths: set<string>, user: Uuid, ruleId: Uuid, now: int)
    requires CollidingPatterns(p, r, paths)
    ensures
      var rules: Rules := map[RuleKey(user, r, GET) := Rule(ruleId, None, None, now, None)];
      WronglyRefused(rules, GrantRequest(user, p, GET, None, None), paths, now)
  {
    var key := RuleKey(user, r, GET);
    var rules: Rules := map[key := Rule(ruleId, None, None, now, None)];
    var req := GrantRequest(user, p, GET, None, None);
    ValidPatternFacts(r);
    LikeIsWildPrefix(p, r);
    assert key in Conflicting(rules, req);
    assert !ConflictIsGenuine(rules, req);
    RefusedGrantIsUnionIff(rules, req, now);
  }

  /** A registry with a collision: /a_b/ and /axb/. Once /a_b/ is granted, /axb/ is refused and stays closed. */
  lemma WildcardConflictIsNotUnion(user: Uuid, ruleId: Uuid, now: int)
    ensures
      var paths := {"/a_b/", "/axb/"};
      && CollidingPatterns("/axb/", "/a_b/", paths)
      && WronglyRefused(map[RuleKey(user, "/a_b/", GET) := Rule(ruleId, None, None, now, None)],
                        GrantRequest(user, "/axb/", GET, None, None), paths, now)
  {
    var paths := {"/a_b/", "/axb/"};
    assert StartsWith("/a_b/", "/a_b/") && StartsWith("/axb/", "/axb/");
    ValidPatternFacts("/axb/");
    assert "/axb"[1] == 'a' && "/api/user/"[2] == 'p' && "/axb"[2] == 'x';
    CollisionRefusesWrongly("/axb/", "/a_b/", paths, user, ruleId, now);
  }

  // ---------------------------------------------------------------- the routes of this program

  const ADMIN := "/api/admin/"
  const ARCHIVE := "/api/archive/"

  const API_RULE_ROUTES := ["api_rule/grant/", "api_rule/revoke/", "api_rule/query/", "api_rule/routes/"]

  const USER_ROUTES := ["user/create/", "user/modify_status/", "user/query/", "user/password/",
                        "user/delete/{user_id}/"]

  const TEMPLATE_ROUTES := [
    "template/create/", "template/query/", "template/update/", "template/delete/", "template/modify_status/",
    "template/all_categories/"
  ]

  const RECORD_ROUTES := ["create/", "init_upload/", "presigned/", "query/", "delete/", "info/"]

  ghost predicate IsAdminRoute(rest: string) {
    rest in API_RULE_ROUTES || rest in USER_ROUTES || rest in TEMPLATE_ROUTES
  }

  // The registered paths, given the templates that are or have been active.
  ghost predicate IsProgramPath(path: string, templates: set<Uuid>) {
    || (exists rest :: IsAdminRoute(rest) && path == ADMIN + rest)
    || (exists id, rest :: id in templates && rest in RECORD_ROUTES && path == RecordPath(id, rest))
  }

  function RecordPath(id: Uuid, rest: string): string {
    ARCHIVE + id + "/" + rest
  }

  // Where the first '_' of an administration route is, and what stands before it.
  predicate IsAdminHead(head: string) {
    head == "api" || head == "user/modify" || head == "template/modify" || head == "template/all"
  }

  lemma ApiRuleUnderscore(rest: string, i: nat)
    requires rest in API_RULE_ROUTES && i < |rest| && rest[i] == '_'
    ensures rest[..i] == "api"
  {
    assert rest[..4] == "api_";
    assert forall j :: 4 <= j < |rest| ==> rest[j] != '_';
  }

  lemma BraceComesFirst()
    ensures "user/delete/{user_id}/"[12] == '{'
    ensures forall j :: 0 <= j < 12 ==> "user/delete/{user_id}/"[j] != '_'
  {
  }

  lemma UserUnderscore(rest: string, i: nat)
    requires rest in USER_ROUTES && i < |rest| && rest[i] == '_'
    requires forall j :: 0 <= j < i ==> rest[j] != '{'
    ensures rest[..i] == "user/modify"
  {
    BraceComesFirst();
    if rest == "user/modify_status/" {
      assert forall j :: 0 <= j < |rest| && j != 11 ==> rest[j] != '_';
    }
  }

  lemma TemplateUnderscore(rest: string, i: nat)
    requires rest in TEMPLATE_ROUTES && i < |rest| && rest[i] == '_'
    ensures rest[..i] == "template/modify" || rest[..i] == "template/all"
  {
    if rest == "template/modify_status/" {
      assert forall j :: 0 <= j < |rest| && j != 15 ==> rest[j] != '_';
    } else if rest == "template/all_categories/" {
      assert forall j :: 0 <= j < |rest| && j != 12 ==> rest[j] != '_';
    }
  }

  lemma RecordUnderscore(rest: string, i: nat)
    requires rest in RECORD_ROUTES && i < |rest| && rest[i] == '_'
    ensures rest[..i] == "init"
  {
    if rest == "init_upload/" {
      assert forall j :: 0 <= j < |rest| && j != 4 ==> rest[j] != '_';
    }
  }

  lemma AdminHeadGoesOn(rest: string, head: string)
    requires IsAdminRoute(rest) && IsAdminHead(head) && head <= rest
    ensures |rest| > |head| && rest[|head|] == '_'
  {
    assert rest[0] == head[0];
    if head != "api" {
      assert rest[5] == head[5] && rest[9] == head[9];
    }
  }

  lemma RecordHeadGoesOn(rest: string)
    requires rest in RECORD_ROUTES && "init" <= rest
    ensures |rest| > 4 && rest[4] == '_'
  {
    assert rest[0] == 'i' && rest[2] == 'i';
  }

  // The seventh character tells the two kinds of path apart.
  lemma KindOf(path: string, templates: set<Uuid>)
    requires IsProgramPath(path, templates)
    ensures |path| > 6
    ensures path[6] == 'd' ==> exists rest :: IsAdminRoute(rest) && path == ADMIN + rest
    ensures path[6] != 'd' ==>
      exists id, rest :: id in templates && rest in RECORD_ROUTES && path == RecordPath(id, rest)
  {
    if id, rest :| id in templates && rest in RECORD_ROUTES && path == RecordPath(id, rest) {
      assert path[6] == ARCHIVE[6] == 'r';
    } else {
      var rest :| IsAdminRoute(rest) && path == ADMIN + rest;
      assert path[6] == ADMIN[6] == 'd';
    }
  }

  lemma AdminUnderscore(rest: string, i: nat)
    requires IsAdminRoute(rest) && i < |rest| && rest[i] == '_'
    requires forall j :: 0 <= j < i ==> rest[j] != '{'
    ensures IsAdminHead(rest[..i])
  {
    if rest in API_RULE_ROUTES {
      ApiRuleUnderscore(rest, i);
    } else if rest in USER_ROUTES {
      UserUnderscore(rest, i);
    } else {
      TemplateUnderscore(rest, i);
    }
  }

  lemma TailsAgree(head: string, a: string, b: string, i: nat)
    requires |head| <= i < |head + a| && i < |head + b| && (head + a)[..i] == (head + b)[..i]
    ensures a[..i - |head|] == b[..i - |head|]
    ensures (head + a)[i] == a[i - |head|] && (head + b)[i] == b[i - |head|]
    ensures forall j :: 0 <= j < i - |head| ==> b[j] == (head + b)[j + |head|]
  {
    assert a[..i - |head|] == (head + a)[..i][|head|..];
    assert b[..i - |head|] == (head + b)[..i][|head|..];
  }

  lemma AdminPathsAgree(a: string, b: string, i: nat)
    requires IsAdminRoute(a) && IsAdminRoute(b) && |ADMIN| <= i
    requires i < |ADMIN + a| && i < |ADMIN + b| && (ADMIN + a)[..i] == (ADMIN + b)[..i]
    requires (ADMIN + b)[i] == '_' && forall j :: 0 <= j < i ==> (ADMIN + b)[j] != '{'
    ensures (ADMIN + a)[i] == '_'
  {
    TailsAgree(ADMIN, a, b, i);
    AdminUnderscore(b, i - |ADMIN|);
    AdminHeadGoesOn(a, b[..i - |ADMIN|]);
  }

  lemma RecordPathParts(id: Uuid, rest: string)
    ensures |RecordPath(id, rest)| == 50 + |rest| && RecordPath(id, rest)[50..] == rest
    ensures forall j :: 0 <= j < 50 ==> RecordPath(id, rest)[j] != '_'
  {
    var path := RecordPath(id, rest);
    assert forall j :: 0 <= j < 13 ==> path[j] == ARCHIVE[j] != '_';
    assert forall j :: 13 <= j < 49 ==> path[j] == id[j - 13];
  }

  lemma RecordPathsAgree(id1: Uuid, a: string, id2: Uuid, b: string, i: nat)
    requires a in RECORD_ROUTES && b in RECORD_ROUTES
    requires i < |RecordPath(id1, a)| && i < |RecordPath(id2, b)| && RecordPath(id1, a)[..i] == RecordPath(id2, b)[..i]
    requires RecordPath(id2, b)[i] == '_'
    ensures RecordPath(id1, a)[i] == '_'
  {
    RecordPathParts(id1, a);
    RecordPathParts(id2, b);
    var k := i - 50;
    assert b[k] == RecordPath(id2, b)[50..][k];
    RecordUnderscore(b, k);
    assert a[..k] == RecordPath(id1, a)[..i][50..] == RecordPath(id2, b)[..i][50..] == b[..k];
    RecordHeadGoesOn(a);
    assert a[k] == RecordPath(id1, a)[50..][k];
  }

  // Two registered paths that agree up to an '_' of the one agree in it.
  lemma ProgramPathsAgree(a: string, b: string, i: nat, templates: set<Uuid>)
    requires IsProgramPath(a, templates) && IsProgramPath(b, templates)
    requires i < |a| && i < |b| && a[..i] == b[..i]
    requires b[i] == '_' && forall j :: 0 <= j < i ==> b[j] != '{'
    ensures a[i] == '_'
  {
    KindOf(a, templates);
    KindOf(b, templates);
    NoEarlyUnderscore(b, i, templates);
    assert a[6] == a[..i][6] == b[..i][6] == b[6];
    if b[6] == 'd' {
      var p :| IsAdminRoute(p) && a == ADMIN + p;
      var q :| IsAdminRoute(q) && b == ADMIN + q;
      AdminPathsAgree(p, q, i);
    } else {
      var id1, p :| id1 in templates && p in RECORD_ROUTES && a == RecordPath(id1, p);
      var id2, q :| id2 in templates && q in RECORD_ROUTES && b == RecordPath(id2, q);
      RecordPathsAgree(id1, p, id2, q, i);
    }
  }

  lemma NoEarlyUnderscore(path: string, i: nat, templates: set<Uuid>)
    requires IsProgramPath(path, templates) && i < |path| && path[i] == '_'
    ensures i > 6 && (path[6] == 'd' ==> i >= |ADMIN|)
  {
    if id, rest :| id in templates && rest in RECORD_ROUTES && path == RecordPath(id, rest) {
      RecordPathParts(id, rest);
    } else {
      var rest :| IsAdminRoute(rest) && path == ADMIN + rest;
      AdminPathParts(rest);
    }
  }

  lemma AdminPathParts(rest: string)
    ensures forall j :: 0 <= j < |ADMIN| ==> (ADMIN + rest)[j] == ADMIN[j] && ADMIN[j] != '_'
  {
  }

  lemma FirstDifference(p: string, r: string) returns (i: nat)
    requires |p| == |r| && p != r
    ensures i < |p| && p[i] != r[i] && p[..i] == r[..i]
  {
    assert p[..|p|] == p && r[..|r|] == r;
    i := 0;
    while i < |p| && p[i] == r[i]
      invariant i <= |p| && p[..i] == r[..i]
    {
      i := i + 1;
    }
  }

  /** No two patterns under the routes of this program collide, whatever its templates. */
  lemma ProgramPathsDoNotCollide(paths: set<string>, templates: set<Uuid>)
    requires forall path :: path in paths ==> IsProgramPath(path, templates)
    ensures !Collide(paths)
  {
    forall p, r | Under(p, paths) && Under(r, paths) && ValidPattern(p) && ValidPattern(r) && |p| == |r| && p != r
      ensures !WildPrefix(p, r)
    {
      var i := FirstDifference(p, r);
      if r[i] == '_' {
        var a :| a in paths && StartsWith(a, p);
        var b :| b in paths && StartsWith(b, r);
        assert a[..i] == p[..i] && b[..i] == r[..i];
        ProgramPathsAgree(a, b, i, templates);
      }
    }
  }

  /** So in this program every refused grant was covered already. */
  lemma RefusalIsUnionInThisProgram(rules: Rules, req: GrantRequest, paths: set<string>, templates: set<Uuid>, now: int)
    requires forall path :: path in paths ==> IsProgramPath(path, templates)
    requires ValidRules(rules) && AllUnder(rules, paths) && ValidPattern(req.pattern) && Under(req.pattern, paths)
    requires req.expiresAt.Some? ==> req.expiresAt.value > now
    requires Conflicting(rules, req) != {}
    ensures AlreadyCovered(rules, req, now)
  {
    ProgramPathsDoNotCollide(paths, templates);
    RefusalIsUnionUnlessCollision(rules, req, paths, now);
  }
}
