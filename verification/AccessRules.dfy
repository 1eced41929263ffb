/**
 * The access-rule store: what a set of rules admits, and what granting and revoking do
 * to it. A rule's pattern is matched as a LIKE prefix, so '_' in it is a wildcard.
 */
module AccessRules {
  import opened Errors
  import opened LikePatterns
  import opened ObjectKeys
  import opened Wrappers

  datatype HttpMethod = GET | POST | PUT | PATCH | DELETE | ALL {
    function AsStr(): string {
      match this
      case GET => "GET"
      case POST => "POST"
      case PUT => "PUT"
      case PATCH => "PATCH"
      case DELETE => "DELETE"
      case ALL => "ALL"
    }
  }

  // One user, one pattern, one method: the unique key of sys_access_rule.
  datatype RuleKey = RuleKey(user: Uuid, pattern: string, httpMethod: HttpMethod)

  datatype Rule = Rule(ruleId: Uuid, expiresAt: Option<int>, grantedBy: Option<Uuid>, createdAt: int,
                       description: Option<string>)

  type Rules = map<RuleKey, Rule>

  datatype GrantRequest = GrantRequest(
    user: Uuid, pattern: string, httpMethod: HttpMethod, expiresAt: Option<int>, description: Option<string>)
  {
    function Key(): RuleKey {
      RuleKey(user, pattern, httpMethod)
    }
  }

  datatype ApiRuleDTO = ApiRuleDTO(
    ruleId: Uuid, pattern: string, httpMethod: HttpMethod, expiresAt: Option<int>, createdAt: int,
      grantedBy: Option<Uuid>)

  const BASIC_PERMISSIONS: seq<(string, string)> := [("/api/user/", "ALL")]

  // ---------------------------------------------------------------- patterns

  predicate IsSegmentChar(c: char) {
    'a' <= c <= 'z' || '0' <= c <= '9' || c == '_' || c == '-'
  }

  // ^(/[a-z_0-9\-]+)+/$
  predicate ValidPattern(p: string) {
    && |p| >= 3 && p[0] == '/' && p[|p| - 1] == '/'
    && (forall i :: 0 <= i < |p| ==> p[i] == '/' || IsSegmentChar(p[i]))
    && (forall i :: 0 <= i < |p| - 1 ==> p[i] == '/' ==> p[i + 1] != '/')
  }

  lemma ValidPatternFacts(p: string)
    requires ValidPattern(p)
    ensures Plain(p) && RTrim(p, '/') == p[..|p| - 1]
  {
    assert p[|p| - 2] != '/';
    assert RTrim(p[..|p| - 1], '/') == p[..|p| - 1];
  }

  // ---------------------------------------------------------------- what a rule set admits

  predicate MatchesPath(pattern: string, path: string) {
    || (pattern != "" && pattern[|pattern| - 1] == '/' && path == RTrim(pattern, '/'))
    || Like(path, pattern + "%")
  }

  predicate MatchesMethod(allowed: HttpMethod, httpMethod: string) {
    allowed == ALL || allowed.AsStr() == httpMethod
  }

  predicate Live(expiresAt: Option<int>, now: int) {
    expiresAt.None? || expiresAt.value > now
  }

  predicate RuleAdmits(key: RuleKey, expiresAt: Option<int>, user: Uuid, path: string, httpMethod: string, now: int) {
    key.user == user && MatchesMethod(key.httpMethod, httpMethod) && Live(expiresAt, now)
      && MatchesPath(key.pattern, path)
  }

  predicate Basic(path: string, httpMethod: string) {
    exists i :: 0 <= i < |BASIC_PERMISSIONS| && StartsWith(path, BASIC_PERMISSIONS[i].0)
      && (BASIC_PERMISSIONS[i].1 == "ALL" || BASIC_PERMISSIONS[i].1 == httpMethod)
  }

  predicate Admitted(rules: Rules, user: Uuid, path: string, httpMethod: string, now: int) {
    || Basic(path, httpMethod)
    || exists key :: key in rules && RuleAdmits(key, rules[key].expiresAt, user, path, httpMethod, now)
  }

  // What the request asks to be admitted.
  predicate Covers(req: GrantRequest, user: Uuid, path: string, httpMethod: string, now: int) {
    RuleAdmits(req.Key(), req.expiresAt, user, path, httpMethod, now)
  }

  predicate ValidRules(rules: Rules) {
    && (forall key :: key in rules ==> ValidPattern(key.pattern))
    && (forall k1, k2 :: k1 in rules && k2 in rules && rules[k1].ruleId == rules[k2].ruleId ==> k1 == k2)
  }

  function RuleIds(rules: Rules): set<Uuid> {
    set key | key in rules :: rules[key].ruleId
  }

  // ---------------------------------------------------------------- the statements

  predicate LastsAsLong(stored: Option<int>, asked: Option<int>) {
    stored.None? || (asked.Some? && stored.value >= asked.value)
  }

  // The conflict query's WHERE clause.
  predicate Conflicts(key: RuleKey, expiresAt: Option<int>, req: GrantRequest) {
    && key.user == req.user
    && Like(req.pattern, key.pattern + "%")
    && (key.httpMethod == ALL || key.httpMethod == req.httpMethod)
    && LastsAsLong(expiresAt, req.expiresAt)
  }

  function Conflicting(rules: Rules, req: GrantRequest): set<RuleKey> {
    set key | key in rules && Conflicts(key, rules[key].expiresAt, req)
  }

  // INSERT ... ON CONFLICT DO UPDATE: a row that is there keeps its id and creation time.
  function Upsert(rules: Rules, req: GrantRequest, grantedBy: Uuid, freshId: Uuid, now: int): Rules {
    var key := req.Key();
    var (id, createdAt) := if key in rules then (rules[key].ruleId, rules[key].createdAt) else (freshId, now);
    rules[key := Rule(id, req.expiresAt, Some(grantedBy), createdAt, req.description)]
  }

  // Only the request's rule has changed: what was asked for, with the id and creation time
  // it had, if it was there.
  ghost predicate OneRuleWritten(before: Rules, after: Rules, req: GrantRequest, grantedBy: Uuid, freshId: Uuid,
                                 now: int) {
    var key := req.Key();
    && after.Keys == before.Keys + {key}
    && (forall other :: other in before && other != key ==> after[other] == before[other])
    && after[key].expiresAt == req.expiresAt && after[key].grantedBy == Some(grantedBy)
    && after[key].description == req.description
    && (key in before ==> after[key].ruleId == before[key].ruleId && after[key].createdAt == before[key].createdAt)
    && (key !in before ==> after[key].ruleId == freshId && after[key].createdAt == now)
  }

  lemma UpsertWritesOneRule(rules: Rules, req: GrantRequest, grantedBy: Uuid, freshId: Uuid, now: int)
    ensures OneRuleWritten(rules, Upsert(rules, req, grantedBy, freshId, now), req, grantedBy, freshId, now)
  {
  }

  function DeleteById(rules: Rules, ruleId: Uuid): Rules {
    map key | key in rules && rules[key].ruleId != ruleId :: rules[key]
  }

  class RuleStore {
    var rules: Rules

    ghost predicate Valid()
      reads this
    {
      ValidRules(rules)
    }

    /** check_user_role: the basic permissions, then one query. */
    method CheckUserRole(user: Uuid, path: string, httpMethod: string, now: int) returns (result: Result<(), AppError>)
      ensures result == if Admitted(rules, user, path, httpMethod, now) then Ok(()) else Err(Forbidden)
    {
      for i := 0 to |BASIC_PERMISSIONS|
        invariant forall j :: 0 <= j < i ==>
          !(StartsWith(path, BASIC_PERMISSIONS[j].0)
            && (BASIC_PERMISSIONS[j].1 == "ALL" || BASIC_PERMISSIONS[j].1 == httpMethod))
      {
        var (pattern, allowed) := BASIC_PERMISSIONS[i];
        if StartsWith(path, pattern) && (allowed == "ALL" || allowed == httpMethod) {
          return Ok(());
        }
      }
      if exists key :: key in rules && RuleAdmits(key, rules[key].expiresAt, user, path, httpMethod, now) {
        return Ok(());
      }
      result := Err(Forbidden);
    }

    method CheckConflict(req: GrantRequest) returns (result: Result<(), AppError>)
      ensures result.Ok? <==> Conflicting(rules, req) == {}
      ensures result.Err? ==>
        exists key :: key in Conflicting(rules, req) && result.error == ApiRuleConflict(rules[key].ruleId)
    {
      var found := Conflicting(rules, req);
      if found != {} {
        var key :| key in found;
        return Err(ApiRuleConflict(rules[key].ruleId));
      }
      result := Ok(());
    }

    /**
     * A grant as one atomic step: refused when a stored rule conflicts or a user does not
     * exist, upserted otherwise. Accepted, it adds exactly what was asked for.
     */
    method Grant(req: GrantRequest, grantedBy: Uuid, users: set<Uuid>, freshId: Uuid, now: int)
      returns (result: Result<ApiRuleDTO, AppError>)
      requires Valid() && ValidPattern(req.pattern) && freshId !in RuleIds(rules)
      modifies this
      ensures Valid()
      ensures result.Err? ==> rules == old(rules)
      ensures result.Ok? <==> Conflicting(old(rules), req) == {} && req.user in users && grantedBy in users
      ensures Conflicting(old(rules), req) == {} && result.Err? ==> result.error == DataNotFound
      ensures Conflicting(old(rules), req) != {} ==>
        exists key :: key in Conflicting(old(rules), req) && result == Err(ApiRuleConflict(old(rules)[key].ruleId))
      ensures result.Ok? ==>
        && rules == Upsert(old(rules), req, grantedBy, freshId, now)
        && result.value == ApiRuleDTO(rules[req.Key()].ruleId, req.pattern, req.httpMethod, req.expiresAt,
                                      rules[req.Key()].createdAt, Some(grantedBy))
        && result.value.ruleId == if req.Key() in old(rules) then old(rules)[req.Key()].ruleId else freshId
      ensures result.Ok? ==> OneRuleWritten(old(rules), rules, req, grantedBy, freshId, now)
      ensures result.Ok? ==> forall user, path, httpMethod, t ::
        Admitted(rules, user, path, httpMethod, t) <==>
        Admitted(old(rules), user, path, httpMethod, t) || Covers(req, user, path, httpMethod, t)
    {
      var conflict := CheckConflict(req);
      if conflict.Err? {
        return Err(conflict.error);
      }
      if req.user !in users || grantedBy !in users {
        return Err(DataNotFound);
      }
      ghost var before := rules;
      rules := Upsert(rules, req, grantedBy, freshId, now);
      var row := rules[req.Key()];
      forall user, path, httpMethod, t
        ensures Admitted(rules, user, path, httpMethod, t) <==>
          Admitted(before, user, path, httpMethod, t) || Covers(req, user, path, httpMethod, t)
      {
        AcceptedGrantIsUnion(before, req, grantedBy, freshId, now, user, path, httpMethod, t);
      }
      UpsertKeepsValid(before, req, grantedBy, freshId, now);
      UpsertWritesOneRule(before, req, grantedBy, freshId, now);
      result := Ok(ApiRuleDTO(row.ruleId, req.pattern, req.httpMethod, req.expiresAt, row.createdAt, Some(grantedBy)));
    }

    /** Revoking takes away the rule with that id and no other. */
    method Revoke(ruleId: Uuid) returns (result: Result<(), AppError>)
      requires Valid()
      modifies this
      ensures Valid()
      ensures rules == DeleteById(old(rules), ruleId)
      ensures result == if ruleId in RuleIds(old(rules)) then Ok(()) else Err(DataNotFound)
      ensures result.Err? ==> rules == old(rules)
    {
      var affected := ruleId in RuleIds(rules);
      rules := DeleteById(rules, ruleId);
      result := if affected then Ok(()) else Err(DataNotFound);
    }
  }

  lemma UpsertKeepsValid(rules: Rules, req: GrantRequest, grantedBy: Uuid, freshId: Uuid, now: int)
    requires ValidRules(rules) && ValidPattern(req.pattern) && freshId !in RuleIds(rules)
    ensures ValidRules(Upsert(rules, req, grantedBy, freshId, now))
  {
    forall key | key in rules ensures rules[key].ruleId != freshId {
      assert rules[key].ruleId in RuleIds(rules);
    }
  }

  // ---------------------------------------------------------------- a grant is a union

  lemma OwnPatternIsLike(p: string)
    requires ValidPattern(p)
    ensures Like(p, p + "%")
  {
    ValidPatternFacts(p);
    LikeIsWildPrefix(p, p);
  }

  /**
   * An accepted grant: afterwards exactly what was admitted before, or what the request
   * covers, is admitted. In particular an upsert never shortens a rule's life.
   */
  lemma AcceptedGrantIsUnion(rules: Rules, req: GrantRequest, grantedBy: Uuid, freshId: Uuid, now: int,
      user: Uuid, path: string, httpMethod: string, t: int)
    requires ValidPattern(req.pattern) && Conflicting(rules, req) == {}
    ensures Admitted(Upsert(rules, req, grantedBy, freshId, now), user, path, httpMethod, t) <==>
      Admitted(rules, user, path, httpMethod, t) || Covers(req, user, path, httpMethod, t)
  {
    var after := Upsert(rules, req, grantedBy, freshId, now);
    var own := req.Key();
    if own in rules {
      OwnPatternIsLike(req.pattern);
      assert own !in Conflicting(rules, req);
      assert !LastsAsLong(rules[own].expiresAt, req.expiresAt);
    }
    assert own in after && after[own].expiresAt == req.expiresAt;
    if Admitted(rules, user, path, httpMethod, t) && !Basic(path, httpMethod) {
      var key :| key in rules && RuleAdmits(key, rules[key].expiresAt, user, path, httpMethod, t);
      assert key in after && RuleAdmits(key, after[key].expiresAt, user, path, httpMethod, t);
    }
    if Covers(req, user, path, httpMethod, t) {
      assert RuleAdmits(own, after[own].expiresAt, user, path, httpMethod, t);
    }
    if Admitted(after, user, path, httpMethod, t) && !Basic(path, httpMethod) {
      var key :| key in after && RuleAdmits(key, after[key].expiresAt, user, path, httpMethod, t);
      if key != own {
        assert key in rules && rules[key] == after[key];
      }
    }
  }

  // The union as a statement about a store that stays as it is, from now on.
  ghost predicate AlreadyCovered(rules: Rules, req: GrantRequest, now: int) {
    forall path, httpMethod, t :: t >= now && Covers(req, req.user, path, httpMethod, t) ==>
      Admitted(rules, req.user, path, httpMethod, t)
  }

  // Some conflicting rule has a shorter pattern, or the very same one; or the one path
  // that makes the difference is open to everybody.
  predicate ConflictIsGenuine(rules: Rules, req: GrantRequest) {
    || StartsWith(RTrim(req.pattern, '/'), "/api/user/")
    || exists key :: key in Conflicting(rules, req) && (|key.pattern| < |req.pattern| || key.pattern == req.pattern)
  }

  // What a conflicting rule admits of what the request covers.
  lemma ConflictingRuleAdmits(key: RuleKey, expiresAt: Option<int>, req: GrantRequest, path: string, httpMethod: string,
                              t: int)
    requires ValidPattern(key.pattern) && ValidPattern(req.pattern)
    requires Conflicts(key, expiresAt, req) && Covers(req, req.user, path, httpMethod, t)
    requires path != RTrim(req.pattern, '/') || |key.pattern| < |req.pattern| || key.pattern == req.pattern
    ensures RuleAdmits(key, expiresAt, req.user, path, httpMethod, t)
  {
    var p, r := req.pattern, key.pattern;
    ValidPatternFacts(p);
    ValidPatternFacts(r);
    LikeIsWildPrefix(p, r);
    LikeIsWildPrefix(path, p);
    LikeIsWildPrefix(path, r);
    if WildPrefix(path, p) {
      WildPrefixIsTransitive(path, p, r);
    } else if |r| < |p| {
      assert WildPrefix(path, r);
    }
  }

  // A rule that admits the request's trimmed pattern conflicts with it but for its expiry,
  // and is shorter or the same.
  lemma AdmitsTrimmed(key: RuleKey, expiresAt: Option<int>, req: GrantRequest, httpMethod: string, t: int)
    requires ValidPattern(key.pattern) && ValidPattern(req.pattern)
    requires RuleAdmits(key, expiresAt, req.user, RTrim(req.pattern, '/'), httpMethod, t)
    ensures Like(req.pattern, key.pattern + "%")
    ensures |key.pattern| < |req.pattern| || key.pattern == req.pattern
  {
    var p, r := req.pattern, key.pattern;
    var path := RTrim(p, '/');
    ValidPatternFacts(p);
    ValidPatternFacts(r);
    LikeIsWildPrefix(p, r);
    LikeIsWildPrefix(path, r);
    if path == RTrim(r, '/') {
      assert p == path + "/" && r == path + "/";
    } else {
      assert forall i :: 0 <= i < |r| ==> r[i] == '_' || r[i] == p[i];
    }
  }

  lemma LatestExpiry(rules: Rules, from: int) returns (t: int)
    ensures t >= from
    ensures forall key :: key in rules && rules[key].expiresAt.Some? ==> rules[key].expiresAt.value <= t
  {
    t := from;
    var left := rules;
    while left != map[]
      invariant left.Keys <= rules.Keys && t >= from
      invariant forall key :: key in rules && key !in left && rules[key].expiresAt.Some? ==>
        rules[key].expiresAt.value <= t
      decreases |left|
    {
      var key :| key in left;
      if rules[key].expiresAt.Some? && rules[key].expiresAt.value > t {
        t := rules[key].expiresAt.value;
      }
      assert (left - {key}).Keys == left.Keys - {key};
      left := left - {key};
    }
  }

  /**
   * A refused grant leaves the store as it is. That is the union with what was asked for
   * if and only if the conflict is genuine; otherwise the request's pattern without its
   * last slash is a path that was asked for and stays refused.
   */
  lemma RefusedGrantIsUnionIff(rules: Rules, req: GrantRequest, now: int)
    requires ValidRules(rules) && ValidPattern(req.pattern)
    requires req.expiresAt.Some? ==> req.expiresAt.value > now
    requires Conflicting(rules, req) != {}
    ensures AlreadyCovered(rules, req, now) <==> ConflictIsGenuine(rules, req)
  {
    var trimmed := RTrim(req.pattern, '/');
    if ConflictIsGenuine(rules, req) {
      forall path, httpMethod, t | t >= now && Covers(req, req.user, path, httpMethod, t)
        ensures Admitted(rules, req.user, path, httpMethod, t)
      {
        GenuineConflictCovers(rules, req, path, httpMethod, t);
      }
    } else {
      var httpMethod, t := UncoveredMoment(rules, req, now);
      assert Covers(req, req.user, trimmed, httpMethod, t);
    }
  }

  lemma BasicIsUserArea(path: string, httpMethod: string)
    ensures Basic(path, httpMethod) <==> StartsWith(path, "/api/user/")
  {
    assert BASIC_PERMISSIONS[0] == ("/api/user/", "ALL");
  }

  lemma GenuineConflictCovers(rules: Rules, req: GrantRequest, path: string, httpMethod: string, t: int)
    requires ValidRules(rules) && ValidPattern(req.pattern) && Conflicting(rules, req) != {}
    requires ConflictIsGenuine(rules, req) && Covers(req, req.user, path, httpMethod, t)
    ensures Admitted(rules, req.user, path, httpMethod, t)
  {
    BasicIsUserArea(path, httpMethod);
    if path != RTrim(req.pattern, '/') {
      var key :| key in Conflicting(rules, req);
      ConflictingRuleAdmits(key, rules[key].expiresAt, req, path, httpMethod, t);
    } else if !StartsWith(path, "/api/user/") {
      var key :| key in Conflicting(rules, req) && (|key.pattern| < |req.pattern| || key.pattern == req.pattern);
      ConflictingRuleAdmits(key, rules[key].expiresAt, req, path, httpMethod, t);
    }
  }

  // The last moment the request covers, by a method no narrower rule names.
  lemma UncoveredMoment(rules: Rules, req: GrantRequest, now: int) returns (httpMethod: string, t: int)
    requires ValidRules(rules) && ValidPattern(req.pattern)
    requires req.expiresAt.Some? ==> req.expiresAt.value > now
    requires !ConflictIsGenuine(rules, req)
    ensures t >= now && Covers(req, req.user, RTrim(req.pattern, '/'), httpMethod, t)
    ensures !Admitted(rules, req.user, RTrim(req.pattern, '/'), httpMethod, t)
  {
    var trimmed := RTrim(req.pattern, '/');
    httpMethod := if req.httpMethod == ALL then "HEAD" else req.httpMethod.AsStr();
    if req.expiresAt.Some? {
      t := req.expiresAt.value - 1;
    } else {
      t := LatestExpiry(rules, now);
    }
    BasicIsUserArea(trimmed, httpMethod);
    forall key | key in rules ensures !RuleAdmits(key, rules[key].expiresAt, req.user, trimmed, httpMethod, t) {
      assert key in Conflicting(rules, req) <==> Conflicts(key, rules[key].expiresAt, req);
      if RuleAdmits(key, rules[key].expiresAt, req.user, trimmed, httpMethod, t) {
        AdmitsTrimmed(key, rules[key].expiresAt, req, httpMethod, t);
        MethodIsAsWide(key.httpMethod, req.httpMethod, httpMethod);
      }
    }
  }

  lemma MethodIsAsWide(stored: HttpMethod, asked: HttpMethod, httpMethod: string)
    requires MatchesMethod(stored, httpMethod)
    requires httpMethod == if asked == ALL then "HEAD" else asked.AsStr()
    ensures stored == ALL || stored == asked
  {
    assert stored != ALL ==> stored.AsStr()[0] == httpMethod[0];
    assert stored == PUT || stored == PATCH || stored == POST ==> stored.AsStr()[1] == httpMethod[1];
  }

  /** Without '_' in the stored patterns every refusal is a union. */
  lemma WildcardFreeRefusalIsUnion(rules: Rules, req: GrantRequest, now: int)
    requires ValidRules(rules) && ValidPattern(req.pattern) && Conflicting(rules, req) != {}
    requires req.expiresAt.Some? ==> req.expiresAt.value > now
    requires forall key :: key in rules ==> '_' !in key.pattern
    ensures AlreadyCovered(rules, req, now)
  {
    var key :| key in Conflicting(rules, req);
    ValidPatternFacts(key.pattern);
    LikeIsWildPrefix(req.pattern, key.pattern);
    assert |key.pattern| < |req.pattern| || key.pattern == req.pattern;
    RefusedGrantIsUnionIff(rules, req, now);
  }

  /** Revoking a freshly granted rule gives the old store back. */
  lemma RevokeUndoesGrant(rules: Rules, req: GrantRequest, grantedBy: Uuid, freshId: Uuid, now: int)
    requires freshId !in RuleIds(rules) && req.Key() !in rules
    ensures DeleteById(Upsert(rules, req, grantedBy, freshId, now), freshId) == rules
  {
    forall key | key in rules ensures rules[key].ruleId != freshId {
      assert rules[key].ruleId in RuleIds(rules);
    }
  }

  /** After revoking, exactly what the other rules admitted is admitted. */
  lemma RevokeTakesOneRule(rules: Rules, gone: RuleKey, user: Uuid, path: string, httpMethod: string, t: int)
    requires ValidRules(rules) && gone in rules
    ensures Admitted(DeleteById(rules, rules[gone].ruleId), user, path, httpMethod, t) <==>
      Admitted(rules - {gone}, user, path, httpMethod, t)
  {
    DeletesOne(rules, gone);
  }

  lemma DeletesOne(rules: Rules, gone: RuleKey)
    requires gone in rules
    requires forall key :: key in rules && key != gone ==> rules[key].ruleId != rules[gone].ruleId
    ensures DeleteById(rules, rules[gone].ruleId) == rules - {gone}
  {
  }
}
