/**
 * Upload sessions in Redis: a quota per file field, counted down by one script call per
 * upload URL. A session lives 1800 seconds from its start or its last deduction.
 */
module UploadQuota {
  import opened AvatarKeys
  import opened Clock
  import opened Errors
  import opened ObjectKeys
  import opened SchemaFields
  import opened Wrappers

  datatype Session = Session(user: Uuid, configs: map<string, FileConfig>, expiresAt: int)

  type Sessions = map<Uuid, Session>

  // The script's error replies.
  datatype ScriptError = SessionNotFound | ForbiddenUser | FieldNotFound | QuotaExhausted

  const SESSION_TICKS := 1800 * TICKS_PER_SECOND

  predicate Alive(sessions: Sessions, id: Uuid, now: int) {
    id in sessions && now < sessions[id].expiresAt
  }

  // The script, which Redis runs as one atomic step.
  function DeductScript(sessions: Sessions, id: Uuid, field: string, user: Uuid, now: int)
    : (Sessions, Result<FileConfig, ScriptError>)
  {
    if !Alive(sessions, id, now) then (sessions, Err(SessionNotFound))
    else
      var session := sessions[id];
      if session.user != user then (sessions, Err(ForbiddenUser))
      else if field !in session.configs then (sessions, Err(FieldNotFound))
      else
        var config := session.configs[field];
        if config.quota <= 0 then (sessions, Err(QuotaExhausted))
        else
          var left := config.(quota := config.quota - 1);
          (sessions[id := Session(user, session.configs[field := left], now + SESSION_TICKS)], Ok(left))
  }

  // ASCII is enough here: the request's file name must match ^.+\\.[a-zA-Z0-9]+$.
  function ToLower(s: string): (r: string)
    ensures |r| == |s|
  {
    seq(|s|, i requires 0 <= i < |s| => if 'A' <= s[i] <= 'Z' then s[i] - 'A' + 'a' else s[i])
  }

  function CheckFileValidity(config: FileConfig, fileName: string, contentLength: int): Result<(), AppError> {
    if contentLength > config.maxSize then Err(ValidationMessage("file"))
    else if config.allowedTypes == [] then Ok(())
    else
      match Extension(fileName)
      case None => Err(ValidationMessage("file"))
      case Some(ext) => if ("." + ToLower(ext)) in config.allowedTypes then Ok(()) else Err(ValidationMessage("file"))
  }

  function LowerCase(c: char): char {
    if 'A' <= c <= 'Z' then c - 'A' + 'a' else c
  }

  // The type is listed in lower case, with a dot before it.
  ghost predicate IsListed(types: seq<string>, ext: string) {
    exists listed :: listed in types && |listed| == |ext| + 1 && listed[0] == '.'
      && forall i :: 0 <= i < |ext| ==> listed[i + 1] == LowerCase(ext[i])
  }

  /** Which files pass: none above the size limit, and where types are listed only those of a listed type. */
  lemma FileIsValidIff(config: FileConfig, fileName: string, contentLength: int)
    ensures CheckFileValidity(config, fileName, contentLength).Ok? <==>
      && contentLength <= config.maxSize
      && (config.allowedTypes != [] ==>
            Extension(fileName).Some? && IsListed(config.allowedTypes, Extension(fileName).value))
  {
    if Extension(fileName).Some? {
      LowerIsListed(config.allowedTypes, Extension(fileName).value);
    }
  }

  lemma LowerIsListed(types: seq<string>, ext: string)
    ensures "." + ToLower(ext) in types <==> IsListed(types, ext)
  {
    var name := "." + ToLower(ext);
    assert forall i :: 0 <= i < |ext| ==> name[i + 1] == LowerCase(ext[i]);
    if listed :| listed in types && |listed| == |ext| + 1 && listed[0] == '.'
                 && forall i :: 0 <= i < |ext| ==> listed[i + 1] == LowerCase(ext[i]) {
      forall i | 0 <= i < |listed| ensures listed[i] == name[i] {
        assert i > 0 ==> listed[(i - 1) + 1] == LowerCase(ext[i - 1]) == name[(i - 1) + 1];
      }
      assert listed == name;
    }
  }

  datatype UploadRequest = UploadRequest(field: string, fileName: string, contentLength: int)

  class RedisCache {
    var sessions: Sessions
    // Every URL issued so far: the session and the field it was for.
    ghost var issued: seq<(Uuid, string)>

    method InitUploadSession(configs: map<string, FileConfig>, user: Uuid, freshId: Uuid, now: int) returns (id: Uuid)
      modifies this`sessions
      ensures id == freshId
      ensures sessions == old(sessions)[id := Session(user, configs, now + SESSION_TICKS)]
      ensures forall t :: Alive(sessions, id, t) <==> t < now + 1800 * 1_000_000
    {
      id := freshId;
      sessions := sessions[id := Session(user, configs, now + SESSION_TICKS)];
    }

    // The script run on the store.
    method Deduct(id: Uuid, field: string, user: Uuid, now: int) returns (reply: Result<FileConfig, ScriptError>)
      modifies this`sessions
      ensures (sessions, reply) == DeductScript(old(sessions), id, field, user, now)
    {
      if !Alive(sessions, id, now) {
        return Err(SessionNotFound);
      }
      var session := sessions[id];
      if session.user != user {
        return Err(ForbiddenUser);
      }
      if field !in session.configs {
        return Err(FieldNotFound);
      }
      var config := session.configs[field];
      if config.quota <= 0 {
        return Err(QuotaExhausted);
      }
      config := config.(quota := config.quota - 1);
      var configs := session.configs[field := config];
      sessions := sessions[id := session.(configs := configs, expiresAt := now + SESSION_TICKS)];
      reply := Ok(config);
    }

    /**
     * try_to_get_field_quota: succeeds only for the owner of a live session with quota
     * left, and then takes exactly one; what is missing is not found, what is not allowed
     * is forbidden.
     */
    method TryToGetFieldQuota(id: Uuid, field: string, user: Uuid, now: int)
      returns (result: Result<FileConfig, AppError>)
      modifies this`sessions
      ensures sessions == DeductScript(old(sessions), id, field, user, now).0
      ensures result.Ok? <==> DeductScript(old(sessions), id, field, user, now).1.Ok?
      ensures result.Ok? ==> result.value == DeductScript(old(sessions), id, field, user, now).1.value
      ensures result == Err(DataNotFound) <==>
        !Alive(old(sessions), id, now) || (old(sessions)[id].user == user && field !in old(sessions)[id].configs)
      ensures result.Err? && result.error != DataNotFound ==> result.error == Forbidden
      ensures result.Err? ==> sessions == old(sessions)
    {
      var reply := Deduct(id, field, user, now);
      match reply {
        case Ok(config) => result := Ok(config);
        case Err(SessionNotFound) => result := Err(DataNotFound);
        case Err(ForbiddenUser) => result := Err(Forbidden);
        case Err(FieldNotFound) => result := Err(DataNotFound);
        case Err(QuotaExhausted) => result := Err(Forbidden);
      }
    }

    /** presigned_upload_url_handler: the quota goes first, whatever the file turns out to be. */
    method PresignedUploadUrl(id: Uuid, request: UploadRequest, user: Uuid, now: int, signs: bool)
      returns (result: Result<(), AppError>)
      modifies this
      ensures sessions == DeductScript(old(sessions), id, request.field, user, now).0
      ensures issued == if result.Ok? then old(issued) + [(id, request.field)] else old(issued)
      ensures result.Ok? <==>
        && DeductScript(old(sessions), id, request.field, user, now).1.Ok?
        && CheckFileValidity(DeductScript(old(sessions), id, request.field, user, now).1.value, request.fileName,
                             request.contentLength).Ok?
        && signs
      ensures result.Ok? ==>
        && id in old(sessions) && request.field in old(sessions)[id].configs
        && var config := old(sessions)[id].configs[request.field];
        && config.quota > 0 && old(sessions)[id].user == user && request.contentLength <= config.maxSize
        && (config.allowedTypes != [] ==>
              && Extension(request.fileName).Some?
              && IsListed(config.allowedTypes, Extension(request.fileName).value))
      ensures DeductScript(old(sessions), id, request.field, user, now).1.Err? ==>
        result.Err? && result.error in {DataNotFound, Forbidden}
    {
      var config := TryToGetFieldQuota(id, request.field, user, now);
      if config.Err? {
        return Err(config.error);
      }
      FileIsValidIff(config.value, request.fileName, request.contentLength);
      var valid := CheckFileValidity(config.value, request.fileName, request.contentLength);
      if valid.Err? {
        return Err(valid.error);
      }
      if !signs {
        return Err(UnexpectedError);
      }
      issued := issued + [(id, request.field)];
      result := Ok(());
    }

    method DeleteUploadSession(id: Uuid)
      modifies this`sessions
      ensures sessions == old(sessions) - {id}
    {
      sessions := sessions - {id};
    }

    method CheckUploadSessionExists(id: Uuid, now: int) returns (result: Result<(), AppError>)
      ensures result.Ok? <==> Alive(sessions, id, now)
    {
      result := if Alive(sessions, id, now) then Ok(()) else Err(DataNotFound);
    }
  }

  /** Only the owner succeeds, only while the session lives and quota is left; and it costs exactly one. */
  lemma DeductSucceedsIff(sessions: Sessions, id: Uuid, field: string, user: Uuid, now: int)
    ensures
      var (after, result) := DeductScript(sessions, id, field, user, now);
      && (result.Ok? <==>
            Alive(sessions, id, now) && user == sessions[id].user
            && field in sessions[id].configs && sessions[id].configs[field].quota > 0)
      && (result.Err? ==> after == sessions)
      && (result.Ok? ==>
            && after.Keys == sessions.Keys
            && (forall t :: Alive(after, id, t) <==> t < now + 1800 * 1_000_000)
            && after[id].user == sessions[id].user && after[id].configs.Keys == sessions[id].configs.Keys
            && after[id].configs[field] == sessions[id].configs[field].(quota := sessions[id].configs[field].quota - 1)
            && (forall f :: f in sessions[id].configs && f != field ==> after[id].configs[f] == sessions[id].configs[f])
            && (forall other :: other in sessions && other != id ==> after[other] == sessions[other]))
  {
  }

  // ---------------------------------------------------------------- runs

  datatype Step =
    | Start(id: Uuid, user: Uuid, configs: map<string, FileConfig>)
    | Presign(id: Uuid, request: UploadRequest, user: Uuid, signs: bool)
    | Delete(id: Uuid)
    | Tick(ticks: nat)

  datatype State = State(now: int, sessions: Sessions)

  function Apply(s: State, step: Step): State {
    match step
    case Start(id, user, configs) => s.(sessions := s.sessions[id := Session(user, configs, s.now + SESSION_TICKS)])
    case Presign(id, request, user, _) => s.(sessions := DeductScript(s.sessions, id, request.field, user, s.now).0)
    case Delete(id) => s.(sessions := s.sessions - {id})
    case Tick(ticks) => s.(now := s.now + ticks)
  }

  function After(s: State, steps: seq<Step>): State
    decreases |steps|
  {
    if steps == [] then s else After(Apply(s, steps[0]), steps[1..])
  }

  predicate Deducts(s: State, step: Step, id: Uuid, field: string) {
    step.Presign? && step.id == id && step.request.field == field
    && DeductScript(s.sessions, id, field, step.user, s.now).1.Ok?
  }

  predicate Issues(s: State, step: Step, id: Uuid, field: string) {
    Deducts(s, step, id, field) && step.signs
    && CheckFileValidity(
         DeductScript(s.sessions, id, field, step.user, s.now).1.value, step.request.fileName,
           step.request.contentLength).Ok?
  }

  function Deductions(s: State, steps: seq<Step>, id: Uuid, field: string): nat
    decreases |steps|
  {
    if steps == [] then 0
    else (if Deducts(s, steps[0], id, field) then 1 else 0) + Deductions(Apply(s, steps[0]), steps[1..], id, field)
  }

  function UrlsIssued(s: State, steps: seq<Step>, id: Uuid, field: string): nat
    decreases |steps|
  {
    if steps == [] then 0
    else (if Issues(s, steps[0], id, field) then 1 else 0) + UrlsIssued(Apply(s, steps[0]), steps[1..], id, field)
  }

  // Session ids are random UUIDs: none is started twice.
  predicate NeverStarted(steps: seq<Step>, id: Uuid) {
    forall i :: 0 <= i < |steps| ==> !(steps[i].Start? && steps[i].id == id)
  }

  function QuotaLeft(s: State, id: Uuid, field: string): nat {
    if id in s.sessions && field in s.sessions[id].configs then s.sessions[id].configs[field].quota else 0
  }

  // The session's configuration but for the quotas.
  function Fixed(s: State, id: Uuid): Option<(Uuid, map<string, FileConfig>)> {
    if id in s.sessions then Some((s.sessions[id].user, WithoutQuotas(s.sessions[id].configs))) else None
  }

  function WithoutQuotas(configs: map<string, FileConfig>): map<string, FileConfig> {
    map f | f in configs :: configs[f].(quota := 0)
  }

  lemma OneStep(s: State, step: Step, id: Uuid, field: string)
    requires !(step.Start? && step.id == id)
    ensures
      var after := Apply(s, step);
      && (Alive(after.sessions, id, after.now) ==>
            && Alive(s.sessions, id, s.now)
            && QuotaLeft(after, id, field) + (if Deducts(s, step, id, field) then 1 else 0) == QuotaLeft(s, id, field)
            && Fixed(after, id) == Fixed(s, id))
      && (Deducts(s, step, id, field) ==> Alive(s.sessions, id, s.now) && QuotaLeft(s, id, field) > 0)
  {
    if step.Presign? && step.id == id {
      DeductSucceedsIff(s.sessions, id, step.request.field, step.user, s.now);
      var after := Apply(s, step);
      if Alive(s.sessions, id, s.now) {
        assert WithoutQuotas(after.sessions[id].configs) == WithoutQuotas(s.sessions[id].configs);
      }
    }
  }

  /**
   * Quota conservation: over any run, while a session lives, its successful deductions
   * and what is left of a field's quota add up to the quota at the beginning, and owner,
   * fields, types and sizes are as they were. Dead or alive, deductions never exceed the
   * quota, and no more URLs are issued than deductions made.
   */
  lemma {:induction false} QuotaIsConserved(s: State, steps: seq<Step>, id: Uuid, field: string)
    requires NeverStarted(steps, id)
    ensures
      var after := After(s, steps);
      && UrlsIssued(s, steps, id, field) <= Deductions(s, steps, id, field) <= QuotaLeft(s, id, field)
      && (Alive(after.sessions, id, after.now) ==>
            && Alive(s.sessions, id, s.now)
            && Deductions(s, steps, id, field) + QuotaLeft(after, id, field) == QuotaLeft(s, id, field)
            && Fixed(after, id) == Fixed(s, id))
    decreases |steps|
  {
    if steps != [] {
      var next := Apply(s, steps[0]);
      OneStep(s, steps[0], id, field);
      forall i | 0 <= i < |steps| - 1 ensures !(steps[1..][i].Start? && steps[1..][i].id == id) {
        assert steps[1..][i] == steps[i + 1];
      }
      QuotaIsConserved(next, steps[1..], id, field);
      if !Alive(next.sessions, id, next.now) {
        DeadStaysDead(next, steps[1..], id, field);
      }
    }
  }

  /** An expired or deleted session yields nothing more. */
  lemma {:induction false} DeadStaysDead(s: State, steps: seq<Step>, id: Uuid, field: string)
    requires NeverStarted(steps, id) && !Alive(s.sessions, id, s.now)
    ensures Deductions(s, steps, id, field) == 0 && !Alive(After(s, steps).sessions, id, After(s, steps).now)
    decreases |steps|
  {
    if steps != [] {
      OneStep(s, steps[0], id, field);
      forall i | 0 <= i < |steps| - 1 ensures !(steps[1..][i].Start? && steps[1..][i].id == id) {
        assert steps[1..][i] == steps[i + 1];
      }
      DeadStaysDead(Apply(s, steps[0]), steps[1..], id, field);
    }
  }
}
