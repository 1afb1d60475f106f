/** The words the theorems are stated in: the fields of the records, seconds and plain numbers. None of them is used by
    the engine itself, whose own predicates and updates they pin down. */
module Vocabulary {
  import opened Records
  import opened Engine

  /** The second the clock shows at tick `t`. */
  function Second(env: Env, t: nat): int {
    env.clock(t) / 1_000_000_000
  }

  /** Not past the term, if there is one, and with a use left, if they are counted. */
  predicate WithinLimits(u: RoleUsage, second: int) {
    && (u.explicitTerm > 0 ==> second <= u.explicitTerm)
    && (u.explicitNumUses > 0 ==> u.remainingNumUses > 0)
  }

  predicate AbleV2(k: RoleKeys) {
    k.areaNid > 0 && k.apiKey != "" && k.keySecret != ""
  }

  predicate AbleV3(k: RoleKeys) {
    k.areaId != "" && k.apiKey != "" && k.keySecret != "" && k.username != "" && k.password != ""
  }

  /** The stored token is missing, or fewer than 300 seconds of its life remain. */
  predicate TokenIsOld(u: RoleUsage, second: int) {
    u.v3Token == "" || second > u.v3TokenExpiry - 300
  }

  predicate SameLimits(u: RoleUsage, v: RoleUsage) {
    u.explicitNumUses == v.explicitNumUses && u.explicitTerm == v.explicitTerm
  }

  predicate SameToken(u: RoleUsage, v: RoleUsage) {
    u.v3Token == v.v3Token && u.v3TokenExpiry == v.v3TokenExpiry && u.v3TokenObtained == v.v3TokenObtained
  }

  predicate TokenBlank(u: RoleUsage) {
    u.v3Token == "" && u.v3TokenExpiry == -1 && u.v3TokenObtained == -1
  }

  /** A key field after a request: what the request gives, or else what it was. */
  function Taken<T>(given: Option<T>, before: T): T {
    match given case None => before case Some(value) => value
  }

  /** The keys a new role starts from. */
  const NEW_KEYS := RoleKeys("", 0, "", "", "", "", 2, false, false, true)

  /** A QPS as read back from storage. */
  function QpsRead(qps: int): int {
    if qps == 0 then 2 else qps
  }

  /** Each credential of `k` is the requested one, if one is requested, and else that of `before`; the marks and the
      proxy restriction are those of `before`. */
  predicate CredentialsTaken(before: RoleKeys, u: KeyUpdate, k: RoleKeys) {
    && k.areaId == Taken(u.areaId, before.areaId)
    && k.areaNid == Taken(u.areaNid, before.areaNid)
    && k.apiKey == Taken(u.apiKey, before.apiKey)
    && k.keySecret == Taken(u.keySecret, before.keySecret)
    && k.username == Taken(u.username, before.username)
    && k.password == Taken(u.password, before.password)
    && k.forceProxyMode == before.forceProxyMode
    && k.imported == before.imported
    && k.exportable == before.exportable
  }

  /** The usage record once a use has been taken, if uses are counted. */
  function OneUseLess(u: RoleUsage): RoleUsage {
    if u.explicitNumUses > 0 then u.(remainingNumUses := u.remainingNumUses - 1) else u
  }

  /** The usage record once the token of OAuth's answer at tick `t` is in it. */
  function WithGrantedToken(env: Env, t: nat, u: RoleUsage): RoleUsage
    requires env.oauth(t).Granted?
  {
    u.(v3Token := env.oauth(t).token,
       v3TokenExpiry := Second(env, t) + env.oauth(t).expiresIn,
       v3TokenObtained := Second(env, t + 1))
  }

  /** The usage record in memory after the renewal check of tick `t`: the same while the token is good, or if a new one
      is denied; else with the token of OAuth's answer. */
  predicate RenewedIfOld(env: Env, t: nat, before: RoleUsage, after: RoleUsage, reply: Reply) {
    if !TokenIsOld(before, Second(env, t)) then reply == Continue && after == before
    else match env.oauth(t + 1)
      case Denied => reply == Fail && after == before
      case Granted(_, _, _) => after == WithGrantedToken(env, t + 1, before)
  }
}
