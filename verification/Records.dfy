/** The three records a role is made of, and the record that travels between roles. */
module Records {
  datatype Option<+T> = None | Some(value: T)

  const NANOS_PER_SECOND := 1_000_000_000

  /** `time.Time.Unix`: the whole seconds of an instant given in nanoseconds, rounded down. */
  function Unix(instant: int): int {
    instant / NANOS_PER_SECOND
  }

  const DEFAULT_QPS := 2
  /** A token is renewed once less than this many seconds of its life remain. */
  const RENEWAL_MARGIN := 300

  datatype RoleKeys = RoleKeys(
    areaId: string, areaNid: int, apiKey: string, keySecret: string, username: string, password: string,
    maxQPS: int, forceProxyMode: bool, imported: bool, exportable: bool)
  {
    predicate SuppliesKeyAndSecret() {
      |apiKey| > 0 && |keySecret| > 0
    }

    predicate IsV2Capable() {
      areaNid > 0 && SuppliesKeyAndSecret()
    }

    predicate IsV3Capable() {
      |areaId| > 0 && SuppliesKeyAndSecret() && |username| > 0 && |password| > 0
    }
  }

  /** Times are in seconds since the epoch; a field that is not positive sets no limit. */
  datatype RoleUsage = RoleUsage(
    v3Token: string, v3TokenExpiry: int, v3TokenObtained: int,
    explicitNumUses: int, remainingNumUses: int, explicitTerm: int)
  {
    predicate HasUsageQuota() {
      explicitNumUses > 0
    }

    predicate Expired(now: int) {
      explicitTerm > 0 && now > explicitTerm
    }

    predicate Depleted() {
      explicitNumUses > 0 && remainingNumUses <= 0
    }

    predicate IsUnboundedUsage() {
      explicitNumUses <= 0 && explicitTerm <= 0
    }

    predicate V3TokenNeedsRenew(now: int) {
      |v3Token| == 0 || now > v3TokenExpiry - RENEWAL_MARGIN
    }

    function WithToken(token: string, expiry: int, obtained: int): RoleUsage {
      this.(v3Token := token, v3TokenExpiry := expiry, v3TokenObtained := obtained)
    }

    function WithoutToken(): RoleUsage {
      WithToken("", -1, -1)
    }

    function Reduced(): RoleUsage {
      if remainingNumUses > 0 then this.(remainingNumUses := remainingNumUses - 1) else this
    }

    function Unbounded(): RoleUsage {
      this.(explicitNumUses := -1, explicitTerm := -1, remainingNumUses := -1)
    }

    function WithTerm(term: Option<UsageTerm>): RoleUsage {
      match term
      case None => Unbounded()
      case Some(t) =>
        this.(explicitTerm := t.explicitTerm,
              explicitNumUses := t.explicitNumUses,
              remainingNumUses := if t.explicitNumUses > 0 then t.explicitNumUses else remainingNumUses)
    }

    /** The uses a quota-bound record still allows. */
    function Allowance(): nat {
      if explicitNumUses > 0 && remainingNumUses > 0 then remainingNumUses else 0
    }
  }

  /** A private key is known by its number, and its public half carries the same number. */
  datatype PrivateKey = PrivateKey(id: nat)

  datatype Role = Role(name: string, keys: RoleKeys, usage: RoleUsage, privateKey: Option<PrivateKey>)

  datatype UsageTerm = UsageTerm(explicitTerm: int, explicitNumUses: int)
  datatype RoleDataExchange = RoleDataExchange(roleData: RoleKeys, usageTerm: Option<UsageTerm>)

  const ZERO_KEYS := RoleKeys("", 0, "", "", "", "", 0, false, false, false)
  const ZERO_USAGE := RoleUsage("", 0, 0, 0, 0, 0)

  /** What a role is before anything is read into it. */
  const INITIAL_KEYS := ZERO_KEYS.(maxQPS := DEFAULT_QPS, exportable := true)

  function InitialRole(name: string): Role {
    Role(name, INITIAL_KEYS, ZERO_USAGE, None)
  }

  /** The keys a role has after importing `x`: everything is taken over, and the imported mark is set. */
  function ImportedKeys(x: RoleDataExchange): RoleKeys {
    x.roleData.(imported := true)
  }

  function Imported(role: Role, x: RoleDataExchange): Role {
    role.(keys := ImportedKeys(x), usage := role.usage.WithTerm(x.usageTerm))
  }

  /** The role object of one request. Its records are edited in place through a shared reference. */
  class StoredRole {
    const name: string
    var keys: RoleKeys
    var usage: RoleUsage
    var privateKey: Option<PrivateKey>

    function Value(): Role
      reads this
    {
      Role(name, keys, usage, privateKey)
    }

    constructor (name: string)
      ensures Value() == InitialRole(name)
      ensures keys == RoleKeys("", 0, "", "", "", "", 2, false, false, true) && usage == RoleUsage("", 0, 0, 0, 0, 0)
      ensures this.name == name && privateKey == None
    {
      this.name := name;
      keys, usage, privateKey := INITIAL_KEYS, ZERO_USAGE, None;
    }

    method ReplaceAccessToken(token: string, expiry: int, now: int)
      modifies this`usage
      ensures usage == old(usage).WithToken(token, expiry, now)
      ensures usage == RoleUsage(token, expiry, now,
                                 old(usage.explicitNumUses), old(usage.remainingNumUses), old(usage.explicitTerm))
    {
      usage := usage.(v3Token := token);
      usage := usage.(v3TokenExpiry := expiry);
      usage := usage.(v3TokenObtained := now);
    }

    method ResetToken()
      modifies this`usage
      ensures usage == old(usage).WithoutToken()
      ensures usage == RoleUsage("", -1, -1,
                                 old(usage.explicitNumUses), old(usage.remainingNumUses), old(usage.explicitTerm))
    {
      usage := usage.(v3Token := "");
      usage := usage.(v3TokenExpiry := -1);
      usage := usage.(v3TokenObtained := -1);
    }

    method ReduceRemainingQuota()
      modifies this`usage
      ensures usage == old(usage).Reduced()
      ensures usage == old(usage).(remainingNumUses := usage.remainingNumUses)
      ensures usage.remainingNumUses == old(usage.remainingNumUses) - (if old(usage.remainingNumUses) > 0 then 1 else 0)
      ensures old(usage).HasUsageQuota() && !old(usage).Depleted() ==>
                usage.Allowance() + 1 == old(usage).Allowance()
    {
      if usage.remainingNumUses > 0 {
        usage := usage.(remainingNumUses := usage.remainingNumUses - 1);
      }
    }

    method UnboundedUsage()
      modifies this`usage
      ensures usage == old(usage).Unbounded() && usage.IsUnboundedUsage()
      ensures usage == RoleUsage(old(usage.v3Token), old(usage.v3TokenExpiry), old(usage.v3TokenObtained), -1, -1, -1)
    {
      usage := usage.(explicitNumUses := -1);
      usage := usage.(explicitTerm := -1);
      usage := usage.(remainingNumUses := -1);
    }

    method Import(x: RoleDataExchange)
      modifies this`keys, this`usage
      ensures Value() == Imported(old(Value()), x)
      ensures keys == x.roleData.(imported := true)
      ensures usage.v3Token == old(usage.v3Token) && usage.v3TokenExpiry == old(usage.v3TokenExpiry)
      ensures usage.v3TokenObtained == old(usage.v3TokenObtained)
      ensures x.usageTerm.Some? ==>
                && usage.explicitTerm == x.usageTerm.value.explicitTerm
                && usage.explicitNumUses == x.usageTerm.value.explicitNumUses
                && usage.remainingNumUses ==
                   if usage.explicitNumUses > 0 then usage.explicitNumUses else old(usage.remainingNumUses)
      ensures x.usageTerm.None? ==>
                usage.explicitTerm == -1 && usage.explicitNumUses == -1 && usage.remainingNumUses == -1
    {
      keys := keys.(areaId := x.roleData.areaId);
      keys := keys.(areaNid := x.roleData.areaNid);
      keys := keys.(apiKey := x.roleData.apiKey);
      keys := keys.(keySecret := x.roleData.keySecret);
      keys := keys.(username := x.roleData.username);
      keys := keys.(password := x.roleData.password);
      keys := keys.(maxQPS := x.roleData.maxQPS);
      keys := keys.(forceProxyMode := x.roleData.forceProxyMode);
      keys := keys.(imported := true);
      keys := keys.(exportable := x.roleData.exportable);

      match x.usageTerm {
        case Some(term) =>
          usage := usage.(explicitTerm := term.explicitTerm);
          usage := usage.(explicitNumUses := term.explicitNumUses);
          if usage.explicitNumUses > 0 {
            usage := usage.(remainingNumUses := usage.explicitNumUses);
          }
        case None =>
          UnboundedUsage();
      }
    }
  }
}
