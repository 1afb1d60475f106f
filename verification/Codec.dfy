/** The JSON form of the records: `omitempty` on the way out, decoding over a receiver on the way in. */
module Codec {
  import opened Records

  datatype Json = JString(s: string) | JNumber(n: int) | JBool(b: bool)

  /** JSON names of the key record: aid, nid, key, srt, usr, pwd, qps, fpm, _imp, _exp. */
  datatype KeyTag = Aid | Nid | Key | Srt | Usr | Pwd | Qps | Fpm | Imp | Exp
  /** JSON names of the usage record: _v3t, _v3te, _v3to, enu, _urm, etm. */
  datatype UsageTag = V3t | V3te | V3to | Enu | Urm | Etm

  type KeysObject = map<KeyTag, Json>
  type UsageObject = map<UsageTag, Json>

  function KeyField(k: RoleKeys, tag: KeyTag): Json {
    match tag
    case Aid => JString(k.areaId)
    case Nid => JNumber(k.areaNid)
    case Key => JString(k.apiKey)
    case Srt => JString(k.keySecret)
    case Usr => JString(k.username)
    case Pwd => JString(k.password)
    case Qps => JNumber(k.maxQPS)
    case Fpm => JBool(k.forceProxyMode)
    case Imp => JBool(k.imported)
    case Exp => JBool(k.exportable)
  }

  function UsageField(u: RoleUsage, tag: UsageTag): Json {
    match tag
    case V3t => JString(u.v3Token)
    case V3te => JNumber(u.v3TokenExpiry)
    case V3to => JNumber(u.v3TokenObtained)
    case Enu => JNumber(u.explicitNumUses)
    case Urm => JNumber(u.remainingNumUses)
    case Etm => JNumber(u.explicitTerm)
  }

  predicate IsZero(v: Json) {
    v == JString("") || v == JNumber(0) || v == JBool(false)
  }

  /** A field marked `omitempty` is written only when it is not its type's zero value; all key fields but the two
      underscored ones are so marked, and of the usage fields the two limits. */
  function EncodeKeys(k: RoleKeys): KeysObject {
    map tag: KeyTag | tag in {Imp, Exp} || !IsZero(KeyField(k, tag)) :: KeyField(k, tag)
  }

  function EncodeUsage(u: RoleUsage): UsageObject {
    map tag: UsageTag | tag !in {Enu, Etm} || !IsZero(UsageField(u, tag)) :: UsageField(u, tag)
  }

  /** A field of the document, or the receiver's own value when the document lacks it. */
  function StringAt<T>(o: map<T, Json>, tag: T, receiver: string): Option<string> {
    if tag !in o then Some(receiver) else if o[tag].JString? then Some(o[tag].s) else None
  }

  function NumberAt<T>(o: map<T, Json>, tag: T, receiver: int): Option<int> {
    if tag !in o then Some(receiver) else if o[tag].JNumber? then Some(o[tag].n) else None
  }

  function BoolAt<T>(o: map<T, Json>, tag: T, receiver: bool): Option<bool> {
    if tag !in o then Some(receiver) else if o[tag].JBool? then Some(o[tag].b) else None
  }

  /** Decodes into a receiver; a field of the wrong JSON type is an error. */
  function DecodeKeys(o: KeysObject, r: RoleKeys): Option<RoleKeys> {
    match (StringAt(o, Aid, r.areaId), NumberAt(o, Nid, r.areaNid), StringAt(o, Key, r.apiKey),
           StringAt(o, Srt, r.keySecret), StringAt(o, Usr, r.username), StringAt(o, Pwd, r.password),
           NumberAt(o, Qps, r.maxQPS), BoolAt(o, Fpm, r.forceProxyMode),
           BoolAt(o, Imp, r.imported), BoolAt(o, Exp, r.exportable))
    case (Some(aid), Some(nid), Some(key), Some(srt), Some(usr), Some(pwd), Some(qps), Some(fpm), Some(imp), Some(exp)) =>
      Some(RoleKeys(aid, nid, key, srt, usr, pwd, qps, fpm, imp, exp))
    case _ => None
  }

  function DecodeUsage(o: UsageObject, r: RoleUsage): Option<RoleUsage> {
    match (StringAt(o, V3t, r.v3Token), NumberAt(o, V3te, r.v3TokenExpiry), NumberAt(o, V3to, r.v3TokenObtained),
           NumberAt(o, Enu, r.explicitNumUses), NumberAt(o, Urm, r.remainingNumUses), NumberAt(o, Etm, r.explicitTerm))
    case (Some(t), Some(te), Some(to), Some(enu), Some(urm), Some(etm)) => Some(RoleUsage(t, te, to, enu, urm, etm))
    case _ => None
  }

  /** What a stored key record turns into when it is read back: only a QPS of zero is not kept. */
  function Normalised(k: RoleKeys): RoleKeys {
    if k.maxQPS == 0 then k.(maxQPS := DEFAULT_QPS) else k
  }

  /** Every field that `k` leaves out of its document is already zero in the receiver. */
  predicate Covers(k: RoleKeys, r: RoleKeys) {
    && (k.areaId == "" ==> r.areaId == "")
    && (k.areaNid == 0 ==> r.areaNid == 0)
    && (k.apiKey == "" ==> r.apiKey == "")
    && (k.keySecret == "" ==> r.keySecret == "")
    && (k.username == "" ==> r.username == "")
    && (k.password == "" ==> r.password == "")
    && (k.maxQPS == 0 ==> r.maxQPS == 0)
    && (!k.forceProxyMode ==> !r.forceProxyMode)
  }

  /** Whatever the receiver, a saved key record decodes, and it comes back exactly when the receiver covers it. */
  lemma {:induction false} KeysRoundTrip(k: RoleKeys, r: RoleKeys)
    ensures DecodeKeys(EncodeKeys(k), r).Some?
    ensures DecodeKeys(EncodeKeys(k), r) == Some(k) <==> Covers(k, r)
    ensures DecodeKeys(EncodeKeys(k), r).value.imported == k.imported
    ensures DecodeKeys(EncodeKeys(k), r).value.exportable == k.exportable
  {
    FieldsOfKeys(k, r);
  }

  lemma {:induction false} FieldsOfKeys(k: RoleKeys, r: RoleKeys)
    ensures var o := EncodeKeys(k);
            && StringAt(o, Aid, r.areaId) == Some(if k.areaId == "" then r.areaId else k.areaId)
            && NumberAt(o, Nid, r.areaNid) == Some(if k.areaNid == 0 then r.areaNid else k.areaNid)
            && StringAt(o, Key, r.apiKey) == Some(if k.apiKey == "" then r.apiKey else k.apiKey)
            && StringAt(o, Srt, r.keySecret) == Some(if k.keySecret == "" then r.keySecret else k.keySecret)
            && StringAt(o, Usr, r.username) == Some(if k.username == "" then r.username else k.username)
            && StringAt(o, Pwd, r.password) == Some(if k.password == "" then r.password else k.password)
            && NumberAt(o, Qps, r.maxQPS) == Some(if k.maxQPS == 0 then r.maxQPS else k.maxQPS)
            && BoolAt(o, Fpm, r.forceProxyMode) == Some(k.forceProxyMode || r.forceProxyMode)
            && BoolAt(o, Imp, r.imported) == Some(k.imported)
            && BoolAt(o, Exp, r.exportable) == Some(k.exportable)
  {}

  /** Reading saved keys over the defaults normalises a QPS of zero and changes nothing else; doing it twice is
      doing it once. */
  lemma KeysReadBack(k: RoleKeys)
    ensures DecodeKeys(EncodeKeys(k), INITIAL_KEYS) == Some(Normalised(k))
    ensures Normalised(Normalised(k)) == Normalised(k)
  {
    FieldsOfKeys(k, INITIAL_KEYS);
  }

  /** Keys that are saved and read over the defaults `n` times. */
  function Reread(k: RoleKeys, n: nat): Option<RoleKeys>
    decreases n
  {
    if n == 0 then Some(k)
    else match DecodeKeys(EncodeKeys(k), INITIAL_KEYS)
      case None => None
      case Some(read) => Reread(read, n - 1)
  }

  /** However often a role is saved and read back, the marks stay and nothing drifts: the default of being exportable
      never creeps in. */
  lemma {:induction false} RereadingDriftsNowhere(k: RoleKeys, n: nat)
    ensures Reread(k, n).Some? && Reread(k, n).value.exportable == k.exportable && Reread(k, n).value.imported == k.imported
    ensures n > 0 ==> Reread(k, n) == Some(Normalised(k))
    decreases n
  {
    if n > 0 {
      KeysReadBack(k);
      hide EncodeKeys, DecodeKeys;
      RereadingDriftsNowhere(Normalised(k), n - 1);
    }
  }

  lemma FieldsOfUsage(u: RoleUsage, r: RoleUsage)
    ensures var o := EncodeUsage(u);
            && StringAt(o, V3t, r.v3Token) == Some(u.v3Token)
            && NumberAt(o, V3te, r.v3TokenExpiry) == Some(u.v3TokenExpiry)
            && NumberAt(o, V3to, r.v3TokenObtained) == Some(u.v3TokenObtained)
            && NumberAt(o, Enu, r.explicitNumUses) == Some(if u.explicitNumUses == 0 then r.explicitNumUses else u.explicitNumUses)
            && NumberAt(o, Urm, r.remainingNumUses) == Some(u.remainingNumUses)
            && NumberAt(o, Etm, r.explicitTerm) == Some(if u.explicitTerm == 0 then r.explicitTerm else u.explicitTerm)
  {}

  lemma UsageReadBack(u: RoleUsage)
    ensures DecodeUsage(EncodeUsage(u), ZERO_USAGE) == Some(u)
  {
    FieldsOfUsage(u, ZERO_USAGE);
  }

  /** The exchange document: the keys under `d`, and under `u` the two limits, each omitted when zero. */
  datatype ExchangeObject = ExchangeObject(d: KeysObject, u: Option<UsageObject>)

  function EncodeTerm(t: UsageTerm): UsageObject {
    var u := ZERO_USAGE.(explicitTerm := t.explicitTerm, explicitNumUses := t.explicitNumUses);
    map tag: UsageTag | tag in {Enu, Etm} && !IsZero(UsageField(u, tag)) :: UsageField(u, tag)
  }

  function EncodeExchange(x: RoleDataExchange): ExchangeObject {
    ExchangeObject(EncodeKeys(x.roleData),
                   match x.usageTerm
                   case None => None
                   case Some(t) => Some(EncodeTerm(t)))
  }

  function DecodeExchange(o: ExchangeObject): Option<RoleDataExchange> {
    match (DecodeKeys(o.d, ZERO_KEYS), o.u)
    case (Some(k), None) => Some(RoleDataExchange(k, None))
    case (Some(k), Some(u)) =>
      (match (NumberAt(u, Etm, 0), NumberAt(u, Enu, 0))
       case (Some(etm), Some(enu)) => Some(RoleDataExchange(k, Some(UsageTerm(etm, enu))))
       case _ => None)
    case _ => None
  }

  /** Over a zero receiver the exchange document loses nothing. */
  lemma ExchangeRoundTrip(x: RoleDataExchange)
    ensures DecodeExchange(EncodeExchange(x)) == Some(x)
  {
    FieldsOfKeys(x.roleData, ZERO_KEYS);
  }
}
