/** Export and import: what travels between two roles, and what becomes of it over chains of exports. */
module Exchange {
  import opened Records
  import opened Codec
  import opened Engine
  import opened Traces
  import opened Vocabulary
  import opened Safety
  import opened Runs
  import opened Frames
  import opened Lifecycle
  import Terms

  lemma Unfold(env: Env, p: string, steps: seq<Step>, w: World, h: Heap)
    requires steps != []
    ensures var o := Apply(env, p, steps[0], w, h);
            RunSteps(env, p, steps, w, h) == if o.reply != Continue then o else RunSteps(env, p, steps[1..], o.w, o.h)
  {}

  lemma RecordsApart(store: Store, p: string, k: PrivateKey, q: string)
    ensures KeysIn(store[RolePath(p, PkRecord) := Blob(k)], q) == KeysIn(store, q)
    ensures UsageIn(store[RolePath(p, PkRecord) := Blob(k)], q) == UsageIn(store, q)
  {}

  ghost predicate KeepsRecords(a: Store, b: Store) {
    forall q :: KeysIn(b, q) == KeysIn(a, q) && UsageIn(b, q) == UsageIn(a, q)
  }

  lemma RecordKept(a: Store, b: Store, p: string)
    ensures KeepsRecords(a, b) ==> KeysIn(b, p) == KeysIn(a, p) && UsageIn(b, p) == UsageIn(a, p)
  {}

  // ---- reading the certificate ----

  /** After the private key was retrieved, the role in the heap has the stored one, and no other record changed. */
  lemma KeyRetrieved(env: Env, p: string, w: World, h: Heap)
    requires h.role.Some? && h.role.value.privateKey == None
    ensures var o := Apply(env, p, RetrievePrivateKey, w, h);
            && KeepsRecords(w.store, o.w.store) && o.w.live == w.live
            && (o.reply == Continue ==>
                  && o.h.role.Some? && o.h.role.value.keys == h.role.value.keys && o.h.role.value.usage == h.role.value.usage
                  && (o.h.role.value.privateKey == None ==> PkIn(o.w.store, p).Broken?)
                  && (o.h.role.value.privateKey.Some? ==> PkIn(o.w.store, p) == Is(o.h.role.value.privateKey.value)))
            && (PkIn(w.store, p).Is? ==> o.w.store == w.store)
  {
    var o := Apply(env, p, RetrievePrivateKey, w, h);
    if o.w.store != w.store {
      forall q ensures KeysIn(o.w.store, q) == KeysIn(w.store, q) && UsageIn(o.w.store, q) == UsageIn(w.store, q) {
        RecordsApart(w.store, p, env.rsaKey(w.tick + 1).value, q);
      }
    }
  }

  lemma RoleRead(env: Env, p: string, w: World)
    ensures var o := Apply(env, p, ReadRole(true), w, EMPTY_HEAP);
            && o.w.store == w.store && o.w.live == w.live && (o.reply == Continue || o.reply == Refused || o.reply == Fail)
            && (o.reply == Continue ==>
                  && KeysIn(w.store, p).Is? && UsageIn(w.store, p).Is?
                  && o.h == EMPTY_HEAP.(role := Some(InitialRole(p).(keys := KeysIn(w.store, p).value,
                                                                     usage := UsageIn(w.store, p).value))))
  {}

  lemma CertificateRendered(env: Env, p: string, w: World, h: Heap)
    requires h.role.Some?
    ensures var o := Apply(env, p, RenderCertificate, w, h);
            && o.w.store == w.store && o.w.live == w.live
            && (o.reply.Respond? || o.reply == Fail)
            && (o.reply.Respond? ==>
                  && h.role.value.privateKey.Some? && o.w.tick == w.tick + 2
                  && o.reply == Respond(RoleCertificate(Certificate(
                       h.role.value.privateKey.value.id, env.clock(w.tick), env.clock(w.tick + 1) + 14_400_000_000_000))))
  {}

  lemma {:induction false} OneStep(env: Env, p: string, s: Step, w: World, h: Heap)
    ensures RunSteps(env, p, [s], w, h) == Apply(env, p, s, w, h)
  {
    Unfold(env, p, [s], w, h);
    var o := Apply(env, p, s, w, h);
    hide Apply;
    assert [s][1..] == [];
    assert RunSteps(env, p, [], o.w, o.h) == Go(o.w, o.h);
  }

  /** A certificate read from a role carries the public half of the private key that is now stored with it, and is valid
      for four hours from the moment it was made. */
  lemma CertificateShowsKey(env: Env, w: World, p: string)
    ensures var (w', reply) := RunRequest(env, w, Request(p, ReadPem));
            && KeepsRecords(w.store, w'.store) && w'.live == w.live
            && (reply.Respond? ==>
                  && reply.output.RoleCertificate? && KeysIn(w.store, p).Is? && UsageIn(w.store, p).Is?
                  && PkIn(w'.store, p) == Is(PrivateKey(reply.output.certificate.publicKey)) && w'.tick >= 2
                  && reply.output.certificate.notBefore == env.clock(w'.tick - 2)
                  && reply.output.certificate.notAfter == env.clock(w'.tick - 1) + 14_400_000_000_000)
  {
    hide *;
    var w0, steps := w.(req := w.req + 1), CertificateSteps();
    CertificateFlat(env, w, p);
    RoleRead(env, p, w0);
    KeptAlready(w0.store);
    Unfold(env, p, steps, w0, EMPTY_HEAP);
    var o := Apply(env, p, ReadRole(true), w0, EMPTY_HEAP);
    if o.reply == Continue {
      FirstRead(env, p, w0);
      Unfold(env, p, steps[1..], o.w, o.h);
      KeyRetrieved(env, p, o.w, o.h);
      RetrievalIsSilent(env, p, o.w, o.h);
      var o2 := Apply(env, p, RetrievePrivateKey, o.w, o.h);
      if o2.reply == Continue {
        OneStep(env, p, RenderCertificate, o2.w, o2.h);
        CertificateRendered(env, p, o2.w, o2.h);
      }
    }
  }

  function CertificateSteps(): seq<Step> {
    [ReadRole(true)] + ([RetrievePrivateKey] + [RenderCertificate])
  }

  lemma CertificateFlat(env: Env, w: World, p: string)
    ensures var o := RunSteps(env, p, CertificateSteps(), w.(req := w.req + 1), EMPTY_HEAP);
            RunRequest(env, w, Request(p, ReadPem)) == (o.w, o.reply)
    ensures var steps := CertificateSteps();
            && steps != [] && steps[0] == ReadRole(true)
            && steps[1..] != [] && steps[1..][0] == RetrievePrivateKey && steps[1..][1..] == [RenderCertificate]
  {
    assert HandlerOf(ReadPem) == Flat(CertificateSteps());
    FlatRequest(env, w, Request(p, ReadPem), CertificateSteps());
  }

  lemma KeptAlready(store: Store)
    ensures KeepsRecords(store, store)
  {}

  lemma FirstRead(env: Env, p: string, w: World)
    ensures var o := Apply(env, p, ReadRole(true), w, EMPTY_HEAP);
            o.reply == Continue ==> o.h.role.Some? && o.h.role.value.privateKey == None
  {}

  /** What retrieving the private key comes to: the stored one, or one generated and stored, whatever its write does. */
  lemma KeyOutcome(env: Env, p: string, w: World, h: Heap)
    requires h.role.Some? && h.role.value.privateKey == None
    ensures var o := Apply(env, p, RetrievePrivateKey, w, h);
            if !env.ok(w.tick) then o.reply == Fail && o.w.store == w.store
            else match PkIn(w.store, p)
              case Is(k) => o.reply == Continue && o.w.store == w.store && o.w.tick == w.tick + 1 && HoldsKey(o.h, Some(k))
              case Broken => o.reply == Continue && o.w.store == w.store && HoldsKey(o.h, None)
              case Absent =>
                match env.rsaKey(w.tick + 1)
                case None => o.reply == Fail && o.w.store == w.store
                case Some(k) =>
                  && o.w.store == (if env.ok(w.tick + 2) || env.sticks(w.tick + 2)
                                   then w.store[RolePath(p, PkRecord) := Blob(k)] else w.store)
                  && if env.ok(w.tick + 2) then o.reply == Continue && o.w.tick == w.tick + 3 && HoldsKey(o.h, Some(k))
                     else o.reply == Fail
  {}

  predicate HoldsKey(h: Heap, k: Option<PrivateKey>) {
    h.role.Some? && h.role.value.privateKey == k
  }

  lemma KeyHeld(h: Heap, k: Option<PrivateKey>)
    ensures HoldsKey(h, k) <==> h.role.Some? && h.role.value.privateKey == k
  {}

  lemma CertificateOutcome(env: Env, p: string, w: World, h: Heap)
    requires h.role.Some?
    ensures var o := Apply(env, p, RenderCertificate, w, h);
            && o.w.store == w.store
            && o.reply == if h.role.value.privateKey.None? then Fail
                          else CertificateOf(env, h.role.value.privateKey.value, w.tick)
  {}

  /** A certificate for the public half of `k`, made from tick `t` on and valid for four hours. */
  function CertificateOf(env: Env, k: PrivateKey, t: nat): Reply {
    Respond(RoleCertificate(Certificate(k.id, env.clock(t), env.clock(t + 1) + 14_400_000_000_000)))
  }

  /** Reading a certificate, exactly, for a role that can be read: it is for the stored private key; without one a key is
      generated and stored, and only a key whose storing succeeded is given out; a damaged record fails. */
  lemma CertificateIsExact(env: Env, w: World, p: string)
    requires KeysIn(w.store, p).Is? && UsageIn(w.store, p).Is? && env.ok(w.tick) && env.ok(w.tick + 1)
    ensures var (w', reply) := RunRequest(env, w, Request(p, ReadPem));
            if !env.ok(w.tick + 2) then reply == Fail && w'.store == w.store
            else match PkIn(w.store, p)
              case Is(k) => reply == CertificateOf(env, k, w.tick + 3) && w'.store == w.store
              case Broken => reply == Fail && w'.store == w.store
              case Absent =>
                match env.rsaKey(w.tick + 3)
                case None => reply == Fail && w'.store == w.store
                case Some(k) =>
                  && w'.store == (if env.ok(w.tick + 4) || env.sticks(w.tick + 4)
                                  then w.store[RolePath(p, PkRecord) := Blob(k)] else w.store)
                  && reply == if env.ok(w.tick + 4) then CertificateOf(env, k, w.tick + 5) else Fail
  {
    hide *;
    var w0, steps := w.(req := w.req + 1), CertificateSteps();
    CertificateFlat(env, w, p);
    RoleRead(env, p, w0);
    RoleReadOrNot(env, p, w0);
    FirstRead(env, p, w0);
    Unfold(env, p, steps, w0, EMPTY_HEAP);
    var o := Apply(env, p, ReadRole(true), w0, EMPTY_HEAP);
    Unfold(env, p, steps[1..], o.w, o.h);
    KeyOutcome(env, p, o.w, o.h);
    var o2 := Apply(env, p, RetrievePrivateKey, o.w, o.h);
    if o2.reply == Continue {
      KeyHeld(o2.h, None);
      if PkIn(w.store, p).Is? { KeyHeld(o2.h, Some(PkIn(w.store, p).value)); }
      else if PkIn(w.store, p).Absent? { KeyHeld(o2.h, env.rsaKey(w.tick + 3)); }
      OneStep(env, p, RenderCertificate, o2.w, o2.h);
      CertificateOutcome(env, p, o2.w, o2.h);
    }
  }

  lemma RetrievalIsSilent(env: Env, p: string, w: World, h: Heap)
    ensures !Apply(env, p, RetrievePrivateKey, w, h).reply.Respond?
  {}

  // ---- exporting ----

  /** The asked-for term can be read as a duration at instant `now`; none need be asked for. */
  predicate TermParses(x: ExportRequest, now: int, lib: Terms.Library) {
    x.term.Some? ==> Terms.ParseUserInputDuration(x.term.value, now, lib).Some?
  }

  /** The second at which an export made from tick `t` on expires: never if no term is given, or one of no length. */
  function ExpiryOf(env: Env, x: ExportRequest, t: nat): int
    requires TermParses(x, env.clock(t), env.library)
  {
    match x.term
    case None => 0
    case Some(text) =>
      var length := Terms.ParseUserInputDuration(text, env.clock(t), env.library).value;
      if length == 0 then 0 else (env.clock(t + 1) + length) / 1_000_000_000
  }

  /** The keys that are handed out of a role with keys `k`. */
  function Narrowed(k: RoleKeys, x: ExportRequest): RoleKeys {
    var onlyV2, onlyV3 := x.onlyV2 == Some(true), x.onlyV3 == Some(true);
    RoleKeys(
      if onlyV2 then "" else k.areaId,
      if onlyV3 then 0 else k.areaNid,
      k.apiKey,
      k.keySecret,
      if onlyV2 then "" else k.username,
      if onlyV2 then "" else k.password,
      if x.qps.Some? && x.qps.value > 0 then x.qps.value else k.maxQPS,
      x.forceProxyMode == Some(true), false, x.exportable == Some(true))
  }

  function UsesAsked(x: ExportRequest): int {
    if x.numUses.Some? && x.numUses.value > 0 then x.numUses.value else 0
  }

  /** What an export of keys `k` made from tick `t` on holds. */
  function Handed(env: Env, k: RoleKeys, x: ExportRequest, t: nat): RoleDataExchange
    requires TermParses(x, env.clock(t), env.library)
  {
    RoleDataExchange(Narrowed(k, x), Some(UsageTerm(ExpiryOf(env, x, t), UsesAsked(x))))
  }

  lemma HandedIsExported(env: Env, k: RoleKeys, x: ExportRequest, t: nat)
    ensures ParseDesired(x, env.clock(t), env.library).Some? <==> TermParses(x, env.clock(t), env.library)
    ensures TermParses(x, env.clock(t), env.library) ==>
              ExportOf(k, ParseDesired(x, env.clock(t), env.library).value, env.clock(t + 1)) == Handed(env, k, x, t)
  {
    hide Terms.ParseUserInputDuration;
  }

  lemma ExportRendered(env: Env, p: string, x: ExportRequest, w: World, h: Heap)
    requires h.role.Some? && h.recipient.Some?
    ensures var o := Apply(env, p, RenderExport(x), w, h);
            && o.w.store == w.store && o.w.live == w.live
            && o.reply ==
               if !TermParses(x, env.clock(w.tick), env.library) then Refused
               else if !env.encrypts(w.tick + 2) then Fail
               else Respond(RoleExport(Sealed(h.recipient.value.publicKey, w.live.oaepLabel,
                                              Packed(EncodeExchange(Handed(env, h.role.value.keys, x, w.tick))))))
  {
    HandedIsExported(env, h.role.value.keys, x, w.tick);
    hide ParseDesired, ExportOf, EncodeExchange, TermParses, Handed;
  }

  lemma ExportGates(env: Env, p: string, input: RecipientInput, w: World, h: Heap)
    requires h.role.Some?
    ensures var o := Apply(env, p, BlockNonExportable, w, h);
            o.w == w && o.h == h && o.reply == if h.role.value.keys.exportable then Continue else Refused
    ensures var o := Apply(env, p, ReadRecipient(input), w, h);
            && o.w.store == w.store && o.w.live == w.live
            && if input.CertificatePem? && input.certificate.notBefore <= env.clock(w.tick) <= input.certificate.notAfter
               then o == Out(w.Ticked(1), h.(recipient := Some(input.certificate)), Continue) && o.w.tick == w.tick + 1
               else o.reply == Refused
  {}

  function ExportSteps(input: RecipientInput, x: ExportRequest): seq<Step> {
    [ReadRole(true)] + ([BlockNonExportable] + ([ReadRecipient(input)] + [RenderExport(x)]))
  }

  lemma ExportFlat(env: Env, w: World, p: string, input: RecipientInput, x: ExportRequest)
    ensures var o := RunSteps(env, p, ExportSteps(input, x), w.(req := w.req + 1), EMPTY_HEAP);
            RunRequest(env, w, Request(p, Export(input, x))) == (o.w, o.reply)
    ensures var steps := ExportSteps(input, x);
            && steps != [] && steps[0] == ReadRole(true)
            && steps[1..] != [] && steps[1..][0] == BlockNonExportable
            && steps[1..][1..] != [] && steps[1..][1..][0] == ReadRecipient(input)
            && steps[1..][1..][1..] == [RenderExport(x)]
  {
    assert HandlerOf(Export(input, x)) == Flat(ExportSteps(input, x));
    FlatRequest(env, w, Request(p, Export(input, x)), ExportSteps(input, x));
  }

  /** An export, exactly: it is refused unless the role is exportable, the input is a certificate that is valid at that
      moment and the term can be read; it fails if encryption fails; else it holds the role narrowed field by field as
      asked, without an expiry if no term is given, sealed for the certificate's key under the live label. It never writes
      anything, and a role that cannot be read is not exported. */
  lemma ExportIsExact(env: Env, w: World, p: string, input: RecipientInput, x: ExportRequest)
    ensures var (w', reply) := RunRequest(env, w, Request(p, Export(input, x)));
            && w'.store == w.store && w'.live == w.live
            && if !KeysIn(w.store, p).Is? || !UsageIn(w.store, p).Is? || !env.ok(w.tick) || !env.ok(w.tick + 1)
               then reply == Refused || reply == Fail
               else if || !KeysIn(w.store, p).value.exportable
                       || input.NotACertificate?
                       || env.clock(w.tick + 2) < input.certificate.notBefore
                       || env.clock(w.tick + 2) > input.certificate.notAfter
                       || !TermParses(x, env.clock(w.tick + 3), env.library)
               then reply == Refused
               else if !env.encrypts(w.tick + 5) then reply == Fail
               else
                 reply == Respond(RoleExport(Sealed(
                   input.certificate.publicKey, w.live.oaepLabel,
                   Packed(EncodeExchange(Handed(env, KeysIn(w.store, p).value, x, w.tick + 3))))))
  {
    hide *;
    var w0, steps := w.(req := w.req + 1), ExportSteps(input, x);
    ExportFlat(env, w, p, input, x);
    RoleRead(env, p, w0);
    RoleReadOrNot(env, p, w0);
    Unfold(env, p, steps, w0, EMPTY_HEAP);
    var o := Apply(env, p, ReadRole(true), w0, EMPTY_HEAP);
    if o.reply == Continue {
      ExportGates(env, p, input, o.w, o.h);
      Unfold(env, p, steps[1..], o.w, o.h);
      Unfold(env, p, steps[1..][1..], o.w, o.h);
      var o3 := Apply(env, p, ReadRecipient(input), o.w, o.h);
      if o3.reply == Continue {
        HeapFilled(o.h, input.certificate);
        OneStep(env, p, RenderExport(x), o3.w, o3.h);
        ExportRendered(env, p, x, o3.w, o3.h);
      }
    }
  }

  lemma HeapFilled(h: Heap, c: Certificate)
    ensures h.(recipient := Some(c)).recipient == Some(c) && h.(recipient := Some(c)).role == h.role
  {}

  lemma RoleReadOrNot(env: Env, p: string, w: World)
    ensures var o := Apply(env, p, ReadRole(true), w, EMPTY_HEAP);
            && (o.reply == Continue <==>
                  KeysIn(w.store, p).Is? && UsageIn(w.store, p).Is? && env.ok(w.tick) && env.ok(w.tick + 1))
            && (o.reply == Continue ==>
                  && o.w.tick == w.tick + 2 && o.h.role.Some? && o.h.role.value.keys == KeysIn(w.store, p).value)
  {}

  // ---- importing ----

  /** What the addressee finds in a sealed export, if it is the addressee and it is one. */
  function Unsealed(k: PrivateKey, oaepLabel: string, s: Sealed): Option<RoleDataExchange> {
    if s.publicKey == k.id && s.sealedWith == oaepLabel && s.content.Packed? then DecodeExchange(s.content.exchange) else None
  }

  /** The usage record once a role has taken over a term; without one, nothing limits it. The token stays. */
  function Termed(u: RoleUsage, term: Option<UsageTerm>): RoleUsage {
    match term
    case None => RoleUsage(u.v3Token, u.v3TokenExpiry, u.v3TokenObtained, -1, -1, -1)
    case Some(t) =>
      RoleUsage(u.v3Token, u.v3TokenExpiry, u.v3TokenObtained, t.explicitNumUses,
                if t.explicitNumUses > 0 then t.explicitNumUses else u.remainingNumUses, t.explicitTerm)
  }

  /** The keys of a role that has taken over keys `k`, as read back from storage. */
  function TakenOver(k: RoleKeys): RoleKeys {
    k.(imported := true, maxQPS := QpsRead(k.maxQPS))
  }

  lemma TakesOver(u: RoleUsage, x: RoleDataExchange)
    ensures Normalised(ImportedKeys(x)) == TakenOver(x.roleData) && u.WithTerm(x.usageTerm) == Termed(u, x.usageTerm)
    ensures TakenOver(x.roleData) == x.roleData.(imported := true, maxQPS := QpsRead(x.roleData.maxQPS))
  {}

  lemma PemImported(env: Env, p: string, s: Sealed, w: World, h: Heap)
    requires h.role.Some? && h.role.value.privateKey.Some?
    ensures var x := Unsealed(h.role.value.privateKey.value, w.live.oaepLabel, s);
            Apply(env, p, ImportPem(s), w, h) ==
            if x.None? then Out(w, h, Refused) else Go(w, h.(role := Some(Imported(h.role.value, x.value))))
  {
    hide DecodeExchange;
  }

  lemma StoredKeyRetrieved(env: Env, p: string, w: World, h: Heap)
    requires h.role.Some? && PkIn(w.store, p).Is?
    ensures Apply(env, p, RetrievePrivateKey, w, h) ==
            if env.ok(w.tick) then Go(w.Ticked(1), h.(role := Some(h.role.value.(privateKey := Some(PkIn(w.store, p).value)))))
            else Out(w.Ticked(1), h, Fail)
  {}

  /** An import up to its first write: the role as it is about to be saved, or a refusal. */
  lemma ImportStarts(env: Env, w: World, p: string, s: Sealed, k: PrivateKey) returns (o: Out)
    requires PkIn(w.store, p) == Is(k)
    ensures o.w.store == w.store && o.w.live == w.live && (o.reply == Continue || o.reply == Refused || o.reply == Fail)
    ensures var (w', reply) := RunRequest(env, w, Request(p, Import(Some(s))));
            if o.reply != Continue then w' == o.w && reply == o.reply
            else var rest := RunSteps(env, p, [SaveKeys(FromImport), SaveUsage(FromTerm)], o.w, o.h);
                 w' == rest.w && reply == rest.reply
    ensures o.reply == Continue ==>
              && KeysIn(w.store, p).Is? && UsageIn(w.store, p).Is? && Unsealed(k, w.live.oaepLabel, s).Some?
              && o.h.role.Some? && var x := Unsealed(k, w.live.oaepLabel, s).value;
                 o.h.role.value.keys == ImportedKeys(x) && o.h.role.value.usage == UsageIn(w.store, p).value.WithTerm(x.usageTerm)
    ensures KeysIn(w.store, p).Is? && UsageIn(w.store, p).Is? && env.ok(w.tick) && env.ok(w.tick + 1) && env.ok(w.tick + 2) ==>
              o.w.tick == w.tick + 3 && o.reply == if Unsealed(k, w.live.oaepLabel, s).Some? then Continue else Refused
  {
    var w0 := w.(req := w.req + 1);
    var steps := [ReadRole(true), RetrievePrivateKey, ImportPem(s), SaveKeys(FromImport), SaveUsage(FromTerm)];
    assert steps[1..][1..] == [ImportPem(s), SaveKeys(FromImport), SaveUsage(FromTerm)];
    assert steps[1..][1..][1..] == [SaveKeys(FromImport), SaveUsage(FromTerm)];
    FlatRequest(env, w, Request(p, Import(Some(s))), steps);
    if KeysIn(w.store, p).Is? && UsageIn(w.store, p).Is? && env.ok(w.tick) && env.ok(w.tick + 1) { RoleReadTicks(env, p, w0); }
    hide HandlerOf, RunRequest, RunSteps, Apply, KeysIn, UsageIn, PkIn, Unsealed;
    RoleRead(env, p, w0);
    Unfold(env, p, steps, w0, EMPTY_HEAP);
    o := Apply(env, p, ReadRole(true), w0, EMPTY_HEAP);
    if o.reply == Continue {
      StoredKeyRetrieved(env, p, o.w, o.h);
      Unfold(env, p, steps[1..], o.w, o.h);
      o := Apply(env, p, RetrievePrivateKey, o.w, o.h);
      if o.reply == Continue {
        PemImported(env, p, s, o.w, o.h);
        Unfold(env, p, steps[1..][1..], o.w, o.h);
        o := Apply(env, p, ImportPem(s), o.w, o.h);
      }
    }
  }

  lemma RoleReadTicks(env: Env, p: string, w: World)
    requires KeysIn(w.store, p).Is? && UsageIn(w.store, p).Is? && env.ok(w.tick) && env.ok(w.tick + 1)
    ensures var o := Apply(env, p, ReadRole(true), w, EMPTY_HEAP);
            o.reply == Continue && o.w.tick == w.tick + 2
  {}

  lemma KeysSaved(env: Env, p: string, w: World, h: Heap)
    requires h.role.Some?
    ensures var o := Apply(env, p, SaveKeys(FromImport), w, h);
            && o.w.tick == w.tick + 1 && o.h == h && o.reply == (if env.ok(w.tick) then Continue else Fail)
            && (o.reply == Continue ==> KeysIn(o.w.store, p) == Is(Normalised(h.role.value.keys)))
  {
    KeysReadBack(h.role.value.keys);
    hide EncodeKeys, DecodeKeys;
  }

  lemma UsageSaved(env: Env, p: string, w: World, h: Heap)
    requires h.role.Some?
    ensures var o := Apply(env, p, SaveUsage(FromTerm), w, h);
            && o.reply == (if env.ok(w.tick) then Continue else Fail)
            && KeysIn(o.w.store, p) == KeysIn(w.store, p)
            && (o.reply == Continue ==> UsageIn(o.w.store, p) == Is(h.role.value.usage))
  {
    UsageReadBack(h.role.value.usage);
    hide EncodeUsage, DecodeUsage;
  }

  lemma ImportSaves(env: Env, p: string, w: World, h: Heap)
    requires h.role.Some?
    ensures var o := RunSteps(env, p, [SaveKeys(FromImport), SaveUsage(FromTerm)], w, h);
            && (o.reply == Continue || o.reply == Fail)
            && (o.reply == Continue <==> env.ok(w.tick) && env.ok(w.tick + 1))
            && (o.reply == Continue ==> KeysIn(o.w.store, p) == Is(Normalised(h.role.value.keys))
                                        && UsageIn(o.w.store, p) == Is(h.role.value.usage))
  {
    hide Apply, KeysIn, UsageIn;
    var steps := [SaveKeys(FromImport), SaveUsage(FromTerm)];
    assert steps[1..] == [SaveUsage(FromTerm)];
    KeysSaved(env, p, w, h);
    var o := Apply(env, p, SaveKeys(FromImport), w, h);
    Unfold(env, p, steps, w, h);
    UsageSaved(env, p, o.w, o.h);
    OneStep(env, p, SaveUsage(FromTerm), o.w, o.h);
    hide RunSteps;
  }

  /** The addressee, and nobody else, takes an import over: with nothing failing it answers without error exactly when
      the sealed data opens, and then keys and usage are those of the exchange; otherwise no record changes. */
  lemma ImportOutcome(env: Env, w: World, p: string, s: Sealed, k: PrivateKey)
    requires KeysIn(w.store, p).Is? && UsageIn(w.store, p).Is? && PkIn(w.store, p) == Is(k)
    requires forall t :: w.tick <= t < w.tick + 5 ==> env.ok(t)
    ensures var (w', reply) := RunRequest(env, w, Request(p, Import(Some(s))));
            match Unsealed(k, w.live.oaepLabel, s)
            case None => reply == Refused && w'.store == w.store
            case Some(x) =>
              && reply == Continue && w'.live == w.live
              && KeysIn(w'.store, p) == Is(x.roleData.(imported := true, maxQPS := QpsRead(x.roleData.maxQPS)))
              && UsageIn(w'.store, p) == Is(Termed(UsageIn(w.store, p).value, x.usageTerm))
  {
    var found := Unsealed(k, w.live.oaepLabel, s);
    if found.Some? { TakesOver(UsageIn(w.store, p).value, found.value); }
    var o := ImportStarts(env, w, p, s, k);
    RequestFrame(env, w, Request(p, Import(Some(s))));
    hide RunRequest, KeysIn, UsageIn, PkIn, Unsealed, RunSteps, Normalised, ImportedKeys, Termed, QpsRead;
    if o.reply == Continue { ImportSaves(env, p, o.w, o.h); }
  }

  /** Whatever fails, data sealed for another key or under another label, or garbled, changes no record. */
  lemma OthersCannotImport(env: Env, w: World, p: string, s: Sealed, k: PrivateKey)
    requires PkIn(w.store, p) == Is(k) && Unsealed(k, w.live.oaepLabel, s) == None
    ensures var (w', reply) := RunRequest(env, w, Request(p, Import(Some(s))));
            (reply == Refused || reply == Fail) && w'.store == w.store
  {
    var o := ImportStarts(env, w, p, s, k);
    hide RunRequest, KeysIn, UsageIn, PkIn, Unsealed, RunSteps;
  }

  lemma SealedOpens(k: PrivateKey, oaepLabel: string, x: RoleDataExchange, publicKey: nat, sealedWith: string)
    ensures Unsealed(k, oaepLabel, Sealed(publicKey, sealedWith, Packed(EncodeExchange(x)))) ==
            if publicKey == k.id && sealedWith == oaepLabel then Some(x) else None
  {
    ExchangeRoundTrip(x);
    hide EncodeExchange, DecodeExchange;
  }

  // ---- what arrives ----

  /** The keys the recipient of an export of `k` ends up with, as read back from storage. */
  function Attenuated(k: RoleKeys, x: ExportRequest): RoleKeys {
    TakenOver(Narrowed(k, x))
  }

  /** The usage record after an import of an export that expires at second `expiry`: a fresh quota if one was asked for,
      the token untouched. */
  function Limited(u: RoleUsage, x: ExportRequest, expiry: int): RoleUsage {
    RoleUsage(u.v3Token, u.v3TokenExpiry, u.v3TokenObtained,
              UsesAsked(x),
              if UsesAsked(x) > 0 then UsesAsked(x) else u.remainingNumUses,
              expiry)
  }

  lemma LandsAs(env: Env, k: RoleKeys, u: RoleUsage, x: ExportRequest, t: nat)
    requires TermParses(x, env.clock(t), env.library)
    ensures var handed := Handed(env, k, x, t);
            && TakenOver(handed.roleData) == Attenuated(k, x)
            && Termed(u, handed.usageTerm) == Limited(u, x, ExpiryOf(env, x, t))
  {
    hide TermParses;
  }

  ghost predicate NeverDeletes(rs: seq<Request>, p: string) {
    forall r <- rs :: r.role == p ==> !r.op.Delete?
  }

  lemma KeptThroughRun(env: Env, w: World, rs: seq<Request>, p: string)
    requires Inv(env, w) && NeverDeletes(rs, p)
    ensures var w' := RunAll(env, w, rs);
            && Inv(env, w')
            && (KeysIn(w.store, p).Is? ==> KeysIn(w'.store, p).Is?)
            && (UsageIn(w.store, p).Is? ==> UsageIn(w'.store, p).Is?)
            && (PkIn(w.store, p).Is? ==> PkIn(w'.store, p) == PkIn(w.store, p))
  {
    var w' := RunAll(env, w, rs);
    RunKeeps(env, w, rs);
    var ext := Extension(env, w, rs);
    forall e | e in ext && e.role == p ensures !e.Dropped? {
      if e.Dropped? { OnlyDeletions(env, rs, e); }
    }
    hide RunAll, Stems, Sound, ReplayKeys, ReplayUsage, ReplayPk, KeysIn, UsageIn, PkIn;
    assert AgreesOn(w.store, w.trace, p) && AgreesOn(w'.store, w'.trace, p);
    PrivateKeyStays(env, w.trace, ext, p);
  }

  lemma OnlyDeletions(env: Env, rs: seq<Request>, e: Event)
    requires Stems(env, rs, e) && e.Dropped?
    ensures exists r <- rs :: r.role == e.role && r.op.Delete?
  {
    hide HandlerOf, StepsOf;
    var r :| r in rs && r.role == e.role && !r.op.Reconfigure? && (r.op.Import? ==> r.op.block.Some?)
             && exists s <- StepsOf(HandlerOf(r.op)) :: Emits(s, e);
    var s :| s in StepsOf(HandlerOf(r.op)) && Emits(s, e);
    WhoDeletes(r.op, s);
  }

  /** A certificate is read from `p`; later an export is made for it from `q`; later still it is imported into `p`,
      with nothing failing then. Unless `p` was deleted since the certificate was read it is accepted exactly when
      the label is the one it was sealed under, and what arrives is known in closed form, its expiry from the text of the
      term and the clock. In between anything goes: other imports into `p`, updates, failures. */
  lemma ExportReachesItsAddressee(env: Env, w: World, p: string, rs1: seq<Request>, q: string, x: ExportRequest,
                                  rs2: seq<Request>)
    requires Inv(env, w) && NeverDeletes(rs1, p) && NeverDeletes(rs2, p)
    requires var (w1, r1) := RunRequest(env, w, Request(p, ReadPem));
             r1.Respond? && r1.output.RoleCertificate?
    requires var (w1, r1) := RunRequest(env, w, Request(p, ReadPem));
             var (w3, r3) := RunRequest(env, RunAll(env, w1, rs1), Request(q, Export(CertificatePem(r1.output.certificate), x)));
             && r3.Respond? && r3.output.RoleExport?
             && (forall t :: RunAll(env, w3, rs2).tick <= t < RunAll(env, w3, rs2).tick + 5 ==> env.ok(t))
    ensures var (w1, r1) := RunRequest(env, w, Request(p, ReadPem));
            var w2 := RunAll(env, w1, rs1);
            var (w3, r3) := RunRequest(env, w2, Request(q, Export(CertificatePem(r1.output.certificate), x)));
            var w4 := RunAll(env, w3, rs2);
            var (w5, r5) := RunRequest(env, w4, Request(p, Import(Some(r3.output.sealed))));
            if w4.live.oaepLabel != w2.live.oaepLabel then r5 == Refused && w5.store == w4.store
            else
              && KeysIn(w2.store, q).Is? && KeysIn(w2.store, q).value.exportable && UsageIn(w4.store, p).Is?
              && TermParses(x, env.clock(w2.tick + 3), env.library)
              && r5 == Continue && Inv(env, w5)
              && KeysIn(w5.store, p) == Is(Attenuated(KeysIn(w2.store, q).value, x))
              && UsageIn(w5.store, p) == Is(Limited(UsageIn(w4.store, p).value, x, ExpiryOf(env, x, w2.tick + 3)))
  {
    hide *;
    var (w1, r1) := RunRequest(env, w, Request(p, ReadPem));
    var c := r1.output.certificate;
    CertificateShowsKey(env, w, p);
    RecordKept(w.store, w1.store, p);
    RequestKeeps(env, w, Request(p, ReadPem));
    var w2 := RunAll(env, w1, rs1);
    KeptThroughRun(env, w1, rs1, p);
    var (w3, r3) := RunRequest(env, w2, Request(q, Export(CertificatePem(c), x)));
    ExportIsExact(env, w2, q, CertificatePem(c), x);
    RequestKeeps(env, w2, Request(q, Export(CertificatePem(c), x)));
    var w4 := RunAll(env, w3, rs2);
    KeptThroughRun(env, w3, rs2, p);
    RequestKeeps(env, w4, Request(p, Import(Some(r3.output.sealed))));
    var k, handed := PrivateKey(c.publicKey), Handed(env, KeysIn(w2.store, q).value, x, w2.tick + 3);
    SealedOpens(k, w4.live.oaepLabel, handed, c.publicKey, w2.live.oaepLabel);
    ImportOutcome(env, w4, p, r3.output.sealed, k);
    TakesOver(UsageIn(w4.store, p).value, handed);
    LandsAs(env, KeysIn(w2.store, q).value, UsageIn(w4.store, p).value, x, w2.tick + 3);
  }

  /** A role exported for `n` days arrives with an expiry exactly `n` days after the export. */
  lemma DaysArriveExactly(env: Env, x: ExportRequest, n: nat, t: nat)
    requires x.term == Some(Terms.Decimal(n) + "d") && 0 < n <= 106751
    ensures TermParses(x, env.clock(t), env.library)
    ensures ExpiryOf(env, x, t) == env.clock(t + 1) / 1_000_000_000 + n * 86_400
  {
    Terms.DaysAreExact(n, env.clock(t), env.library);
    hide Terms.ParseUserInputDuration, Terms.Decimal;
    assert n * Terms.NANOS_PER_DAY == n * 86_400 * 1_000_000_000;
  }

  // ---- chains of exports ----

  /** Hand a role on: read a certificate from `to`, export for it, import; then other requests, among them no further
      import into `to` and no deletion of it. */
  datatype Hop = Hop(to: string, settings: ExportRequest, later: seq<Request>)

  function Handover(env: Env, w: World, from: string, hop: Hop): Option<World> {
    var (w1, r1) := RunRequest(env, w, Request(hop.to, ReadPem));
    if !r1.Respond? || !r1.output.RoleCertificate? then None
    else
      var (w2, r2) := RunRequest(env, w1, Request(from, Export(CertificatePem(r1.output.certificate), hop.settings)));
      if !r2.Respond? || !r2.output.RoleExport? then None
      else
        var (w3, r3) := RunRequest(env, w2, Request(hop.to, Import(Some(r2.output.sealed))));
        if r3 != Continue then None else Some(RunAll(env, w3, hop.later))
  }

  function Handovers(env: Env, w: World, from: string, hops: seq<Hop>): Option<World>
    decreases |hops|
  {
    if hops == [] then Some(w)
    else match Handover(env, w, from, hops[0])
      case None => None
      case Some(w') => Handovers(env, w', hops[0].to, hops[1..])
  }

  function Holder(from: string, hops: seq<Hop>): string {
    if hops == [] then from else hops[|hops| - 1].to
  }

  function AttenuatedAll(k: RoleKeys, hops: seq<Hop>): RoleKeys
    decreases |hops|
  {
    if hops == [] then k else AttenuatedAll(Attenuated(k, hops[0].settings), hops[1..])
  }

  lemma ImportAnswered(env: Env, w: World, p: string, s: Sealed, k: PrivateKey)
    requires PkIn(w.store, p) == Is(k) && RunRequest(env, w, Request(p, Import(Some(s)))).1 == Continue
    ensures Unsealed(k, w.live.oaepLabel, s).Some?
    ensures var (w', x) := (RunRequest(env, w, Request(p, Import(Some(s)))).0, Unsealed(k, w.live.oaepLabel, s).value);
            && UsageIn(w.store, p).Is? && KeysIn(w'.store, p) == Is(TakenOver(x.roleData))
            && UsageIn(w'.store, p) == Is(Termed(UsageIn(w.store, p).value, x.usageTerm))
  {
    hide RunRequest, KeysIn, UsageIn, PkIn, Unsealed, RunSteps, Normalised, ImportedKeys, Termed, TakenOver;
    var o := ImportStarts(env, w, p, s, k);
    TakesOver(UsageIn(w.store, p).value, Unsealed(k, w.live.oaepLabel, s).value);
    ImportSaves(env, p, o.w, o.h);
  }

  lemma HandoverLands(env: Env, w: World, from: string, hop: Hop)
    requires Inv(env, w) && NoImportOrDelete(hop.later, hop.to) && Handover(env, w, from, hop).Some?
    ensures var w' := Handover(env, w, from, hop).value;
            && Inv(env, w') && KeysIn(w.store, from).Is? && KeysIn(w.store, from).value.exportable
            && KeysIn(w'.store, hop.to) == Is(Attenuated(KeysIn(w.store, from).value, hop.settings))
  {
    hide KeysIn, UsageIn, PkIn, Unsealed, TermParses, Handed, EncodeExchange, Attenuated, Termed, ExpiryOf, TakenOver,
         RunRequest, RunAll, Inv, NoImportOrDelete, Narrowed;
    var (w1, r1) := RunRequest(env, w, Request(hop.to, ReadPem));
    var c := r1.output.certificate;
    CertificateShowsKey(env, w, hop.to);
    RequestKeeps(env, w, Request(hop.to, ReadPem));
    var (w2, r2) := RunRequest(env, w1, Request(from, Export(CertificatePem(c), hop.settings)));
    ExportIsExact(env, w1, from, CertificatePem(c), hop.settings);
    RequestKeeps(env, w1, Request(from, Export(CertificatePem(c), hop.settings)));
    var k, handed := PrivateKey(c.publicKey), Handed(env, KeysIn(w1.store, from).value, hop.settings, w1.tick + 3);
    SealedOpens(k, w2.live.oaepLabel, handed, c.publicKey, w1.live.oaepLabel);
    ImportAnswered(env, w2, hop.to, r2.output.sealed, k);
    RequestKeeps(env, w2, Request(hop.to, Import(Some(r2.output.sealed))));
    var w3 := RunRequest(env, w2, Request(hop.to, Import(Some(r2.output.sealed)))).0;
    LandsAs(env, KeysIn(w1.store, from).value, ZERO_USAGE, hop.settings, w1.tick + 3);
    IsImported(KeysIn(w1.store, from).value, hop.settings);
    LimitsOutliveRuns(env, w3, hop.later, hop.to);
    RunKeeps(env, w3, hop.later);
  }

  lemma IsImported(k: RoleKeys, x: ExportRequest)
    ensures Attenuated(k, x).imported
  {}

  // ---- a handover succeeds if nothing stands in its way ----

  /** Storage, key generation and encryption work, and no certificate outlives its four hours meanwhile. */
  ghost predicate Benign(env: Env) {
    && (forall t: nat :: env.ok(t) && env.rsaKey(t).Some? && env.encrypts(t))
    && (forall s: nat, t: nat :: s <= t ==> env.clock(s) <= env.clock(t) <= env.clock(s) + CERTIFICATE_LIFE)
  }

  ghost predicate Readable(store: Store, p: string) {
    KeysIn(store, p).Is? && UsageIn(store, p).Is?
  }

  lemma KeyIsThere(env: Env, p: string, w: World, h: Heap)
    requires Benign(env) && h.role.Some? && h.role.value.privateKey == None && !PkIn(w.store, p).Broken?
    ensures var o := Apply(env, p, RetrievePrivateKey, w, h);
            o.reply == Continue && o.h.role.Some? && o.h.role.value.privateKey.Some? && o.w.tick >= w.tick
  {
    assert env.ok(w.tick) && env.rsaKey(w.tick + 1).Some? && env.ok(w.tick + 2);
  }

  lemma CertificateIsValid(env: Env, p: string, w: World, h: Heap)
    requires Benign(env) && h.role.Some? && h.role.value.privateKey.Some?
    ensures var o := Apply(env, p, RenderCertificate, w, h);
            && o.w.tick == w.tick + 2 && o.reply.Respond? && o.reply.output.RoleCertificate?
            && forall t :: t >= o.w.tick ==>
                 o.reply.output.certificate.notBefore <= env.clock(t) <= o.reply.output.certificate.notAfter
  {
    var o := Apply(env, p, RenderCertificate, w, h);
    forall t | t >= o.w.tick ensures env.clock(w.tick) <= env.clock(t) <= env.clock(w.tick + 1) + CERTIFICATE_LIFE {
      assert env.clock(w.tick) <= env.clock(t) && env.clock(t) <= env.clock(w.tick + 1) + CERTIFICATE_LIFE;
    }
  }

  lemma CertificateIsRead(env: Env, w: World, p: string)
    requires Benign(env) && Readable(w.store, p) && !PkIn(w.store, p).Broken?
    ensures var (w', reply) := RunRequest(env, w, Request(p, ReadPem));
            && reply.Respond? && reply.output.RoleCertificate?
            && forall t :: t >= w'.tick ==>
                 reply.output.certificate.notBefore <= env.clock(t) <= reply.output.certificate.notAfter
  {
    RoleReadTicks(env, p, w.(req := w.req + 1));
    hide *;
    var w0, steps := w.(req := w.req + 1), CertificateSteps();
    CertificateFlat(env, w, p);
    FirstRead(env, p, w0);
    RoleRead(env, p, w0);
    Unfold(env, p, steps, w0, EMPTY_HEAP);
    var o := Apply(env, p, ReadRole(true), w0, EMPTY_HEAP);
    KeyIsThere(env, p, o.w, o.h);
    Unfold(env, p, steps[1..], o.w, o.h);
    var o2 := Apply(env, p, RetrievePrivateKey, o.w, o.h);
    CertificateIsValid(env, p, o2.w, o2.h);
    OneStep(env, p, RenderCertificate, o2.w, o2.h);
  }

  /** With valid settings and a valid certificate an export is answered exactly when the role is exportable. */
  lemma ExportIffExportable(env: Env, w: World, p: string, c: Certificate, x: ExportRequest)
    requires Benign(env) && Readable(w.store, p)
    requires forall t :: t >= w.tick ==> c.notBefore <= env.clock(t) <= c.notAfter
    requires forall now :: TermParses(x, now, env.library)
    ensures var reply := RunRequest(env, w, Request(p, Export(CertificatePem(c), x))).1;
            if KeysIn(w.store, p).value.exportable then reply.Respond? && reply.output.RoleExport? else reply == Refused
  {
    ExportIsExact(env, w, p, CertificatePem(c), x);
    assert c.notBefore <= env.clock(w.tick + 2) <= c.notAfter;
    hide RunRequest, KeysIn, UsageIn, TermParses, Handed, EncodeExchange;
  }

  /** So between two readable roles a handover goes through if and only if the first is exportable. */
  lemma HandoverIffExportable(env: Env, w: World, from: string, hop: Hop)
    requires Benign(env) && Readable(w.store, from) && Readable(w.store, hop.to) && !PkIn(w.store, hop.to).Broken?
    requires forall now :: TermParses(hop.settings, now, env.library)
    ensures Handover(env, w, from, hop).Some? <==> KeysIn(w.store, from).value.exportable
  {
    CertificateIsRead(env, w, hop.to);
    CertificateShowsKey(env, w, hop.to);
    var (w1, r1) := RunRequest(env, w, Request(hop.to, ReadPem));
    var c := r1.output.certificate;
    hide RunRequest, KeysIn, UsageIn, PkIn, TermParses, RunAll, Unsealed, Handed, EncodeExchange;
    ExportIffExportable(env, w1, from, c, hop.settings);
    var (w2, r2) := RunRequest(env, w1, Request(from, Export(CertificatePem(c), hop.settings)));
    ExportIsExact(env, w1, from, CertificatePem(c), hop.settings);
    if r2.Respond? {
      var k, handed := PrivateKey(c.publicKey), Handed(env, KeysIn(w1.store, from).value, hop.settings, w1.tick + 3);
      SealedOpens(k, w2.live.oaepLabel, handed, c.publicKey, w1.live.oaepLabel);
      ImportOutcome(env, w2, hop.to, r2.output.sealed, k);
    }
  }

  predicate MayPassOn(hops: seq<Hop>) {
    forall i :: 0 <= i < |hops| - 1 ==> hops[i].settings.exportable == Some(true)
  }

  /** A chain of exports of any length, carried out by the engine among other requests: it can only be completed when
      the seed and every holder but the last were exportable, and the last holder's keys are the seed's with every
      narrowing of the way applied. */
  lemma {:induction false} ChainLands(env: Env, w: World, from: string, hops: seq<Hop>)
    requires Inv(env, w) && hops != [] && Handovers(env, w, from, hops).Some?
    requires forall hop <- hops :: NoImportOrDelete(hop.later, hop.to)
    ensures var w' := Handovers(env, w, from, hops).value;
            && KeysIn(w.store, from).Is? && KeysIn(w.store, from).value.exportable && MayPassOn(hops)
            && KeysIn(w'.store, Holder(from, hops)) == Is(AttenuatedAll(KeysIn(w.store, from).value, hops))
    decreases |hops|
  {
    hide Handover, KeysIn, Inv, NoImportOrDelete;
    HandoverLands(env, w, from, hops[0]);
    var w1 := Handover(env, w, from, hops[0]).value;
    if |hops| > 1 {
      ChainLands(env, w1, hops[0].to, hops[1..]);
      assert MayPassOn(hops) by {
        forall i | 0 <= i < |hops| - 1 ensures hops[i].settings.exportable == Some(true) {
          if i > 0 { assert hops[i] == hops[1..][i - 1]; }
        }
      }
    } else {
      assert hops[1..] == [];
    }
  }

  predicate NeverOnlyV3(hops: seq<Hop>) {
    forall hop <- hops :: hop.settings.onlyV3 != Some(true)
  }

  predicate NeverOnlyV2(hops: seq<Hop>) {
    forall hop <- hops :: hop.settings.onlyV2 != Some(true)
  }

  predicate SameOrBlank(k: RoleKeys, seed: RoleKeys) {
    && (k.areaId == seed.areaId || k.areaId == "")
    && (k.areaNid == seed.areaNid || k.areaNid == 0)
    && k.apiKey == seed.apiKey && k.keySecret == seed.keySecret
    && (k.username == seed.username || k.username == "")
    && (k.password == seed.password || k.password == "")
  }

  /** Along any chain every credential stays the seed's or is blanked; V2 survives exactly the chains that never ask
      for V3 only, and V3 those that never ask for V2 only, so neither ever appears where it was not. */
  lemma {:induction false} ChainsAttenuate(k: RoleKeys, hops: seq<Hop>)
    ensures var last := AttenuatedAll(k, hops);
            && SameOrBlank(last, k)
            && (AbleV2(last) <==> AbleV2(k) && NeverOnlyV3(hops))
            && (AbleV3(last) <==> AbleV3(k) && NeverOnlyV2(hops))
            && (hops != [] ==> last.imported && (last.exportable <==> hops[|hops| - 1].settings.exportable == Some(true))
                               && (last.forceProxyMode <==> hops[|hops| - 1].settings.forceProxyMode == Some(true)))
    decreases |hops|
  {
    if hops != [] {
      var k1 := Attenuated(k, hops[0].settings);
      ChainsAttenuate(k1, hops[1..]);
      assert hops == [hops[0]] + hops[1..];
      assert NeverOnlyV3(hops) <==> hops[0].settings.onlyV3 != Some(true) && NeverOnlyV3(hops[1..]);
      assert NeverOnlyV2(hops) <==> hops[0].settings.onlyV2 != Some(true) && NeverOnlyV2(hops[1..]);
      if |hops| == 1 { assert AttenuatedAll(k, hops) == k1; }
    }
  }
}
