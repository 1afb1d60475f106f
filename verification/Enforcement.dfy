/** What the limits of an export are worth: they bind the role that received it, to the second. */
module Enforcement {
  import opened Records
  import opened Engine
  import opened Traces
  import opened Vocabulary
  import opened Safety
  import opened Runs
  import opened Frames
  import opened Lifecycle
  import opened Exchange
  import opened Interleaving
  import opened Outcomes
  import Terms

  /** A certificate is read from `p`; later an export is made for it from `q`; later still it is imported into `p`. The
      outcome, if all of this goes through, is the world before the export and the world after the import. */
  function Delivered(env: Env, w: World, p: string, rs1: seq<Request>, q: string, x: ExportRequest, rs2: seq<Request>):
    Option<(World, World)>
  {
    var (w1, r1) := RunRequest(env, w, Request(p, ReadPem));
    if !r1.Respond? || !r1.output.RoleCertificate? then None
    else
      var w2 := RunAll(env, w1, rs1);
      var (w3, r3) := RunRequest(env, w2, Request(q, Export(CertificatePem(r1.output.certificate), x)));
      if !r3.Respond? || !r3.output.RoleExport? then None
      else
        var (w5, r5) := RunRequest(env, RunAll(env, w3, rs2), Request(p, Import(Some(r3.output.sealed))));
        if r5 == Continue then Some((w2, w5)) else None
  }

  lemma DeliveryLands(env: Env, w: World, p: string, rs1: seq<Request>, q: string, x: ExportRequest, rs2: seq<Request>)
    requires Inv(env, w) && NeverDeletes(rs1, p) && NeverDeletes(rs2, p) && Delivered(env, w, p, rs1, q, x, rs2).Some?
    ensures var (before, after) := Delivered(env, w, p, rs1, q, x, rs2).value;
            && KeysIn(before.store, q).Is? && TermParses(x, env.clock(before.tick + 3), env.library) && Inv(env, after)
            && KeysIn(after.store, p) == Is(Attenuated(KeysIn(before.store, q).value, x)) && UsageIn(after.store, p).Is?
            && UsageIn(after.store, p).value.explicitTerm == ExpiryOf(env, x, before.tick + 3)
            && UsageIn(after.store, p).value.explicitNumUses == UsesAsked(x)
  {
    hide *;
    DeliveredMeans(env, w, p, rs1, q, x, rs2);
    var (w1, r1) := RunRequest(env, w, Request(p, ReadPem));
    var c, w2 := r1.output.certificate, RunAll(env, w1, rs1);
    var (w3, r3) := RunRequest(env, w2, Request(q, Export(CertificatePem(c), x)));
    var w4 := RunAll(env, w3, rs2);
    CertificateShowsKey(env, w, p);
    RequestKeeps(env, w, Request(p, ReadPem));
    KeptThroughRun(env, w1, rs1, p);
    ExportIsExact(env, w2, q, CertificatePem(c), x);
    RequestKeeps(env, w2, Request(q, Export(CertificatePem(c), x)));
    KeptThroughRun(env, w3, rs2, p);
    RequestKeeps(env, w4, Request(p, Import(Some(r3.output.sealed))));
    var k, handed := PrivateKey(c.publicKey), Handed(env, KeysIn(w2.store, q).value, x, w2.tick + 3);
    SealedOpens(k, w4.live.oaepLabel, handed, c.publicKey, w2.live.oaepLabel);
    ImportAnswered(env, w4, p, r3.output.sealed, k);
    LandsAs(env, KeysIn(w2.store, q).value, UsageIn(w4.store, p).value, x, w2.tick + 3);
    LimitedTo(UsageIn(w4.store, p).value, x, ExpiryOf(env, x, w2.tick + 3));
  }

  /** Deliveries do happen: with nothing else going on and nothing failing, exactly those from an exportable role. */
  lemma DeliveryIffExportable(env: Env, w: World, p: string, q: string, x: ExportRequest)
    requires Benign(env) && Readable(w.store, q) && Readable(w.store, p) && !PkIn(w.store, p).Broken?
    requires forall now :: TermParses(x, now, env.library)
    ensures Delivered(env, w, p, [], q, x, []).Some? <==> KeysIn(w.store, q).value.exportable
  {
    HandoverIffExportable(env, w, q, Hop(p, x, []));
    hide RunRequest, Benign, Readable, TermParses, KeysIn, PkIn;
  }

  lemma DeliveredMeans(env: Env, w: World, p: string, rs1: seq<Request>, q: string, x: ExportRequest, rs2: seq<Request>)
    requires Delivered(env, w, p, rs1, q, x, rs2).Some?
    ensures var (w1, r1) := RunRequest(env, w, Request(p, ReadPem));
            && r1.Respond? && r1.output.RoleCertificate?
            && var w2 := RunAll(env, w1, rs1);
               var (w3, r3) := RunRequest(env, w2, Request(q, Export(CertificatePem(r1.output.certificate), x)));
               && r3.Respond? && r3.output.RoleExport?
               && var (w5, r5) := RunRequest(env, RunAll(env, w3, rs2), Request(p, Import(Some(r3.output.sealed))));
                  r5 == Continue && Delivered(env, w, p, rs1, q, x, rs2) == Some((w2, w5))
  {
    hide RunRequest, RunAll;
  }

  lemma LimitedTo(u: RoleUsage, x: ExportRequest, expiry: int)
    ensures Limited(u, x, expiry).explicitTerm == expiry && Limited(u, x, expiry).explicitNumUses == UsesAsked(x)
  {}

  /** The role of a grant or V2 call has what the API takes, as far as its keys go. */
  predicate Capable(op: Op, k: RoleKeys) {
    && (if op.Grant? && op.api != Some(2) then AbleV3(k) else AbleV2(k))
    && (op.Grant? ==> !k.forceProxyMode)
  }

  /** A role that was handed over without a count of uses, and then served any requests but another import or a deletion,
      is admitted exactly as long as the expiry of the export, if it has one, is not past. */
  lemma ExpiryIsEnforced(env: Env, w: World, p: string, rs1: seq<Request>, q: string, x: ExportRequest, rs2: seq<Request>,
                         rs3: seq<Request>, op: Op)
    requires Inv(env, w) && NeverDeletes(rs1, p) && NeverDeletes(rs2, p) && Delivered(env, w, p, rs1, q, x, rs2).Some?
    requires NoImportOrDelete(rs3, p) && UsesAsked(x) == 0 && IsSpender(op)
    requires var (before, after) := Delivered(env, w, p, rs1, q, x, rs2).value;
             var now := RunAll(env, after, rs3);
             && Preflight(now.live, op) == None && NothingFails(env, now.tick, 4)
             && (KeysIn(before.store, q).Is? ==> Capable(op, Attenuated(KeysIn(before.store, q).value, x)))
    ensures var (before, after) := Delivered(env, w, p, rs1, q, x, rs2).value;
            var now := RunAll(env, after, rs3);
            var (later, reply) := RunRequest(env, now, Request(p, op));
            && TermParses(x, env.clock(before.tick + 3), env.library)
            && var expiry := ExpiryOf(env, x, before.tick + 3);
               if expiry <= 0 || env.clock(now.tick + 2) / 1_000_000_000 <= expiry
               then SpenderAnswered(env, op, expiry, now.tick + 3, now.req + 1, p, later.trace, reply)
               else reply == Refused && NothingDone(now, later)
  {
    hide *;
    DeliveryLands(env, w, p, rs1, q, x, rs2);
    var (before, after) := Delivered(env, w, p, rs1, q, x, rs2).value;
    var now := RunAll(env, after, rs3);
    IsImported(KeysIn(before.store, q).value, x);
    LimitsOutliveRuns(env, after, rs3, p);
    LimitsAreSame(UsageIn(now.store, p).value, UsageIn(after.store, p).value);
    TermDecides(env, now, p, op);
  }

  lemma LimitsAreSame(u: RoleUsage, v: RoleUsage)
    ensures SameLimits(u, v) ==> u.explicitNumUses == v.explicitNumUses && u.explicitTerm == v.explicitTerm
  {}

  /** With capable keys and uncounted uses, the stored term alone decides. */
  lemma TermDecides(env: Env, w: World, p: string, op: Op)
    requires IsSpender(op) && Preflight(w.live, op) == None && NothingFails(env, w.tick, 4)
    requires KeysIn(w.store, p).Is? && UsageIn(w.store, p).Is? && Capable(op, KeysIn(w.store, p).value)
    requires UsageIn(w.store, p).value.explicitNumUses == 0
    ensures var (later, reply) := RunRequest(env, w, Request(p, op));
            var expiry := UsageIn(w.store, p).value.explicitTerm;
            if expiry <= 0 || env.clock(w.tick + 2) / 1_000_000_000 <= expiry
            then SpenderAnswered(env, op, expiry, w.tick + 3, w.req + 1, p, later.trace, reply)
            else reply == Refused && NothingDone(w, later)
  {
    AdmissionIsExact(env, w, Request(p, op));
    hide RunRequest, KeysIn, UsageIn, SpenderAnswered, NothingDone, Preflight, IsSpender;
  }

  /** A role that was handed over with term `nd` is admitted up to and including the second `n * 86400` seconds after the
      export, and refused from the next second on, with nothing done. */
  lemma TermIsEnforced(env: Env, w: World, p: string, rs1: seq<Request>, q: string, x: ExportRequest, rs2: seq<Request>,
                       rs3: seq<Request>, op: Op, n: nat)
    requires Inv(env, w) && NeverDeletes(rs1, p) && NeverDeletes(rs2, p) && Delivered(env, w, p, rs1, q, x, rs2).Some?
    requires NoImportOrDelete(rs3, p) && UsesAsked(x) == 0 && IsSpender(op)
    requires x.term == Some(Terms.Decimal(n) + "d") && 0 < n <= 106751
    requires var (before, after) := Delivered(env, w, p, rs1, q, x, rs2).value;
             var now := RunAll(env, after, rs3);
             && Preflight(now.live, op) == None && NothingFails(env, now.tick, 4)
             && (KeysIn(before.store, q).Is? ==> Capable(op, Attenuated(KeysIn(before.store, q).value, x)))
             && env.clock(before.tick + 4) >= 0
    ensures var (before, after) := Delivered(env, w, p, rs1, q, x, rs2).value;
            var now := RunAll(env, after, rs3);
            var (later, reply) := RunRequest(env, now, Request(p, op));
            var exported := env.clock(before.tick + 4) / 1_000_000_000;
            if env.clock(now.tick + 2) / 1_000_000_000 <= exported + n * 86_400
            then SpenderAnswered(env, op, exported + n * 86_400, now.tick + 3, now.req + 1, p, later.trace, reply)
            else reply == Refused && NothingDone(now, later)
  {
    hide *;
    ExpiryIsEnforced(env, w, p, rs1, q, x, rs2, rs3, op);
    DaysArriveExactly(env, x, n, Delivered(env, w, p, rs1, q, x, rs2).value.0.tick + 3);
  }

  /** And one handed over without a term never expires. */
  lemma NoTermNeverExpires(env: Env, w: World, p: string, rs1: seq<Request>, q: string, x: ExportRequest, rs2: seq<Request>,
                           rs3: seq<Request>, op: Op)
    requires Inv(env, w) && NeverDeletes(rs1, p) && NeverDeletes(rs2, p) && Delivered(env, w, p, rs1, q, x, rs2).Some?
    requires NoImportOrDelete(rs3, p) && UsesAsked(x) == 0 && IsSpender(op) && x.term == None
    requires var (before, after) := Delivered(env, w, p, rs1, q, x, rs2).value;
             var now := RunAll(env, after, rs3);
             && Preflight(now.live, op) == None && NothingFails(env, now.tick, 4)
             && (KeysIn(before.store, q).Is? ==> Capable(op, Attenuated(KeysIn(before.store, q).value, x)))
    ensures var (before, after) := Delivered(env, w, p, rs1, q, x, rs2).value;
            var now := RunAll(env, after, rs3);
            var (later, reply) := RunRequest(env, now, Request(p, op));
            SpenderAnswered(env, op, 0, now.tick + 3, now.req + 1, p, later.trace, reply)
  {
    ExpiryIsEnforced(env, w, p, rs1, q, x, rs2, rs3, op);
    assert ExpiryOf(env, x, Delivered(env, w, p, rs1, q, x, rs2).value.0.tick + 3) == 0;
    hide *;
  }
}
