# Role lifecycle of the Mashery secrets engine

This project models the role lifecycle of the Vault secrets engine for TIBCO Mashery and proves what the engine
promises about it. A role is three separately stored records: its keys, its usage (limits, remaining uses, cached V3
token) and its private key. Every request is a chain of transformers over storage and a heap of its own. Any storage
operation may fail, and the clock, OAuth, the upstream and key generation answer as they please.

The files, from the ground up:

- `Records.dfy`, `Codec.dfy`, `Terms.dfy`: the records and the role object edited in place, their JSON form, and the
  grammar of export terms with int64 arithmetic.
- `Chain.dfy`: chains of responsibility, the runner, and the nested runner over two heaps, for any transformers.
- `Engine.dfy`: the meaning of every transformer and handler as a function from a world to a world. The world carries
  the storage, the live settings, a tick that numbers each interaction with the environment, and a trace of what was
  read, checked, saved, deleted and done. `Runners.dfy` shows its chains to be those of `Chain.dfy`.
- `Handlers.dfy`: the same transformers, runners and handlers as methods that update storage and a shared role object,
  each proved equal to its meaning in `Engine.dfy`.
- `Vocabulary.dfy`: the words of the theorems: record fields, seconds of the clock and plain numbers. The engine uses
  none of them, so they pin down the engine's own predicates and updates.
- `Traces.dfy`: what a trace of justified events implies by itself: the quota ledger, limits that stick, the storage
  invariant, the token budget.
- `Safety.dfy`, `Runs.dfy`: every transformer in every handler keeps storage in step with the trace and adds only
  justified events. The argument is a typestate over the gates a chain has passed.
- `Frames.dfy`, `Lifecycle.dfy`: isolation of roles, and the theorems over whole serial runs.
- `Retry.dfy`: the fetch that retries after a token was lost upstream.
- `Outcomes.dfy`, `V3Outcomes.dfy`: what single requests do, exactly, in the fields of the stored records and the clock.
- `Exchange.dfy`, `Enforcement.dfy`: export, import, chains of exports of any length, and how an expiry binds the role
  that received it.
- `Overspend.dfy`, `Interleaving.dfy`: requests in flight at the same time, and exactly how far they can overspend a
  quota.
- `Settings.dfy`, `Plugins.dfy`: configuration, OAuth helper and client caches, as values and as the plugin object.
- `Paths.dfy`: storage paths as text.

Any `Put` or `Delete` of a role's records may fail, and a failing one may or may not have taken effect. Assumptions
about what is not modelled in detail: the expiry of a granted token is the time it was obtained plus its lifetime;
encryption is RSAES-OAEP (section 7.1 of RFC 8017) as an abstract seal that only the recipient's key under the same
label opens; the Go library's durations and calendar dates are parameters. Code and documentation disagree in one place that matters here: features/rate_ctrl/use-control.feature:16
expects reading a role to use up quota, the handler at mashery/path_role.go:151-157 spends none; the model follows the
handler.

## Model

| member | source | states |
|---|---|---|
| Records.StoredRole.constructor | mashery/plugin.go:322-334 | every field of a new role object: no credentials, QPS 2, exportable, neither imported nor bound to the proxy, a zero usage record, no private key |
| Records.StoredRole.ReplaceAccessToken | mashery/data_structs.go:202-206 | the token and both its times are the arguments, field by field; limits and remaining uses stay |
| Records.StoredRole.ResetToken | mashery/data_structs.go:243-247 | the token is blanked with times -1, nothing else changes |
| Records.StoredRole.ReduceRemainingQuota | mashery/data_structs.go:222-226 | one unit is taken if one is left; the allowance of a quota-bound, undepleted role drops by exactly one |
| Records.StoredRole.UnboundedUsage | mashery/data_structs.go:232-241 | all limits go to -1 and the record then counts as unbounded |
| Records.StoredRole.Import | mashery/data_structs.go:312-334 | all keys are taken over with the imported mark set; each limit field is the term's, with a full quota if it counts uses, or -1 without a term; the cached token stays |
| Codec.KeysRoundTrip | mashery/data_structs.go:160-171 | saved keys always decode, over any receiver; they come back exactly if and only if every omitted field is already zero in the receiver; the imported and exportable marks always come back |
| Codec.KeysReadBack | mashery/plugin.go:322-334 | read over the defaults, saved keys come back with only a QPS of 0 turned into 2, and doing so twice changes nothing more |
| Codec.RereadingDriftsNowhere | mashery/plugin.go:322-334 | however often keys are saved and read over the defaults, they stay what the first reading gave, and a non-exportable role never turns exportable |
| Codec.UsageReadBack | mashery/data_structs.go:192-199 | a saved usage record reads back exactly |
| Codec.ExchangeRoundTrip | mashery/data_structs.go:173-182 | exchange data decode over a zero receiver to exactly what was encoded |
| Terms.FindCountIsLeftmost | mashery/parseutils.go:168-176 | the pattern search finds a match if and only if there is one, and then the leftmost, with its whole digit run |
| Terms.DaysWin | mashery/parseutils.go:184-189 | in any input, the leftmost digit run followed by `d` decides, over weeks, dates and durations |
| Terms.WeeksWin | mashery/parseutils.go:190-193 | without a day count the leftmost digit run followed by `w` decides, over dates and durations |
| Terms.DatesDecide | mashery/parseutils.go:194-202 | without a day or week count the leftmost date decides: year, month and day in this order, less now, cut off at the ends of int64 |
| Terms.DatesAreExact | mashery/parseutils.go:194-202 | in particular any bare `YYYY-MM-DD`, with one or two digits for month and day |
| Terms.OthersAreDurations | mashery/parseutils.go:204-206 | input with no count and no date anywhere is left to the library's duration grammar |
| Terms.DaysAreExact | mashery/parseutils.go:186-189 | `nd` parses to exactly n days if and only if n is at most 106751 |
| Terms.WeeksAreExact | mashery/parseutils.go:190-193 | `nw` parses to exactly n weeks if and only if n is at most 15250 |
| Terms.WeekIsSevenDays | mashery/parseutils.go:186-193 | `nw` equals `(7n)d` even where both wrap around int64 |
| Terms.HugeCountsAreOneInThePast | mashery/parseutils.go:186-193 | a count too large for int64, whose conversion error is dropped, means minus one day or minus one week |
| Chain.SimpleChain | mashery/chainofresponsibility.go:196-206 | the loop computes the recursive meaning of a chain: the first response or error ends it |
| Chain.Tail | mashery/chainofresponsibility.go:208-224 | `Tail(f, fs)` has the meaning of `SimpleChain(f, fs...)` |
| Chain.RunConcat | mashery/chainofresponsibility.go:196-206 | a concatenated chain is the first chain followed, unless it stopped, by the second |
| Chain.RunStopsAtFirst | mashery/cordriver.go:22-30 | a stopped chain ran a prefix that let it go on, then the one transformer whose answer it gives |
| Chain.SimpleRunner.Append | mashery/cordriver.go:18-20 | appending extends the list of transformers at its end |
| Chain.SimpleRunner.Run | mashery/cordriver.go:22-30 | a runner computes the meaning of the chain appended so far |
| Chain.MappingRunner.Run | mashery/cordriver.go:39-51 | parent over the exported heap, then import into the child heap, then child, unless the parent answered |
| Chain.NestedRefinesFlat | mashery/cordriver.go:39-51 | the nested run gives the response, error and shared state of the flat chain of lifted parent steps then child steps, and the same heap unless the parent stopped |
| Chain.RefinesIffExporterAgrees | mashery/cordriver.go:39-51 | that holds for all transformer lists if and only if the exporter starts the parent from what the child's heap holds |
| Runners.StepsAreAChain | mashery/cordriver.go:22-30 | the engine's step lists run as chains of responsibility |
| Runners.NestedHandlersAreMappingRuns | mashery/path_role_grant.go:124-133 | the engine's nested handlers are mapping runs whose parent gets a new container and whose importer carries the role |
| Handlers.Backend.Persist | mashery/vaultstorage.go:24-36 | a put replaces one entry, or fails with or without having done so, and touches no other |
| Handlers.Backend.Get | mashery/vaultstorage.go:64-73 | a get returns the entry, its absence, or fails |
| Handlers.Backend.ReadKeys | mashery/vaultstorage.go:48-62 | decodes the stored keys over the role's defaults, or reports absence or an error |
| Handlers.Backend.ReadUsage | mashery/vaultstorage.go:48-62 | the same for the usage record |
| Handlers.Backend.ReadRole | mashery/transformers_role_rw.go:30-54 | new world, heap and answer equal the engine's meaning of reading a role: keys, then usage, refused when absent and required |
| Handlers.Backend.SaveRoleKeys | mashery/transformers_role_rw.go:183-186 | the keys in the heap are saved, or the chain fails, with the keys saved or not |
| Handlers.Backend.SaveRoleUsage | mashery/transformers_role_rw.go:201-204 | the same for the usage record |
| Handlers.Backend.EditKeys | mashery/transformers_role_rw.go:62-86 | each key field, one by one, is the requested value if there is one and else what it was; marks and force-proxy stay |
| Handlers.Backend.UpdateRoleKeysFromRequest | mashery/transformers_role_rw.go:56-89 | the same for the role in the heap, and nothing else changes |
| Handlers.Backend.SetInitialRoleUsage | mashery/transformers_role_rw.go:188-194 | token blank, and times and limits all -1, whatever they were |
| Handlers.Backend.ForgetUsedToken | mashery/transformers_role_rw.go:196-199 | the token is forgotten in the heap |
| Handlers.Backend.DecreaseRemainingUsageQuota | mashery/transformers_role_rw.go:120-131 | a role with counted uses loses exactly one in the heap and in storage before the chain goes on; otherwise nothing is written |
| Handlers.Backend.RetrievePrivateKey | mashery/transformers_pki.go:25-44 | the stored key is used, or one is generated and stored before use |
| Handlers.Backend.CreateRoleDataExchange | mashery/data_structs.go:291-310 | editing the exchange data field by field gives the specified narrowing of the role |
| Handlers.Backend.RenderEncryptedRoleData | mashery/transformers_pki.go:244-315 | for a recipient: refused on an unreadable term, failed if encryption fails, else the role narrowed field by field, with expiry 0 when no term is given, sealed for the recipient under the live label |
| Handlers.Backend.ImportPEMEncodedExchangeData | mashery/transformers_pki.go:333-358 | the role takes over what the sealed data holds if its key and the label open it, else it is refused with the role unchanged |
| Handlers.Backend.EnsureAccessTokenValidForRole | mashery/transformers_v3.go:351-376 | a token that is missing or has fewer than 300 seconds left is replaced by exactly the one OAuth granted, expiring at the second of the answer plus its lifetime, then persisted; a denial or a failing write stops the chain |
| Handlers.Backend.DoFetchWithErrorHandling | mashery/transformers_v3.go:126-153 | the loop of at most three rounds equals the recursive meaning of the fetch |
| Handlers.Backend.RetrieveV3AccessToken | mashery/transformers_v3.go:378-390 | the granted token is handed on unless OAuth denies it or the role has a term and the server's clock is past it |
| Handlers.Backend.RetrieveV2Signature | mashery/transformers_v2.go:33-36 | a signature is made and the chain goes on |
| Handlers.Backend.RehydrateV3AccessToken | mashery/path_role_token.go:74-91 | what is revealed is the cached token with its expiry |
| Handlers.Backend.BlockUsageExceedingLimits | mashery/transformers_role_rw.go:107-118 | goes on if and only if the second of the clock is not past a positive term and a use is left where uses are counted |
| Handlers.Backend.ReadRecipientCertificate | mashery/transformers_pki.go:136-166 | carries a certificate if and only if the clock is within its validity |
| Handlers.Backend.RenderRoleCertificate | mashery/transformers_pki.go:58-67 | the certificate carries the public half of the role's key and lives four hours |
| Handlers.Backend.Inspect | mashery/transformers_role_rw.go:91-181 | the gates that only look: imported, force-proxy, exportable, capability, and the bouncing of upstream errors |
| Handlers.Backend.RemoveRecord | mashery/path_role.go:171-182 | one record is deleted, or the request fails, with that record deleted or not |
| Handlers.Backend.RunChain | mashery/chainofresponsibility.go:196-206 | the loop over transformers equals the engine's chain |
| Handlers.Backend.RunNested | mashery/cordriver.go:39-51 | a parent container, then a child container carrying the same role object, equal the engine's nested handler |
| Handlers.Backend.Handle | mashery/plugin.go:337-366 | one request leaves exactly the world and answer the engine defines |
| Handlers.Backend.Serve | mashery/plugin.go:337-366 | a list of requests leaves exactly the world of the engine's serial run |
| Safety.EffectJustified | mashery/path_role_grant.go:142-149 | once the gates passed so far include those an effect needs, the effect is admitted in the sense of the trace |
| Safety.SpendJustified | mashery/transformers_role_rw.go:120-131 | a decrement takes one unit from the stored, undepleted record, once per request |
| Safety.ApplyKeeps | mashery/chainofresponsibility.go:192-194 | every transformer, allowed where it stands in a chain, keeps storage equal to what the trace last saved and adds only justified events, whatever fails and whether or not a failing write took effect |
| Runs.Discipline | mashery/path_role_v3.go:250-261 | every handler's chain respects the order of gates, spending, refreshing and effects |
| Runs.RequestKeeps | mashery/plugin.go:337-366 | every request, and every early end of it, keeps the invariant |
| Runs.RunKeeps | mashery/plugin.go:337-366 | so does every serial run |
| Traces.LedgerBalances | mashery/transformers_role_rw.go:120-131 | spent + stored + forfeited = imported, for every justified trace |
| Traces.BoundRequestsPay | mashery/path_role_v3.go:250-261 | at most as many requests had an effect under a quota as units were spent, because each of them spent one |
| Traces.LimitsStick | mashery/transformers_role_rw.go:91-118 | keys, term and quota size of an imported role outlive everything but an import or a deletion, and the remaining uses never grow |
| Traces.PrivateKeyStays | mashery/transformers_pki.go:25-44 | a stored private key stays the same until a deletion |
| Traces.RecordsStayConsistent | mashery/path_role.go:137-182 | records of a justified trace are consistent |
| Traces.AcquisitionsAreSpaced | mashery/data_structs.go:249-251 | while no token is lost, renewals are at least the lifetime less 299 seconds apart |
| Lifecycle.StorageStaysConsistent | mashery/path_role.go:137-182 | after every run with any failures, each failing write having taken effect or not: usage and private key only beside keys, limits only beside imported keys, remaining uses within the quota, everything decodable |
| Lifecycle.EveryMomentIsConsistent | mashery/path_role_impexp.go:209-215 | the same between any two storage operations of a run |
| Lifecycle.HalfWrittenIsRefused | mashery/transformers_role_rw.go:30-48 | a role lacking keys or usage is refused by every handler that requires it, which fails instead exactly if a record up to there cannot be read; nothing is written and nothing done |
| Lifecycle.DeletionClears | mashery/path_role.go:171-182 | from any state, a deletion that meets no failure removes all three records and nothing else |
| Lifecycle.QuotaIsConserved | mashery/transformers_role_rw.go:120-131 | the ledger over every run from an empty store, the stored side in the record's own fields; effects under a quota bounded by units spent, bounded by units imported |
| Lifecycle.EveryEffectIsGated | mashery/path_role_v3.go:157-191 | every signature, grant, revealed token and upstream call was admitted: role read, and by its stored fields at the second of the check not past its term, with a use left, complete for the API, force-proxy off for what is handed out, and paid for unless it is the existence probe; calls and revealed tokens use the stored token, a revealed one being fresh |
| Lifecycle.TokensAreTheGrantedOnes | mashery/transformers_v3.go:351-376 | in every run, the token of every V3 call and every revealed token is exactly the one of the OAuth answer that the role's latest renewal got, nothing having replaced or forgotten it since; a revealed expiry is that answer's second plus its lifetime |
| Lifecycle.RenewalsStoreTheAnswer | mashery/transformers_v3.go:351-376 | in every run, each renewal stores the answer's token, expiry and time obtained, each by itself, leaves all limits alone, and happens only when no token is stored, fewer than 300 seconds of it are left, or the upstream rejected it in this request |
| Lifecycle.ReadsReturnTheLastSave | mashery/vaultstorage.go:24-62 | every role read in a run is what was last saved, QPS 0 read as 2 |
| Lifecycle.LimitsOutliveRuns | mashery/path_role.go:137-169 | limits and imported keys survive every run without another import or deletion of the role |
| Lifecycle.OnceRefusedAlwaysRefused | mashery/data_structs.go:283-289 | with a clock that never goes back, a role now past its term or without a use left, by its stored fields, is refused by every gated request after every such run, with nothing written |
| Lifecycle.AcquisitionsTakeTime | mashery/data_structs.go:249-251 | n tokens that live L seconds take at least (n-1)(L-299) seconds to acquire, over any run that fails nowhere and has no request on the role that discards tokens |
| Frames.RunIsFramed | mashery/transformers_role_rw.go:18-28 | a run leaves every record of every role it does not name as it was, and adds only events its own requests can emit |
| Frames.OnlyImportsAndDeletions | mashery/path_role_impexp.go:209-215 | only import and delete requests emit events that lift the limits of an imported role |
| Frames.OnlyTheseLoseTokens | mashery/path_role_token.go:93-101 | with no storage failure only creation, deletion, token deletion and V3 calls can lose a token that is still good |
| Outcomes.CreationOutcome | mashery/path_role.go:137-149 | creation is refused on an imported role; else each key field is the requested one or what was there, for a new role the default, with QPS 0 read as 2, the marks stay, and the usage record is blank with limits -1 |
| Outcomes.UpdateOutcome | mashery/path_role.go:159-169 | an update is refused on an imported role; else each key field is the requested one or the previous one, with QPS 0 read as 2, the marks stay, and the usage record is left alone |
| Outcomes.TokenDeletionOutcome | mashery/path_role_token.go:93-101 | only the token and its times are blanked |
| Outcomes.AdmissionIsExact | mashery/path_role_v2.go:81-88 | a grant or V2 call, whatever OAuth, upstream and clock answer: admitted if and only if, in the stored fields and the second of the check, the term is not past, a use is left, the keys are complete and, for a grant, force-proxy is off; then exactly one use is gone if counted, and the last event and the answer are determined, a V3 grant failing if OAuth denies it or dates it past the term; else refused with nothing done |
| Outcomes.TurnedAwayIsExact | mashery/path_role_v3.go:130-148 | exactly these requests are answered before the role is looked at, with nothing done: unknown API version, V2 without parameters, import without PEM text, and CLI changes while switched off or without a body |
| Outcomes.ReadingIsFree | mashery/path_role.go:151-157 | reading a role shows it, whatever its limits, and spends nothing |
| V3Outcomes.V3IsExact | mashery/path_role_v3.go:193-261 | a V3 request when storage works, whatever OAuth, upstream and clock answer: admitted by the stored fields as above; it fails at once, with no use taken, if a needed token is denied; else one use is gone if counted, limits and keys stay, and the status of the last call decides: relayed by the proxy, for the CLI relayed up to 299 and refused above, failed if there was no answer but 403 or none |
| V3Outcomes.ProbeIsExact | mashery/path_role_v3.go:157-191 | the existence probe has the same gates and takes no use; it goes on up to 299 and is refused above |
| V3Outcomes.TokenReadIsExact | mashery/path_role_token.go:45-72 | reading the token: admitted as above and with force-proxy off; one use is gone if counted, even when a needed token is denied, which fails; else what is revealed and stored is the token in hand or, if that has fewer than 300 seconds left, exactly the granted one with its expiry |
| Enforcement.DeliveryIffExportable | mashery/transformers_role_rw.go:139-147 | what the next rows suppose does happen: with nothing failing a role is handed over if and only if it is exportable |
| Enforcement.ExpiryIsEnforced | mashery/data_structs.go:283-289 | a role handed over without counted uses, then serving any requests but another import or deletion, is admitted exactly as long as the expiry of the export is not past |
| Enforcement.TermIsEnforced | mashery/data_structs.go:291-295 | one handed over with term `nd` is admitted up to and including n * 86400 seconds after the export, and refused with nothing done from the next second on |
| Enforcement.NoTermNeverExpires | mashery/transformers_pki.go:178-187 | one handed over without a term is never refused for it |
| Retry.FetchIsOrderly | mashery/transformers_v3.go:126-153 | for any number of rounds: no more calls than rounds, all but the last answered that the token is lost, each further call with a token stored after the previous rejection, no 403 returned, and the stored usage equal to the one in memory on success |
| Retry.GivesUpAfterAllRounds | mashery/transformers_v3.go:150-152 | if every call reports a lost token, exactly as many calls as rounds are made and the fetch fails |
| Retry.GivesUpAfterThree | mashery/transformers_v3.go:126-153 | the fetch of a request then makes exactly three calls |
| Retry.V3RequestsAreOrderly | mashery/path_role_v3.go:250-261 | every V3 request and every existence probe makes at most three upstream calls, in that order |
| Exchange.CertificateShowsKey | mashery/path_role_impexp.go:221-229 | a certificate read from a role carries the public half of the key then stored with it and is valid for four hours from its making; reading it changes no other record |
| Exchange.CertificateIsExact | mashery/transformers_pki.go:25-67 | reading a certificate of a readable role, exactly: for the stored key, or one generated, given out only if it was stored; a damaged record or a failing read, generation or write fails |
| Exchange.ExportIsExact | mashery/transformers_pki.go:136-187 | an export, exactly: refused unless the role is exportable, the input is a certificate valid at that instant and the term can be read; failed if encryption fails; else the role narrowed field by field, expiry 0 without a term, sealed for the certificate's key under the live label; nothing is ever written |
| Exchange.ImportOutcome | mashery/path_role_impexp.go:205-219 | with nothing failing an import succeeds if and only if the data was sealed for the role's key under the live label and decodes; each key and limit field is then the exchange's, otherwise nothing changes |
| Exchange.OthersCannotImport | mashery/transformers_pki.go:340-353 | data for another key or label, or garbled, changes no record, whatever fails |
| Exchange.LandsAs | mashery/transformers_pki.go:254-273 | what is stored after export and import equals a closed form of origin and request: blanked fields, QPS overridden and 0 read as 2, fresh quota, expiry from the text of the term and the clock, 0 without a term |
| Exchange.ExportReachesItsAddressee | mashery/path_role_impexp.go:190-229 | across runs: an export for a certificate read from a role is accepted by it at any later time unless the role was deleted, if and only if the label is unchanged, and lands in that closed form |
| Exchange.DaysArriveExactly | mashery/data_structs.go:291-295 | an export for n days, n at most 106751, has an expiry n times 86400 seconds after the second of the export |
| Exchange.ExportIffExportable | mashery/transformers_role_rw.go:139-147 | with a valid certificate, parsable settings and nothing failing, an export is answered if and only if the role is exportable |
| Exchange.HandoverIffExportable | mashery/path_role_impexp.go:190-229 | reading a certificate, exporting for it and importing the export goes through between two readable roles if and only if the first is exportable, when nothing fails |
| Exchange.ChainLands | mashery/transformers_role_rw.go:139-147 | a chain of exports of any length, among other requests, completes only if the seed and every holder but the last were exportable, and the last holder has the seed's keys with every narrowing applied |
| Exchange.ChainsAttenuate | mashery/transformers_pki.go:266-273 | along any chain credentials are the seed's or blank; V2 survives if and only if the seed had it and no hop asked for V3 only, and V3 conversely |
| Overspend.ReachAfter | mashery/transformers_role_rw.go:120-131 | each write-back of a possibly stale value is paid for by the combinatorial bound on the values in hand |
| Overspend.ReachIsBounded | mashery/transformers_role_rw.go:120-131 | that bound never exceeds C(k + E, E) - 1 for k values and quota E |
| Overspend.AloneIsExact | mashery/transformers_role_rw.go:120-131 | for one request at a time the bound is exactly the quota |
| Overspend.WorstCaseIsWithinLevels | mashery/transformers_role_rw.go:107-131 | the bound is at most k * P(E) with P(0) = 0 and P(h) = 1 + k * P(h - 1) |
| Interleaving.MoveKeeps | mashery/transformers_role_rw.go:30-48 | one transformer of one of the requests in flight keeps what was spent within reach of the values in hand, whichever holders give up |
| Interleaving.OverspendIsBounded | mashery/path_role_grant.go:142-149 | with at most k grant, V2 and proxied V2 requests in flight, any interleaving of their transformers and any failures, a failing write taking effect or not, requests served and units spent from E remaining uses never exceed C(k + E, E) - 1 |
| Interleaving.OneAtATimeIsExact | mashery/transformers_role_rw.go:120-131 | with one request in flight at a time no more requests are served than uses were left |
| Interleaving.WorstCaseIsReached | mashery/path_role_v2.go:81-88 | that bound is exact: for every k and E some interleaving of V2 calls spends all of it |
| Interleaving.OneSlotIsSerial | mashery/path_proxy_v2.go:53-74 | with one slot a request does exactly what it does in a serial run |
| Settings.CustomPinsSomething | mashery/data_structs.go:97-150 | connections are pinned if and only if custom pinning is chosen and a pin is set, and then to exactly the pins that are set |
| Settings.TlsIsAsConfigured | mashery/data_structs.go:97-150 | for every configuration: insecure if and only if insecure pinning is chosen, system TLS and delegation if and only if system pinning is, pinned if and only if custom pinning is chosen and a pin is set, the default otherwise; root CAs are the configured ones unless empty or `-` |
| Settings.EveryRunIsCoherent | mashery/transformers_backendConfig_rw.go:10-36 | after mounting, in every run: live configuration = stored one, helper and V3 clients built from it; clients opened and not closed are exactly those in the two maps, none closed twice |
| Settings.EveryConnectionIsAsConfigured | mashery/plugin.go:49-126 | after any run the OAuth helper has each proxy field of the live configuration, and it and every V3 client connect as configured |
| Settings.DefaultsOnMount | mashery/plugin.go:299-320 | the configuration of a new mount, value by value |
| Settings.ConfigurationOutcome | mashery/transformers_backendConfig_parser.go:38-103 | after a configuration request each field, one by one, is the given value or what it was, an empty text counting as none except for the label; pins stay and every client is let go |
| Settings.ConfigurationSucceedsIff | mashery/transformers_backendConfig_parser.go:93-102 | that succeeds if and only if storage works and proxy server, pinning and latency can be read |
| Settings.UnsuccessfulChangesNothing | mashery/transformers_backendConfig_parser.go:93-102 | a configuration request that does not parse or is not saved changes nothing |
| Settings.PinOperationsAreLocal | mashery/path_config.go:165-206 | a pin update or reset changes that pin of the configuration only |
| Settings.PinOutcome | mashery/transformers_backendConfig_parser.go:14-36 | and to what: each field given or as before, or all three empty after a reset |
| Settings.LabelChangesOnRequest | mashery/transformers_backendConfig_parser.go:43-45 | through any run without a request naming one, the OAEP label stays |
| Settings.HousekeepingLasts | mashery/plugin.go:183-206 | after housekeeping at t, through whatever follows, no entry was recorded before t less 15 minutes |
| Settings.HousekeepingIsExact | mashery/plugin.go:183-206 | an entry stays, as it was, if and only if it was recorded no more than 900 seconds ago; the clients of all others, and no others, are closed |
| Settings.V3ClientOutcome | mashery/plugin.go:96-126 | a cached client is used as it is, else one is opened with the QPS, the time and connections as configured |
| Settings.V2ClientOutcome | mashery/plugin.go:128-157 | a cached client gets the new signature only, else one is opened from the role's area, key and QPS |
| Settings.UseDoesNotProlong | mashery/plugin.go:99-101 | use keeps an entry's client and recorded time: the time is that of creation |
| Plugins.ParseBackEndConfiguration | mashery/transformers_backendConfig_parser.go:38-103 | the working copy is edited field by field, each stated by itself, errors or not, and there are errors if and only if a value is unreadable |
| Plugins.ParseCertificatePin | mashery/transformers_backendConfig_parser.go:14-36 | the same for the pin it is handed a reference to |
| Plugins.ResetCertificatePin | mashery/transformers_backendConfig_rw.go:19-27 | the referenced pin becomes empty |
| Plugins.AuthPlugin.LoadBackendConfiguration | mashery/plugin.go:299-308 | the stored configuration, or the defaults once stored |
| Plugins.AuthPlugin.InitOnMount | mashery/plugin.go:174-181 | mounting succeeds with the loaded configuration live, or fails and changes nothing |
| Plugins.AuthPlugin.GetOAuthHelper | mashery/plugin.go:49-69 | the helper is built once from the live configuration until that changes: its proxy fields are the configuration's own and its connections as configured |
| Plugins.AuthPlugin.AcceptConfigurationUpdate | mashery/plugin.go:71-88 | both maps are emptied while ranging over them and exactly their clients closed; the helper is due again |
| Plugins.AuthPlugin.SweepV3 | mashery/plugin.go:186-194 | deleting while ranging drops exactly the entries before the cut-over and closes exactly their clients |
| Plugins.AuthPlugin.SweepV2 | mashery/plugin.go:196-203 | the same for V2 clients |
| Plugins.AuthPlugin.Housekeeping | mashery/plugin.go:184-206 | both sweeps together equal their meaning on values |
| Plugins.AuthPlugin.GetMasheryV3Client | mashery/plugin.go:96-126 | a hit changes nothing, a miss opens one client that connects as the live configuration says |
| Plugins.AuthPlugin.GetMasheryV2Client | mashery/plugin.go:128-157 | a hit renews the signature through the shared authorizer, a miss opens one client |
| Plugins.AuthPlugin.StoreConfiguration | mashery/path_config.go:208-221 | read, parse, save, accept over a working copy equals its meaning on values |
| Plugins.AuthPlugin.UpdateCert | mashery/path_config.go:172-189 | the same, editing one pin through a reference into the working copy |
| Plugins.AuthPlugin.ResetCert | mashery/path_config.go:191-206 | the same for emptying a pin |
| Paths.PathsAreInjective | mashery/plugin.go:267-297 | for all role names, slashes included, different records have different paths and none is the configuration's |
| Paths.WritesAreLocal | mashery/transformers_role_rw.go:18-28 | so a write or deletion in text-keyed storage is one of that one record |

## Left out

- Handlers.Backend.ReadRole: the two reads of a role are one transformer; requests in flight interleave between transformers, which loses nothing here because none of them writes keys.
- Interleaving.OverspendIsBounded: does not cover V3, `/token` or token-delete requests in flight, whose extra writes put back an older usage record, nor other roles' requests in the same pool.
- Lifecycle.AcquisitionsTakeTime: requires that no storage operation fails and no creation, deletion, token deletion, V3 call or probe is made on the role, since each of these can discard a good token.
- Lifecycle.QuotaIsConserved: an import starts a new quota and forfeits what was left of the previous one, so the bound is per import; a role may be imported again and again.
- Exchange.ChainsAttenuate: says nothing about QPS, force-proxy, term and quota, which an export sets as it likes.
- Exchange.ImportOutcome: supposes a private key is stored; without one the import generates it and cannot open what was sealed before.
- Import order: keys are saved before usage, so a failure in between leaves new keys with the old limits; the storage invariant covers that state.
- The cached token after an import or an update may belong to earlier credentials; nothing is claimed about it.
- Terms that end at or before the epoch: the stored expiry is then not positive and sets no limit, as Enforcement.ExpiryIsEnforced states; nothing says the engine should do otherwise.
- V3Outcomes.V3IsExact: supposes that storage works, as do the other exact outcomes for their few ticks; what failing writes lead to is left to the theorems over whole runs.
- `HasNotExpired`, which is not the negation of `Expired` and is not called.
- Settings.UnsuccessfulChangesNothing: takes a failing save of the configuration to leave the stored one as it was; one that took effect would show only at the next mount or configuration request.
- Settings.EveryRunIsCoherent: V2 clients are built from role data, not from the configuration; cached clients may be older than the role's current QPS, key or area, being keyed by name.
- The fetch wrappers' error path, which reads a status from a missing response.
- The existence probe as a choice between POST and PUT: a 404 is bounced into an error before it could say no.
- Certificates, RSA, gzip and PEM text; HTTP and TLS set-up; MD5 signatures; the JSON form of the configuration.
- Response rendering, leases, query strings, path patterns, help texts, logging, command-line tools and scripts.
- The engine's `Reconfigure` request stands for any configuration change that alters the label or the CLI switch; `Settings.dfy` models those changes in full.
