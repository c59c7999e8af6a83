# Verification of the Lark–Codex bridge core

The bridge connects Lark to a Codex app-server and fails closed when it is not
sure of its state. This project models the code that decides such things and
proves what it is for. `dafny verify dfyconfig.toml` checks all of it.

| area | source | modules |
|---|---|---|
| Schema comparison and validation | `tools/codex_schema.py` | `Json`, `Schema`, `Validator`, `BranchMatching`, `SchemaDiff`, `Comparison`, `SchemaEquality`, `ScalarSoundness`, `DiffSoundness`, `DiffIdentity`, `IncomingExactness`, `DiffLimits`, `DiffAdditive`, `DiffLocal`, `MatchingLaws`, `SemanticKey`, `JsonPointer`, `NameOrder` |
| Client event router | `src/codex/client.rs` | `ClientEvents`, `Mailbox`, `MailboxCell`, `MailboxLaws`, `Ledger`, `CompletedItems`, `Projection`, `ProjectionCell`, `PublishOnce`, `PublishAll`, `Router`, `RouterActor`, `BoxHistory`, `RouterSafety`, `RouterLimits`, `RouterProjections`, `RouterAnswers`, `RouterDeferral`, `RouterPending`, `TurnStart` |
| Reconciliation | `src/codex/external_recovery.rs` | `TerminalFold`, `Reconcile` |
| Sidecar intake | `src/channel/sidecar.rs` | `Sidecar` |
| External writes | `src/codex/external_write.rs` | `ExternalWrite`, `WriteCauses` |
| Process signals | `src/codex/process.rs` | `SignalAuthority` |

Small shared modules: `Wrappers`, `Sets`, `Totals`.

## How the models are built

Code that changes things step by step is a class or a method with loops, proved
equal to a function of the old state; the theorems are about those functions,
over every input or every run. Where a state machine runs against a peer, the
peer is arbitrary: its answers are parameters, quantified over.

Each area has laws of two kinds: what never happens, and what must happen when
it is called for. The second kind is stated on inputs and logs, most often as
an if-and-only-if: which report a schema change gets, which notification
publishes what, which acknowledgement, reply, stored resolution or signal
follows from which answers, and why a thread does not reconcile.

**Schemas.** `validate_schema_keyword_shapes` (`tools/codex_schema.py:1771-1922`)
runs before any comparison or validation, so a schema is a typed value. Numbers
are integers or exact dyadic floats. Regular expressions are an uninterpreted
predicate. The semantics are those of section 6 of JSON Schema draft-07
Validation.

Several keywords are compared whole with Python `==`
(`tools/codex_schema.py:2736`, `2961`, `2999`), which takes `true` for `1`:
`TrueIsNotOne` is an unreported break. The model can also compare them by the
tool's own JSON keys. Soundness and exactness are proved for all shaped schemas
whenever both comparisons give the same report, which a caller can check;
`ConstantShortcutExact` shows a family on which that is exactly when the claim
holds. The validator accepts a quotient within 1e-12 of an integer
(`tools/codex_schema.py:3366`), so a widened `multipleOf` can reject a float it
accepted before: `WideningExact` says that it always rejects one, and which
integers it keeps.

**Router.** `World` holds the routes, the mailboxes with their histories, and
the log of terminal events dispatched per thread. Each handler call is one
step, as the single-owner task runs it. A notification carries its decoded
parameters, or None where decoding fails. A full route table gives up the idle
route its hash map meets first; each request carries that route as a hint, so
every iteration order is covered. Serialised sizes and fingerprints are fields
of the payloads. Subscribing to an invalidated route is refused by
`route_for_update`, so the branch of `Subscribe` for that case
(`src/codex/client.rs:1393-1394`) is never taken; `RouteForUpdate` states why.

**Turn start.** `start_turn` meets its documentation except in one corner: the
router's acceptance of BeginTurnStart can be acknowledged just as the caller
stops waiting. Then no guard exists yet, the caller is told that nothing
happened, and the route keeps a pending start. `SettledUnlessOrphaned` runs the
call's commands through the router and says that this is the only such case;
`OrphanBlocks` says what it costs.

**Reconciliation.** A pass keeps the history of the requests it sent and of
what arrived during each. What counts as received is tied to that history, and
page limits are limits on requests in it.

**Writes.** The actor is a function from its inputs to a log of acts, and the
class computes that log. A mutation that was sent is not always resolved: the
confirming read after a start or a steer returns early when it fails
(`src/codex/external_write.rs:991-998`). `SentIsResolvedUnlessReadFails` gives
the exact condition.

## Model

| member | source | states |
|---|---|---|
| `DiffSoundness.DiffIsSound` | `tools/codex_schema.py:2609-3010` | An outgoing comparison with no breaking change never rejects an instance the validator accepted: all shaped schemas, all keywords, any nesting, any regex, whenever comparing whole keywords by JSON key gives the same report; a widened `multipleOf` for instances without floats |
| `DiffSoundness.Sound` | `tools/codex_schema.py:2609-3010` | The mutual induction behind it, for every pair of shaped schemas, with whole keywords compared by key |
| `DiffSoundness.CombinatorSound` | `tools/codex_schema.py:2452-2605` | A comparison of `anyOf`, `oneOf` or `allOf` without a breaking change keeps accepted instances accepted |
| `DiffSoundness.OneOfKeepsCount` | `tools/codex_schema.py:2476-2605` | When the old `oneOf` branches survive and the additions are pairwise and mutually disjoint, exactly as many branches accept as before, and the greedy matching leaves no old branch over |
| `DiffSoundness.DisjointExclusive` | `tools/codex_schema.py:2141-2163` | Branches reported disjoint never both accept an instance |
| `DiffSoundness.AdditionsReject` | `tools/codex_schema.py:2567-2576` | Additions disjoint from the old branches accept nothing an old branch accepts |
| `DiffSoundness.ObjectsSound` | `tools/codex_schema.py:2734-2850` | `properties`, `required`, `additionalProperties` and their interaction keep accepted objects accepted |
| `DiffSoundness.ArraysSound` | `tools/codex_schema.py:2881-2945` | Item schemas, single or positional, keep accepted arrays accepted |
| `DiffIdentity.Silent` | `tools/codex_schema.py:2609-3010` | A schema compared with itself reports nothing, on either boundary and with either equality |
| `IncomingExactness.IncomingIsExact` | `tools/codex_schema.py:2424-2448` | An incoming comparison with no breaking change and no fallback evidence, whose report is the same by JSON key: an instance that uses none of the newly declared property names is accepted by the old schema exactly when the new one accepts it |
| `IncomingExactness.Exact` | `tools/codex_schema.py:2609-3010` | The mutual induction behind it, both directions at once |
| `IncomingExactness.HardenedIsQuiet` | `tools/codex_schema.py:3002-3010` | What an incoming boundary leaves additive after hardening is only declared-property additions and evidenced openings |
| `DiffLimits.ConstantShortcutExact` | `tools/codex_schema.py:2734-2754` | On schemas `{additionalProperties: {const: v}}` whose constants Python calls equal nothing is reported; accepted instances stay accepted exactly when the constants are equal as JSON, which is exactly when the report by key is the same |
| `DiffLimits.TrueIsNotOne` | `tools/codex_schema.py:2736-2740` | `{const: true}` becoming `{const: 1}` goes unreported and rejects an instance: why soundness asks for the same report by key |
| `DiffLimits.WideningExact` | `tools/codex_schema.py:2770-2795` | A change of `multipleOf` classified as widening keeps every integer multiple unless the old divisor is a float with a numerator of 1e12 or more, and always loses some one-bit float |
| `DiffLimits.WideningWitness` | `tools/codex_schema.py:3357-3370` | For every widening a power of two, so a double, that the tolerance accepts before and rejects after |
| `DiffLimits.WholeFloatExact` | `tools/codex_schema.py:3362-3369` | An integer divisor above 1 and the float of the same value accept the same numbers exactly when they are below 1e12 |
| `BranchMatching.MatchBranches` | `tools/codex_schema.py:2492-2532` | The matching loops over shrinking index sets compute the three-stage matching |
| `BranchMatching.MatchAccounted` | `tools/codex_schema.py:2492-2532` | No branch of either union escapes: each is matched exactly, paired for comparison, or left over |
| `BranchMatching.ExactBalance` | `tools/codex_schema.py:2496-2507` | The greedy exact match removes equally many accepting branches from both sides, for every predicate |
| `BranchMatching.PureAdditionMatchesAll` | `tools/codex_schema.py:2484-2507` | When the old branches survive as a multiset the greedy match leaves none of them over |
| `SchemaEquality.EqSchemaValid` | `tools/codex_schema.py:2960-2963` | Schemas equal by their JSON keys accept the same instances, with no other hypothesis |
| `SchemaEquality.NearIsWhole` | `tools/codex_schema.py:3363-3367` | For a divisor with a numerator below 1e12 the tolerance accepts an integer only if it is a multiple |
| `ScalarSoundness.TypeMeaning` | `tools/codex_schema.py:2010-2027` | Type atoms split `number` into integer and non-integer exactly as the validator does |
| `ScalarSoundness.FiniteMeaning` | `tools/codex_schema.py:2066-2079` | The finite value set of `enum` and `const` together is what both accept |
| `ScalarSoundness.BoundSound` | `tools/codex_schema.py:2081-2111` | A bound classified as relaxed accepts everything the old bound did |
| `ScalarSoundness.MultipleThrough` | `tools/codex_schema.py:2783-2792` | An integer accepted as a multiple of a coarse divisor is accepted for every divisor of it, whole or fractional |
| `Json.SameJsonIsCanon` | `tools/codex_schema.py:2030-2053` | JSON equality, by exact value of numbers and unordered members, is equality of canonical forms |
| `Json.PyEqIsCanon` | `tools/codex_schema.py:2736-2736` | Values Python calls equal are equal as JSON exactly when nowhere a boolean faces a number |
| `SemanticKey.KeysAreFaithful` | `tools/codex_schema.py:2030-2053` | Two JSON values have the same key text exactly when they are equal as JSON |
| `SemanticKey.EscapesInjective` | `tools/codex_schema.py:2030-2053` | The quoted text of a string determines the string |
| `SemanticKey.SignedHexInjective` | `tools/codex_schema.py:2050-2053` | The signed hexadecimal text determines the integer, whatever follows it |
| `JsonPointer.RoundTrip` | `tools/codex_schema.py:3167-3183` | Escaping the keys of a path, joining them and resolving the result returns the value at that path |
| `JsonPointer.TokenRoundTrip` | `tools/codex_schema.py:2170-2171` | Unescaping undoes `json_pointer_token` for every key |
| `JsonPointer.ResolvePointer` | `tools/codex_schema.py:3167-3183` | The resolving loop finds the schema a reference leads to, or fails exactly where the source does |
| `Validator.ValidateInstance` | `tools/codex_schema.py:3187-3380` | The recursive validator with its loops decides the validity predicate the theorems use |
| `Validator.CountMatches` | `tools/codex_schema.py:3224-3238` | The counting loop returns how many branches accept |
| `Validator.CheckObject` | `tools/codex_schema.py:3257-3303` | The object checks decide the object rules |
| `Validator.CheckArray` | `tools/codex_schema.py:3304-3332` | The array checks decide the array rules |
| `Validator.CheckLogic` | `tools/codex_schema.py:3217-3255` | The boolean-logic checks decide the logic rules |
| `Comparison.CompareNamedSchemas` | `tools/codex_schema.py:2609-3010` | Appends to the shared change list exactly the comparison, in the order of the source, hardening what it appended on an incoming boundary |
| `Comparison.CompareCombinator` | `tools/codex_schema.py:2452-2605` | Appends exactly the classified changes of one union |
| `Comparison.ComparePairs` | `tools/codex_schema.py:2532-2554` | Compares the matched pairs in order |
| `Comparison.CompareProperties` | `tools/codex_schema.py:2807-2850` | Appends exactly the property changes |
| `Comparison.CompareItems` | `tools/codex_schema.py:2881-2945` | Appends exactly the item changes |
| `Comparison.ChangeLog.HardenFrom` | `tools/codex_schema.py:3002-3010` | Reclassifies in place only the changes appended since a position |
| `DiffAdditive.ClosedObjectMayGrow` | `tools/codex_schema.py:2424-2448` | A closed object may declare any undeclared, unrequired property no pattern matches, with any schema: the report is exactly that addition, additive, on either boundary |
| `DiffAdditive.FreePropertyMayBeDeclared` | `tools/codex_schema.py:2424-2448` | So may any object a property that admits every value |
| `DiffAdditive.KnownPropertyMayBeDeclared` | `tools/codex_schema.py:2440-2447` | And one with the very schema undeclared properties had to meet |
| `DiffAdditive.PropertiesMayBecomeOptional` | `tools/codex_schema.py:2847-2852` | Requiring fewer properties is reported name by name in order, as additive |
| `DiffAdditive.ObjectMayOpen` | `tools/codex_schema.py:2734-2743` | Opening a closed object, or freeing what it admits, is one additive change |
| `DiffAdditive.BoundsReported` | `tools/codex_schema.py:2756-2759` | A change of limits alone has no breaking report exactly when no limit is stricter, and every difference is reported |
| `DiffAdditive.TypeReported` | `tools/codex_schema.py:2646-2668` | A change of type alone has no breaking report exactly when every value of the old type is of the new one and the old type was written out, or the type is dropped; anything newly admitted is reported |
| `DiffAdditive.ValuesReported` | `tools/codex_schema.py:2670-2694` | A change of `enum` and `const` alone has no breaking report exactly when every value admitted stays so, and newly admitted values are reported |
| `DiffAdditive.MultipleReported` | `tools/codex_schema.py:2770-2795` | A changed `multipleOf` is one report, additive exactly when the new value divides the old |
| `DiffAdditive.MultipleMayGo` | `tools/codex_schema.py:2770-2775` | A dropped `multipleOf` is one additive change |
| `DiffAdditive.UniqueMayGo` | `tools/codex_schema.py:2796-2805` | Disabled `uniqueItems` is one additive change |
| `DiffAdditive.PatternMayGo` | `tools/codex_schema.py:2760-2769` | A dropped `pattern` is one additive change |
| `DiffAdditive.FormatMayGo` | `tools/codex_schema.py:2760-2769` | A dropped `format` is one additive change |
| `DiffAdditive.ItemsMayGo` | `tools/codex_schema.py:2943-2944` | Dropped item schemas are one additive change |
| `DiffAdditive.TupleMayShrink` | `tools/codex_schema.py:2915-2931` | Dropped last positions of a tuple whose further items are free are one additive change |
| `DiffAdditive.NotMayGo` | `tools/codex_schema.py:2960-2963` | A dropped `not` is one additive change |
| `DiffAdditive.AnyOfMayGrow` | `tools/codex_schema.py:2557-2565` | New `anyOf` alternatives are one additive change |
| `DiffAdditive.OneOfMayGrow` | `tools/codex_schema.py:2566-2587` | New `oneOf` alternatives that exclude every other branch are one additive change |
| `DiffAdditive.AllOfMayShrink` | `tools/codex_schema.py:2552-2556` | Dropped `allOf` conjuncts are one additive change |
| `DiffAdditive.UnionMayGo` | `tools/codex_schema.py:2472-2474` | A dropped union is one additive change |
| `DiffAdditive.BooleanReported` | `tools/codex_schema.py:2625-2640` | Between a boolean schema and any other every difference is reported, as breaking exactly when everything was accepted or nothing is now |
| `DiffAdditive.AnnotationsAreIgnored` | `tools/codex_schema.py:2982-3000` | A change of annotations reports nothing |
| `DiffAdditive.EvidenceOpensValues` | `tools/codex_schema.py:2679-2690` | On an incoming boundary new values are one change, additive exactly when reviewed evidence names the place |
| `DiffAdditive.EvidenceOpensUnions` | `tools/codex_schema.py:2562-2565` | The same for new `anyOf` alternatives |
| `DiffAdditive.TagsExclude` | `tools/codex_schema.py:2141-2163` | Object branches pinned by the same required property to different values count as disjoint |
| `DiffAdditive.TypesExclude` | `tools/codex_schema.py:2141-2163` | So do branches of types that share no value |
| `DiffLocal.PropertyIsLocal` | `tools/codex_schema.py:2828-2841` | Another schema for one property: the report is exactly that of the property, on either boundary |
| `DiffLocal.AdditionalIsLocal` | `tools/codex_schema.py:2745-2754` | The same for the schema of undeclared properties, unless the two count as equal |
| `DiffLocal.ItemsAreLocal` | `tools/codex_schema.py:2881-2892` | The same for the item schema |
| `DiffLocal.PositionIsLocal` | `tools/codex_schema.py:2893-2910` | The same for one position of a tuple |
| `DiffLocal.BranchIsLocal` | `tools/codex_schema.py:2529-2605` | The same for one branch of a union replaced by a new one, however the others repeat; a `oneOf` is also reported as unproven when the branch itself is not breaking |
| `MatchingLaws.SameKeyIsPaired` | `tools/codex_schema.py:2509-2521` | Branches without an identical counterpart are compared with each other when each is the only one left on its side with that key |
| `MatchingLaws.SamePositionIsPaired` | `tools/codex_schema.py:2522-2528` | Branches still unmatched at the same position are compared |
| `MatchingLaws.LeftoversDiffer` | `tools/codex_schema.py:2492-2528` | Nothing is left over that has an identical branch or an unmatched one at its position |
| `Mailbox.CoalescingRefinesQueue` | `src/codex/client.rs:2242-2390` | Over any run, invalidations included: what was received and is queued, merged deltas split apart, are the accepted pushes in order, or after an invalidation those received before it followed by notices only; counters, byte total and bounds are exact |
| `Mailbox.StreamTextPreserved` | `src/codex/client.rs:2526-2572` | The text of every delta stream is the concatenation of its accepted deltas, or a first part of it after an invalidation |
| `Mailbox.LossyValid` | `src/codex/client.rs:2293-2355` | A lossy push keeps counters and byte total exact |
| `MailboxCell.Mailbox.PushTerminal` | `src/codex/client.rs:2272-2291` | Accepts or refuses exactly as specified, and keeps the queue otherwise |
| `MailboxCell.Mailbox.PushLossy` | `src/codex/client.rs:2293-2355` | Merges, appends or drops exactly as specified |
| `MailboxCell.Mailbox.Recv` | `src/codex/client.rs:2250-2270` | One turn of the receive loop: the oldest event, or why there is none |
| `MailboxCell.Mailbox.Invalidate` | `src/codex/client.rs:2371-2389` | Replaces the queue by one final notice and closes |
| `MailboxLaws.TerminalIsTaken` | `src/codex/client.rs:2272-2291` | After any run a terminal event is taken exactly when the mailbox is open, fewer than 64 terminal events wait and its weight fits, and is then the last to wait |
| `MailboxLaws.LossyIsTaken` | `src/codex/client.rs:2293-2355` | A lossy event that continues nothing is taken exactly when the mailbox is open and it is within the size, count and weight limits |
| `MailboxLaws.DeltaIsJoined` | `src/codex/client.rs:2293-2330` | A delta that continues the last waiting one is merged into it exactly when the mailbox is open and the result fits; it takes no place of its own |
| `MailboxLaws.OldestIsReceived` | `src/codex/client.rs:2250-2270` | Receiving takes the oldest waiting event and only that |
| `MailboxLaws.OpenUntilShut` | `src/codex/client.rs:2357-2389` | The mailbox is closed exactly when it was closed or invalidated |
| `MailboxLaws.DeltasAreCoalesced` | `src/codex/client.rs:2293-2330` | One stream never waits in two neighbouring pieces |
| `Projection.RunIsConsistent` | `src/codex/client.rs:1876-2135` | After any notifications: active turns are the started ones and exclude retained outcomes, usage and completed items exclude them too, byte totals are exact sums within budget, and the retained outcomes are the longest suffix of the completion history that fits |
| `Projection.SettleKeeps` | `src/codex/client.rs:1901-2135` | Every step keeps the projection consistent |
| `Ledger.RetainIsLongestFit` | `src/codex/client.rs:2112-2132` | The eviction loop and the insertion leave the tables of the longest suffix that fits |
| `Ledger.LongestFitIsLongest` | `src/codex/client.rs:2112-2123` | That suffix fits, and every suffix that fits is no longer |
| `Ledger.PopIsTail` | `src/codex/client.rs:2115-2122` | Evicting the oldest entry keeps the four outcome tables aligned |
| `CompletedItems.RecordCounted` | `src/codex/client.rs:1239-1267` | The running byte total stays the exact sum over the turns |
| `ProjectionCell.ThreadProjection.TurnCompleted` | `src/codex/client.rs:2064-2135` | The in-place completion of a turn is the specified step |
| `ProjectionCell.ThreadProjection.MakeRoom` | `src/codex/client.rs:2112-2123` | The eviction loop |
| `ProjectionCell.ThreadProjection.ItemCompleted` | `src/codex/client.rs:1975-2028` | The in-place item step |
| `ProjectionCell.ThreadProjection.TurnStarted` | `src/codex/client.rs:1901-1933` | The in-place turn-start step |
| `ProjectionCell.ThreadProjection.ItemStarted` | `src/codex/client.rs:1935-1973` | The in-place item-start step |
| `ProjectionCell.ThreadProjection.UsageUpdated` | `src/codex/client.rs:2030-2062` | The in-place usage step |
| `ProjectionCell.ThreadProjection.Invalidate` | `src/codex/client.rs:2185-2199` | Clears the open tables and keeps the outcomes |
| `PublishAll.NoticesAreAnswered` | `src/codex/client.rs:1901-2135` | After any notifications the next one publishes exactly the event that the log so far calls for, and invalidates the thread exactly when nothing can be said; what is called for is defined on notifications and log, without the tables |
| `PublishAll.CompletionIsPublished` | `src/codex/client.rs:2064-2135` | A completion whose outcome is not kept publishes exactly one TurnCompleted with the turn and its last reported usage, becomes the newest kept outcome, and ends the turn |
| `PublishAll.UsageIsRemembered` | `src/codex/client.rs:2030-2062` | The usage held for a turn is the last one reported since its last completion |
| `PublishAll.RunMirrors` | `src/codex/client.rs:1876-2135` | After any notifications every table is what the log says: started and open turns, completed items, retained outcomes |
| `PublishAll.PassingAnswers` | `src/codex/client.rs:1935-2062` | Every usage update and every first item start is passed on, and nothing else |
| `Router.RouteForUpdate` | `src/codex/client.rs:1485-1522` | A route handed out for update exists and is not invalidated |
| `PublishOnce.PublishedAtMostOnce` | `src/codex/client.rs:1901-2028` | Since a turn last ended its start is published at most once, and so is the completion of each of its items |
| `PublishOnce.OutcomesAreFresh` | `src/codex/client.rs:2078-2088` | A turn completes again only after its outcome was evicted |
| `RouterSafety.StepIsDispatched` | `src/codex/client.rs:2137-2183` | What a projection step publishes is dispatched on its thread, and nothing else on any thread |
| `RouterSafety.NoSilentTerminalLoss` | `src/codex/client.rs:2161-2220` | Over every run, for every subscriber: open means listed and received plus queued terminal events are exactly those dispatched since it joined; closed means by its owner, or cut short by one notice after a prefix, or after all of them and the end of the connection |
| `RouterSafety.NoticeComesLast` | `src/codex/client.rs:2371-2389` | An invalidation notice is the last terminal event of its mailbox, which is closed and unlisted |
| `RouterSafety.PublishOk` | `src/codex/client.rs:2161-2183` | A terminal dispatch reaches every open subscriber or cuts it short |
| `RouterSafety.HandleOk` | `src/codex/client.rs:1358-1483` | Every command keeps the mailbox histories |
| `RouterSafety.NotifyOk` | `src/codex/client.rs:1536-1754` | Every notification keeps the mailbox histories |
| `RouterSafety.ExitOk` | `src/codex/client.rs:2207-2220` | Closing the connection tells every subscriber or cuts it short |
| `RouterLimits.LimitsHold` | `src/codex/client.rs:1358-1522` | In every reachable state: at most 64 routes, 64 subscribers, 4 per thread; an invalidated route has none; deferral implies a pending start and its count is exact |
| `RouterLimits.OnlyIdleRoutesAreEvicted` | `src/codex/client.rs:1500-1521` | A full table gives up only a route with no live subscriber, pending start, deferred notification, open turn or outcome |
| `RouterLimits.ReleaseRemovesOnlyQuietRoutes` | `src/codex/client.rs:1467-1482` | A release removes its route exactly when nothing live depends on it |
| `RouterProjections.ProjectionsStayConsistent` | `src/codex/client.rs:1876-2205` | In every reachable state every projection is consistent, and the outcomes it retains are the longest suffix that fits of the completions in its thread's log since some point |
| `RouterAnswers.NotificationsAreAnswered` | `src/codex/client.rs:1580-1754` | In every reachable state a decoded notification for a usable thread that is not deferred appends exactly the event its log calls for |
| `RouterAnswers.TablesFollowLog` | `src/codex/client.rs:1876-2205` | In every reachable state the tables of a thread are those of its log since its route was made |
| `RouterAnswers.PublishedIsHeard` | `src/codex/client.rs:2161-2183` | A published event is the last to wait for every listener with room, and the listener stays |
| `RouterAnswers.PassingIsHeard` | `src/codex/client.rs:2137-2160` | A passing event waits for every listener with room, on its own or joined to the delta it continues, and no listener is lost |
| `RouterAnswers.DeltasAreSpread` | `src/codex/client.rs:1620-1682` | A delta for a known thread is spread as it came |
| `RouterAnswers.PassingNoticesAreSpread` | `src/codex/client.rs:1935-2062` | Usage updates and first item starts wait for every listener with room |
| `RouterAnswers.GarbledCalls` | `src/codex/client.rs:1580-1754` | A vital call that does not decode ends the connection and tells the listeners of its thread; any other is ignored |
| `RouterAnswers.UnusableThreads` | `src/codex/client.rs:1485-1522` | A vital call for a thread that cannot be updated ends the connection; any other leaves the logs alone |
| `RouterAnswers.SubscriberListens` | `src/codex/client.rs:1365-1410` | Whoever subscribes to a usable thread with room listens from then on, first told that the thread started if it has |
| `RouterAnswers.UnsubscribedLeaves` | `src/codex/client.rs:1411-1416` | Whoever unsubscribes is listed no more and nobody else is removed |
| `RouterAnswers.FarewellIsHeard` | `src/codex/client.rs:2207-2220` | When the router stops every listener with room is told why, after everything that waits |
| `RouterAnswers.ReceivedIsOldest` | `src/codex/client.rs:2250-2270` | Receiving takes the oldest event that waits |
| `RouterAnswers.StartIsAccepted` | `src/codex/client.rs:1429-1448` | A turn start is accepted exactly when the thread is usable and no start of it is pending; the route then waits and defers |
| `RouterAnswers.DeferredIsKept` | `src/codex/client.rs:1543-1578` | While the route defers, a notification within the limits is put aside whole and in order and changes nothing else |
| `RouterDeferral.DeferralOnlyReorders` | `src/codex/client.rs:1543-1598` | Begin, then notifications of the thread, then turn/started ends in the same world and fault result as Begin, turn/started, then those notifications |
| `RouterDeferral.ObservingOnlyReorders` | `src/codex/client.rs:1417-1428` | The same when the turn is observed through its response |
| `RouterDeferral.AbortingOnlyReorders` | `src/codex/client.rs:1449-1452` | The same when the start is aborted |
| `RouterDeferral.ReplayNeverDefers` | `src/codex/client.rs:1804-1823` | Replay is plain delivery in order: nothing is deferred again |
| `RouterPending.PendingSurvives` | `src/codex/client.rs:1429-1452` | Whatever else happens a route waits for its attempt until a command names it or the router exits |
| `RouterPending.UnfinishedStartBlocks` | `src/codex/client.rs:1429-1448` | So a start nobody finishes blocks every later start of its thread |
| `RouterPending.UnknownSurvives` | `src/codex/client.rs:1429-1452` | An attempt no route waits for stays so until a command names it |
| `RouterPending.BeginPending` | `src/codex/client.rs:1429-1448` | After BeginTurnStart the route waits for the attempt exactly when it was accepted and could be acknowledged |
| `RouterActor.ClientRouter.HandleCommand` | `src/codex/client.rs:1358-1483` | The in-place command handler is the specified one |
| `RouterActor.ClientRouter.Notify` | `src/codex/client.rs:1536-1754` | The in-place notification handler is the specified one |
| `RouterActor.ClientRouter.DeliverLifecycle` | `src/codex/client.rs:1580-1754` | Decoded notifications update their route; an undecodable authoritative one invalidates it and faults |
| `RouterActor.ClientRouter.StopDeferring` | `src/codex/client.rs:1804-1823` | Takes the queue and replays it, stopping at the first fault |
| `RouterActor.ClientRouter.OfferEach` | `src/codex/client.rs:2161-2183` | The two passes of a terminal dispatch |
| `RouterActor.ClientRouter.PruneSubscribers` | `src/codex/client.rs:1524-1533` | Drops exactly the closed mailboxes from every list |
| `RouterActor.ClientRouter.CountSubscribers` | `src/codex/client.rs:1372-1375` | Sums the list lengths |
| `RouterActor.ClientRouter.RouteForUpdate` | `src/codex/client.rs:1485-1522` | Finds, creates or refuses a route, evicting an idle one when full |
| `RouterActor.ClientRouter.Subscribe` | `src/codex/client.rs:1365-1410` | Joins within both capacities, replaying the thread start |
| `RouterActor.ClientRouter.ReleaseRoute` | `src/codex/client.rs:1467-1482` | Releases exactly when the specification does |
| `RouterActor.ClientRouter.CloseSubscribers` | `src/codex/client.rs:2207-2220` | A farewell to every listed mailbox |
| `TurnStart.StartFailsClosed` | `src/codex/client.rs:630-686` | From any router state, among any other inputs: every exit returns a turn the router accepted, or reports definitely-not-applied after no confirmed request, or sent nothing, or leaves the epoch faulted and cancelled |
| `TurnStart.ConfirmedIsNeverDenied` | `src/codex/client.rs:409-426` | Definitely-not-applied never follows a confirmed request |
| `TurnStart.SettledUnlessOrphaned` | `src/codex/client.rs:945-1074` | With the call's commands run through the router among arbitrary inputs: a running router's route still waits for the attempt, with no abort queued and the epoch not cancelled, exactly when the acceptance was orphaned |
| `TurnStart.OrphanLeaksPendingStart` | `src/codex/client.rs:945-965` | One orphaned start on a new router: told definitely-not-applied, and the route of the router waits for the attempt |
| `TurnStart.OrphanBlocks` | `src/codex/client.rs:1429-1448` | After any orphaned start and any later inputs the router refuses every start of that thread until it exits |
| `TurnStart.AbortSettles` | `src/codex/client.rs:1042-1055` | A queued abort, handled after any other inputs, leaves no route waiting for the attempt |
| `TurnStart.ReturnsExactly` | `src/codex/client.rs:630-686` | The call returns a turn exactly when the router admitted it, Codex confirmed that turn, and the router accepted the observation and was heard |
| `TurnStart.WhatMayHaveRunIsNotDenied` | `src/codex/client.rs:409-426` | Whenever the request may have run the call returns the turn or leaves the epoch faulted and cancelled, and does not report definitely-not-applied |
| `TurnStart.ErrorsAreTruthful` | `src/codex/client.rs:945-1074` | Every error names what happened: an encoding, route or admission failure, the error of the request, or a confirmed turn the router did not take over |
| `TurnStart.AdmittedMeans` | `src/codex/client.rs:630-648` | A start the router did not admit sends nothing; an admitted one goes on to its request |
| `TurnStart.TurnStarter.StartTurn` | `src/codex/client.rs:630-686` | The method with its guard has the specified exit, router state and epoch state |
| `TurnStart.TurnStarter.AbortKnownFailure` | `src/codex/client.rs:1042-1055` | Queues the abort or cancels the epoch, once |
| `TurnStart.TurnStarter.DropGuard` | `src/codex/client.rs:1061-1074` | An armed guard faults and cancels |
| `TerminalFold.OrderIndependent` | `src/codex/external_recovery.rs:1157-1245` | Success and result of the fold depend only on which facts there are, not on their order or repetition |
| `TerminalFold.ConflictsFail` | `src/codex/external_recovery.rs:1178-1186` | Two different terminal statuses for one turn always fail |
| `TerminalFold.ItemsHeld` | `src/codex/external_recovery.rs:1206-1213` | An item is held exactly when observed, or listed under a turn that turned out terminal |
| `TerminalFold.StatusHeld` | `src/codex/external_recovery.rs:1215-1230` | Every status a fact gives is held |
| `TerminalFold.OnlySaidStatusHeld` | `src/codex/external_recovery.rs:1215-1230` | No other status is held |
| `TerminalFold.AddAllIs` | `src/codex/external_recovery.rs:1157-1245` | Step-by-step checks succeed exactly on well-formed, consistent facts whose final tables are within bounds |
| `TerminalFold.TerminalProjection.AddTurn` | `src/codex/external_recovery.rs:1165-1187` | The in-place snapshot step |
| `TerminalFold.TerminalProjection.AddListedItem` | `src/codex/external_recovery.rs:1197-1204` | The in-place listing step |
| `TerminalFold.TerminalProjection.AddEvent` | `src/codex/external_recovery.rs:1215-1230` | The in-place event step |
| `TerminalFold.TerminalProjection.FoldListedItems` | `src/codex/external_recovery.rs:1206-1213` | The folding loop yields the projection of all facts added |
| `Reconcile.Pass.ReconcileEpoch` | `src/codex/external_recovery.rs:635-705` | Each thread's outcome, and why the pass ended; however it ended, a thread settled exactly when its outcome is Ok, and then all its pages were read, its projection was submitted, and every terminal event that arrived for it in any request of the pass is in that projection or recorded live; every other outcome has a reason in what the peer and the store answered |
| `Reconcile.Pass.ReconcileThread` | `src/codex/external_recovery.rs:715-897` | The requests sent are two reads, at most 32 turn pages and at most 32 item pages; Ok means every cursor chain was followed to its end through distinct cursors, for every turn any reply named, and everything on the pages and every event received is in the submitted projection; an error means a request broke, an answer was unusable, something was too large or too long, facts did not fold together, or the store refused |
| `Reconcile.Pass.ReconcileNext` | `src/codex/external_recovery.rs:661-704` | Fence, reconcile and mark one thread: its outcome, what it does to the pass, and what stays true of the others |
| `Reconcile.Pass.ReadAll` | `src/codex/external_recovery.rs:728-869` | Every request for a thread, and on Ok the complete reading they make |
| `Reconcile.Pass.ListTurns` | `src/codex/external_recovery.rs:778-812` | The requests sent are one per cursor and no others, at most 32; they form one complete chain of distinct cursors; a page limit is reported only at 32 pages or on a repeated cursor, and any other error only for a page that breaks, does not serialise, is too large or does not fold |
| `Reconcile.Pass.ListItems` | `src/codex/external_recovery.rs:814-868` | The item requests of one turn do too, within the room left; an item of another turn is an error |
| `Reconcile.Pass.ListAllItems` | `src/codex/external_recovery.rs:814-868` | The number of item requests sent over all turns is counted exactly and is at most 32; on Ok they are the complete chains of the turns, one after another, with nothing besides |
| `Reconcile.Pass.Submit` | `src/codex/external_recovery.rs:870-897` | Buffered events join the submitted projection unless some were dropped; the result is exactly what the fold and the store decide |
| `Reconcile.Pass.RouteEvent` | `src/codex/external_recovery.rs:952-983` | An event is buffered, recorded live, ignored or fails the pass, exactly when the source does; what counts as received stays what arrived |
| `Reconcile.Pass.Push` | `src/codex/external_recovery.rs:1085-1108` | Buffers and counts within the three limits, and marks the thread overflowed exactly when one would break |
| `Reconcile.Pass.ApplyLive` | `src/codex/external_recovery.rs:985-1009` | A terminal event is recorded when the store takes it or already has a conflicting one; otherwise the error says why |
| `Reconcile.Pass.AwaitRequest` | `src/codex/external_recovery.rs:901-941` | The request joins the history with the arrivals routed: all of them on Ok; otherwise the error is that of the request or of the first arrival that could not be routed |
| `Reconcile.AllHeld` | `src/codex/external_recovery.rs:870-882` | A successful projection holds every terminal event among its facts |
| `Sidecar.AcksAreConserved` | `src/channel/sidecar.rs:1069-1219` | In every interleaving each accepted frame is in exactly one place, and until the session or its worker ends the active ids are exactly the ids held, each once |
| `Sidecar.AcksTellTheResult` | `src/channel/sidecar.rs:1189-1219` | An ack is positive exactly when the durable handler succeeded for that very frame; an ack without a handler result is of a frame the reader refused |
| `Sidecar.LimitsHold` | `src/channel/sidecar.rs:1150-1187` | Queue and in-flight handlers stay within their limits |
| `Sidecar.AckedAtMostOnce` | `src/channel/sidecar.rs:1069-1187` | No frame is acknowledged twice |
| `Sidecar.AcksHaveACause` | `src/channel/sidecar.rs:1069-1219` | Every ack was sent by a handler that finished with that result or by the reader refusing that frame |
| `Sidecar.FinishedIsAcknowledged` | `src/channel/sidecar.rs:1189-1219` | Every handler that finishes and can write has its frame acknowledged with its result, for good |
| `Sidecar.RefusalsHaveACause` | `src/channel/sidecar.rs:1092-1115` | The reader refuses a frame only because it is oversize or the intake had no room or was gone |
| `Sidecar.EndsForAReason` | `src/channel/sidecar.rs:1086-1117` | The session ends by itself exactly when an ack cannot be written or an id in use arrives again; any other frame a free reader gets is accepted |
| `Sidecar.HandledInOrder` | `src/channel/sidecar.rs:1150-1187` | No handler starts on a frame while an earlier one waits |
| `Sidecar.NothingGetsStuck` | `src/channel/sidecar.rs:1150-1219` | From every state of a running session some steps acknowledge every accepted frame and release every id |
| `Sidecar.IdleMeansAcknowledged` | `src/channel/sidecar.rs:1069-1187` | When nothing is waiting every accepted frame was acknowledged once |
| `Sidecar.OversizeAcksAnActiveId` | `src/channel/sidecar.rs:1092-1095` | An oversize frame is refused before the active-id check |
| `Sidecar.PromptReuseEndsSession` | `src/channel/sidecar.rs:1096-1100` | An id reused before it is released ends the session; after, it does not |
| `Sidecar.Session.HandleEvent` | `src/channel/sidecar.rs:1086-1117` | The reader's handling of one event frame |
| `Sidecar.Session.EventLoop` | `src/channel/sidecar.rs:1150-1187` | The worker loop, for any choices of the select |
| `ExternalWrite.WriteActor.Run` | `src/codex/external_write.rs:584-777` | For any inputs and queue the log is exactly the run specified for them, the one the lemmas below are about |
| `ExternalWrite.RunIsWellFormed` | `src/codex/external_write.rs:584-777` | Every run keeps the order of acts: one call after its sent mark, Ok only after a stored application, one answer in kind, nothing of a command after its reply, the stop right after anything fatal |
| `ExternalWrite.WriteActor.Turn` | `src/codex/external_write.rs:600-762` | One turn of the loop has the specified acts, state and continuation for every kind of input |
| `ExternalWrite.CalledOnce` | `src/codex/external_write.rs:935-1326` | In every run at most one mutation request per command |
| `ExternalWrite.CalledAfterSent` | `src/codex/external_write.rs:1967-1982` | In every run a mutation request follows its stored sent mark |
| `ExternalWrite.OkAfterApplied` | `src/codex/external_write.rs:1984-2055` | In every run an Ok reply names a result stored as applied before, and follows the request |
| `ExternalWrite.ReplyIsLast` | `src/codex/external_write.rs:745-757` | In every run a command does nothing after its reply, and so is replied to at most once |
| `ExternalWrite.AnsweredOnce` | `src/codex/external_write.rs:1427-1609` | In every run an approval request is answered at most once |
| `ExternalWrite.AnsweredInKind` | `src/codex/external_write.rs:1629-1668` | In every run an answer has the kind its request was asked in |
| `ExternalWrite.FatalStops` | `src/codex/external_write.rs:600-762` | In every run a fatal reply, a failed receipt or denial, an undelivered or overdue answer, a lost resolution, a moved reviewer or a hangup is followed at once by the stop |
| `ExternalWrite.NothingAfterStop` | `src/codex/external_write.rs:765-777` | In every run the stop is followed only by Closed replies |
| `ExternalWrite.SentIsResolvedUnlessReadFails` | `src/codex/external_write.rs:985-1015` | A sent mutation gets a stored resolution exactly when the store takes one and no confirming read fails first |
| `ExternalWrite.ReadFailureLeavesIntentOpen` | `src/codex/external_write.rs:991-998` | One command whose sent intent stays unresolved while the actor goes on |
| `WriteCauses.CommandActsAreCalledFor` | `src/codex/external_write.rs:935-1326` | In every run a command does something before its reply exactly when it is a handled mutation that calls for it: stored as applied under an id exactly when the peer answered with that id, it matched and any confirming read said yes; as rejected exactly when rejected; as unresolved exactly when nobody can tell |
| `WriteCauses.RepliesAreCalledFor` | `src/codex/external_write.rs:935-1326` | In every run a reply other than Closed is exactly the one its mutation calls for, and every handled mutation gets it |
| `WriteCauses.RejectedAndLost` | `src/codex/external_write.rs:2056-2070` | A rejected call whose resolution is taken is stored as rejected and answered Conflict, a lost one as unresolved and Uncertain, and neither as applied or Ok |
| `WriteCauses.OneAsks` | `src/codex/external_write.rs:745-757` | One input asks for each command |
| `WriteCauses.AdmittedIsAsked` | `src/codex/external_write.rs:1329-1424` | In every run exactly the admitted approval requests are asked about |
| `WriteCauses.AnswersAreCalledFor` | `src/codex/external_write.rs:1427-1609` | In every run a request is answered only on an authorised decision of its kind that could be claimed, or as the denial of one overdue or that nobody could be asked about |
| `WriteCauses.AnswersAreSent` | `src/codex/external_write.rs:1427-1492` | A decision or a refusal to prompt that calls for an answer sends it |
| `WriteCauses.WaitsAfter` | `src/codex/external_write.rs:1329-1609` | A request waits exactly from its admission until it is resolved or overdue, unchanged but for its answer |
| `WriteCauses.StopsExactly` | `src/codex/external_write.rs:600-762` | Exactly the fatal inputs stop the actor |
| `WriteCauses.QuitsOnlyWhenTold` | `src/codex/external_write.rs:600-762` | It leaves without draining its queue exactly on shutdown or a fatal reassignment |
| `WriteCauses.QueuedAreTold` | `src/codex/external_write.rs:765-777` | Otherwise every command still queued is told Closed |
| `ExternalWrite.WriteActor.Execute` | `src/codex/external_write.rs:935-1326` | Each kind of command does exactly the acts of its plan and returns its result |
| `ExternalWrite.WriteActor.RunCommand` | `src/codex/external_write.rs:745-757` | The plan, then its reply; a fatal reply stops the actor |
| `ExternalWrite.WriteActor.ReceiveApproval` | `src/codex/external_write.rs:1329-1424` | Refuses a request without a trace, enlists it, or denies one that cannot be prompted |
| `ExternalWrite.WriteActor.ResolvePending` | `src/codex/external_write.rs:1427-1492` | Answers once if authorized, waiting, of the right kind and claimed; only an undelivered answer is fatal |
| `ExternalWrite.WriteActor.DenyOne` | `src/codex/external_write.rs:1541-1609` | Takes the request off the list and denies it once if claimed |
| `ExternalWrite.WriteActor.SettleExpired` | `src/codex/external_write.rs:1494-1539` | The denials sent, the requests left and the failure are those specified, for any order of the table |
| `ExternalWrite.SettleMeans` | `src/codex/external_write.rs:1494-1539` | Settling answers only overdue requests; success leaves exactly those not overdue and answered every overdue one it claimed; an overdue answer fails it with nothing done |
| `ExternalWrite.TableBounded` | `src/codex/external_write.rs:1343-1346` | A turn never leaves more than 64 requests waiting |
| `SignalAuthority.SignalsOnlyWhatItOwns` | `src/codex/process.rs:390-451` | Over any calls and any answers of the system: no destructive signal after another, after an observed reap or after an observed loss of identity |
| `SignalAuthority.ReapedMeansProven` | `src/codex/process.rs:430-441` | The tree counts as reaped only after the leader was reaped and later the group proved absent |
| `SignalAuthority.AuthorityEndsForAReason` | `src/codex/process.rs:390-451` | In every run the authority is gone exactly when the signal was sent, the leader reaped or its identity lost |
| `SignalAuthority.TerminateSignals` | `src/codex/process.rs:582-628` | Terminating a process whose authority and handle are held signals its group exactly when observing its exit does not fail |
| `SignalAuthority.DropSignals` | `src/codex/process.rs:632-648` | Dropping the handle signals exactly when authority and handle are held, so no tree is left unsignalled, unreaped and identified |
| `SignalAuthority.TerminateSucceeds` | `src/codex/process.rs:582-628` | terminate succeeds exactly when the tree was reaped before, or its exit is observable, the leader is reaped and the group vanishes; it returns the status of the leader |
| `SignalAuthority.ObserveMeans` | `src/codex/process.rs:254-311` | Observing reports the exit exactly when it is known or the polls see it, and neither reaps nor signals |
| `SignalAuthority.ExitIsStable` | `src/codex/process.rs:516-543` | A known exit status never changes, and a wait returns it |
| `SignalAuthority.CodexProcess.TerminateTree` | `src/codex/process.rs:582-628` | terminate, with its poll and probe loops |
| `SignalAuthority.CodexProcess.ReapTree` | `src/codex/process.rs:390-451` | One signal at most, then wait and passive proof |
| `SignalAuthority.CodexProcess.ObserveExit` | `src/codex/process.rs:254-311` | Observes the exit without reaping; a missing child revokes the authority |
| `SignalAuthority.CodexProcess.WaitForExit` | `src/codex/process.rs:516-543` | Reaping revokes the authority |
| `SignalAuthority.CodexProcess.Drop` | `src/codex/process.rs:632-648` | Signals at most while the authority is held |
| `SignalAuthority.CodexProcess.ProbeGroup` | `src/codex/process.rs:218-246` | Only the absence of the group proves it |

## Left out

- `$ref`, `$id` and anchor resolution, the reference index and `definitions` in `tools/codex_schema.py`: soundness with references needs polarity hypotheses, because exactly matched branches are not compared again when a target changes.
- Regex worker, budgets, deadlines, recursion limit and report rendering in `tools/codex_schema.py`: input and output around the modelled core.
- DiffSoundness.DiffIsSound: floats under a widened `multipleOf` are excluded, because the validator's tolerance makes the claim false there (see DiffLimits.WideningExact), and so are reports that differ by JSON key (see DiffLimits.TrueIsNotOne); whether such a report still happens to be sound is containment of arbitrary schemas.
- DiffLimits.WideningExact: does not say which integers a divisor with a numerator of 1e12 or more loses.
- The values listed in a change's details (`removedTypes`, `values`, `count`): only its class, kind and path.
- Rounding of the float division in the validator's `multipleOf` check: quotients are exact rationals.
- Lone surrogates in JSON strings: strings are sequences of Unicode scalar values.
- The control channel of the router and its byte budget: it carries no thread events.
- Aliasing of mailboxes and projections: the router class holds them as values by id, and `MailboxCell` and `ProjectionCell` update one in place; two tasks sharing one `Arc` is a map entry, and a mailbox dropped without closing counts as closed, which every handler treats alike.
- RouterActor.ClientRouter.Subscribe: a requester that is gone gets no mailbox in the model, where the source adds and removes the subscriber.
- `start_thread` and `resume_thread`: the same guard pattern as `start_turn`, without a pending start.
- Reconcile.Pass.ReconcileEpoch: says nothing of the one event on whose handling the pass itself fails, which is the last it sees.
- Cancellation between two events of a request (`src/codex/external_recovery.rs:920`): it is an arrival that closes the connection.
- The recovery actor's reconnect loop and back-off: timing only.
- Graceful shutdown, supervision and restart of the sidecar: the child-group cleanup repeats the process state machine.
- Sidecar.Session.HandleEvent: frames of other types and undecodable frames, which change no event state or end the session.
- The retries of the confirming read until its deadline (`src/codex/external_write.rs:1870-1910`): one probe with any answer.
- ExternalWrite.WriteActor.Run: does not say that every sent mutation is resolved, which is false; terminal notifications it forwards to the store, and replies to approval decisions and reassignments, are outside the log.
- `src/codex/compat.rs`, wire templates, configuration, onboarding, telemetry and the Lark adapters: conversions and assembly with only easy members.
- Clocks, scheduling and mutex poisoning: a timeout is an arbitrary outcome and each handler call is atomic.
