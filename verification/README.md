# go-firewalld client: a verified model

This project models the parts of the firewalld D-Bus client that carry real behaviour and proves
what they promise. Run `dafny verify dfyconfig.toml` to check everything.

| Module | Models | Source |
|---|---|---|
| `Values` | dynamic values and the tolerant decode helpers | decode.go |
| `Boxing` | variant boxes, the wire, what a server may send back | decode.go |
| `ZoneCodec`, `PolicyCodec`, `ServiceCodec`, `DirectCodec` | the settings codecs over the positional tuple and the `a{sv}` dict | zonesettings.go, policy.go, service.go, direct.go |
| `Layouts` | where each field sits: tuple positions and spelled dict keys | zonesettings.go, policy.go, service.go |
| `Signatures` | the D-Bus signatures of everything the encoders build | zonesettings.go, service.go, direct.go, policy.go |
| `Signals`, `Reloads` | the two goroutines and three channels of WatchSignals and WatchReloaded | signals.go |
| `Versions` | version strings, their order, capabilities | caps.go |
| `Errors` | the token scanner and the walk over wrapped errors | errors.go |
| `Bus` | a call to an arbitrary server and the session it changes | firewalld.go |
| `Handles` | the lazily resolved path cache, one caller at a time | permzone.go, policy.go, service.go |
| `SharedHandle` | the same cache under its mutex, any number of goroutines | permzone.go |
| `ZoneTransport` | choosing the transport, and what then comes back | permzone.go, config.go |
| `PolicyTransport`, `ServiceTransport` | the same for policies and services | policy.go, service.go |
| `Gating` | which methods a client emits, and what no capability guards | firewalld.go, zone.go, policy.go, service.go |
| `WriteThenRead` | what is written at runtime or created is what is then read | zone.go, policy.go, service.go |
| `RuntimeZones` | timeouts, argument lists and typed listings | zone.go |
| `Client` | the objects whose methods update fields: `Conn`, `PermZone`, `PermPolicy`, `PermService` | firewalld.go, permzone.go, policy.go, service.go, config.go, zone.go |
| `ReferenceServer` | one concrete server that keeps every promise assumed of a server | permzone.go, config.go |

How the pieces fit. A value is a recursive datatype with variants at any depth. `Boxes(v, w)` says
that w is v with variants inserted anywhere; `OnWire` is what the receiver decodes for a sent
value; `TupleReply` and `DictReply` say what a server may answer for what it stores: any
re-boxing, and in a dict any zero-valued key left out. Every loop and every decoder that fills a
record step by step is a method proved equal to a specification function, and the theorems are
about those functions. The decoders that the source writes as one record expression, such as the
zone and service tuple decoders, are functions.

The bus is a function from a server state and a call to the next state and a reply. Claims are
made for every such function, or for those with named properties: `KeepsNames`,
`NeverReusesPaths`, `KeepsSettings`, `KeepsPolicies`, `KeepsServices`, `Creates` and their runtime
counterparts, each stated in terms of literal calls. `ReferenceServer` exhibits a server that has
all of them.

A function that both encodes and decodes, or that names a call, is never its own witness: what it
yields is also stated with the literal strings, positions, keys, methods and constants of the
source.

The concurrent parts are state machines. An action is one step of one goroutine, of the bus, of
the context or of a consumer; a schedule is any sequence of actions; the theorems hold after every
schedule.

## What the proofs found

- `asPorts` and `asForwardPorts` look for the native slice before they peel variants, so a native
  slice inside one variant too many loses every entry. `PortsSeeThroughBoxes` and
  `ForwardsSeeThroughBoxes` say exactly when. Nothing that arrives over the wire is a native slice
  (`NothingNativeArrives`), and for such values every record decoder sees through all boxes.
- A policy is written with the key `rich_rules` but read from `rules_str` first. The round trip is
  lossless exactly when no `rules_str` key comes back or the policy has no rich rules
  (`PolicyRoundTrip`; `EmptyRulesStrHidesRichRules` is a reply that loses them).
- `timeoutSeconds` truncates to int32. It is the floor exactly below 2^31 seconds; a positive
  duration is sent as "no timeout" exactly when its whole seconds are a multiple of 2^32, which
  includes every duration below one second although the comment on the function reserves 0 for
  zero or negative durations.
- `Remove` keeps the cached path. On a server that never reuses a path, and while other hands neither
  rename nor remove the object a handle has cached, every further call reaches the object a fresh
  lookup would reach if and only if no removal through the handle has succeeded
  (`StaleExactlyAfterRemoval`). After one the handle calls the removed object for good, even when its
  name exists again (`RecreatedZoneIsMissed`).
- The permanent service operations follow no capability. The include operations, documented for
  firewalld 1.0 and later, are emitted on every version, and services are created, read and written
  through the v1 tuple on every version. So it is false that no call is newer than the server:
  every call of a run uses a method the reported version has if and only if the version is at least
  1.0 or no include operation of the run reaches its service. And no call uses a superseded tuple
  method if and only if the version is below 1.0 or the run neither creates a service nor reads or
  writes one through a handle that reaches it (`RunMeetsGateExactlyWhen`). Everything else is gated
  (`EveryRunIsGated`). caps.go names addService2 under two capabilities with different releases; the
  model dates it with the other service methods, at 1.0.
- A service read at runtime and written to a permanent one keeps everything if and only if it has no
  includes and no helpers (`CopiedServiceKeepsAllButItsDictFields`).
- Two `Rename` calls on one handle may be applied by the server in one order and assigned in the
  other, leaving the handle under a name that no longer exists. Accepting a rename is safe if and
  only if no other goroutine stands between an earlier acceptance and the mutex
  (`AcceptanceIsSafeExactlyWhenNoneRenamed`): a rename that already holds the mutex does no harm,
  and from every other overlap a run without further calls ends under the wrong name.
- The event in the forwarder's hand is dropped on cancellation: conservation is exact until then
  and a prefix property after.

## Model

| member | source | states |
|---|---|---|
| `Values.Unwrap` | decode.go:25-33 | the loop peels exactly the outer variants, at any depth |
| `Values.SliceElems` | decode.go:38-52 | every slice-shaped value yields its elements, each unwrapped; anything else yields none |
| `Values.AsStrings` | decode.go:93-103 | one string per element, in order, blank for a non-string |
| `Values.Pair` | decode.go:107-117 | the first two strings, blank where the tuple is short |
| `Values.Quad` | decode.go:120-127 | the first four strings, blank where the tuple is short; more elements are ignored |
| `Values.AsPorts` | decode.go:130-144 | a native list as it is, otherwise one port per element |
| `Values.AsForwardPorts` | decode.go:147-161 | a native list as it is, otherwise one forward port per element |
| `Values.AsStringMap` | decode.go:165-184 | the same keys, each with its string, from all three map shapes |
| `Values.ReadStrings` | zonesettings.go:159-161 | a missing key leaves the zero value, a present one is decoded |
| `Boxing.UnwrapBoxes` | decode.go:25-33 | unwrapping commutes with inserting variants anywhere |
| `Boxing.ElemsBoxes` | decode.go:38-52 | element lists of boxed values are boxed element by element |
| `Boxing.ScalarsSeeThroughBoxes` | decode.go:64-90 | no insertion of variants changes what asString, asBool and asInt32 read |
| `Boxing.ListsSeeThroughBoxes` | decode.go:93-127 | nor what asStrings, pair and quad read |
| `Boxing.PortsSeeThroughBoxes` | decode.go:130-144 | asPorts is unchanged if and only if the value is not a native list, or stays one, or holds only blank ports |
| `Boxing.ForwardsSeeThroughBoxes` | decode.go:147-161 | the same condition, both ways, for asForwardPorts |
| `Boxing.BoxedNativePortsAreLost` | decode.go:131-133 | a native list in one extra variant reads as a blank port |
| `Boxing.MapsSeeThroughBoxes` | decode.go:165-184 | boxing values, or the whole map, changes nothing asStringMap reads |
| `Boxing.ListsDecodeElementwise` | decode.go:92-161 | the list decoders are homomorphisms: one output per wire element, in place, malformed ones included |
| `Boxing.NarrowIsUniqueCongruent` | decode.go:81-87 | integer conversion yields the one int32 congruent modulo 2^32, the input itself when in range |
| `Values.ScalarsReadTheirOwnKind` | decode.go:64-90 | each scalar decoder reads its own kind at any depth of variants and yields zero for every other |
| `Boxing.AsInt32IsCongruent` | decode.go:77-90 | asInt32 of any accepted width under any boxing is that int32 |
| `Boxing.UnsentKey` | decode.go:186-195 | a key never sent reads as zero, whether it is absent or comes back with a zero value |
| `Boxing.NothingNativeArrives` | decode.go:129-161 | nothing that arrives over the wire, re-boxed or not, is a native port list |
| `Values.SpellingsAreDistinct` | zonesettings.go:116-139 | no string spells two settings keys, so a dict keyed by them is a map from strings |
| `ZoneCodec.ToDict` | zonesettings.go:111-141 | builds the dict specified by DictOf: blank target normalised, zero priorities not sent |
| `ZoneCodec.FromDict` | zonesettings.go:145-206 | the step-by-step decoder equals the record of per-key readings |
| `ZoneCodec.DictHolds` | zonesettings.go:116-139 | the dict holds exactly the listed value under each key and nothing under any other |
| `ZoneCodec.TupleRoundTrip` | zonesettings.go:58-104 | all fifteen fields come back through any re-boxed reply, the target as it was or "default" where it was empty; forward and priorities are zero |
| `ZoneCodec.DictRoundTrip` | zonesettings.go:111-206 | every field comes back whatever is re-boxed or left out, the target as it was or "default" where it was empty |
| `ZoneCodec.RulesComeBack` | zonesettings.go:180-186 | the rich-rule fallback key never corrupts what was sent under the primary one |
| `ZoneCodec.TupleAndDictAgree` | zonesettings.go:58-206 | the two transports decode to the same record up to the three dict-only fields, which only the dict restores |
| `ZoneCodec.TupleTruncation` | zonesettings.go:82-104 | decoding a prefix of any raw tuple zeroes exactly the fields beyond it; positions from 16 on never matter |
| `ZoneCodec.TupleSeesThroughBoxes` | zonesettings.go:85-104 | re-boxing any parts of any raw tuple off the wire changes no field |
| `ZoneCodec.DictSeesThroughBoxes` | zonesettings.go:145-206 | the same for any raw dict |
| `PolicyCodec.FromDict` | policy.go:60-110 | the step-by-step decoder equals the record of per-key readings |
| `PolicyCodec.DictHolds` | policy.go:33-57 | the dict holds exactly the listed value under each key and nothing under any other |
| `PolicyCodec.PolicyRoundTrip` | policy.go:33-110 | a policy comes back whole, its target as it was or "CONTINUE" where it was empty, if and only if no rules_str comes back or it has no rich rules |
| `PolicyCodec.EmptyRulesStrHidesRichRules` | policy.go:101-105 | an admissible reply that loses the rich rules |
| `PolicyCodec.DictSeesThroughBoxes` | policy.go:60-110 | re-boxing any parts of any raw policy dict changes no field |
| `ServiceCodec.FromDict` | service.go:72-109 | the step-by-step decoder equals the record of per-key readings |
| `ServiceCodec.TupleRoundTrip` | service.go:39-68 | all eight tuple fields come back, the destination map included; includes and helpers are zeroed |
| `ServiceCodec.PresentedServiceIsRead` | service.go:72-109 | a dict that presents a service under either spelling of each aliased key reads as that service |
| `ServiceCodec.TupleAndDictAgree` | service.go:56-109 | both transports of one service agree on the eight shared fields |
| `ServiceCodec.OnlyItsOwnKeysInfluenceAField` | service.go:86-95 | the primary key wins over its alias, and no other key influences an aliased field |
| `ServiceCodec.TupleSeesThroughBoxes` | service.go:57-68 | re-boxing any parts of any raw service tuple changes no field |
| `ServiceCodec.DictSeesThroughBoxes` | service.go:72-109 | the same for any raw service dict |
| `Layouts.ZoneTupleByPosition` | zonesettings.go:58-80 | each of the sixteen positions of a sent zone tuple |
| `Layouts.ServiceTupleByPosition` | service.go:39-54 | each of the eight positions of a sent service tuple |
| `Layouts.ZoneDictIdentity` | zonesettings.go:112-120 | version, short, description and target under their spelled keys, an empty target as "default" |
| `Layouts.ZoneDictServices` | zonesettings.go:121-124 | services, ports, ICMP blocks and masquerade under their spelled keys |
| `Layouts.ZoneDictBindings` | zonesettings.go:125-128 | forward ports, interfaces, sources and rules under their spelled keys |
| `Layouts.ZoneDictProtocols` | zonesettings.go:129-132 | protocols, source ports, inversion and forward under their spelled keys |
| `Layouts.ZoneDictPriorities` | zonesettings.go:134-139 | each priority under its key exactly when it is not zero; never a "rich_rules" key |
| `Layouts.PolicyDictIdentity` | policy.go:34-43 | the policy's texts and priority under their spelled keys, an empty target as "CONTINUE" |
| `Layouts.PolicyDictZones` | policy.go:44-48 | its zones, services and ports under their spelled keys |
| `Layouts.PolicyDictRules` | policy.go:49-55 | ICMP blocks, masquerade, forward ports, rules and protocols under their spelled keys |
| `Layouts.PolicyDictLacksRulesStr` | policy.go:52-54 | a policy's rules never go under "rules_str" |
| `Layouts.RichRulesByName` | zonesettings.go:180-186 | zones and policies read rich rules under "rules_str", or failing that under "rich_rules" |
| `Layouts.ServiceAliasesByName` | service.go:86-95 | modules and destinations are read under either spelling, the singular first |
| `Layouts.ServiceTextsByName` | service.go:74-82 | the service's texts are read under their spelled keys, blank when missing |
| `Layouts.ServiceListsByName` | service.go:83-107 | its lists are read under their spelled keys |
| `DirectCodec.ToTuple` | direct.go:235-259 | the three loops build the wire form specified by TupleFields |
| `DirectCodec.FromTuple` | direct.go:262-300 | the nested loops decode one chain, rule or passthrough per element, in order |
| `DirectCodec.ReadRule` | direct.go:268-287 | a row of any length yields a rule, its missing columns zero |
| `DirectCodec.AllRules` | direct.go:114-140 | one rule per row, in order |
| `DirectCodec.Rules` | direct.go:94-111 | one rule per row, in order, under the chain asked for |
| `DirectCodec.AllChains` | direct.go:56-68 | one chain per row, in order, from its first three columns however boxed |
| `DirectCodec.AllPassthroughs` | direct.go:182-199 | one passthrough per row, in order, missing columns zero |
| `DirectCodec.ChainListingMatchesFullListing` | direct.go:94-140 | the per-chain listing of a row is the full listing of that row with its chain columns put back |
| `DirectCodec.DirectSeesThroughBoxes` | direct.go:262-300 | re-boxing any raw blob, malformed or not, changes nothing decoded |
| `DirectCodec.DirectRoundTrip` | direct.go:235-300 | every configuration comes back whole and in order from any re-boxed reply |
| `DirectCodec.DirectDecodeIsStable` | direct.go:235-300 | decoding, writing and decoding again equals decoding once, for every raw blob |
| `DirectCodec.OneRulePerElement` | direct.go:268-287 | rules decode element by element, independent of their neighbours |
| `DirectCodec.ChainsByColumn` | direct.go:264-267 | column 0 of a row is a chain's family, 1 its table, 2 its name, for any raw blob |
| `DirectCodec.RulesByColumn` | direct.go:268-287 | the five columns of a rule row, the missing ones zero |
| `DirectCodec.PassthroughsByColumn` | direct.go:288-298 | the two columns of a passthrough row |
| `DirectCodec.SentRows` | direct.go:235-259 | every sent row, column by column, in order |
| `Signatures.ZoneTupleSignature` | zonesettings.go:33-80 | the signature computed from the static types of a zone tuple is the one firewalld's v1 interface requires, whatever the settings |
| `Signatures.ServiceTupleSignature` | service.go:27-54 | the computed signature of every service tuple is the required one |
| `Signatures.DirectTupleSignature` | direct.go:215-259 | the computed signature of every direct configuration is the required one, nested rows included |
| `Signatures.ZoneDictSignatures` | zonesettings.go:106-141 | every value of a zone dict has exactly the concrete type of its key, never an array of variants |
| `Signatures.PolicyDictSignatures` | policy.go:31-57 | every value of a policy dict has exactly the concrete type of its key |
| `Signatures.NothingSentIsAVariant` | signatures_test.go:11-62 | no tuple and no dict value the client sends has a variant, or an array of them, in its signature at any depth |
| `Signals.SplitUndoesJoin` | signals.go:104-112 | splitting undoes joining at the last dot; a name without a dot is all member |
| `Signals.EventOfQualifiedName` | signals.go:54-59 | a raw signal under a firewalld interface becomes the event with its member, interface, path and body; under any other, nothing |
| `Signals.NoEventWithoutInterface` | signals.go:54-58 | a name without a dot becomes nothing |
| `Signals.ChannelsTakeSixtyFour` | signals.go:39-42 | both channels take a value exactly while they hold fewer than 64 |
| `Signals.RunKeepsInv` | signals.go:28-69 | every interleaving keeps the invariant: capacities, teardown order, accounting, no panic |
| `Signals.NothingLostWhileServing` | signals.go:43-67 | received, buffered, in hand and still raw are exactly the filtered events that entered, in order |
| `Signals.DeliveredIsAPrefix` | signals.go:28-69 | what was delivered is always a prefix of what entered, at most one event is abandoned, and only by a cancellation |
| `Signals.ClosedOnceAfterTeardown` | signals.go:43-45 | out is closed once, after the channel is unregistered and every match rule dropped, and never sent on again |
| `Signals.ForwarderStepDecreasesWork` | signals.go:46-66 | every step of the forwarder decreases the work left in the pipe |
| `Signals.CancelledForwarderCanMove` | signals.go:47-64 | a cancelled forwarder always has an enabled step and needs no consumer |
| `Reloads.ScheduleKeepsInv` | signals.go:74-93 | every interleaving of both goroutines keeps both invariants |
| `Reloads.TicksMatchReloads` | signals.go:80-91 | before cancellation ticks and upstream Reloaded events equal those that entered; at no moment are there more ticks |
| `Reloads.OneTickPerReloaded` | signals.go:82-83 | accepting a raw signal brings one more tick if and only if its name is a firewalld interface followed by ".Reloaded" |
| `Reloads.TickChannelTakesFour` | signals.go:79-87 | the tick channel takes a tick exactly while it holds fewer than four |
| `Reloads.ChannelsCloseOnce` | signals.go:80-91 | each output channel is closed at most once, by its own goroutine at its end |
| `Reloads.CancelledWatchTerminates` | signals.go:43-91 | after cancellation, with no new signal, the goroutines take a bounded number of steps whatever the bus and the caller do, are never stuck, and end with both channels closed once |
| `Reloads.NothingIsStranded` | signals.go:43-91 | before cancellation the goroutines block only on their neighbours: when neither can move every tick has reached the caller, and when raw is closed both have ended |
| `Versions.LeadingInt` | caps.go:51-64 | the scanning loop reads the maximal digit run |
| `Versions.LeadingNumberOfPrefix` | caps.go:51-64 | its result is the value of that run, 0 when it is empty or beyond an int |
| `Versions.ParseVersion` | caps.go:40-48 | the loop over at most three parts fills the components, missing ones zero |
| `Versions.PrintParse` | caps.go:40-64 | a printed version with any non-digit suffix parses back to its components |
| `Versions.PrintParseShort` | caps.go:30-48 | missing components read as zero |
| `Versions.AtLeastIsLexicographic` | caps.go:67-72 | atLeast decides the lexicographic order on (major, minor) |
| `Versions.CapsInPlainTerms` | caps.go:80-88 | each gate in numbers: 0.9 for three capabilities, 1.0 for two |
| `Versions.TenPerPlace` | caps.go:59-63 | digits count ten per place |
| `Versions.CapsGrowWithVersion` | caps.go:80-88 | a capability is present exactly from its release on, so newer servers only gain |
| `Versions.CapsOfPrintedRelease` | caps.go:40-88 | from the printed version string to the capability, both directions |
| `Errors.LeadingToken` | errors.go:115-134 | the scanning loop returns the maximal token run after trimming, blank below two characters |
| `Errors.MessageHasParts` | errors.go:115-134 | every message is white space, a token run and a rest that continues neither |
| `Errors.TokenOfParts` | errors.go:115-134 | for every such split the token is exactly the run, or blank when shorter than two |
| `Errors.TokenInPlainTerms` | errors.go:115-134 | the same with the character classes spelled out |
| `Errors.EnablementCodes` | errors.go:47-50 | the enablement codes and their sentinels |
| `Errors.InvalidElementCodes` | errors.go:52-58 | the codes of invalid elements and their sentinels |
| `Errors.InvalidObjectCodes` | errors.go:51-61 | the codes of invalid objects and their sentinels |
| `Errors.ConflictCodes` | errors.go:62-64 | the conflict codes and their sentinels |
| `Errors.StateCodes` | errors.go:65-67 | the state codes and their sentinels |
| `Errors.OtherCodesHaveNoSentinel` | errors.go:46-68 | no other code has a sentinel |
| `Errors.NoCodeIsUnsupported` | errors.go:39-41 | no server error ever matches ErrUnsupported |
| `Errors.MapErrorIsExact` | errors.go:46-110 | a wrapped exception maps to an error that matches its token's sentinel and no other, keeping code and message |
| `Errors.MapErrorLeavesOthersAlone` | errors.go:85-99 | an error is returned unchanged if and only if it is not an exception; mapping is idempotent |
| `Errors.ExceptionWithoutTextMatchesNothing` | errors.go:101-110 | an exception without a text body reports its own name and matches no sentinel |
| `Errors.WrappingHidesNothing` | errors.go:92-95 | an exception wrapped, or joined behind other errors, is classified as by itself |
| `Errors.MatchesSeesThroughWrapping` | errors.go:82-83 | a sentinel is matched through wrapping and joining |
| `Bus.FailedCallIsClassified` | firewalld.go:121-131 | a call that fails with an exception whose text starts with a code fails with that code, that text, that code's sentinel and no other |
| `Bus.FailuresPassThrough` | firewalld.go:121-131 | every typed result of a failed call is the call's mapped error |
| `Handles.UnresolvedHandleLooksItsNameUp` | permzone.go:26-47 | through an unresolved handle: the lookup method of its kind with its name, then the call on the answered path, call by call |
| `Handles.ResolvedHandleCallsItsPath` | permzone.go:29-31 | through a resolved handle: the one call on its path and no lookup |
| `Handles.CallOnMatchesFresh` | permzone.go:26-47 | one call through a current cache has the result and object calls of one that looks up first |
| `Handles.CacheRefinesFreshLookup` | permzone.go:26-47 | over every run in which only the handle renames its object and nobody removes it, caching is invisible: same results, same object calls |
| `Handles.StaleExactlyAfterRemoval` | permzone.go:26-47 | after every ordinary run on a server that never reuses a path, a further call reaches the object a fresh lookup would if and only if no removal through the handle has succeeded |
| `Handles.RemovedHandleKeepsItsPath` | permzone.go:267-269 | after a removal no later step, renames included, changes the handle |
| `Handles.RenameResolvesAnew` | permzone.go:255-264 | a rename sends the new name; a failed one keeps name and path; after a success the next call looks the new name up first |
| `SharedHandle.RunKeepsInv` | permzone.go:26-47 | any number of goroutines, any interleaving: mutual exclusion and a consistent cache |
| `SharedHandle.CachedPathIsAnAnswer` | permzone.go:26-38 | a cached path answers a lookup of the current name asked after its last assignment; at most one lookup succeeds per name; no failure is cached |
| `SharedHandle.MutexIsExclusiveAndReleased` | permzone.go:27-28 | no two goroutines hold the mutex, and its holder can always move on |
| `SharedHandle.OrderlyHandleAgreesWithServer` | permzone.go:255-264 | while no rename is accepted with another goroutine between acceptance and mutex, every cached path and every call is the one the server files under the handle's name |
| `SharedHandle.AcceptanceIsSafeExactlyWhenNoneRenamed` | permzone.go:255-264 | in every state an orderly run reaches, accepting a rename keeps the handle under its object's name in all orderly continuations if and only if no other goroutine stands between acceptance and mutex |
| `SharedHandle.AcceptedOverlapLosesTheZone` | permzone.go:255-264 | from every such overlap a run without further calls ends under a name the server no longer has |
| `SharedHandle.OverlapIsReachable` | permzone.go:255-264 | orderly runs do reach such an overlap |
| `ZoneTransport.UpdateThenSettings` | permzone.go:65-89 | on every version what Update accepted is what Settings returns, the target as it was or "default" where it was empty and, below 0.9 only, the dict-only fields zero |
| `ZoneTransport.CreateThenSettings` | config.go:45-54 | the same for a zone just created, read through a handle on its name |
| `PolicyTransport.UpdateThenReadPolicy` | policy.go:226-237 | settings that Update accepted are what Settings returns if and only if no rules_str comes back or the policy has no rich rules |
| `ServiceTransport.UpdateThenReadService` | service.go:184-195 | settings that Update accepted come back without includes and helpers |
| `ServiceTransport.CopiedServiceKeepsAllButItsDictFields` | service.go:121-195 | a service read at runtime and written permanently is held unchanged if and only if it has no includes and no helpers; below 1.0 always |
| `WriteThenRead.SetRuntimeThenRead` | zone.go:83-106 | runtime settings that SetSettings wrote are what Settings reads; below 0.9 nothing is called |
| `WriteThenRead.OldRuntimeZoneIsRead` | zone.go:91-95 | below 0.9 a runtime zone is read from the main interface's tuple |
| `WriteThenRead.WritePolicyThenRead` | policy.go:140-157 | a runtime policy written is what is read, under the condition on its rich rules |
| `WriteThenRead.CreateThenReadPolicy` | policy.go:180-187 | a created policy, read through a handle on its name, under the same condition |
| `WriteThenRead.CreateThenReadService` | service.go:144-148 | a created service, read through a handle on its name, without includes and helpers |
| `WriteThenRead.PresentedServiceIsReadAtRuntime` | service.go:121-134 | a service the server presents is read whole from 1.0 on and without the dict fields before |
| `WriteThenRead.GuardedCallsInFull` | policy.go:114-177 | the remaining guarded operations, call by call |
| `WriteThenRead.IncludeCallsInFull` | service.go:232-251 | each include operation is its own call with its own arguments |
| `ReferenceServer.PromisesCanBeKept` | permzone.go:26-89 | the assumptions made of servers, unreused paths included, hold together of one server |
| `ReferenceServer.ZoneLife` | config.go:45-54 | create, update, rename and read all succeed on every version, and the settings last written come back under the new name |
| `ReferenceServer.RecreatedZoneIsMissed` | permzone.go:267-269 | the failing run: any zone removed through a handle and created anew by name is missed by every later call |
| `Gating.ExecMeets` | firewalld.go:160-165 | one operation keeps a gate unless it uses an unguarded service method, on a version it does not fit, that reaches its object |
| `Gating.RunMeetsGateExactlyWhen` | service.go:144-251 | over every run: no method newer than the version if and only if the version is at least 1.0 or no include operation reaches its service; none superseded if and only if it is below 1.0 or no service is created, read or written on its object |
| `Gating.EveryRunIsGated` | caps.go:77-88 | those service methods aside, no call of any run is newer than the reported version or superseded in it |
| `Gating.GuardedMethodsByVersion` | caps.go:77-88 | in every run dict, policy, getServiceSettings2 and resetToDefaults calls occur only from 0.9 and 1.0 on |
| `Gating.ConnectReadsTheVersion` | firewalld.go:77-101 | against a server that reports a printed release, connecting yields exactly that version and exactly its capabilities |
| `Gating.ConnectOtherwise` | firewalld.go:77-101 | the one call made; a non-string version reads as 0.0.0; a failed call leaves no client |
| `Gating.IncludeOnOldServerIsTooNew` | service.go:231-251 | a failing run: opening a service handle and adding an include on any version below 1.0 |
| `Gating.CreateServiceOnNewServerIsSuperseded` | service.go:144-148 | a failing run: creating a service on any version from 1.0 on |
| `Gating.RefusalMakesNoCall` | zone.go:101-106 | a guarded operation makes its one call if and only if the version has the capability; refused, it changes nothing |
| `Gating.PolicyHandleRefusesWithoutCalls` | policy.go:202-223 | a policy handle makes no call exactly on servers without policies |
| `RuntimeZones.TimeoutIsFloorBelowWrap` | zone.go:13-18 | the timeout of a duration in nanoseconds is its floor in seconds if and only if it is below 2^31 seconds; none when negative |
| `RuntimeZones.TimeoutIsMonotone` | zone.go:13-18 | below that, longer durations never send shorter timeouts |
| `RuntimeZones.PositiveTimeoutReadsAsNone` | zone.go:10-18 | a positive timeout is sent as none exactly when its whole seconds are a multiple of 2^32 |
| `RuntimeZones.HalfASecondNeverExpires` | zone.go:10-18 | half a second is such a timeout |
| `RuntimeZones.ToAnySlice` | zone.go:332-338 | the loop re-wraps every row, in order |
| `RuntimeZones.PortsOfRows` | zone.go:301-308 | one port per row, in order, from its first two columns however boxed |
| `RuntimeZones.ForwardPortsOfRows` | zone.go:321-328 | one forward port per row, in order, from its first four columns however boxed |
| `RuntimeZones.AddArgsInOrder` | zone.go:119-123 | the zone first, the timeout last, the element's arguments between |
| `Client.Conn.constructor` | firewalld.go:77-81 | a new connection has no capabilities and has made no call |
| `Client.Conn.Invoke` | firewalld.go:121-131 | one call appended to the trace, the server's next state, the mapped outcome |
| `Client.Conn.ReadVersion` | firewalld.go:93-101 | the version property, a non-string reading as no version |
| `Client.NewConn` | firewalld.go:77-89 | version and capabilities as derived from the server, or no connection |
| `Client.Conn.ResetToDefaults` | firewalld.go:160-165 | the guarded call, or a refusal without one |
| `Client.Conn.RuntimeSettings` | zone.go:83-96 | the transport the capability selects, decoded |
| `Client.Conn.SetRuntimeSettings` | zone.go:101-106 | the guarded dict write, or a refusal without a call |
| `Client.Conn.ServiceSettings` | service.go:121-134 | the transport the capability selects, decoded |
| `Client.Conn.AddZone` | config.go:45-54 | creation over the transport the capability selects |
| `Client.Conn.PolicyRequest` | policy.go:114-187 | the one guarded call behind each of the seven policy operations; its reply is decoded by the methods below, and SetPolicySettings needs nothing more |
| `Client.Conn.PolicyList` | policy.go:114-177 | the names or paths listed, or a refusal without a call |
| `Client.Conn.ActivePolicies` | policy.go:124-137 | each bound policy exactly once, in no particular order |
| `Client.Conn.PolicySettings` | policy.go:140-149 | the runtime policy dict, decoded |
| `Client.Conn.AddPolicy` | policy.go:180-187 | the path of the created policy |
| `Client.KeysInSomeOrder` | policy.go:132-136 | the loop yields every key of the map once |
| `Client.Conn.AddElement` | zone.go:119-123 | the call's arguments are the zone, the element's own, and the timeout last |
| `Client.PermZone.constructor` | config.go:24-26 | a new handle is unresolved |
| `Client.PermZone.Resolve` | permzone.go:26-38 | one lookup on first use, none after; a failed lookup is not cached |
| `Client.PermZone.CallOn` | permzone.go:41-47 | resolve, then one call on the resolved object |
| `Client.PermZone.Settings` | permzone.go:67-80 | the transport the capability selects, decoded |
| `Client.PermZone.UpdateSettings` | permzone.go:84-89 | the transport the capability selects |
| `Client.UpdateThenRead` | permzone.go:65-89 | on a server that keeps settings, an accepted update followed by a read through the same object returns what was written, as the version allows |
| `Client.PermZone.Rename` | permzone.go:255-264 | name and path change together, and only on success |
| `Client.PermZone.Remove` | permzone.go:267-269 | one call; name and path stay |
| `Client.PermPolicy.constructor` | policy.go:190-192 | a new handle is unresolved |
| `Client.PermPolicy.Resolve` | policy.go:202-215 | refused without policies even when resolved; otherwise one lookup on first use |
| `Client.PermPolicy.CallOn` | policy.go:217-223 | resolve, then one call on the resolved object |
| `Client.PermPolicy.Settings` | policy.go:226-232 | the policy dict, decoded |
| `Client.PermPolicy.UpdateSettings` | policy.go:235-237 | the policy written as a dict |
| `Client.PermPolicy.Rename` | policy.go:240-247 | name and path change together, and only on success |
| `Client.PermPolicy.Remove` | policy.go:250-252 | one call; name and path stay |
| `Client.Conn.AddService` | service.go:144-148 | creation, always over the v1 tuple |
| `Client.PermService.constructor` | service.go:151-153 | a new handle is unresolved |
| `Client.PermService.Resolve` | service.go:163-173 | one lookup on first use, whatever the version |
| `Client.PermService.CallOn` | service.go:175-181 | resolve, then one call on the resolved object |
| `Client.PermService.Settings` | service.go:184-190 | the v1 tuple, decoded |
| `Client.PermService.UpdateSettings` | service.go:193-195 | the settings written as a v1 tuple |
| `Client.PermService.OfInclude` | service.go:232-251 | the four include operations, each one call on the object on every version |
| `Client.PermService.Remove` | service.go:255-257 | one call; name and path stay |
| `Client.Conn.Perform` | firewalld.go:118-131 | the operations of a run are what these methods do, one by one |
| `Client.PermZone.Perform` | permzone.go:41-47 | the same for operations through a zone handle |
| `Client.PermPolicy.Perform` | policy.go:217-223 | the same for a policy handle |
| `Client.PermService.Perform` | service.go:175-181 | the same for a service handle |

## Left out

- The D-Bus transport: dialing, byte encoding, reply storage, delivery into the raw channel. The signal model starts at what enters raw; `OnWire` states what a sent value decodes to, and `SignatureOf` what signature its Go type has.
- Reply storage is reduced to whether the reply has the shape the caller stores into; `STORE_MISMATCH` stands for any other reply.
- A call that carries several return values, and `Call`, the escape hatch that lets a caller name any method: the gating theorem covers the typed operations only.
- The one-line wrappers (element adds, removes and queries, panic mode, log-denied, lockdown, runtime ipset and direct operations): each is one call with fixed strings, represented in `Gating` by an element operation, which stands for no member that came with a release or was superseded.
- properties.go, lockdown.go, icmptype.go, helper.go and ipset.go: repeats of the modelled codec and cache patterns.
- firewalld's own semantics: reload, rule evaluation, validity of ports and rules. Only names, paths and stored settings of a server are described.
- Partial failure of AddMatchSignal while subscribing, and unlocked reads through `Name()`.
- Concurrent use of a policy or service handle, whose cache has no lock; `Handles` and `Client` treat them with one caller at a time.
- A rename whose reply is lost although the server performed it: in `SharedHandle` it is a failed call followed by a change of the directory by other hands, so the agreement theorem does not cover it.
- Server paths are taken to be non-empty: in `SharedHandle` an empty answer counts as a failed lookup.
- Nil and empty slices and maps are one value, so the nonNil helpers are identities here.
- Integers of platform width are 64 bits wide.
- Strings are sequences of characters; byte-level UTF-8 plays no part, since the scanners stop at the first character outside their ASCII class.
- Slices of a native struct type other than Port and ForwardPort, which nothing in the client decodes.
- ActiveZones; map iteration order, which `ActivePolicies` leaves open.
- Closing the connection and who owns it.
