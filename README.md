# SwitchBot BLE controller — Dafny model

This project models the core of a small server that presses a SwitchBot
button over Bluetooth Low Energy. The core is the `switchbot` package:

- **Address matching.** `ScanSwitchBot` scans for advertisements. It keeps the
  first one whose address, with its `:` separators removed, equals the
  configured address, ignoring letter case.
- **Binding.** A successful scan returns a `SwitchBot` handle bound to that
  address. A failure to enable the adapter ends the scan before it starts.
- **Turning on.** `TurnOn` makes one attempt, in a fixed order:
  - connect;
  - discover the vendor service;
  - discover its two characteristics and decide which one notifies and which
    one is written to;
  - subscribe to notifications;
  - write the 3-byte command `57 01 00`.

  Before each step after connecting it checks the caller's context. Every
  error ends the attempt. Once the connection is open it is released on every
  way out (Go's deferred `Disconnect`).

The Bluetooth library is not part of the model. Its place is taken by
`Radio.Adapter`, an oracle object:
- it answers each library call from a fixed `Script` of outcomes;
- it appends every call, with its arguments, to its `trace`.

`TurnOn` and `ScanSwitchBot` are methods over this adapter. Each method's
postcondition ties the new trace and the returned error to a function:
`Switchbot.TurnOnRun` or `Switchbot.ScanRun`. The lemmas and postconditions on
those functions state the source's promises:
- the connection is released exactly once;
- steps run only forward;
- cancellation stops all later steps;
- the command is written only after a successful subscription;
- services are discovered with the bot service UUID as filter, characteristics on
  the first service found, and the subscription and the write go to the
  characteristics the role rule picks;
- success happens exactly when every step succeeds.

Modules:
- `Basics`: `Option` and `Result`.
- `AddressMatch`: the match predicate of the scan callback.
- `Gatt`: the UUID constants, the command bytes and the role assignment of the
  two characteristics.
- `Radio`: the adapter oracle and its call trace.
- `Switchbot`: the handle, the scan outcome, the context, the errors with
  their texts, and `TurnOn`.

Three behaviours of the code shape the model:
- `TurnOn` makes exactly one attempt. There is no retry loop, no backoff and no
  classification of transient errors.
- The address match is exact, not a suffix match.
- Service discovery is filtered by the service UUID. The two characteristics
  are then told apart by testing only the UUID of the first one.

## Model

| member | source | states |
|---|---|---|
| `AddressMatch.StripColons` | switchbot/switchbot.go:31 | the result has no `:` and is no longer than the input |
| `AddressMatch.StripColonsKeepsOthers` | switchbot/switchbot.go:31 | the result holds exactly the characters of the input other than `:`, each as often as in the input |
| `AddressMatch.StripColonsAppend` | switchbot/switchbot.go:31 | removing separators keeps the order of the remaining characters (it distributes over concatenation) |
| `AddressMatch.StripColonsWithoutColons` | switchbot/switchbot.go:31 | an address without separators is left unchanged |
| `AddressMatch.FoldChar` | switchbot/switchbot.go:31 | the folded character is the same letter up to case (per `SameCharUpToCase`, defined by code-point distance and not by folding) and is not upper case, so an upper-case letter becomes its own lower-case letter; every other character is left as it is |
| `AddressMatch.Lower` | switchbot/switchbot.go:31 | lower-casing keeps the length of the address |
| `AddressMatch.LowerFolds` | switchbot/switchbot.go:31 | lower-casing leaves no upper-case letter and keeps every position the same up to case |
| `AddressMatch.LowerEqualIff` | switchbot/switchbot.go:31 | two strings lower-case to the same string iff they have the same length and the same character up to case at every position |
| `AddressMatch.EqualFold` | switchbot/switchbot.go:31 | case-insensitive comparison, character by character until either side runs out, holds iff both sides are equal after lower-casing |
| `AddressMatch.StripColonsLowerCommute` | switchbot/switchbot.go:31 | removing separators and lower-casing commute |
| `AddressMatch.Matches` | switchbot/switchbot.go:31 | an advertisement matches iff its address without `:` equals the configured address, ignoring case |
| `AddressMatch.ColonInConfiguredNeverMatches` | switchbot/switchbot.go:31 | only the advertised side is stripped: a configured address containing `:` matches nothing |
| `AddressMatch.MatchIsExact` | switchbot/switchbot.go:31 | a match needs the configured address to be as long as the stripped advertised one, so a suffix alone never matches |
| `AddressMatch.SeparatorsIgnored` | switchbot/switchbot.go:31 | separators in the advertised address never change the result |
| `AddressMatch.MatchIgnoresCase` | switchbot/switchbot.go:31 | replacing either address by one that is the same up to case (letter by letter, independently of the folding function) never changes the result |
| `Gatt.VendorUuidsDistinct` | switchbot/switchbot.go:88-91 | the notify and the write characteristic UUIDs differ |
| `Gatt.AssignRoles` | switchbot/switchbot.go:98-105 | the notify and write roles go to positions 0 and 1, never both to the same one; if either of the two carries the notify UUID, the notify role gets a characteristic with that UUID |
| `Gatt.RolesFollowUuids` | switchbot/switchbot.go:98-105 | when the first two carry the notify and write UUIDs in either order, notify gets the notify UUID and write gets the write UUID |
| `Gatt.RolesOrderIndependent` | switchbot/switchbot.go:98-105 | swapping the first two characteristics changes neither role, provided exactly one of them has the notify UUID |
| `Gatt.RolesDependOnFirstUuidOnly` | switchbot/switchbot.go:99 | the roles depend only on the first characteristic's UUID; elements after the second are ignored |
| `Switchbot.FirstMatch` | switchbot/switchbot.go:30-37 | the scan settles on the first advertisement that matches: it matches and none before it does; no result means none matches |
| `Switchbot.Wrap` | switchbot/switchbot.go:22 | an error text that wraps another is a non-empty description, then `": "`, then the wrapped error's own text unchanged |
| `Switchbot.ScanMessage` | switchbot/switchbot.go:22-51 | every scanning error that wraps an adapter error ends with `": "` and that error's text; the timeout text wraps nothing |
| `Switchbot.ScanRun` | switchbot/switchbot.go:19-56 | a failed enable returns its error and starts no scan; scanning is stopped exactly when it was started; success iff enable, scan and stop succeed and some advertisement matches, and then the handle's address is the first matching advertisement's; a timeout iff nothing matches |
| `Switchbot.ScanSwitchBot` | switchbot/switchbot.go:19-57 | its result and the adapter calls it makes are those of `ScanRun` |
| `Switchbot.WriteStepFacts` | switchbot/switchbot.go:120-131 | reached with the earlier checks passed, `WriteStep` writes the command to its target only if the last check passes, and a cancellation names that check; success iff the context is never done and the write succeeds |
| `Switchbot.SubscribeStepFacts` | switchbot/switchbot.go:107-131 | reached with the earlier checks passed, `SubscribeStep` subscribes to the `notify` characteristic and writes only to the `write` one; the subscription comes before the write, and the write happens only after a successful subscription, so a failed subscription stops the attempt; a cancellation names the first check at which the context was done; success iff subscribe and write succeed and no check fires |
| `Switchbot.CharacteristicsStepCalls` | switchbot/switchbot.go:88-131 | `CharacteristicsStep` discovers characteristics on the given service, filtered by the two vendor UUIDs; it subscribes or writes only once two characteristics were found; the subscription and the write go to the characteristics `AssignRoles` names |
| `Switchbot.CharacteristicsStepFacts` | switchbot/switchbot.go:82-131 | reached with the first check passed, `CharacteristicsStep`'s calls go forward, each after its check; no call belongs to a step past the one its error names, so a failed discovery or fewer than two characteristics means no subscription and no write; a cancellation names the first check at which the context was done; success iff every step from characteristic discovery on succeeds |
| `Switchbot.ConnectedFacts` | switchbot/switchbot.go:66-133 | while connected, the calls of `Connected` go strictly forward through the four guarded steps, each made only after its check passed; no call belongs to a step past the one the error names; a cancellation names the first check at which the context was done; any call after service discovery needs a found service, and any subscription or write needs two characteristics; success iff every step succeeds and no check fires |
| `Switchbot.ConnectedCallArguments` | switchbot/switchbot.go:72-105 | while connected, services are discovered on the device with the bot service UUID as filter, characteristics on the first service found with the two vendor UUIDs as filter, and the subscription and the write go to the characteristics `AssignRoles` names |
| `Switchbot.BracketReleases` | switchbot/switchbot.go:64 | the deferred release, wrapped around any run of the guarded steps, releases the connection exactly once and last, and releases no other device |
| `Switchbot.TurnOnConnected` | switchbot/switchbot.go:66-133 | its error and the adapter calls it makes are those of `Connected` |
| `Switchbot.Message` | switchbot/switchbot.go:62-130 | every `TurnOn` error that wraps an adapter or context error ends with `": "` and that error's text; the two errors that wrap nothing contain no `:` |
| `Switchbot.WrapKeepsInner` | switchbot/switchbot.go:62-130 | two texts wrapping errors after the same description are equal only when the wrapped error texts are equal |
| `Switchbot.MessageLeadOpening` | switchbot/switchbot.go:62-96 | the first letters of an error text tell the connect, cancellation, no-service and no-characteristic errors apart from every other error |
| `Switchbot.MessageLeadFailedCall` | switchbot/switchbot.go:74-130 | the first letters of an error text tell the four failed-call errors apart from every other error |
| `Switchbot.MessageIdentifiesError` | switchbot/switchbot.go:62-130 | two `TurnOn` errors with the same text are the same error: each text names its own step, and a wrapping text keeps the wrapped error whole |
| `Switchbot.TurnOnRun` | switchbot/switchbot.go:59-134 | connect is always the first call, and after a failed connect it is the only call; an error ends the attempt, so apart from the release no call belongs to a step past the one the error names |
| `Switchbot.TurnOn` | switchbot/switchbot.go:59-134 | its error and the adapter calls it makes are those of `TurnOnRun` |
| `Switchbot.TurnOnCallOrder` | switchbot/switchbot.go:59-134 | connect is the first call, and every call has a later step than the one before it, so no step repeats or goes back |
| `Switchbot.TurnOnReleasesConnection` | switchbot/switchbot.go:60-64 | after a successful connect, disconnect is called exactly once and last, on every path; after a failed connect it is never called, connect is the only call made, and the connect error is returned |
| `Switchbot.TurnOnHonoursContext` | switchbot/switchbot.go:66-124 | each guarded call is made only after its check found the context not done; a cancellation error names the first check at which the context was done, with the context's cause |
| `Switchbot.TurnOnCancelsAtFirstDoneCheck` | switchbot/switchbot.go:66-124 | the attempt is cancelled at a check exactly when that check is the first one at which the context is done and connecting and every step before it succeeded |
| `Switchbot.TurnOnDiscoversFirst` | switchbot/switchbot.go:72-97 | a call after connecting is made only if connecting succeeded; characteristic discovery only if a service was found; subscription and write only if two characteristics were found |
| `Switchbot.TurnOnWritesOnlyCommand` | switchbot/switchbot.go:113-131 | every write sends `57 01 00`, immediately after a successful notification subscription |
| `Switchbot.TurnOnSucceedsIff` | switchbot/switchbot.go:59-133 | success iff connect, both discoveries (with at least one service and two characteristics), subscription and write all succeed and no check fires; a success has made all six calls in order |
| `Switchbot.TurnOnCallArguments` | switchbot/switchbot.go:59-105 | the services are discovered on the bot's own device with the bot service UUID as filter, the characteristics on the first service found with the two vendor UUIDs as filter, and the subscription and the write go to the characteristics `AssignRoles` names |
| `Switchbot.TurnOnTargetsFollowUuids` | switchbot/switchbot.go:98-131 | when the first two characteristics found carry the two vendor UUIDs in either order, any subscription goes to the one with the notify UUID and any write to the one with the write UUID |
| `Switchbot.TurnOnErrorNamesFailedCall` | switchbot/switchbot.go:72-131 | when the service discovery, the characteristic discovery, the subscription or the write is reached with its check passed and fails, the attempt returns that step's own error, wrapping the adapter's error unchanged, and the failed call is in the trace with its arguments |
| `Switchbot.NoServiceStopsTurnOn` | switchbot/switchbot.go:72-78 | zero services gives "no bot service found"; no characteristic discovery, subscription or write happens, and the connection is released |
| `Switchbot.TooFewCharacteristicsStopTurnOn` | switchbot/switchbot.go:88-97 | fewer than two characteristics gives "characteristic not found", with no subscription and no write |
| `Switchbot.CancelBeforeSubscribing` | switchbot/switchbot.go:107-111 | a context found done before subscribing cancels there; there is no subscription and no write, and the connection is still released |
| `Switchbot.TurnOnOrderIndependent` | switchbot/switchbot.go:88-105 | the order in which discovery returns the two vendor characteristics does not change any call or the result of the attempt |
| `Switchbot.CancelMessagesDistinct` | switchbot/switchbot.go:66-124 | the four cancellation errors have different texts, each naming the step it preceded |

## Left out

- The retry loop, the linear backoff, re-enabling the adapter and the classification of transient errors: the code has none of them, so `TurnOn` makes a single attempt.
- The channels, the `select` and the 5-second timer of the scan. The advertisements that reach the callback before the deadline are one field of the script. Races between a match and the deadline are not modelled. A caller context that is already cancelled counts as the deadline.
- `Switchbot.ScanRun`: if stopping the scan fails inside the callback, the library goes on scanning; the model ends the scan there with the "scan error" outcome.
- Whether the library's `Scan` call blocks until `StopScan` is library behaviour and is not modelled.
- `AddressMatch.Matches`: case folding covers ASCII letters only. Unicode folding by `strings.EqualFold`/`strings.ToLower` (for example, the Kelvin sign folding to `k`) is not modelled. Advertised addresses are ASCII hexadecimal.
- The library's address type and its text formatting. Addresses are their textual form.
- UUID parsing (`mustParseUUID`, which panics on a malformed literal). UUIDs are their canonical text and only equality matters.
- The notification callback, its logging and all other log output.
- The number of bytes `WriteWithoutResponse` reports, and the error of `Disconnect`, which the code ignores.
- The context is modelled as done from one check onward, with cause "context canceled" or "context deadline exceeded". As in the code, cancellation does not interrupt a library call already in progress.
- `main.go` (configuration, server start and shutdown), `router/router.go` and `router/handler.go` (HTTP routing and handlers), and `static/index.js` (browser page) are HTTP and configuration glue. So is the handler's habit of writing the success body even after reporting an error.
- Concurrent use of the single adapter by several requests.
