# Jigasi Rayo call control, modelled in Dafny

Jigasi is a gateway that bridges SIP calls into XMPP conference rooms. Its
call-control component speaks a subset of Rayo (XEP-0327, namespace
`urn:xmpp:rayo:0`): a controller sends a *dial* IQ to start an outgoing SIP
call joined to the conference room named by the `JvbRoomName` header, and a
*hangup* IQ to end a call. Each call is named by a *call resource*: the
hexadecimal rendering of the millisecond clock, an `@`, and the component's
domain (`subdomain.serverName`).

The model is functional:

- `JavaStrings` — `String.indexOf`, `startsWith`, `endsWith`, `contains` over `seq<char>`.
- `Hex` — Java's `long` as a subset type, and `Long.toHexString` (hex of the unsigned 64-bit value,
  lower case, no leading zeros). It has an inverse, `ParseHex`, and round trips in both directions.
- `CallResource` — building a resource from a timestamp and a domain, and extracting the call id.
- `CallControl` — the component. It covers the constructor's domain and the server name `init`
  derives. It covers resource allocation and `initNewCall`. `Handle` is the IQ dispatch.
  The SIP gateway is abstract. The component reads its session registry, a
  `map<string, SessionId>`. What it asks of the gateway is returned as a log of
  `GatewayCall`s: `CreateOutgoingCall(to, room, resource)` and `HangUpSession(session)`.
  The component never writes the registry itself.

The clock is a parameter: every operation that reads `System.currentTimeMillis()`
takes the time `now` as a `Long`. The IQ arrives already classified as `DialIq`,
`HangUpIq` or `OtherIq`. The two exceptions the component throws become
`CommandError` values: `NoRoomNameHeader` and `NoGatewayForCall`. The framework
turns both into internal-server-error replies.

Two behaviours of the code are worth stating plainly:

- A hangup looks up its target verbatim in the registry, as the full `id@domain` resource.
- Nothing checks a new resource against the registry. Two dials in the same millisecond
  ask for two calls under one resource.

## Model

| member | source | states |
|---|---|---|
| CallControl.NewComponent | src/org/jitsi/jigasi/xmpp/CallControlComponent.java:61-64 | the domain is the subdomain, a '.', then the server name, and has exactly that length |
| CallControl.XmppServerName | src/org/jitsi/jigasi/xmpp/CallControlComponent.java:78-79 | the name handed to the gateway is the suffix of the domain after its first '.', or the whole domain when it has no '.' |
| CallControl.InitServerName | src/org/jitsi/jigasi/xmpp/CallControlComponent.java:61-79 | for a constructed component, init recovers the configured server name when the subdomain has no '.', and otherwise the subdomain's text after its first '.' plus "." plus the server name |
| CallResource.GenerateNextCallResource | src/org/jitsi/jigasi/xmpp/CallControlComponent.java:124-129 | the resource reads as a canonical lower-case hex id, then '@', then the domain, and its id is `Long.toHexString(now)` |
| CallResource.ExtractCallIdFromResource | src/org/jitsi/jigasi/xmpp/CallControlComponent.java:228-240 | the id is the prefix of the resource up to, not including, its first '@' (a resource without '@' is outside the precondition, where Java throws) |
| CallResource.ExtractAfterGenerate | src/org/jitsi/jigasi/xmpp/CallControlComponent.java:237-240 | extracting the call id from a generated resource gives back the hex timestamp |
| CallResource.TimestampFromResource | src/org/jitsi/jigasi/xmpp/CallControlComponent.java:124-129 | parsing the call id of a generated resource gives back the timestamp's unsigned 64-bit value |
| CallResource.GenerateInjective | src/org/jitsi/jigasi/xmpp/CallControlComponent.java:124-129 | two generated resources are equal if and only if they come from the same timestamp and domain |
| CallResource.ResourceOfIsGenerated | src/org/jitsi/jigasi/xmpp/CallControlComponent.java:124-129 | every string of the form hex-id '@' domain with at most 16 canonical digits is produced by the generator for some `long` |
| Hex.LongToHexString | src/org/jitsi/jigasi/xmpp/CallControlComponent.java:128 | `Long.toHexString` gives 1 to 16 lower-case hex digits without a leading zero, and they denote the unsigned 64-bit value of the `long` |
| JavaStrings.IndexOf | src/org/jitsi/jigasi/xmpp/CallControlComponent.java:237-240 | `indexOf` gives -1 exactly when the character is absent, and otherwise the position of its first occurrence |
| Hex.ToHexStringLength | src/org/jitsi/jigasi/xmpp/CallControlComponent.java:128 | a number below 16^k is written with at most k digits |
| Hex.ParseToHexString | src/org/jitsi/jigasi/xmpp/CallControlComponent.java:128 | reading the hex string of n gives n |
| Hex.ToHexStringOfParse | src/org/jitsi/jigasi/xmpp/CallControlComponent.java:128 | writing the number a canonical hex string denotes gives the string back |
| Hex.LongToHexStringInjective | src/org/jitsi/jigasi/xmpp/CallControlComponent.java:128 | two `long`s have the same hex rendering if and only if they are equal |
| Hex.LongToHexStringHasNoAt | src/org/jitsi/jigasi/xmpp/CallControlComponent.java:128 | a hex rendering never contains '@', so the first '@' of a resource is the separator |
| CallControl.NextCallResource | src/org/jitsi/jigasi/xmpp/CallControlComponent.java:124-129 | the component's next resource belongs to its domain and carries the hex of `now` as its call id |
| CallControl.AllocateNewSession | src/org/jitsi/jigasi/xmpp/CallControlComponent.java:280-284 | a resource allocated for a gateway-created session belongs to the domain, and its call id parses back to the timestamp |
| CallControl.InitNewCall | src/org/jitsi/jigasi/xmpp/CallControlComponent.java:115-122 | one outgoing call is requested, to the destination and for the room, under the returned resource, which belongs to the domain |
| CallControl.Handle | src/org/jitsi/jigasi/xmpp/CallControlComponent.java:144-209 | at most one gateway call per IQ; none on an error; a hangup only ever targets a registered session; every outgoing call's resource belongs to the domain; a ref reply is "xmpp:" followed by such a resource |
| CallControl.DialWithoutRoomNameRejected | src/org/jitsi/jigasi/xmpp/CallControlComponent.java:159-161 | a dial fails if and only if the `JvbRoomName` header is missing, and then it fails with no gateway call |
| CallControl.DialCreatesOutgoingCall | src/org/jitsi/jigasi/xmpp/CallControlComponent.java:152-175 | a dial with a room makes exactly one outgoing call to the destination for that room; the reply URI starts with "xmpp:" and contains "@" + domain; dropping 5 characters gives the call's resource, whose id is the hex timestamp |
| CallControl.HangUpLooksUpTarget | src/org/jitsi/jigasi/xmpp/CallControlComponent.java:176-197 | a hangup fails, with no gateway call, if and only if its target is not a registry key; otherwise it hangs up exactly that key's session and answers with an empty result |
| CallControl.OtherIqPassedOn | src/org/jitsi/jigasi/xmpp/CallControlComponent.java:199-202 | any other IQ goes to the default handler with no gateway call |
| CallControl.DialThenHangUp | test/org/jitsi/jigasi/CallsHandlingTest.java:287-335 | after a dial's resource is registered, a hangup on the reply URI minus "xmpp:" ends exactly that session |
| CallControl.DialResourcesCollideOnlyOnSameTime | src/org/jitsi/jigasi/xmpp/CallControlComponent.java:124-129 | two dials ask for calls under the same resource if and only if they are handled in the same millisecond |

## Left out

- OSGi service lookup and rebinding (`init`'s service lookup, `setCallsControl`, `serviceChanged`): runtime wiring.
  The model has no gateway reference to set.
- Conversion between XMPP and Smack stanzas and the Rayo IQ encoding: wire formats handled by libraries.
  The model's `Iq` is the already-classified command. A conversion failure is not modelled.
- `sendPacketXml`: XML parsing and sending through the framework.
- Service-discovery namespaces, description and name strings: constant metadata with no logic.
- The clock: the time is a parameter, not read.
- Logging, and the rethrow in the catch block, which only logs the exception.
- The commented-out `callEnded` notification: it does nothing.
- What the gateway does with the calls it is asked to make: the SIP and room leg state machines,
  the invite timeout and registry insertion and removal. The gateway code is not part of this model.
  The registry is an input, and the requested calls are an output.
- CallControl.Handle: every gateway call is taken to succeed, and `init` is taken to have run.
  In the code, `createOutgoingCall`, `getSession` or `session.hangUp()` may throw, and so does a
  null gateway before `init`. The catch block turns such an exception into an internal-server-error
  reply. On a dial, the outgoing call may already have been requested by then. So "no gateway call
  on an error" holds only for the two errors the component raises itself.
- The dial's source address: the component accepts it and never uses it (it is only logged).
- CallResource.ExtractCallIdFromResource: a resource without '@' is excluded by the precondition.
  In Java, `substring(0, -1)` throws there, and no code path in the component handles it.
