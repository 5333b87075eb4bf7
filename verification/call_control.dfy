/**
 The Rayo (XEP-0327, namespace "urn:xmpp:rayo:0") call-control component
 of the SIP gateway. It answers two commands: dial, which starts an outgoing
 SIP call joined to a conference room and answers with a reference to the
 new call, and hangup, which ends the call a resource names. Anything else
 goes to the default IQ handling of the component framework.

 The SIP gateway behind the component is abstract: the component only reads
 its session registry (resource -> session) and asks it to do things, which
 the model records as a log of gateway calls.
 */
module CallControl {
  import opened Wrappers
  import opened JavaStrings
  import opened Hex
  import opened CallResource

  /** The dial header that names the conference room to join. */
  const ROOM_NAME_HEADER: string := "JvbRoomName"

  /** The scheme put in front of a resource in a dial reply. */
  const URI_SCHEME: string := "xmpp:"

  /** A gateway session, known to the component only by identity. */
  type SessionId = nat

  /** The gateway's session registry: which session a call resource names. */
  type Registry = map<string, SessionId>

  /** The component; its only state of its own is the domain it runs on. */
  datatype Component = Component(domain: string)

  /** An inbound IQ of type set, after it has been classified. */
  datatype Iq =
    | DialIq(source: Option<string>, destination: string, headers: map<string, string>)
    | HangUpIq(to: string)
    | OtherIq

  /** What the component asks of the gateway. */
  datatype GatewayCall =
    | CreateOutgoingCall(to: string, roomName: string, callResource: string)
    | HangUpSession(session: SessionId)

  /** A successful answer to an IQ. */
  datatype Reply =
    | RefResult(uri: string)   // the Rayo <ref/> answering a dial
    | EmptyResult              // an empty result IQ answering a hangup
    | DefaultHandling          // left to the framework's default handler

  /** The failures the component raises; each becomes an internal-server-error. */
  datatype CommandError =
    | NoRoomNameHeader
    | NoGatewayForCall(callResource: string)

  /** The reply to one IQ together with the gateway calls made while handling it. */
  datatype Outcome = Outcome(reply: Result<Reply, CommandError>, calls: seq<GatewayCall>)

  /** The constructor: the component runs on `subdomain.serverName`. */
  function NewComponent(subdomain: string, serverName: string): (c: Component)
    ensures |c.domain| == |subdomain| + 1 + |serverName|
    ensures StartsWith(c.domain, subdomain) && c.domain[|subdomain|] == '.'
    ensures EndsWith(c.domain, serverName)
  {
    Component(subdomain + "." + serverName)
  }

  /**
   The XMPP server name `init` hands to the gateway: the domain after its
   first '.', or the whole domain when it has none.
   */
  function XmppServerName(c: Component): (name: string)
    ensures EndsWith(c.domain, name)
    ensures '.' !in c.domain ==> name == c.domain
    ensures '.' in c.domain ==>
              var dot := |c.domain| - |name| - 1;
              0 <= dot && c.domain[dot] == '.' && '.' !in c.domain[..dot]
  {
    var i := IndexOf(c.domain, '.');
    var name := c.domain[i + 1..];
    assert |c.domain| - |name| - 1 == i;
    name
  }

  /** `generateNextCallResource` on this component's domain at time `now`. */
  function NextCallResource(c: Component, now: Long): (r: string)
    ensures IsResourceOf(r, c.domain)
    ensures AT in r && ExtractCallIdFromResource(r) == LongToHexString(now)
  {
    ExtractAfterGenerate(now, c.domain);
    GenerateNextCallResource(now, c.domain)
  }

  /**
   `allocateNewSession`: the resource the gateway gets for a session it
   creates itself, e.g. for an incoming SIP call.
   */
  function AllocateNewSession(c: Component, now: Long): (r: string)
    ensures IsResourceOf(r, c.domain)
    ensures ParseHex(ExtractCallIdFromResource(r)) == Unsigned(now)
  {
    TimestampFromResource(now, c.domain);
    NextCallResource(c, now)
  }

  /**
   `initNewCall`: allocates a resource and asks the gateway for an outgoing
   call to `to` joined to `roomName` under that resource. The source address
   `from` is accepted and not used.
   */
  function InitNewCall(c: Component, now: Long, roomName: string, from: Option<string>, to: string)
    : (r: (string, GatewayCall))
    ensures IsResourceOf(r.0, c.domain)
    ensures AT in r.0 && ExtractCallIdFromResource(r.0) == LongToHexString(now)
    ensures r.1.CreateOutgoingCall? && r.1.callResource == r.0
    ensures r.1.to == to && r.1.roomName == roomName
  {
    var res := NextCallResource(c, now);
    (res, CreateOutgoingCall(to, roomName, res))
  }

  /** `handleIQSet`: answers one IQ of type set, received at time `now`. */
  function Handle(c: Component, registry: Registry, iq: Iq, now: Long): (o: Outcome)
    ensures |o.calls| <= 1
    ensures o.reply.Err? ==> o.calls == []
    ensures o.reply.Ok? && o.reply.value.RefResult? ==>
              StartsWith(o.reply.value.uri, URI_SCHEME)
              && IsResourceOf(o.reply.value.uri[|URI_SCHEME|..], c.domain)
    ensures forall k :: 0 <= k < |o.calls| && o.calls[k].HangUpSession? ==>
              o.calls[k].session in registry.Values
    ensures forall k :: 0 <= k < |o.calls| && o.calls[k].CreateOutgoingCall? ==>
              IsResourceOf(o.calls[k].callResource, c.domain)
  {
    match iq
    case DialIq(from, to, headers) =>
      if ROOM_NAME_HEADER !in headers then
        Outcome(Err(NoRoomNameHeader), [])
      else
        var (callResource, call) := InitNewCall(c, now, headers[ROOM_NAME_HEADER], from, to);
        assert (URI_SCHEME + callResource)[|URI_SCHEME|..] == callResource;
        Outcome(Ok(RefResult(URI_SCHEME + callResource)), [call])
    case HangUpIq(callResource) =>
      if callResource !in registry then
        Outcome(Err(NoGatewayForCall(callResource)), [])
      else
        Outcome(Ok(EmptyResult), [HangUpSession(registry[callResource])])
    case OtherIq =>
      Outcome(Ok(DefaultHandling), [])
  }

  /**
   The server name `init` recovers from the domain the constructor built: the
   configured server name when the subdomain has no '.', and otherwise the
   part of the subdomain after its first '.' joined to the server name.
   */
  lemma InitServerName(subdomain: string, serverName: string)
    ensures '.' !in subdomain ==> XmppServerName(NewComponent(subdomain, serverName)) == serverName
    ensures '.' in subdomain ==>
              XmppServerName(NewComponent(subdomain, serverName))
              == subdomain[IndexOf(subdomain, '.') + 1..] + "." + serverName
  {
    if '.' in subdomain {
      ServerNameAfterDottedSubdomain(subdomain, serverName);
    } else {
      ServerNameAfterPlainSubdomain(subdomain, serverName);
    }
  }

  lemma ServerNameAfterPlainSubdomain(subdomain: string, serverName: string)
    requires '.' !in subdomain
    ensures XmppServerName(Component(subdomain + "." + serverName)) == serverName
  {
    var domain := subdomain + "." + serverName;
    IndexOfAfterPrefix(subdomain, '.', serverName);
    assert domain[|subdomain| + 1..] == serverName;
  }

  lemma ServerNameAfterDottedSubdomain(subdomain: string, serverName: string)
    requires '.' in subdomain
    ensures XmppServerName(Component(subdomain + "." + serverName))
            == subdomain[IndexOf(subdomain, '.') + 1..] + "." + serverName
  {
    var tail := "." + serverName;
    var domain := subdomain + tail;
    assert subdomain + "." + serverName == domain;
    IndexOfInPrefix(subdomain, '.', tail);
    var i := IndexOf(subdomain, '.');
    assert domain[i + 1..] == subdomain[i + 1..] + tail;
  }

  /** A dial is refused, with no gateway call, exactly when it lacks the room header. */
  lemma DialWithoutRoomNameRejected(c: Component, registry: Registry, from: Option<string>,
                                    to: string, headers: map<string, string>, now: Long)
    ensures var o := Handle(c, registry, DialIq(from, to, headers), now);
            (o.reply.Err? <==> ROOM_NAME_HEADER !in headers)
            && (o.reply.Err? ==> o.reply.error == NoRoomNameHeader && o.calls == [])
  {
  }

  /**
   A dial naming a room makes exactly one outgoing call to the destination,
   for that room, under a fresh resource of this component; it answers with
   "xmpp:" followed by that resource, which contains "@" + domain, and
   dropping the five-character scheme gives the resource back.
   */
  lemma DialCreatesOutgoingCall(c: Component, registry: Registry, from: Option<string>,
                                to: string, headers: map<string, string>, now: Long)
    requires ROOM_NAME_HEADER in headers
    ensures var o := Handle(c, registry, DialIq(from, to, headers), now);
            && o.reply.Ok? && o.reply.value.RefResult?
            && |o.calls| == 1 && o.calls[0].CreateOutgoingCall?
            && o.calls[0].to == to
            && o.calls[0].roomName == headers[ROOM_NAME_HEADER]
            && var uri := o.reply.value.uri;
               && |uri| > 5 && uri[..5] == "xmpp:"
               && uri[5..] == o.calls[0].callResource
               && Contains(uri, "@" + c.domain)
               && AT in uri[5..]
               && ExtractCallIdFromResource(uri[5..]) == LongToHexString(now)
  {
    var res := NextCallResource(c, now);
    var uri := URI_SCHEME + res;
    assert uri[5..] == res;
    ResourceContainsDomain(res, c.domain);
    ContainsInSuffix(URI_SCHEME, res, "@" + c.domain);
  }

  /** A resource of a domain contains '@' followed by that domain. */
  lemma ResourceContainsDomain(r: string, domain: string)
    requires IsResourceOf(r, domain)
    ensures Contains(r, "@" + domain)
  {
    var i := IndexOf(r, AT);
    assert r[i..] == "@" + domain;
    assert StartsWith(r[i..], "@" + domain);
  }

  /** What a suffix contains, the whole sequence contains. */
  lemma ContainsInSuffix(p: string, s: string, t: string)
    requires Contains(s, t)
    ensures Contains(p + s, t)
  {
    var i :| 0 <= i <= |s| - |t| && StartsWith(s[i..], t);
    assert (p + s)[|p| + i..] == s[i..];
  }

  /**
   A hangup is refused, with no gateway call, exactly when its target is not
   a registered resource; otherwise it hangs up that resource's session once
   and answers with an empty result. The target is looked up as given.
   */
  lemma HangUpLooksUpTarget(c: Component, registry: Registry, target: string, now: Long)
    ensures var o := Handle(c, registry, HangUpIq(target), now);
            && (o.reply.Err? <==> target !in registry)
            && (target !in registry ==> o == Outcome(Err(NoGatewayForCall(target)), []))
            && (target in registry ==>
                  o == Outcome(Ok(EmptyResult), [HangUpSession(registry[target])]))
  {
  }

  /** An IQ that is neither dial nor hangup is passed on and touches no gateway session. */
  lemma OtherIqPassedOn(c: Component, registry: Registry, now: Long)
    ensures Handle(c, registry, OtherIq, now) == Outcome(Ok(DefaultHandling), [])
  {
  }

  /**
   Dial, then hang up: once the gateway has registered the resource of the
   outgoing call a dial created, a hangup aimed at the reply's URI with the
   scheme dropped ends exactly that session.
   */
  lemma DialThenHangUp(c: Component, registry: Registry, from: Option<string>,
                       to: string, headers: map<string, string>, now: Long,
                       session: SessionId, later: Long)
    requires ROOM_NAME_HEADER in headers
    ensures var dial := Handle(c, registry, DialIq(from, to, headers), now);
            && dial.reply.Ok? && dial.reply.value.RefResult?
            && |dial.calls| == 1 && dial.calls[0].CreateOutgoingCall?
            && var registered := registry[dial.calls[0].callResource := session];
               var hangUp := Handle(c, registered, HangUpIq(dial.reply.value.uri[5..]), later);
               hangUp == Outcome(Ok(EmptyResult), [HangUpSession(session)])
  {
    DialCreatesOutgoingCall(c, registry, from, to, headers, now);
  }

  /**
   Two dials handled in the same millisecond ask for calls under the same
   resource (no check against the registry is made); dials in different
   milliseconds always get different resources.
   */
  lemma DialResourcesCollideOnlyOnSameTime(c: Component, registry: Registry,
                                           d1: Iq, t1: Long, d2: Iq, t2: Long)
    requires d1.DialIq? && ROOM_NAME_HEADER in d1.headers
    requires d2.DialIq? && ROOM_NAME_HEADER in d2.headers
    ensures var o1 := Handle(c, registry, d1, t1);
            var o2 := Handle(c, registry, d2, t2);
            && |o1.calls| == 1 && o1.calls[0].CreateOutgoingCall?
            && |o2.calls| == 1 && o2.calls[0].CreateOutgoingCall?
            && (o1.calls[0].callResource == o2.calls[0].callResource <==> t1 == t2)
  {
    GenerateInjective(t1, c.domain, t2, c.domain);
  }
}
