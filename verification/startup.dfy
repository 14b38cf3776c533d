/** `context_init` of main.c: fills the wrapper's context with its fixed
    defaults and converts the resolver address, then the local address, into
    socket addresses, stopping at the first failure.

    Creating the event loop is outside the model; whether it succeeded is the
    parameter `eventLoopCreated`. */
module Startup {
  import opened Wrappers
  import opened CStrings
  import opened AddressParsing

  /** Local address used when no listen address was given. */
  const DefaultListenAddress: CString := "0.0.0.0:53"

  /** Port supplied to both conversions when the address text has none. */
  const DefaultPort: CString := "53"

  /** Default bound on concurrent connections. */
  const DefaultConnectionsMax: int := 250

  /** A socket handle that has not been opened yet. */
  const NoHandle: int := -1

  /** The fields of the wrapper's context that start-up sets. Fields the
      start-up leaves zeroed are zero lengths and absent addresses here. */
  datatype Context<A> = Context(
    resolverIp: CString,
    localIp: CString,
    udpListenerHandle: int,
    udpResolverHandle: int,
    connectionsMax: int,
    tcpOnly: bool,
    hasEventLoop: bool,
    resolverSockaddr: Option<A>,
    resolverSockaddrLen: nat,
    localSockaddr: Option<A>,
    localSockaddrLen: nat)

  /** The return code of start-up, the context it leaves behind, and every
      text handed to the address parser, in call order. */
  datatype Init<A> = Init(status: int, ctx: Context<A>, tried: seq<CString>)

  /** The local address text: the listen address if one was given, else the
      default. */
  function LocalIp(listenAddress: Option<CString>): CString
  {
    match listenAddress
    case None => DefaultListenAddress
    case Some(a) => a
  }

  function ContextInit<A>(parse: Parser<A>, listenAddress: Option<CString>, resolverAddress: CString,
                          eventLoopCreated: bool): (r: Init<A>)
    ensures r.status == 0 || r.status == -1
    ensures r.ctx.resolverIp == resolverAddress
    ensures listenAddress.None? ==> r.ctx.localIp == DefaultListenAddress
    ensures listenAddress.Some? ==> r.ctx.localIp == listenAddress.value
    ensures r.ctx.udpListenerHandle == NoHandle && r.ctx.udpResolverHandle == NoHandle
    ensures r.ctx.connectionsMax == DefaultConnectionsMax
    ensures !r.ctx.tcpOnly
    ensures r.ctx.hasEventLoop == eventLoopCreated
    ensures !eventLoopCreated ==> r.status == -1 && r.tried == []
    ensures r.status == 0 <==>
      && eventLoopCreated
      && SockaddrFromIpAndPort(parse, resolverAddress, DefaultPort).status == 0
      && SockaddrFromIpAndPort(parse, LocalIp(listenAddress), DefaultPort).status == 0
    ensures r.status == 0 ==>
      var rc := SockaddrFromIpAndPort(parse, resolverAddress, DefaultPort);
      var lc := SockaddrFromIpAndPort(parse, LocalIp(listenAddress), DefaultPort);
      && r.ctx.resolverSockaddr == rc.sockaddr && r.ctx.resolverSockaddrLen == rc.len
      && r.ctx.localSockaddr == lc.sockaddr && r.ctx.localSockaddrLen == lc.len
      && r.ctx.resolverSockaddr.Some? && r.ctx.localSockaddr.Some?
  {
    var base := Context(resolverAddress, LocalIp(listenAddress), NoHandle, NoHandle,
                        DefaultConnectionsMax, false, eventLoopCreated, None, 0, None, 0);
    if !eventLoopCreated then Init(-1, base, [])
    else
      var rc := SockaddrFromIpAndPort(parse, base.resolverIp, DefaultPort);
      var afterResolver := base.(resolverSockaddr := rc.sockaddr, resolverSockaddrLen := rc.len);
      if rc.status != 0 then Init(-1, afterResolver, rc.tried)
      else
        var lc := SockaddrFromIpAndPort(parse, base.localIp, DefaultPort);
        var afterLocal := afterResolver.(localSockaddr := lc.sockaddr, localSockaddrLen := lc.len);
        if lc.status != 0 then Init(-1, afterLocal, rc.tried + lc.tried)
        else Init(0, afterLocal, rc.tried + lc.tried)
  }

  /** The resolver address is converted first. When that fails, start-up
      returns -1 without ever parsing the local address, whose length stays
      zero; when it succeeds, the local address's parses follow. */
  lemma ResolverBeforeLocal<A>(parse: Parser<A>, listenAddress: Option<CString>, resolverAddress: CString)
    ensures var r := ContextInit(parse, listenAddress, resolverAddress, true);
            var rc := SockaddrFromIpAndPort(parse, resolverAddress, DefaultPort);
            var lc := SockaddrFromIpAndPort(parse, LocalIp(listenAddress), DefaultPort);
            && rc.tried <= r.tried
            && (rc.status != 0 ==>
                  r.status == -1 && r.tried == rc.tried
                  && r.ctx.resolverSockaddrLen == 0 && r.ctx.localSockaddrLen == 0
                  && r.ctx.localSockaddr.None?)
            && (rc.status == 0 ==>
                  r.tried == rc.tried + lc.tried
                  && r.ctx.resolverSockaddr == rc.sockaddr && r.ctx.resolverSockaddrLen == rc.len
                  && r.ctx.localSockaddr == lc.sockaddr && r.ctx.localSockaddrLen == lc.len)
  {
  }

  /** Without a listen address, the local address `0.0.0.0:53` holds exactly
      one colon, so it is offered to the parser as it stands before any
      default port is added. */
  lemma DefaultLocalTriedAsIs<A>(parse: Parser<A>, resolverAddress: CString)
    requires SockaddrFromIpAndPort(parse, resolverAddress, DefaultPort).status == 0
    ensures var r := ContextInit(parse, None, resolverAddress, true);
            var n := |SockaddrFromIpAndPort(parse, resolverAddress, DefaultPort).tried|;
            n < |r.tried| && r.tried[n] == DefaultListenAddress
  {
    DefaultListenAddressOneColon();
    DirectAttemptIff(parse, DefaultListenAddress, DefaultPort);
  }

  lemma DefaultListenAddressOneColon()
    ensures Count(DefaultListenAddress, ':') == 1
  {
    var host, sep := "0.0.0.0", ":";
    assert DefaultListenAddress == host + sep + DefaultPort;
    CountConcat(host + sep, DefaultPort, ':');
    CountConcat(host, sep, ':');
    CountAtLeastOne(host, ':');
    CountAtLeastOne(DefaultPort, ':');
  }

  /** A resolver address with neither a leading bracket nor a colon is never
      parsed as it stands: the only text tried for it is the address with
      `:53` appended, cut to the buffer, and it is the whole of that text
      when it fits. */
  lemma ResolverGetsDefaultPort<A>(parse: Parser<A>, listenAddress: Option<CString>, resolverAddress: CString)
    requires !StartsWithBracket(resolverAddress) && ':' !in resolverAddress
    ensures var r := ContextInit(parse, listenAddress, resolverAddress, true);
            var cand := Snprintf(CandidateBufferSize, resolverAddress + ":53");
            && 0 < |r.tried| && r.tried[0] == cand
            && (|resolverAddress| + 3 < CandidateBufferSize ==> cand == resolverAddress + ":53")
            && (parse(cand).None? ==> r.status == -1 && r.tried == [cand])
  {
    CountAtLeastOne(resolverAddress, ':');
    DirectAttemptIff(parse, resolverAddress, DefaultPort);
    CandidateFormat(resolverAddress, DefaultPort);
  }
}
