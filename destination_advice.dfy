/**
 * The client-side advice fired once a request has been sent: it records the
 * resolved destination of the call on the active span.
 */
module RemoteEjbClientDestinationAdvice {
  import opened Wrappers
  import opened JavaInt
  import opened TracingApi

  /** The host and port of the invocation's destination URI; port -1 means "no port". */
  datatype Destination = Destination(host: string, port: Int32)

  /**
   * The destination service resource: `host:port` when the port is positive,
   * the host alone otherwise. The host is always a prefix, and for a positive
   * port the text after it is a colon followed by the port's numeral, which
   * has no leading zero.
   */
  function ServiceResource(host: string, port: Int32): (r: string)
    ensures port <= 0 <==> r == host
    ensures |host| <= |r| && r[..|host|] == host
    ensures port > 0 ==> |r| > |host| + 1 && r[|host|] == ':'
                         && AllDigits(r[|host| + 1..]) && ParseDecimal(r[|host| + 1..]) == port as int
                         && r[|host| + 1] != '0'
  {
    if port > 0 then
      var r := host + ":" + IntToString(port);
      assert r[|host| + 1..] == IntToString(port);
      r
    else
      host
  }

  /** Two destinations with positive ports share a service resource only if they are the same. */
  lemma ServiceResourceInjective(host1: string, port1: Int32, host2: string, port2: Int32)
    requires port1 > 0 && port2 > 0
    requires ServiceResource(host1, port1) == ServiceResource(host2, port2)
    ensures host1 == host2 && port1 == port2
  {
  }

  /**
   * `onExitSendRequestInitial`. `current` is what `currentSpan()` returns
   * (the active span or transaction, or a no-op span with an empty id) and
   * `destination` the invocation's destination, None when it is null.
   */
  method OnExitSendRequestInitial(current: Span, destination: Option<Destination>)
    modifies current`destinationAddress, current`destinationPort, current`destinationService
    ensures current.id == "" || destination.None? ==> unchanged(current)
    ensures current.id != "" && destination.Some? ==>
      && current.destinationAddress == Some(destination.value.host)
      && current.destinationPort == Some(destination.value.port)
      && current.destinationService == Some(ServiceResource(destination.value.host, destination.value.port))
  {
    if current.id == "" {
      return;
    }
    if destination.None? {
      return;
    }
    var uri := destination.value;
    current.SetDestinationAddress(uri.host, uri.port);
    if uri.port > 0 {
      current.SetDestinationService(uri.host + ":" + IntToString(uri.port));
    } else {
      current.SetDestinationService(uri.host);
    }
  }
}
