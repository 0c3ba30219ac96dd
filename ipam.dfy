/**
 * The address lookup both AdderNetbox variants make (`get_dia_ip_addrs`): the
 * IPAM library call is a partial function from a (device, interface) query to
 * the address record, and the mask is cut off the returned address by slicing.
 */
module Ipam {

  /** One `ip_addresses.get(device=…, interface=…)` query. */
  datatype Query = Query(device: string, iface: string)

  /**
   * What the library gives for a query: the record's address, no record at
   * all (reading `.address` off it raises AttributeError), or a failed request
   * (RequestError).
   */
  datatype Lookup = Found(address: string) | Absent | RequestFailed

  /** The two DIA interfaces of a WAN router, in the order they are asked for. */
  const Dia1: string := "dia1"
  const Dia2: string := "dia2"

  /** The site's two WAN routers, in the order they are visited. */
  function RouterNames(siteCode: string): seq<string>
  {
    [siteCode + "-wr-1", siteCode + "-wr-2"]
  }

  /**
   * `x[0:-3]`: the address without its last three characters, which is the
   * address without its mask when the mask is "/" and two digits. A string
   * shorter than three characters slices to the empty string.
   */
  function StripMask(x: string): (r: string)
    ensures r <= x
    ensures |r| == if |x| >= 3 then |x| - 3 else 0
  {
    if |x| >= 3 then x[..|x| - 3] else ""
  }

  /** The comprehension over the collected addresses: each one stripped, in order. */
  function StripMasks(masked: seq<string>): (ips: seq<string>)
    ensures |ips| == |masked|
    ensures forall i :: 0 <= i < |masked| ==> ips[i] == StripMask(masked[i])
  {
    seq(|masked|, i requires 0 <= i < |masked| => StripMask(masked[i]))
  }

  /** An address with a two-digit mask comes back without the mask. */
  lemma {:induction false} StripMaskTwoDigitMask(ip: string, d1: char, d2: char)
    ensures StripMask(ip + ['/', d1, d2]) == ip
  {
    var x := ip + ['/', d1, d2];
    assert x[..|x| - 3] == ip;
  }

  /** A one-digit mask is not cut at the slash: "/8" takes the address's last character with it. */
  lemma {:induction false} StripMaskOneDigitMask(ip: string, d: char)
    requires |ip| >= 1
    ensures StripMask(ip + ['/', d]) == ip[..|ip| - 1]
  {
    var x := ip + ['/', d];
    assert x[..|x| - 3] == ip[..|ip| - 1];
  }

  /** A three-digit mask is not cut at the slash either: "/128" leaves the slash behind. */
  lemma {:induction false} StripMaskThreeDigitMask(ip: string, d1: char, d2: char, d3: char)
    ensures StripMask(ip + ['/', d1, d2, d3]) == ip + ['/']
  {
    var x := ip + ['/', d1, d2, d3];
    assert x[..|x| - 3] == ip + ['/'];
  }
}
