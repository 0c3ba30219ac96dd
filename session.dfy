/**
 * The client-side token-expiry tracker of both clients (get_auth_header): the
 * header it selects and how the tracked expiry moves as an operation sends
 * requests. Time is in seconds; within one operation the clock reads the
 * same instant.
 */
module Session {
  import opened Api

  /** Thirty minutes, the lifetime the clients assume for an access token. */
  const TokenLifetime: int := 30 * 60

  datatype Tokens = Tokens(access: string, refresh: string)

  /** The header get_auth_header returns when the tracked expiry is `expire` at time `now`. */
  function HeaderAt(t: Tokens, expire: int, now: int): (h: AuthHeader)
    ensures h.access == t.access
    ensures h.AccessAndRefresh? <==> expire < now
    ensures h.AccessAndRefresh? ==> h.refresh == t.refresh
  {
    if expire < now then AccessAndRefresh(t.access, t.refresh) else AccessOnly(t.access)
  }

  /** The tracked expiry after get_auth_header ran at time `now`. */
  function ExpireAfter(expire: int, now: int): (e: int)
    ensures expire < now ==> e == now + TokenLifetime
    ensures now <= expire ==> e == expire
    ensures now <= e
  {
    if expire < now then now + TokenLifetime else expire
  }

  /**
   * The tracked expiry after an operation ran the steps `steps` at time
   * `now`. Every operation of the clients that does anything starts with a
   * request, which runs the tracker; since the clock reads one instant
   * throughout an operation, later requests leave the expiry alone.
   */
  function Advance(steps: seq<Step>, expire: int, now: int): (e: int)
    ensures steps == [] ==> e == expire
    ensures steps != [] ==> now <= e && (now <= expire ==> e == expire)
    ensures steps != [] && expire < now ==> e == now + TokenLifetime
  {
    if steps == [] then expire else ExpireAfter(expire, now)
  }

  /** Advancing over two runs of steps is advancing over the first, then the second. */
  lemma AdvanceAppend(a: seq<Step>, b: seq<Step>, expire: int, now: int)
    ensures Advance(a + b, expire, now) == Advance(b, Advance(a, expire, now), now)
  {
    if a == [] {
      assert a + b == b;
    }
  }
}
