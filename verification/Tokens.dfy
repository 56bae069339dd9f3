/** Bootstrap tokens of the managed cluster (pkg/controller/machine/create.go,
    checkIfTokenExists and createToken). Times are in seconds. */
module Tokens {
  import opened Objects

  const HALF_HOUR: int := 1800
  const HOUR: int := 3600

  /** The expiration entry of a token secret: missing or empty, not a time, or
      a time. */
  datatype Expiration = Never | Unparsable | At(time: int)

  datatype TokenSecret = TokenSecret(expiration: Expiration, id: string, secret: string)

  function TokenText(id: string, secret: string): string {
    id + "." + secret
  }

  /** A wall clock that does not run backwards. */
  class Clock {
    var now: int

    constructor (start: int)
      ensures now == start
    {
      now := start;
    }

    method Now() returns (t: int)
      modifies this
      ensures t == now && old(now) <= now
    {
      var later: int := *;
      if now < later {
        now := later;
      }
      t := now;
    }
  }

  /** The token does not expire, or not before half an hour after `now`. */
  predicate UsableAt(t: TokenSecret, now: int) {
    match t.expiration
    case Never => true
    case Unparsable => false
    case At(time) => time >= now + HALF_HOUR
  }

  /** Chooses the first token that is usable at the moment it is looked at. A
      token passed over is unusable at the end of the search, and stays so. */
  method CheckIfTokenExists(list: seq<TokenSecret>, clock: Clock)
      returns (token: string, ghost chosen: Option<TokenSecret>)
    modifies clock
    ensures old(clock.now) <= clock.now
    ensures chosen.Some? ==>
              exists i :: 0 <= i < |list| && list[i] == chosen.value && UsableAt(list[i], clock.now)
                          && forall j :: 0 <= j < i ==> !UsableAt(list[j], clock.now)
    ensures chosen.Some? ==> token == TokenText(chosen.value.id, chosen.value.secret) && token != ""
    ensures chosen.None? ==> token == "" && forall j :: 0 <= j < |list| ==> !UsableAt(list[j], clock.now)
  {
    token, chosen := "", None;
    for i := 0 to |list|
      invariant old(clock.now) <= clock.now
      invariant forall j :: 0 <= j < i ==> !UsableAt(list[j], clock.now)
      invariant token == "" && chosen == None
    {
      var secret := list[i];
      if secret.expiration != Never {
        if secret.expiration == Unparsable {
          continue;
        }
        var now := clock.Now();
        if secret.expiration.time < now + HALF_HOUR {
          continue;
        }
      }
      token, chosen := secret.id + "." + secret.secret, Some(secret);
      return;
    }
  }

  /** The secret createBootstrapToken stores. Until half an hour after it was
      built it may be used to join, and not a second longer. */
  method BootstrapTokenSecret(id: string, secret: string, clock: Clock) returns (t: TokenSecret)
    modifies clock
    ensures old(clock.now) <= clock.now
    ensures t.id == id && t.secret == secret
    ensures forall later :: UsableAt(t, later) <==> later <= clock.now + HALF_HOUR
  {
    var now := clock.Now();
    t := TokenSecret(At(now + HOUR), id, secret);
  }

  /** Such a token is one that expires in an hour. */
  lemma HourLeft(t: TokenSecret, now: int)
    requires forall later :: UsableAt(t, later) <==> later <= now + HALF_HOUR
    ensures t.expiration == At(now + HOUR)
  {
    assert UsableAt(t, now + HALF_HOUR) && !UsableAt(t, now + HALF_HOUR + 1);
  }
}
