/** The front-end's record of one worker process (an "MC loader"): its
    identity, its player caps and weight, its live player count and the
    liveness countdown that the heartbeat protocol resets and a recurring tick
    decreases. */
module Server {
  import opened Common

  /** The countdown after one `decreaseTimeout(amount)` from `t`: a negative
      amount is turned positive, the result is floored at zero. */
  function TimeoutAfter(t: int, amount: int): (r: int)
    ensures r >= 0
    ensures r == Max(0, t - Abs(amount))
    ensures r == 0 <==> t <= Abs(amount)
  {
    var delta := if amount > 0 then amount * -1 else amount;
    if t + delta < 0 then 0 else t + delta
  }

  /** The countdown after `k` ticks, each decreasing it by `amount`. */
  function TimeoutAfterTicks(t: int, amount: int, k: nat): int
  {
    if k == 0 then t else TimeoutAfter(TimeoutAfterTicks(t, amount, k - 1), amount)
  }

  /** Liveness: from a non-negative countdown, `k` ticks leave exactly what is
      left of `t` after `k * |amount|`, floored at zero, so the worker turns
      stale on the first tick that uses the countdown up and never before. */
  lemma {:induction false} TicksDecayLinearly(t: int, amount: int, k: nat)
    requires t >= 0
    ensures TimeoutAfterTicks(t, amount, k) == Max(0, t - k * Abs(amount))
    ensures TimeoutAfterTicks(t, amount, k) <= 0 <==> t <= k * Abs(amount)
  {
    if k > 0 {
      TicksDecayLinearly(t, amount, k - 1);
      assert (k - 1) * Abs(amount) + Abs(amount) == k * Abs(amount);
    }
  }

  class MCLoader {
    const uuid: string               // the UUID, by its canonical text form
    const address: Address
    const displayName: Option<string>
    const weight: int
    const softPlayerCap: int
    const hardPlayerCap: int
    var playerCount: int
    var timeout: int

    /** The record invariant: weight is non-negative and the soft cap never
        exceeds the hard cap. */
    ghost predicate Valid()
    {
      weight >= 0 && softPlayerCap <= hardPlayerCap
    }

    /** Clamps the weight up to zero and the soft cap down to the hard cap. */
    constructor (uuid: string, address: Address, displayName: Option<string>,
                 softPlayerCap: int, hardPlayerCap: int, weight: int, timeout: int)
      ensures Valid()
      ensures this.uuid == uuid && this.address == address && this.displayName == displayName
      ensures this.weight == Max(weight, 0)
      ensures this.hardPlayerCap == hardPlayerCap
      ensures this.softPlayerCap == Min(softPlayerCap, hardPlayerCap)
      ensures softPlayerCap <= hardPlayerCap ==> this.softPlayerCap == softPlayerCap
      ensures this.playerCount == 0 && this.timeout == timeout
    {
      this.uuid := uuid;
      this.address := address;
      this.displayName := displayName;
      this.weight := if weight < 0 then 0 else weight;
      this.softPlayerCap := if softPlayerCap > hardPlayerCap then hardPlayerCap else softPlayerCap;
      this.hardPlayerCap := hardPlayerCap;
      this.playerCount := 0;
      this.timeout := timeout;
    }

    /** The countdown has run out. */
    predicate Stale()
      reads this
      ensures timeout >= 0 ==> (Stale() <==> timeout == 0)
      ensures Stale() <==> TimeoutAfter(timeout, 0) == 0
    {
      timeout <= 0
    }

    /** A negative timeout is refused and changes nothing. */
    method SetTimeout(newTimeout: int) returns (outcome: Outcome)
      modifies this`timeout
      ensures newTimeout < 0 ==> outcome == Fail(IndexOutOfBounds) && timeout == old(timeout)
      ensures newTimeout >= 0 ==> outcome == Pass && timeout == newTimeout
      ensures timeout >= 0 || timeout == old(timeout)
    {
      if newTimeout < 0 {
        return Fail(IndexOutOfBounds);
      }
      timeout := newTimeout;
      outcome := Pass;
    }

    /** The display name when there is one, otherwise the UUID's text. */
    function UuidOrDisplayName(): (r: string)
      ensures displayName.Some? ==> r == displayName.value
      ensures displayName.None? ==> r == uuid
    {
      match displayName
      case None => uuid
      case Some(name) => name
    }

    /** Takes `|amount|` off the countdown, never going below zero, and
        returns the new countdown. */
    method DecreaseTimeout(amount: int) returns (r: int)
      modifies this`timeout
      ensures timeout == TimeoutAfter(old(timeout), amount)
      ensures r == timeout && r >= 0
      ensures r <= Max(0, old(timeout))
    {
      var delta := amount;
      if delta > 0 {
        delta := delta * -1;
      }
      timeout := timeout + delta;
      if timeout < 0 {
        timeout := 0;
      }
      r := timeout;
    }

    /** The soft cap has been reached or passed. */
    predicate Full()
      reads this
      ensures Valid() && !Full() ==> playerCount < hardPlayerCap
    {
      playerCount >= softPlayerCap
    }

    /** The hard cap has been reached or passed; a valid record that is
        maxed is also full. */
    predicate Maxed()
      reads this
      ensures Valid() && Maxed() ==> Full()
    {
      playerCount >= hardPlayerCap
    }

    /** Whether a player may join; the two permission checks are inputs. */
    function ValidatePlayer(hardCapBypass: bool, softCapBypass: bool): (r: bool)
      reads this
      ensures hardCapBypass ==> r
      ensures !hardCapBypass && Maxed() ==> !r
      ensures !hardCapBypass && !Maxed() && softCapBypass ==> r
      ensures !hardCapBypass && !softCapBypass ==> (r <==> !Full() && !Maxed())
      ensures Valid() && !hardCapBypass && !softCapBypass ==> (r <==> !Full())
    {
      if hardCapBypass then true
      else if Maxed() then false
      else if softCapBypass then true
      else !Full()
    }

    method SetPlayerCount(n: int)
      modifies this`playerCount
      ensures playerCount == n
    {
      playerCount := n;
    }

    /** One player fewer, but never below zero. */
    method PlayerLeft()
      modifies this`playerCount
      ensures old(playerCount) > 0 ==> playerCount == old(playerCount) - 1
      ensures old(playerCount) <= 0 ==> playerCount == old(playerCount)
      ensures old(playerCount) >= 0 ==> playerCount >= 0
    {
      if playerCount > 0 {
        playerCount := playerCount - 1;
      }
    }

    /** Exactly one player more. */
    method PlayerJoined()
      modifies this`playerCount
      ensures playerCount == old(playerCount) + 1
    {
      playerCount := playerCount + 1;
    }

    /** Two records are equal exactly when their UUIDs are. */
    predicate Equals(other: MCLoader?)
      ensures Equals(other) <==> other != null && other.uuid == uuid
    {
      other == this || (other != null && uuid == other.uuid)
    }
  }

  /** Record equality is an equivalence relation that ignores every field but
      the UUID. */
  lemma EqualsIsEquivalence(a: MCLoader, b: MCLoader, c: MCLoader)
    ensures a.Equals(a)
    ensures a.Equals(b) <==> b.Equals(a)
    ensures a.Equals(b) && b.Equals(c) ==> a.Equals(c)
  {
  }

  /** Builds records, with the source's defaults for every optional setting. */
  class Builder {
    var uuid: Option<string>
    var address: Option<Address>
    var displayName: Option<string>
    var podName: string
    var weight: int
    var softPlayerCap: int
    var hardPlayerCap: int
    var initialTimeout: int

    constructor ()
      ensures uuid == None && address == None && displayName == None && podName == ""
      ensures weight == 0 && softPlayerCap == 20 && hardPlayerCap == 30 && initialTimeout == 15
    {
      uuid, address, displayName, podName := None, None, None, "";
      weight, softPlayerCap, hardPlayerCap := 0, 20, 30;
      initialTimeout := 15;
    }

    /** Refuses a missing UUID, then a missing address; otherwise takes the
        configured server timeout as the initial countdown and builds the
        record. */
    method Build(serverTimeout: int) returns (r: Result<MCLoader>)
      modifies this`initialTimeout
      ensures uuid.None? ==> r == Err(Failure("uuid can't be null!"))
      ensures uuid.Some? && address.None? ==> r == Err(Failure("address can't be null!"))
      ensures uuid.Some? && address.Some? ==>
        && r.Ok? && fresh(r.value) && r.value.Valid()
        && r.value.uuid == uuid.value && r.value.address == address.value
        && r.value.displayName == displayName
        && r.value.weight == Max(weight, 0)
        && r.value.softPlayerCap == Min(softPlayerCap, hardPlayerCap)
        && r.value.hardPlayerCap == hardPlayerCap
        && r.value.playerCount == 0 && r.value.timeout == serverTimeout
      ensures uuid.Some? && address.Some? ==> initialTimeout == serverTimeout
      ensures uuid.None? || address.None? ==> initialTimeout == old(initialTimeout)
    {
      if uuid.None? {
        return Err(Failure("uuid can't be null!"));
      }
      if address.None? {
        return Err(Failure("address can't be null!"));
      }
      initialTimeout := serverTimeout;
      var loader := new MCLoader(uuid.value, address.value, displayName, softPlayerCap, hardPlayerCap, weight, initialTimeout);
      r := Ok(loader);
    }
  }
}
