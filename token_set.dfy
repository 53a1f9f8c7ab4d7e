/**
 * The credential holder of src/token-set.js.
 *
 * A `TokenSet` keeps the fields of one token response and the clock reading of
 * the moment it was (re)filled.  Its expiry checks compare a lifetime value with
 * the elapsed clock time exactly as the source writes it: the elapsed
 * milliseconds are multiplied by 1000 before being subtracted from the value.
 * The clock is an explicit argument `now` (milliseconds).
 */
module Tokens {
  import opened Wrappers

  /** The fields of a token response that a TokenSet copies; an absent one is `undefined`. */
  datatype TokenValues = TokenValues(
    accessToken: Option<string>,
    refreshToken: Option<string>,
    expiresIn: Option<int>,
    refreshExpiresIn: Option<int>)

  /**
   * `checkExpiration`'s formula: `Number(value) - (now - timestamp) * 1000 > 0`.
   * An absent value becomes NaN, and every comparison with NaN is false.
   */
  predicate Live(value: Option<int>, timestamp: int, now: int) {
    value.Some? && value.value - (now - timestamp) * 1000 > 0
  }

  /** The last clock reading at which a value `v` stored at `timestamp` still counts as live. */
  function LastLiveInstant(timestamp: int, v: int): int {
    timestamp + (v - 1) / 1000
  }

  /** The formula holds exactly up to and including `LastLiveInstant`. */
  lemma LiveUntil(value: Option<int>, timestamp: int, now: int)
    ensures Live(value, timestamp, now) <==> value.Some? && now <= LastLiveInstant(timestamp, value.value)
  {
  }

  /** At the instant of (re)filling, a value is live exactly when it is present and positive. */
  lemma LiveAtIssue(value: Option<int>, timestamp: int)
    ensures Live(value, timestamp, timestamp) <==> value.Some? && value.value > 0
  {
  }

  /** With a clock that does not go back, a value once dead stays dead. */
  lemma DeadStaysDead(value: Option<int>, timestamp: int, now: int, later: int)
    requires now <= later && !Live(value, timestamp, now)
    ensures !Live(value, timestamp, later)
  {
  }

  /**
   * A lifetime of 300 (the seconds an OAuth server means) is live at the instant of
   * issue and dead one millisecond later: the formula reads it as 0.3 milliseconds.
   */
  lemma LifetimeReadAsThousandths(timestamp: int)
    ensures Live(Some(300), timestamp, timestamp)
    ensures !Live(Some(300), timestamp, timestamp + 1)
    ensures LastLiveInstant(timestamp, 300) == timestamp
  {
  }

  class TokenSet {
    var timestamp: int
    var accessToken: Option<string>
    var refreshToken: Option<string>
    var expiresIn: Option<int>
    var refreshExpiresIn: Option<int>

    function Values(): TokenValues
      reads this
    {
      TokenValues(accessToken, refreshToken, expiresIn, refreshExpiresIn)
    }

    /** `new TokenSet(values)`: exactly one `refresh(values)` at clock reading `now`. */
    constructor (values: TokenValues, now: int)
      ensures timestamp == now && Values() == values
    {
      new;
      Refresh(values, now);
    }

    /** `refresh(values)`: the timestamp and all four credential fields are overwritten. */
    method Refresh(values: TokenValues, now: int)
      modifies this
      ensures timestamp == now && Values() == values
    {
      timestamp := now;
      accessToken := values.accessToken;
      refreshToken := values.refreshToken;
      expiresIn := values.expiresIn;
      refreshExpiresIn := values.refreshExpiresIn;
    }

    /** `checkExpiration(value)` at clock reading `now`. */
    function CheckExpiration(value: Option<int>, now: int): (r: bool)
      reads this
      ensures r <==> value.Some? && now <= LastLiveInstant(timestamp, value.value)
    {
      LiveUntil(value, timestamp, now);
      Live(value, timestamp, now)
    }

    /** The `isExpired` getter. */
    function IsExpired(now: int): (r: bool)
      reads this
      ensures r <==> expiresIn.None? || LastLiveInstant(timestamp, expiresIn.value) < now
    {
      !CheckExpiration(expiresIn, now)
    }

    /** The `isRefreshExpired` getter. */
    function IsRefreshExpired(now: int): (r: bool)
      reads this
      ensures r <==> refreshExpiresIn.None? || LastLiveInstant(timestamp, refreshExpiresIn.value) < now
    {
      !CheckExpiration(refreshExpiresIn, now)
    }
  }
}
