/**
 Rate-limit specifications `"maxRequests:intervalSeconds"` and the limiter
 records the scheduler builds from them (Region.prototype._getLimits and the
 arguments passed to the rolling rate limiter).
 */
module Limits {
  import opened Js

  /** The parsed form of a limit string; either part may be NaN. */
  datatype Limits = Limits(maxRequests: Num, interval: Num)

  /** One rate-limit bucket in the shared store: its key namespace and its window.
      The sliding-window accounting behind it is an external oracle. */
  datatype Limiter = Limiter(namespace: string, limits: Limits)

  /** `_getLimits`: the first `:`-separated field is the request budget, the
      second the window in seconds, turned into milliseconds. */
  function GetLimits(limit: string): (r: Limits)
    ensures ':' !in limit ==> r.interval == NaN
    ensures r.interval.Int? ==> r.interval.v % 1000 == 0
  {
    var parts := Split(limit, ":");
    assert ':' !in limit ==> |parts| == 1 by {
      if ':' !in limit { SplitWhole(limit, ':'); }
    }
    var interval := if |parts| > 1 then Times(ParseInt(parts[1]), 1000) else NaN;
    assert interval.Int? ==> interval.v % 1000 == 0 by {
      if interval.Int? { WholeSeconds(ParseInt(parts[1]).v); }
    }
    Limits(ParseInt(parts[0]), interval)
  }

  /** A window of whole seconds is a multiple of 1000 ms. */
  lemma WholeSeconds(x: int)
    ensures (x * 1000) % 1000 == 0
  {
  }

  /** `"m:s"` on decimal naturals gives `m` requests per `s * 1000` milliseconds;
      text after the seconds that does not continue the number (such as a second
      `,m':s'` pair of a server header) is ignored. */
  lemma GetLimitsOfDecimals(m: nat, s: nat, rest: string)
    requires rest == [] || (!IsDecimalDigit(rest[0]) && (s != 0 || (rest[0] != 'x' && rest[0] != 'X')))
    ensures GetLimits(NatToString(m) + ":" + NatToString(s) + rest) == Limits(Int(m), Int(s * 1000))
  {
    var ms, ss := NatToString(m), NatToString(s);
    assert ':' !in ms by {
      forall i | 0 <= i < |ms| ensures ms[i] != ':' { assert IsDecimalDigit(ms[i]); }
    }
    assert ':' !in ss by {
      forall i | 0 <= i < |ss| ensures ss[i] != ':' { assert IsDecimalDigit(ss[i]); }
    }
    SplitLimit(ms, ss, rest);
    var first := Split(rest, ":")[0];
    SplitFirstIsPrefix(rest, ":");
    assert first == [] || (!IsDecimalDigit(first[0]) && (s != 0 || (first[0] != 'x' && first[0] != 'X'))) by {
      if first != [] { assert first[0] == rest[0]; }
    }
    ParseIntOfNat(m, []);
    assert ms + [] == ms;
    ParseIntOfNat(s, first);
  }

  /** The fields of `a:b...` when neither `a` nor `b` holds a colon. */
  lemma SplitLimit(a: string, b: string, rest: string)
    requires ':' !in a && ':' !in b
    ensures var parts := Split(a + ":" + b + rest, ":");
      |parts| > 1 && parts[0] == a && parts[1] == b + Split(rest, ":")[0]
  {
    assert a + ":" + b + rest == a + [':'] + (b + rest);
    SplitAt(a, b + rest, ':');
    SplitPrefix(b, rest, ':');
  }

  /** A limit string without `:` has no interval: the window is NaN. */
  lemma GetLimitsWithoutColon(limit: string)
    requires ':' !in limit
    ensures GetLimits(limit).interval == NaN
    ensures GetLimits(limit).maxRequests == ParseInt(limit)
  {
    SplitWhole(limit, ':');
  }
}
