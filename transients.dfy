/**
 * WordPress transients as the plugin uses them: named values with an expiry
 * time, read through `get_transient` (an expired entry reads as absent) and
 * written through `set_transient`; and the administrator's bulk delete of the
 * plugin's entries, which the source writes as an SQL `LIKE` over option names.
 */
module Transients {
  import opened Wrappers

  const HourInSeconds: nat := 3600

  /** One transient: its value and the time (in seconds) after which it is expired. */
  datatype Transient = Transient(value: string, expiresAt: int)

  /** All transients of the site, by name. */
  type Store = map<string, Transient>

  /** `get_transient(name)` at time `now`: the value, unless the entry is missing or expired. */
  function GetTransient(store: Store, name: string, now: int): (r: Option<string>)
    ensures r.Some? <==> name in store && now <= store[name].expiresAt
    ensures r.Some? ==> r.value == store[name].value
  {
    if name in store && now <= store[name].expiresAt then Some(store[name].value) else None
  }

  /** `set_transient(name, value, ttl)` at time `now`: overwrites any earlier entry of that name. */
  function SetTransient(store: Store, name: string, value: string, ttl: nat, now: int): (r: Store)
    ensures name in r && r[name] == Transient(value, now + ttl)
    ensures forall other :: other != name ==>
      (other in r <==> other in store) && (other in store ==> r[other] == store[other])
  {
    store[name := Transient(value, now + ttl)]
  }

  /** A stored value is read back unchanged until its time to live has passed. */
  lemma GetAfterSet(store: Store, name: string, value: string, ttl: nat, setAt: int, readAt: int)
    requires setAt <= readAt <= setAt + ttl
    ensures GetTransient(SetTransient(store, name, value, ttl, setAt), name, readAt) == Some(value)
  {
  }

  /** Once its time to live has passed, a stored value reads as absent, though still stored. */
  lemma ExpiredIsMiss(store: Store, name: string, value: string, ttl: nat, setAt: int, readAt: int)
    requires readAt > setAt + ttl
    ensures name in SetTransient(store, name, value, ttl, setAt)
    ensures GetTransient(SetTransient(store, name, value, ttl, setAt), name, readAt) == None
  {
  }

  /** Storing under one name does not change what any other name reads. */
  lemma SetLeavesOthers(store: Store, name: string, value: string, ttl: nat, setAt: int, other: string, readAt: int)
    requires other != name
    ensures GetTransient(SetTransient(store, name, value, ttl, setAt), other, readAt)
         == GetTransient(store, other, readAt)
  {
  }

  predicate HasPrefix(s: string, prefix: string) {
    |prefix| <= |s| && s[..|prefix|] == prefix
  }

  /**
   * Deletes every transient whose name starts with the literal `prefix` (the
   * value and, in the options table, its timeout row); keeps every other entry.
   */
  function DeleteByPrefix(store: Store, prefix: string): (r: Store)
    ensures forall name :: name in r ==> !HasPrefix(name, prefix)
    ensures forall name :: name in store && !HasPrefix(name, prefix) ==> name in r && r[name] == store[name]
    ensures r.Keys <= store.Keys
  {
    map name | name in store && !HasPrefix(name, prefix) :: store[name]
  }

  // ---------------------------------------------------------------------
  // The delete as written: SQL LIKE over option names.

  /**
   * SQL `LIKE` for a pattern without escapes: `%` matches any run of
   * characters and `_` exactly one character; every other character matches
   * itself (binary collation).
   */
  predicate Like(s: string, pattern: string)
    decreases |s| + |pattern|
  {
    if pattern == [] then s == []
    else if pattern[0] == '%' then Like(s, pattern[1..]) || (s != [] && Like(s[1..], pattern))
    else s != [] && (pattern[0] == '_' || pattern[0] == s[0]) && Like(s[1..], pattern[1..])
  }

  const ValueRowPrefix: string := "_transient_"
  const TimeoutRowPrefix: string := "_transient_timeout_"

  /** The options-table row that holds the value of transient `name`. */
  function OptionName(name: string): string {
    ValueRowPrefix + name
  }

  /** The options-table row that holds the expiry time of transient `name`. */
  function TimeoutOptionName(name: string): string {
    TimeoutRowPrefix + name
  }

  /** The pattern of the cache clear's first query, `'_transient_ap_conversion_%'`. */
  const ClearPattern: string := ValueRowPrefix + "ap_conversion_%"
  /** The pattern of the cache clear's second query, `'_transient_timeout_ap_conversion_%'`. */
  const TimeoutClearPattern: string := TimeoutRowPrefix + "ap_conversion_%"

  /**
   * Whether the cache clear as written deletes the value row of transient
   * `name`: by the first query, or by the second when the name itself starts
   * like `timeout_ap_conversion_`.
   */
  predicate ClearedAsWritten(name: string) {
    Like(OptionName(name), ClearPattern) || Like(OptionName(name), TimeoutClearPattern)
  }

  /**
   * The delete of the plugin's cache clear as written: every transient whose
   * value row either query matches goes. A transient whose value row is gone
   * reads as absent whether or not its timeout row survives, and a timeout
   * row is only ever matched together with its value row
   * (`TimeoutRowFollowsValueRow`), so for reads one store entry stands for
   * both rows. It does not for a later write: the timeout row of a name
   * starting with `timeout_ap_conversion_` survives, and a later
   * `set_transient` of that name keeps the stale expiry.
   */
  function DeleteAsWritten(store: Store): (r: Store)
    ensures forall name :: name in r <==> name in store && !ClearedAsWritten(name)
    ensures forall name :: name in r ==> r[name] == store[name]
  {
    map name | name in store && !ClearedAsWritten(name) :: store[name]
  }

  /**
   * A transient's timeout row matches the second query's pattern exactly when
   * its value row matches the first's, and never matches the first's.
   */
  lemma TimeoutRowFollowsValueRow(name: string)
    ensures Like(TimeoutOptionName(name), TimeoutClearPattern) <==> Like(OptionName(name), ClearPattern)
    ensures !Like(TimeoutOptionName(name), ClearPattern)
  {
    var rest := "ap_conversion_%";
    LikeLiteralPrefix(TimeoutRowPrefix, TimeoutRowPrefix, name, rest);
    LikeLiteralPrefix(ValueRowPrefix, ValueRowPrefix, name, rest);
    var t := "timeout_" + name;
    assert TimeoutOptionName(name) == ValueRowPrefix + t;
    LikeLiteralPrefix(ValueRowPrefix, ValueRowPrefix, t, rest);
    assert t[0] == 't' && rest[0] == 'a';
  }

  /**
   * The second query deletes a transient the intended delete keeps: the value
   * row of `timeout_ap_conversion_1` matches its pattern without any wildcard.
   */
  lemma TimeoutNamedTransientIsCleared()
    ensures !HasPrefix("timeout_ap_conversion_1", "ap_conversion_")
    ensures !Like(OptionName("timeout_ap_conversion_1"), ClearPattern)
    ensures Like(OptionName("timeout_ap_conversion_1"), TimeoutClearPattern)
  {
    assert "timeout_ap_conversion_1"[0] != "ap_conversion_"[0];
    assert OptionName("timeout_ap_conversion_1") == TimeoutOptionName("ap_conversion_1");
    TimeoutRowFollowsValueRow("ap_conversion_1");
    PrefixNameMatchesPattern("ap_conversion_1");
  }

  /** Matching a literal prefix (where `_` matches any character) consumes it. */
  lemma {:induction false} LikeLiteralPrefix(u: string, p: string, s: string, q: string)
    requires |u| == |p| && '%' !in p
    requires forall i :: 0 <= i < |p| ==> p[i] == '_' || p[i] == u[i]
    ensures Like(u + s, p + q) <==> Like(s, q)
  {
    if p == [] {
      assert u + s == s && p + q == q;
    } else {
      assert (u + s)[0] == u[0] && (u + s)[1..] == u[1..] + s;
      assert (p + q)[0] == p[0] && (p + q)[1..] == p[1..] + q;
      LikeLiteralPrefix(u[1..], p[1..], s, q);
    }
  }

  /** The delete as written removes every transient the literal-prefix delete removes. */
  lemma AsWrittenDeletesAtLeastPrefix(store: Store)
    ensures DeleteAsWritten(store).Keys <= DeleteByPrefix(store, "ap_conversion_").Keys
  {
    forall name | name in DeleteAsWritten(store)
      ensures name in DeleteByPrefix(store, "ap_conversion_")
    {
      if HasPrefix(name, "ap_conversion_") {
        PrefixNameMatchesPattern(name);
      }
    }
  }

  /** `%` matches every string. */
  lemma {:induction false} PercentMatchesAll(s: string)
    ensures Like(s, "%")
  {
    if s != [] {
      PercentMatchesAll(s[1..]);
    }
  }

  /** Every transient the intended delete removes, the delete as written removes too. */
  lemma PrefixNameMatchesPattern(name: string)
    requires HasPrefix(name, "ap_conversion_")
    ensures Like(OptionName(name), ClearPattern)
  {
    var option := OptionName(name);
    assert HasPrefix(option, "_transient_ap_conversion_");
    var p := "_transient_ap_conversion_";
    assert ClearPattern == p + "%";
    assert forall i :: 0 <= i < |p| ==> p[i] == option[i];
    LikeWildcardPrefix(option, p);
  }

  /**
   * The delete as written goes further than the plugin's own entries: `_` is
   * a wildcard, so a transient named "ap-conversion-7" is deleted though it
   * does not start with "ap_conversion_".
   */
  lemma LikeOvermatches()
    ensures !HasPrefix("ap-conversion-7", "ap_conversion_")
    ensures Like(OptionName("ap-conversion-7"), ClearPattern)
  {
    assert "ap-conversion-7"[2] != "ap_conversion_"[2];
    var p := "_transient_ap_conversion_";
    assert ClearPattern == p + "%";
    HyphenatedNameMatches(OptionName("ap-conversion-7"), p);
  }

  lemma HyphenatedNameMatches(option: string, pattern: string)
    requires option == "_transient_ap-conversion-7" && pattern == "_transient_ap_conversion_"
    ensures Like(option, pattern + "%")
  {
    assert forall i :: 0 <= i < |pattern| ==> pattern[i] == '_' || pattern[i] == option[i];
    LikeWildcardPrefix(option, pattern);
  }

  /** A pattern of literal characters and `_` followed by `%` matches every string that starts with matching characters. */
  lemma {:induction false} LikeWildcardPrefix(s: string, pattern: string)
    requires '%' !in pattern && |pattern| <= |s|
    requires forall i :: 0 <= i < |pattern| ==> pattern[i] == '_' || pattern[i] == s[i]
    ensures Like(s, pattern + "%")
  {
    if pattern == [] {
      assert pattern + "%" == "%";
      PercentMatchesAll(s);
    } else {
      assert (pattern + "%")[1..] == pattern[1..] + "%";
      LikeWildcardPrefix(s[1..], pattern[1..]);
    }
  }
}
