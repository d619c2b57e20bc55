/** The session whitelist (src/auth/whitelist.rs): one Redis slot per token type and user,
    holding the one `jti` currently accepted for that pair. */
module Whitelist {
  import opened Types

  predicate IsTokenType(t: string) { t == "access" || t == "refresh" }

  /** The Redis key `"{token_type}_jti:{user_id}"`. */
  function Key(tokenType: string, userId: string): string { tokenType + "_jti:" + userId }

  /** The `redis::RedisError`s the two functions can return. */
  datatype RedisError = TypeError(message: string) | ConnectionError

  const InvalidTokenType := TypeError("Invalid token type")

  /** Whether `jti` is the value stored for the pair: an absent key never matches. */
  predicate Matches(store: map<string, string>, tokenType: string, userId: string, jti: string) {
    Key(tokenType, userId) in store && store[Key(tokenType, userId)] == jti
  }

  /** The Redis server, as far as these keys go. `reachable` parameters say whether the
      connection of one call succeeds. */
  class Registry {
    var store: map<string, string>
    /** Every SET this registry has performed, in order. */
    ghost var writes: seq<(string, string)>

    constructor ()
      ensures store == map[] && writes == []
    {
      store := map[];
      writes := [];
    }

    /** `set_valid_jti`: an unconditional overwrite of the pair's slot. */
    method SetValidJti(userId: string, jti: string, tokenType: string, reachable: bool)
      returns (r: Result<(), RedisError>)
      modifies this
      ensures !IsTokenType(tokenType) ==> r == Err(InvalidTokenType)
      ensures IsTokenType(tokenType) && !reachable ==> r == Err(ConnectionError)
      ensures r.Err? ==> store == old(store) && writes == old(writes)
      ensures IsTokenType(tokenType) && reachable ==>
        && r == Ok(())
        && store == old(store)[Key(tokenType, userId) := jti]
        && writes == old(writes) + [(Key(tokenType, userId), jti)]
    {
      if tokenType != "access" && tokenType != "refresh" {
        return Err(InvalidTokenType);
      }
      if !reachable {
        return Err(ConnectionError);
      }
      store := store[Key(tokenType, userId) := jti];
      writes := writes + [(Key(tokenType, userId), jti)];
      r := Ok(());
    }

    /** `is_jti_valid`: a read of the pair's slot compared with `jti`; the store is left alone. */
    method IsJtiValid(userId: string, jti: string, tokenType: string, reachable: bool)
      returns (r: Result<bool, RedisError>)
      ensures !IsTokenType(tokenType) ==> r == Err(InvalidTokenType)
      ensures IsTokenType(tokenType) && !reachable ==> r == Err(ConnectionError)
      ensures IsTokenType(tokenType) && reachable ==>
        r == Ok(Key(tokenType, userId) in store && store[Key(tokenType, userId)] == jti)
    {
      if tokenType != "access" && tokenType != "refresh" {
        return Err(InvalidTokenType);
      }
      if !reachable {
        return Err(ConnectionError);
      }
      var expected := if Key(tokenType, userId) in store then Some(store[Key(tokenType, userId)]) else None;
      r := Ok(expected == Some(jti));
    }
  }

  /** Keys of different pairs differ: the two type prefixes differ in their first character and
      the user id follows a prefix of fixed length. */
  lemma KeyInjective(t1: string, u1: string, t2: string, u2: string)
    requires IsTokenType(t1) && IsTokenType(t2)
    requires Key(t1, u1) == Key(t2, u2)
    ensures t1 == t2 && u1 == u2
  {
    var k := Key(t1, u1);
    assert k[0] == t1[0] && k[0] == t2[0];
    assert t1 == t2;
    assert u1 == k[|t1| + 5..];
  }

  /** After a write of `jti` for a pair, exactly `jti` matches for that pair. */
  lemma LatestWriteWins(store: map<string, string>, tokenType: string, userId: string, jti: string, other: string)
    ensures Matches(store[Key(tokenType, userId) := jti], tokenType, userId, other) <==> other == jti
  {
  }

  /** A write for one pair never changes the answer for another pair. */
  lemma WriteIsolation(store: map<string, string>, t: string, u: string, jti: string, t': string, u': string, jti': string)
    requires IsTokenType(t) && IsTokenType(t')
    requires t != t' || u != u'
    ensures Matches(store[Key(t, u) := jti], t', u', jti') == Matches(store, t', u', jti')
  {
    if Key(t, u) == Key(t', u') {
      KeyInjective(t, u, t', u');
    }
  }
}
