/** client/inflight/inflight.go, latch.go and reads.go: one kind of read, the claims of those
    in flight and the latches of those that failed. Contexts and channels are the flags they
    end in; deadlines are not part of this model. */
module Inflight {
  import opened Options

  datatype Verdict = Answered | Refused | Unreachable | Dead | Abandoned

  /** One key's read in flight; identity is the object. */
  class Claim {
    var owed: bool
    var cancelled: bool
    var ended: bool

    constructor ()
      ensures !owed && !cancelled && !ended
    {
      owed, cancelled, ended := false, false, false;
    }
  }

  /** What a latched key is asked again on. */
  datatype Latches = Latches(refused: set<string>, unreachable: set<string>, dead: set<string>)

  predicate Failed(l: Latches, key: string)
  {
    key in l.refused || key in l.unreachable
  }

  function Settled(l: Latches, key: string, v: Verdict): Latches
  {
    var alive := l.dead - {key};
    match v
    case Abandoned => l
    case Answered => Latches(l.refused - {key}, l.unreachable - {key}, alive)
    case Refused => Latches(l.refused + {key}, l.unreachable - {key}, alive)
    case Dead => Latches(l.refused + {key}, l.unreachable - {key}, alive + {key})
    case Unreachable => Latches(l.refused - {key}, l.unreachable + {key}, alive)
  }

  /** A key is latched one way at most, and dead only as a refusal. */
  ghost predicate Sound(l: Latches)
  {
    l.dead <= l.refused && l.refused !! l.unreachable
  }

  /** The last verdict but Abandoned is what the latches say. */
  lemma VerdictStands(l: Latches, key: string, v: Verdict)
    requires Sound(l)
    ensures var r := Settled(l, key, v);
            && Sound(r)
            && (v == Abandoned ==> r == l)
            && (v != Abandoned ==>
                  && (key in r.refused <==> v == Refused || v == Dead)
                  && (key in r.unreachable <==> v == Unreachable)
                  && (key in r.dead <==> v == Dead))
    ensures forall k :: k != key ==>
              var r := Settled(l, key, v);
              && (k in r.refused <==> k in l.refused) && (k in r.unreachable <==> k in l.unreachable)
              && (k in r.dead <==> k in l.dead)
  {
  }

  /** What is done to the latches: a verdict, the latches a link served cleared, the dead ones
      a namespace named revived, or every outage asked again. */
  datatype Op = Settles(key: string, verdict: Verdict) | Clears(served: string -> bool) | Revives(served: string -> bool) | Backstops

  ghost function After(l: Latches, op: Op): Latches
  {
    match op
    case Settles(key, v) => Settled(l, key, v)
    case Clears(served) =>
      var keys := set k | k in l.refused + l.unreachable && served(k);
      Latches(l.refused - keys, l.unreachable - keys, l.dead - keys)
    case Revives(served) =>
      var keys := set k | k in l.dead && served(k);
      Latches(l.refused - keys, l.unreachable, l.dead - keys)
    case Backstops => l.(unreachable := {})
  }

  ghost function AfterAll(ops: seq<Op>): Latches
  {
    if ops == [] then Latches({}, {}, {}) else After(AfterAll(ops[..|ops| - 1]), ops[|ops| - 1])
  }

  /** The last word on a key: its last verdict but Abandoned, if nothing has cleared it since.
      An answer leaves nothing to say, an outage is forgotten by a backstop, a dead verdict by a
      revival. */
  ghost function LastWord(ops: seq<Op>, key: string): Option<Verdict>
  {
    if ops == [] then None
    else
      var before := LastWord(ops[..|ops| - 1], key);
      match ops[|ops| - 1]
      case Settles(k, v) => if k != key || v == Abandoned then before else if v == Answered then None else Some(v)
      case Clears(served) => if served(key) then None else before
      case Revives(served) => if before == Some(Dead) && served(key) then None else before
      case Backstops => if before == Some(Unreachable) then None else before
  }

  /** Whatever is done and in whatever order, the latches say of each key its last word. */
  lemma {:induction false} LatchesSayLastWord(ops: seq<Op>, key: string)
    ensures var l, word := AfterAll(ops), LastWord(ops, key);
            && Sound(l)
            && (key in l.refused <==> word == Some(Refused) || word == Some(Dead))
            && (key in l.unreachable <==> word == Some(Unreachable))
            && (key in l.dead <==> word == Some(Dead))
  {
    if ops != [] {
      LatchesSayLastWord(ops[..|ops| - 1], key);
    }
  }

  class Reads {
    var claims: map<string, Claim>
    var latches: Latches

    /** Every held claim is live and its own. */
    ghost predicate Valid()
      reads this, claims.Values
    {
      && Sound(latches)
      && (forall k :: k in claims ==> !claims[k].cancelled && !claims[k].ended)
      && (forall j, k :: j in claims && k in claims && claims[j] == claims[k] ==> j == k)
    }

    constructor ()
      ensures Valid() && claims == map[] && latches == Latches({}, {}, {})
    {
      claims, latches := map[], Latches({}, {}, {});
    }

    /** Claims a key for one read. A latched key is neither read nor waited on; a key in
        flight is waited on; a fresh claim is owed nothing. */
    method Join(key: string) returns (c: Claim?, ok: bool)
      requires Valid()
      modifies this`claims
      ensures Valid()
      ensures ok <==> !Failed(latches, key) && key !in old(claims)
      ensures ok ==> c != null && fresh(c) && !c.owed && claims == old(claims)[key := c]
      ensures !ok ==> claims == old(claims) && c == if Failed(latches, key) then null else old(claims)[key]
    {
      if key in latches.refused || key in latches.unreachable {
        return null, false;
      }
      if key in claims {
        return claims[key], false;
      }
      var fresh_ := new Claim();
      claims := claims[key := fresh_];
      return fresh_, true;
    }

    /** A read returned. Only the claim's own hold on the key is dropped, so one cancelled and
        succeeded frees nothing; it is told whether it was owed a re-ask. */
    method Release(key: string, c: Claim) returns (owed: bool)
      requires Valid() && forall k :: k in claims && claims[k] == c ==> k == key
      modifies this`claims, c`cancelled, c`ended
      ensures Valid()
      ensures claims == if key in old(claims) && old(claims)[key] == c then old(claims) - {key} else old(claims)
      ensures owed == c.owed && c.cancelled && c.ended
    {
      if key in claims && claims[key] == c {
        claims := claims - {key};
      }
      c.cancelled := true;
      c.ended := true;
      return c.owed;
    }

    method Settle(key: string, v: Verdict)
      requires Valid()
      modifies this`latches
      ensures Valid() && latches == Settled(old(latches), key, v)
    {
      if v == Abandoned {
        return;
      }
      VerdictStands(latches, key, v);
      latches := latches.(dead := latches.dead - {key});
      match v {
        case Answered =>
          latches := latches.(refused := latches.refused - {key}, unreachable := latches.unreachable - {key});
        case Refused =>
          latches := latches.(unreachable := latches.unreachable - {key}, refused := latches.refused + {key});
        case Dead =>
          latches := latches.(unreachable := latches.unreachable - {key}, refused := latches.refused + {key});
          latches := latches.(dead := latches.dead + {key});
        case Unreachable =>
          latches := latches.(refused := latches.refused - {key}, unreachable := latches.unreachable + {key});
        case Abandoned =>
      }
    }

    /** The key changed: its latches are cleared and a read in flight owes a re-ask. */
    method Change(key: string)
      requires Valid()
      modifies this`latches, (if key in claims then {claims[key]} else {})`owed
      ensures Valid() && !Failed(latches, key) && latches == Settled(old(latches), key, Answered)
      ensures key in claims ==> claims[key].owed
    {
      if key in claims {
        claims[key].owed := true;
      }
      Settle(key, Answered);
    }

    /** Every outage is asked again; a refusal is not. */
    method Backstop() returns (keys: set<string>)
      requires Valid()
      modifies this`latches
      ensures Valid() && keys == old(latches).unreachable
      ensures latches == After(old(latches), Backstops)
    {
      keys := latches.unreachable;
      latches := latches.(unreachable := {});
    }

    /** Every latch the caller's link names is cleared, and its keys named. */
    method ClearIf(served: string -> bool) returns (keys: set<string>)
      requires Valid()
      modifies this`latches
      ensures Valid()
      ensures forall k :: k in keys <==> served(k) && Failed(old(latches), k)
      ensures latches == After(old(latches), Clears(served))
    {
      keys := set k | k in latches.refused + latches.unreachable && served(k);
      latches := Latches(latches.refused - keys, latches.unreachable - keys, latches.dead - keys);
    }

    /** Only the dead verdicts the caller names are cleared. */
    method ReviveIf(served: string -> bool) returns (keys: set<string>)
      requires Valid()
      modifies this`latches
      ensures Valid()
      ensures forall k :: k in keys <==> served(k) && k in old(latches).dead
      ensures latches == After(old(latches), Revives(served))
    {
      keys := set k | k in latches.dead && served(k);
      latches := Latches(latches.refused - keys, latches.unreachable, latches.dead - keys);
    }

    /** Every claim the caller's link names is dropped and cancelled; none of the others is. */
    method CancelIf(served: string -> bool) returns (keys: set<string>)
      requires Valid()
      modifies this`claims, claims.Values`cancelled
      ensures Valid()
      ensures forall k :: k in keys <==> served(k) && k in old(claims)
      ensures claims == old(claims) - keys
      ensures forall k :: k in old(claims) ==> (old(claims)[k].cancelled <==> served(k))
    {
      hide Sound;
      keys := {};
      ghost var was := claims;
      var todo := claims.Keys;
      while todo != {}
        invariant todo <= was.Keys && claims == was
        invariant forall k :: k in keys <==> k in was && k !in todo && served(k)
        invariant forall k :: k in was ==> (was[k].cancelled <==> k in keys) && !was[k].ended
        decreases |todo|
      {
        var k :| k in todo;
        todo := todo - {k};
        if served(k) {
          keys := keys + {k};
          claims[k].cancelled := true;
        }
      }
      claims := claims - keys;
    }

    method Reset()
      requires Valid()
      modifies this`latches
      ensures Valid() && latches == Latches({}, {}, {})
    {
      latches := Latches({}, {}, {});
    }
  }

  /** A read cancelled with its link and asked again: when the first one returns, late, the
      second still holds the key, still live, and is owed only what it was told itself. */
  method CancelledReadReturnsLate(r: Reads, key: string, c: Claim)
    returns (second: Claim?)
    requires r.Valid() && key in r.claims && r.claims[key] == c && !Failed(r.latches, key)
    modifies r`claims, r.claims.Values`cancelled, c`cancelled, c`ended
    ensures r.Valid() && second != null && key in r.claims && r.claims[key] == second
    ensures second != c && !second.cancelled && !second.ended && !second.owed
  {
    var keys := r.CancelIf(k => k == key);
    assert key !in r.claims;
    var ok;
    second, ok := r.Join(key);
    assert forall k :: k in r.claims && r.claims[k] == c ==> k == key;
    var owed := r.Release(key, c);
  }
}
