/** api/rpc/address.go: a declared pattern against a whole address. */
module Address {
  import opened Text

  const STAR := '*'

  /** How many stars a pattern holds. */
  function Stars(pattern: string): nat
  {
    if pattern == "" then 0
    else (if pattern[0] == STAR then 1 else 0) + Stars(pattern[1..])
  }

  /** The address a pattern spells once its stars are replaced, in order, by the given runs. */
  function Fill(pattern: string, runs: seq<string>): string
    requires |runs| == Stars(pattern)
  {
    if pattern == "" then ""
    else if pattern[0] == STAR then runs[0] + Fill(pattern[1..], runs[1..])
    else [pattern[0]] + Fill(pattern[1..], runs)
  }

  /** The rule the pattern language promises: some run of characters for each star spells the address. */
  ghost predicate Matches(pattern: string, address: string)
  {
    exists runs: seq<string> :: |runs| == Stars(pattern) && Fill(pattern, runs) == address
  }

  /** A free run, then each literal part with a free run before it, the last part ending the text. */
  ghost predicate Accepts(parts: seq<string>, text: string)
    requires |parts| >= 1
    decreases |parts|
  {
    if |parts| == 1 then HasSuffix(text, parts[0])
    else exists k: nat :: OccursAt(parts[0], text, k) && Accepts(parts[1..], text[k + |parts[0]|..])
  }

  predicate OccursAt(part: string, text: string, k: nat)
  {
    k + |part| <= |text| && text[k..k + |part|] == part
  }

  predicate HasPrefix(text: string, part: string)
  {
    |part| <= |text| && text[..|part|] == part
  }

  predicate HasSuffix(text: string, part: string)
  {
    |part| <= |text| && text[|text| - |part|..] == part
  }

  /** A longer free run in front never loses a match. */
  lemma {:induction false} AcceptsAfterMore(parts: seq<string>, lead: string, text: string)
    requires |parts| >= 1
    requires Accepts(parts, text)
    ensures Accepts(parts, lead + text)
  {
    if |parts| == 1 {
      assert (lead + text)[|lead + text| - |parts[0]|..] == text[|text| - |parts[0]|..];
    } else {
      var k: nat :| OccursAt(parts[0], text, k) && Accepts(parts[1..], text[k + |parts[0]|..]);
      var j := |lead| + k;
      assert (lead + text)[j..j + |parts[0]|] == text[k..k + |parts[0]|];
      assert (lead + text)[j + |parts[0]|..] == text[k + |parts[0]|..];
      assert OccursAt(parts[0], lead + text, j);
    }
  }

  /** Taking the leftmost occurrence of a part loses no match: whatever a later one
      leaves for the parts after it, the leftmost leaves at least as much. */
  lemma LeftmostSuffices(parts: seq<string>, text: string, i: nat)
    requires |parts| >= 2
    requires OccursAt(parts[0], text, i)
    requires forall j: nat :: j < i ==> !OccursAt(parts[0], text, j)
    ensures Accepts(parts, text) <==> Accepts(parts[1..], text[i + |parts[0]|..])
  {
    var n := |parts[0]|;
    if Accepts(parts, text) {
      var k: nat :| OccursAt(parts[0], text, k) && Accepts(parts[1..], text[k + n..]);
      assert i <= k;
      AcceptsAfterMore(parts[1..], text[i + n..k + n], text[k + n..]);
      assert text[i + n..k + n] + text[k + n..] == text[i + n..];
    }
  }

  /** What Accepts says of the parts after the first, Fill says of the pattern they were cut from. */
  lemma {:induction false} MatchesByParts(pattern: string, address: string)
    ensures var parts := Split(pattern, STAR);
            Matches(pattern, address) <==>
            if |parts| == 1 then pattern == address
            else HasPrefix(address, parts[0]) && Accepts(parts[1..], address[|parts[0]|..])
    decreases |pattern|, 2
  {
    var parts := Split(pattern, STAR);
    if pattern == "" {
      if address == "" {
        var none: seq<string> := [];
        assert |none| == Stars(pattern) && Fill(pattern, none) == address;
      }
    } else if pattern[0] == STAR {
      assert parts == [""] + Split(pattern[1..], STAR) && parts[1..] == Split(pattern[1..], STAR);
      assert address[0..] == address;
      StarFirst(pattern, address);
    } else {
      var rest := Split(pattern[1..], STAR);
      assert parts[1..] == rest[1..];
      LiteralFirst(pattern, address);
      if |address| > 0 {
        MatchesByParts(pattern[1..], address[1..]);
        if |address| >= |parts[0]| {
          assert address[..|parts[0]|] == [address[0]] + address[1..][..|rest[0]|];
          assert address[|parts[0]|..] == address[1..][|rest[0]|..];
          if HasPrefix(address[1..], rest[0]) && address[0] == pattern[0] { assert HasPrefix(address, parts[0]); }
          if HasPrefix(address, parts[0]) {
            assert address[0] == parts[0][0] == pattern[0];
            assert address[1..][..|rest[0]|] == parts[0][1..] == rest[0];
          }
        }
        if |rest| == 1 {
          JoinOfSplit(pattern, STAR);
          JoinOfSplit(pattern[1..], STAR);
          assert pattern == [pattern[0]] + pattern[1..];
          assert address == [address[0]] + address[1..];
        }
      }
    }
  }

  lemma LiteralFirst(pattern: string, address: string)
    requires pattern != "" && pattern[0] != STAR
    ensures Matches(pattern, address) <==>
            address != "" && address[0] == pattern[0] && Matches(pattern[1..], address[1..])
  {
    if Matches(pattern, address) {
      var runs: seq<string> :| |runs| == Stars(pattern) && Fill(pattern, runs) == address;
      assert Fill(pattern[1..], runs) == address[1..];
    }
    if address != "" && address[0] == pattern[0] && Matches(pattern[1..], address[1..]) {
      var runs: seq<string> :| |runs| == Stars(pattern[1..]) && Fill(pattern[1..], runs) == address[1..];
      assert Fill(pattern, runs) == [address[0]] + address[1..] == address;
    }
  }

  /** The pattern spells what the address holds from k on. */
  ghost predicate MatchesFrom(pattern: string, address: string, k: nat)
  {
    k <= |address| && Matches(pattern, address[k..])
  }

  /** A leading star: some tail of the address is what the rest of the pattern spells. */
  lemma StarSplits(pattern: string, address: string)
    requires pattern != "" && pattern[0] == STAR
    ensures Matches(pattern, address) <==> exists k: nat :: MatchesFrom(pattern[1..], address, k)
  {
    if Matches(pattern, address) {
      var runs: seq<string> :| |runs| == Stars(pattern) && Fill(pattern, runs) == address;
      var k := |runs[0]|;
      assert address[k..] == Fill(pattern[1..], runs[1..]);
      assert MatchesFrom(pattern[1..], address, k);
    }
    if k: nat :| MatchesFrom(pattern[1..], address, k) {
      var runs: seq<string> :| |runs| == Stars(pattern[1..]) && Fill(pattern[1..], runs) == address[k..];
      var all := [address[..k]] + runs;
      assert all[1..] == runs;
      assert Fill(pattern, all) == address[..k] + address[k..] == address;
    }
  }

  /** MatchesByParts at one tail of the address, said with offsets into the whole. */
  lemma {:induction false} TailByParts(pattern: string, address: string, k: nat)
    requires k <= |address|
    ensures var parts := Split(pattern, STAR);
            MatchesFrom(pattern, address, k) <==>
            if |parts| == 1 then pattern == address[k..]
            else OccursAt(parts[0], address, k) && Accepts(parts[1..], address[k + |parts[0]|..])
    decreases |pattern|, 3
  {
    var n := |Split(pattern, STAR)[0]|;
    MatchesByParts(pattern, address[k..]);
    if k + n <= |address| {
      assert address[k..][..n] == address[k..k + n];
      assert address[k..][n..] == address[k + n..];
    }
  }

  /** Whatever a free run leaves of the address, the pattern behind it reads by its parts. */
  lemma {:induction false} SomeTailByParts(pattern: string, address: string)
    ensures (exists k: nat :: MatchesFrom(pattern, address, k)) <==> Accepts(Split(pattern, STAR), address)
    decreases |pattern|, 5
  {
    if k: nat :| MatchesFrom(pattern, address, k) {
      AcceptsTail(pattern, address, k);
    }
    if Accepts(Split(pattern, STAR), address) {
      var k := AcceptedTail(pattern, address);
    }
  }

  lemma {:induction false} AcceptsTail(pattern: string, address: string, k: nat)
    requires MatchesFrom(pattern, address, k)
    ensures Accepts(Split(pattern, STAR), address)
    decreases |pattern|, 4
  {
    JoinOfSplit(pattern, STAR);
    TailByParts(pattern, address, k);
  }

  lemma {:induction false} AcceptedTail(pattern: string, address: string) returns (k: nat)
    requires Accepts(Split(pattern, STAR), address)
    ensures MatchesFrom(pattern, address, k)
    decreases |pattern|, 4
  {
    var parts := Split(pattern, STAR);
    if |parts| == 1 {
      JoinOfSplit(pattern, STAR);
      k := |address| - |pattern|;
      assert pattern == address[k..];
      TailByParts(pattern, address, k);
    } else {
      k :| OccursAt(parts[0], address, k) && Accepts(parts[1..], address[k + |parts[0]|..]);
      TailByParts(pattern, address, k);
    }
  }

  lemma {:induction false} StarFirst(pattern: string, address: string)
    requires pattern != "" && pattern[0] == STAR
    ensures Matches(pattern, address) <==> Accepts(Split(pattern[1..], STAR), address)
    decreases |pattern|, 0
  {
    StarSplits(pattern, address);
    SomeTailByParts(pattern[1..], address);
  }

  /** The leftmost place part occurs in text, if anywhere. */
  method Index(text: string, part: string) returns (i: int)
    ensures i < 0 ==> forall k: nat :: !OccursAt(part, text, k)
    ensures i >= 0 ==> OccursAt(part, text, i) && forall j: nat :: j < i ==> !OccursAt(part, text, j)
  {
    i := 0;
    while i + |part| <= |text|
      invariant 0 <= i
      invariant forall j: nat :: j < i ==> !OccursAt(part, text, j)
    {
      if text[i..i + |part|] == part {
        return;
      }
      i := i + 1;
    }
    i := -1;
  }

  /** The greedy leftmost scan answers exactly the pattern rule. */
  method MatchAddress(pattern: string, address: string) returns (ok: bool)
    ensures ok <==> Matches(pattern, address)
  {
    var parts := Split(pattern, STAR);
    MatchesByParts(pattern, address);
    if |parts| == 1 {
      return pattern == address;
    }
    if !HasPrefix(address, parts[0]) {
      return false;
    }
    var rest := address[|parts[0]|..];
    var k := 1;
    while k < |parts| - 1
      invariant 1 <= k <= |parts| - 1
      invariant Matches(pattern, address) <==> Accepts(parts[k..], rest)
    {
      var i := Index(rest, parts[k]);
      assert parts[k..][0] == parts[k] && parts[k..][1..] == parts[k + 1..];
      if i < 0 {
        return false;
      }
      LeftmostSuffices(parts[k..], rest, i);
      rest := rest[i + |parts[k]|..];
      k := k + 1;
    }
    assert parts[k..] == [parts[k]];
    ok := HasSuffix(rest, parts[|parts| - 1]);
  }
}
