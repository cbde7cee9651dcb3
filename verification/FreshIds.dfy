/** Allocation of node IDs that no other node uses. */
module FreshIds {
  import opened Text
  import opened ProfileModel

  /** The rolling checksum behind the five-digit ID suffixes. */
  function Checksum(seed: string): (r: nat)
    ensures r < 100000
  {
    if seed == "" then 0
    else (Checksum(seed[..|seed| - 1]) * 31 + seed[|seed| - 1] as int) % 100000
  }

  method StableSuffix(seed: string) returns (suffix: string)
    ensures suffix == Pad5(Checksum(seed))
  {
    var sum := 0;
    for i := 0 to |seed|
      invariant 0 <= sum < 100000 && sum == Checksum(seed[..i])
    {
      assert seed[..i + 1][..i] == seed[..i];
      sum := (sum * 31 + seed[i] as int) % 100000;
    }
    assert seed[..|seed|] == seed;
    suffix := Pad5(sum);
  }

  function Power10(n: nat): nat {
    if n == 0 then 1 else 10 * Power10(n - 1)
  }

  lemma {:induction false} DecimalShort(n: nat, digits: nat)
    requires digits >= 1 && n < Power10(digits)
    ensures |Decimal(n)| <= digits
    decreases digits
  {
    assert Power10(1) == 10;
    if n >= 10 {
      DecimalShort(n / 10, digits - 1);
    }
  }

  /** A suffix always has exactly five digits and denotes the checksum it was made from. */
  lemma SuffixHasFiveDigits(seed: string)
    ensures |Pad5(Checksum(seed))| == 5 && Value(Pad5(Checksum(seed))) == Checksum(seed)
    ensures Trimmed(Pad5(Checksum(seed)))
  {
    hide Checksum, Value, Decimal;
    var n := Checksum(seed);
    assert Power10(5) == 100000;
    DecimalShort(n, 5);
    ValueOfDecimal(n);
    var d := Decimal(n);
    assert d[|d| - 1] in d && d[0] in d;
    if |d| < 5 {
      ZerosCountForNothing(5 - |d|, d);
      ZerosAreZero(5 - |d|);
      assert Zeros(5 - |d|)[0] == '0';
    }
  }

  lemma {:induction false} ZerosCountForNothing(n: nat, digits: string)
    ensures Value(Zeros(n) + digits) == Value(digits)
  {
    var whole := Zeros(n) + digits;
    if digits == "" {
      assert whole == Zeros(n);
      ZerosAreZero(n);
    } else {
      ZerosCountForNothing(n, digits[..|digits| - 1]);
      assert whole[..|whole| - 1] == Zeros(n) + digits[..|digits| - 1];
    }
  }

  lemma {:induction false} ZerosAreZero(n: nat)
    ensures Value(Zeros(n)) == 0 && forall c | c in Zeros(n) :: c == '0'
  {
    if n > 0 {
      assert Zeros(n)[..n - 1] == Zeros(n - 1);
      ZerosAreZero(n - 1);
    }
  }

  /** The n-th numbered candidate. */
  function Candidate(stem: string, n: nat): string {
    stem + "-" + Decimal(n)
  }

  lemma CandidatesDiffer(stem: string, a: nat, b: nat)
    requires Candidate(stem, a) == Candidate(stem, b)
    ensures a == b
  {
    assert Candidate(stem, a)[|stem| + 1..] == Decimal(a);
    assert Candidate(stem, b)[|stem| + 1..] == Decimal(b);
    DecimalInjective(a, b);
  }

  /** The first free candidate from the n-th on. The search ends because every candidate passed
      over is a different member of the finite set of used IDs. */
  function FirstFree(stem: string, n: nat, used: set<string>): (k: nat)
    ensures k >= n && Candidate(stem, k) !in used
    ensures forall j :: n <= j < k ==> Candidate(stem, j) in used
    decreases |used|
  {
    if Candidate(stem, n) !in used then n
    else
      var k := FirstFree(stem, n + 1, used - {Candidate(stem, n)});
      assert Candidate(stem, k) != Candidate(stem, n) by {
        if Candidate(stem, k) == Candidate(stem, n) { CandidatesDiffer(stem, k, n); }
      }
      k
  }

  /** What a taken base is replaced with: the suffixed base, or its first free numbering. */
  function Suffixed(base: string, suffix: string, used: set<string>): (id: string)
    ensures id !in used
    ensures base + "-" + suffix <= id
  {
    var stem := base + "-" + suffix;
    if stem !in used then stem else Candidate(stem, FirstFree(stem, 2, used))
  }

  method SearchFree(base: string, suffix: string, used: set<string>) returns (id: string)
    ensures id == Suffixed(base, suffix, used)
  {
    var stem := base + "-" + suffix;
    var candidate := stem;
    var n := 2;
    ghost var left := used;
    while candidate in used
      invariant n >= 2
      invariant candidate == if n == 2 then stem else Candidate(stem, n - 1)
      invariant n > 2 ==> stem in used
      invariant left <= used && forall j :: n - 1 <= j && j >= 2 && Candidate(stem, j) in used ==> Candidate(stem, j) in left
      invariant forall j :: 2 <= j < n - 1 ==> Candidate(stem, j) in used
      decreases |left|, if n == 2 then 1 else 0
    {
      if n > 2 {
        var before := left;
        left := left - {candidate};
        forall j | n <= j && Candidate(stem, j) in used ensures Candidate(stem, j) in left {
          if Candidate(stem, j) == candidate { CandidatesDiffer(stem, j, n - 1); }
        }
        assert |before| == |left| + 1;
      }
      candidate := Candidate(stem, n);
      n := n + 1;
    }
    if n > 2 {
      var k := FirstFree(stem, 2, used);
      assert k == n - 1 by {
      }
    }
    id := candidate;
  }

  /** The ID an imported node gets beside the IDs in use. */
  function ImportedId(node: Node, used: set<string>): (id: string)
    ensures id !in used && id != ""
    ensures Trim(node.id) != "" && Trim(node.id) !in used ==> id == Trim(node.id)
  {
    var base := if Trim(node.id) == "" then "node" else Trim(node.id);
    if base !in used then base else Suffixed(base, ImportSuffix(node), used)
  }

  function ImportSuffix(node: Node): string {
    Pad5(Checksum(ImportSeed(node)))
  }

  function ImportSeed(node: Node): string {
    JoinBar([node.link, node.name, node.protocol, node.server, DecimalInt(node.port),
             node.source.kind, node.source.providerKey, node.outbound])
  }

  lemma ImportedIdTrimmed(node: Node, used: set<string>)
    ensures Trimmed(ImportedId(node, used))
  {
    hide Trim, Pad5, Checksum, ImportSeed, Suffixed;
    var base := if Trim(node.id) == "" then "node" else Trim(node.id);
    SuffixedTrimmed(base, ImportSeed(node), used);
  }

  method UniqueImportedNodeID(node: Node, used: set<string>) returns (id: string)
    ensures id == ImportedId(node, used)
  {
    var base := Trim(node.id);
    if base == "" {
      base := "node";
    }
    if base !in used {
      return base;
    }
    var suffix := StableSuffix(ImportSeed(node));
    id := SearchFree(base, suffix, used);
  }

  // The parser's own pass over one subscription.

  function ParsedSeed(node: Node): string {
    JoinBar([node.link, node.name, node.protocol, node.server, DecimalInt(node.port), node.outbound])
  }

  /** The trimmed non-blank IDs of a list. */
  function UsedIds(nodes: seq<Node>): set<string> {
    NonBlank(TrimmedIds(nodes))
  }

  lemma NoIds()
    ensures TrimmedIds([]) == [] && UsedIds([]) == {} && NoRepeats(TrimmedIds([]))
  {
  }

  lemma UsedIdsStep(nodes: seq<Node>, node: Node)
    ensures "" !in UsedIds(nodes)
    ensures UsedIds(nodes + [node]) == UsedIds(nodes) + (if Trim(node.id) == "" then {} else {Trim(node.id)})
    ensures NoRepeats(TrimmedIds(nodes + [node])) <==> NoRepeats(TrimmedIds(nodes)) && Trim(node.id) !in UsedIds(nodes)
  {
    hide Trim;
    assert TrimmedIds(nodes + [node]) == TrimmedIds(nodes) + [Trim(node.id)];
    NonBlankStep(TrimmedIds(nodes), Trim(node.id));
    NoRepeatsStep(TrimmedIds(nodes), Trim(node.id));
  }

  function ParsedId(node: Node, used: set<string>): string {
    if Trim(node.id) == "" || Trim(node.id) !in used then node.id
    else Suffixed(Trim(node.id), Pad5(Checksum(ParsedSeed(node))), used)
  }

  /** The list after the parser's pass: every ID is fixed against the IDs already passed. */
  function Uniquified(nodes: seq<Node>): (r: seq<Node>)
    ensures |r| == |nodes|
  {
    if nodes == [] then []
    else
      var front, node := Uniquified(nodes[..|nodes| - 1]), nodes[|nodes| - 1];
      front + [node.(id := ParsedId(node, UsedIds(front)))]
  }

  lemma UniquifiedStep(nodes: seq<Node>, i: nat)
    requires i < |nodes|
    ensures Uniquified(nodes[..i + 1]) ==
            Uniquified(nodes[..i]) + [nodes[i].(id := ParsedId(nodes[i], UsedIds(Uniquified(nodes[..i]))))]
  {
    hide ParsedId, UsedIds;
    assert nodes[..i + 1][..i] == nodes[..i];
  }

  method UniquifyParsedNodeIDs(nodes: array<Node>)
    modifies nodes
    ensures nodes[..] == Uniquified(old(nodes[..]))
  {
    hide ParsedSeed, Suffixed, Checksum, Pad5, Trim, UsedIds, Uniquified;
    ghost var before, done := nodes[..], [];
    var used: set<string> := {};
    NoIds();
    for i := 0 to nodes.Length
      invariant done == nodes[..i] == Uniquified(before[..i])
      invariant used == UsedIds(done)
      invariant nodes[i..] == before[i..]
    {
      var node := nodes[i];
      assert node == nodes[i..][0] == before[i];
      UniquifiedStep(before, i);
      var base := Trim(node.id);
      if base != "" && base in used {
        var suffix := StableSuffix(ParsedSeed(node));
        var candidate := SearchFree(base, suffix, used);
        SuffixedTrimmed(base, ParsedSeed(node), used);
        nodes[i] := node.(id := candidate);
        used := used + {candidate};
      } else if base != "" {
        used := used + {base};
      }
      UsedIdsStep(done, nodes[i]);
      assert nodes[..i + 1] == done + [nodes[i]];
      assert nodes[i + 1..] == before[i..][1..];
      done := done + [nodes[i]];
    }
    assert nodes[..nodes.Length] == nodes[..] && before[..nodes.Length] == before;
  }

  lemma SuffixedTrimmed(base: string, seed: string, used: set<string>)
    requires base != "" && Trimmed(base)
    ensures Trim(Suffixed(base, Pad5(Checksum(seed)), used)) == Suffixed(base, Pad5(Checksum(seed)), used) != ""
    ensures Suffixed(base, Pad5(Checksum(seed)), used) !in used
  {
    hide Checksum, Pad5;
    SuffixHasFiveDigits(seed);
    var id := Suffixed(base, Pad5(Checksum(seed)), used);
    assert id[0] == base[0];
    var stem := base + "-" + Pad5(Checksum(seed));
    if id == stem {
      assert id[|id| - 1] == Pad5(Checksum(seed))[4];
    } else {
      var k := FirstFree(stem, 2, used);
      assert id[|id| - 1] == Decimal(k)[|Decimal(k)| - 1];
      assert Decimal(k)[|Decimal(k)| - 1] in Decimal(k);
    }
  }

  /** Parsing leaves no two nodes with the same ID, in a list of any length, and it renames
      only a node whose own ID was already taken. */
  lemma {:induction false} UniquifiedIsUnique(nodes: seq<Node>)
    ensures NoRepeats(TrimmedIds(Uniquified(nodes)))
    ensures forall i :: 0 <= i < |nodes| ==>
              Uniquified(nodes)[i] == nodes[i].(id := Uniquified(nodes)[i].id)
    ensures forall i :: 0 <= i < |nodes| && Uniquified(nodes)[i] != nodes[i] ==>
              Trim(nodes[i].id) in UsedIds(Uniquified(nodes)[..i])
  {
    hide Trim, Suffixed, ParsedSeed, Checksum, Pad5, UsedIds, TrimmedIds;
    NoIds();
    if nodes != [] {
      var n := |nodes| - 1;
      UniquifiedIsUnique(nodes[..n]);
      var front, node, all := Uniquified(nodes[..n]), nodes[n], Uniquified(nodes);
      UsedIdsStep(front, all[n]);
      assert all == front + [all[n]];
      if Trim(node.id) != "" && Trim(node.id) in UsedIds(front) {
        SuffixedTrimmed(Trim(node.id), ParsedSeed(node), UsedIds(front));
      }
      assert forall i :: 0 <= i <= n ==> all[..i] == front[..i];
    }
  }

  // What is allocated.

  /** The characters of a seed as the digits of a number in base 31. */
  function InBase31(seed: string): nat {
    if seed == "" then 0 else InBase31(seed[..|seed| - 1]) * 31 + seed[|seed| - 1] as nat
  }

  /** The rolling checksum is the remainder of that number. */
  lemma {:induction false} ChecksumIsRemainder(seed: string)
    ensures Checksum(seed) == InBase31(seed) % 100000
  {
    if seed != "" {
      ChecksumIsRemainder(seed[..|seed| - 1]);
      RollStep(InBase31(seed[..|seed| - 1]), seed[|seed| - 1] as nat);
    }
  }

  lemma RollStep(a: nat, c: nat)
    ensures (a % 100000 * 31 + c) % 100000 == (a * 31 + c) % 100000
  {
    var q, r := a / 100000, a % 100000;
    assert a * 31 + c == (r * 31 + c) + 31 * q * 100000;
  }

  /** A taken base is followed by the suffix; if that is taken too, by the least number from two on that is free. */
  ghost predicate FirstVariant(id: string, base: string, suffix: string, used: set<string>) {
    if base + "-" + suffix !in used then id == base + "-" + suffix
    else exists k: nat :: k >= 2 && id == base + "-" + suffix + "-" + Decimal(k) && id !in used
                          && forall j: nat :: 2 <= j < k ==> base + "-" + suffix + "-" + Decimal(j) in used
  }

  lemma SuffixedMeans(base: string, suffix: string, used: set<string>)
    ensures FirstVariant(Suffixed(base, suffix, used), base, suffix, used)
  {
    hide FirstFree, Decimal;
    var stem := base + "-" + suffix;
    if stem in used {
      var k := FirstFree(stem, 2, used);
      forall j: nat | 2 <= j < k ensures base + "-" + suffix + "-" + Decimal(j) in used {
        assert Candidate(stem, j) in used;
      }
      assert Suffixed(base, suffix, used) == base + "-" + suffix + "-" + Decimal(k);
    }
  }

  function Bar(a: string, b: string): string {
    a + "|" + b
  }

  /** What tells an imported node apart from others under its ID. */
  function Parts(node: Node): string {
    Bar(node.link, Bar(node.name, Bar(node.protocol, Bar(node.server, Bar(DecimalInt(node.port),
      Bar(node.source.kind, Bar(node.source.providerKey, node.outbound)))))))
  }

  /** An imported node keeps its trimmed ID, `node` for a blank one, if that is free; otherwise that is
      followed by the five digits made of its parts. */
  lemma ImportedMeans(node: Node, used: set<string>)
    ensures var base := if Trim(node.id) == "" then "node" else Trim(node.id);
            if base !in used then ImportedId(node, used) == base
            else FirstVariant(ImportedId(node, used), base, Pad5(InBase31(Parts(node)) % 100000), used)
  {
    hide Trim, Pad5, Checksum, Suffixed, FirstVariant, ImportSeed, DecimalInt, InBase31;
    var base := if Trim(node.id) == "" then "node" else Trim(node.id);
    SeedIsParts(node);
    ChecksumIsRemainder(ImportSeed(node));
    SuffixedMeans(base, ImportSuffix(node), used);
  }

  lemma SeedIsParts(node: Node)
    ensures ImportSeed(node) == Parts(node)
  {
    hide DecimalInt, JoinBar;
    var port, kind, key, outbound := DecimalInt(node.port), node.source.kind, node.source.providerKey, node.outbound;
    OneJoined(outbound);
    JoinMore(key, [outbound]);
    JoinMore(kind, [key, outbound]);
    JoinMore(port, [kind, key, outbound]);
    JoinMore(node.server, [port, kind, key, outbound]);
    JoinMore(node.protocol, [node.server, port, kind, key, outbound]);
    JoinMore(node.name, [node.protocol, node.server, port, kind, key, outbound]);
    JoinMore(node.link, [node.name, node.protocol, node.server, port, kind, key, outbound]);
    ListsAgree(node.link, node.name, node.protocol, node.server, port, kind, key, outbound);
  }

  lemma ListsAgree(a: string, b: string, c: string, d: string, e: string, f: string, g: string, h: string)
    ensures [g] + [h] == [g, h] && [f] + [g, h] == [f, g, h] && [e] + [f, g, h] == [e, f, g, h]
    ensures [d] + [e, f, g, h] == [d, e, f, g, h] && [c] + [d, e, f, g, h] == [c, d, e, f, g, h]
    ensures [b] + [c, d, e, f, g, h] == [b, c, d, e, f, g, h] && [a] + [b, c, d, e, f, g, h] == [a, b, c, d, e, f, g, h]
  {
  }

  lemma OneJoined(a: string)
    ensures JoinBar([a]) == a
  {
  }

  lemma JoinMore(a: string, rest: seq<string>)
    requires rest != []
    ensures JoinBar([a] + rest) == Bar(a, JoinBar(rest))
  {
    assert ([a] + rest)[1..] == rest;
  }

  /** The parser leaves a node alone whose trimmed ID is blank or not yet taken, and otherwise puts the
      first free variant of it in its place. */
  lemma ParsedMeans(node: Node, used: set<string>)
    ensures var parts := Bar(node.link, Bar(node.name, Bar(node.protocol, Bar(node.server, Bar(DecimalInt(node.port), node.outbound)))));
            if Trim(node.id) == "" || Trim(node.id) !in used then ParsedId(node, used) == node.id
            else FirstVariant(ParsedId(node, used), Trim(node.id), Pad5(InBase31(parts) % 100000), used)
  {
    hide Trim, Pad5, Checksum, Suffixed, FirstVariant, ParsedSeed, InBase31, DecimalInt;
    ParsedSeedIsParts(node);
    ChecksumIsRemainder(ParsedSeed(node));
    SuffixedMeans(Trim(node.id), Pad5(Checksum(ParsedSeed(node))), used);
  }

  lemma ParsedSeedIsParts(node: Node)
    ensures ParsedSeed(node) == Bar(node.link, Bar(node.name, Bar(node.protocol, Bar(node.server, Bar(DecimalInt(node.port), node.outbound)))))
  {
    hide DecimalInt, JoinBar;
    var port, outbound := DecimalInt(node.port), node.outbound;
    OneJoined(outbound);
    JoinMore(port, [outbound]);
    JoinMore(node.server, [port, outbound]);
    JoinMore(node.protocol, [node.server, port, outbound]);
    JoinMore(node.name, [node.protocol, node.server, port, outbound]);
    JoinMore(node.link, [node.name, node.protocol, node.server, port, outbound]);
    ListsAgree("", "", node.link, node.name, node.protocol, node.server, port, outbound);
  }
}
