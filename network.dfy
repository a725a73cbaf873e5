/**
 * Network reachability data of the advertisement: the pod-address block,
 * widened to a /16 from the block of the first node, and Go's
 * `strings.Split` that the widening relies on.
 */
module Network {
  import opened Model

  /** The position of the first `c` in `s`. */
  function IndexOf(s: string, c: char): (r: nat)
    requires c in s
    ensures r < |s| && s[r] == c && c !in s[..r]
  {
    if s[0] == c then 0 else 1 + IndexOf(s[1..], c)
  }

  /**
   * `strings.Split(s, string(sep))`: the pieces of `s` between the
   * occurrences of `sep`; a string without `sep` is one piece.
   */
  function Split(s: string, sep: char): (r: seq<string>)
    ensures |r| >= 1
    ensures |r| >= 2 <==> sep in s
    decreases |s|
  {
    if sep in s then
      var i := IndexOf(s, sep);
      [s[..i]] + Split(s[i + 1..], sep)
    else
      [s]
  }

  /** `strings.Join(parts, string(sep))`, the inverse of `Split`. */
  function Join(parts: seq<string>, sep: char): string
    requires |parts| >= 1
  {
    if |parts| == 1 then parts[0] else parts[0] + [sep] + Join(parts[1..], sep)
  }

  /** No piece of a split contains the separator. */
  lemma {:induction false} SplitPiecesClean(s: string, sep: char)
    ensures forall k :: 0 <= k < |Split(s, sep)| ==> sep !in Split(s, sep)[k]
    decreases |s|
  {
    if sep in s {
      var i := IndexOf(s, sep);
      SplitPiecesClean(s[i + 1..], sep);
    }
  }

  /** Joining the pieces of a split gives back the string. */
  lemma {:induction false} JoinSplit(s: string, sep: char)
    ensures Join(Split(s, sep), sep) == s
    decreases |s|
  {
    if sep in s {
      var i := IndexOf(s, sep);
      var rest := Split(s[i + 1..], sep);
      JoinSplit(s[i + 1..], sep);
      JoinCons(s[..i], rest, sep);
      assert s == s[..i] + [sep] + s[i + 1..];
    }
  }

  /** Joining a piece in front of other pieces puts the separator between them. */
  lemma JoinCons(head: string, parts: seq<string>, sep: char)
    requires |parts| >= 1
    ensures Join([head] + parts, sep) == head + [sep] + Join(parts, sep)
  {
    assert ([head] + parts)[1..] == parts;
  }

  /** Splitting a join of separator-free pieces gives back the pieces. */
  lemma {:induction false} SplitJoin(parts: seq<string>, sep: char)
    requires |parts| >= 1
    requires forall k :: 0 <= k < |parts| ==> sep !in parts[k]
    ensures Split(Join(parts, sep), sep) == parts
  {
    if |parts| > 1 {
      SplitJoin(parts[1..], sep);
      SplitAtFirst(parts[0], Join(parts[1..], sep), sep);
      assert parts == [parts[0]] + parts[1..];
    }
  }

  /** A separator-free head followed by the separator splits off as the first piece. */
  lemma SplitAtFirst(head: string, tail: string, sep: char)
    requires sep !in head
    ensures Split(head + [sep] + tail, sep) == [head] + Split(tail, sep)
  {
    var s := head + [sep] + tail;
    IndexOfAfter(head, tail, sep);
    assert s[..|head|] == head;
    assert s[|head| + 1..] == tail;
  }

  lemma {:induction false} IndexOfAfter(head: string, tail: string, sep: char)
    requires sep !in head
    ensures IndexOf(head + [sep] + tail, sep) == |head|
  {
    if |head| > 0 {
      IndexOfAfter(head[1..], tail, sep);
      assert (head + [sep] + tail)[1..] == head[1..] + [sep] + tail;
    }
  }

  /**
   * `GetPodCIDR`: the first node's pod block split on '.'; with at least two
   * pieces the first two become the /16 block `a.b.0.0/16`, otherwise the
   * fixed default block is used. The source indexes the first node without
   * checking, so the list must not be empty.
   */
  function GetPodCIDR(nodes: seq<Node>): (r: string)
    requires |nodes| > 0
    ensures '.' !in nodes[0].podCIDR ==> r == DefaultPodCIDR
    ensures '.' in nodes[0].podCIDR ==> |r| >= 8 && r[|r| - 7..] == ".0.0/16"
  {
    var token := Split(nodes[0].podCIDR, '.');
    if |token| >= 2 then token[0] + "." + token[1] + ".0.0/16" else DefaultPodCIDR
  }

  /**
   * When the first node's block begins with two dot-free octets `a` and `b`
   * followed by a dot, the result is `a.b.0.0/16`.
   */
  lemma PodCIDRWidens(nodes: seq<Node>, a: string, b: string, rest: string)
    requires |nodes| > 0
    requires '.' !in a && '.' !in b
    requires nodes[0].podCIDR == a + "." + (b + "." + rest)
    ensures GetPodCIDR(nodes) == a + "." + b + ".0.0/16"
  {
    SplitAtFirst(a, b + "." + rest, '.');
    SplitAtFirst(b, rest, '.');
    assert Split(nodes[0].podCIDR, '.') == [a] + ([b] + Split(rest, '.'));
  }

  /** A block made of exactly two dot-free pieces `a.b` is widened to `a.b.0.0/16` too. */
  lemma PodCIDRTwoPieces(nodes: seq<Node>, a: string, b: string)
    requires |nodes| > 0
    requires '.' !in a && '.' !in b
    requires nodes[0].podCIDR == a + "." + b
    ensures GetPodCIDR(nodes) == a + "." + b + ".0.0/16"
  {
    SplitAtFirst(a, b, '.');
    assert Split(nodes[0].podCIDR, '.') == [a] + Split(b, '.');
  }

  /** An example: a node block 10.32.0.5/24 is widened to 10.32.0.0/16. */
  lemma PodCIDRExample(nodes: seq<Node>)
    requires |nodes| > 0 && nodes[0].podCIDR == "10.32.0.5/24"
    ensures GetPodCIDR(nodes) == "10.32.0.0/16"
  {
    ExampleOctets(nodes[0].podCIDR);
    PodCIDRWidens(nodes, "10", "32", "0.5/24");
    ExampleBlock();
  }

  lemma ExampleOctets(s: string)
    requires s == "10.32.0.5/24"
    ensures s == "10" + "." + ("32" + "." + "0.5/24")
  {
  }

  lemma ExampleBlock()
    ensures "10" + "." + "32" + ".0.0/16" == "10.32.0.0/16"
  {
  }

  /** Only the first node matters. */
  lemma PodCIDRReadsFirstNode(nodes: seq<Node>, others: seq<Node>)
    requires |nodes| > 0 && |others| > 0 && nodes[0].podCIDR == others[0].podCIDR
    ensures GetPodCIDR(nodes) == GetPodCIDR(others)
  {
  }
}
