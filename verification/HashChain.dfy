/** The hash chain of the audit bundle: built line by line, verified line by line.

    The hash is a parameter.  SHA-256 maps infinitely many strings to finitely many digests, so it has
    collisions; every theorem that needs it to be collision free therefore says what the two colliding
    strings would be instead of assuming there are none. */
module HashChain {
  import opened Text

  type Hash = string -> string

  /** A SHA-256 hex digest: 64 lower-case hexadecimal digits. */
  predicate HexDigest(d: string) {
    |d| == 64 && forall i :: 0 <= i < |d| ==> d[i] in "0123456789abcdef"
  }

  ghost predicate Digests(h: Hash) {
    forall x :: HexDigest(h(x))
  }

  /** There are such hashes, bad ones to be sure. */
  lemma {:induction false} SomeHashDigests() returns (h: Hash)
    ensures Digests(h)
  {
    var zeros := seq(64, i => '0');
    h := x => zeros;
  }

  ghost predicate Collision(h: Hash, x: string, y: string) {
    x != y && h(x) == h(y)
  }

  function DropNewlines(line: string): string {
    if line != "" && line[|line| - 1] == '\n' then DropNewlines(line[..|line| - 1]) else line
  }

  function Contents(lines: seq<string>): seq<string> {
    seq(|lines|, i requires 0 <= i < |lines| => DropNewlines(lines[i]))
  }

  /** The link that line `n` is hashed with. */
  function Prev(entries: seq<string>, n: nat): string
    requires n <= |entries|
  {
    if n == 0 then "0" else entries[n - 1]
  }

  function Chain(h: Hash, lines: seq<string>): (entries: seq<string>)
    ensures |entries| == |lines|
  {
    if lines == [] then []
    else
      var n := |lines| - 1;
      var before := Chain(h, lines[..n]);
      before + [h(DropNewlines(lines[n]) + Prev(before, n))]
  }

  method BuildHashChain(h: Hash, lines: seq<string>) returns (text: string)
    ensures text == Join("\n", Chain(h, lines))
  {
    var entries: seq<string> := [];
    var prev := "0";
    for i := 0 to |lines|
      invariant entries == Chain(h, lines[..i]) && prev == Prev(entries, i)
    {
      assert lines[..i + 1][..i] == lines[..i];
      var current := h(DropNewlines(lines[i]) + prev);
      entries := entries + [current];
      prev := current;
    }
    assert lines[..|lines|] == lines;
    text := Join("\n", entries);
  }

  predicate Verifies(h: Hash, lines: seq<string>, text: string) {
    Split(Strip(text), '\n') == Chain(h, lines)
  }

  method VerifyHashChain(h: Hash, lines: seq<string>, text: string) returns (ok: bool)
    ensures ok <==> Verifies(h, lines, text)
  {
    var entries := Split(Strip(text), '\n');
    if |entries| != |lines| {
      return false;
    }
    ghost var chain := Chain(h, lines);
    var prev := "0";
    for i := 0 to |lines|
      invariant prev == Prev(chain, i) && forall j :: 0 <= j < i ==> entries[j] == chain[j]
    {
      ChainAt(h, lines, i);
      var expected := h(DropNewlines(lines[i]) + prev);
      if entries[i] != expected {
        return false;
      }
      prev := expected;
    }
    assert entries == chain;
    ok := true;
  }

  // ---------------------------------------------------------------------------------------------
  // Lines and their bodies
  // ---------------------------------------------------------------------------------------------

  /** A line of the log as its body and the line ends after it. */
  ghost predicate IsLine(line: string, body: string, ends: string) {
    && line == body + ends
    && (forall c :: c in ends ==> c == '\n')
    && (body != "" ==> body[|body| - 1] != '\n')
  }

  /** What is hashed of a line is its body, the whole of it and nothing else. */
  lemma {:induction false} DropsTheLineEnds(line: string, body: string, ends: string)
    requires IsLine(line, body, ends)
    ensures DropNewlines(line) == body
  {
    if ends == "" {
      assert line == body;
    } else {
      var n := |ends| - 1;
      assert ends[n] in ends && line[..|line| - 1] == body + ends[..n];
      assert forall c :: c in ends[..n] ==> c in ends;
      DropsTheLineEnds(body + ends[..n], body, ends[..n]);
    }
  }

  /** Every line has such a body, and no second one. */
  lemma {:induction false} BodyOf(line: string) returns (ends: string)
    ensures IsLine(line, DropNewlines(line), ends)
  {
    ends := "";
    if line != "" && line[|line| - 1] == '\n' {
      var rest := line[..|line| - 1];
      var front := BodyOf(rest);
      ends := front + "\n";
      assert line == rest + "\n" == DropNewlines(rest) + ends;
    } else {
      assert line == line + "";
    }
  }

  /** The lines of a log with these bodies. */
  ghost predicate HasBodies(lines: seq<string>, bodies: seq<string>) {
    |lines| == |bodies| && forall i :: 0 <= i < |lines| ==> exists ends :: IsLine(lines[i], bodies[i], ends)
  }

  lemma {:induction false} ContentsAreBodies(lines: seq<string>, bodies: seq<string>)
    requires HasBodies(lines, bodies)
    ensures Contents(lines) == bodies
  {
    forall i | 0 <= i < |lines|
      ensures Contents(lines)[i] == bodies[i]
    {
      var ends :| IsLine(lines[i], bodies[i], ends);
      DropsTheLineEnds(lines[i], bodies[i], ends);
    }
  }

  // ---------------------------------------------------------------------------------------------
  // The chain
  // ---------------------------------------------------------------------------------------------

  lemma {:induction false} ChainPrefix(h: Hash, lines: seq<string>, k: nat)
    requires k <= |lines|
    ensures Chain(h, lines)[..k] == Chain(h, lines[..k])
    decreases |lines|
  {
    if k < |lines| {
      var n := |lines| - 1;
      assert lines[..n][..k] == lines[..k];
      ChainPrefix(h, lines[..n], k);
      assert Chain(h, lines)[..k] == Chain(h, lines[..n])[..k];
    } else {
      assert lines[..k] == lines;
    }
  }

  /** Each entry is the hash of its line and the entry before it. */
  lemma {:induction false} ChainAt(h: Hash, lines: seq<string>, k: nat)
    requires k < |lines|
    ensures Chain(h, lines)[k] == h(DropNewlines(lines[k]) + Prev(Chain(h, lines), k))
  {
    var upto := lines[..k + 1];
    ChainPrefix(h, lines, k + 1);
    assert upto[..k] == lines[..k];
    ChainPrefix(h, lines, k);
    assert Chain(h, lines)[k] == Chain(h, lines)[..k + 1][k];
    assert k > 0 ==> Chain(h, lines)[..k][k - 1] == Chain(h, lines)[k - 1];
  }

  /** On bodies: the first entry hashes the first body and "0", each later one its body and the entry before. */
  lemma {:induction false} EntryHashesBody(h: Hash, lines: seq<string>, bodies: seq<string>, k: nat)
    requires HasBodies(lines, bodies) && k < |lines|
    ensures Chain(h, lines)[k] == h(bodies[k] + if k == 0 then "0" else Chain(h, lines)[k - 1])
  {
    ContentsAreBodies(lines, bodies);
    assert Contents(lines)[k] == DropNewlines(lines[k]);
    ChainAt(h, lines, k);
  }

  lemma {:induction false} ChainDigests(h: Hash, lines: seq<string>)
    requires Digests(h)
    ensures forall i :: 0 <= i < |lines| ==> HexDigest(Chain(h, lines)[i])
  {
    if lines != [] {
      ChainDigests(h, lines[..|lines| - 1]);
    }
  }

  lemma {:induction false} HexIsNotSpace(c: char)
    requires c in "0123456789abcdef"
    ensures !IsSpace(c)
  {
    assert '0' <= c <= '9' || 'a' <= c <= 'f';
  }

  lemma {:induction false} SameSplit(a: string, p: string, b: string, q: string)
    requires |p| == |q| && a + p == b + q
    ensures a == b && p == q
  {
    assert a == (a + p)[..|a|] && b == (b + q)[..|b|];
    assert p == (a + p)[|a|..] && q == (b + q)[|b|..];
  }

  lemma {:induction false} JoinEnds(entries: seq<string>)
    requires entries != [] && forall e :: e in entries ==> HexDigest(e)
    ensures var t := Join("\n", entries); t != "" && !IsSpace(t[0]) && !IsSpace(t[|t| - 1])
  {
    var e := entries[0];
    assert HexDigest(e);
    HexIsNotSpace(e[0]);
    HexIsNotSpace(e[63]);
    if |entries| > 1 {
      JoinEnds(entries[1..]);
      var rest := Join("\n", entries[1..]);
      assert Join("\n", entries) == e + "\n" + rest;
    }
  }

  /** The bundle's own chain verifies against the log it was built from, if and only if the log has at
      least one line: the empty chain splits into one empty entry. */
  lemma {:induction false} OwnChainVerifies(h: Hash, lines: seq<string>)
    requires Digests(h)
    ensures Verifies(h, lines, Join("\n", Chain(h, lines))) <==> lines != []
  {
    if lines != [] {
      var entries := Chain(h, lines);
      ChainDigests(h, lines);
      JoinEnds(entries);
      assert forall e :: e in entries ==> '\n' !in e by {
        assert forall e, i :: e in entries && 0 <= i < |e| ==> e[i] in "0123456789abcdef";
      }
      SplitJoin(entries, '\n');
    }
  }

  /** The chain of a log verifies with whatever whitespace around it, and no other list of digests does. */
  lemma {:induction false} PaddedChainVerifies(h: Hash, lines: seq<string>, entries: seq<string>, before: string, after: string)
    requires Digests(h) && AllSpace(before) && AllSpace(after)
    requires entries != [] && forall e :: e in entries ==> HexDigest(e)
    ensures Verifies(h, lines, before + Join("\n", entries) + after) <==> entries == Chain(h, lines)
  {
    JoinEnds(entries);
    StripPadded(before, Join("\n", entries), after);
    assert forall e :: e in entries ==> '\n' !in e by {
      assert forall e, i :: e in entries && 0 <= i < |e| ==> e[i] in "0123456789abcdef";
    }
    SplitJoin(entries, '\n');
  }

  /** Two logs that verify against the same chain text have the same lines, or the hash collides on the
      two strings returned. */
  lemma {:induction false} SameChainSameLog(h: Hash, a: seq<string>, b: seq<string>) returns (x: string, y: string)
    requires Chain(h, a) == Chain(h, b)
    ensures Contents(a) == Contents(b) || Collision(h, x, y)
    decreases |a|
  {
    x, y := "", "";
    if a != [] {
      var n := |a| - 1;
      ChainPrefix(h, a, n);
      ChainPrefix(h, b, n);
      x, y := SameChainSameLog(h, a[..n], b[..n]);
      if !Collision(h, x, y) {
        var prev := Prev(Chain(h, a), n);
        ChainAt(h, a, n);
        ChainAt(h, b, n);
        x, y := DropNewlines(a[n]) + prev, DropNewlines(b[n]) + prev;
        if x == y {
          SameSplit(DropNewlines(a[n]), prev, DropNewlines(b[n]), prev);
          forall i | 0 <= i < |a|
            ensures Contents(a)[i] == Contents(b)[i]
          {
            if i < n {
              assert Contents(a[..n])[i] == Contents(b[..n])[i];
            }
          }
        }
      }
    }
  }

  /** Two logs that verify against one chain text have the same bodies, or the hash collides on the two
      strings returned. */
  lemma {:induction false} TamperEvidence(h: Hash, a: seq<string>, b: seq<string>, bodies: seq<string>, others: seq<string>, text: string)
    returns (x: string, y: string)
    requires HasBodies(a, bodies) && HasBodies(b, others)
    requires Verifies(h, a, text) && Verifies(h, b, text)
    ensures bodies == others || Collision(h, x, y)
  {
    ContentsAreBodies(a, bodies);
    ContentsAreBodies(b, others);
    x, y := SameChainSameLog(h, a, b);
  }

  /** Two logs with the same bodies have the same chain: line ends are not part of it. */
  lemma {:induction false} LineEndsDoNotMatter(h: Hash, a: seq<string>, b: seq<string>, bodies: seq<string>)
    requires HasBodies(a, bodies) && HasBodies(b, bodies)
    ensures Chain(h, a) == Chain(h, b)
  {
    ContentsAreBodies(a, bodies);
    ContentsAreBodies(b, bodies);
    SameLogSameChain(h, a, b, |bodies|);
    assert Chain(h, a)[..|bodies|] == Chain(h, a) && Chain(h, b)[..|bodies|] == Chain(h, b);
  }

  /** Where the first difference is, the chains part, and they never meet again -- or the hash collides. */
  lemma {:induction false} ChainsForkAt(h: Hash, a: seq<string>, b: seq<string>, bodies: seq<string>, others: seq<string>, k: nat, i: nat)
    returns (x: string, y: string)
    requires Digests(h) && HasBodies(a, bodies) && HasBodies(b, others)
    requires k <= i < |a| && i < |b|
    requires bodies[..k] == others[..k] && bodies[k] != others[k]
    ensures Chain(h, a)[..k] == Chain(h, b)[..k]
    ensures Chain(h, a)[i] != Chain(h, b)[i] || Collision(h, x, y)
  {
    ContentsAreBodies(a, bodies);
    ContentsAreBodies(b, others);
    SameLogSameChain(h, a, b, k);
    x, y := ContentsForkAt(h, a, b, k, i);
  }

  lemma {:induction false} ContentsForkAt(h: Hash, a: seq<string>, b: seq<string>, k: nat, i: nat) returns (x: string, y: string)
    requires Digests(h)
    requires k <= i < |a| && i < |b|
    requires Contents(a)[..k] == Contents(b)[..k] && Contents(a)[k] != Contents(b)[k]
    ensures Chain(h, a)[i] != Chain(h, b)[i] || Collision(h, x, y)
    decreases i
  {
    SameLogSameChain(h, a, b, k);
    ChainAt(h, a, i);
    ChainAt(h, b, i);
    var p, q := Prev(Chain(h, a), i), Prev(Chain(h, b), i);
    if i == k {
      assert k > 0 ==> Chain(h, a)[..k][k - 1] == p && Chain(h, b)[..k][k - 1] == q;
    } else {
      x, y := ContentsForkAt(h, a, b, k, i - 1);
      ChainDigests(h, a);
      ChainDigests(h, b);
      if Collision(h, x, y) {
        return;
      }
    }
    x, y := DropNewlines(a[i]) + p, DropNewlines(b[i]) + q;
    if x == y {
      SameSplit(DropNewlines(a[i]), p, DropNewlines(b[i]), q);
    }
  }

  lemma {:induction false} SameLogSameChain(h: Hash, a: seq<string>, b: seq<string>, k: nat)
    requires k <= |a| && k <= |b| && Contents(a)[..k] == Contents(b)[..k]
    ensures Chain(h, a)[..k] == Chain(h, b)[..k]
  {
    if k > 0 {
      assert Contents(a)[..k - 1] == Contents(a)[..k][..k - 1];
      assert Contents(b)[..k - 1] == Contents(b)[..k][..k - 1];
      SameLogSameChain(h, a, b, k - 1);
      ChainAt(h, a, k - 1);
      ChainAt(h, b, k - 1);
      assert Contents(a)[..k][k - 1] == Contents(b)[..k][k - 1];
      assert k > 1 ==> Chain(h, a)[..k - 1][k - 2] == Chain(h, b)[..k - 1][k - 2];
      assert Chain(h, a)[..k] == Chain(h, a)[..k - 1] + [Chain(h, a)[k - 1]];
      assert Chain(h, b)[..k] == Chain(h, b)[..k - 1] + [Chain(h, b)[k - 1]];
    }
  }

  /** What the chain does not show: a log cut off after any line verifies against the chain cut off at
      the same place. */
  lemma {:induction false} TruncationVerifies(h: Hash, lines: seq<string>, k: nat)
    requires Digests(h) && 0 < k <= |lines|
    ensures Verifies(h, lines[..k], Join("\n", Chain(h, lines)[..k]))
  {
    ChainPrefix(h, lines, k);
    OwnChainVerifies(h, lines[..k]);
  }
}
