/** The string operations the modelled code relies on. */
module Text {

  function Join(sep: string, parts: seq<string>): string {
    if |parts| == 0 then ""
    else if |parts| == 1 then parts[0]
    else parts[0] + sep + Join(sep, parts[1..])
  }

  /** `s.split(c)` for a one-character separator: always at least one part. */
  function Split(s: string, c: char): (parts: seq<string>)
    ensures |parts| >= 1
  {
    if s == "" then [""]
    else
      var rest := Split(s[1..], c);
      if s[0] == c then [""] + rest else [[s[0]] + rest[0]] + rest[1..]
  }

  lemma {:induction false} SplitPrefix(p: string, c: char, rest: string)
    requires c !in p
    ensures Split(p + [c] + rest, c) == [p] + Split(rest, c)
  {
    if p == "" {
      assert (p + [c] + rest)[1..] == rest;
    } else {
      assert (p + [c] + rest)[1..] == p[1..] + [c] + rest;
      SplitPrefix(p[1..], c, rest);
      assert [p[0]] + p[1..] == p;
    }
  }

  lemma {:induction false} SplitPlain(p: string, c: char)
    requires c !in p
    ensures Split(p, c) == [p]
  {
    if p != "" {
      SplitPlain(p[1..], c);
      assert [p[0]] + p[1..] == p;
    }
  }

  /** Splitting undoes joining when no part contains the separator. */
  lemma {:induction false} SplitJoin(parts: seq<string>, c: char)
    requires parts != [] && forall p :: p in parts ==> c !in p
    ensures Split(Join([c], parts), c) == parts
  {
    if |parts| == 1 {
      SplitPlain(parts[0], c);
    } else {
      SplitJoin(parts[1..], c);
      SplitPrefix(parts[0], c, Join([c], parts[1..]));
      assert [parts[0]] + parts[1..] == parts;
    }
  }

  lemma {:induction false} SplitParts(s: string, c: char)
    ensures forall p :: p in Split(s, c) ==> c !in p
    ensures Join([c], Split(s, c)) == s
  {
    if s != "" {
      SplitParts(s[1..], c);
      var rest := Split(s[1..], c);
      if s[0] == c {
        assert ([""] + rest)[1..] == rest;
        assert [s[0]] + s[1..] == s;
      } else {
        var parts := [[s[0]] + rest[0]] + rest[1..];
        assert parts[1..] == rest[1..];
        assert [s[0]] + s[1..] == s;
        if |rest| > 1 {
          assert [s[0]] + (rest[0] + [c] + Join([c], rest[1..])) == ([s[0]] + rest[0]) + [c] + Join([c], rest[1..]);
        }
      }
    }
  }

  /** The characters `str.strip` removes. */
  predicate IsSpace(c: char) {
    || '\t' <= c <= '\r' || '\U{1c}' <= c <= ' '
    || c in {'\U{85}', '\U{a0}', '\U{1680}', '\U{2028}', '\U{2029}', '\U{202f}', '\U{205f}', '\U{3000}'}
    || '\U{2000}' <= c <= '\U{200a}'
  }

  /** They are the 29 whitespace characters of Unicode, the four information separators among them. */
  lemma {:induction false} SpacesAre(c: char)
    ensures IsSpace(c) <==>
            c in "\t\n\U{b}\U{c}\r\U{1c}\U{1d}\U{1e}\U{1f} \U{85}\U{a0}\U{1680}"
                 + "\U{2000}\U{2001}\U{2002}\U{2003}\U{2004}\U{2005}\U{2006}\U{2007}\U{2008}\U{2009}\U{200a}"
                 + "\U{2028}\U{2029}\U{202f}\U{205f}\U{3000}"
  {
  }

  function TrimLeft(s: string): string {
    if s != "" && IsSpace(s[0]) then TrimLeft(s[1..]) else s
  }

  function TrimRight(s: string): string {
    if s != "" && IsSpace(s[|s| - 1]) then TrimRight(s[..|s| - 1]) else s
  }

  function Strip(s: string): string {
    TrimRight(TrimLeft(s))
  }

  ghost predicate AllSpace(s: string) {
    forall c :: c in s ==> IsSpace(c)
  }

  lemma {:induction false} TrimLeftPadded(before: string, s: string)
    requires AllSpace(before)
    ensures TrimLeft(before + s) == TrimLeft(s)
  {
    if before == "" {
      assert before + s == s;
    } else {
      assert before[0] in before && (before + s)[1..] == before[1..] + s;
      TrimLeftPadded(before[1..], s);
    }
  }

  lemma {:induction false} TrimRightPadded(s: string, after: string)
    requires AllSpace(after)
    ensures TrimRight(s + after) == TrimRight(s)
  {
    if after == "" {
      assert s + after == s;
    } else {
      var n := |after| - 1;
      assert after[n] in after && (s + after)[..|s| + n] == s + after[..n];
      TrimRightPadded(s, after[..n]);
    }
  }

  /** Whitespace around a text is taken off, whatever there is of it, and nothing else is. */
  lemma {:induction false} StripPadded(before: string, s: string, after: string)
    requires AllSpace(before) && AllSpace(after)
    requires s == "" || (!IsSpace(s[0]) && !IsSpace(s[|s| - 1]))
    ensures Strip(before + s + after) == s
  {
    if s == "" {
      assert before + s + after == (before + after) + "";
      TrimLeftPadded(before + after, "");
    } else {
      assert before + s + after == before + (s + after);
      TrimLeftPadded(before, s + after);
      assert (s + after)[0] == s[0];
      TrimRightPadded(s, after);
    }
  }

  /** Splitting distributes over a separator, wherever it stands. */
  lemma {:induction false} SplitAppend(left: string, c: char, right: string)
    ensures Split(left + [c] + right, c) == Split(left, c) + Split(right, c)
  {
    if left == "" {
      assert (left + [c] + right)[1..] == right;
    } else {
      assert (left + [c] + right)[1..] == left[1..] + [c] + right;
      SplitAppend(left[1..], c, right);
    }
  }

  lemma {:induction false} JoinAppend(sep: string, left: seq<string>, right: seq<string>)
    requires left != [] && right != []
    ensures Join(sep, left + right) == Join(sep, left) + sep + Join(sep, right)
  {
    assert (left + right)[1..] == left[1..] + right;
    if |left| > 1 {
      JoinAppend(sep, left[1..], right);
    }
  }

  /** The index of the first occurrence of a pattern. */
  function Find(s: string, pattern: string): (k: int)
    ensures -1 <= k <= |s|
    ensures k >= 0 ==> pattern <= s[k..]
    ensures forall i :: 0 <= i < (if k < 0 then |s| + 1 else k) ==> !(pattern <= s[i..])
  {
    if pattern <= s then 0
    else if s == "" then -1
    else
      var k := Find(s[1..], pattern);
      assert forall i :: 0 < i <= |s| ==> s[i..] == s[1..][i - 1..];
      if k < 0 then -1 else k + 1
  }

  predicate Contains(s: string, pattern: string) {
    Find(s, pattern) >= 0
  }

  lemma {:induction false} ContainsIs(s: string, pattern: string)
    ensures Contains(s, pattern) <==> exists i :: 0 <= i <= |s| && pattern <= s[i..]
  {
  }

  function Replace(s: string, old': char, new': char): (r: string)
    ensures |r| == |s|
  {
    if s == "" then "" else [if s[0] == old' then new' else s[0]] + Replace(s[1..], old', new')
  }

  lemma {:induction false} SplitWithout(s: string, c: char, x: char)
    requires x !in s
    ensures forall p :: p in Split(s, c) ==> x !in p
  {
    if s != "" {
      SplitWithout(s[1..], c, x);
      var rest := Split(s[1..], c);
      assert rest[0] in rest;
      assert forall p :: p in rest[1..] ==> p in rest;
    }
  }

  lemma {:induction false} JoinWithout(sep: string, parts: seq<string>, x: char)
    requires x !in sep && forall p :: p in parts ==> x !in p
    ensures x !in Join(sep, parts)
  {
    if |parts| > 1 {
      assert forall p :: p in parts[1..] ==> p in parts;
      JoinWithout(sep, parts[1..], x);
    }
  }

  lemma {:induction false} ReplaceRemoves(s: string, old': char, new': char)
    requires old' != new'
    ensures old' !in Replace(s, old', new')
    ensures forall x :: x !in s && x != new' ==> x !in Replace(s, old', new')
    ensures old' !in s ==> Replace(s, old', new') == s
  {
    if s != "" {
      ReplaceRemoves(s[1..], old', new');
      assert forall x :: x !in s ==> x !in s[1..];
      assert [s[0]] + s[1..] == s;
    }
  }

  lemma {:induction false} TrimLeftWithout(s: string, x: char)
    requires x !in s
    ensures x !in TrimLeft(s)
  {
    if s != "" && IsSpace(s[0]) {
      TrimLeftWithout(s[1..], x);
    }
  }

  lemma {:induction false} TrimRightWithout(s: string, x: char)
    requires x !in s
    ensures x !in TrimRight(s)
  {
    if s != "" && IsSpace(s[|s| - 1]) {
      TrimRightWithout(s[..|s| - 1], x);
    }
  }

  lemma {:induction false} StripWithout(s: string, x: char)
    requires x !in s
    ensures x !in Strip(s)
  {
    TrimLeftWithout(s, x);
    TrimRightWithout(TrimLeft(s), x);
  }
}
