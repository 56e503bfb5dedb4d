/** Shared vocabulary of the corpus models: optional values, chaining of
    sequences (itertools.chain), decimal rendering of lengths, the split of an
    output record at its first tab, and the contract of a random permutation. */
module Common {

  datatype Option<+T> = None | Some(value: T)

  function Min(a: int, b: int): int { if a <= b then a else b }

  // ---------------------------------------------------------------------------
  // Chaining: a list of segments read one after another
  // ---------------------------------------------------------------------------

  /** The concatenation of the segments, in order (what itertools.chain(*xss) yields). */
  function Flatten<T>(xss: seq<seq<T>>): seq<T>
    decreases |xss|
  {
    if xss == [] then [] else Flatten(xss[..|xss| - 1]) + xss[|xss| - 1]
  }

  lemma FlattenSnoc<T>(xss: seq<seq<T>>, ys: seq<T>)
    ensures Flatten(xss + [ys]) == Flatten(xss) + ys
  {
    assert (xss + [ys])[..|xss|] == xss;
  }

  /** Chaining two lists of segments is chaining their two chains. */
  lemma {:induction false} FlattenAppend<T>(a: seq<seq<T>>, b: seq<seq<T>>)
    ensures Flatten(a + b) == Flatten(a) + Flatten(b)
    decreases |b|
  {
    if b == [] {
      assert a + b == a;
    } else {
      var b' := b[..|b| - 1];
      assert a + b == (a + b') + [b[|b| - 1]];
      FlattenSnoc(a + b', b[|b| - 1]);
      FlattenAppend(a, b');
      assert b == b' + [b[|b| - 1]];
      FlattenSnoc(b', b[|b| - 1]);
    }
  }

  /** An element of the chain comes from one of the segments, and every element of every
      segment is in the chain. */
  lemma {:induction false} FlattenMembership<T>(xss: seq<seq<T>>, x: T)
    ensures x in Flatten(xss) <==> exists k :: 0 <= k < |xss| && x in xss[k]
    decreases |xss|
  {
    if xss != [] {
      var init := xss[..|xss| - 1];
      FlattenMembership(init, x);
      if x in Flatten(xss) && x !in Flatten(init) {
        assert x in xss[|xss| - 1];
      }
      if exists k :: 0 <= k < |xss| && x in xss[k] {
        var k :| 0 <= k < |xss| && x in xss[k];
        if k < |xss| - 1 { assert x in init[k]; }
      }
    }
  }

  lemma FlattenCons<T>(x: seq<T>, xss: seq<seq<T>>)
    ensures Flatten([x] + xss) == x + Flatten(xss)
  {
    FlattenAppend([x], xss);
    assert Flatten([x]) == Flatten([]) + x;
  }

  /** The summed length of the segments. */
  function TotalLength<T>(xss: seq<seq<T>>): nat
    decreases |xss|
  {
    if xss == [] then 0 else TotalLength(xss[..|xss| - 1]) + |xss[|xss| - 1]|
  }

  lemma {:induction false} TotalLengthAppend<T>(a: seq<seq<T>>, b: seq<seq<T>>)
    ensures TotalLength(a + b) == TotalLength(a) + TotalLength(b)
    decreases |b|
  {
    if b == [] {
      assert a + b == a;
    } else {
      var b' := b[..|b| - 1];
      assert a + b == (a + b') + [b[|b| - 1]];
      assert (a + b)[..|a + b| - 1] == a + b';
      TotalLengthAppend(a, b');
    }
  }

  /** The chain is as long as the segments together. */
  lemma {:induction false} FlattenLength<T>(xss: seq<seq<T>>)
    ensures |Flatten(xss)| == TotalLength(xss)
    decreases |xss|
  {
    if xss != [] {
      FlattenLength(xss[..|xss| - 1]);
    }
  }

  // ---------------------------------------------------------------------------
  // Decimal rendering (Python's f"{n}" for a non-negative int) and its reading
  // ---------------------------------------------------------------------------

  predicate IsDigit(c: char) { '0' <= c <= '9' }

  function DigitChar(d: nat): (c: char)
    requires d < 10
    ensures IsDigit(c) && c as int - '0' as int == d
  {
    ('0' as int + d) as char
  }

  /** The shortest decimal numeral of n. */
  function Decimal(n: nat): string
    decreases n
  {
    if n < 10 then [DigitChar(n)] else Decimal(n / 10) + [DigitChar(n % 10)]
  }

  /** The value of a numeral (Python's int() on a string of digits). */
  function ReadDecimal(s: string): int
    decreases |s|
  {
    if s == [] then 0
    else ReadDecimal(s[..|s| - 1]) * 10 + (s[|s| - 1] as int - '0' as int)
  }

  /** Reading back the numeral of n gives n; the numeral is non-empty, all digits, and
      has no leading zero. */
  lemma {:induction false} DecimalRoundTrip(n: nat)
    ensures ReadDecimal(Decimal(n)) == n
    ensures Decimal(n) != [] && forall c :: c in Decimal(n) ==> IsDigit(c)
    ensures |Decimal(n)| > 1 ==> Decimal(n)[0] != '0'
    decreases n
  {
    if n >= 10 {
      DecimalRoundTrip(n / 10);
      var d := Decimal(n / 10) + [DigitChar(n % 10)];
      assert d[..|d| - 1] == Decimal(n / 10);
      assert d[0] == Decimal(n / 10)[0];
    }
  }

  // ---------------------------------------------------------------------------
  // Reading a record back: split at the first tab
  // ---------------------------------------------------------------------------

  /** The text before the first tab and the text after it, or None when there is no tab. */
  function SplitAtFirstTab(line: string): Option<(string, string)>
    decreases |line|
  {
    if line == [] then None
    else if line[0] == '\t' then Some(([], line[1..]))
    else match SplitAtFirstTab(line[1..])
      case None => None
      case Some(p) => Some(([line[0]] + p.0, p.1))
  }

  /** A prefix without a tab, then a tab, then anything: the split recovers both parts. */
  lemma {:induction false} SplitAtFirstTabOfPrefixed(prefix: string, rest: string)
    requires '\t' !in prefix
    ensures SplitAtFirstTab(prefix + "\t" + rest) == Some((prefix, rest))
    decreases |prefix|
  {
    var line := prefix + "\t" + rest;
    if prefix != [] {
      assert line[0] == prefix[0];
      assert line[1..] == prefix[1..] + "\t" + rest;
      SplitAtFirstTabOfPrefixed(prefix[1..], rest);
      assert [prefix[0]] + prefix[1..] == prefix;
    } else {
      assert line[1..] == rest;
    }
  }

  // ---------------------------------------------------------------------------
  // Random permutation (np.random.permutation), as a parameter
  // ---------------------------------------------------------------------------

  /** A shuffler gets the index of the draw and a list, and returns a reordering of the
      list: the same elements with the same multiplicities. */
  ghost predicate IsShuffler<T(!new)>(shuffle: (nat, seq<T>) -> seq<T>)
  {
    forall k: nat, xs: seq<T> :: multiset(shuffle(k, xs)) == multiset(xs)
  }
}
