/** Big-endian words, as written and read by the binary package. */
module BigEndian {
  import opened Blocks

  function Pow256(k: nat): (p: nat)
    ensures p > 0
  {
    if k == 0 then 1 else 256 * Pow256(k - 1)
  }

  /** The k lowest bytes of n, the most significant first. Negative numbers are written in
      two's complement, and numbers that are too wide are truncated. */
  function Word(k: nat, n: int): (w: seq<byte>)
    ensures |w| == k
  {
    if k == 0 then [] else Word(k - 1, n / 256) + [n % 256]
  }

  function Unsigned(w: seq<byte>): nat {
    if w == [] then 0 else Unsigned(w[..|w| - 1]) * 256 + w[|w| - 1]
  }

  function Signed(w: seq<byte>): int {
    var n := Unsigned(w);
    if n < Pow256(|w|) / 2 then n else n - Pow256(|w|)
  }

  lemma {:induction false} UnsignedWord(k: nat, n: int)
    requires 0 <= n < Pow256(k)
    ensures Unsigned(Word(k, n)) == n
  {
    if k > 0 {
      UnsignedWord(k - 1, n / 256);
      assert Word(k, n)[..k - 1] == Word(k - 1, n / 256);
    }
  }

  /** Words do not see multiples of their range. */
  lemma {:induction false} WordWraps(k: nat, n: int)
    ensures Word(k, n) == Word(k, n + Pow256(k))
  {
    if k > 0 {
      WordWraps(k - 1, n / 256);
      assert (n + Pow256(k)) / 256 == n / 256 + Pow256(k - 1);
      assert (n + Pow256(k)) % 256 == n % 256;
    }
  }

  lemma SignedWord(k: nat, n: int)
    requires k > 0 && -(Pow256(k) / 2) <= n < Pow256(k) / 2
    ensures Signed(Word(k, n)) == n
  {
    assert Pow256(k) % 2 == 0;
    if n < 0 {
      WordWraps(k, n);
      UnsignedWord(k, n + Pow256(k));
    } else {
      UnsignedWord(k, n);
    }
  }

  lemma Powers()
    ensures Pow256(0) == 1 && Pow256(1) == 0x100
    ensures Pow256(2) == 0x1_0000 && Pow256(3) == 0x100_0000
    ensures Pow256(4) == 0x1_0000_0000 && Pow256(5) == 0x100_0000_0000
    ensures Pow256(6) == 0x1_0000_0000_0000 && Pow256(7) == 0x100_0000_0000_0000
    ensures Pow256(8) == 0x1_0000_0000_0000_0000
  {
    assert Pow256(2) == 256 * Pow256(1);
    assert Pow256(4) == 256 * Pow256(3) && Pow256(3) == 256 * Pow256(2);
    assert Pow256(6) == 256 * Pow256(5) && Pow256(5) == 256 * Pow256(4);
    assert Pow256(8) == 256 * Pow256(7) && Pow256(7) == 256 * Pow256(6);
  }

  lemma DivTwice(n: int, a: int, b: int)
    requires a > 0 && b > 0
    ensures a * b > 0 && n / (a * b) == (n / a) / b
  {
    var q, r := n / a, n % a;
    var q', r' := q / b, q % b;
    assert n == q * a + r && q == q' * b + r';
    Regrouped(q', r', a, b);
    Within(r', r, a, b);
    QuotientIs(n, a * b, q', r' * a + r);
  }

  lemma Regrouped(q: int, r: int, a: int, b: int)
    ensures (q * b + r) * a == q * (a * b) + r * a
  {
  }

  lemma Within(q: int, r: int, a: int, b: int)
    requires 0 <= q < b && 0 <= r < a
    ensures 0 <= q * a + r < a * b
  {
    AtLeast(b - q, a);
    assert (b - q) * a == a * b - q * a;
    assert q * a >= 0;
  }

  lemma QuotientIs(n: int, d: int, q: int, r: int)
    requires n == q * d + r && 0 <= r < d
    ensures n / d == q
  {
    var q', r' := n / d, n % d;
    assert n == q' * d + r';
    NoLarger(d, q, r, q', r');
    NoLarger(d, q', r', q, r);
  }

  lemma NoLarger(d: int, q: int, r: int, q': int, r': int)
    requires q * d + r == q' * d + r' && 0 <= r < d && 0 <= r' < d
    ensures q' <= q
  {
    if q < q' {
      AtLeast(q' - q, d);
      assert false;
    }
  }

  lemma AtLeast(k: int, d: nat)
    requires k >= 1
    ensures k * d >= d
  {
    assert k * d == (k - 1) * d + d;
  }

  /** The byte in each place of a word: the first is the most significant. */
  lemma {:induction false} WordByte(k: nat, n: int, i: nat)
    requires i < k
    ensures Word(k, n)[i] == n / Pow256(k - 1 - i) % 256
  {
    if i < k - 1 {
      WordByte(k - 1, n / 256, i);
      DivTwice(n, 256, Pow256(k - 2 - i));
      assert Pow256(k - 1 - i) == 256 * Pow256(k - 2 - i);
    }
  }

  /** A sequence of words. */
  function Words(k: nat, ns: seq<int>): seq<byte> {
    if ns == [] then [] else Word(k, ns[0]) + Words(k, ns[1..])
  }

  function SignedWords(k: nat, w: seq<byte>): seq<int> {
    if k == 0 || |w| < k then [] else [Signed(w[..k])] + SignedWords(k, w[k..])
  }

  lemma {:induction false} WordsLength(k: nat, ns: seq<int>)
    ensures |Words(k, ns)| == k * |ns|
  {
    if ns != [] {
      WordsLength(k, ns[1..]);
      assert k * |ns| == k + k * (|ns| - 1);
    }
  }

  /** The words of a sequence follow each other in order. */
  lemma {:induction false} WordsAt(k: nat, ns: seq<int>, m: nat)
    requires m < |ns|
    ensures 0 <= k * m && k * m + k <= |Words(k, ns)| == k * |ns|
    ensures Words(k, ns)[k * m..k * m + k] == Word(k, ns[m])
  {
    hide Pow256, Word;
    WordsLength(k, ns);
    assert k * |ns| == k + k * (|ns| - 1);
    if m > 0 {
      WordsAt(k, ns[1..], m - 1);
      assert k * m == k + k * (m - 1);
    }
  }

  lemma {:induction false} SignedWordsOf(k: nat, ns: seq<int>)
    requires k > 0
    requires forall i :: 0 <= i < |ns| ==> -(Pow256(k) / 2) <= ns[i] < Pow256(k) / 2
    ensures SignedWords(k, Words(k, ns)) == ns
  {
    hide Pow256, Word, Signed;
    if ns != [] {
      SignedWordsOf(k, ns[1..]);
      SignedWord(k, ns[0]);
      var w := Words(k, ns);
      assert w[..k] == Word(k, ns[0]) && w[k..] == Words(k, ns[1..]);
    }
  }
}
