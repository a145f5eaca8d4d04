/** Record identifiers: `prefix ++ last ten digits of the microsecond
    timestamp ++ the first twelve characters of the SHA-256 hex digest,
    upper-cased`. The clock reading (whole microseconds) and the digest
    of the timestamp text and the secret key are inputs. */
module IdGenerator {
  import opened Common

  const TimeDigits: nat := 10
  const HashChars: nat := 12
  const TaskPrefix := "TASK_"
  const CategoryPrefix := "CAT_"

  /** What `hashlib.sha256(...).hexdigest()` returns: 64 lower-case hex digits. */
  predicate IsHexDigest(d: string) {
    |d| == 64 && forall i :: 0 <= i < |d| ==> IsDigit(d[i]) || 'a' <= d[i] <= 'f'
  }

  predicate IsUpperHex(s: string) {
    forall i :: 0 <= i < |s| ==> IsDigit(s[i]) || 'A' <= s[i] <= 'F'
  }

  function Pow10(k: nat): (p: nat)
    ensures p >= 1
  {
    if k == 0 then 1 else 10 * Pow10(k - 1)
  }

  /** The time part: `str(micros)[-10:]`. */
  function TimePart(micros: nat): (t: string)
    ensures |t| <= TimeDigits && AllDigits(t)
    ensures |t| == if |DecimalText(micros)| < TimeDigits then |DecimalText(micros)| else TimeDigits
    ensures |t| <= |DecimalText(micros)| && t == DecimalText(micros)[|DecimalText(micros)| - |t|..]
  {
    var s := DecimalText(micros);
    if |s| <= TimeDigits then s else s[|s| - TimeDigits..]
  }

  /** The hash part: `digest[:12].upper()`. */
  function HashPart(digest: string): (h: string)
    ensures |h| == if |digest| < HashChars then |digest| else HashChars
    ensures forall i :: 0 <= i < |h| ==> h[i] == UpperChar(digest[i])
  {
    Upper(if |digest| <= HashChars then digest else digest[..HashChars])
  }

  /** `generate_custom_id(prefix)` with the clock reading and the digest as inputs. */
  function GenerateCustomId(prefix: string, micros: nat, digest: string): (id: string)
    ensures StartsWith(id, prefix)
    ensures |id| <= |prefix| + TimeDigits + HashChars
  {
    prefix + TimePart(micros) + HashPart(digest)
  }

  function GenerateTaskId(micros: nat, digest: string): (id: string)
    ensures StartsWith(id, TaskPrefix)
  {
    GenerateCustomId(TaskPrefix, micros, digest)
  }

  function GenerateCategoryId(micros: nat, digest: string): (id: string)
    ensures StartsWith(id, CategoryPrefix)
  {
    GenerateCustomId(CategoryPrefix, micros, digest)
  }

  // ---------------------------------------------------------------------
  // Decimal digits and their value

  function DigitValue(c: char): int { c as int - 48 }

  /** The number a string of decimal digits denotes (leading zeros allowed). */
  function DigitsValue(s: string): nat
    requires AllDigits(s)
  {
    if s == [] then 0 else 10 * DigitsValue(s[..|s| - 1]) + DigitValue(s[|s| - 1])
  }

  lemma ModUnique(n: int, m: int, a: int, r: int)
    requires m > 0 && 0 <= r < m && n == a * m + r
    ensures n % m == r && n / m == a
  {
    var q, r' := n / m, n % m;
    assert n == q * m + r';
    assert (q - a) * m == r - r';
    if q > a {
      MulAtLeast(q - a, m);
    } else if q < a {
      MulAtLeast(a - q, m);
    }
  }

  lemma MulAtLeast(d: int, m: int)
    requires d >= 1 && m > 0
    ensures d * m >= m
  {
    assert d * m == (d - 1) * m + m;
  }

  lemma ModStep(n: nat, k: nat)
    requires k >= 1
    ensures 10 * ((n / 10) % Pow10(k - 1)) + n % 10 == n % Pow10(k)
  {
    var p := Pow10(k - 1);
    var q, r := n / 10, n % 10;
    var a, b := q / p, q % p;
    assert q == a * p + b;
    assert n == 10 * q + r;
    assert 10 * q == a * (10 * p) + 10 * b;
    ModUnique(n, 10 * p, a, 10 * b + r);
  }

  lemma DigitsValueSnoc(u: string, c: char)
    requires AllDigits(u) && IsDigit(c)
    ensures AllDigits(u + [c]) && DigitsValue(u + [c]) == 10 * DigitsValue(u) + DigitValue(c)
  {
    assert (u + [c])[..|u|] == u;
  }

  /** The last `k` digits of `str(n)` denote `n % 10^k`. */
  lemma {:induction false} SuffixValue(n: nat, k: nat)
    requires k <= |DecimalText(n)|
    ensures DigitsValue(DecimalText(n)[|DecimalText(n)| - k..]) == n % Pow10(k)
  {
    var s := DecimalText(n);
    if k == 0 {
      assert s[|s| - k..] == [];
    } else if n < 10 {
      assert s[|s| - k..] == [] + [DigitChar(n)];
      DigitsValueSnoc([], DigitChar(n));
    } else {
      var s' := DecimalText(n / 10);
      var u := s'[|s'| - (k - 1)..];
      var c := DigitChar(n % 10);
      assert s == s' + [c];
      assert |s| == |s'| + 1 && k - 1 <= |s'|;
      assert s[|s| - k..] == s'[|s'| - (k - 1)..] + [c];
      DigitsValueSnoc(u, c);
      SuffixValue(n / 10, k - 1);
      ModStep(n, k);
    }
  }

  /** Digit strings of equal length with equal value are equal. */
  lemma {:induction false} DigitsValueInjective(s: string, t: string)
    requires AllDigits(s) && AllDigits(t) && |s| == |t|
    requires DigitsValue(s) == DigitsValue(t)
    ensures s == t
  {
    if s != [] {
      var n := |s| - 1;
      assert AllDigits(s[..n]) && AllDigits(t[..n]);
      DigitsValueInjective(s[..n], t[..n]);
      assert s == s[..n] + [s[n]] && t == t[..n] + [t[n]];
    }
  }

  /** Numbers of at least `k + 1` digits are written with more than `k` characters. */
  lemma {:induction false} DecimalLength(n: nat, k: nat)
    requires n >= Pow10(k)
    ensures |DecimalText(n)| > k
  {
    if k > 0 {
      assert n / 10 >= Pow10(k - 1);
      DecimalLength(n / 10, k - 1);
    }
  }

  /** Every timestamp of ten or more digits (in microseconds since 1970,
      any value of at least 10^9, that is from about 17 minutes after the
      epoch on) gives a time part of exactly ten digits, which denotes the
      timestamp modulo 10^10. */
  lemma TimePartValue(micros: nat)
    requires micros >= Pow10(9)
    ensures |TimePart(micros)| == TimeDigits
    ensures DigitsValue(TimePart(micros)) == micros % Pow10(TimeDigits)
  {
    var s := DecimalText(micros);
    DecimalLength(micros, 9);
    assert TimePart(micros) == s[|s| - TimeDigits..] by {
      if |s| == TimeDigits {
        assert s[|s| - TimeDigits..] == s;
      }
    }
    SuffixValue(micros, TimeDigits);
  }

  /** Two such timestamps give the same time part exactly when they agree modulo 10^10. */
  lemma TimePartInjective(m1: nat, m2: nat)
    requires m1 >= Pow10(9) && m2 >= Pow10(9)
    ensures TimePart(m1) == TimePart(m2) <==> m1 % Pow10(TimeDigits) == m2 % Pow10(TimeDigits)
  {
    TimePartValue(m1);
    TimePartValue(m2);
    if m1 % Pow10(TimeDigits) == m2 % Pow10(TimeDigits) {
      DigitsValueInjective(TimePart(m1), TimePart(m2));
    }
  }

  /** The shape of an id: the prefix, ten decimal digits, twelve upper-case hex digits. */
  lemma IdShape(prefix: string, micros: nat, digest: string)
    requires micros >= Pow10(9) && IsHexDigest(digest)
    ensures var id := GenerateCustomId(prefix, micros, digest);
      && |id| == |prefix| + TimeDigits + HashChars
      && id[..|prefix|] == prefix
      && AllDigits(id[|prefix|..|prefix| + TimeDigits])
      && DigitsValue(id[|prefix|..|prefix| + TimeDigits]) == micros % Pow10(TimeDigits)
      && IsUpperHex(id[|prefix| + TimeDigits..])
      && id[|prefix| + TimeDigits..] == Upper(digest[..HashChars])
  {
    TimePartValue(micros);
    var id := GenerateCustomId(prefix, micros, digest);
    assert id[|prefix|..|prefix| + TimeDigits] == TimePart(micros);
    assert id[|prefix| + TimeDigits..] == HashPart(digest);
  }

  /** Under one prefix, ids are equal exactly when the timestamps agree in
      their last ten digits and the digests agree in their first twelve. */
  lemma CustomIdInjective(prefix: string, m1: nat, d1: string, m2: nat, d2: string)
    requires m1 >= Pow10(9) && m2 >= Pow10(9)
    requires |d1| >= HashChars && |d2| >= HashChars
    ensures GenerateCustomId(prefix, m1, d1) == GenerateCustomId(prefix, m2, d2)
        <==> m1 % Pow10(TimeDigits) == m2 % Pow10(TimeDigits) && HashPart(d1) == HashPart(d2)
  {
    TimePartInjective(m1, m2);
    TimePartValue(m1);
    TimePartValue(m2);
    var id1 := GenerateCustomId(prefix, m1, d1);
    var id2 := GenerateCustomId(prefix, m2, d2);
    var n := |prefix|;
    if id1 == id2 {
      assert id1[n..n + TimeDigits] == TimePart(m1);
      assert id2[n..n + TimeDigits] == TimePart(m2);
      assert id1[n + TimeDigits..] == HashPart(d1);
      assert id2[n + TimeDigits..] == HashPart(d2);
    }
  }

  lemma ModDiffers(m1: nat, m2: nat, p: nat)
    requires p > 0 && m1 < m2 < m1 + p
    ensures m1 % p != m2 % p
  {
    var a, r, d := m1 / p, m1 % p, m2 - m1;
    assert m1 == a * p + r;
    if r + d < p {
      ModUnique(m2, p, a, r + d);
    } else {
      assert m2 == (a + 1) * p + (r + d - p);
      ModUnique(m2, p, a + 1, r + d - p);
    }
  }

  /** Timestamps less than 10^10 microseconds (about 2.7 hours) apart give
      different task ids whatever the digests: what the uniqueness of two
      ids created one after the other rests on. */
  lemma DistinctTaskIdsWithinWindow(m1: nat, d1: string, m2: nat, d2: string)
    requires Pow10(9) <= m1 < m2 < m1 + Pow10(TimeDigits)
    requires |d1| >= HashChars && |d2| >= HashChars
    ensures GenerateTaskId(m1, d1) != GenerateTaskId(m2, d2)
  {
    ModDiffers(m1, m2, Pow10(TimeDigits));
    CustomIdInjective(TaskPrefix, m1, d1, m2, d2);
  }

  /** Task ids and category ids never coincide: their prefixes differ at the first character. */
  lemma TaskAndCategoryIdsDiffer(m1: nat, d1: string, m2: nat, d2: string)
    ensures GenerateTaskId(m1, d1) != GenerateCategoryId(m2, d2)
  {
    var t, c := GenerateTaskId(m1, d1), GenerateCategoryId(m2, d2);
    assert t[0] == 'T' && c[0] == 'C';
  }
}
