/** Byte strings, their order, and the identifier encodings built on them. */
module Bytes {

  // A Go string is a sequence of bytes; a byte is a character below 256.
  type Byte = c: char | c as int < 256 witness 'a'
  type Text = seq<Byte>

  // ----- Go's byte-wise string order -----

  predicate Less(a: Text, b: Text)
  {
    if b == [] then false
    else if a == [] then true
    else if a[0] != b[0] then a[0] < b[0]
    else Less(a[1..], b[1..])
  }

  lemma {:induction false} LessIrreflexive(a: Text)
    ensures !Less(a, a)
  {
    if a == [] {
    } else {
      LessIrreflexive(a[1..]);
    }
  }

  lemma {:induction false} LessTotal(a: Text, b: Text)
    ensures a == b || Less(a, b) || Less(b, a)
  {
    if a != [] && b != [] && a[0] == b[0] {
      LessTotal(a[1..], b[1..]);
      assert a == [a[0]] + a[1..] && b == [b[0]] + b[1..];
    }
  }

  lemma {:induction false} LessTransitive(a: Text, b: Text, c: Text)
    requires Less(a, b) && Less(b, c)
    ensures Less(a, c)
  {
    if a != [] && a[0] == b[0] == c[0] {
      LessTransitive(a[1..], b[1..], c[1..]);
    }
  }

  /** `a` is a proper prefix of `b`, or has the smaller byte where they first differ. */
  ghost predicate Precedes(a: Text, b: Text)
  {
    exists i: nat :: i <= |a| && i < |b| && a[..i] == b[..i] && (i == |a| || a[i] < b[i])
  }

  lemma SameHead(a: Text, b: Text, i: nat)
    requires 0 < |a| && 0 < |b| && i <= |a| && i <= |b|
    ensures a[..i] == b[..i] ==> i == 0 || a[0] == b[0]
  {
    if i > 0 { assert a[..i][0] == a[0] && b[..i][0] == b[0]; }
  }

  /** The order compares the first differing byte; a proper prefix comes first. */
  lemma {:induction false} LessMeans(a: Text, b: Text)
    ensures Less(a, b) <==> Precedes(a, b)
  {
    if b == [] {
    } else if a == [] {
      assert a[..0] == b[..0];
    } else if a[0] != b[0] {
      assert a[..0] == b[..0];
      forall i: nat | i <= |a| && i < |b| ensures a[..i] == b[..i] ==> i == 0 { SameHead(a, b, i); }
    } else {
      var x, y := a[1..], b[1..];
      LessMeans(x, y);
      if i: nat :| i <= |x| && i < |y| && x[..i] == y[..i] && (i == |x| || x[i] < y[i]) {
        assert a[..i + 1] == [a[0]] + x[..i] && b[..i + 1] == [b[0]] + y[..i];
      }
      if i: nat :| i <= |a| && i < |b| && a[..i] == b[..i] && (i == |a| || a[i] < b[i]) {
        assert x[..i - 1] == a[..i][1..] && y[..i - 1] == b[..i][1..];
      }
    }
  }

  // ----- decimal rendering (strconv.Itoa, FormatInt, FormatUint) -----

  function Digit(d: nat): (c: Byte)
    requires d < 10
    ensures '0' <= c <= '9'
  {
    (('0' as int) + d) as char
  }

  predicate IsDigit(c: Byte) { '0' <= c <= '9' }

  predicate AllDigits(s: Text) { forall c | c in s :: IsDigit(c) }

  function DigitValue(c: Byte): (d: nat)
    requires IsDigit(c)
    ensures d < 10 && Digit(d) == c
  {
    c as int - '0' as int
  }

  function Decimal(n: nat): (s: Text)
    ensures s != [] && AllDigits(s)
    ensures |s| > 1 ==> s[0] != '0'
  {
    if n < 10 then [Digit(n)] else Decimal(n / 10) + [Digit(n % 10)]
  }

  function DecimalValue(s: Text): nat
    requires AllDigits(s)
  {
    if s == [] then 0 else 10 * DecimalValue(s[..|s| - 1]) + DigitValue(s[|s| - 1])
  }

  lemma {:induction false} DecimalRoundTrip(n: nat)
    ensures DecimalValue(Decimal(n)) == n
  {
    if n < 10 {
      assert Decimal(n)[..0] == [];
    } else {
      DecimalRoundTrip(n / 10);
      assert Decimal(n)[..|Decimal(n)| - 1] == Decimal(n / 10);
    }
  }

  // The digit strings without a leading zero are exactly the rendered numbers.
  lemma {:induction false} DecimalCanonical(s: Text)
    requires s != [] && AllDigits(s) && (|s| > 1 ==> s[0] != '0')
    ensures Decimal(DecimalValue(s)) == s
    ensures |s| > 1 ==> DecimalValue(s) >= 10
  {
    var front, last := s[..|s| - 1], s[|s| - 1];
    if |s| == 1 {
      assert front == [] && s == [last];
    } else {
      DecimalCanonical(front);
      if |front| == 1 {
        assert front == [front[0]] && front[..0] == [];
        assert DecimalValue(front) == DigitValue(front[0]) >= 1;
      }
      assert s == front + [last];
    }
  }

  function DecimalInt(n: int): Text
  {
    if n < 0 then "-" + Decimal(-n) else Decimal(n)
  }

  lemma DecimalInjective(m: nat, n: nat)
    requires Decimal(m) == Decimal(n)
    ensures m == n
  {
    DecimalRoundTrip(m);
    DecimalRoundTrip(n);
  }

  lemma DecimalIntInjective(m: int, n: int)
    requires DecimalInt(m) == DecimalInt(n)
    ensures m == n
  {
    if m < 0 {
      assert DecimalInt(m)[0] == '-';
      assert n >= 0 ==> IsDigit(DecimalInt(n)[0]);
      assert Decimal(-m) == DecimalInt(m)[1..] == DecimalInt(n)[1..] == Decimal(-n);
      DecimalInjective(-m, -n);
    } else {
      assert IsDigit(DecimalInt(m)[0]);
      DecimalInjective(m, n);
    }
  }

  // `n` without its last `i` decimal digits.
  function Shifted(n: nat, i: nat): nat { if i == 0 then n else Shifted(n / 10, i - 1) }

  /** The numeral's characters, read from the right, are the digits of the number. */
  lemma {:induction false} DecimalDigits(n: nat, i: nat)
    ensures var s := Decimal(n);
      if i < |s| then s[|s| - 1 - i] as int == '0' as int + Shifted(n, i) % 10 else Shifted(n, i) == 0
  {
    if n < 10 {
      if i > 0 { ShiftedZero(i - 1); }
    } else {
      if i > 0 { DecimalDigits(n / 10, i - 1); }
    }
  }

  lemma {:induction false} ShiftedZero(i: nat)
    ensures Shifted(0, i) == 0
  {
    if i > 0 { ShiftedZero(i - 1); }
  }

  // ----- splitting at a separator -----

  lemma {:induction false} SplitUnique(sep: Byte, a: Text, x: Text, b: Text, y: Text)
    requires sep !in a && sep !in b
    requires a + [sep] + x == b + [sep] + y
    ensures a == b && x == y
  {
    var s, t := a + [sep] + x, b + [sep] + y;
    assert s[0] == if a == [] then sep else a[0];
    assert t[0] == if b == [] then sep else b[0];
    if a != [] {
      assert s[1..] == a[1..] + [sep] + x && t[1..] == b[1..] + [sep] + y;
      SplitUnique(sep, a[1..], x, b[1..], y);
      assert a == [a[0]] + a[1..] && b == [b[0]] + b[1..];
    } else {
      assert x == s[1..] && y == t[1..];
    }
  }

  // ----- the length-prefixed list encoding -----

  function CanonicalParts(parts: seq<Text>): Text
  {
    if parts == [] then [] else Decimal(|parts[0]|) + ":" + parts[0] + CanonicalParts(parts[1..])
  }

  // The builder loop appends one prefixed part per iteration.
  method WriteParts(parts: seq<Text>) returns (s: Text)
    ensures s == CanonicalParts(parts)
  {
    s := [];
    for i := 0 to |parts|
      invariant s + CanonicalParts(parts[i..]) == CanonicalParts(parts)
    {
      ghost var rest := CanonicalParts(parts[i + 1..]);
      assert parts[i..][0] == parts[i] && parts[i..][1..] == parts[i + 1..];
      var piece := Decimal(|parts[i]|) + ":" + parts[i];
      assert s + (piece + rest) == (s + piece) + rest;
      s := s + piece;
    }
    assert parts[|parts|..] == [];
  }

  // Unique decodability: no two lists of strings share an encoding.
  lemma {:induction false} CanonicalPartsInjective(ps: seq<Text>, qs: seq<Text>)
    requires CanonicalParts(ps) == CanonicalParts(qs)
    ensures ps == qs
  {
    if ps != [] && qs != [] {
      var p, q := ps[0], qs[0];
      var pr, qr := p + CanonicalParts(ps[1..]), q + CanonicalParts(qs[1..]);
      assert CanonicalParts(ps) == Decimal(|p|) + [':'] + pr;
      assert CanonicalParts(qs) == Decimal(|q|) + [':'] + qr;
      assert !IsDigit(':');
      SplitUnique(':', Decimal(|p|), pr, Decimal(|q|), qr);
      DecimalInjective(|p|, |q|);
      assert p == pr[..|p|] == q;
      assert CanonicalParts(ps[1..]) == pr[|p|..] == qr[|q|..] == CanonicalParts(qs[1..]);
      CanonicalPartsInjective(ps[1..], qs[1..]);
      assert ps == [p] + ps[1..] && qs == [q] + qs[1..];
    }
  }

  // ----- hexadecimal and prefixed identifiers -----

  function HexDigit(d: nat): (c: Byte)
    requires d < 16
    ensures '0' <= c <= '9' || 'a' <= c <= 'f'
  {
    if d < 10 then (('0' as int) + d) as char else (('a' as int) + (d - 10)) as char
  }

  predicate IsHex(c: Byte) { '0' <= c <= '9' || 'a' <= c <= 'f' }

  function Hex(s: Text): (h: Text)
    ensures |h| == 2 * |s| && forall c | c in h :: IsHex(c)
  {
    if s == [] then [] else [HexDigit(s[0] as int / 16), HexDigit(s[0] as int % 16)] + Hex(s[1..])
  }

  const HEX: Text := "0123456789abcdef"

  /** Each byte becomes its two lower-case hexadecimal digits, the high one first. */
  lemma {:induction false} HexDigits(s: Text, i: nat)
    requires i < |s|
    ensures Hex(s)[2 * i] == HEX[s[i] as int / 16] && Hex(s)[2 * i + 1] == HEX[s[i] as int % 16]
  {
    if i == 0 {
      HexDigitIs(s[0] as int / 16);
      HexDigitIs(s[0] as int % 16);
    } else {
      HexDigits(s[1..], i - 1);
      assert Hex(s)[2..] == Hex(s[1..]);
    }
  }

  lemma HexDigitIs(d: nat)
    requires d < 16
    ensures HexDigit(d) == HEX[d]
  {
  }

  lemma HexDigitInjective(d: nat, e: nat)
    requires d < 16 && e < 16 && HexDigit(d) == HexDigit(e)
    ensures d == e
  {
    assert d < 10 <==> HexDigit(d) <= '9';
    assert e < 10 <==> HexDigit(e) <= '9';
  }

  lemma {:induction false} HexInjective(s: Text, t: Text)
    requires Hex(s) == Hex(t)
    ensures s == t
  {
    if s == [] {
    } else {
      var hs, ht := Hex(s), Hex(t);
      HexDigitInjective(s[0] as int / 16, t[0] as int / 16) by { assert hs[0] == ht[0]; }
      HexDigitInjective(s[0] as int % 16, t[0] as int % 16) by { assert hs[1] == ht[1]; }
      assert s[0] as int == t[0] as int;
      assert Hex(s[1..]) == hs[2..] == ht[2..] == Hex(t[1..]);
      HexInjective(s[1..], t[1..]);
      assert s == [s[0]] + s[1..] && t == [t[0]] + t[1..];
    }
  }

  function StableID(prefix: Text, value: Text): (id: Text)
    ensures id != []
  {
    prefix + "_" + Hex(value)
  }

  /** Identifiers with different prefixes are different, whatever they encode. */
  lemma PrefixesApart(p: Text, v: Text, q: Text, w: Text)
    requires '_' !in p && '_' !in q && p != q
    ensures StableID(p, v) != StableID(q, w)
  {
    if StableID(p, v) == StableID(q, w) { SplitUnique('_', p, Hex(v), q, Hex(w)); }
  }

  // Equal identifiers have equal prefixes and encode equal lists.
  lemma StableIDInjective(p: Text, ps: seq<Text>, q: Text, qs: seq<Text>)
    requires '_' !in p && '_' !in q
    requires StableID(p, CanonicalParts(ps)) == StableID(q, CanonicalParts(qs))
    ensures p == q && ps == qs
  {
    SplitUnique('_', p, Hex(CanonicalParts(ps)), q, Hex(CanonicalParts(qs)));
    HexInjective(CanonicalParts(ps), CanonicalParts(qs));
    CanonicalPartsInjective(ps, qs);
  }
}
