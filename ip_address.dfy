/**
 * The IP allocator of bulk provisioning: `increment_ip` (nested in
 * `provision_vms`), which adds an offset to the last octet of a dotted quad and
 * carries octet overflow towards octet 0, plus the string form of addresses it
 * parses (`int()` per field) and prints (`str()` per octet, joined with '.').
 */
module IpAddress {
  import opened Text

  /** The `parts` list of `increment_ip`: always four integers. */
  type Octets = s: seq<int> | |s| == 4 witness [0, 0, 0, 0]

  /** The address as one number, octet 0 most significant. */
  function Value(o: Octets): int
  {
    ((o[0] * 256 + o[1]) * 256 + o[2]) * 256 + o[3]
  }

  predicate Nonneg(o: Octets) { forall i :: 0 <= i < 4 ==> o[i] >= 0 }

  predicate InRange(o: Octets) { forall i :: 0 <= i < 4 ==> 0 <= o[i] <= 255 }

  /** One round of the carry loop at position `i`: an octet above 255 loses 256 once and the next one up gains 1. */
  function CarryAt(o: Octets, i: nat): (r: Octets)
    requires 1 <= i <= 3
    ensures Value(r) == Value(o)
    ensures r[0] >= o[0]
    ensures Nonneg(o) ==> Nonneg(r)
    ensures forall k :: 0 <= k < 4 && k != i && k != i - 1 ==> r[k] == o[k]
  {
    if o[i] > 255 then o[i := o[i] - 256][i - 1 := o[i - 1] + 1] else o
  }

  /** The carry rounds still to run once the loop index is `i` (positions i, i-1, ..., 1). */
  function CarryDown(o: Octets, i: nat): (r: Octets)
    requires i <= 3
    ensures Value(r) == Value(o)
    ensures r[0] >= o[0]
    ensures Nonneg(o) ==> Nonneg(r)
    decreases i
  {
    if i == 0 then o else CarryDown(CarryAt(o, i), i - 1)
  }

  /** What `increment_ip` computes on the octets: add `n` to octet 3, then carry from 3 down to 1. */
  function Increment(o: Octets, n: nat): Octets
  {
    CarryDown(o[3 := o[3] + n], 3)
  }

  /** The address grows by exactly `n`, octet 0 never goes down, and no octet becomes negative. */
  lemma IncrementValue(o: Octets, n: nat)
    ensures Value(Increment(o, n)) == Value(o) + n
    ensures Increment(o, n)[0] >= o[0]
    ensures Nonneg(o) ==> Nonneg(Increment(o, n))
  {
    assert Value(o[3 := o[3] + n]) == Value(o) + n;
  }

  /** With offset 0 a well-formed address comes back unchanged. */
  lemma IncrementZero(o: Octets)
    requires InRange(o)
    ensures Increment(o, 0) == o
  {
    assert o[3 := o[3] + 0] == o;
    assert CarryAt(o, 3) == o && CarryAt(o, 2) == o && CarryAt(o, 1) == o;
  }

  /**
   * For a well-formed base and an offset of at most 256 a single carry per
   * octet suffices: octets 1 to 3 end in 0..255 and octet 0 grows by at most
   * one, without being wrapped.
   */
  lemma IncrementBounds(o: Octets, n: nat)
    requires InRange(o) && n <= 256
    ensures forall k :: 1 <= k < 4 ==> 0 <= Increment(o, n)[k] <= 255
    ensures o[0] <= Increment(o, n)[0] <= o[0] + 1
  {
    var a := o[3 := o[3] + n];
    var b := CarryAt(a, 3);
    assert 0 <= b[3] <= 255 && 0 <= b[2] <= 256 && b[1] == o[1] && b[0] == o[0];
    var c := CarryAt(b, 2);
    assert 0 <= c[2] <= 255 && 0 <= c[1] <= 256 && c[3] == b[3] && c[0] == o[0];
    var d := CarryAt(c, 1);
    assert Increment(o, n) == d;
  }

  /** An offset above 256 is carried only once, so the last octet can stay above 255. */
  lemma LargeOffsetCarriesOnce()
    ensures Increment([10, 0, 0, 0], 600) == [10, 0, 1, 344]
  {
  }

  /** The loop of `increment_ip` over the octets, updating `parts` in place. */
  method IncrementOctets(base: Octets, n: nat) returns (parts: Octets)
    ensures parts == Increment(base, n)
  {
    parts := base[3 := base[3] + n];
    var i := 3;
    while i > 0
      invariant 0 <= i <= 3
      invariant CarryDown(parts, i) == Increment(base, n)
    {
      if parts[i] > 255 {
        parts := parts[i := parts[i] - 256];
        parts := parts[i - 1 := parts[i - 1] + 1];
      }
      i := i - 1;
    }
  }

  /** A field of a dotted quad: one to three decimal digits worth at most 255. */
  predicate IsOctetField(f: string)
  {
    1 <= |f| <= 3 && AllDigits(f) && DigitsValue(f) <= 255
  }

  /** Exactly four '.'-separated fields, each an octet field (leading zeros allowed). */
  predicate IsDottedQuad(s: string)
  {
    var fs := Split(s, '.');
    |fs| == 4 && forall i :: 0 <= i < 4 ==> IsOctetField(fs[i])
  }

  /** `list(map(int, ip.split('.')))` on a dotted quad. */
  function ParseOctets(s: string): (o: Octets)
    requires IsDottedQuad(s)
    ensures InRange(o)
  {
    var fs := Split(s, '.');
    [DigitsValue(fs[0]), DigitsValue(fs[1]), DigitsValue(fs[2]), DigitsValue(fs[3])]
  }

  /** `'.'.join(map(str, parts))`. */
  function FormatOctets(o: Octets): string
    requires Nonneg(o)
  {
    Join(".", [Show(o[0]), Show(o[1]), Show(o[2]), Show(o[3])])
  }

  /** The address `increment_ip(ip, n)` returns for a dotted-quad base. */
  function IncrementedAddress(ip: string, n: nat): string
    requires IsDottedQuad(ip)
  {
    var o := ParseOctets(ip);
    IncrementValue(o, n);
    FormatOctets(Increment(o, n))
  }

  /** `increment_ip(ip, n)`: parse, add with carry in place, print. */
  method IncrementIp(ip: string, n: nat) returns (r: string)
    requires IsDottedQuad(ip)
    ensures r == IncrementedAddress(ip, n)
  {
    var fields := Split(ip, '.');
    var parts: Octets := [DigitsValue(fields[0]), DigitsValue(fields[1]), DigitsValue(fields[2]), DigitsValue(fields[3])];
    parts := IncrementOctets(parts, n);
    IncrementValue(ParseOctets(ip), n);
    r := FormatOctets(parts);
  }

  lemma ShowShort(n: nat)
    requires n <= 255
    ensures 1 <= |Show(n)| <= 3
  {
    if n >= 10 {
      assert Show(n) == Show(n / 10) + [DigitChar(n % 10)];
      if n / 10 >= 10 {
        assert Show(n / 10) == Show(n / 100) + [DigitChar((n / 10) % 10)];
      }
    }
  }

  /** Printing well-formed octets gives a dotted quad that parses back to the same octets. */
  lemma {:induction false} FormatParse(o: Octets)
    requires InRange(o)
    ensures IsDottedQuad(FormatOctets(o))
    ensures ParseOctets(FormatOctets(o)) == o
  {
    var fs := [Show(o[0]), Show(o[1]), Show(o[2]), Show(o[3])];
    ShowShort(o[0]); ShowShort(o[1]); ShowShort(o[2]); ShowShort(o[3]);
    forall i | 0 <= i < 4 ensures '.' !in fs[i] {
      assert !IsDigit('.');
    }
    SplitJoin(fs, '.');
  }

  /** A dotted quad written without leading zeros is printed back exactly as it was parsed. */
  lemma {:induction false} ParseFormat(s: string)
    requires IsDottedQuad(s)
    requires forall i :: 0 <= i < 4 ==> Canonical(Split(s, '.')[i])
    ensures FormatOctets(ParseOctets(s)) == s
  {
    var fs := Split(s, '.');
    ShowOfDigitsValue(fs[0]); ShowOfDigitsValue(fs[1]);
    ShowOfDigitsValue(fs[2]); ShowOfDigitsValue(fs[3]);
    assert fs == [fs[0], fs[1], fs[2], fs[3]];
    JoinSplit(s, '.');
  }

  lemma JoinFour(a: string, b: string, c: string, d: string)
    ensures Join(".", [a, b, c, d]) == a + "." + b + "." + c + "." + d
  {
    assert [a, b, c, d][1..] == [b, c, d];
    assert [b, c, d][1..] == [c, d];
    assert [c, d][1..] == [d];
    assert Join(".", [c, d]) == c + "." + d;
    assert Join(".", [b, c, d]) == b + "." + (c + "." + d);
    assert Join(".", [a, b, c, d]) == a + "." + (b + "." + (c + "." + d));
  }

  /** `increment_ip(ip, 0)` returns `ip` itself when no field has a leading zero. */
  lemma IncrementedZero(ip: string)
    requires IsDottedQuad(ip)
    requires forall i :: 0 <= i < 4 ==> Canonical(Split(ip, '.')[i])
    ensures IncrementedAddress(ip, 0) == ip
  {
    IncrementZero(ParseOctets(ip));
    ParseFormat(ip);
  }

  /** Leading zeros, which the address validator accepts, are dropped even for offset 0. */
  lemma IncrementedZeroDropsLeadingZeros()
    ensures IsDottedQuad("10.0.0.07")
    ensures IncrementedAddress("10.0.0.07", 0) == "10.0.0.7"
  {
    LeadingZeroParsed();
    IncrementZero([10, 0, 0, 7]);
    LeadingZeroDropped();
  }

  lemma LeadingZeroParsed()
    ensures IsDottedQuad("10.0.0.07") && ParseOctets("10.0.0.07") == [10, 0, 0, 7]
  {
    var fs := ["10", "0", "0", "07"];
    LeadingZeroSplit();
    assert DigitsValue("07") == 7 && DigitsValue("10") == 10 && DigitsValue("0") == 0 by {
      assert "07"[..1] == "0";
      assert "10"[..1] == "1";
    }
    ParseFields("10.0.0.07", fs);
  }

  /** An address whose four fields are octet fields parses to their values. */
  lemma ParseFields(s: string, fs: seq<string>)
    requires Split(s, '.') == fs && |fs| == 4
    requires IsOctetField(fs[0]) && IsOctetField(fs[1]) && IsOctetField(fs[2]) && IsOctetField(fs[3])
    ensures IsDottedQuad(s)
    ensures ParseOctets(s) == [DigitsValue(fs[0]), DigitsValue(fs[1]), DigitsValue(fs[2]), DigitsValue(fs[3])]
  {
  }

  lemma LeadingZeroSplit()
    ensures Split("10.0.0.07", '.') == ["10", "0", "0", "07"]
  {
    var fs := ["10", "0", "0", "07"];
    JoinFour("10", "0", "0", "07");
    assert Join(".", fs) == "10.0.0.07";
    assert forall i :: 0 <= i < 4 ==> '.' !in fs[i];
    SplitJoin(fs, '.');
  }

  lemma LeadingZeroDropped()
    ensures FormatOctets([10, 0, 0, 7]) == "10.0.0.7"
  {
    assert Show(10) == "10" && Show(7) == "7" && Show(0) == "0";
    JoinFour("10", "0", "0", "7");
  }

  /**
   * When the sum stays below 2^32, the n-th address after a valid base (n at
   * most 256) is again a valid dotted quad, numerically `n` past the base.
   */
  lemma IncrementedIsValid(ip: string, n: nat)
    requires IsDottedQuad(ip) && n <= 256
    requires Value(ParseOctets(ip)) + n < 0x1_0000_0000
    ensures IsDottedQuad(IncrementedAddress(ip, n))
    ensures Value(ParseOctets(IncrementedAddress(ip, n))) == Value(ParseOctets(ip)) + n
  {
    var o := ParseOctets(ip);
    var r := Increment(o, n);
    IncrementValue(o, n);
    IncrementBounds(o, n);
    assert r[0] <= 255;
    FormatParse(r);
  }
}
