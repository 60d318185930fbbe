/** The numeric IPv4 spellings a C resolver accepts: one to four parts, each decimal, octal (leading 0) or hex
    (leading 0x), the last part absorbing the bytes the earlier ones leave. */
module InetAton {
  import opened Options
  import opened Arithmetic

  // ----- digits -----

  const NO_DIGIT: nat := 99

  function DigitOf(c: char): nat {
    if '0' <= c <= '9' then c as int - '0' as int
    else if 'a' <= c <= 'f' then c as int - 'a' as int + 10
    else if 'A' <= c <= 'F' then c as int - 'A' as int + 10
    else NO_DIGIT
  }

  predicate AllDigits(s: string, base: nat) {
    forall i :: 0 <= i < |s| ==> DigitOf(s[i]) < base
  }

  function Value(s: string, base: nat): nat {
    if s == "" then 0 else Value(s[..|s| - 1], base) * base + DigitOf(s[|s| - 1])
  }

  /** The library parser for an unsigned 64-bit number in a given base. */
  function ParseUint(s: string, base: nat): Option<nat> {
    if s == "" || !AllDigits(s, base) || Value(s, base) >= 0x1_0000_0000_0000_0000 then None else Some(Value(s, base))
  }

  // ----- one part -----

  function ParsePart(p: string): Option<nat> {
    var (base, digits) :=
      if |p| >= 2 && p[0] == '0' && (p[1] == 'x' || p[1] == 'X') then (16, p[2..])
      else if |p| > 1 && p[0] == '0' then (8, p[1..])
      else (10, p);
    var v := ParseUint(digits, base);
    if v.None? || v.value > 0xffff_ffff then None else v
  }

  function BaseOf(prefix: string): nat {
    if prefix == "" then 10 else if prefix == "0" then 8 else 16
  }

  /** The grammar of a part: a prefix that names the base, then at least one digit of that base. */
  predicate Written(p: string, prefix: string, digits: string) {
    && p == prefix + digits && digits != "" && AllDigits(digits, BaseOf(prefix))
    && prefix in {"", "0", "0x", "0X"}
    && (prefix == "" ==> |digits| == 1 || digits[0] != '0')
  }

  ghost predicate DenotesPart(p: string, v: nat) {
    exists prefix, digits :: Written(p, prefix, digits) && Value(digits, BaseOf(prefix)) == v
  }

  function PrefixOf(p: string): string {
    if |p| >= 2 && p[0] == '0' && p[1] == 'x' then "0x"
    else if |p| >= 2 && p[0] == '0' && p[1] == 'X' then "0X"
    else if |p| > 1 && p[0] == '0' then "0"
    else ""
  }

  lemma ParsedIsWritten(p: string, v: nat)
    requires ParsePart(p) == Some(v)
    ensures DenotesPart(p, v) && v <= 0xffff_ffff
  {
    hide Value, AllDigits;
    var prefix := PrefixOf(p);
    assert p == prefix + p[|prefix|..];
    assert Written(p, prefix, p[|prefix|..]);
  }

  lemma WrittenIsParsed(p: string, prefix: string, digits: string)
    requires Written(p, prefix, digits) && Value(digits, BaseOf(prefix)) <= 0xffff_ffff
    ensures ParsePart(p) == Some(Value(digits, BaseOf(prefix)))
  {
    hide Value, AllDigits;
    WrittenOneWay(p, prefix, digits);
  }

  /** The part parser decides the grammar: it accepts exactly the written parts below 2^32, with their value. */
  lemma ParsePartExact(p: string, v: nat)
    ensures ParsePart(p) == Some(v) <==> DenotesPart(p, v) && v <= 0xffff_ffff
  {
    hide Value, AllDigits, ParsePart, Written;
    if ParsePart(p) == Some(v) {
      ParsedIsWritten(p, v);
    }
    if DenotesPart(p, v) && v <= 0xffff_ffff {
      var prefix, digits :| Written(p, prefix, digits) && Value(digits, BaseOf(prefix)) == v;
      WrittenIsParsed(p, prefix, digits);
    }
  }

  /** The prefix is forced by the first two characters. */
  lemma WrittenOneWay(p: string, prefix: string, digits: string)
    requires Written(p, prefix, digits)
    ensures prefix == PrefixOf(p) && digits == p[|prefix|..]
  {
    assert digits[0] == p[|prefix|];
    assert |prefix| < 2 && |p| >= 2 ==> p[1] == digits[1 - |prefix|];
  }

  // ----- splitting on dots -----

  function Split(s: string): (r: seq<string>)
    ensures |r| > 0
  {
    if s == "" then [""]
    else
      var rest := Split(s[1..]);
      if s[0] == '.' then [""] + rest else [[s[0]] + rest[0]] + rest[1..]
  }

  function Join(parts: seq<string>): string
    requires |parts| > 0
  {
    if |parts| == 1 then parts[0] else parts[0] + "." + Join(parts[1..])
  }

  predicate DotFree(parts: seq<string>) {
    forall i :: 0 <= i < |parts| ==> '.' !in parts[i]
  }

  /** Splitting undoes joining ... */
  lemma {:induction false} SplitJoin(s: string)
    ensures Join(Split(s)) == s && DotFree(Split(s))
  {
    if s != "" {
      SplitJoin(s[1..]);
      var rest := Split(s[1..]);
      if s[0] == '.' {
        assert Split(s)[1..] == rest;
      } else {
        assert Split(s)[1..] == rest[1..];
      }
    }
  }

  /** ... and joining undoes splitting. */
  lemma {:induction false} JoinSplit(parts: seq<string>)
    requires |parts| > 0 && DotFree(parts)
    ensures Split(Join(parts)) == parts
    decreases |parts|, |parts[0]|
  {
    var s := Join(parts);
    if parts[0] != "" {
      var fewer := [parts[0][1..]] + parts[1..];
      JoinSplit(fewer);
      assert fewer[1..] == parts[1..];
      assert s[1..] == Join(fewer);
      assert s[0] == parts[0][0];
      assert parts[0] == [s[0]] + fewer[0];
      assert parts == [[s[0]] + fewer[0]] + fewer[1..];
    } else if |parts| > 1 {
      JoinSplit(parts[1..]);
      assert s[1..] == Join(parts[1..]);
      assert parts == [""] + parts[1..];
    }
  }

  // ----- addresses -----

  function Place(i: nat): nat
    requires i < 4
  {
    if i == 0 then 0x100_0000 else if i == 1 then 0x1_0000 else if i == 2 then 0x100 else 1
  }

  /** The range of the last of `n` parts. */
  function LastRange(n: nat): nat
    requires 1 <= n <= 4
  {
    if n == 1 then 0x1_0000_0000 else Place(n - 2)
  }

  predicate Fits(vals: seq<nat>) {
    && 1 <= |vals| <= 4 && (forall i :: 0 <= i < |vals| - 1 ==> vals[i] <= 0xff)
    && vals[|vals| - 1] < LastRange(|vals|)
  }

  function Bytes(vals: seq<nat>, k: nat): nat
    requires k <= |vals| && k <= 4
  {
    if k == 0 then 0 else Bytes(vals, k - 1) + vals[k - 1] * Place(k - 1)
  }

  function Address(vals: seq<nat>): nat
    requires 1 <= |vals| <= 4
  {
    Bytes(vals, |vals| - 1) + vals[|vals| - 1]
  }

  /** The address cut into `n` parts. */
  function Fields(addr: nat, n: nat): seq<nat>
    requires 1 <= n <= 4
  {
    seq(n - 1, i requires 0 <= i < 3 => addr / Place(i) % 0x100) + [addr % LastRange(n)]
  }

  /** The first `k` bytes of an address are its leading bits. */
  lemma {:induction false} LeadingBytes(addr: nat, n: nat, k: nat)
    requires addr < 0x1_0000_0000 && k < n <= 4
    ensures Bytes(Fields(addr, n), k) == if k == 0 then 0 else addr / Place(k - 1) * Place(k - 1)
  {
    if k > 0 {
      LeadingBytes(addr, n, k - 1);
      assert Fields(addr, n)[k - 1] == addr / Place(k - 1) % 0x100;
      NextByte(addr, k - 1);
    }
  }

  lemma NextByte(addr: nat, i: nat)
    requires addr < 0x1_0000_0000 && i < 3
    ensures (if i == 0 then 0 else addr / Place(i - 1) * Place(i - 1)) + addr / Place(i) % 0x100 * Place(i)
            == addr / Place(i) * Place(i)
  {
    if i == 1 {
      DivideTwice(addr, 0x1_0000, 0x100_0000);
    } else if i == 2 {
      DivideTwice(addr, 0x100, 0x1_0000);
    }
  }

  lemma DivideTwice(x: nat, place: nat, above: nat)
    requires place > 0 && above == place * 0x100
    ensures x / above * above + x / place % 0x100 * place == x / place * place
  {
    var q := x / place;
    var (b, d) := (q / 0x100, q % 0x100);
    assert b * above == b * 0x100 * place;
    assert q * place == (b * 0x100 + d) * place == b * above + d * place;
    assert 0 <= x - q * place < place;
    assert (d + 1) * place <= 0x100 * place by { MulMonotone(d + 1, 0x100, place); }
    assert 0 <= d * place by { MulNonNegative(d, place); }
    DivModUnique(x, above, b, d * place + (x - q * place));
  }

  /** Cutting and assembling are inverse on in-range values. */
  lemma FieldsAddress(addr: nat, n: nat)
    requires addr < 0x1_0000_0000 && 1 <= n <= 4
    ensures Fits(Fields(addr, n)) && Address(Fields(addr, n)) == addr
  {
    LeadingBytes(addr, n, n - 1);
  }

  lemma AddressFields(vals: seq<nat>)
    requires Fits(vals)
    ensures Address(vals) < 0x1_0000_0000 && Fields(Address(vals), |vals|) == vals
  {
    hide Address;
    var n, x := |vals|, Address(vals);
    AddressCut(vals);
    assert forall i :: 0 <= i < n - 1 ==> Fields(x, n)[i] == vals[i];
    assert Fields(x, n)[n - 1] == vals[n - 1];
  }

  lemma AddressCut(vals: seq<nat>)
    requires Fits(vals)
    ensures var (n, x) := (|vals|, Address(vals));
            && 1 <= n <= 4 && x < 0x1_0000_0000 && x % LastRange(n) == vals[n - 1]
            && forall i :: 0 <= i < n - 1 ==> x / Place(i) % 0x100 == vals[i]
  {
    var n := |vals|;
    SumOfBytes(vals);
    hide Address;
    if n == 2 {
      CutTwo(vals[0], vals[1]);
    } else if n == 3 {
      CutThree(vals[0], vals[1], vals[2]);
    } else if n == 4 {
      CutFour(vals[0], vals[1], vals[2], vals[3]);
    }
  }

  lemma SumOfBytes(vals: seq<nat>)
    requires 1 <= |vals| <= 4
    ensures Address(vals) == vals[|vals| - 1] + (if |vals| > 1 then vals[0] * 0x100_0000 else 0)
                             + (if |vals| > 2 then vals[1] * 0x1_0000 else 0)
                             + (if |vals| > 3 then vals[2] * 0x100 else 0)
  {
    assert Bytes(vals, 0) == 0;
    if |vals| > 1 { assert Bytes(vals, 1) == vals[0] * 0x100_0000; }
    if |vals| > 2 { assert Bytes(vals, 2) == Bytes(vals, 1) + vals[1] * 0x1_0000; }
    if |vals| > 3 { assert Bytes(vals, 3) == Bytes(vals, 2) + vals[2] * 0x100; }
  }

  lemma CutTwo(a: nat, b: nat)
    requires a <= 0xff && b < 0x100_0000
    ensures var x := a * 0x100_0000 + b;
            x < 0x1_0000_0000 && x / 0x100_0000 % 0x100 == a && x % 0x100_0000 == b
  {
  }

  lemma CutThree(a: nat, b: nat, c: nat)
    requires a <= 0xff && b <= 0xff && c < 0x1_0000
    ensures var x := a * 0x100_0000 + b * 0x1_0000 + c;
            x < 0x1_0000_0000 && x / 0x100_0000 % 0x100 == a && x / 0x1_0000 % 0x100 == b && x % 0x1_0000 == c
  {
    CutTwo(a, b * 0x1_0000 + c);
    assert (a * 0x100_0000 + b * 0x1_0000 + c) / 0x1_0000 == a * 0x100 + b;
  }

  lemma CutFour(a: nat, b: nat, c: nat, d: nat)
    requires a <= 0xff && b <= 0xff && c <= 0xff && d <= 0xff
    ensures var x := a * 0x100_0000 + b * 0x1_0000 + c * 0x100 + d;
            && x < 0x1_0000_0000 && x / 0x100_0000 % 0x100 == a && x / 0x1_0000 % 0x100 == b
            && x / 0x100 % 0x100 == c && x % 0x100 == d
  {
    CutThree(a, b, c * 0x100 + d);
    assert (a * 0x100_0000 + b * 0x1_0000 + c * 0x100 + d) / 0x100 == a * 0x1_0000 + b * 0x100 + c;
  }

  // ----- what a host string denotes -----

  predicate Spells(host: string, parts: seq<string>, vals: seq<nat>) {
    1 <= |parts| == |vals| <= 4 && host == Join(parts) && Fits(vals)
  }

  ghost predicate AllDenote(parts: seq<string>, vals: seq<nat>) {
    |parts| == |vals| && forall i :: 0 <= i < |parts| ==> DenotesPart(parts[i], vals[i])
  }

  ghost predicate Denotes(host: string, addr: nat) {
    exists parts, vals :: Spells(host, parts, vals) && AllDenote(parts, vals) && Address(vals) == addr
  }

  lemma {:induction false} ValuesDetermined(parts: seq<string>, vals: seq<nat>)
    requires AllDenote(parts, vals) && Fits(vals)
    ensures DotFree(parts)
    ensures forall i :: 0 <= i < |parts| ==> ParsePart(parts[i]) == Some(vals[i])
  {
    forall i | 0 <= i < |parts|
      ensures '.' !in parts[i] && ParsePart(parts[i]) == Some(vals[i])
    {
      assert vals[i] <= 0xffff_ffff;
      ParsePartExact(parts[i], vals[i]);
      var prefix, digits :| Written(parts[i], prefix, digits);
      assert '.' !in digits;
    }
  }

  /** A string denotes at most one address, and that address is in range. */
  lemma DenotesOne(host: string, a: nat, b: nat)
    requires Denotes(host, a) && Denotes(host, b)
    ensures a == b < 0x1_0000_0000
  {
    var ps, vs :| Spells(host, ps, vs) && AllDenote(ps, vs) && Address(vs) == a;
    var qs, ws :| Spells(host, qs, ws) && AllDenote(qs, ws) && Address(ws) == b;
    ValuesDetermined(ps, vs);
    ValuesDetermined(qs, ws);
    JoinSplit(ps);
    JoinSplit(qs);
    SameValues(ps, vs, ws);
    AddressFields(vs);
  }

  /** The parser: an address exactly for the strings that denote one. */
  method ParseIPv4Numeric(host: string) returns (r: Option<nat>)
    ensures r.Some? ==> Denotes(host, r.value)
    ensures r.None? ==> forall a: nat :: !Denotes(host, a)
  {
    hide Denotes, ParsePart, Split;
    var parts := Split(host);
    if |parts| == 0 || |parts| > 4 {
      RefusedPart(host, parts);
      return None;
    }
    var vals: seq<nat> := [];
    for k := 0 to |parts|
      invariant |vals| == k
      invariant forall i :: 0 <= i < k ==> ParsePart(parts[i]) == Some(vals[i])
    {
      var v := ParsePart(parts[k]);
      if v.None? {
        RefusedPart(host, parts);
        return None;
      }
      vals := vals + [v.value];
    }
    var n := |vals|;
    for i := 0 to n - 1
      invariant forall j :: 0 <= j < i ==> vals[j] <= 0xff
    {
      if vals[i] > 0xff {
        RefusedValue(host, parts, vals);
        return None;
      }
    }
    if vals[n - 1] >= LastRange(n) {
      RefusedValue(host, parts, vals);
      return None;
    }
    var addr := 0;
    for i := 0 to n - 1
      invariant addr == Bytes(vals, i)
    {
      addr := addr + vals[i] * Place(i);
    }
    addr := addr + vals[n - 1];
    Accepted(host, parts, vals);
    return Some(addr);
  }

  /** Any reading of the host goes through its split parts. */
  lemma SpellsSplit(host: string, parts: seq<string>, vals: seq<nat>)
    requires Spells(host, parts, vals) && AllDenote(parts, vals)
    ensures parts == Split(host) && forall i :: 0 <= i < |parts| ==> ParsePart(parts[i]) == Some(vals[i])
  {
    ValuesDetermined(parts, vals);
    JoinSplit(parts);
  }

  lemma RefusedPart(host: string, parts: seq<string>)
    requires parts == Split(host)
    requires |parts| > 4 || exists i :: 0 <= i < |parts| && ParsePart(parts[i]) == None
    ensures forall a: nat :: !Denotes(host, a)
  {
    forall a: nat
      ensures !Denotes(host, a)
    {
      if Denotes(host, a) {
        var ps, vs :| Spells(host, ps, vs) && AllDenote(ps, vs) && Address(vs) == a;
        SpellsSplit(host, ps, vs);
        assert false;
      }
    }
  }

  lemma RefusedValue(host: string, parts: seq<string>, vals: seq<nat>)
    requires parts == Split(host) && |vals| == |parts| <= 4
    requires forall i :: 0 <= i < |parts| ==> ParsePart(parts[i]) == Some(vals[i])
    requires !Fits(vals)
    ensures forall a: nat :: !Denotes(host, a)
  {
    hide ParsePart, DenotesPart, Join, Split, Address;
    forall a: nat
      ensures !Denotes(host, a)
    {
      if Denotes(host, a) {
        var ps, vs :| Spells(host, ps, vs) && AllDenote(ps, vs) && Address(vs) == a;
        SpellsSplit(host, ps, vs);
        SameValues(parts, vs, vals);
        assert false;
      }
    }
  }

  lemma SameValues(parts: seq<string>, vs: seq<nat>, ws: seq<nat>)
    requires |parts| == |vs| == |ws|
    requires forall i :: 0 <= i < |parts| ==> ParsePart(parts[i]) == Some(vs[i])
    requires forall i :: 0 <= i < |parts| ==> ParsePart(parts[i]) == Some(ws[i])
    ensures vs == ws
  {
    hide ParsePart;
    forall i | 0 <= i < |parts|
      ensures vs[i] == ws[i]
    {
      assert ParsePart(parts[i]) == Some(vs[i]);
    }
  }

  lemma Accepted(host: string, parts: seq<string>, vals: seq<nat>)
    requires parts == Split(host) && |vals| == |parts| && Fits(vals)
    requires forall i :: 0 <= i < |parts| ==> ParsePart(parts[i]) == Some(vals[i])
    ensures Denotes(host, Address(vals))
  {
    SplitJoin(host);
    forall i | 0 <= i < |parts|
      ensures DenotesPart(parts[i], vals[i])
    {
      ParsePartExact(parts[i], vals[i]);
    }
    assert Spells(host, parts, vals) && AllDenote(parts, vals);
  }

  // ----- printing -----

  /** How a part is printed: its base, and any number of extra leading zeros after an octal or hex prefix. */
  datatype Form = Decimal | Octal(zeros: nat) | Hex(capital: bool, zeros: nat)

  function Digit(d: nat, capital: bool): char
    requires d < 16
  {
    (if capital then "0123456789ABCDEF" else "0123456789abcdef")[d]
  }

  function Numeral(v: nat, base: nat, capital: bool): string
    requires 2 <= base <= 16
  {
    if v < base then [Digit(v, capital)] else Numeral(v / base, base, capital) + [Digit(v % base, capital)]
  }

  function Zeros(n: nat): string {
    seq(n, _ => '0')
  }

  function Print(v: nat, f: Form): string {
    match f
    case Decimal => Numeral(v, 10, false)
    case Octal(z) => "0" + (Zeros(z) + Numeral(v, 8, false))
    case Hex(capital, z) => (if capital then "0X" else "0x") + (Zeros(z) + Numeral(v, 16, capital))
  }

  lemma DigitRoundTrip(d: nat, capital: bool)
    requires d < 16
    ensures DigitOf(Digit(d, capital)) == d
  {
    var digits := if capital then "0123456789ABCDEF" else "0123456789abcdef";
    assert DigitOf(digits[d]) == d;
  }

  /** The digits spell the value, without a leading zero. */
  predicate IsNumeral(s: string, v: nat, base: nat) {
    s != "" && AllDigits(s, base) && Value(s, base) == v && (s[0] == '0' ==> v == 0 && |s| == 1)
  }

  lemma DigitIsNumeral(d: nat, base: nat, capital: bool)
    requires d < base <= 16
    ensures IsNumeral([Digit(d, capital)], d, base)
  {
    hide DigitOf, Digit, Value;
    DigitRoundTrip(d, capital);
    ZeroDigit(d, capital);
    AppendDigit("", d, base, Digit(d, capital));
    assert "" + [Digit(d, capital)] == [Digit(d, capital)];
    assert Value("", base) * base == 0 by { EmptyValue(base); }
  }

  lemma EmptyValue(base: nat)
    ensures Value("", base) * base == 0
  {
  }

  lemma AppendIsNumeral(s: string, q: nat, d: nat, base: nat, capital: bool)
    requires IsNumeral(s, q, base) && q > 0 && d < base <= 16
    ensures IsNumeral(s + [Digit(d, capital)], q * base + d, base)
  {
    hide DigitOf, Digit, Value, AllDigits;
    DigitRoundTrip(d, capital);
    AppendDigit(s, d, base, Digit(d, capital));
  }

  lemma {:induction false} WritesNumeral(v: nat, base: nat, capital: bool)
    requires 2 <= base <= 16
    ensures IsNumeral(Numeral(v, base, capital), v, base)
  {
    hide IsNumeral, Digit;
    if v < base {
      DigitIsNumeral(v, base, capital);
    } else {
      Quotient(v, base);
      var q, d := v / base, v % base;
      WritesNumeral(q, base, capital);
      AppendIsNumeral(Numeral(q, base, capital), q, d, base, capital);
    }
  }

  lemma NumeralValue(v: nat, base: nat, capital: bool)
    requires 2 <= base <= 16
    ensures var s := Numeral(v, base, capital);
            && s != "" && AllDigits(s, base) && Value(s, base) == v
            && (s[0] == '0' ==> v == 0 && |s| == 1)
  {
    hide Value, AllDigits, Numeral;
    WritesNumeral(v, base, capital);
  }

  lemma Quotient(v: nat, base: nat)
    requires 2 <= base <= v
    ensures 0 < v / base < v && v / base * base + v % base == v && 0 <= v % base < base
  {
  }

  lemma ZeroDigit(d: nat, capital: bool)
    requires d < 16
    ensures Digit(d, capital) == '0' <==> d == 0
  {
    DigitRoundTrip(d, capital);
  }

  lemma AppendDigit(s: string, d: nat, base: nat, c: char)
    requires AllDigits(s, base) && DigitOf(c) == d < base
    ensures AllDigits(s + [c], base) && Value(s + [c], base) == Value(s, base) * base + d
  {
    hide DigitOf;
    assert (s + [c])[..|s|] == s;
  }

  lemma {:induction false} ZerosValue(z: nat, s: string, base: nat)
    requires base > 0 && AllDigits(s, base)
    ensures AllDigits(Zeros(z) + s, base) && Value(Zeros(z) + s, base) == Value(s, base)
    decreases z, |s|
  {
    if s != "" {
      ZerosValue(z, s[..|s| - 1], base);
      assert (Zeros(z) + s)[..z + |s| - 1] == Zeros(z) + s[..|s| - 1];
    } else if z > 0 {
      ZerosValue(z - 1, s, base);
      assert (Zeros(z) + s)[..z - 1] == Zeros(z - 1) + s;
    }
  }

  lemma PrintDenotes(v: nat, f: Form)
    ensures DenotesPart(Print(v, f), v)
  {
    hide Value, AllDigits, Numeral;
    match f
    case Decimal =>
      NumeralValue(v, 10, false);
      assert Written(Print(v, f), "", Numeral(v, 10, false));
    case Octal(z) =>
      NumeralValue(v, 8, false);
      ZerosValue(z, Numeral(v, 8, false), 8);
      assert Written(Print(v, f), "0", Zeros(z) + Numeral(v, 8, false));
    case Hex(capital, z) =>
      NumeralValue(v, 16, capital);
      ZerosValue(z, Numeral(v, 16, capital), 16);
      assert Written(Print(v, f), if capital then "0X" else "0x", Zeros(z) + Numeral(v, 16, capital));
  }

  function PrintAddress(addr: nat, forms: seq<Form>): string
    requires 1 <= |forms| <= 4
  {
    Join(seq(|forms|, i requires 0 <= i < |forms| => Print(Fields(addr, |forms|)[i], forms[i])))
  }

  /** Every address, in every number of parts and every mix of bases, is spelt by its printed form ... */
  lemma PrintedAddressDenotes(addr: nat, forms: seq<Form>)
    requires addr < 0x1_0000_0000 && 1 <= |forms| <= 4
    ensures Denotes(PrintAddress(addr, forms), addr)
  {
    var vals := Fields(addr, |forms|);
    var parts := seq(|forms|, i requires 0 <= i < |forms| => Print(vals[i], forms[i]));
    FieldsAddress(addr, |forms|);
    forall i | 0 <= i < |forms|
      ensures DenotesPart(parts[i], vals[i])
    {
      PrintDenotes(vals[i], forms[i]);
    }
    assert Spells(PrintAddress(addr, forms), parts, vals) && AllDenote(parts, vals);
  }

  /** ... and parses back to itself. */
  method RoundTrip(addr: nat, forms: seq<Form>) returns (r: Option<nat>)
    requires addr < 0x1_0000_0000 && 1 <= |forms| <= 4
    ensures r == Some(addr)
  {
    PrintedAddressDenotes(addr, forms);
    r := ParseIPv4Numeric(PrintAddress(addr, forms));
    DenotesOne(PrintAddress(addr, forms), r.value, addr);
  }
}
