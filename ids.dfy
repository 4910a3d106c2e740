/** Identifiers of the entity store: the hex rendering of byte strings
    (graph-ts `Bytes.toHexString`), the decimal rendering of unsigned
    integers (`BigInt.toString`), the zero address, and the composite
    `txHash-logIndex` key under which append-only rows are written. */
module Ids {

  newtype byte = x: int | 0 <= x < 256

  /** Raw bytes: transaction hashes, member ids and addresses. */
  type Bytes = seq<byte>

  /** An account or contract address (20 bytes on chain; the type does not insist). */
  type Address = Bytes

  /** The literal the handlers compare rendered addresses against. */
  const ZERO_ADDRESS: string := "0x0000000000000000000000000000000000000000"

  /** `n` zero bytes. */
  function Zeros(n: nat): (z: Bytes)
    ensures |z| == n && forall i :: 0 <= i < n ==> z[i] == 0
  {
    if n == 0 then [] else [0] + Zeros(n - 1)
  }

  predicate IsHexDigit(c: char) {
    '0' <= c <= '9' || 'a' <= c <= 'f'
  }

  predicate IsDecDigit(c: char) {
    '0' <= c <= '9'
  }

  /** Lower-case hex digit of a nibble. */
  function HexDigit(n: int): (c: char)
    requires 0 <= n < 16
    ensures IsHexDigit(c)
  {
    if n < 10 then (48 + n) as char else (87 + n) as char
  }

  /** Decimal digit of a value below ten. */
  function DecDigit(n: int): (c: char)
    requires 0 <= n < 10
    ensures IsDecDigit(c)
  {
    (48 + n) as char
  }

  /** Two hex digits per byte, high nibble first. */
  function HexDigits(b: Bytes): (s: string)
    ensures |s| == 2 * |b|
    ensures forall i :: 0 <= i < |s| ==> IsHexDigit(s[i])
  {
    if b == [] then []
    else [HexDigit(b[0] as int / 16), HexDigit(b[0] as int % 16)] + HexDigits(b[1..])
  }

  /** `Bytes.toHexString()`: "0x" followed by the lower-case digits. */
  function ToHex(b: Bytes): (s: string)
    ensures |s| == 2 + 2 * |b| && s[..2] == "0x"
    ensures '-' !in s
  {
    var s := "0x" + HexDigits(b);
    assert forall i :: 2 <= i < |s| ==> s[i] == HexDigits(b)[i - 2];
    s
  }

  /** `BigInt.toString()` of a non-negative value: decimal, no leading zeros. */
  function NatToString(n: nat): (s: string)
    ensures 1 <= |s|
    ensures forall i :: 0 <= i < |s| ==> IsDecDigit(s[i])
    ensures |s| == 1 <==> n < 10
    ensures s[0] != '0' || n == 0
  {
    if n < 10 then [DecDigit(n)] else NatToString(n / 10) + [DecDigit(n % 10)]
  }

  /** The key of an append-only row: `hash + "-" + logIndex.toString()`.
      It splits at its last '-' into the hash and the decimal index. */
  function CompositeKey(hash: string, logIndex: nat): (k: string)
    ensures |k| == |hash| + 1 + |NatToString(logIndex)|
    ensures k[..|hash|] == hash && k[|hash| + 1..] == NatToString(logIndex)
    ensures k[|hash|] == '-' && forall j :: |hash| < j < |k| ==> k[j] != '-'
  {
    var d := NatToString(logIndex);
    var k := hash + "-" + d;
    assert forall j :: |hash| < j < |k| ==> k[j] == d[j - |hash| - 1];
    k
  }

  /** `event.transaction.hash.toHexString() + "-" + event.logIndex.toString()`:
      the hex rendering of the hash, a '-', then the decimal log index. */
  function LogKey(txHash: Bytes, logIndex: nat): (k: string)
    ensures var n := 2 + 2 * |txHash|;
      && |k| == n + 1 + |NatToString(logIndex)|
      && k[..n] == ToHex(txHash) && k[n] == '-' && k[n + 1..] == NatToString(logIndex)
  {
    CompositeKey(ToHex(txHash), logIndex)
  }

  lemma {:induction false} HexDigitsInjective(a: Bytes, b: Bytes)
    requires HexDigits(a) == HexDigits(b)
    ensures a == b
  {
    if a != [] {
      assert b != [];
      var sa, sb := HexDigits(a), HexDigits(b);
      assert sa[0] == sb[0] && sa[1] == sb[1];
      assert a[0] as int / 16 == b[0] as int / 16;
      assert a[0] as int % 16 == b[0] as int % 16;
      assert a[0] == b[0];
      assert HexDigits(a[1..]) == sa[2..] == sb[2..] == HexDigits(b[1..]);
      HexDigitsInjective(a[1..], b[1..]);
      assert a == [a[0]] + a[1..] && b == [b[0]] + b[1..];
    }
  }

  /** Distinct byte strings render to distinct hex strings, so every id
      derived by `toHexString` names exactly one address or hash. */
  lemma ToHexInjective(a: Bytes, b: Bytes)
    requires ToHex(a) == ToHex(b)
    ensures a == b
  {
    assert HexDigits(a) == ToHex(a)[2..] == ToHex(b)[2..] == HexDigits(b);
    HexDigitsInjective(a, b);
  }

  /** Distinct token ids render to distinct decimal strings (so distinct Song keys). */
  lemma {:induction false} NatToStringInjective(m: nat, n: nat)
    requires NatToString(m) == NatToString(n)
    ensures m == n
  {
    var sm, sn := NatToString(m), NatToString(n);
    if m < 10 {
      assert n < 10;
      assert sm[0] == DecDigit(m) && sn[0] == DecDigit(n);
    } else {
      assert n >= 10;
      assert sm[|sm| - 1] == DecDigit(m % 10) && sn[|sn| - 1] == DecDigit(n % 10);
      assert m % 10 == n % 10;
      assert NatToString(m / 10) == sm[..|sm| - 1] == sn[..|sn| - 1] == NatToString(n / 10);
      NatToStringInjective(m / 10, n / 10);
    }
  }

  /** The composite key determines both of its parts, whatever characters
      the hash string holds: the decimal suffix contains no '-', so the
      last '-' of the key is always the separator. */
  lemma CompositeKeyInjective(h1: string, i1: nat, h2: string, i2: nat)
    requires CompositeKey(h1, i1) == CompositeKey(h2, i2)
    ensures h1 == h2 && i1 == i2
  {
    var k := CompositeKey(h1, i1);
    assert |h1| == |h2|;
    assert h1 == k[..|h1|] == h2;
    assert NatToString(i1) == k[|h1| + 1..] == NatToString(i2);
    NatToStringInjective(i1, i2);
  }

  /** Rows keyed by `txHash-logIndex` never collide for distinct log positions. */
  lemma LogKeyInjective(t1: Bytes, i1: nat, t2: Bytes, i2: nat)
    requires (t1, i1) != (t2, i2)
    ensures LogKey(t1, i1) != LogKey(t2, i2)
  {
    if LogKey(t1, i1) == LogKey(t2, i2) {
      CompositeKeyInjective(ToHex(t1), i1, ToHex(t2), i2);
      ToHexInjective(t1, t2);
    }
  }

  lemma {:induction false} HexDigitsOfZeros(n: nat)
    ensures HexDigits(Zeros(n)) == seq(2 * n, _ => '0')
  {
    if n > 0 {
      var z := Zeros(n);
      assert z[1..] == Zeros(n - 1);
      HexDigitsOfZeros(n - 1);
      assert HexDigits(z) == ['0', '0'] + seq(2 * (n - 1), _ => '0');
    }
  }

  /** `Address.fromString(ZERO_ADDRESS)`: twenty zero bytes. */
  function ZeroAddress(): (z: Address)
    ensures |z| == 20 && forall i :: 0 <= i < |z| ==> z[i] == 0
  {
    Zeros(20)
  }

  /** `Address.fromString` and `toHexString` agree on the zero address:
      rendering twenty zero bytes gives back the ZERO_ADDRESS literal. */
  lemma ZeroAddressRendersAsLiteral()
    ensures ToHex(ZeroAddress()) == ZERO_ADDRESS
  {
    var z := ZeroAddress();
    HexDigitsOfZeros(20);
    assert HexDigits(z) == seq(40, _ => '0');
    assert ZERO_ADDRESS == "0x" + seq(40, _ => '0');
  }

  /** Comparing `a.toHexString()` with the ZERO_ADDRESS literal is the same
      as comparing `a` with the zero address. */
  lemma IsZeroAddress(a: Address)
    ensures ToHex(a) == ZERO_ADDRESS <==> a == ZeroAddress()
  {
    ZeroAddressRendersAsLiteral();
    if ToHex(a) == ZERO_ADDRESS {
      ToHexInjective(a, ZeroAddress());
    }
  }

  /** `a.toHexString() == ZERO_ADDRESS`, the test the handlers make. */
  method HexIsZero(a: Address) returns (z: bool)
    ensures z <==> a == ZeroAddress()
  {
    IsZeroAddress(a);
    z := ToHex(a) == ZERO_ADDRESS;
  }
}
