/**
 The base-58 text of a transaction signature: the in-place encoder of
 scripts/devnet/upload-execution-command.mjs, and the plain decoder it is
 measured against.
 */
module Base58 {
  import opened ByteStrings
  import opened Outcomes

  /** Digits, capitals and small letters without 0, I, O and l: six runs of consecutive characters. */
  const ALPHABET: string :=
    "123456789" + "ABCDEFGH" + "JKLMN" + "PQRSTUVWXYZ" + "abcdefghijk" + "mnopqrstuvwxyz"

  function CharOf(digit: nat): (c: char)
    requires digit < 58
    ensures c ==
      if digit < 9 then '1' + digit as char
      else if digit < 17 then 'A' + (digit - 9) as char
      else if digit < 22 then 'J' + (digit - 17) as char
      else if digit < 33 then 'P' + (digit - 22) as char
      else if digit < 44 then 'a' + (digit - 33) as char
      else 'm' + (digit - 44) as char
  {
    ALPHABET[digit]
  }

  // ----- positional values

  /** Value of a digit list whose least significant digit comes first. */
  ghost function LittleEndian(digits: seq<int>, base: nat): int {
    if digits == [] then 0 else digits[0] + base * LittleEndian(digits[1..], base)
  }

  /** Value of bytes whose most significant byte comes first. */
  function BigEndian(bytes: seq<Byte>): nat {
    if bytes == [] then 0 else 256 * BigEndian(bytes[..|bytes| - 1]) + bytes[|bytes| - 1] as int
  }

  function Pow(base: nat, exponent: nat): nat {
    if exponent == 0 then 1 else base * Pow(base, exponent - 1)
  }

  /** Position of a character in the alphabet. */
  function DigitOf(c: char): (d: Option<nat>)
    ensures d.Some? ==> d.value < 58 && CharOf(d.value) == c
    ensures d.None? ==> forall i :: 0 <= i < 58 ==> CharOf(i) != c
  {
    if '1' <= c <= '9' then Some(c as int - '1' as int)
    else if 'A' <= c <= 'H' then Some(c as int - 'A' as int + 9)
    else if 'J' <= c <= 'N' then Some(c as int - 'J' as int + 17)
    else if 'P' <= c <= 'Z' then Some(c as int - 'P' as int + 22)
    else if 'a' <= c <= 'k' then Some(c as int - 'a' as int + 33)
    else if 'm' <= c <= 'z' then Some(c as int - 'm' as int + 44)
    else None
  }

  /** Value of base-58 text, most significant character first. */
  function TextValue(text: string): Option<nat> {
    if text == "" then Some(0) else
    match (TextValue(text[..|text| - 1]), DigitOf(text[|text| - 1]))
    case (Some(high), Some(low)) => Some(58 * high + low)
    case _ => None
  }

  function LeadingOnes(text: string): nat {
    if text != "" && text[0] == '1' then 1 + LeadingOnes(text[1..]) else 0
  }

  function LeadingZeros(bytes: seq<Byte>): (n: nat)
    ensures n <= |bytes|
    ensures forall i :: 0 <= i < n ==> bytes[i] == 0
    ensures n < |bytes| ==> bytes[n] != 0
  {
    if bytes != [] && bytes[0] == 0 then 1 + LeadingZeros(bytes[1..]) else 0
  }

  // ----- the plain decoder

  /** The shortest big-endian byte string of a value. */
  function ToBytes(value: nat): seq<Byte> {
    if value == 0 then [] else ToBytes(value / 256) + [(value % 256) as Byte]
  }

  function Zeros(n: nat): seq<Byte> {
    seq(n, _ => 0)
  }

  /** Leading '1's are zero bytes; the remaining text is one number. */
  function Decode(text: string): Option<seq<Byte>> {
    match TextValue(text)
    case None => None
    case Some(value) => Some(Zeros(LeadingOnes(text)) + ToBytes(value))
  }

  /** `text` carries the number of `bytes` and exactly its leading zeros. */
  ghost predicate Encodes(text: string, bytes: seq<Byte>) {
    TextValue(text) == Some(BigEndian(bytes)) && LeadingOnes(text) == LeadingZeros(bytes)
  }

  /** What the encoder makes of the bytes: their text, or that of a zero byte when there are none. */
  ghost predicate Produces(bytes: seq<Byte>, text: string) {
    if bytes == [] then text == "1" else Encodes(text, bytes)
  }

  // ----- the encoder

  /** One round of the encoder's outer loop: digits := digits * 256 + byte, digit by digit. */
  method AbsorbByte(before: seq<int>, byte: int) returns (digits: seq<int>)
    requires Canonical(before) && 0 <= byte < 256
    ensures Canonical(digits)
    ensures LittleEndian(digits, 58) == 256 * LittleEndian(before, 58) + byte
  {
    hide Pow;
    digits := before;
    var carry := byte;
    for index := 0 to |digits|
      invariant |digits| == |before| && digits[index..] == before[index..]
      invariant AreDigits(digits) && 0 <= carry < 256
      invariant LittleEndian(digits[..index] + [carry], 58) == 256 * LittleEndian(before[..index], 58) + byte
      invariant index == |before| && before[index - 1] > 0 ==> carry > 0
    {
      CarryStep(digits, before, index, carry, byte);
      var value := digits[index] * 256 + carry;
      digits := digits[index := value % 58];
      carry := value / 58;
    }
    assert digits[..|digits|] == digits && before[..|before|] == before;
    hide LittleEndian;
    while carry > 0
      invariant AreDigits(digits) && 0 <= carry < 256 && |digits| >= |before|
      invariant LittleEndian(digits + [carry], 58) == 256 * LittleEndian(before, 58) + byte
      invariant carry == 0 ==> |digits| == 1 || digits[|digits| - 1] > 0
      decreases carry
    {
      SplitCarry(digits, carry);
      digits := digits + [carry % 58];
      carry := carry / 58;
    }
    assert digits + [0] == digits + seq(1, _ => 0);
    TrailingZeros(digits, 1);
  }

  method EncodeBase58(bytes: seq<Byte>) returns (text: string)
    ensures Produces(bytes, text)
    ensures Decode(text) == Some(bytes) <==> bytes != []
  {
    var digits: seq<int> := [0];
    for k := 0 to |bytes|
      invariant Canonical(digits)
      invariant LittleEndian(digits, 58) == BigEndian(bytes[..k])
    {
      digits := AbsorbByte(digits, bytes[k] as int);
      assert bytes[..k + 1][..k] == bytes[..k];
    }
    assert bytes[..|bytes|] == bytes;
    ghost var number := digits;
    var zeros := 0;
    while zeros < |bytes| - 1 && bytes[zeros] == 0
      invariant 0 <= zeros <= |bytes| && (|bytes| > 0 ==> zeros < |bytes|)
      invariant digits == number + seq(zeros, _ => 0)
      invariant forall i :: 0 <= i < zeros ==> bytes[i] == 0
    {
      digits := digits + [0];
      zeros := zeros + 1;
    }
    text := Render(digits);
    if bytes != [] {
      PaddedEncodes(number, zeros, bytes);
      DecodeCharacterised(text, bytes);
    } else {
      CanonicalZero(number);
      EmptyInputNotInverted();
    }
  }

  predicate AreDigits(digits: seq<int>) {
    forall i :: 0 <= i < |digits| ==> 0 <= digits[i] < 58
  }

  /** Digits without a superfluous top zero. */
  predicate Canonical(digits: seq<int>) {
    AreDigits(digits) && |digits| > 0 && (|digits| == 1 || digits[|digits| - 1] > 0)
  }

  /** Reverse the digits and look each one up in the alphabet. */
  function Render(digits: seq<int>): (text: string)
    requires AreDigits(digits)
    ensures |text| == |digits|
    ensures forall i :: 0 <= i < |text| ==> text[i] == CharOf(digits[|digits| - 1 - i])
  {
    seq(|digits|, i requires 0 <= i < |digits| => CharOf(digits[|digits| - 1 - i]))
  }

  // ----- lemmas about values

  lemma {:induction false} AppendDigit(digits: seq<int>, d: int)
    ensures LittleEndian(digits + [d], 58) == LittleEndian(digits, 58) + d * Pow(58, |digits|)
  {
    if digits == [] {
      assert (digits + [d])[1..] == [];
    } else {
      assert (digits + [d])[1..] == digits[1..] + [d];
      AppendDigit(digits[1..], d);
      calc {
        58 * (d * Pow(58, |digits| - 1));
        d * (58 * Pow(58, |digits| - 1));
        d * Pow(58, |digits|);
      }
    }
  }

  /** A carry beyond the last digit is one more digit and the carry that it leaves. */
  lemma {:induction false} SplitCarry(digits: seq<int>, carry: int)
    ensures LittleEndian(digits + [carry], 58) == LittleEndian(digits + [carry % 58] + [carry / 58], 58)
  {
    var p := Pow(58, |digits|);
    AppendDigit(digits, carry);
    AppendDigit(digits, carry % 58);
    AppendDigit(digits + [carry % 58], carry / 58);
    calc {
      (carry % 58) * p + (carry / 58) * (58 * p);
      (carry % 58 + 58 * (carry / 58)) * p;
      carry * p;
    }
  }

  lemma {:induction false} CarryStep(digits: seq<int>, before: seq<int>, index: nat, carry: int, byte: int)
    requires |digits| == |before| && index < |digits| && digits[index..] == before[index..]
    requires AreDigits(digits) && 0 <= carry < 256
    requires LittleEndian(digits[..index] + [carry], 58) == 256 * LittleEndian(before[..index], 58) + byte
    ensures var value := digits[index] * 256 + carry;
            var next := digits[index := value % 58];
            && 0 <= value / 58 < 256
            && LittleEndian(next[..index + 1] + [value / 58], 58)
            == 256 * LittleEndian(before[..index + 1], 58) + byte
            && (before[index] > 0 ==> value / 58 > 0)
  {
    hide LittleEndian, Pow;
    var value := digits[index] * 256 + carry;
    var low, p := digits[..index], Pow(58, index);
    assert digits[index] == digits[index..][0] == before[index..][0] == before[index];
    assert digits[index := value % 58][..index + 1] == low + [value % 58];
    assert before[..index + 1] == before[..index] + [before[index]];
    SplitCarry(low, value);
    AppendDigit(low, value);
    AppendDigit(low, carry);
    AppendDigit(before[..index], before[index]);
    calc {
      value * p;
      256 * (before[index] * p) + carry * p;
    }
  }

  lemma {:induction false} TrailingZeros(digits: seq<int>, n: nat)
    ensures LittleEndian(digits + seq(n, _ => 0), 58) == LittleEndian(digits, 58)
  {
    if n == 0 {
      assert digits + seq(n, _ => 0) == digits;
    } else {
      assert digits + seq(n, _ => 0) == (digits + seq(n - 1, _ => 0)) + [0];
      AppendDigit(digits + seq(n - 1, _ => 0), 0);
      TrailingZeros(digits, n - 1);
    }
  }

  lemma {:induction false} RenderedValue(digits: seq<int>)
    requires AreDigits(digits)
    ensures LittleEndian(digits, 58) >= 0
    ensures TextValue(Render(digits)) == Some(LittleEndian(digits, 58))
  {
    hide CharOf;
    if digits != [] {
      var text := Render(digits);
      RenderedValue(digits[1..]);
      assert text[..|text| - 1] == Render(digits[1..]);
      assert text[|text| - 1] == CharOf(digits[0]);
      DigitOfChar(digits[0]);
    }
  }

  lemma {:induction false} DigitOfChar(digit: nat)
    requires digit < 58
    ensures DigitOf(CharOf(digit)) == Some(digit)
  {
    hide CharOf;
  }

  lemma {:induction false} RenderedOnes(digits: seq<int>, zeros: nat)
    requires AreDigits(digits) && zeros <= |digits|
    requires forall i :: |digits| - zeros <= i < |digits| ==> digits[i] == 0
    requires zeros < |digits| ==> digits[|digits| - zeros - 1] > 0
    ensures LeadingOnes(Render(digits)) == zeros
  {
    var text := Render(digits);
    if zeros == 0 {
    } else {
      RenderedOnes(digits[..|digits| - 1], zeros - 1);
      assert text[1..] == Render(digits[..|digits| - 1]);
    }
  }

  lemma {:induction false} CanonicalZero(digits: seq<int>)
    requires Canonical(digits)
    ensures LittleEndian(digits, 58) == 0 <==> digits == [0]
  {
    if |digits| > 1 {
      CanonicalZero(digits[1..]);
      assert digits[1..] != [0];
      RenderedValue(digits[1..]);
    }
  }

  lemma {:induction false} ZeroBytes(bytes: seq<Byte>)
    ensures BigEndian(bytes) == 0 <==> LeadingZeros(bytes) == |bytes|
  {
    if bytes != [] {
      ZeroBytes(bytes[..|bytes| - 1]);
      var n := LeadingZeros(bytes[..|bytes| - 1]);
    }
  }

  /** The number's digits, padded with a '1' per leading zero byte, encode the bytes. */
  lemma {:induction false} PaddedEncodes(number: seq<int>, zeros: nat, bytes: seq<Byte>)
    requires Canonical(number) && LittleEndian(number, 58) == BigEndian(bytes)
    requires zeros < |bytes| && forall i :: 0 <= i < zeros ==> bytes[i] == 0
    requires zeros == |bytes| - 1 || bytes[zeros] != 0
    ensures AreDigits(number + seq(zeros, _ => 0))
    ensures Encodes(Render(number + seq(zeros, _ => 0)), bytes)
  {
    var digits := number + seq(zeros, _ => 0);
    RenderedValue(digits);
    TrailingZeros(number, zeros);
    CanonicalZero(number);
    ZeroBytes(bytes);
    RenderedOnes(digits, if BigEndian(bytes) == 0 then |digits| else zeros);
  }

  // ----- the decoder inverts the encoder

  lemma {:induction false} BytesOfValue(bytes: seq<Byte>)
    ensures Zeros(LeadingZeros(bytes)) + ToBytes(BigEndian(bytes)) == bytes
  {
    if bytes == [] {
    } else {
      var high := bytes[..|bytes| - 1];
      BytesOfValue(high);
      ZeroBytes(high);
      ZeroBytes(bytes);
      if BigEndian(bytes) == 0 {
        assert Zeros(|bytes|) == bytes;
      } else {
        assert BigEndian(bytes) / 256 == BigEndian(high);
        assert LeadingZeros(bytes) == LeadingZeros(high);
        assert bytes == high + [bytes[|bytes| - 1]];
      }
    }
  }

  lemma {:induction false} DecodesTo(text: string, bytes: seq<Byte>)
    requires Encodes(text, bytes)
    ensures Decode(text) == Some(bytes)
  {
    BytesOfValue(bytes);
  }

  lemma {:induction false} ValueOfBytes(value: nat)
    ensures BigEndian(ToBytes(value)) == value && LeadingZeros(ToBytes(value)) == 0
  {
    if value != 0 {
      ValueOfBytes(value / 256);
      assert ToBytes(value)[..|ToBytes(value)| - 1] == ToBytes(value / 256);
      assert ToBytes(value / 256) == [] ==> value % 256 != 0;
    }
  }

  lemma {:induction false} ZerosInFront(n: nat, bytes: seq<Byte>)
    ensures BigEndian(Zeros(n) + bytes) == BigEndian(bytes)
    ensures LeadingZeros(Zeros(n) + bytes) == n + LeadingZeros(bytes)
  {
    hide BigEndian, LeadingZeros;
    if n == 0 {
      assert Zeros(0) + bytes == bytes;
    } else {
      ZerosInFront(n - 1, bytes);
      PrependZero(Zeros(n - 1) + bytes);
      assert Zeros(n) + bytes == [0] + (Zeros(n - 1) + bytes);
    }
  }

  lemma {:induction false} PrependZero(bytes: seq<Byte>)
    ensures BigEndian([0] + bytes) == BigEndian(bytes)
    ensures LeadingZeros([0] + bytes) == 1 + LeadingZeros(bytes)
  {
    assert ([0] + bytes)[1..] == bytes;
    if bytes != [] {
      PrependZero(bytes[..|bytes| - 1]);
      assert ([0] + bytes)[..|bytes|] == [0] + bytes[..|bytes| - 1];
    } else {
      assert ([0] + bytes)[..0] == [];
    }
  }

  /** A text decodes to `bytes` exactly when it has their number and their leading zeros. */
  lemma {:induction false} DecodeCharacterised(text: string, bytes: seq<Byte>)
    ensures Decode(text) == Some(bytes) <==> Encodes(text, bytes)
  {
    if Encodes(text, bytes) {
      DecodesTo(text, bytes);
    }
    if Decode(text) == Some(bytes) {
      ValueOfBytes(TextValue(text).value);
      ZerosInFront(LeadingOnes(text), ToBytes(TextValue(text).value));
    }
  }

  /** There is one text for a number and its leading ones. */
  lemma {:induction false} SameText(a: string, b: string)
    requires TextValue(a).Some? && TextValue(a) == TextValue(b) && LeadingOnes(a) == LeadingOnes(b)
    ensures a == b
    decreases |a|
  {
    hide CharOf;
    if a == "" || b == "" {
      OnlyOnes(a);
      OnlyOnes(b);
    } else if |a| == 1 {
      ShortText(a, b);
    } else if |b| == 1 {
      ShortText(b, a);
    } else {
      var ha, hb := a[..|a| - 1], b[..|b| - 1];
      assert TextValue(a).value / 58 == TextValue(ha).value;
      assert TextValue(b).value / 58 == TextValue(hb).value;
      DropLastOnes(a);
      DropLastOnes(b);
      OnlyOnes(a);
      OnlyOnes(b);
      SameText(ha, hb);
      assert a == ha + [a[|a| - 1]] && b == hb + [b[|b| - 1]];
    }
  }

  lemma {:induction false} OnlyOnes(text: string)
    requires TextValue(text).Some?
    ensures LeadingOnes(text) <= |text|
    ensures TextValue(text).value == 0 <==> LeadingOnes(text) == |text|
  {
    if |text| == 1 {
      assert text[..0] == "";
      assert text[1..] == "";
      assert TextValue(text) == Some(58 * 0 + DigitOf(text[0]).value);
    } else if text != "" {
      DropLastOnes(text);
      OnlyOnes(text[..|text| - 1]);
    }
  }

  lemma {:induction false} DropLastOnes(text: string)
    requires text != ""
    ensures var high := text[..|text| - 1];
            && LeadingOnes(high) <= |high|
            && (LeadingOnes(high) < |high| ==> LeadingOnes(text) == LeadingOnes(high))
            && (LeadingOnes(high) == |high| ==>
                LeadingOnes(text) == |high| + if text[|high|] == '1' then 1 else 0)
  {
    if |text| == 1 {
      assert text[1..] == "";
    } else {
      DropLastOnes(text[1..]);
      assert text[1..][..|text| - 2] == text[..|text| - 1][1..];
    }
  }

  lemma {:induction false} ShortText(a: string, b: string)
    requires |a| == 1 && b != "" && TextValue(a).Some?
    requires TextValue(a) == TextValue(b) && LeadingOnes(a) == LeadingOnes(b)
    ensures a == b
  {
    OnlyOnes(a);
    OnlyOnes(b);
    assert a[..0] == "";
    var hb := b[..|b| - 1];
    assert TextValue(b).value == 58 * TextValue(hb).value + DigitOf(b[|b| - 1]).value < 58;
    assert TextValue(hb).value == 0;
    OnlyOnes(hb);
    DropLastOnes(b);
  }

  /** The empty input is the one input the decoder does not give back. */
  lemma {:induction false} EmptyInputNotInverted()
    ensures Decode("1") == Some([0])
  {
    assert "1"[..0] == "" && "1"[1..] == "";
    assert TextValue("1") == Some(58 * 0 + 0);
    assert LeadingOnes("1") == 1;
    assert Zeros(1) + ToBytes(0) == [0];
  }

  /** Different bytes have different texts, but for no bytes and one zero byte, which share one. */
  lemma {:induction false} EncodingUnique(a: seq<Byte>, b: seq<Byte>, s: string, t: string)
    requires Produces(a, s) && Produces(b, t)
    ensures s == t <==> a == b || (a == [] && b == [0]) || (a == [0] && b == [])
  {
    EmptyInputNotInverted();
    hide Encodes, Decode;
    DecodeCharacterised("1", [0]);
    DecodeCharacterised(s, a);
    DecodeCharacterised(t, b);
    DecodeCharacterised(s, b);
    if a == b || (a == [] && b == [0]) || (a == [0] && b == []) {
      OneText(if a == [] then [0] else a, s, t);
    }
  }

  lemma {:induction false} OneText(bytes: seq<Byte>, s: string, t: string)
    requires Encodes(s, bytes) && Encodes(t, bytes)
    ensures s == t
  {
    SameText(s, t);
  }
}
