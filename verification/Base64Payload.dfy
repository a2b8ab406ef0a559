/** The Base64 decoder for image payloads, against the encoding of section 4 of RFC 4648. */
module Base64Payload {
  import opened Wrappers

  type byte = x: int | 0 <= x < 256
  type sextet = x: int | 0 <= x < 64

  const DATA: seq<byte> := [100, 97, 116, 97, 58]   // "data:"
  const COMMA: byte := 44
  const EQUALS: byte := 61

  // ----- the alphabet

  /** The place of a byte in A-Z a-z 0-9 + /, or -1. */
  function Value(ch: byte): (v: int)
    ensures -1 <= v < 64
  {
    if 65 <= ch <= 90 then ch - 65
    else if 97 <= ch <= 122 then ch - 71
    else if 48 <= ch <= 57 then ch + 4
    else if ch == 43 then 62
    else if ch == 47 then 63
    else -1
  }

  /** The letter at place `v`. */
  function Letter(v: sextet): (ch: byte)
    ensures ch != EQUALS && ch != COMMA && !IsSpace(ch) && ch != 58
  {
    if v < 26 then 65 + v else if v < 52 then 71 + v else if v < 62 then v - 4 else if v == 62 then 43 else 47
  }

  lemma LetterValue(v: sextet)
    ensures Value(Letter(v)) == v
  {
  }

  lemma ValueLetter(ch: byte)
    requires Value(ch) != -1
    ensures Letter(Value(ch)) == ch
  {
  }

  /** The letters are those of table 1 of RFC 4648, in its order, and no other byte has a value. */
  lemma AlphabetIs(ch: byte, k: sextet)
    ensures k < 26 ==> Letter(k) == 'A' as int + k && Letter(26 + k) == 'a' as int + k
    ensures k < 10 ==> Letter(52 + k) == '0' as int + k
    ensures Letter(62) == '+' as int && Letter(63) == '/' as int
    ensures Value(ch) == -1 <==> forall v: sextet :: Letter(v) != ch
  {
    if Value(ch) != -1 { ValueLetter(ch); }
  }

  // ----- numbers

  function Num(base: nat, digits: seq<nat>): nat {
    if digits == [] then 0 else Num(base, digits[..|digits| - 1]) * base + digits[|digits| - 1]
  }

  lemma NumPush(base: nat, digits: seq<nat>, d: nat)
    ensures Num(base, digits + [d]) == Num(base, digits) * base + d
  {
    assert (digits + [d])[..|digits|] == digits;
  }

  lemma LastDigit(q: nat, d: byte)
    ensures (q * 256 + d) % 256 == d && (q * 256 + d) / 256 == q
  {
  }

  /** Digits of a fixed number are unique. */
  lemma {:induction false} NumUnique(a: seq<byte>, b: seq<byte>)
    requires |a| == |b| && Num(256, a) == Num(256, b)
    ensures a == b
  {
    hide Num;
    if a != [] {
      var n := |a| - 1;
      NumSplit(a);
      NumSplit(b);
      LastDigit(Num(256, a[..n]), a[n]);
      LastDigit(Num(256, b[..n]), b[n]);
      NumUnique(a[..n], b[..n]);
      assert a == a[..n] + [a[n]];
      assert b == b[..n] + [b[n]];
    }
  }

  lemma NumSplit(a: seq<nat>)
    requires a != []
    ensures Num(256, a) == Num(256, a[..|a| - 1]) * 256 + a[|a| - 1]
  {
  }

  // ----- the encoding of section 4 of RFC 4648

  function Group(b: seq<byte>): (s: seq<sextet>)
    requires |b| == 3
  {
    [b[0] / 4, b[0] % 4 * 16 + b[1] / 16, b[1] % 16 * 4 + b[2] / 64, b[2] % 64]
  }

  function Groups(b: seq<byte>): seq<sextet>
    requires |b| % 3 == 0
  {
    if b == [] then [] else Groups(b[..|b| - 3]) + Group(b[|b| - 3..])
  }

  /** The last one or two bytes, filled up with zero bits. */
  function Tail(b: seq<byte>): seq<sextet>
    requires |b| < 3
  {
    if b == [] then []
    else if |b| == 1 then [b[0] / 4, b[0] % 4 * 16]
    else [b[0] / 4, b[0] % 4 * 16 + b[1] / 16, b[1] % 16 * 4]
  }

  function Sextets(b: seq<byte>): seq<sextet> {
    var n := |b| / 3 * 3;
    Groups(b[..n]) + Tail(b[n..])
  }

  function Letters(s: seq<sextet>): (t: seq<byte>)
    ensures |t| == |s|
  {
    seq(|s|, i requires 0 <= i < |s| => Letter(s[i]))
  }

  function Padding(n: nat): seq<byte> {
    if n % 3 == 0 then [] else if n % 3 == 1 then [EQUALS, EQUALS] else [EQUALS]
  }

  /** The text that section 4 prescribes, padding included. */
  function Encode(b: seq<byte>): seq<byte> {
    Letters(Sextets(b)) + Padding(|b|)
  }

  // ----- what the decoder reads

  predicate IsSpace(ch: byte) {
    ch == 32 || 9 <= ch <= 13
  }

  function IndexOf(s: seq<byte>, ch: byte): (i: Option<nat>)
    ensures i.None? ==> ch !in s
    ensures i.Some? ==> var k := i.value; k < |s| && s[k] == ch && ch !in s[..k]
  {
    if s == [] then None
    else if s[0] == ch then Some(0)
    else
      var r := IndexOf(s[1..], ch);
      if r.None? then None else (assert s[..r.value + 1] == [s[0]] + s[1..][..r.value]; Some(r.value + 1))
  }

  /** Drops "data:...," up to the first comma. */
  function WithoutPrefix(value: seq<byte>): seq<byte> {
    var comma := IndexOf(value, COMMA);
    if DATA <= value && comma.Some? then value[comma.value + 1..] else value
  }

  function Compact(s: seq<byte>): seq<byte> {
    if s == [] then []
    else Compact(s[..|s| - 1]) + (if IsSpace(s[|s| - 1]) then [] else [s[|s| - 1]])
  }

  function UpToEquals(s: seq<byte>): seq<byte> {
    var stop := IndexOf(s, EQUALS);
    if stop.None? then s else s[..stop.value]
  }

  /** The characters that carry the data. */
  function Payload(value: seq<byte>): seq<byte> {
    UpToEquals(Compact(WithoutPrefix(value)))
  }

  predicate AllLetters(s: seq<byte>) {
    forall ch <- s :: Value(ch) != -1
  }

  function Values(s: seq<byte>): (v: seq<sextet>)
    requires AllLetters(s)
    ensures |v| == |s|
  {
    seq(|s|, i requires 0 <= i < |s| => Value(s[i]))
  }

  /** Two to the power `k`. */
  function Two(k: nat): nat
    requires k in {0, 2, 4, 6}
  {
    if k == 0 then 1 else if k == 2 then 4 else if k == 4 then 16 else 64
  }

  /** `out` is the whole bytes of the bit string `s`; the bits left over are dropped. */
  predicate IsDecoding(s: seq<sextet>, out: seq<byte>) {
    |out| == 6 * |s| / 8 && Num(256, out) == Num(64, s) / Two(Rest(s))
  }

  function Rest(s: seq<sextet>): (r: nat)
    ensures r in {0, 2, 4, 6}
  {
    6 * |s| % 8
  }

  /** What the decoder promises: it fails iff the payload has a character that is no letter or is
      too short for a byte, and otherwise returns its bytes. */
  predicate Decodes(value: seq<byte>, result: Option<seq<byte>>) {
    DecodesPayload(Payload(value), result)
  }

  predicate DecodesPayload(p: seq<byte>, result: Option<seq<byte>>) {
    && (result.Some? <==> AllLetters(p) && |p| >= 2)
    && (result.Some? ==> AllLetters(p) && IsDecoding(Values(p), result.value))
  }

  /** The promise leaves no choice. */
  lemma DecodesOneWay(value: seq<byte>, r: Option<seq<byte>>, r': Option<seq<byte>>)
    requires Decodes(value, r) && Decodes(value, r')
    ensures r == r'
  {
    if r.Some? { NumUnique(r.value, r'.value); }
  }

  // ----- the decoder

  /** A 32-bit int that wraps around. */
  function Int32(x: int): int {
    (x + 0x8000_0000) % 0x1_0000_0000 - 0x8000_0000
  }

  function Wraps(x: int): (k: int)
    ensures Int32(x) == x + 0x1_0000_0000 * k
  {
    -((x + 0x8000_0000) / 0x1_0000_0000)
  }

  lemma ModAgain(x: int, k: int)
    ensures (x + 256 * k) % 256 == x % 256
  {
  }

  /** Shifting right and masking reads the same byte before and after wrapping around. */
  lemma SameByte(acc: int, exact: nat, k: int, bits: nat)
    requires acc == exact + 0x1_0000_0000 * k && bits in {0, 2, 4}
    ensures acc / Two(bits) % 256 == exact / Two(bits) % 256
  {
    if bits == 0 {
      ModAgain(exact, 0x100_0000 * k);
    } else if bits == 2 {
      Quarter(acc, exact, k);
      ModAgain(exact / 4, 0x40_0000 * k);
    } else {
      Sixteenth(acc, exact, k);
      ModAgain(exact / 16, 0x10_0000 * k);
    }
  }

  lemma Quarter(acc: int, exact: nat, k: int)
    requires acc == exact + 0x1_0000_0000 * k
    ensures acc / 4 == exact / 4 + 0x4000_0000 * k
  {
  }

  lemma Sixteenth(acc: int, exact: nat, k: int)
    requires acc == exact + 0x1_0000_0000 * k
    ensures acc / 16 == exact / 16 + 0x1000_0000 * k
  {
  }

  lemma CarryBits(n: nat, v: sextet)
    ensures (n * 64 + v) / 64 == n
    ensures n / 4 * 256 + (n * 64 + v) % 256 == n * 64 + v
    ensures n / 16 * 256 + (n * 64 + v) / 4 % 256 == (n * 64 + v) / 4
    ensures n / 64 * 256 + (n * 64 + v) / 16 % 256 == (n * 64 + v) / 16
  {
    assert (n * 64 + v) / 256 == n / 4;
    var x, y := (n * 64 + v) / 4, (n * 64 + v) / 16;
    assert x == n * 16 + v / 4 && x / 256 == n / 16;
    assert y == n * 4 + v / 16 && y / 256 == n / 64;
  }

  lemma RestOfMore(s: seq<sextet>, v: sextet)
    ensures Rest(s + [v]) == if Rest(s) == 0 then 6 else Rest(s) - 2
    ensures 6 * |s + [v]| / 8 == 6 * |s| / 8 + (if Rest(s) == 0 then 0 else 1)
  {
  }

  /** The bits carried over a letter. */
  lemma OneLetter(s: seq<sextet>, v: sextet, out: seq<byte>)
    requires IsDecoding(s, out)
    ensures Rest(s) == 0 ==> IsDecoding(s + [v], out)
    ensures Rest(s) != 0 ==> IsDecoding(s + [v], out + [(Num(64, s) * 64 + v) / Two(Rest(s) - 2) % 256])
  {
    hide Num, Rest;
    NumPush(64, s, v);
    CarryBits(Num(64, s), v);
    RestOfMore(s, v);
    var n := Num(64, s) * 64 + v;
    if Rest(s) == 2 {
      NumPush(256, out, n % 256);
    } else if Rest(s) == 4 {
      NumPush(256, out, n / 4 % 256);
    } else if Rest(s) == 6 {
      NumPush(256, out, n / 16 % 256);
    }
  }

  method BuildTable() returns (table: seq<int>)
    ensures |table| == 256 && forall ch: byte :: table[ch] == Value(ch)
  {
    table := seq(256, _ => -1);
    for i := 0 to 64
      invariant |table| == 256
      invariant forall ch: byte :: table[ch] == if 0 <= Value(ch) < i then Value(ch) else -1
    {
      LetterValue(i);
      forall ch: byte | Value(ch) == i ensures ch == Letter(i) { ValueLetter(ch); }
      table := table[Letter(i) := i];
    }
  }

  method RemoveSpaces(value: seq<byte>) returns (compact: seq<byte>)
    ensures compact == Compact(value)
  {
    compact := [];
    for i := 0 to |value|
      invariant compact == Compact(value[..i])
    {
      assert value[..i + 1][..i] == value[..i];
      if !IsSpace(value[i]) {
        compact := compact + [value[i]];
      }
    }
    assert value[..|value|] == value;
  }

  method DecodeBase64ImagePayload(value: seq<byte>) returns (result: Option<seq<byte>>)
    ensures Decodes(value, result)
  {
    var comma := IndexOf(value, COMMA);
    var body := value;
    if DATA <= value && comma.Some? {
      body := value[comma.value + 1..];
    }
    var compact := RemoveSpaces(body);
    var table := BuildTable();
    result := DecodeLetters(compact, table);
  }

  method DecodeLetters(compact: seq<byte>, table: seq<int>) returns (result: Option<seq<byte>>)
    requires |table| == 256 && forall ch: byte :: table[ch] == Value(ch)
    ensures DecodesPayload(UpToEquals(compact), result)
  {
    hide Reading, WithoutPrefix, Compact, IndexOf, Value, Int32, AllLetters, DecodesPayload, UpToEquals;
    var acc, bits := 0, -8;
    var decoded: seq<byte> := [];
    ghost var wraps := 0;
    NothingRead();
    var i := 0;
    while i < |compact| && compact[i] != EQUALS
      invariant 0 <= i <= |compact| && EQUALS !in compact[..i]
      invariant Reading(compact[..i], decoded, acc, bits, wraps)
    {
      var ch := compact[i];
      if table[ch] == -1 {
        PayloadHas(compact, i);
        BadPayload(UpToEquals(compact));
        return None;
      }
      wraps := ReadOne(compact[..i], decoded, acc, bits, wraps, ch);
      assert compact[..i + 1] == compact[..i] + [ch];
      acc := Int32(Int32(acc * 64) + table[ch]);
      bits := bits + 6;
      if bits >= 0 {
        decoded := decoded + [acc / Two(bits) % 256];
        bits := bits - 8;
      }
      i := i + 1;
    }
    PayloadIs(compact, i);
    ReadAll(compact[..i], decoded, acc, bits, wraps);
    return if decoded == [] then None else Some(decoded);
  }

  lemma BadPayload(p: seq<byte>)
    requires !AllLetters(p)
    ensures DecodesPayload(p, None)
  {
  }

  lemma NothingRead()
    ensures Reading([], [], 0, -8, 0)
  {
    assert Values([]) == [];
  }

  lemma ReadAll(p: seq<byte>, decoded: seq<byte>, acc: int, bits: int, wraps: int)
    requires Reading(p, decoded, acc, bits, wraps)
    ensures DecodesPayload(p, if decoded == [] then None else Some(decoded))
  {
  }

  /** The decoder's variables after the letters `s`; `wraps` is what the accumulator has lost. */
  ghost predicate Reading(s: seq<byte>, decoded: seq<byte>, acc: int, bits: int, wraps: int) {
    && AllLetters(s)
    && IsDecoding(Values(s), decoded)
    && bits == Rest(Values(s)) - 8
    && acc == Num(64, Values(s)) + 0x1_0000_0000 * wraps
  }

  /** What the accumulator has lost after one more letter. */
  lemma WrapsOn(acc: int, exact: nat, wraps: int, v: sextet) returns (wraps': int)
    requires acc == exact + 0x1_0000_0000 * wraps
    ensures Int32(Int32(acc * 64) + v) == exact * 64 + v + 0x1_0000_0000 * wraps'
  {
    hide Int32;
    wraps' := wraps * 64 + Wraps(acc * 64) + Wraps(Int32(acc * 64) + v);
  }

  lemma ValuesPush(s: seq<byte>, ch: byte)
    requires AllLetters(s) && Value(ch) != -1
    ensures AllLetters(s + [ch]) && Values(s + [ch]) == Values(s) + [Value(ch)]
  {
    hide Value;
  }

  lemma ReadOne(s: seq<byte>, decoded: seq<byte>, acc: int, bits: int, wraps: int, ch: byte) returns (wraps': int)
    requires Reading(s, decoded, acc, bits, wraps) && Value(ch) != -1
    ensures bits in {-8, -6, -4, -2}
    ensures var acc' := Int32(Int32(acc * 64) + Value(ch));
            && (bits == -8 ==> Reading(s + [ch], decoded, acc', -2, wraps'))
            && (bits != -8 ==>
                  Reading(s + [ch], decoded + [acc' / Two(bits + 6) % 256], acc', bits - 2, wraps'))
  {
    hide Num, IsDecoding, Rest, Two, Int32, Values, AllLetters, Value;
    ValuesPush(s, ch);
    var read, v := Values(s), Value(ch);
    var exact := Num(64, read) * 64 + v;
    wraps' := WrapsOn(acc, Num(64, read), wraps, v);
    NumPush(64, read, v);
    OneLetter(read, v, decoded);
    RestOfMore(read, v);
    if bits != -8 { SameByte(Int32(Int32(acc * 64) + v), exact, wraps', bits + 6); }
  }

  lemma {:induction false} FirstAt(s: seq<byte>, ch: byte, i: nat)
    requires i < |s| && s[i] == ch && ch !in s[..i]
    ensures IndexOf(s, ch) == Some(i)
  {
    if i > 0 {
      assert s[0] == s[..i][0];
      assert s[1..][..i - 1] == s[..i][1..];
      FirstAt(s[1..], ch, i - 1);
    }
  }

  lemma {:induction false} NotBefore(s: seq<byte>, ch: byte, i: nat)
    requires i <= |s| && ch !in s[..i]
    ensures IndexOf(s, ch).None? || IndexOf(s, ch).value >= i
  {
    if i > 0 {
      assert s[0] == s[..i][0];
      assert s[1..][..i - 1] == s[..i][1..];
      NotBefore(s[1..], ch, i - 1);
    }
  }

  lemma PayloadHas(s: seq<byte>, i: nat)
    requires i < |s| && EQUALS !in s[..i] && s[i] != EQUALS && Value(s[i]) == -1
    ensures !AllLetters(UpToEquals(s))
  {
    NotBefore(s, EQUALS, i);
    assert UpToEquals(s)[i] == s[i];
  }

  lemma PayloadIs(s: seq<byte>, i: nat)
    requires i <= |s| && EQUALS !in s[..i] && (i == |s| || s[i] == EQUALS)
    ensures UpToEquals(s) == s[..i]
  {
    if i < |s| {
      FirstAt(s, EQUALS, i);
    } else {
      assert s[..i] == s;
    }
  }

  // ----- round trip

  lemma GroupNumber(s: seq<sextet>, p: seq<byte>, g: seq<byte>)
    requires |g| == 3 && Num(64, s) == Num(256, p)
    ensures Num(64, s + Group(g)) == Num(256, p + g)
  {
    var q := Group(g);
    NumPush(64, s, q[0]);
    NumPush(64, s + [q[0]], q[1]);
    NumPush(64, s + [q[0]] + [q[1]], q[2]);
    NumPush(64, s + [q[0]] + [q[1]] + [q[2]], q[3]);
    assert s + q == s + [q[0]] + [q[1]] + [q[2]] + [q[3]];
    NumPush(256, p, g[0]);
    NumPush(256, p + [g[0]], g[1]);
    NumPush(256, p + [g[0]] + [g[1]], g[2]);
    assert p + g == p + [g[0]] + [g[1]] + [g[2]];
  }

  lemma {:induction false} GroupsNumber(b: seq<byte>)
    requires |b| % 3 == 0
    ensures |Groups(b)| == |b| / 3 * 4 && Num(64, Groups(b)) == Num(256, b)
  {
    if b != [] {
      var n := |b| - 3;
      GroupsNumber(b[..n]);
      GroupNumber(Groups(b[..n]), b[..n], b[n..]);
      assert b == b[..n] + b[n..];
    }
  }

  lemma TailNumber(s: seq<sextet>, p: seq<byte>, g: seq<byte>)
    requires |g| < 3 && Num(64, s) == Num(256, p)
    ensures Num(64, s + Tail(g)) == Num(256, p + g) * (if |g| == 0 then 1 else if |g| == 1 then 16 else 4)
  {
    hide Num;
    var q := Tail(g);
    if |g| == 0 {
      assert s + q == s && p + g == p;
    } else if |g| == 1 {
      NumPush(64, s, q[0]);
      NumPush(64, s + [q[0]], q[1]);
      assert s + q == s + [q[0]] + [q[1]];
      NumPush(256, p, g[0]);
      assert p + g == p + [g[0]];
    } else {
      NumPush(64, s, q[0]);
      NumPush(64, s + [q[0]], q[1]);
      NumPush(64, s + [q[0]] + [q[1]], q[2]);
      assert s + q == s + [q[0]] + [q[1]] + [q[2]];
      NumPush(256, p, g[0]);
      NumPush(256, p + [g[0]], g[1]);
      assert p + g == p + [g[0]] + [g[1]];
    }
  }

  /** Decoding the encoded bits gives the bytes back. */
  lemma SextetsDecode(b: seq<byte>)
    ensures IsDecoding(Sextets(b), b)
  {
    var n := |b| / 3 * 3;
    GroupsNumber(b[..n]);
    TailNumber(Groups(b[..n]), b[..n], b[n..]);
    assert b == b[..n] + b[n..];
  }

  /** `text` is an encoding of `b` with whitespace anywhere, and with the padding, without it, or
      with anything else from the first '=' on. */
  predicate IsTextOf(text: seq<byte>, b: seq<byte>) {
    var c := Compact(text);
    Letters(Sextets(b)) <= c && (|c| > |Sextets(b)| ==> c[|Sextets(b)|] == EQUALS)
  }

  lemma EncodedPayload(text: seq<byte>, b: seq<byte>)
    requires IsTextOf(text, b)
    ensures UpToEquals(Compact(text)) == Letters(Sextets(b))
  {
    var c, n := Compact(text), |Sextets(b)|;
    assert c[..n] == Letters(Sextets(b));
    PayloadIs(c, n);
  }

  /** A "data:" head without a comma, which makes `head + [COMMA]` a prefix that is dropped. */
  predicate IsHead(head: seq<byte>) {
    DATA <= head && COMMA !in head
  }

  lemma WithHead(head: seq<byte>, text: seq<byte>)
    requires IsHead(head)
    ensures WithoutPrefix(head + [COMMA] + text) == text
  {
    var v := head + [COMMA] + text;
    assert v[..|head|] == head;
    FirstAt(v, COMMA, |head|);
    assert DATA <= v;
  }

  /** Every nonempty byte sequence comes back from its encoding, padded or not, with any
      whitespace in it, behind a "data:...," prefix. */
  lemma RoundTripWithPrefix(head: seq<byte>, text: seq<byte>, b: seq<byte>, result: Option<seq<byte>>)
    requires b != [] && IsTextOf(text, b) && IsHead(head)
    requires Decodes(head + [COMMA] + text, result)
    ensures result == Some(b)
  {
    WithHead(head, text);
    EncodedPayload(text, b);
    PayloadDecodes(head + [COMMA] + text, b, result);
  }

  /** The same without a prefix: no encoding looks as if it had one. */
  lemma RoundTrip(text: seq<byte>, b: seq<byte>, result: Option<seq<byte>>)
    requires b != [] && IsTextOf(text, b)
    requires Decodes(text, result)
    ensures result == Some(b)
  {
    NoHead(text, b);
    EncodedPayload(text, b);
    PayloadDecodes(text, b, result);
  }

  lemma {:induction false} CompactAppend(a: seq<byte>, b: seq<byte>)
    ensures Compact(a + b) == Compact(a) + Compact(b)
  {
    if b == [] {
      assert a + b == a;
    } else {
      assert (a + b)[..|a + b| - 1] == a + b[..|b| - 1];
      CompactAppend(a, b[..|b| - 1]);
    }
  }

  lemma HeadStays(text: seq<byte>)
    requires DATA <= text
    ensures DATA <= Compact(text)
  {
    CompactAppend(DATA, text[5..]);
    assert text == DATA + text[5..];
    NothingToRemove(DATA);
  }

  lemma NoHead(text: seq<byte>, b: seq<byte>)
    requires IsTextOf(text, b)
    ensures !(DATA <= text)
  {
    hide Sextets, Compact;
    if DATA <= text { HeadStays(text); }
    NoColon(Compact(text), Letters(Sextets(b)));
  }

  lemma NoColon(c: seq<byte>, l: seq<byte>)
    requires l <= c && (|c| > |l| ==> c[|l|] == EQUALS) && forall k | 0 <= k < |l| :: l[k] != 58
    ensures !(DATA <= c)
  {
    if |c| >= 5 {
      if |l| <= 4 {
        assert c[|l|] != DATA[|l|];
      } else {
        assert c[4] == l[4] != DATA[4];
      }
    }
  }

  lemma PayloadDecodes(value: seq<byte>, b: seq<byte>, result: Option<seq<byte>>)
    requires b != [] && Payload(value) == Letters(Sextets(b)) && Decodes(value, result)
    ensures result == Some(b)
  {
    var s, p := Sextets(b), Payload(value);
    SextetsDecode(b);
    forall i | 0 <= i < |s| ensures Value(p[i]) == s[i] { LetterValue(s[i]); }
    assert Values(p) == s;
    NumUnique(result.value, b);
  }

  /** The prescribed encoding and its unpadded form are such texts. */
  lemma EncodingsAreTexts(b: seq<byte>)
    ensures IsTextOf(Encode(b), b) && IsTextOf(Letters(Sextets(b)), b)
  {
    var t := Letters(Sextets(b));
    assert forall ch <- t :: !IsSpace(ch);
    assert forall ch <- Encode(b) :: !IsSpace(ch);
    NothingToRemove(t);
    NothingToRemove(Encode(b));
  }

  lemma {:induction false} NothingToRemove(s: seq<byte>)
    requires forall ch <- s :: !IsSpace(ch)
    ensures Compact(s) == s
  {
    if s != [] { NothingToRemove(s[..|s| - 1]); }
  }

  /** Tab, line feed, vertical tab, form feed, carriage return and space are dropped, nothing else. */
  lemma SpacesAre(ch: byte)
    ensures Compact([ch]) == if ch in {9, 10, 11, 12, 13, 32} then [] else [ch]
  {
    assert [ch][..0] == [] && Compact([]) == [];
  }

  /** Whitespace may be put anywhere. */
  lemma {:induction false} SpacesDoNotMatter(a: seq<byte>, spaces: seq<byte>, b: seq<byte>)
    requires forall ch <- spaces :: IsSpace(ch)
    ensures Compact(a + spaces + b) == Compact(a + b)
    decreases |b|, |spaces|
  {
    if b != [] {
      var n := |b| - 1;
      SpacesDoNotMatter(a, spaces, b[..n]);
      assert (a + spaces + b)[..|a + spaces + b| - 1] == a + spaces + b[..n];
      assert (a + b)[..|a + b| - 1] == a + b[..n];
    } else if spaces != [] {
      var n := |spaces| - 1;
      SpacesDoNotMatter(a, spaces[..n], b);
      assert (a + spaces + b)[..|a + spaces + b| - 1] == a + spaces[..n] + b;
    } else {
      assert a + spaces + b == a + b;
    }
  }

  /** The decoder fails iff a character before the first '=' is neither whitespace nor a letter,
      or fewer than two letters come before it. */
  lemma FailsIff(value: seq<byte>, result: Option<seq<byte>>)
    requires Decodes(value, result)
    ensures result.None? <==>
              var c := Compact(WithoutPrefix(value));
              || (exists k :: 0 <= k < |c| && EQUALS !in c[..k] && c[k] != EQUALS && Value(c[k]) == -1)
              || |UpToEquals(c)| < 2
  {
    var c := Compact(WithoutPrefix(value));
    var p := UpToEquals(c);
    if !AllLetters(p) {
      var k :| 0 <= k < |p| && Value(p[k]) == -1;
      assert c[..|p|] == p;
      assert c[..k] == p[..k];
      assert EQUALS !in c[..k] && c[k] != EQUALS && Value(c[k]) == -1;
    }
    if k :| 0 <= k < |c| && EQUALS !in c[..k] && c[k] != EQUALS && Value(c[k]) == -1 {
      PayloadHas(c, k);
    }
  }

  /** Test vectors of section 10 of RFC 4648: "f", "fo" and "foo" ... */
  lemma {:induction false} TestVectors()
    ensures Encode([102]) == [90, 103, 61, 61]
    ensures Encode([102, 111]) == [90, 109, 56, 61]
    ensures Encode([102, 111, 111]) == [90, 109, 57, 118]
  {
    hide Num, Compact, Value;
    assert Groups([]) == [];
    assert [102, 111, 111][..0] == [];
    assert Groups([102, 111, 111]) == [25, 38, 61, 47];
  }

  /** ... and "foobar". */
  lemma {:induction false} TestVectorOfTwoGroups()
    ensures Encode([102, 111, 111, 98, 97, 114]) == [90, 109, 57, 118, 89, 109, 70, 121]
  {
    hide Letters, Groups;
    var b: seq<byte> := [102, 111, 111, 98, 97, 114];
    FoobarGroups(b);
    assert b[..6] == b && b[6..] == [];
    assert Sextets(b) == [25, 38, 61, 47, 24, 38, 5, 50];
    LettersOf(Sextets(b));
  }

  lemma LettersOf(s: seq<sextet>)
    requires s == [25, 38, 61, 47, 24, 38, 5, 50]
    ensures Letters(s) == [90, 109, 57, 118, 89, 109, 70, 121]
  {
  }

  lemma FoobarGroups(b: seq<byte>)
    requires b == [102, 111, 111, 98, 97, 114]
    ensures Groups(b) == [25, 38, 61, 47, 24, 38, 5, 50]
  {
    hide Group;
    var foo, bar := b[..3], b[3..];
    assert foo[..0] == [] && foo[0..] == foo && foo == [102, 111, 111] && bar == [98, 97, 114];
    assert Groups(foo[..0]) == [];
    OneGroup(foo, bar);
    assert Groups(foo) == Groups(foo[..0]) + Group(foo[0..]);
    assert b[..|b| - 3] == foo && b[|b| - 3..] == bar;
  }

  lemma OneGroup(foo: seq<byte>, bar: seq<byte>)
    requires foo == [102, 111, 111] && bar == [98, 97, 114]
    ensures Group(foo) == [25, 38, 61, 47] && Group(bar) == [24, 38, 5, 50]
  {
  }
}
