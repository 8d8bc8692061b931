/** Base58 and Base58Check: byte strings as strings over a 58-letter alphabet, leading zero bytes kept
    as leading ones.  Both are changes of number base, and undo each other. */
module Base58 {
  import opened Wrappers

  // ---------------------------------------------------------------------------
  // Positional numbers, most significant digit first
  // ---------------------------------------------------------------------------

  function ValueOf(base: nat, ds: seq<nat>): nat {
    if ds == [] then 0 else ValueOf(base, ds[..|ds| - 1]) * base + ds[|ds| - 1]
  }

  function DigitsOf(base: nat, x: nat): seq<nat>
    requires base >= 2
  {
    if x == 0 then [] else DigitsOf(base, x / base) + [x % base]
  }

  predicate Digits(base: nat, ds: seq<nat>) { forall i :: 0 <= i < |ds| ==> ds[i] < base }

  function Zeros(n: nat): (z: seq<nat>)
    ensures |z| == n && forall i :: 0 <= i < n ==> z[i] == 0
  {
    seq(n, _ => 0)
  }

  /** How many zeros a digit string starts with. */
  function LeadingZeros(ds: seq<nat>): (n: nat)
    ensures n <= |ds| && (forall i :: 0 <= i < n ==> ds[i] == 0) && (n < |ds| ==> ds[n] != 0)
  {
    if ds == [] || ds[0] != 0 then 0 else 1 + LeadingZeros(ds[1..])
  }

  /** Rewriting from one base to another, leading zeros kept one for one. */
  function Convert(from: nat, to: nat, ds: seq<nat>): seq<nat>
    requires to >= 2
  {
    Zeros(LeadingZeros(ds)) + DigitsOf(to, ValueOf(from, ds))
  }

  lemma DivMod(q: nat, r: nat, base: nat)
    requires r < base
    ensures (q * base + r) / base == q && (q * base + r) % base == r
  {
    var x := q * base + r;
    var d := x / base - q;
    assert x == (x / base) * base + x % base;
    assert d * base == r - x % base by { assert (x / base - q) * base == (x / base) * base - q * base; }
    if d >= 1 { Grows(d - 1, base); }
  }

  lemma Grows(a: nat, b: nat)
    ensures (a + 1) * b >= b
  {}

  lemma ValuePush(base: nat, ds: seq<nat>, d: nat)
    ensures ValueOf(base, ds + [d]) == ValueOf(base, ds) * base + d
  {
    assert (ds + [d])[..|ds|] == ds;
  }

  lemma DigitsStep(base: nat, x: nat)
    requires base >= 2 && x != 0
    ensures DigitsOf(base, x) == DigitsOf(base, x / base) + [x % base]
    ensures x == (x / base) * base + x % base && x % base < base && (x / base == 0 ==> x % base != 0)
  {
    Parts(x, base);
  }

  lemma Parts(x: nat, base: nat)
    requires base > 0
    ensures x == (x / base) * base + x % base
  {}

  lemma {:induction false} DigitsShape(base: nat, x: nat)
    requires base >= 2
    ensures Digits(base, DigitsOf(base, x)) && ValueOf(base, DigitsOf(base, x)) == x
    ensures DigitsOf(base, x) != [] ==> DigitsOf(base, x)[0] != 0
    decreases x
  {
    if x == 0 {
      NoDigits(base);
    } else {
      hide DigitsOf, ValueOf;
      Smaller(x, base);
      NoDigits(base);
      DigitsShape(base, x / base);
      DigitsStep(base, x);
      ValuePush(base, DigitsOf(base, x / base), x % base);
    }
  }

  lemma NoDigits(base: nat)
    requires base >= 2
    ensures DigitsOf(base, 0) == [] && ValueOf(base, []) == 0
  {}

  lemma Smaller(x: nat, base: nat)
    requires x > 0 && base >= 2
    ensures x / base < x
  {}

  lemma {:induction false} ValueDigits(base: nat, ds: seq<nat>)
    requires base >= 2 && Digits(base, ds) && (ds == [] || ds[0] != 0)
    ensures DigitsOf(base, ValueOf(base, ds)) == ds
    ensures ds != [] ==> ValueOf(base, ds) > 0
    decreases |ds|
  {
    if ds != [] {
      var high, low := ds[..|ds| - 1], ds[|ds| - 1];
      ValueDigits(base, high);
      DivMod(ValueOf(base, high), low, base);
      if high != [] { Grows(ValueOf(base, high) - 1, base); }
      assert ds == high + [low];
    }
  }

  lemma {:induction false} ValuePadded(base: nat, n: nat, ds: seq<nat>)
    ensures ValueOf(base, Zeros(n) + ds) == ValueOf(base, ds)
    decreases n + |ds|
  {
    var all := Zeros(n) + ds;
    if ds != [] {
      assert all[..|all| - 1] == Zeros(n) + ds[..|ds| - 1];
      ValuePadded(base, n, ds[..|ds| - 1]);
    } else if n > 0 {
      assert all[..|all| - 1] == Zeros(n - 1) + [];
      ValuePadded(base, n - 1, []);
    }
  }

  lemma LeadingPadded(n: nat, ds: seq<nat>)
    requires ds == [] || ds[0] != 0
    ensures LeadingZeros(Zeros(n) + ds) == n
  {
    var all := Zeros(n) + ds;
    assert ds != [] ==> all[n] == ds[0];
  }

  /** A digit string is its leading zeros and a rest that does not start with zero. */
  lemma Stripped(ds: seq<nat>)
    ensures
      var rest := ds[LeadingZeros(ds)..];
      ds == Zeros(LeadingZeros(ds)) + rest && (rest == [] || rest[0] != 0)
  {}

  /** A change of base is undone by the change back, leading zeros included. */
  lemma ConvertInverts(from: nat, to: nat, ds: seq<nat>)
    requires from >= 2 && to >= 2 && Digits(from, ds)
    ensures Convert(to, from, Convert(from, to, ds)) == ds
  {
    var n, v := LeadingZeros(ds), ValueOf(from, ds);
    var rest := ds[n..];
    Stripped(ds);
    ValuePadded(from, n, rest);
    ValueDigits(from, rest);
    DigitsShape(to, v);
    LeadingPadded(n, DigitsOf(to, v));
    ValuePadded(to, n, DigitsOf(to, v));
  }

  lemma ConvertDigits(from: nat, to: nat, ds: seq<nat>)
    requires to >= 2
    ensures Digits(to, Convert(from, to, ds))
  {
    DigitsShape(to, ValueOf(from, ds));
  }

  // ---------------------------------------------------------------------------
  // The alphabet
  // ---------------------------------------------------------------------------

  const ALPHABET := "123456789" + "ABCDEFGH" + "JKLMN" + "PQRSTUVWXYZ" + "abcdefghijk" + "mnopqrstuvwxyz"

  /** The letters are the ASCII codes of six runs, in increasing order. */
  function Code(d: nat): int {
    if d < 9 then 49 + d else if d < 17 then 56 + d else if d < 22 then 57 + d
    else if d < 33 then 58 + d else if d < 44 then 64 + d else 65 + d
  }

  lemma Runs(d: nat)
    ensures d < 9 ==> "123456789"[d] as int == 49 + d
    ensures d < 8 ==> "ABCDEFGH"[d] as int == 65 + d
    ensures d < 5 ==> "JKLMN"[d] as int == 74 + d
    ensures d < 11 ==> "PQRSTUVWXYZ"[d] as int == 80 + d
    ensures d < 11 ==> "abcdefghijk"[d] as int == 97 + d
    ensures d < 14 ==> "mnopqrstuvwxyz"[d] as int == 109 + d
  {}

  lemma AlphabetCodes()
    ensures |ALPHABET| == 58
    ensures forall d :: 0 <= d < 58 ==> ALPHABET[d] as int == Code(d)
  {
    forall d | 0 <= d < 58 ensures ALPHABET[d] as int == Code(d) {
      Runs(if d < 9 then d else if d < 17 then d - 9 else if d < 22 then d - 17
           else if d < 33 then d - 22 else if d < 44 then d - 33 else d - 44);
    }
  }

  /** The alphabet: the digits and letters without 0, I, O and l, in the order of their codes. */
  lemma AlphabetIs(c: char)
    ensures c in ALPHABET <==>
      (('1' <= c <= '9' || 'A' <= c <= 'Z' || 'a' <= c <= 'z') && c != 'I' && c != 'O' && c != 'l')
    ensures forall i, j :: 0 <= i < j < |ALPHABET| ==> ALPHABET[i] < ALPHABET[j]
  {
    AlphabetCodes();
    var n := c as int;
    if '1' <= c <= '9' { assert ALPHABET[n - 49] == c; }
    if 'A' <= c <= 'H' { assert ALPHABET[n - 56] == c; }
    if 'J' <= c <= 'N' { assert ALPHABET[n - 57] == c; }
    if 'P' <= c <= 'Z' { assert ALPHABET[n - 58] == c; }
    if 'a' <= c <= 'k' { assert ALPHABET[n - 64] == c; }
    if 'm' <= c <= 'z' { assert ALPHABET[n - 65] == c; }
    if c in ALPHABET {
      var d :| 0 <= d < |ALPHABET| && ALPHABET[d] == c;
      assert n == Code(d);
    }
  }

  /** Position of the first `c` in `s`, or -1. */
  function IndexByte(s: string, c: char): (r: int)
    ensures -1 <= r < |s| && (r >= 0 ==> s[r] == c) && (r < 0 <==> c !in s)
  {
    if s == "" then -1
    else if s[0] == c then 0
    else
      var r := IndexByte(s[1..], c);
      if r < 0 then -1 else r + 1
  }

  /** Letters and their positions determine each other. */
  lemma LetterIndex(d: nat)
    requires d < 58
    ensures |ALPHABET| == 58 && IndexByte(ALPHABET, ALPHABET[d]) == d
  {
    AlphabetCodes();
    var r := IndexByte(ALPHABET, ALPHABET[d]);
    assert ALPHABET[d] in ALPHABET;
    assert Code(r) == Code(d);
  }

  // ---------------------------------------------------------------------------
  // Base58
  // ---------------------------------------------------------------------------

  type Byte = b: nat | b < 256

  function Letters(ds: seq<nat>): (s: string)
    requires Digits(58, ds)
    ensures |s| == |ds|
  {
    AlphabetCodes();
    seq(|ds|, i requires 0 <= i < |ds| => ALPHABET[ds[i]])
  }

  predicate IsBase58(s: string) { forall i :: 0 <= i < |s| ==> s[i] in ALPHABET }

  function Indices(s: string): (ds: seq<nat>)
    requires IsBase58(s)
    ensures Digits(58, ds) && |ds| == |s|
  {
    AlphabetCodes();
    seq(|s|, i requires 0 <= i < |s| => IndexByte(ALPHABET, s[i]))
  }

  function Encode(bytes: seq<Byte>): string {
    ConvertDigits(256, 58, bytes);
    Letters(Convert(256, 58, bytes))
  }

  function Decode(s: string): Option<seq<Byte>> {
    if !IsBase58(s) then None
    else
      ConvertDigits(58, 256, Indices(s));
      Some(Convert(58, 256, Indices(s)))
  }

  lemma LettersIndices(ds: seq<nat>)
    requires Digits(58, ds)
    ensures IsBase58(Letters(ds)) && Indices(Letters(ds)) == ds
  {
    AlphabetCodes();
    forall i | 0 <= i < |ds| ensures Letters(ds)[i] in ALPHABET && IndexByte(ALPHABET, Letters(ds)[i]) == ds[i] {
      LetterIndex(ds[i]);
    }
  }

  lemma IndicesLetters(s: string)
    requires IsBase58(s)
    ensures Letters(Indices(s)) == s
  {
    AlphabetCodes();
  }

  /** Decoding undoes encoding, for every byte string, leading zeros included. */
  lemma DecodeEncode(bytes: seq<Byte>)
    ensures Decode(Encode(bytes)) == Some(bytes)
  {
    ConvertDigits(256, 58, bytes);
    LettersIndices(Convert(256, 58, bytes));
    ConvertInverts(256, 58, bytes);
  }

  /** Encoding undoes decoding, for every string over the alphabet; nothing else decodes. */
  lemma EncodeDecode(s: string)
    ensures Decode(s).Some? <==> IsBase58(s)
    ensures IsBase58(s) ==> Encode(Decode(s).value) == s
  {
    if IsBase58(s) {
      ConvertInverts(58, 256, Indices(s));
      IndicesLetters(s);
    }
  }

  // ---------------------------------------------------------------------------
  // The loops
  // ---------------------------------------------------------------------------

  function Reversed(s: string): string {
    if s == "" then "" else Reversed(s[1..]) + [s[0]]
  }

  lemma {:induction false} ReversedAt(s: string, k: nat)
    requires k < |s|
    ensures |Reversed(s)| == |s| && Reversed(s)[k] == s[|s| - 1 - k]
    decreases |s|
  {
    if |s| == 1 {
      assert Reversed(s[1..]) == "";
    } else {
      ReversedAt(s[1..], if k < |s| - 1 then k else 0);
    }
  }

  lemma {:induction false} ReversedPush(s: string, c: char)
    ensures Reversed(s + [c]) == [c] + Reversed(s)
    decreases |s|
  {
    if s == "" {
      assert (s + [c])[1..] == "";
    } else {
      assert (s + [c])[1..] == s[1..] + [c];
      ReversedPush(s[1..], c);
      assert [c] + (Reversed(s[1..]) + [s[0]]) == ([c] + Reversed(s[1..])) + [s[0]];
    }
  }

  /** Swap the ends, moving inwards. */
  method Reverse(s: string) returns (r: string)
    ensures r == Reversed(s)
  {
    r := s;
    var i, j := 0, |s| - 1;
    while i < j
      invariant |r| == |s| && 0 <= i <= (|s| + 1) / 2 && j == |s| - 1 - i
      invariant forall k :: 0 <= k < i ==> r[k] == s[|s| - 1 - k] && r[|s| - 1 - k] == s[k]
      invariant forall k :: i <= k <= j ==> r[k] == s[k]
    {
      var a, b := r[i], r[j];
      r := r[i := b];
      r := r[j := a];
      i, j := i + 1, j - 1;
    }
    assert Reversed("") == "";
    if s != "" {
      ReversedAt(s, 0);
      forall k | 0 <= k < |s| ensures |Reversed(s)| == |s| && r[k] == Reversed(s)[k] {
        ReversedAt(s, k);
        assert k > j ==> r[|s| - 1 - (|s| - 1 - k)] == s[|s| - 1 - k];
      }
    }
    assert r == Reversed(s);
  }

  lemma LettersPush(ds: seq<nat>, d: nat)
    requires Digits(58, ds) && d < 58
    ensures |ALPHABET| == 58 && Digits(58, ds + [d]) && Letters(ds + [d]) == Letters(ds) + [ALPHABET[d]]
  {
    AlphabetCodes();
  }

  /** The division loop: least significant letter first. */
  method DivisionLetters(n: nat) returns (result: string)
    ensures Digits(58, DigitsOf(58, n)) && Reversed(result) == Letters(DigitsOf(58, n))
  {
    hide Letters;
    DigitsShape(58, n);
    NoDigits(58);
    LettersNone();
    AlphabetCodes();
    var x := n;
    result := "";
    while x > 0
      invariant Digits(58, DigitsOf(58, x)) && Letters(DigitsOf(58, n)) == Letters(DigitsOf(58, x)) + Reversed(result)
    {
      DigitsShape(58, x / 58);
      DigitsStep(58, x);
      LettersPush(DigitsOf(58, x / 58), x % 58);
      ReversedPush(result, ALPHABET[x % 58]);
      ghost var high, low := Letters(DigitsOf(58, x / 58)), [ALPHABET[x % 58]];
      assert (high + low) + Reversed(result) == high + (low + Reversed(result));
      result := result + [ALPHABET[x % 58]];
      Smaller(x, 58);
      x := x / 58;
    }
  }

  lemma LettersNone()
    ensures Letters([]) == ""
  {}

  method EncodeBase58(input: seq<Byte>) returns (s: string)
    ensures s == Encode(input)
  {
    AlphabetCodes();
    ghost var n := LeadingZeros(input);
    s := DivisionLetters(ValueOf(256, input));
    s := Reverse(s);
    ghost var body := s;
    var i := 0;
    while i < |input| && input[i] == 0
      invariant 0 <= i <= n
      invariant |s| == i + |body| && (forall k :: 0 <= k < i ==> s[k] == ALPHABET[0]) && s[i..] == body
    {
      s := [ALPHABET[0]] + s;
      i := i + 1;
    }
    ConvertDigits(256, 58, input);
  }

  /** The multiplication loop: the number a string stands for, if all its letters are known. */
  method LettersValue(input: string) returns (x: Option<nat>)
    ensures x == if IsBase58(input) then Some(ValueOf(58, Indices(input))) else None
  {
    hide Indices, IndexByte;
    AlphabetCodes();
    NoIndices();
    NoDigits(58);
    var value, i := 0, 0;
    while i < |input|
      invariant 0 <= i <= |input| && IsBase58(input[..i]) && value == ValueOf(58, Indices(input[..i]))
    {
      var d := IndexByte(ALPHABET, input[i]);
      if d < 0 { return None; }
      assert input[..i + 1] == input[..i] + [input[i]];
      IndicesPush(input[..i], input[i]);
      ValuePush(58, Indices(input[..i]), d);
      value := value * 58 + d;
      i := i + 1;
    }
    assert input[..|input|] == input;
    x := Some(value);
  }

  lemma NoIndices()
    ensures Indices("") == []
  {}

  lemma IndicesPush(s: string, c: char)
    requires IsBase58(s) && c in ALPHABET
    ensures IsBase58(s + [c]) && Indices(s + [c]) == Indices(s) + [IndexByte(ALPHABET, c)]
  {}

  /** One zero byte for every leading first letter. */
  method LeadingBytes(input: string) returns (zeros: seq<Byte>)
    requires IsBase58(input)
    ensures zeros == Zeros(LeadingZeros(Indices(input)))
  {
    hide IsBase58, Indices, Code;
    AlphabetCodes();
    var first, i := ALPHABET[0], 0;
    zeros := [];
    while i < |input| && input[i] == first
      invariant 0 <= i <= LeadingZeros(Indices(input)) && |zeros| == i && forall k :: 0 <= k < i ==> zeros[k] == 0
    {
      FirstLetter(input, i);
      zeros := zeros + [0];
      i := i + 1;
    }
    if i < |input| { FirstLetter(input, i); }
  }

  lemma FirstLetter(s: string, i: nat)
    requires IsBase58(s) && i < |s|
    ensures |ALPHABET| == 58 && (Indices(s)[i] == 0 <==> s[i] == ALPHABET[0])
  {
    LetterIndex(0);
  }

  method DecodeBase58(input: string) returns (r: Option<seq<Byte>>)
    ensures r == Decode(input)
  {
    hide Indices, DigitsOf, ValueOf, Zeros, LeadingZeros;
    var x := LettersValue(input);
    if x == None { return None; }
    var zeros := LeadingBytes(input);
    DigitsShape(256, x.value);
    ConvertDigits(58, 256, Indices(input));
    r := Some(zeros + DigitsOf(256, x.value));
  }

  // ---------------------------------------------------------------------------
  // Base58Check
  // ---------------------------------------------------------------------------

  /** A digest function with digests of 32 bytes. */
  type Digest = seq<Byte> -> seq<Byte>

  ghost predicate DigestOk(hash: Digest) { forall d :: |hash(d)| == 32 }

  function Checksum(hash: Digest, data: seq<Byte>): seq<Byte>
    requires |hash(data)| == 32
  {
    hash(data)[..4]
  }

  /** The check of an encoding is the first four bytes of the digest of version and payload. */
  lemma CheckIsDigest(hash: Digest, version: Byte, payload: seq<Byte>, k: nat)
    requires DigestOk(hash) && k < 4
    ensures
      var d := Decode(CheckEncode(hash, version, payload));
      d.Some? && |d.value| == |payload| + 5 && d.value[|payload| + 1 + k] == hash([version] + payload)[k]
  {
    hide Decode, CheckEncode;
    CheckParts(hash, version, payload);
    assert Decode(CheckEncode(hash, version, payload)).value[|payload| + 1..][k] == hash([version] + payload)[k];
  }

  method Base58CheckEncode(hash: Digest, version: Byte, payload: seq<Byte>) returns (s: string)
    requires DigestOk(hash)
    ensures s == CheckEncode(hash, version, payload)
  {
    var data := [version] + payload;
    s := EncodeBase58(data + Checksum(hash, data));
  }

  ghost function CheckEncode(hash: Digest, version: Byte, payload: seq<Byte>): string
    requires DigestOk(hash)
  {
    Encode([version] + payload + Checksum(hash, [version] + payload))
  }

  /** Decoding accepts exactly the encodings, and returns what was encoded. */
  method Base58CheckDecode(hash: Digest, s: string) returns (r: Option<(Byte, seq<Byte>)>)
    requires DigestOk(hash)
    ensures forall version, payload :: r == Some((version, payload)) <==> s == CheckEncode(hash, version, payload)
  {
    hide Decode, CheckEncode, Checksum;
    var d := DecodeBase58(s);
    r := None;
    if d.Some? && |d.value| >= 5 {
      var n := |d.value| - 4;
      if d.value[n..] == Checksum(hash, d.value[..n]) {
        r := Some((d.value[0], d.value[1..n]));
      }
    }
    forall version, payload ensures r == Some((version, payload)) <==> s == CheckEncode(hash, version, payload) {
      OnlyEncodings(hash, s, r, version, payload);
    }
  }

  /** Splitting a decoded string and checking its checksum finds its version and payload. */
  lemma OnlyEncodings(hash: Digest, s: string, r: Option<(Byte, seq<Byte>)>, version: Byte, payload: seq<Byte>)
    requires DigestOk(hash)
    requires
      var d := Decode(s);
      r == if d.Some? && |d.value| >= 5 && d.value[|d.value| - 4..] == Checksum(hash, d.value[..|d.value| - 4])
           then Some((d.value[0], d.value[1..|d.value| - 4])) else None
    ensures r == Some((version, payload)) <==> s == CheckEncode(hash, version, payload)
  {
    hide Encode, Decode, Checksum;
    CheckParts(hash, version, payload);
    EncodeDecode(s);
    if r == Some((version, payload)) {
      var bytes := Decode(s).value;
      var n := |bytes| - 4;
      assert bytes[..n] == [version] + payload;
      assert bytes == bytes[..n] + bytes[n..];
    }
  }

  lemma CheckParts(hash: Digest, version: Byte, payload: seq<Byte>)
    requires DigestOk(hash)
    ensures
      var d := Decode(CheckEncode(hash, version, payload));
      d.Some? && |d.value| == |payload| + 5 && d.value[..|payload| + 1] == [version] + payload &&
      d.value[|payload| + 1..] == Checksum(hash, [version] + payload) && d.value[0] == version && d.value[1..|payload| + 1] == payload
  {
    DecodeEncode([version] + payload + Checksum(hash, [version] + payload));
  }

  lemma Numbers256()
    ensures ValueOf(256, [0, 1, 0]) == 256 && DigitsOf(58, 256) == [4, 24] && LeadingZeros([0, 1, 0]) == 1
  {
    assert [0, 1, 0][..2] == [0, 1] && [0, 1][..1] == [0] && [0][..0] == [];
    assert ValueOf(256, [0]) == 0 && ValueOf(256, [0, 1]) == 1;
    assert DigitsOf(58, 4) == [] + [4] && DigitsOf(58, 256) == DigitsOf(58, 4) + [24];
    assert [0, 1, 0][1..] == [1, 0];
  }

  /** Two hundred and fifty-six, in three bytes, is "15R": the leading zero as a one, then 4 times 58 and 24. */
  lemma KnownEncoding()
    ensures Encode([0, 1, 0]) == "15R" && Decode("15R") == Some([0, 1, 0])
  {
    Numbers256();
    AlphabetCodes();
    assert Convert(256, 58, [0, 1, 0]) == [0, 4, 24];
    assert Encode([0, 1, 0]) == "15R" by {
      assert Encode([0, 1, 0])[0] == '1' && Encode([0, 1, 0])[1] == '5' && Encode([0, 1, 0])[2] == 'R';
    }
    DecodeEncode([0, 1, 0]);
  }
}
