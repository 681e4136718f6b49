/** The Base58 codec of agent ids: two numeral bases, and leading zeros carried over as padding. */
module Base58 {
  import opened Wrappers

  type Byte = b: nat | b < 256

  /** Digits and letters without 0, I, O and l: six runs of consecutive characters. */
  const ALPHABET := CAPITALS + "abcdefghijk" + "mnopqrstuvwxyz"
  const CAPITALS := "123456789" + "ABCDEFGH" + "JKLMN" + "PQRSTUVWXYZ"

  /******* Numerals, most significant digit first *******/

  /** int.from_bytes and the decoding loop's Horner sum. */
  function Value(base: nat, ds: seq<nat>): nat {
    if ds == [] then 0 else Value(base, ds[..|ds| - 1]) * base + ds[|ds| - 1]
  }

  function Digits(base: nat, n: nat): (ds: seq<nat>)
    requires base >= 2
    ensures forall d | d in ds :: d < base
    ensures ds != [] ==> ds[0] != 0
  {
    if n == 0 then [] else Digits(base, n / base) + [n % base]
  }

  predicate InBase(base: nat, ds: seq<nat>) {
    forall d | d in ds :: d < base
  }

  function Zeros(k: nat): seq<nat> {
    seq(k, i => 0)
  }

  function LeadingZeros(ds: seq<nat>): (k: nat)
    ensures k <= |ds|
    ensures forall i | 0 <= i < k :: ds[i] == 0
    ensures k < |ds| ==> ds[k] != 0
  {
    if ds == [] || ds[0] != 0 then 0 else 1 + LeadingZeros(ds[1..])
  }

  lemma DigitsStep(base: nat, n: nat)
    requires base >= 2
    ensures n == 0 ==> Digits(base, n) == [] && Value(base, []) == 0
    ensures n > 0 ==> Digits(base, n) == Digits(base, n / base) + [n % base]
  {
  }

  lemma DivIdentity(n: nat, base: nat)
    requires base > 0
    ensures n / base * base + n % base == n
  {
  }

  lemma {:induction false} ValueOfDigits(base: nat, n: nat)
    requires base >= 2
    ensures Value(base, Digits(base, n)) == n
  {
    hide Value, Digits;
    DigitsStep(base, n);
    if n != 0 {
      ValueOfDigits(base, n / base);
      ValueSnoc(base, Digits(base, n / base), n % base);
      DivIdentity(n, base);
    }
  }

  /** A numeral is its leading zeros followed by the digits of its value. */
  lemma {:induction false} NormalForm(base: nat, ds: seq<nat>)
    requires base >= 2 && InBase(base, ds)
    ensures ds == Zeros(LeadingZeros(ds)) + Digits(base, Value(base, ds))
  {
    if ds != [] {
      var front, last := ds[..|ds| - 1], ds[|ds| - 1];
      assert ds == front + [last] && last in ds;
      assert forall d | d in front :: d in ds;
      NormalForm(base, front);
      NormalSnoc(base, front, last, Value(base, front));
    }
  }

  lemma NormalSnoc(base: nat, front: seq<nat>, last: nat, v: nat)
    requires base >= 2 && last < base && v == Value(base, front)
    requires front == Zeros(LeadingZeros(front)) + Digits(base, v)
    ensures front + [last] == Zeros(LeadingZeros(front + [last])) + Digits(base, v * base + last)
  {
    Shift(base, v, last);
    LeadingZerosSnoc(front, last);
    hide Digits, Value, LeadingZeros;
    if LeadingZeros(front) == |front| {
      ValueOfZeros(base, front);
      assert Digits(base, v) == [];
    } else {
      NonzeroValue(base, front);
      assert front + [last] == Zeros(LeadingZeros(front)) + (Digits(base, v) + [last]);
    }
  }

  lemma {:induction false} ValueOfZeros(base: nat, ds: seq<nat>)
    requires LeadingZeros(ds) == |ds|
    ensures Value(base, ds) == 0
  {
    if ds != [] {
      var front := ds[..|ds| - 1];
      LeadingZerosAre(front, |front|);
      ValueOfZeros(base, front);
    }
  }

  lemma {:induction false} NonzeroValue(base: nat, ds: seq<nat>)
    requires base >= 2 && LeadingZeros(ds) < |ds|
    ensures Value(base, ds) > 0
  {
    var front, last := ds[..|ds| - 1], ds[|ds| - 1];
    assert ds == front + [last];
    LeadingZerosSnoc(front, last);
    if LeadingZeros(front) < |front| {
      NonzeroValue(base, front);
      Multiple(Value(base, front), base);
    }
  }

  lemma LeadingZerosSnoc(front: seq<nat>, last: nat)
    ensures LeadingZeros(front + [last])
         == if LeadingZeros(front) == |front| && last == 0 then |front| + 1 else LeadingZeros(front)
  {
    var ds := front + [last];
    assert forall i | 0 <= i < |front| :: ds[i] == front[i];
    LeadingZerosAre(ds, if LeadingZeros(front) == |front| && last == 0 then |front| + 1 else LeadingZeros(front));
  }

  lemma Shift(base: nat, v: nat, d: nat)
    requires base >= 2 && d < base
    ensures Digits(base, v * base + d) == if v == 0 && d == 0 then [] else Digits(base, v) + [d]
  {
    assert (v * base + d) / base == v && (v * base + d) % base == d by { DivMod(base, v, d); }
  }

  lemma {:induction false} Multiple(k: nat, base: nat)
    requires k > 0
    ensures k * base >= base
  {
    if k > 1 {
      Multiple(k - 1, base);
      assert k * base == (k - 1) * base + base;
    }
  }

  lemma DivMod(base: nat, v: nat, d: nat)
    requires base > d
    ensures (v * base + d) / base == v && (v * base + d) % base == d
  {
    var n := v * base + d;
    var q, r := n / base, n % base;
    assert n == q * base + r;
    if q > v {
      assert (q - v) * base == d - r;
      Multiple(q - v, base);
    } else if q < v {
      assert (v - q) * base == r - d;
      Multiple(v - q, base);
    }
  }

  lemma {:induction false} LeadingZerosAre(ds: seq<nat>, k: nat)
    requires k <= |ds| && (forall i | 0 <= i < k :: ds[i] == 0) && (k < |ds| ==> ds[k] != 0)
    ensures LeadingZeros(ds) == k
  {
  }

  /******* The alphabet *******/

  /** str.index, or |s| when the character is absent. */
  function IndexIn(s: string, c: char): (i: nat)
    ensures i <= |s|
    ensures i < |s| ==> s[i] == c
    ensures c in s <==> i < |s|
  {
    if s == "" || s[0] == c then 0 else 1 + IndexIn(s[1..], c)
  }

  ghost predicate Ascending(s: string) {
    forall i, j | 0 <= i < j < |s| :: s[i] < s[j]
  }

  lemma AscendingJoin(s: string, t: string)
    requires Ascending(s) && Ascending(t) && s != "" && t != "" && s[|s| - 1] < t[0]
    ensures Ascending(s + t)
  {
  }

  lemma CapitalsAscend()
    ensures |CAPITALS| == 33 && Ascending(CAPITALS) && CAPITALS[32] == 'Z'
  {
    AscendingJoin("123456789", "ABCDEFGH");
    AscendingJoin("123456789" + "ABCDEFGH", "JKLMN");
    AscendingJoin("123456789" + "ABCDEFGH" + "JKLMN", "PQRSTUVWXYZ");
  }

  lemma AlphabetAscends()
    ensures |ALPHABET| == 58 && Ascending(ALPHABET)
  {
    CapitalsAscend();
    AscendingJoin(CAPITALS, "abcdefghijk");
    AscendingJoin(CAPITALS + "abcdefghijk", "mnopqrstuvwxyz");
  }

  lemma CapitalsAre(c: char)
    ensures c in CAPITALS <==> '1' <= c <= '9' || ('A' <= c <= 'Z' && c != 'I' && c != 'O')
  {
  }

  /** The alphabet, in the order of character codes, is the digits and letters but for the four that look alike. */
  lemma AlphabetIs(c: char)
    ensures c in ALPHABET <==>
              ('0' <= c <= '9' || 'A' <= c <= 'Z' || 'a' <= c <= 'z') && c != '0' && c != 'O' && c != 'I' && c != 'l'
  {
    CapitalsAre(c);
    hide CAPITALS;
  }

  lemma {:induction false} IndexOfElement(s: string, i: nat)
    requires Ascending(s) && i < |s|
    ensures IndexIn(s, s[i]) == i
  {
    assert s[i] in s;
    assert s[IndexIn(s, s[i])] == s[i];
  }

  predicate OverAlphabet(s: string) {
    forall c | c in s :: c in ALPHABET
  }

  function Chars(ds: seq<nat>): (s: string)
    requires InBase(58, ds)
    ensures |s| == |ds|
  {
    AlphabetAscends();
    seq(|ds|, i requires 0 <= i < |ds| => assert ds[i] in ds; ALPHABET[ds[i]])
  }

  function Indices(s: string): (ds: seq<nat>)
    requires OverAlphabet(s)
    ensures InBase(58, ds) && |ds| == |s|
  {
    AlphabetAscends();
    seq(|s|, i requires 0 <= i < |s| => assert s[i] in s; IndexIn(ALPHABET, s[i]))
  }

  lemma IndicesOfChars(ds: seq<nat>)
    requires InBase(58, ds)
    ensures OverAlphabet(Chars(ds)) && Indices(Chars(ds)) == ds
  {
    AlphabetAscends();
    hide IndexIn;
    forall i | 0 <= i < |ds|
      ensures Chars(ds)[i] in ALPHABET && IndexIn(ALPHABET, Chars(ds)[i]) == ds[i]
    {
      assert ds[i] in ds;
      IndexOfElement(ALPHABET, ds[i]);
    }
  }

  lemma CharsOfIndices(s: string)
    requires OverAlphabet(s)
    ensures Chars(Indices(s)) == s
  {
  }

  /******* The codec *******/

  /** s writes the digits ds, most significant first. */
  predicate Spells(s: string, ds: seq<nat>) {
    |s| == |ds| && forall i | 0 <= i < |s| :: ds[i] < |ALPHABET| && s[i] == ALPHABET[ds[i]]
  }

  /** s and data are the same number, with as many leading zeros. */
  ghost predicate Stands(s: string, data: seq<Byte>) {
    exists ds :: Spells(s, ds) && Value(58, ds) == Value(256, data) && LeadingZeros(ds) == LeadingZeros(data)
  }

  function Encoded(data: seq<Byte>): string {
    Chars(Zeros(LeadingZeros(data)) + Digits(58, Value(256, data)))
  }

  function Decoded(s: string): Option<seq<Byte>> {
    if !OverAlphabet(s) then None
    else Some(Padded(LeadingZeros(Indices(s)), Digits(256, Value(58, Indices(s)))))
  }

  function Padded(k: nat, body: seq<nat>): (r: seq<Byte>)
    requires InBase(256, body)
    ensures r == Zeros(k) + body
  {
    var ds := Zeros(k) + body;
    assert forall i | 0 <= i < |ds| :: ds[i] < 256 by {
      forall i | 0 <= i < |ds|
        ensures ds[i] < 256
      {
        assert i >= k ==> ds[i] == body[i - k] && body[i - k] in body;
      }
    }
    ds
  }

  method B58Encode(data: seq<Byte>) returns (r: string)
    ensures r == Encoded(data) && Stands(r, data)
  {
    AlphabetAscends();
    hide Value, Digits, LeadingZeros, Ascending, Stands;
    DigitsStep(58, 0);
    var n := Value(256, data);
    var out := "";
    while n > 0
      invariant Chars(Digits(58, n)) + out == Chars(Digits(58, Value(256, data)))
    {
      var rem := n % 58;
      DigitsStep(58, n);
      CharsSnoc(Digits(58, n / 58), rem);
      out := [ALPHABET[rem]] + out;
      n := n / 58;
    }
    var pad := 0;
    for i := 0 to |data|
      invariant pad == i <= LeadingZeros(data)
    {
      if data[i] == 0 {
        pad := pad + 1;
      } else {
        break;
      }
    }
    CharsJoin(Zeros(pad), Digits(58, Value(256, data)));
    CharsOfZeros(pad);
    r := seq(pad, i => ALPHABET[0]) + out;
    EncodedStands(data);
  }

  lemma EncodedStands(data: seq<Byte>)
    ensures Stands(Encoded(data), data)
  {
    var ds := Zeros(LeadingZeros(data)) + Digits(58, Value(256, data));
    ZerosThenDigits(58, LeadingZeros(data), Value(256, data));
    CharsSpell(ds);
    hide Value, Digits, LeadingZeros, Spells, Chars;
  }

  lemma CharsSpell(ds: seq<nat>)
    requires InBase(58, ds)
    ensures Spells(Chars(ds), ds)
  {
    AlphabetAscends();
    hide Ascending;
    forall i | 0 <= i < |ds|
      ensures ds[i] < |ALPHABET|
    {
      assert ds[i] in ds;
    }
  }

  lemma DecodedStands(s: string)
    requires OverAlphabet(s)
    ensures Stands(s, Decoded(s).value)
  {
    var ds := Indices(s);
    ZerosThenDigits(256, LeadingZeros(ds), Value(58, ds));
    AlphabetAscends();
    hide Value, Digits, LeadingZeros;
    assert Spells(s, ds);
  }

  lemma CharsJoin(a: seq<nat>, b: seq<nat>)
    requires InBase(58, a) && InBase(58, b)
    ensures InBase(58, a + b) && Chars(a + b) == Chars(a) + Chars(b)
  {
  }

  lemma CharsOfZeros(k: nat)
    ensures |ALPHABET| == 58 && Chars(Zeros(k)) == seq(k, i => ALPHABET[0])
  {
    AlphabetAscends();
  }

  lemma CharsSnoc(a: seq<nat>, d: nat)
    requires InBase(58, a) && d < 58
    ensures |ALPHABET| == 58 && InBase(58, a + [d]) && Chars(a + [d]) == Chars(a) + [ALPHABET[d]]
  {
  }

  /** A character outside the alphabet raises ValueError. */
  method B58Decode(s: string) returns (r: Option<seq<Byte>>)
    ensures r == Decoded(s) && (r.Some? <==> forall c | c in s :: c in ALPHABET)
    ensures r.Some? ==> Stands(s, r.value)
  {
    AlphabetAscends();
    hide Value, Digits, LeadingZeros, ToBytes, BitLength, IndexIn, Indices, Ascending;
    var n := 0;
    NoDigits();
    for i := 0 to |s|
      invariant OverAlphabet(s[..i])
      invariant n == Value(58, Indices(s[..i]))
    {
      var digit := IndexIn(ALPHABET, s[i]);
      if digit == |ALPHABET| {
        assert s[i] in s;
        return None;
      }
      assert s[..i + 1] == s[..i] + [s[i]];
      IndicesSnoc(s[..i], s[i]);
      ValueSnoc(58, Indices(s[..i]), digit);
      n := n * 58 + digit;
    }
    assert s[..|s|] == s;
    BytesAreDigits(n);
    var body := if n > 0 then ToBytes(n, (BitLength(n) + 7) / 8) else [];
    var pad := LeadingOnes(s);
    r := Some(Padded(pad, body));
    DecodedStands(s);
  }

  /** The padding loop of b58decode. */
  method LeadingOnes(s: string) returns (pad: nat)
    requires OverAlphabet(s)
    ensures pad == LeadingZeros(Indices(s))
  {
    AlphabetAscends();
    hide IndexIn, Ascending;
    pad := 0;
    for i := 0 to |s|
      invariant pad == i <= LeadingZeros(Indices(s))
    {
      FirstIsZero(s, i);
      if s[i] == ALPHABET[0] {
        pad := pad + 1;
      } else {
        break;
      }
    }
  }

  lemma NoDigits()
    ensures Value(58, Indices("")) == 0 && Digits(256, 0) == []
  {
  }

  lemma ValueSnoc(base: nat, ds: seq<nat>, d: nat)
    ensures Value(base, ds + [d]) == Value(base, ds) * base + d
  {
  }

  lemma FirstIsZero(s: string, i: nat)
    requires OverAlphabet(s) && i < |s|
    ensures |ALPHABET| == 58 && (s[i] == ALPHABET[0] <==> Indices(s)[i] == 0)
  {
  }

  lemma IndicesSnoc(s: string, c: char)
    requires OverAlphabet(s) && c in ALPHABET
    ensures OverAlphabet(s + [c]) && Indices(s + [c]) == Indices(s) + [IndexIn(ALPHABET, c)]
  {
  }

  /** int.bit_length */
  function BitLength(n: nat): nat {
    if n == 0 then 0 else 1 + BitLength(n / 2)
  }

  /** int.to_bytes(k, "big") of a number that fits */
  function ToBytes(n: nat, k: nat): seq<nat> {
    if k == 0 then [] else ToBytes(n / 256, k - 1) + [n % 256]
  }

  lemma EightBits(n: nat)
    requires n > 0
    ensures n < 256 ==> 1 <= BitLength(n) <= 8
    ensures n >= 256 ==> BitLength(n) == 8 + BitLength(n / 256)
  {
    var n1 := n / 2;
    var n2 := n1 / 2;
    var n3 := n2 / 2;
    var n4 := n3 / 2;
    var n5 := n4 / 2;
    var n6 := n5 / 2;
    var n7 := n6 / 2;
    assert BitLength(n) == 1 + BitLength(n1);
    assert n1 > 0 ==> BitLength(n1) == 1 + BitLength(n2);
    assert n2 > 0 ==> BitLength(n2) == 1 + BitLength(n3);
    assert n3 > 0 ==> BitLength(n3) == 1 + BitLength(n4);
    assert n4 > 0 ==> BitLength(n4) == 1 + BitLength(n5);
    assert n5 > 0 ==> BitLength(n5) == 1 + BitLength(n6);
    assert n6 > 0 ==> BitLength(n6) == 1 + BitLength(n7);
    assert n7 > 0 ==> BitLength(n7) == 1 + BitLength(n7 / 2);
    assert n7 / 2 == n / 256;
  }

  /** The byte count taken from bit_length is exactly the number of base-256 digits. */
  lemma {:induction false} BytesAreDigits(n: nat)
    ensures ToBytes(n, (BitLength(n) + 7) / 8) == Digits(256, n)
  {
    if n > 0 {
      EightBits(n);
      BytesAreDigits(n / 256);
      if n < 256 {
        assert (BitLength(n) + 7) / 8 == 1;
        assert ToBytes(n / 256, 0) == [];
      } else {
        assert (BitLength(n) + 7) / 8 == 1 + (BitLength(n / 256) + 7) / 8;
      }
    }
  }

  /******* Round trips *******/

  lemma ZerosThenDigits(base: nat, k: nat, n: nat)
    requires base >= 2
    ensures var ds := Zeros(k) + Digits(base, n);
            InBase(base, ds) && LeadingZeros(ds) == k && Value(base, ds) == n
  {
    var ds := Zeros(k) + Digits(base, n);
    LeadingZerosAre(ds, k);
    ValueOfPadded(base, k, n);
  }

  lemma {:induction false} ValueOfPadded(base: nat, k: nat, n: nat)
    requires base >= 2
    ensures Value(base, Zeros(k) + Digits(base, n)) == n
    decreases n, k
  {
    var ds := Zeros(k) + Digits(base, n);
    if n > 0 {
      ValueOfPadded(base, k, n / base);
      assert ds[..|ds| - 1] == Zeros(k) + Digits(base, n / base);
    } else if k > 0 {
      ValueOfPadded(base, k - 1, 0);
      assert ds[..|ds| - 1] == Zeros(k - 1) + Digits(base, 0);
    }
  }

  /** Every byte string survives encoding and decoding, leading zeros and the empty string included. */
  lemma DecodeOfEncode(data: seq<Byte>)
    ensures Decoded(Encoded(data)) == Some(data)
  {
    var ds := Zeros(LeadingZeros(data)) + Digits(58, Value(256, data));
    ZerosThenDigits(58, LeadingZeros(data), Value(256, data));
    IndicesOfChars(ds);
    NormalForm(256, data);
  }

  /** Every string over the alphabet is the encoding of what it decodes to; no other string decodes. */
  lemma EncodeOfDecode(s: string)
    ensures Decoded(s).Some? <==> OverAlphabet(s)
    ensures Decoded(s).Some? ==> Encoded(Decoded(s).value) == s
  {
    if OverAlphabet(s) {
      var ds := Indices(s);
      ZerosThenDigits(256, LeadingZeros(ds), Value(58, ds));
      NormalForm(58, ds);
      CharsOfIndices(s);
    }
  }
}
