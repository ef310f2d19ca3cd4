/** Base64 with the standard alphabet and padding (section 4 of RFC 4648), as the broker frames carry binary data. */
module Base64 {
  import opened Wrappers

  type Byte = b: int | 0 <= b < 256

  function Symbol(n: nat): (c: char)
    requires n < 64
  {
    if n < 26 then ('A' as int + n) as char
    else if n < 52 then ('a' as int + (n - 26)) as char
    else if n < 62 then ('0' as int + (n - 52)) as char
    else if n == 62 then '+'
    else '/'
  }

  function Value(c: char): (r: Option<nat>)
    ensures r.Some? ==> r.value < 64
  {
    if 'A' <= c <= 'Z' then Some(c as int - 'A' as int)
    else if 'a' <= c <= 'z' then Some(c as int - 'a' as int + 26)
    else if '0' <= c <= '9' then Some(c as int - '0' as int + 52)
    else if c == '+' then Some(62)
    else if c == '/' then Some(63)
    else None
  }

  /** The test vectors of section 10 of RFC 4648. */
  lemma StandardVectors()
    ensures Encode([102]) == "Zg==" && Encode([102, 111]) == "Zm8=" && Encode([102, 111, 111]) == "Zm9v"
    ensures Encode([102, 111, 111, 98]) == "Zm9vYg==" && Encode([102, 111, 111, 98, 97]) == "Zm9vYmE="
    ensures Encode([102, 111, 111, 98, 97, 114]) == "Zm9vYmFy"
    ensures Encode([251, 255]) == "+/8="
  {
  }

  lemma ValueOfSymbol(n: nat)
    requires n < 64
    ensures Value(Symbol(n)) == Some(n) && Symbol(n) != '='
  {
  }

  function Encode(data: seq<Byte>): string {
    if |data| == 0 then ""
    else if |data| == 1 then [Symbol(data[0] / 4), Symbol(data[0] % 4 * 16), '=', '=']
    else if |data| == 2 then
      [Symbol(data[0] / 4), Symbol(data[0] % 4 * 16 + data[1] / 16), Symbol(data[1] % 16 * 4), '=']
    else
      [Symbol(data[0] / 4), Symbol(data[0] % 4 * 16 + data[1] / 16), Symbol(data[1] % 16 * 4 + data[2] / 64),
       Symbol(data[2] % 64)] + Encode(data[3..])
  }

  /** Three bytes from four sextets. */
  function Group(a: nat, b: nat, c: nat, d: nat): seq<Byte>
    requires a < 64 && b < 64 && c < 64 && d < 64
  {
    [a * 4 + b / 16, b % 16 * 16 + c / 4, c % 4 * 64 + d]
  }

  /** The last quantum: padding is required and the unused bits must be zero. */
  function DecodeLast(s: string): Option<seq<Byte>>
    requires |s| == 4
  {
    var a, b := Value(s[0]), Value(s[1]);
    if a.None? || b.None? then None
    else if s[2] == '=' then
      if s[3] == '=' && b.value % 16 == 0 then Some([a.value * 4 + b.value / 16]) else None
    else
      var c := Value(s[2]);
      if c.None? then None
      else if s[3] == '=' then
        if c.value % 4 == 0 then Some([a.value * 4 + b.value / 16, b.value % 16 * 16 + c.value / 4]) else None
      else
        var d := Value(s[3]);
        if d.None? then None else Some(Group(a.value, b.value, c.value, d.value))
  }

  function Decode(s: string): Option<seq<Byte>> {
    if s == "" then Some([])
    else if |s| < 4 then None
    else if |s| == 4 then DecodeLast(s)
    else
      var a, b, c, d := Value(s[0]), Value(s[1]), Value(s[2]), Value(s[3]);
      if a.None? || b.None? || c.None? || d.None? then None
      else
        match Decode(s[4..])
        case None => None
        case Some(rest) => Some(Group(a.value, b.value, c.value, d.value) + rest)
  }

  /** The four sextets of three bytes carry exactly those bytes. */
  lemma GroupInverse(x: Byte, y: Byte, z: Byte)
    ensures Group(x / 4, x % 4 * 16 + y / 16, y % 16 * 4 + z / 64, z % 64) == [x, y, z]
  {
  }

  lemma PairInverse(x: Byte, y: Byte)
    ensures var b, c := x % 4 * 16 + y / 16, y % 16 * 4;
            x / 4 * 4 + b / 16 == x && b % 16 * 16 + c / 4 == y && c % 4 == 0
    ensures x / 4 * 4 + x % 4 * 16 / 16 == x && x % 4 * 16 % 16 == 0
  {
  }

  lemma RoundTripOne(x: Byte)
    ensures Decode(Encode([x])) == Some([x])
  {
    ValueOfSymbol(x / 4);
    ValueOfSymbol(x % 4 * 16);
    PairInverse(x, 0);
    hide Symbol, Value, Decode;
    var s := Encode([x]);
    assert |s| == 4 && s[0] == Symbol(x / 4) && s[1] == Symbol(x % 4 * 16);
    assert DecodeLast(s) == Some([x]);
    assert Decode(s) == DecodeLast(s) by { DecodeFour(s); }
  }

  lemma RoundTripTwo(x: Byte, y: Byte)
    ensures Decode(Encode([x, y])) == Some([x, y])
  {
    ValueOfSymbol(x / 4);
    ValueOfSymbol(x % 4 * 16 + y / 16);
    ValueOfSymbol(y % 16 * 4);
    PairInverse(x, y);
    hide Symbol, Value, Decode;
    var s := Encode([x, y]);
    assert |s| == 4 && s[0] == Symbol(x / 4) && s[1] == Symbol(x % 4 * 16 + y / 16) && s[2] == Symbol(y % 16 * 4);
    assert DecodeLast(s) == Some([x, y]);
    assert Decode(s) == DecodeLast(s) by { DecodeFour(s); }
  }

  lemma DecodeFour(s: string)
    requires |s| == 4
    ensures Decode(s) == DecodeLast(s)
  {
    hide DecodeLast;
  }

  lemma {:induction false} EncodedLength(data: seq<Byte>)
    ensures |Encode(data)| == 4 * ((|data| + 2) / 3)
  {
    hide Symbol;
    if |data| >= 3 {
      EncodedLength(data[3..]);
    }
  }

  /** Decoding one full quantum in front of the rest. */
  lemma DecodeQuantum(a: nat, b: nat, c: nat, d: nat, rest: string)
    requires a < 64 && b < 64 && c < 64 && d < 64
    ensures Decode([Symbol(a), Symbol(b), Symbol(c), Symbol(d)] + rest)
         == if Decode(rest).None? then None else Some(Group(a, b, c, d) + Decode(rest).value)
  {
    ValueOfSymbol(a);
    ValueOfSymbol(b);
    ValueOfSymbol(c);
    ValueOfSymbol(d);
    hide Symbol, Value, Group;
    var s := [Symbol(a), Symbol(b), Symbol(c), Symbol(d)] + rest;
    assert s[0] == Symbol(a) && s[1] == Symbol(b) && s[2] == Symbol(c) && s[3] == Symbol(d) && s[4..] == rest;
    if rest == "" {
      assert Group(a, b, c, d) + [] == Group(a, b, c, d);
    }
  }

  /** Whatever was encoded is decoded unchanged. */
  lemma {:induction false} RoundTrip(data: seq<Byte>)
    ensures Decode(Encode(data)) == Some(data)
  {
    if |data| == 1 {
      assert data == [data[0]];
      RoundTripOne(data[0]);
    } else if |data| == 2 {
      assert data == [data[0], data[1]];
      RoundTripTwo(data[0], data[1]);
    } else if |data| >= 3 {
      RoundTrip(data[3..]);
      QuantumRoundTrip(data);
    } else {
      assert data == [];
    }
  }

  lemma EncodeQuantum(data: seq<Byte>)
    requires |data| >= 3
    ensures Encode(data) == [Symbol(data[0] / 4), Symbol(data[0] % 4 * 16 + data[1] / 16),
                             Symbol(data[1] % 16 * 4 + data[2] / 64), Symbol(data[2] % 64)] + Encode(data[3..])
  {
    hide Symbol;
  }

  lemma QuantumRoundTrip(data: seq<Byte>)
    requires |data| >= 3 && Decode(Encode(data[3..])) == Some(data[3..])
    ensures Decode(Encode(data)) == Some(data)
  {
    hide Symbol, Value, Group, Decode, Encode;
    var x, y, z := data[0], data[1], data[2];
    EncodeQuantum(data);
    GroupInverse(x, y, z);
    DecodeQuantum(x / 4, x % 4 * 16 + y / 16, y % 16 * 4 + z / 64, z % 64, Encode(data[3..]));
    assert data == [x, y, z] + data[3..];
  }

  predicate IsSymbol(c: char) {
    Value(c).Some? || c == '='
  }

  lemma {:induction false} EncodeSymbols(data: seq<Byte>)
    ensures forall c :: c in Encode(data) ==> IsSymbol(c)
  {
    if |data| >= 3 {
      EncodeSymbols(data[3..]);
    }
    if |data| >= 1 {
      ValueOfSymbol(data[0] / 4);
      ValueOfSymbol(data[0] % 4 * 16);
    }
    if |data| >= 2 {
      ValueOfSymbol(data[0] % 4 * 16 + data[1] / 16);
      ValueOfSymbol(data[1] % 16 * 4);
    }
    if |data| >= 3 {
      ValueOfSymbol(data[1] % 16 * 4 + data[2] / 64);
      ValueOfSymbol(data[2] % 64);
    }
  }
}
