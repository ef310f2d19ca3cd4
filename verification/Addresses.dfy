/** IP addresses and CIDR ranges, and the service's own check of a CIDR text. */
module Addresses {
  import opened Wrappers
  import opened Text
  import opened Numbers

  datatype IpAddr = V4(bits: nat) | V6(bits: nat)

  /** The standard library's address parser. */
  type AddressParser = string -> Option<IpAddr>

  /** An address literal is written with hexadecimal digits, dots and colons only. */
  ghost predicate AddressSyntax(parse: AddressParser) {
    forall s :: parse(s).Some? ==> forall c :: c in s ==> AddressChar(c)
  }

  predicate AddressChar(c: char) {
    IsDigit(c) || 'a' <= c <= 'f' || 'A' <= c <= 'F' || c == '.' || c == ':'
  }

  datatype Cidr = Cidr(addr: IpAddr, prefix: nat)

  function Width(addr: IpAddr): nat {
    if addr.V4? then 32 else 128
  }

  /** An unsigned byte as `str::parse` reads it: decimal digits, one leading plus allowed. */
  function ParseU8(s: string): Option<nat> {
    var digits := if s != [] && s[0] == '+' then s[1..] else s;
    match ParseDecimal(digits)
    case None => None
    case Some(n) => if n <= 255 then Some(n) else None
  }

  function ParseCidr(parse: AddressParser, s: string): (r: Option<Cidr>)
    ensures r.Some? ==> r.value.prefix <= Width(r.value.addr)
  {
    match SplitOnce(s, '/')
    case None => None
    case Some((address, prefix)) =>
      var addr := parse(address);
      var n := ParseU8(prefix);
      if addr.Some? && n.Some? && n.value <= Width(addr.value) then Some(Cidr(addr.value, n.value)) else None
  }

  /** A CIDR text is one word. */
  lemma CidrIsWord(parse: AddressParser, cidr: string)
    requires AddressSyntax(parse)
    requires ParseCidr(parse, cidr).Some?
    ensures cidr != [] && NoWhitespace(cidr) && Plain(cidr)
  {
    var (address, prefix) := SplitOnce(cidr, '/').value;
    var digits := if prefix != [] && prefix[0] == '+' then prefix[1..] else prefix;
    ParsedDigits(digits);
    assert prefix == digits || prefix == ['+'] + digits;
    assert cidr == address + ['/'] + prefix;
  }

  lemma {:induction false} ParsedDigits(s: string)
    requires ParseDecimal(s).Some?
    ensures forall c :: c in s ==> IsDigit(c)
  {
    if |s| > 1 {
      ParsedDigits(s[..|s| - 1]);
      assert s == s[..|s| - 1] + [s[|s| - 1]];
    }
  }

  lemma {:induction false} PlusIsNotDecimal(s: string)
    requires s != "" && s[0] == '+'
    ensures ParseDecimal(s).None?
  {
    if |s| > 1 {
      PlusIsNotDecimal(s[..|s| - 1]);
    }
  }

  /** Same family, and equal in the leading `prefix` bits. */
  predicate Covers(cidr: Cidr, addr: IpAddr) {
    && cidr.addr.V4? == addr.V4?
    && cidr.prefix <= Width(cidr.addr)
    && var hostBits := Pow2(Width(cidr.addr) - cidr.prefix);
       cidr.addr.bits / hostBits == addr.bits / hostBits
  }

  /** A range is the block of addresses that share its leading bits: it starts where they are followed by zeros and has
      two to the number of the others. */
  lemma CoversIsBlock(cidr: Cidr, addr: IpAddr)
    requires cidr.addr.V4? == addr.V4? && cidr.prefix <= Width(cidr.addr)
    ensures var size := Pow2(Width(cidr.addr) - cidr.prefix);
            var first := cidr.addr.bits - cidr.addr.bits % size;
            size > 0 && (Covers(cidr, addr) <==> first <= addr.bits < first + size)
  {
    PowPositive(Width(cidr.addr) - cidr.prefix);
    SameBlock(cidr.addr.bits, addr.bits, Pow2(Width(cidr.addr) - cidr.prefix));
  }

  lemma {:induction false} PowPositive(n: nat)
    ensures Pow2(n) > 0
  {
    if n > 0 {
      PowPositive(n - 1);
    }
  }

  lemma SameBlock(a: nat, b: nat, size: nat)
    requires size > 0
    ensures a / size == b / size <==> a - a % size <= b < a - a % size + size
  {
    var q, p := a / size, b / size;
    var r, s := a % size, b % size;
    assert a == q * size + r && b == p * size + s && r < size && s < size;
    if q < p {
      NextBlock(q, p, size);
    } else if p < q {
      NextBlock(p, q, size);
    }
  }

  lemma {:induction false} NextBlock(q: nat, p: nat, size: nat)
    requires q < p
    ensures q * size + size <= p * size
  {
    if q + 1 < p {
      NextBlock(q, p - 1, size);
    }
    assert p * size == (p - 1) * size + size;
  }

  /** A CIDR text is an address, a slash, and the digits of a number that fits. */
  lemma CidrExactly(parse: AddressParser, address: string, prefix: string)
    requires '/' !in address
    ensures var r := ParseCidr(parse, address + "/" + prefix);
            && (r.Some? <==> parse(address).Some? && ParseU8(prefix).Some? && ParseU8(prefix).value <= Width(parse(address).value))
            && (r.Some? ==> r.value == Cidr(parse(address).value, ParseU8(prefix).value))
  {
    SplitOnceAt(address, '/', prefix);
    assert address + "/" + prefix == address + ['/'] + prefix;
  }

  /** The number is read with or without one plus sign in front of it. */
  lemma NumberRead(n: nat)
    ensures ParseU8(Decimal(n)) == ParseU8("+" + Decimal(n)) == if n <= 255 then Some(n) else None
  {
    ParseOfDecimal(n);
    assert Decimal(n)[0] in Decimal(n);
    assert ("+" + Decimal(n))[1..] == Decimal(n);
  }
}
