/** Server identities as lines of the server list, `{Name}:[Address]:Port:Fingerprint`. */
module Identities {
  import opened Basics

  const HASH_LENGTH := 64
  const MAX_PORT_VALUE := 65535

  datatype Identity = Identity(name: string, address: string, port: nat, hash: string)

  // ---------------------------------------------------------------- strings

  /** std::string::find: the first position of c from an index on, or the length. */
  function Find(s: string, c: char, from: nat): (i: nat)
    requires from <= |s|
    ensures from <= i <= |s| && (i < |s| ==> s[i] == c) && forall j :: from <= j < i ==> s[j] != c
    decreases |s| - from
  {
    if from == |s| || s[from] == c then from else Find(s, c, from + 1)
  }

  lemma {:induction false} FindAfter(s: string, c: char, from: nat, at: nat)
    requires from <= at < |s| && s[at] == c && forall j :: from <= j < at ==> s[j] != c
    ensures Find(s, c, from) == at
    decreases at - from
  {
    if from < at {
      FindAfter(s, c, from + 1, at);
    }
  }

  // ---------------------------------------------------------------- ports

  predicate IsDigit(c: char) {
    '0' <= c <= '9'
  }

  predicate AllDigits(s: string) {
    forall i :: 0 <= i < |s| ==> IsDigit(s[i])
  }

  /** std::to_string of an unsigned number. */
  function Decimal(n: nat): (s: string)
    ensures s != [] && AllDigits(s)
  {
    if n < 10 then [('0' as int + n) as char] else Decimal(n / 10) + [('0' as int + n % 10) as char]
  }

  function Number(s: string): nat
    requires AllDigits(s)
  {
    if s == [] then 0 else Number(s[..|s| - 1]) * 10 + (s[|s| - 1] as int - '0' as int)
  }

  lemma {:induction false} NumberOfDecimal(n: nat)
    ensures Number(Decimal(n)) == n
  {
    if n >= 10 {
      NumberOfDecimal(n / 10);
      assert Decimal(n)[..|Decimal(n)| - 1] == Decimal(n / 10);
    }
  }

  /** std::from_chars into an `int` over the whole string: an optional minus and digits; what does not
      fit an `int` is out of any port's range too. */
  function ParseInt(s: string): Option<int> {
    if s == [] then None
    else if s[0] == '-' then
      if |s| > 1 && AllDigits(s[1..]) then
        var n: int := Number(s[1..]);
        Some(-n)
      else None
    else if AllDigits(s) then Some(Number(s)) else None
  }

  function ParsePort(s: string): (r: Option<nat>)
    ensures r.Some? ==> r.value <= MAX_PORT_VALUE
  {
    match ParseInt(s)
    case None => None
    case Some(n) => if 0 <= n <= MAX_PORT_VALUE then Some(n) else None
  }

  // ---------------------------------------------------------------- fingerprints

  predicate IsLowerHex(c: char) {
    IsDigit(c) || 'a' <= c <= 'f'
  }

  predicate IsHex(c: char) {
    IsLowerHex(c) || 'A' <= c <= 'F'
  }

  predicate AllHex(s: string) {
    forall i :: 0 <= i < |s| ==> IsHex(s[i])
  }

  function ToLower(c: char): char {
    if 'A' <= c <= 'Z' then (c as int + 32) as char else c
  }

  function Lowered(s: string): (r: string)
    ensures |r| == |s| && forall i :: 0 <= i < |s| ==> r[i] == ToLower(s[i])
  {
    if s == [] then [] else [ToLower(s[0])] + Lowered(s[1..])
  }

  // ---------------------------------------------------------------- identity strings

  function PrintIdentity(id: Identity): string {
    "[" + (id.address + ("]:" + (Decimal(id.port) + (":" + id.hash))))
  }

  function PrintLine(id: Identity): string {
    "{" + (id.name + ("}:" + PrintIdentity(id)))
  }

  /** The port and the fingerprint after the bracketed address and its colon. */
  function ParseTail(name: string, address: string, s: string): Option<Identity> {
    var colon := Find(s, ':', 0);
    if colon == |s| then None
    else
      var hash := s[colon + 1..];
      if !AllHex(hash) || |hash| != HASH_LENGTH then None
      else
        match ParsePort(s[..colon])
        case None => None
        case Some(port) => Some(Identity(name, address, port, Lowered(hash)))
  }

  /** try_parse_identity_string. */
  function ParseIdentity(name: string, s: string): Option<Identity> {
    if s == [] || s[0] != '[' then None
    else
      var end := Find(s, ']', 0);
      if end == |s| || end + 1 >= |s| || s[end + 1] != ':' then None
      else ParseTail(name, s[1..end], s[end + 2..])
  }

  /** try_parse_list_line: the character between the brace and the bracket is not looked at. */
  function ParseLine(s: string): Option<Identity> {
    if s == [] || s[0] != '{' then None
    else
      var end := Find(s, '}', 0);
      if end == |s| || end + 2 >= |s| || s[end + 2] != '[' then None
      else ParseIdentity(s[1..end], s[end + 2..])
  }

  // ---------------------------------------------------------------- round trips

  predicate Avoids(s: string, c: char) {
    forall i :: 0 <= i < |s| ==> s[i] != c
  }

  predicate CanonicalHash(hash: string) {
    |hash| == HASH_LENGTH && forall i :: 0 <= i < |hash| ==> IsLowerHex(hash[i])
  }

  /** The identities a line can carry. */
  predicate Canonical(id: Identity) {
    Avoids(id.name, '}') && Avoids(id.address, ']') && id.port <= MAX_PORT_VALUE && CanonicalHash(id.hash)
  }

  lemma CanonicalIsLow(hash: string)
    requires CanonicalHash(hash)
    ensures AllHex(hash) && Lowered(hash) == hash
  {
  }

  lemma LoweredIsCanonical(hash: string)
    requires AllHex(hash) && |hash| == HASH_LENGTH
    ensures CanonicalHash(Lowered(hash))
  {
  }

  lemma TailRoundTrip(id: Identity)
    requires Canonical(id)
    ensures ParseTail(id.name, id.address, Decimal(id.port) + (":" + id.hash)) == Some(id)
  {
    var d := Decimal(id.port);
    var s := d + (":" + id.hash);
    forall j | 0 <= j < |d|
      ensures s[j] != ':'
    {
      assert s[j] == d[j] && IsDigit(d[j]);
    }
    FindAfter(s, ':', 0, |d|);
    assert s[..|d|] == d && s[|d| + 1..] == id.hash;
    NumberOfDecimal(id.port);
    assert IsDigit(d[0]);
    CanonicalIsLow(id.hash);
  }

  lemma IdentityRoundTrip(id: Identity)
    requires Canonical(id)
    ensures ParseIdentity(id.name, PrintIdentity(id)) == Some(id)
  {
    var tail := Decimal(id.port) + (":" + id.hash);
    var s := PrintIdentity(id);
    var end := |id.address| + 1;
    assert s == "[" + (id.address + ("]:" + tail));
    forall j | 0 <= j < end
      ensures s[j] != ']'
    {
      if j > 0 {
        assert s[j] == id.address[j - 1];
      }
    }
    FindAfter(s, ']', 0, end);
    assert s[1..end] == id.address && s[end + 2..] == tail;
    TailRoundTrip(id);
  }

  lemma LineRoundTrip(id: Identity)
    requires Canonical(id)
    ensures ParseLine(PrintLine(id)) == Some(id)
  {
    var s, end := PrintLine(id), |id.name| + 1;
    forall j | 0 <= j < end
      ensures s[j] != '}'
    {
      if j > 0 {
        assert s[j] == id.name[j - 1];
      }
    }
    FindAfter(s, '}', 0, end);
    assert s[1..end] == id.name && s[end + 2..] == PrintIdentity(id);
    IdentityRoundTrip(id);
  }

  lemma TailIsCanonical(name: string, address: string, s: string)
    requires ParseTail(name, address, s).Some?
    ensures var id := ParseTail(name, address, s).value;
            id.name == name && id.address == address && id.port <= MAX_PORT_VALUE && CanonicalHash(id.hash)
  {
    LoweredIsCanonical(s[Find(s, ':', 0) + 1..]);
  }

  lemma AvoidsUpTo(s: string, c: char)
    requires s != [] && 0 < Find(s, c, 0) < |s|
    ensures Avoids(s[1..Find(s, c, 0)], c)
  {
  }

  lemma IdentityIsCanonical(name: string, s: string)
    requires ParseIdentity(name, s).Some?
    ensures var id := ParseIdentity(name, s).value;
            id.name == name && Avoids(id.address, ']') && id.port <= MAX_PORT_VALUE && CanonicalHash(id.hash)
  {
    var end := Find(s, ']', 0);
    AvoidsUpTo(s, ']');
    TailIsCanonical(name, s[1..end], s[end + 2..]);
  }

  /** Whatever is read is canonical, whoever wrote the line. */
  lemma ParsedIsCanonical(s: string)
    requires ParseLine(s).Some?
    ensures Canonical(ParseLine(s).value)
  {
    var end := Find(s, '}', 0);
    AvoidsUpTo(s, '}');
    IdentityIsCanonical(s[1..end], s[end + 2..]);
  }

  /** Printing and parsing a line is the identity on exactly the canonical identities. */
  lemma LineRoundTripIff(id: Identity)
    ensures ParseLine(PrintLine(id)) == Some(id) <==> Canonical(id)
  {
    if Canonical(id) {
      LineRoundTrip(id);
    }
    if ParseLine(PrintLine(id)) == Some(id) {
      ParsedIsCanonical(PrintLine(id));
    }
  }

  /** A line that is read once is read the same after being written back. */
  lemma ParsePrintParse(s: string)
    requires ParseLine(s).Some?
    ensures ParseLine(PrintLine(ParseLine(s).value)) == ParseLine(s)
  {
    ParsedIsCanonical(s);
    LineRoundTrip(ParseLine(s).value);
  }

  // ---------------------------------------------------------------- hexadecimal

  /** hex_char_to_value; -1 for what is not a digit. */
  function HexValue(c: char): (v: int)
    ensures v == -1 <==> !IsHex(c)
    ensures -1 <= v < 16
  {
    if '0' <= c <= '9' then c as int - '0' as int
    else if 'a' <= c <= 'f' then 10 + (c as int - 'a' as int)
    else if 'A' <= c <= 'F' then 10 + (c as int - 'A' as int)
    else -1
  }

  function HexDigit(v: nat): (c: char)
    requires v < 16
    ensures IsLowerHex(c) && HexValue(c) == v
  {
    if v < 10 then ('0' as int + v) as char else ('a' as int + v - 10) as char
  }

  /** bytes_to_hex_string. */
  function ToHex(b: seq<u8>): (s: string)
    ensures |s| == 2 * |b| && forall i :: 0 <= i < |s| ==> IsLowerHex(s[i])
  {
    if b == [] then [] else [HexDigit(b[0] / 16), HexDigit(b[0] % 16)] + ToHex(b[1..])
  }

  /** The bytes of an even run of hexadecimal digits. */
  function FromHex(s: string): (b: Option<seq<u8>>)
    requires |s| % 2 == 0
    ensures b.Some? ==> |s| == 2 * |b.value|
  {
    if s == [] then Some([])
    else if HexValue(s[0]) < 0 || HexValue(s[1]) < 0 then None
    else
      match FromHex(s[2..])
      case None => None
      case Some(rest) => Some([HexValue(s[0]) * 16 + HexValue(s[1])] + rest)
  }

  predicate Prefixed(s: string) {
    |s| >= 2 && s[0] == '0' && (s[1] == 'x' || s[1] == 'X')
  }

  function Digits(s: string): string {
    if Prefixed(s) then s[2..] else s
  }

  /** hex_string_to_bytes: 64 digits after an optional 0x; nothing for anything else. */
  function HexToBytes(s: string): seq<u8> {
    if |Digits(s)| != HASH_LENGTH then []
    else
      match FromHex(Digits(s))
      case None => []
      case Some(b) => b
  }

  lemma Nibbles(b: u8)
    ensures HexValue(HexDigit(b / 16)) * 16 + HexValue(HexDigit(b % 16)) == b
  {
  }

  lemma {:induction false} FromHexOfToHex(b: seq<u8>)
    ensures FromHex(ToHex(b)) == Some(b)
  {
    if b != [] {
      FromHexOfToHex(b[1..]);
      var s := ToHex(b);
      assert s[0] == HexDigit(b[0] / 16) && s[1] == HexDigit(b[0] % 16) && s[2..] == ToHex(b[1..]);
      Nibbles(b[0]);
      assert [b[0]] + b[1..] == b;
    }
  }

  lemma Pair(c: char, d: char)
    requires IsHex(c) && IsHex(d)
    ensures var v := HexValue(c) * 16 + HexValue(d);
            0 <= v < 256 && HexDigit(v / 16) == ToLower(c) && HexDigit(v % 16) == ToLower(d)
  {
    var v := HexValue(c) * 16 + HexValue(d);
    assert v / 16 == HexValue(c) && v % 16 == HexValue(d);
  }

  lemma LoweredPair(s: string)
    requires |s| >= 2
    ensures Lowered(s) == [ToLower(s[0]), ToLower(s[1])] + Lowered(s[2..])
  {
  }

  lemma {:induction false} ToHexOfFromHex(s: string)
    requires |s| % 2 == 0 && FromHex(s).Some?
    ensures ToHex(FromHex(s).value) == Lowered(s)
    decreases |s|
  {
    if s != [] {
      ToHexOfFromHex(s[2..]);
      var b := FromHex(s).value;
      assert b[0] == HexValue(s[0]) * 16 + HexValue(s[1]) && b[1..] == FromHex(s[2..]).value;
      Pair(s[0], s[1]);
      LoweredPair(s);
    }
  }

  /** The printed form of 32 bytes reads back, with or without 0x in front. */
  lemma HexRoundTrip(b: seq<u8>)
    requires 2 * |b| == HASH_LENGTH
    ensures HexToBytes(ToHex(b)) == b && HexToBytes("0x" + ToHex(b)) == b && HexToBytes("0X" + ToHex(b)) == b
  {
    FromHexOfToHex(b);
    PrefixDropped("0x", ToHex(b));
    PrefixDropped("0X", ToHex(b));
    NoPrefix(ToHex(b));
  }

  lemma PrefixDropped(prefix: string, s: string)
    requires Prefixed(prefix) && |prefix| == 2
    ensures Digits(prefix + s) == s
  {
    assert (prefix + s)[0] == prefix[0] && (prefix + s)[1] == prefix[1] && (prefix + s)[2..] == s;
  }

  lemma NoPrefix(s: string)
    requires forall i :: 0 <= i < |s| ==> IsLowerHex(s[i])
    ensures Digits(s) == s
  {
    assert |s| >= 2 ==> IsLowerHex(s[1]);
  }

  /** Only 64 hexadecimal digits, after an optional 0x, give bytes; printing those in lower case gives
      the digits back. */
  lemma HexReadBack(s: string)
    requires HexToBytes(s) != []
    ensures ToHex(HexToBytes(s)) == Lowered(Digits(s)) && |Digits(s)| == HASH_LENGTH
  {
    ToHexOfFromHex(Digits(s));
  }
}
