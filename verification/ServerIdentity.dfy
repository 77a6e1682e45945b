/** A server identity as the source keeps it: parsers fill the fields in place. */
module ServerIdentities {
  import opened Basics
  import opened Identities

  class ServerIdentity {
    var name: string
    var address: string
    var port: nat
    var hash: string

    ghost function State(): Identity
      reads this
    {
      Identity(name, address, port, hash)
    }

    constructor ()
    {
      name, address, port, hash := "", "", 0, "";
    }

    /** The check and the copy in lower case of the fingerprint. */
    method LowerHash(digits: string) returns (ok: bool, lower: string)
      ensures ok == (AllHex(digits) && |digits| == HASH_LENGTH) && (ok ==> lower == Lowered(digits))
    {
      ok, lower := false, "";
      for i := 0 to |digits|
        invariant (forall j :: 0 <= j < i ==> IsHex(digits[j])) && lower + Lowered(digits[i..]) == Lowered(digits)
      {
        if HexValue(digits[i]) == -1 {
          return false, "";
        }
        assert digits[i..][1..] == digits[i + 1..];
        lower := lower + [ToLower(digits[i])];
      }
      assert lower + [] == lower;
      ok := |digits| == HASH_LENGTH;
    }

    /** A failed parse may have replaced the address, and never the name, port or fingerprint. */
    method TryParseIdentityString(input: string) returns (ok: bool)
      modifies this
      ensures ok == ParseIdentity(old(name), input).Some?
      ensures ok ==> State() == ParseIdentity(old(name), input).value
      ensures !ok ==> State() == old(State()).(address := address)
    {
      ok := false;
      if input == "" || input[0] != '[' {
        return;
      }
      var end := Find(input, ']', 0);
      if end == |input| {
        return;
      }
      address := input[1..end];
      if end + 1 >= |input| || input[end + 1] != ':' {
        return;
      }
      var rest := input[end + 2..];
      var colon := Find(rest, ':', 0);
      if colon == |rest| {
        return;
      }
      var fine, lower := LowerHash(rest[colon + 1..]);
      if !fine {
        return;
      }
      var parsed := ParsePort(rest[..colon]);
      if parsed.None? {
        return;
      }
      port, hash := parsed.value, lower;
      ok := true;
    }

    /** A failed parse may have replaced the name and the address. */
    method TryParseListLine(input: string) returns (ok: bool)
      modifies this
      ensures ok == ParseLine(input).Some?
      ensures ok ==> State() == ParseLine(input).value
      ensures !ok ==> State() == old(State()).(name := name, address := address)
    {
      ok := false;
      if input == "" || input[0] != '{' {
        return;
      }
      var end := Find(input, '}', 0);
      if end == |input| {
        return;
      }
      name := input[1..end];
      if end + 2 >= |input| || input[end + 2] != '[' {
        return;
      }
      ok := TryParseIdentityString(input[end + 2..]);
    }
  }

  /** The loop over the digits, two at a time. */
  method ReadPairs(digits: string, start: nat) returns (ok: bool, bytes: seq<u8>)
    requires start <= |digits| && |digits[start..]| % 2 == 0
    ensures FromHex(digits[start..]) == if ok then Some(bytes) else None
  {
    ok, bytes := true, [];
    var index := start;
    JoinedFrom(FromHex(digits[start..]));
    while index < |digits|
      invariant ok && index <= |digits| && |digits[index..]| % 2 == 0
      invariant FromHex(digits[start..]) == Joined(bytes, FromHex(digits[index..]))
      decreases |digits| - index
    {
      var high, low := HexValue(digits[index]), HexValue(digits[index + 1]);
      assert digits[index..][2..] == digits[index + 2..];
      if high < 0 || low < 0 {
        ok := false;
        return;
      }
      JoinedNext(bytes, high * 16 + low, FromHex(digits[index + 2..]));
      bytes := bytes + [high * 16 + low];
      index := index + 2;
    }
    assert bytes + [] == bytes;
  }

  /** The conversion of a user's digits. */
  method HexStringToBytes(digits: string) returns (bytes: seq<u8>)
    ensures bytes == HexToBytes(digits)
  {
    var index := if Prefixed(digits) then 2 else 0;
    assert digits[index..] == Digits(digits);
    if |digits| - index != HASH_LENGTH {
      return [];
    }
    var ok;
    ok, bytes := ReadPairs(digits, index);
    if !ok {
      return [];
    }
  }

  function Joined(bytes: seq<u8>, rest: Option<seq<u8>>): Option<seq<u8>> {
    if rest.None? then None else Some(bytes + rest.value)
  }

  lemma JoinedFrom(rest: Option<seq<u8>>)
    ensures Joined([], rest) == rest
  {
    if rest.Some? {
      assert [] + rest.value == rest.value;
    }
  }

  lemma JoinedNext(bytes: seq<u8>, b: u8, rest: Option<seq<u8>>)
    ensures Joined(bytes, Joined([b], rest)) == Joined(bytes + [b], rest)
  {
    if rest.Some? {
      assert bytes + ([b] + rest.value) == bytes + [b] + rest.value;
    }
  }

  method BytesToHexString(buffer: array<u8>) returns (digits: string)
    ensures digits == ToHex(buffer[..])
  {
    digits := "";
    for i := 0 to buffer.Length
      invariant digits + ToHex(buffer[i..]) == ToHex(buffer[..])
    {
      assert buffer[i..][0] == buffer[i] && buffer[i..][1..] == buffer[i + 1..];
      digits := digits + [HexDigit(buffer[i] / 16), HexDigit(buffer[i] % 16)];
    }
    assert digits + [] == digits;
  }
}
