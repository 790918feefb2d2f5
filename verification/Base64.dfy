/** Base64 as in section 4 of RFC 4648, padding required and pad bits canonical (section 3.5). */
module Base64 {
  import opened Wrappers
  import opened Bytes

  type Sextet = v: int | 0 <= v < 64

  function CharOf(v: Sextet): (c: char)
    ensures c != '='
  {
    if v < 26 then ('A' as int + v) as char
    else if v < 52 then ('a' as int + v - 26) as char
    else if v < 62 then ('0' as int + v - 52) as char
    else if v == 62 then '+'
    else '/'
  }

  function Unmap(c: char): (v: Option<int>)
    ensures v.Some? ==> 0 <= v.value < 64
  {
    if 'A' <= c <= 'Z' then Some(c as int - 'A' as int)
    else if 'a' <= c <= 'z' then Some(c as int - 'a' as int + 26)
    else if '0' <= c <= '9' then Some(c as int - '0' as int + 52)
    else if c == '+' then Some(62)
    else if c == '/' then Some(63)
    else None
  }

  lemma CharsAreInverse(v: Sextet)
    ensures Unmap(CharOf(v)) == Some(v)
  {
  }

  lemma ValuesAreInverse(c: char)
    ensures Unmap(c).Some? ==> CharOf(Unmap(c).value) == c
  {
  }

  // ---- One quantum ------------------------------------------------------------------------------------

  /** One to three bytes as four characters. */
  function EncodeQuantum(b: seq<Byte>): (s: string)
    requires 1 <= |b| <= 3
    ensures |s| == 4
  {
    var v0 := b[0];
    if |b| == 1 then [CharOf(v0 / 4), CharOf(v0 % 4 * 16), '=', '=']
    else
      var v1 := b[1];
      if |b| == 2 then [CharOf(v0 / 4), CharOf(v0 % 4 * 16 + v1 / 16), CharOf(v1 % 16 * 4), '=']
      else
        var v2 := b[2];
        [CharOf(v0 / 4), CharOf(v0 % 4 * 16 + v1 / 16), CharOf(v1 % 16 * 4 + v2 / 64), CharOf(v2 % 64)]
  }

  /** Padding is accepted in the last quantum only, and only over zero bits. */
  function DecodeQuantum(s: string, last: bool): (b: Option<seq<Byte>>)
    requires |s| == 4
    ensures b.Some? ==> 1 <= |b.value| <= 3 && (|b.value| < 3 ==> last)
  {
    var v0, v1 := Unmap(s[0]), Unmap(s[1]);
    if v0.None? || v1.None? || (s[3] == '=' && !last) || (s[2] == '=' && s[3] != '=') then None
    else if s[2] == '=' then
      if v1.value % 16 != 0 then None else Some([v0.value * 4 + v1.value / 16])
    else
      var v2 := Unmap(s[2]);
      if v2.None? then None
      else if s[3] == '=' then
        if v2.value % 4 != 0 then None
        else Some([v0.value * 4 + v1.value / 16, v1.value % 16 * 16 + v2.value / 4])
      else
        var v3 := Unmap(s[3]);
        if v3.None? then None
        else Some([v0.value * 4 + v1.value / 16, v1.value % 16 * 16 + v2.value / 4, v2.value % 4 * 64 + v3.value])
  }

  lemma QuantumDecodes(b: seq<Byte>, last: bool)
    requires 1 <= |b| <= 3 && (|b| < 3 ==> last)
    ensures DecodeQuantum(EncodeQuantum(b), last) == Some(b)
  {
    hide CharOf, Unmap;
    var v0 := b[0];
    CharsAreInverse(v0 / 4);
    if |b| == 1 {
      CharsAreInverse(v0 % 4 * 16);
      assert b == [v0];
    } else {
      var v1 := b[1];
      CharsAreInverse(v0 % 4 * 16 + v1 / 16);
      if |b| == 2 {
        CharsAreInverse(v1 % 16 * 4);
        assert b == [v0, v1];
      } else {
        CharsAreInverse(v1 % 16 * 4 + b[2] / 64);
        CharsAreInverse(b[2] % 64);
        assert b == [v0, v1, b[2]];
      }
    }
  }

  lemma QuantumEncodes(s: string, last: bool)
    requires |s| == 4 && DecodeQuantum(s, last).Some?
    ensures EncodeQuantum(DecodeQuantum(s, last).value) == s
  {
    hide CharOf, Unmap;
    ValuesAreInverse(s[0]);
    ValuesAreInverse(s[1]);
    ValuesAreInverse(s[2]);
    ValuesAreInverse(s[3]);
  }

  // ---- Whole strings -------------------------------------------------------------------------------------

  function Encode(b: seq<Byte>): (s: string)
    ensures |s| % 4 == 0
  {
    if b == [] then []
    else if |b| <= 3 then EncodeQuantum(b)
    else EncodeQuantum(b[..3]) + Encode(b[3..])
  }

  function Decode(s: string): Option<seq<Byte>> {
    if s == [] then Some([])
    else if |s| < 4 then None
    else
      match DecodeQuantum(s[..4], |s| == 4)
      case None => None
      case Some(first) =>
        match Decode(s[4..])
        case None => None
        case Some(rest) => Some(first + rest)
  }

  /** Decoding takes every encoded byte string back. */
  lemma {:induction false} DecodeInvertsEncode(b: seq<Byte>)
    ensures Decode(Encode(b)) == Some(b)
  {
    if b != [] {
      if |b| <= 3 {
        QuantumDecodes(b, true);
        var s := EncodeQuantum(b);
        assert s[..4] == s && s[4..] == [];
        assert b + [] == b;
      } else {
        var s := Encode(b);
        DecodeInvertsEncode(b[3..]);
        QuantumDecodes(b[..3], |s| == 4);
        assert s[..4] == EncodeQuantum(b[..3]) && s[4..] == Encode(b[3..]);
        assert b[..3] + b[3..] == b;
      }
    }
  }

  /** Every accepted string is the one encoding of what it decodes to. */
  lemma {:induction false} EncodeInvertsDecode(s: string)
    requires Decode(s).Some?
    ensures Encode(Decode(s).value) == s
  {
    if s != [] {
      var first := DecodeQuantum(s[..4], |s| == 4).value;
      var rest := Decode(s[4..]).value;
      QuantumEncodes(s[..4], |s| == 4);
      EncodeInvertsDecode(s[4..]);
      assert s == s[..4] + s[4..];
      if |s| == 4 {
        assert rest == [] && first + rest == first;
      } else {
        RestIsNotEmpty(s[4..]);
        assert (first + rest)[..3] == first && (first + rest)[3..] == rest;
      }
    }
  }

  /** The accepted strings are exactly the encodings. */
  lemma AcceptedIffEncoding(s: string)
    ensures Decode(s).Some? <==> exists b :: Encode(b) == s
  {
    if Decode(s).Some? {
      EncodeInvertsDecode(s);
    }
    if b :| Encode(b) == s {
      DecodeInvertsEncode(b);
    }
  }

  lemma RestIsNotEmpty(s: string)
    requires s != [] && Decode(s).Some?
    ensures Decode(s).value != []
  {
  }

  // ---- As it is written ------------------------------------------------------------------------------

  method EncodeBase64(bytes: seq<Byte>, before: string) returns (base64: string)
    ensures base64 == before + Encode(bytes)
  {
    hide CharOf, Encode;
    base64 := before;
    var at := 0;
    EncodeNothing();
    assert bytes[0..] == bytes;
    while at < |bytes|
      invariant 0 <= at <= |bytes|
      invariant base64 + Encode(bytes[at..]) == before + Encode(bytes)
    {
      ghost var left, soFar := bytes[at..], base64;
      var v0 := bytes[at];
      at := at + 1;
      base64 := base64 + [CharOf(v0 / 4)];
      if at == |bytes| {
        base64 := base64 + [CharOf(v0 % 4 * 16), '=', '='];
        EncodeLast(left, [v0]);
        assert base64 == soFar + EncodeQuantum([v0]);
        break;
      }
      var v1 := bytes[at];
      at := at + 1;
      base64 := base64 + [CharOf(v0 % 4 * 16 + v1 / 16)];
      if at == |bytes| {
        base64 := base64 + [CharOf(v1 % 16 * 4), '='];
        EncodeLast(left, [v0, v1]);
        assert base64 == soFar + EncodeQuantum([v0, v1]);
        break;
      }
      var v2 := bytes[at];
      at := at + 1;
      base64 := base64 + [CharOf(v1 % 16 * 4 + v2 / 64), CharOf(v2 % 64)];
      EncodeFirst(left, [v0, v1, v2]);
      assert base64 == soFar + EncodeQuantum([v0, v1, v2]);
      assert left[3..] == bytes[at..];
      assert base64 + Encode(bytes[at..]) == soFar + (EncodeQuantum([v0, v1, v2]) + Encode(bytes[at..]));
    }
  }

  lemma EncodeNothing()
    ensures Encode([]) == []
  {
  }

  lemma EncodeLast(b: seq<Byte>, quantum: seq<Byte>)
    requires b == quantum && 1 <= |b| <= 2
    ensures Encode(b) == EncodeQuantum(quantum)
  {
  }

  lemma EncodeFirst(b: seq<Byte>, quantum: seq<Byte>)
    requires |quantum| == 3 <= |b| && b[..3] == quantum
    ensures Encode(b) == EncodeQuantum(quantum) + Encode(b[3..])
  {
    hide CharOf, EncodeQuantum;
    if |b| == 3 {
      assert b == quantum && b[3..] == [];
      assert EncodeQuantum(b) + [] == EncodeQuantum(b);
    }
  }

  /** One turn of the decoder's loop, its checks in the order of the source. */
  method DecodeOne(c0: char, c1: char, c2: char, c3: char, isLastQuantum: bool) returns (b: Option<seq<Byte>>)
    ensures b == DecodeQuantum([c0, c1, c2, c3], isLastQuantum)
  {
    hide Unmap;
    PaddingIsNoSextet();
    var pad2, pad3 := c2 == '=', c3 == '=';
    if c0 == '=' || c1 == '=' {
      return None;
    }
    if (pad2 || pad3) && !isLastQuantum {
      return None;
    }
    if pad2 && !pad3 {
      return None;
    }
    var v0, v1 := Unmap(c0), Unmap(c1);
    if v0.None? || v1.None? {
      return None;
    }
    if pad2 {
      if v1.value % 16 != 0 {
        return None;
      }
      return Some([v0.value * 4 + v1.value / 16]);
    }
    var v2 := Unmap(c2);
    if v2.None? {
      return None;
    }
    if pad3 {
      if v2.value % 4 != 0 {
        return None;
      }
      return Some([v0.value * 4 + v1.value / 16, v1.value % 16 * 16 + v2.value / 4]);
    }
    var v3 := Unmap(c3);
    if v3.None? {
      return None;
    }
    return Some([v0.value * 4 + v1.value / 16, v1.value % 16 * 16 + v2.value / 4, v2.value % 4 * 64 + v3.value]);
  }

  lemma PaddingIsNoSextet()
    ensures Unmap('=') == None
  {
  }

  /** What the whole string decodes to once `decoded` stands for what is before `rest`. */
  function Resumed(decoded: seq<Byte>, rest: Option<seq<Byte>>): Option<seq<Byte>> {
    if rest.None? then None else Some(decoded + rest.value)
  }

  /** A rejected string leaves the output as it was. */
  method DecodeBase64(base64: string, before: seq<Byte>) returns (ok: bool, binary: seq<Byte>)
    ensures ok == Decode(base64).Some?
    ensures binary == if ok then before + Decode(base64).value else before
  {
    hide DecodeQuantum;
    if |base64| == 0 {
      assert before + [] == before;
      return true, before;
    }
    if |base64| % 4 != 0 {
      OddLengthsFail(base64);
      return false, before;
    }
    var decoded: seq<Byte> := [];
    var offset := 0;
    assert base64[0..] == base64;
    assert Decode(base64).Some? ==> [] + Decode(base64).value == Decode(base64).value;
    while offset < |base64|
      invariant 0 <= offset <= |base64| && offset % 4 == 0
      invariant Decode(base64) == Resumed(decoded, Decode(base64[offset..]))
    {
      ghost var left := base64[offset..];
      assert left[..4] == [base64[offset], base64[offset + 1], base64[offset + 2], base64[offset + 3]];
      assert left[4..] == base64[offset + 4..];
      var first := DecodeOne(base64[offset], base64[offset + 1], base64[offset + 2], base64[offset + 3],
                             offset + 4 == |base64|);
      if first.None? {
        return false, before;
      }
      ghost var rest := Decode(left[4..]);
      assert rest.Some? ==> decoded + (first.value + rest.value) == (decoded + first.value) + rest.value;
      decoded := decoded + first.value;
      offset := offset + 4;
    }
    assert decoded + [] == decoded;
    return true, before + decoded;
  }

  lemma {:induction false} OddLengthsFail(s: string)
    requires |s| % 4 != 0
    ensures Decode(s).None?
  {
    if 4 <= |s| {
      OddLengthsFail(s[4..]);
    }
  }
}
