/** The local token's encoding (apps/daemon-rs/src/local_token.rs:44-57), against the group-by-group
    description of section 4 of RFC 4648 with the alphabet of its section 5. */
module Base64Url {
  import opened Arithmetic
  import opened Sequences

  type Sextet = x: int | 0 <= x < 64

  // ---------------------------------------------------------------- the alphabet

  /** Position `v` of `A..Z a..z 0..9 - _`. */
  function Letter(v: Sextet): (c: char)
    ensures ValueOf(c) == Some(v)
  {
    if v < 26 then (v + 'A' as int) as char
    else if v < 52 then (v - 26 + 'a' as int) as char
    else if v < 62 then (v - 52 + '0' as int) as char
    else if v == 62 then '-'
    else '_'
  }

  const UPPER := "ABCDEFGHIJKLMNOPQRSTUVWXYZ"
  const LOWER := "abcdefghijklmnopqrstuvwxyz"
  const REST := "0123456789-_"

  /** The letters are the source's table. */
  lemma LettersAreTheAlphabet(v: Sextet)
    ensures |UPPER + LOWER + REST| == 64 && Letter(v) == (UPPER + LOWER + REST)[v]
  {
    if v < 26 {
      assert (UPPER + LOWER + REST)[v] == UPPER[v];
      UpperIs(v);
    } else if v < 52 {
      assert (UPPER + LOWER + REST)[v] == LOWER[v - 26];
      LowerIs(v - 26);
    } else {
      assert (UPPER + LOWER + REST)[v] == REST[v - 52];
    }
  }

  lemma UpperIs(i: nat)
    requires i < 26
    ensures UPPER[i] == (i + 'A' as int) as char
  {
  }

  lemma LowerIs(i: nat)
    requires i < 26
    ensures LOWER[i] == (i + 'a' as int) as char
  {
  }

  function ValueOf(c: char): Option<Sextet> {
    if 'A' <= c <= 'Z' then Some(c as int - 'A' as int)
    else if 'a' <= c <= 'z' then Some(c as int - 'a' as int + 26)
    else if '0' <= c <= '9' then Some(c as int - '0' as int + 52)
    else if c == '-' then Some(62)
    else if c == '_' then Some(63)
    else None
  }

  lemma LetterOfValue(c: char)
    requires ValueOf(c).Some?
    ensures Letter(ValueOf(c).value) == c
  {
  }

  function Spell(values: seq<Sextet>): (r: string)
    ensures |r| == |values|
    ensures forall i :: 0 <= i < |r| ==> r[i] == Letter(values[i])
  {
    seq(|values|, i requires 0 <= i < |values| => Letter(values[i]))
  }

  /** The values of a text, if every character is in the alphabet. */
  function Values(text: string): Option<seq<Sextet>> {
    if exists i :: 0 <= i < |text| && ValueOf(text[i]).None? then None
    else Some(seq(|text|, i requires 0 <= i < |text| => ValueOf(text[i]).value))
  }

  lemma SpellValues(values: seq<Sextet>)
    ensures Values(Spell(values)) == Some(values)
  {
    var text := Spell(values);
    assert forall i :: 0 <= i < |text| ==> ValueOf(text[i]) == Some(values[i]);
    assert Values(text).value == values;
  }

  lemma ValuesSpell(text: string)
    requires Values(text).Some?
    ensures Spell(Values(text).value) == text
  {
    forall i | 0 <= i < |text|
      ensures Letter(ValueOf(text[i]).value) == text[i]
    {
      LetterOfValue(text[i]);
    }
  }

  // ---------------------------------------------------------------- groups

  /** A group of one to three bytes as sextets, most significant first; the last one is filled up
      with zero bits and there is no padding. */
  function Split(group: seq<Byte>): (r: seq<Sextet>)
    requires 1 <= |group| <= 3
    ensures |r| == |group| + 1
  {
    var a: int := group[0];
    if |group| == 1 then [a / 4, a % 4 * 16]
    else
      var b: int := group[1];
      if |group| == 2 then [a / 4, a % 4 * 16 + b / 16, b % 16 * 4]
      else
        var c: int := group[2];
        [a / 4, a % 4 * 16 + b / 16, b % 16 * 4 + c / 64, c % 64]
  }

  /** The bytes of two to four sextets; a lone sextet or filler bits that are not zero are malformed. */
  function Join(group: seq<Sextet>): Option<seq<Byte>>
    requires 1 <= |group| <= 4
  {
    if |group| == 1 then None
    else
      var a: int := group[0];
      var b: int := group[1];
      if |group| == 2 then
        if b % 16 == 0 then Some([a * 4 + b / 16]) else None
      else
        var c: int := group[2];
        if |group| == 3 then
          if c % 4 == 0 then Some([a * 4 + b / 16, b % 16 * 16 + c / 4]) else None
        else
          var d: int := group[3];
          Some([a * 4 + b / 16, b % 16 * 16 + c / 4, c % 4 * 64 + d])
  }

  lemma SplitJoin(group: seq<Byte>)
    requires 1 <= |group| <= 3
    ensures Join(Split(group)) == Some(group)
  {
    assert Join(Split(group)).Some? && |Join(Split(group)).value| == |group|;
    assert Join(Split(group)).value == group;
  }

  /** A byte made of two parts gives them back. */
  lemma Parts(q: int, r: int)
    ensures 0 <= r < 4 ==> (q * 4 + r) / 4 == q && (q * 4 + r) % 4 == r
    ensures 0 <= r < 16 ==> (q * 16 + r) / 16 == q && (q * 16 + r) % 16 == r
    ensures 0 <= r < 64 ==> (q * 64 + r) / 64 == q && (q * 64 + r) % 64 == r
  {
  }

  lemma JoinSplit(group: seq<Sextet>)
    requires 1 <= |group| <= 4 && Join(group).Some?
    ensures 1 <= |Join(group).value| == |group| - 1 && Split(Join(group).value) == group
  {
    var bytes := Join(group).value;
    var a: int := group[0];
    var b: int := group[1];
    Parts(a, b / 16);
    assert b == b / 16 * 16 + b % 16;
    if |group| == 2 {
      assert Split(bytes) == [a, b];
    } else {
      var c: int := group[2];
      Parts(b % 16, c / 4);
      assert c == c / 4 * 4 + c % 4;
      if |group| == 3 {
        assert Split(bytes) == [a, b, c];
      } else {
        Parts(c % 4, group[3]);
      }
    }
  }

  // ---------------------------------------------------------------- the specification

  function Pack(bytes: seq<Byte>): seq<Sextet> {
    if bytes == [] then []
    else if |bytes| <= 3 then Split(bytes)
    else Split(bytes[..3]) + Pack(bytes[3..])
  }

  function Unpack(values: seq<Sextet>): Option<seq<Byte>> {
    if values == [] then Some([])
    else if |values| <= 4 then Join(values)
    else
      var head, tail := Join(values[..4]), Unpack(values[4..]);
      if head.None? || tail.None? then None else Some(head.value + tail.value)
  }

  function Encode(bytes: seq<Byte>): string {
    Spell(Pack(bytes))
  }

  function Decode(text: string): Option<seq<Byte>> {
    if Values(text).None? then None else Unpack(Values(text).value)
  }

  // ---------------------------------------------------------------- round trips

  lemma {:induction false} PackUnpack(bytes: seq<Byte>)
    ensures Unpack(Pack(bytes)) == Some(bytes)
    ensures |Pack(bytes)| == (4 * |bytes| + 2) / 3
  {
    hide Split, Join;
    if bytes == [] {
    } else {
      if |bytes| <= 3 {
        SplitJoin(bytes);
      } else {
        var head, tail := Split(bytes[..3]), Pack(bytes[3..]);
        SplitJoin(bytes[..3]);
        PackUnpack(bytes[3..]);
        assert (head + tail)[..4] == head && (head + tail)[4..] == tail;
        assert bytes[..3] + bytes[3..] == bytes;
      }
    }
  }

  lemma {:induction false} UnpackPack(values: seq<Sextet>)
    requires Unpack(values).Some?
    ensures Pack(Unpack(values).value) == values
    ensures values != [] ==> Unpack(values).value != []
  {
    hide Split, Join;
    if values == [] {
    } else {
      if |values| <= 4 {
        JoinSplit(values);
      } else {
        var head, tail := Join(values[..4]).value, Unpack(values[4..]).value;
        JoinSplit(values[..4]);
        UnpackPack(values[4..]);
        assert (head + tail)[..3] == head && (head + tail)[3..] == tail;
        assert values == values[..4] + values[4..];
      }
    }
  }

  /** Decoding undoes encoding; the length is ceil(4n/3), without padding (section 3.2 of RFC 4648);
      and only letters of the alphabet occur. */
  lemma RoundTrip(bytes: seq<Byte>)
    ensures Decode(Encode(bytes)) == Some(bytes)
    ensures |Encode(bytes)| == (4 * |bytes| + 2) / 3
    ensures forall i :: 0 <= i < |Encode(bytes)| ==> ValueOf(Encode(bytes)[i]).Some?
  {
    PackUnpack(bytes);
    SpellValues(Pack(bytes));
  }

  /** What decodes at all is exactly what encodes: a bijection onto the well-formed texts. */
  lemma TextRoundTrip(text: string)
    ensures Decode(text).Some? <==> exists bytes :: Encode(bytes) == text
    ensures Decode(text).Some? ==> Encode(Decode(text).value) == text
  {
    if Decode(text).Some? {
      ValuesSpell(text);
      UnpackPack(Values(text).value);
      assert Encode(Decode(text).value) == text;
    } else if bytes :| Encode(bytes) == text {
      RoundTrip(bytes);
    }
  }

  lemma Injective(a: seq<Byte>, b: seq<Byte>)
    requires Encode(a) == Encode(b)
    ensures a == b
  {
    RoundTrip(a);
    RoundTrip(b);
  }

  // ---------------------------------------------------------------- the loop

  function Shift(n: int, i: nat): int
    requires i <= 3
  {
    if i == 0 then n / 262_144 else if i == 1 then n / 4096 else if i == 2 then n / 64 else n
  }

  lemma Quotients(q: int, r: int)
    ensures 0 <= r < 64 ==> (64 * q + r) / 64 == q && (64 * q + r) % 64 == r
    ensures 0 <= r < 4096 ==> (4096 * q + r) / 4096 == q
    ensures 0 <= r < 262_144 ==> (262_144 * q + r) / 262_144 == q
  {
  }

  lemma ShiftHigh(b0: int, b1: int, b2: int)
    requires 0 <= b0 < 256 && 0 <= b1 < 256 && 0 <= b2 < 256
    ensures var n := b0 * 65_536 + b1 * 256 + b2;
            Shift(n, 0) % 64 == b0 / 4 && Shift(n, 1) % 64 == b0 % 4 * 16 + b1 / 16
  {
    Quotients(b0 / 4, b0 % 4 * 65_536 + b1 * 256 + b2);
    Quotients(b0 * 16 + b1 / 16, b1 % 16 * 256 + b2);
    Quotients(b0 / 4, b0 % 4 * 16 + b1 / 16);
    assert b0 * 16 + b1 / 16 == 64 * (b0 / 4) + (b0 % 4 * 16 + b1 / 16);
  }

  lemma ShiftLow(b0: int, b1: int, b2: int)
    requires 0 <= b0 < 256 && 0 <= b1 < 256 && 0 <= b2 < 256
    ensures var n := b0 * 65_536 + b1 * 256 + b2;
            Shift(n, 2) % 64 == b1 % 16 * 4 + b2 / 64 && Shift(n, 3) % 64 == b2 % 64
  {
    Quotients(b0 * 1024 + b1 * 4 + b2 / 64, b2 % 64);
    Quotients(b0 * 16 + b1 / 16, b1 % 16 * 4 + b2 / 64);
    assert b0 * 1024 + b1 * 4 + b2 / 64 == 64 * (b0 * 16 + b1 / 16) + (b1 % 16 * 4 + b2 / 64);
  }

  /** Character `i` of a chunk, as the source cuts it out of the 24-bit number. */
  lemma ShiftIsSextet(chunk: seq<Byte>, i: nat)
    requires 1 <= |chunk| <= 3 && i <= |chunk|
    ensures Shift(Number(chunk), i) % 64 == Split(chunk)[i]
  {
    var b1 := if |chunk| > 1 then chunk[1] else 0;
    var b2 := if |chunk| > 2 then chunk[2] else 0;
    ShiftHigh(chunk[0], b1, b2);
    ShiftLow(chunk[0], b1, b2);
    hide Shift;
  }

  function Number(chunk: seq<Byte>): int
    requires 1 <= |chunk| <= 3
  {
    var b1: int := if |chunk| > 1 then chunk[1] else 0;
    var b2: int := if |chunk| > 2 then chunk[2] else 0;
    (chunk[0] as int) * 65_536 + b1 * 256 + b2
  }

  lemma SpellAppend(a: seq<Sextet>, b: seq<Sextet>)
    ensures Spell(a + b) == Spell(a) + Spell(b)
  {
  }

  lemma PackFirst(bytes: seq<Byte>)
    requires bytes != []
    ensures var k := if |bytes| < 3 then |bytes| else 3;
            Pack(bytes) == Split(bytes[..k]) + Pack(bytes[k..])
  {
    if |bytes| <= 3 {
      assert bytes[..|bytes|] == bytes && bytes[|bytes|..] == [];
      assert Split(bytes) + [] == Split(bytes);
    }
  }

  method AppendChunk(text: string, chunk: seq<Byte>) returns (out: string)
    requires 1 <= |chunk| <= 3
    ensures out == text + Spell(Split(chunk))
  {
    hide Split, Shift, Number, Letter;
    ghost var letters := Spell(Split(chunk));
    var n := Number(chunk);
    out := text;
    for i := 0 to |chunk| + 1
      invariant out == text + letters[..i]
    {
      ShiftIsSextet(chunk, i);
      out := out + [Letter(Shift(n, i) % 64)];
      assert letters[..i + 1] == letters[..i] + [letters[i]];
    }
    assert letters[..|chunk| + 1] == letters;
  }

  lemma EncodeStep(bytes: seq<Byte>, start: nat, end: nat)
    requires start < end <= |bytes| && end == if start + 3 <= |bytes| then start + 3 else |bytes|
    ensures Encode(bytes[start..]) == Spell(Split(bytes[start..end])) + Encode(bytes[end..])
  {
    hide Pack, Split;
    var rest := bytes[start..];
    PackFirst(rest);
    assert rest[..end - start] == bytes[start..end] && rest[end - start..] == bytes[end..];
    SpellAppend(Split(bytes[start..end]), Pack(bytes[end..]));
  }

  method Base64(bytes: seq<Byte>) returns (out: string)
    ensures out == Encode(bytes)
    ensures Decode(out) == Some(bytes)
    ensures |out| == (4 * |bytes| + 2) / 3
  {
    out := "";
    var start := 0;
    assert bytes[0..] == bytes && Encode([]) == [];
    hide Encode, Split, Decode, Spell, ValueOf;
    while start < |bytes|
      invariant 0 <= start <= |bytes|
      invariant out + Encode(bytes[start..]) == Encode(bytes)
    {
      var end := if start + 3 <= |bytes| then start + 3 else |bytes|;
      EncodeStep(bytes, start, end);
      Regroup(out, Spell(Split(bytes[start..end])), Encode(bytes[end..]));
      out := AppendChunk(out, bytes[start..end]);
      start := end;
    }
    assert bytes[start..] == [];
    RoundTrip(bytes);
  }

  lemma Regroup(a: string, b: string, c: string)
    ensures (a + b) + c == a + (b + c)
  {
  }
}
