/** The ID6 text form of 64-bit identifiers used by BasicStation: four blocks of up to four hex
    digits separated by colons, where `::` stands for blocks that are zero. A text is a sequence of
    bytes, as Go's strings are, so that a `char` of this module stands for one byte and a character
    outside ASCII for several. */
module Id6 {
  import opened Words

  type Byte = x: int | 0 <= x < 256

  type EuiBytes = e: seq<Byte> | |e| == 8 witness [0, 0, 0, 0, 0, 0, 0, 0]

  const ZERO: EuiBytes := [0, 0, 0, 0, 0, 0, 0, 0]

  /** A slice or index out of range makes the parser panic. */
  datatype Outcome = Parsed(eui: EuiBytes) | BadHex | Panics

  // ---------- hexadecimal ----------

  function DigitValue(c: char): (v: Option<nat>)
    ensures v.Some? ==> v.value < 16
  {
    if '0' <= c <= '9' then Some(c as int - '0' as int)
    else if 'a' <= c <= 'f' then Some(c as int - 'a' as int + 10)
    else if 'A' <= c <= 'F' then Some(c as int - 'A' as int + 10)
    else None
  }

  function Digit(n: nat): char
    requires n < 16
  {
    if n < 10 then (n + '0' as int) as char else (n - 10 + 'a' as int) as char
  }

  lemma DigitRoundTrip(n: nat)
    requires n < 16
    ensures DigitValue(Digit(n)) == Some(n)
  {
  }

  /** The digits, in both cases, and nothing else. */
  lemma DigitMeaning(c: char)
    ensures DigitValue(c).Some? <==> '0' <= c <= '9' || 'a' <= c <= 'f' || 'A' <= c <= 'F'
    ensures DigitValue('0') == Some(0) && DigitValue('9') == Some(9)
    ensures DigitValue('a') == DigitValue('A') == Some(10) && DigitValue('f') == DigitValue('F') == Some(15)
    ensures '0' < c <= '9' || 'a' < c <= 'f' || 'A' < c <= 'F' ==>
      DigitValue(c).value == DigitValue((c as int - 1) as char).value + 1
    ensures Digit(0) == '0' && Digit(9) == '9' && Digit(10) == 'a' && Digit(15) == 'f'
  {
  }

  predicate IsHex(s: string) { forall c <- s :: DigitValue(c).Some? }

  /** Four hex digits as two bytes. */
  function DecodeFour(v: string): (Byte, Byte)
    requires |v| == 4 && IsHex(v)
  {
    (DigitValue(v[0]).value * 16 + DigitValue(v[1]).value, DigitValue(v[2]).value * 16 + DigitValue(v[3]).value)
  }

  // ---------- blocks ----------

  /** What the parser makes of the text between two colons. */
  datatype Block = Empty | Value(bytes: (Byte, Byte)) | NotHex | TooLong

  /** A block extended to four digits with zeros on the left. */
  function Padded(block: string): string
    requires |block| <= 4
  {
    "0000"[|block|..] + block
  }

  function Read(block: string): Block {
    if block == "" then Empty
    else if |block| > 4 then TooLong
    else if !IsHex(Padded(block)) then NotHex
    else Value(DecodeFour(Padded(block)))
  }

  function ReadAll(blocks: seq<string>): seq<Block> {
    seq(|blocks|, i requires 0 <= i < |blocks| => Read(blocks[i]))
  }

  /** The number a string of hex digits writes. */
  function Number(s: string): nat
    requires IsHex(s)
  {
    if s == "" then 0
    else
      assert s[|s| - 1] in s;
      assert forall c <- s[..|s| - 1] :: c in s;
      16 * Number(s[..|s| - 1]) + DigitValue(s[|s| - 1]).value
  }

  lemma NumberOfFour(v: string)
    requires |v| == 4 && IsHex(v)
    ensures Number(v) == 256 * DecodeFour(v).0 + DecodeFour(v).1
  {
    assert v[..3][..2] == v[..2] && v[..2][..1] == v[..1] && v[..1][..0] == "";
    assert Number(v[..1]) == DigitValue(v[0]).value;
    assert Number(v[..2]) == 16 * Number(v[..1]) + DigitValue(v[1]).value;
    assert Number(v[..3]) == 16 * Number(v[..2]) + DigitValue(v[2]).value;
  }

  lemma {:induction false} LeadingZeros(zeros: string, s: string)
    requires forall c <- zeros :: c == '0'
    requires IsHex(s)
    ensures IsHex(zeros + s) && Number(zeros + s) == Number(s)
    decreases |zeros| + |s|
  {
    var z := zeros + s;
    assert forall c <- z :: c in zeros || c in s;
    if s != "" {
      assert z[..|z| - 1] == zeros + s[..|s| - 1];
      assert forall c <- s[..|s| - 1] :: c in s;
      LeadingZeros(zeros, s[..|s| - 1]);
    } else if zeros != "" {
      var init := zeros[..|zeros| - 1];
      assert z[..|z| - 1] == init + "";
      assert forall c <- init :: c in zeros;
      assert zeros[|zeros| - 1] in zeros && z[|z| - 1] == '0';
      LeadingZeros(init, "");
    }
  }

  /** A block is read as a value exactly when it has one to four hex digits, and the value is
      the number it writes, high byte first. */
  lemma BlockIsNumber(block: string)
    ensures Read(block).Value? <==> 1 <= |block| <= 4 && IsHex(block)
    ensures Read(block).Value? ==>
      256 * Read(block).bytes.0 + Read(block).bytes.1 == Number(block) && Plain([block])
  {
    if 1 <= |block| <= 4 {
      var zeros := "0000"[|block|..];
      assert forall c <- block :: c in Padded(block);
      if IsHex(block) {
        LeadingZeros(zeros, block);
        NumberOfFour(Padded(block));
      }
    }
  }

  // ---------- printing ----------

  function HexOfByte(b: Byte): string { [Digit(b / 16), Digit(b % 16)] }

  function At(e: EuiBytes, k: nat): (Byte, Byte)
    requires k < 4
  {
    (e[2 * k], e[2 * k + 1])
  }

  function PrintBlock(bytes: (Byte, Byte)): string { HexOfByte(bytes.0) + HexOfByte(bytes.1) }

  /** The printed form always has four blocks of four digits. */
  function MarshalText(e: EuiBytes): string {
    PrintBlock(At(e, 0)) + ":" + PrintBlock(At(e, 1)) + ":" + PrintBlock(At(e, 2)) + ":" + PrintBlock(At(e, 3))
  }

  lemma ReadPrinted(bytes: (Byte, Byte))
    ensures Read(PrintBlock(bytes)) == Value(bytes)
    ensures ':' !in PrintBlock(bytes) && '-' !in PrintBlock(bytes)
  {
    var b := PrintBlock(bytes);
    var d0, d1, d2, d3 := bytes.0 / 16, bytes.0 % 16, bytes.1 / 16, bytes.1 % 16;
    DigitRoundTrip(d0);
    DigitRoundTrip(d1);
    DigitRoundTrip(d2);
    DigitRoundTrip(d3);
    assert b == [Digit(d0), Digit(d1), Digit(d2), Digit(d3)];
    assert Padded(b) == b;
  }

  /** Byte `j` is printed as two digits, high one first, the bytes in order with a colon after
      every second one. */
  lemma PrintedDigits(e: EuiBytes, j: nat)
    requires j < 8
    ensures var text, at := MarshalText(e), 5 * (j / 2) + 2 * (j % 2);
      && |text| == 19 && text[at] == Digit(e[j] / 16) && text[at + 1] == Digit(e[j] % 16)
      && text[4] == text[9] == text[14] == ':'
  {
    var a, b, c, d := PrintBlock(At(e, 0)), PrintBlock(At(e, 1)), PrintBlock(At(e, 2)), PrintBlock(At(e, 3));
    assert |a| == |b| == |c| == |d| == 4;
    assert MarshalText(e) == a + ":" + b + ":" + c + ":" + d;
  }

  // ---------- parsing ----------

  /** The text cut at every colon. */
  function Split(s: string): (blocks: seq<string>)
    ensures |blocks| >= 1
  {
    if s == "" then [""]
    else
      var rest := Split(s[1..]);
      if s[0] == ':' then [""] + rest else [[s[0]] + rest[0]] + rest[1..]
  }

  /** How many blocks are not empty. */
  function Remaining(blocks: seq<Block>): (n: nat)
    ensures n <= |blocks|
    ensures blocks != [] && blocks[0].Empty? ==> n < |blocks|
  {
    if blocks == [] then 0 else Remaining(blocks[1..]) + if blocks[0].Empty? then 0 else 1
  }

  function Write(e: EuiBytes, k: nat, bytes: (Byte, Byte)): EuiBytes
    requires k < 4
  {
    e[2 * k := bytes.0][2 * k + 1 := bytes.1]
  }

  /** The parser's loop from block `i` on, writing at block `blockI` of the result. An empty block
      jumps to the last blocks, as many as are still to come; the jump always moves forward. */
  function ParseFrom(blocks: seq<Block>, i: nat, blockI: int, e: EuiBytes): Outcome
    requires i <= |blocks|
    decreases |blocks| - i
  {
    if i == |blocks| then Parsed(e)
    else
      match blocks[i]
      case Empty =>
        var remaining := Remaining(blocks[i..]);
        ParseFrom(blocks, |blocks| - remaining, 4 - remaining, e)
      case TooLong => Panics
      case NotHex => BadHex
      case Value(bytes) =>
        if !(0 <= blockI < 4) then Panics
        else ParseFrom(blocks, i + 1, blockI + 1, Write(e, blockI, bytes))
  }

  predicate WordCharacter(c: char) { '0' <= c <= '9' || 'a' <= c <= 'z' || 'A' <= c <= 'Z' || c == '_' }

  /** Eight pairs of word characters joined by dashes. */
  predicate IsDashedForm(s: string) {
    |s| == 23 && forall i :: 0 <= i < 23 ==> if i % 3 == 2 then s[i] == '-' else WordCharacter(s[i])
  }

  /** The dashed form occurs somewhere in the text. */
  predicate HasDashedForm(text: string) {
    |text| >= 23 && (IsDashedForm(text[..23]) || HasDashedForm(text[1..]))
  }

  function WithoutDashes(s: string): string {
    if s == "" then "" else (if s[0] == '-' then "" else [s[0]]) + WithoutDashes(s[1..])
  }

  /** `plain` parses sixteen hex digits; it belongs to another library. */
  function UnmarshalText(text: string, plain: string -> Outcome): Outcome {
    if HasDashedForm(text) then plain(WithoutDashes(text)) else ParseFrom(ReadAll(Split(text)), 0, 0, ZERO)
  }

  /** Digits in pairs, joined by dashes. */
  function Dashed(v: string): string {
    if |v| <= 2 then v else v[..2] + "-" + Dashed(v[2..])
  }

  lemma {:induction false} DashedAt(v: string, i: nat)
    requires |v| > 0 && |v| % 2 == 0 && i < |Dashed(v)| == 3 * (|v| / 2) - 1
    ensures Dashed(v)[i] == if i % 3 == 2 then '-' else v[2 * (i / 3) + i % 3]
  {
    if |v| > 2 {
      DashedLength(v[2..]);
      if i >= 3 {
        DashedAt(v[2..], i - 3);
        ThirdBefore(i);
        assert i % 3 != 2 ==> v[2..][2 * (i / 3) + i % 3 - 2] == v[2 * (i / 3) + i % 3];
      }
    }
  }

  lemma {:induction false} DashedLength(v: string)
    requires |v| > 0 && |v| % 2 == 0
    ensures |Dashed(v)| == 3 * (|v| / 2) - 1
  {
    if |v| > 2 {
      DashedLength(v[2..]);
    }
  }

  lemma ThirdBefore(i: nat)
    requires i >= 3
    ensures (i - 3) % 3 == i % 3 && (i - 3) / 3 == i / 3 - 1
  {
  }

  lemma {:induction false} WithoutDashesAppend(a: string, b: string)
    ensures WithoutDashes(a + b) == WithoutDashes(a) + WithoutDashes(b)
  {
    if a == "" {
      assert a + b == b;
    } else {
      assert (a + b)[1..] == a[1..] + b;
      WithoutDashesAppend(a[1..], b);
    }
  }

  lemma {:induction false} NoDashesLeft(v: string)
    requires '-' !in v
    ensures WithoutDashes(v) == v
  {
    if v != "" {
      NoDashesLeft(v[1..]);
    }
  }

  lemma {:induction false} UndashedAgain(v: string)
    requires '-' !in v
    ensures WithoutDashes(Dashed(v)) == v
  {
    if |v| <= 2 {
      NoDashesLeft(v);
    } else {
      NoDashesLeft(v[..2]);
      UndashedAgain(v[2..]);
      WithoutDashesAppend(v[..2] + "-", Dashed(v[2..]));
      WithoutDashesAppend(v[..2], "-");
      assert WithoutDashes("-") == "";
      assert v == v[..2] + v[2..];
    }
  }

  /** Sixteen hex digits written as eight pairs with dashes are handed on without the dashes. */
  lemma DashedForm(v: string, plain: string -> Outcome)
    requires |v| == 16 && IsHex(v)
    ensures UnmarshalText(Dashed(v), plain) == plain(v)
  {
    var text := Dashed(v);
    DashedLength(v);
    forall i: nat | i < 23
      ensures |text| == 23 && if i % 3 == 2 then text[i] == '-' else WordCharacter(text[i])
    {
      DashedAt(v, i);
      assert i % 3 != 2 ==> v[2 * (i / 3) + i % 3] in v;
    }
    assert text[..23] == text;
    UndashedAgain(v);
  }

  // ---------- splitting what was joined ----------

  function Join(blocks: seq<string>): string {
    if blocks == [] then "" else if |blocks| == 1 then blocks[0] else blocks[0] + ":" + Join(blocks[1..])
  }

  /** Blocks that contain neither a colon nor a dash. */
  predicate Plain(blocks: seq<string>) { forall b <- blocks :: ':' !in b && '-' !in b }

  lemma PlainTail(blocks: seq<string>)
    requires blocks != [] && Plain(blocks)
    ensures Plain(blocks[1..]) && ':' !in blocks[0] && '-' !in blocks[0]
  {
    assert blocks[0] in blocks;
    assert forall b <- blocks[1..] :: b in blocks;
  }

  lemma {:induction false} SplitLast(block: string)
    requires ':' !in block
    ensures Split(block) == [block]
  {
    if block != "" {
      SplitLast(block[1..]);
      assert [block[0]] + block[1..] == block;
    }
  }

  lemma {:induction false} SplitFirst(block: string, rest: string)
    requires ':' !in block
    ensures Split(block + ":" + rest) == [block] + Split(rest)
  {
    var s := block + ":" + rest;
    if block == "" {
      assert s[1..] == rest;
    } else {
      SplitFirst(block[1..], rest);
      assert s[1..] == block[1..] + ":" + rest;
      assert [block[0]] + block[1..] == block;
    }
  }

  lemma {:induction false} SplitJoin(blocks: seq<string>)
    requires blocks != [] && Plain(blocks)
    ensures Split(Join(blocks)) == blocks
  {
    PlainTail(blocks);
    if |blocks| == 1 {
      SplitLast(blocks[0]);
    } else {
      SplitJoin(blocks[1..]);
      SplitFirst(blocks[0], Join(blocks[1..]));
    }
  }

  lemma {:induction false} NoDashNoForm(text: string)
    requires '-' !in text
    ensures !HasDashedForm(text)
  {
    if |text| >= 23 {
      assert text[..23][2] in text;
      NoDashNoForm(text[1..]);
    }
  }

  lemma {:induction false} JoinedHasNoDash(blocks: seq<string>)
    requires Plain(blocks)
    ensures '-' !in Join(blocks)
  {
    if blocks != [] {
      PlainTail(blocks);
      JoinedHasNoDash(blocks[1..]);
    }
  }

  /** A text of joined blocks, some possibly empty, is parsed block by block. */
  lemma UnmarshalJoined(blocks: seq<string>, plain: string -> Outcome)
    requires blocks != [] && Plain(blocks)
    ensures UnmarshalText(Join(blocks), plain) == ParseFrom(ReadAll(blocks), 0, 0, ZERO)
  {
    SplitJoin(blocks);
    JoinedHasNoDash(blocks);
    NoDashNoForm(Join(blocks));
  }

  // ---------- stretches of blocks ----------

  predicate AllValues(bs: seq<Block>) { forall i :: 0 <= i < |bs| ==> bs[i].Value? }

  /** `e` with the values of `bs` written from block `at` on. */
  function WriteAll(e: EuiBytes, at: nat, bs: seq<Block>): EuiBytes
    requires AllValues(bs) && at + |bs| <= 4
    decreases |bs|
  {
    if bs == [] then e else WriteAll(Write(e, at, bs[0].bytes), at + 1, bs[1..])
  }

  /** Parsing a stretch of blocks: they are written one after the other if they fit. */
  lemma {:induction false} ParseStretch(blocks: seq<Block>, i: nat, bs: seq<Block>, at: nat, e: EuiBytes)
    requires i + |bs| <= |blocks| && blocks[i..i + |bs|] == bs && AllValues(bs) && at <= 4
    ensures ParseFrom(blocks, i, at, e) ==
      if at + |bs| <= 4 then ParseFrom(blocks, i + |bs|, at + |bs|, WriteAll(e, at, bs)) else Panics
    decreases |bs|
  {
    if bs != [] {
      assert blocks[i] == blocks[i..i + |bs|][0];
      if at < 4 {
        assert blocks[i + 1..i + 1 + |bs[1..]|] == bs[1..];
        ParseStretch(blocks, i + 1, bs[1..], at + 1, Write(e, at, bs[0].bytes));
      }
    }
  }

  lemma WriteAt(e: EuiBytes, at: nat, bytes: (Byte, Byte), k: nat)
    requires at < 4 && k < 4
    ensures At(Write(e, at, bytes), k) == if k == at then bytes else At(e, k)
  {
  }

  /** Block `at + k` then holds the value of `bs[k]`, and the others are unchanged. */
  lemma {:induction false} WrittenBlocks(e: EuiBytes, at: nat, bs: seq<Block>, k: nat)
    requires AllValues(bs) && at + |bs| <= 4 && k < 4
    ensures At(WriteAll(e, at, bs), k) == if at <= k < at + |bs| then bs[k - at].bytes else At(e, k)
    decreases |bs|
  {
    if bs != [] {
      WriteAt(e, at, bs[0].bytes, k);
      WrittenBlocks(Write(e, at, bs[0].bytes), at + 1, bs[1..], k);
    }
  }

  lemma SameBlocks(a: EuiBytes, b: EuiBytes)
    requires At(a, 0) == At(b, 0) && At(a, 1) == At(b, 1) && At(a, 2) == At(b, 2) && At(a, 3) == At(b, 3)
    ensures a == b
  {
    assert a == [a[0], a[1], a[2], a[3], a[4], a[5], a[6], a[7]];
    assert b == [b[0], b[1], b[2], b[3], b[4], b[5], b[6], b[7]];
  }

  // ---------- main results ----------

  /** Without `::`, up to four blocks are written in order and a fifth panics. */
  lemma ParseBlockList(texts: seq<string>, plain: string -> Outcome)
    requires texts != [] && Plain(texts) && AllValues(ReadAll(texts))
    ensures UnmarshalText(Join(texts), plain) ==
      if |texts| <= 4 then Parsed(WriteAll(ZERO, 0, ReadAll(texts))) else Panics
  {
    UnmarshalJoined(texts, plain);
    ParseValues(ReadAll(texts), ZERO);
  }

  lemma ParseValues(bs: seq<Block>, e: EuiBytes)
    requires AllValues(bs)
    ensures ParseFrom(bs, 0, 0, e) == if |bs| <= 4 then Parsed(WriteAll(e, 0, bs)) else Panics
  {
    assert bs[0..0 + |bs|] == bs;
    ParseStretch(bs, 0, bs, 0, e);
  }

  lemma JoinFour(a: string, b: string, c: string, d: string)
    ensures Join([a, b, c, d]) == a + ":" + b + ":" + c + ":" + d
  {
    assert [a, b, c, d][1..] == [b, c, d] && [b, c, d][1..] == [c, d] && [c, d][1..] == [d];
    assert Join([c, d]) == c + ":" + d;
    assert Join([b, c, d]) == b + ":" + Join([c, d]) == b + ":" + c + ":" + d;
    assert Join([a, b, c, d]) == a + ":" + Join([b, c, d]);
  }

  lemma FourWritten(e: EuiBytes)
    ensures WriteAll(ZERO, 0, [Value(At(e, 0)), Value(At(e, 1)), Value(At(e, 2)), Value(At(e, 3))]) == e
  {
    var values := [Value(At(e, 0)), Value(At(e, 1)), Value(At(e, 2)), Value(At(e, 3))];
    WrittenBlocks(ZERO, 0, values, 0);
    WrittenBlocks(ZERO, 0, values, 1);
    WrittenBlocks(ZERO, 0, values, 2);
    WrittenBlocks(ZERO, 0, values, 3);
    SameBlocks(WriteAll(ZERO, 0, values), e);
  }

  lemma ReadFour(a: (Byte, Byte), b: (Byte, Byte), c: (Byte, Byte), d: (Byte, Byte))
    ensures var texts := [PrintBlock(a), PrintBlock(b), PrintBlock(c), PrintBlock(d)];
      Plain(texts) && ReadAll(texts) == [Value(a), Value(b), Value(c), Value(d)]
  {
    ReadPrinted(a);
    ReadPrinted(b);
    ReadPrinted(c);
    ReadPrinted(d);
  }

  /** Parsing the printed form of an identifier gives the identifier back. */
  lemma ParsePrinted(e: EuiBytes, plain: string -> Outcome)
    ensures UnmarshalText(MarshalText(e), plain) == Parsed(e)
  {
    var a, b, c, d := At(e, 0), At(e, 1), At(e, 2), At(e, 3);
    JoinFour(PrintBlock(a), PrintBlock(b), PrintBlock(c), PrintBlock(d));
    ReadFour(a, b, c, d);
    ParseBlockList([PrintBlock(a), PrintBlock(b), PrintBlock(c), PrintBlock(d)], plain);
    FourWritten(e);
  }

  lemma {:induction false} RemainingValues(bs: seq<Block>)
    requires AllValues(bs)
    ensures Remaining(bs) == |bs|
  {
    if bs != [] {
      RemainingValues(bs[1..]);
    }
  }

  lemma {:induction false} JoinAppend(a: seq<string>, b: seq<string>)
    requires a != [] && b != []
    ensures Join(a + b) == Join(a) + ":" + Join(b)
  {
    assert (a + b)[1..] == a[1..] + b;
    if |a| == 1 {
      assert a[1..] + b == b;
    } else {
      JoinAppend(a[1..], b);
      assert a[0] + ":" + (Join(a[1..]) + ":" + Join(b)) == a[0] + ":" + Join(a[1..]) + ":" + Join(b);
    }
  }

  /** What splitting leaves of a possibly empty side of `::`. */
  function Side(texts: seq<string>): seq<string> { if texts == [] then [""] else texts }

  /** What splitting leaves of `P::S`. */
  function Around(p: seq<string>, s: seq<string>): seq<string> { Side(p) + [""] + Side(s) }

  lemma JoinSide(texts: seq<string>)
    ensures Join(Side(texts)) == Join(texts)
  {
  }

  lemma TwoColons(a: string, b: string)
    ensures a + ":" + ("" + ":" + b) == a + "::" + b
  {
    assert ":" + ("" + ":" + b) == "::" + b;
  }

  lemma JoinCompressed(p: seq<string>, s: seq<string>)
    ensures Join(Around(p, s)) == Join(p) + "::" + Join(s)
  {
    var left, right := Side(p), Side(s);
    assert Around(p, s) == left + ([""] + right);
    assert Join(left + ([""] + right)) == Join(left) + ":" + Join([""] + right) by { JoinAppend(left, [""] + right); }
    assert Join([""] + right) == "" + ":" + Join(right) by { JoinAppend([""], right); }
    JoinSide(p);
    JoinSide(s);
    TwoColons(Join(p), Join(s));
  }

  /** The blocks around a `::`, an empty side leaving an empty block of its own. */
  function BlocksAround(p: seq<Block>, s: seq<Block>): seq<Block> {
    (if p == [] then [Empty] else p) + [Empty] + (if s == [] then [Empty] else s)
  }

  /** At the `::` after `p` the blocks of `s` are what remains. */
  lemma RemainingAtColons(blocks: seq<Block>, p: seq<Block>, s: seq<Block>)
    requires AllValues(p) && AllValues(s)
    requires blocks == BlocksAround(p, s)
    ensures |p| < |blocks| && blocks[|p|].Empty? && Remaining(blocks[|p|..]) == |s|
    ensures blocks[..|p|] == p && |p| + |s| <= |blocks| && blocks[|blocks| - |s|..] == s
  {
    var tail := if s == [] then [Empty] else s;
    RemainingValues(s);
    assert Remaining([Empty]) == 0;
    assert ([Empty] + tail)[1..] == tail && ([Empty, Empty] + tail)[1..] == [Empty] + tail;
    assert blocks[|p|..] == if p == [] then [Empty, Empty] + tail else [Empty] + tail;
  }

  /** What the blocks around a `::` come to: `p` from the start and `s` up to the end, or no result
      at all when one side has more than four. */
  function AroundOutcome(p: seq<Block>, s: seq<Block>, e: EuiBytes): Outcome
    requires AllValues(p) && AllValues(s)
  {
    if |p| <= 4 && |s| <= 4 then Parsed(WriteAll(WriteAll(e, 0, p), 4 - |s|, s)) else Panics
  }

  lemma ParseAroundColons(blocks: seq<Block>, p: seq<Block>, s: seq<Block>, e: EuiBytes)
    requires AllValues(p) && AllValues(s)
    requires blocks == BlocksAround(p, s)
    ensures ParseFrom(blocks, 0, 0, e) == AroundOutcome(p, s, e)
  {
    RemainingAtColons(blocks, p, s);
    assert blocks[0..0 + |p|] == p;
    ParseStretch(blocks, 0, p, 0, e);
    if |p| <= 4 {
      var f := WriteAll(e, 0, p);
      ParseJump(blocks, |p|, |p|, f);
      ParseTail(blocks, |blocks| - |s|, s, f);
    }
  }

  /** An empty block makes the parse go on with the last blocks, as many as remain. */
  lemma ParseJump(blocks: seq<Block>, i: nat, blockI: int, e: EuiBytes)
    requires i < |blocks| && blocks[i].Empty?
    ensures var remaining := Remaining(blocks[i..]);
      remaining < |blocks| - i && ParseFrom(blocks, i, blockI, e) == ParseFrom(blocks, |blocks| - remaining, 4 - remaining, e)
  {
  }

  /** After the jump: the last blocks go to the end of the result, or do not fit at all. */
  lemma ParseTail(blocks: seq<Block>, from: nat, s: seq<Block>, e: EuiBytes)
    requires from <= |blocks| && blocks[from..] == s && AllValues(s)
    ensures ParseFrom(blocks, from, 4 - |s|, e) ==
      if |s| <= 4 then Parsed(WriteAll(e, 4 - |s|, s)) else Panics
  {
    if |s| <= 4 {
      assert blocks[from..from + |s|] == s;
      ParseStretch(blocks, from, s, 4 - |s|, e);
    } else {
      assert blocks[from] == blocks[from..][0] == s[0];
    }
  }

  lemma ReadAppend(a: seq<string>, b: seq<string>)
    ensures ReadAll(a + b) == ReadAll(a) + ReadAll(b)
  {
  }

  lemma ReadSide(texts: seq<string>)
    requires Plain(texts)
    ensures Plain(Side(texts))
    ensures ReadAll(Side(texts)) == if texts == [] then [Empty] else ReadAll(texts)
  {
  }

  lemma CompressedText(p: seq<string>, s: seq<string>)
    requires Plain(p) && Plain(s)
    ensures var texts := Around(p, s);
      && Plain(texts)
      && ReadAll(texts) == BlocksAround(ReadAll(p), ReadAll(s))
  {
    ReadSide(p);
    ReadSide(s);
    ReadAppend(Side(p) + [""], Side(s));
    ReadAppend(Side(p), [""]);
    assert ReadAll([""]) == [Empty];
  }

  /** `P::S` parses to the blocks of `P`, zeros, and the blocks of `S` at the end, whenever each
      side has at most four blocks (with more than four together, `S` overwrites); it panics
      exactly when one side alone has more than four. */
  lemma ParseCompressed(p: seq<string>, s: seq<string>, plain: string -> Outcome)
    requires Plain(p) && Plain(s) && AllValues(ReadAll(p)) && AllValues(ReadAll(s))
    ensures UnmarshalText(Join(p) + "::" + Join(s), plain) == AroundOutcome(ReadAll(p), ReadAll(s), ZERO)
  {
    UnmarshalCompressed(p, s, plain);
    ParseAround(p, s);
  }

  lemma UnmarshalCompressed(p: seq<string>, s: seq<string>, plain: string -> Outcome)
    requires Plain(p) && Plain(s)
    ensures UnmarshalText(Join(p) + "::" + Join(s), plain) == ParseFrom(ReadAll(Around(p, s)), 0, 0, ZERO)
  {
    assert Join(Around(p, s)) == Join(p) + "::" + Join(s) by { JoinCompressed(p, s); }
    assert Plain(Around(p, s)) by { CompressedText(p, s); }
    UnmarshalJoined(Around(p, s), plain);
  }

  lemma ParseAround(p: seq<string>, s: seq<string>)
    requires Plain(p) && Plain(s) && AllValues(ReadAll(p)) && AllValues(ReadAll(s))
    ensures ParseFrom(ReadAll(Around(p, s)), 0, 0, ZERO) == AroundOutcome(ReadAll(p), ReadAll(s), ZERO)
  {
    CompressedText(p, s);
    ParseAroundColons(ReadAll(Around(p, s)), ReadAll(p), ReadAll(s), ZERO);
  }

  /** Block by block, whenever neither side is too long: `S` at the end, before it `P`, and what
      was there where neither reaches. */
  lemma CompressedBlocks(p: seq<Block>, s: seq<Block>, e: EuiBytes, k: nat)
    requires AllValues(p) && AllValues(s) && |p| <= 4 && |s| <= 4 && k < 4
    ensures At(WriteAll(WriteAll(e, 0, p), 4 - |s|, s), k) ==
      if k >= 4 - |s| then s[k - (4 - |s|)].bytes else if k < |p| then p[k].bytes else At(e, k)
    ensures At(ZERO, k) == (0, 0)
  {
    WrittenBlocks(e, 0, p, k);
    WrittenBlocks(WriteAll(e, 0, p), 4 - |s|, s, k);
  }

  /** The result still holds all of `P`. */
  predicate KeepsLeft(p: seq<Block>, e: EuiBytes)
    requires AllValues(p) && |p| <= 4
  {
    forall k :: 0 <= k < |p| ==> At(e, k) == p[k].bytes
  }

  /** With more than four blocks in all, the right side overwrites the end of the left, and the
      left survives exactly when the overwritten blocks coincide. */
  lemma LeftSurvivesIff(p: seq<Block>, s: seq<Block>)
    requires AllValues(p) && AllValues(s) && |p| <= 4 && |s| <= 4
    ensures KeepsLeft(p, WriteAll(WriteAll(ZERO, 0, p), 4 - |s|, s)) <==>
      |p| + |s| <= 4 || p[4 - |s|..] == s[..|p| + |s| - 4]
  {
    var e := WriteAll(WriteAll(ZERO, 0, p), 4 - |s|, s);
    forall k | 0 <= k < 4
      ensures At(e, k) == if k >= 4 - |s| then s[k - (4 - |s|)].bytes else if k < |p| then p[k].bytes else (0, 0)
    {
      CompressedBlocks(p, s, ZERO, k);
    }
    if |p| + |s| > 4 {
      var n := |p| + |s| - 4;
      assert forall i :: 0 <= i < n ==> p[4 - |s|..][i] == p[4 - |s| + i] && s[..n][i] == s[i];
      assert p[4 - |s|..] == s[..n] <==> forall i :: 0 <= i < n ==> p[4 - |s| + i].bytes == s[i].bytes;
      if KeepsLeft(p, e) {
        forall i | 0 <= i < n ensures p[4 - |s| + i].bytes == s[i].bytes { assert At(e, 4 - |s| + i) == s[i].bytes; }
      } else {
        var k :| 0 <= k < |p| && At(e, k) != p[k].bytes;
        assert k >= 4 - |s| && p[4 - |s| + (k - (4 - |s|))].bytes != s[k - (4 - |s|)].bytes;
      }
    }
  }

  // ---------- any list of blocks ----------

  /** The positions of the blocks the loop looks at from `i` on: an empty block makes it skip as
      many blocks as are empty from there, whether these are the empty ones or not. */
  function Visited(blocks: seq<Block>, i: nat): (xs: seq<nat>)
    requires i <= |blocks|
    ensures forall x <- xs :: i <= x < |blocks| && !blocks[x].Empty?
    decreases |blocks| - i
  {
    if i == |blocks| then []
    else if blocks[i].Empty? then Visited(blocks, |blocks| - Remaining(blocks[i..]))
    else [i] + Visited(blocks, i + 1)
  }

  predicate NoneEmpty(bs: seq<Block>) { forall b <- bs :: !b.Empty? }

  /** Where the block at position `x` goes: counted from the left before the first empty block, and
      from the right after it. */
  function Slot(blocks: seq<Block>, x: nat): int
    requires x <= |blocks|
  {
    if NoneEmpty(blocks[..x]) then x else 4 - (|blocks| - x)
  }

  /** The block ends the parse: its digits are wrong, it is too long, or it has no place. */
  predicate Bad(blocks: seq<Block>, x: nat)
    requires x < |blocks|
  {
    !blocks[x].Value? || !(0 <= Slot(blocks, x) < 4)
  }

  /** The first of the positions at which the parse ends. */
  function FirstBad(blocks: seq<Block>, xs: seq<nat>): (x: Option<nat>)
    requires forall x <- xs :: x < |blocks|
    ensures x.Some? ==> x.value in xs && Bad(blocks, x.value)
    ensures x.None? <==> forall y <- xs :: !Bad(blocks, y)
  {
    if xs == [] then None
    else
      assert xs[0] in xs;
      assert forall y <- xs[1..] :: y in xs;
      if Bad(blocks, xs[0]) then Some(xs[0]) else FirstBad(blocks, xs[1..])
  }

  lemma SlotNext(blocks: seq<Block>, i: nat)
    requires i < |blocks|
    ensures !blocks[i].Empty? ==> Slot(blocks, i + 1) == Slot(blocks, i) + 1
    ensures blocks[i].Empty? ==> forall x :: i < x <= |blocks| ==> Slot(blocks, x) == 4 - (|blocks| - x)
  {
    assert blocks[..i + 1] == blocks[..i] + [blocks[i]];
    if blocks[i].Empty? {
      forall x | i < x <= |blocks| ensures !NoneEmpty(blocks[..x]) {
        assert blocks[..x][i] == blocks[i];
      }
    }
  }

  /** The parse from `i` on succeeds exactly when no block visited from there is bad, and otherwise
      the first bad one decides whether it reports bad digits or panics. */
  ghost predicate OutcomeFrom(blocks: seq<Block>, i: nat, e: EuiBytes)
    requires i <= |blocks|
  {
    match FirstBad(blocks, Visited(blocks, i))
    case None => ParseFrom(blocks, i, Slot(blocks, i), e).Parsed?
    case Some(x) => ParseFrom(blocks, i, Slot(blocks, i), e) == if blocks[x].NotHex? then BadHex else Panics
  }

  lemma JumpOutcome(blocks: seq<Block>, i: nat, e: EuiBytes)
    requires i < |blocks| && blocks[i].Empty? && OutcomeFrom(blocks, |blocks| - Remaining(blocks[i..]), e)
    ensures OutcomeFrom(blocks, i, e)
  {
    var next := |blocks| - Remaining(blocks[i..]);
    SlotNext(blocks, i);
    assert Slot(blocks, next) == 4 - Remaining(blocks[i..]);
    assert ParseFrom(blocks, i, Slot(blocks, i), e) == ParseFrom(blocks, next, Slot(blocks, next), e);
  }

  lemma BlockOutcome(blocks: seq<Block>, i: nat, e: EuiBytes)
    requires i < |blocks| && !blocks[i].Empty?
    requires Bad(blocks, i) || OutcomeFrom(blocks, i + 1, Write(e, Slot(blocks, i), blocks[i].bytes))
    ensures OutcomeFrom(blocks, i, e)
  {
    SlotNext(blocks, i);
    assert Visited(blocks, i)[1..] == Visited(blocks, i + 1);
  }

  /** For every list of blocks whatsoever. */
  lemma {:induction false} ParseOutcome(blocks: seq<Block>, i: nat, e: EuiBytes)
    requires i <= |blocks|
    ensures OutcomeFrom(blocks, i, e)
    decreases |blocks| - i
  {
    if i < |blocks| {
      if blocks[i].Empty? {
        ParseOutcome(blocks, |blocks| - Remaining(blocks[i..]), e);
        JumpOutcome(blocks, i, e);
      } else {
        if !Bad(blocks, i) {
          ParseOutcome(blocks, i + 1, Write(e, Slot(blocks, i), blocks[i].bytes));
        }
        BlockOutcome(blocks, i, e);
      }
    }
  }

  /** Every text that is not in dashed form panics exactly when the first bad block the loop looks
      at is too long, or a proper block without a place. */
  lemma PanicsIff(text: string, plain: string -> Outcome)
    requires !HasDashedForm(text)
    ensures var blocks := ReadAll(Split(text));
      var bad := FirstBad(blocks, Visited(blocks, 0));
      && (UnmarshalText(text, plain).Panics? <==> bad.Some? && !blocks[bad.value].NotHex?)
      && (UnmarshalText(text, plain).BadHex? <==> bad.Some? && blocks[bad.value].NotHex?)
  {
    ParseOutcome(ReadAll(Split(text)), 0, ZERO);
  }

  /** With two `::` a block between them is not looked at: `a::b::c` means `a::c`. */
  lemma MiddleBlockDropped(a: (Byte, Byte), b: (Byte, Byte), c: (Byte, Byte))
    ensures ParseFrom([Value(a), Empty, Value(b), Empty, Value(c)], 0, 0, ZERO)
      == ParseFrom([Value(a), Empty, Value(c)], 0, 0, ZERO) == Parsed(Write(Write(ZERO, 0, a), 3, c))
  {
    var two, one := [Value(a), Empty, Value(b), Empty, Value(c)], [Value(a), Empty, Value(c)];
    assert two[1..] == [Empty, Value(b), Empty, Value(c)] && two[3..] == [Empty, Value(c)] && one[1..] == [Empty, Value(c)];
    assert [Empty, Value(b), Empty, Value(c)][1..] == [Value(b), Empty, Value(c)];
    assert [Value(b), Empty, Value(c)][1..] == [Empty, Value(c)] && [Empty, Value(c)][1..] == [Value(c)];
    assert [Value(c)][1..] == [];
    assert Remaining([Value(c)]) == Remaining([Empty, Value(c)]) == 1;
    assert Remaining([Value(b), Empty, Value(c)]) == Remaining([Empty, Value(b), Empty, Value(c)]) == 2;
    var e := Write(ZERO, 0, a);
    assert ParseFrom(two, 4, 3, e) == ParseFrom(two, 5, 4, Write(e, 3, c));
    assert ParseFrom(one, 2, 3, e) == ParseFrom(one, 3, 4, Write(e, 3, c));
    assert ParseFrom(two, 1, 1, e) == ParseFrom(two, 3, 2, e) == ParseFrom(two, 4, 3, e);
    assert ParseFrom(one, 1, 1, e) == ParseFrom(one, 2, 3, e);
  }

  // ---------- the code ----------

  method RemainingBlocks(blocks: seq<string>) returns (n: nat)
    ensures n == Remaining(ReadAll(blocks))
  {
    n := 0;
    for i := 0 to |blocks|
      invariant n + Remaining(ReadAll(blocks)[i..]) == Remaining(ReadAll(blocks))
    {
      if blocks[i] != "" {
        n := n + 1;
      }
      assert ReadAll(blocks)[i..][1..] == ReadAll(blocks)[i + 1..];
    }
  }

  /** The parser's loop over an array of eight bytes. */
  method ParseBlocks(blocks: seq<string>) returns (outcome: Outcome)
    ensures outcome == ParseFrom(ReadAll(blocks), 0, 0, ZERO)
  {
    var eui := new Byte[8](_ => 0);
    assert eui[..] == ZERO;
    ghost var bs, whole := ReadAll(blocks), ParseFrom(ReadAll(blocks), 0, 0, ZERO);
    var i, blockI: int := 0, 0;
    while i < |blocks|
      invariant 0 <= i <= |blocks|
      invariant ParseFrom(bs, i, blockI, eui[..]) == whole
      decreases |blocks| - i
    {
      TurnParses(bs, i, blockI, eui[..]);
      var problem;
      i, blockI, problem := ParseStep(blocks, i, blockI, eui);
      if problem.Some? {
        return problem.value;
      }
    }
    return Parsed(eui[..]);
  }

  /** How a non-empty block ends the parse, if it does. */
  function ProblemOf(block: Block, blockI: int): Option<Outcome> {
    match block
    case TooLong => Some(Panics)
    case NotHex => Some(BadHex)
    case _ => if !(0 <= blockI < 4) then Some(Panics) else None
  }

  /** Where one turn of the loop leads from block `i`, or how it ends the parse. */
  datatype Turn = Turn(next: nat, nextI: int, eui: EuiBytes, problem: Option<Outcome>)

  function TurnFrom(blocks: seq<Block>, i: nat, blockI: int, e: EuiBytes): (turn: Turn)
    requires i < |blocks|
    ensures i < turn.next <= |blocks|
  {
    var remaining := Remaining(blocks[i..]);
    var problem := ProblemOf(blocks[i], blockI);
    if blocks[i].Empty? then Turn(|blocks| - remaining, 4 - remaining, e, None)
    else Turn(i + 1, blockI + 1, if problem.None? then Write(e, blockI, blocks[i].bytes) else e, problem)
  }

  /** A turn keeps what the whole parse comes to. */
  lemma TurnParses(blocks: seq<Block>, i: nat, blockI: int, e: EuiBytes)
    requires i < |blocks|
    ensures var turn := TurnFrom(blocks, i, blockI, e);
      ParseFrom(blocks, i, blockI, e) ==
        if turn.problem.Some? then turn.problem.value else ParseFrom(blocks, turn.next, turn.nextI, turn.eui)
  {
  }

  /** One turn of the loop. */
  method ParseStep(blocks: seq<string>, i: nat, blockI: int, eui: array<Byte>)
    returns (next: nat, nextI: int, problem: Option<Outcome>)
    requires i < |blocks| && eui.Length == 8
    modifies eui
    ensures i < next <= |blocks|
    ensures Turn(next, nextI, eui[..], problem) == TurnFrom(ReadAll(blocks), i, blockI, old(eui[..]))
  {
    if blocks[i] == "" {
      assert ReadAll(blocks[i..]) == ReadAll(blocks)[i..];
      var remaining: int := RemainingBlocks(blocks[i..]);
      return |blocks| - remaining, 4 - remaining, None;
    }
    problem := ParseBlock(blocks[i], blockI, eui);
    return i + 1, blockI + 1, problem;
  }

  /** One non-empty block: its value is written, or the problem returned. */
  method ParseBlock(text: string, blockI: int, eui: array<Byte>) returns (problem: Option<Outcome>)
    requires text != "" && eui.Length == 8
    modifies eui
    ensures problem == ProblemOf(Read(text), blockI)
    ensures problem.None? ==> eui[..] == Write(old(eui[..]), blockI, Read(text).bytes)
    ensures problem.Some? ==> eui[..] == old(eui[..])
  {
    if |text| > 4 {
      return Some(Panics);
    }
    var v := Padded(text);
    if !IsHex(v) {
      return Some(BadHex);
    }
    if !(0 <= blockI < 4) {
      return Some(Panics);
    }
    var bytes := DecodeFour(v);
    WriteBytes(eui, blockI, bytes);
    return None;
  }

  method WriteBytes(eui: array<Byte>, blockI: nat, bytes: (Byte, Byte))
    requires eui.Length == 8 && blockI < 4
    modifies eui
    ensures eui[..] == Write(old(eui[..]), blockI, bytes)
  {
    eui[2 * blockI] := bytes.0;
    eui[2 * blockI + 1] := bytes.1;
  }
}
