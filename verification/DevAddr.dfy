/** Device addresses and the prefixes by which routers ask for their traffic. A 32-bit word is
    its bits, index 0 being the least significant. */
module DevAddr {
  function Repeat(b: bool, n: nat): seq<bool> { seq(n, _ => b) }

  type Word = w: seq<bool> | |w| == 32 witness Repeat(false, 32)

  type uint8 = x: int | 0 <= x < 256

  function And(a: Word, b: Word): Word { seq(32, i requires 0 <= i < 32 => a[i] && b[i]) }

  function Or(a: Word, b: Word): Word { seq(32, i requires 0 <= i < 32 => a[i] || b[i]) }

  function Not(a: Word): Word { seq(32, i requires 0 <= i < 32 => !a[i]) }

  /** Go's left shift: bits move up, and a shift by 32 or more leaves nothing. */
  function ShiftLeft(a: Word, n: nat): Word { seq(32, i requires 0 <= i < 32 => if i >= n then a[i - n] else false) }

  function Ones(): Word { Repeat(true, 32) }

  /** Go's subtraction on uint8. */
  function Minus8(a: uint8, b: uint8): uint8 { if b <= a then a - b else a - b + 256 }

  function SetDevAddrPrefix(addr: Word, prefix: Word, mask: uint8): Word {
    Or(And(addr, Not(ShiftLeft(Ones(), Minus8(32, mask)))), prefix)
  }

  predicate HasPrefix(addr: Word, prefix: Word, mask: uint8) {
    if mask == 0 || mask > 32 then false else SetDevAddrPrefix(addr, prefix, mask) == addr
  }

  /** An address matches exactly when the top `mask` bits agree and every lower bit set in the
      prefix is set in it. */
  lemma MatchesByBits(addr: Word, prefix: Word, mask: uint8)
    requires 1 <= mask <= 32
    ensures HasPrefix(addr, prefix, mask) <==>
      && (forall i :: 32 - mask <= i < 32 ==> addr[i] == prefix[i])
      && (forall i :: 0 <= i < 32 - mask && prefix[i] ==> addr[i])
  {
    var after := SetDevAddrPrefix(addr, prefix, mask);
    assert forall i :: 32 - mask <= i < 32 ==> after[i] == prefix[i];
    assert forall i :: 0 <= i < 32 - mask ==> after[i] == (addr[i] || prefix[i]);
    assert after == addr <==> forall i :: 0 <= i < 32 ==> after[i] == addr[i];
  }

  /** A mask of zero, or of more than 32 bits, matches nothing. */
  lemma NoMaskNoMatch(addr: Word, prefix: Word, mask: uint8)
    requires mask == 0 || mask > 32
    ensures !HasPrefix(addr, prefix, mask)
  {
  }

  /** Setting a prefix makes the address match, whatever it was, and changes no lower bit that
      the prefix leaves clear. */
  lemma SetThenHas(addr: Word, prefix: Word, mask: uint8)
    requires 1 <= mask <= 32
    ensures HasPrefix(SetDevAddrPrefix(addr, prefix, mask), prefix, mask)
    ensures forall i :: 0 <= i < 32 - mask && !prefix[i] ==> SetDevAddrPrefix(addr, prefix, mask)[i] == addr[i]
  {
    MatchesByBits(SetDevAddrPrefix(addr, prefix, mask), prefix, mask);
  }

  /** A prefix without bits below its mask. */
  predicate Aligned(prefix: Word, mask: uint8)
    requires mask <= 32
  {
    forall i :: 0 <= i < 32 - mask ==> !prefix[i]
  }

  /** Two aligned prefixes that some address matches are nested: every address matching the
      longer one matches the shorter one. */
  lemma MatchingPrefixesNest(addr: Word, short: Word, long: Word, m: uint8, n: uint8)
    requires 1 <= m <= n <= 32 && Aligned(short, m) && Aligned(long, n)
    requires HasPrefix(addr, short, m) && HasPrefix(addr, long, n)
    ensures forall other: Word :: HasPrefix(other, long, n) ==> HasPrefix(other, short, m)
  {
    MatchesByBits(addr, short, m);
    MatchesByBits(addr, long, n);
    forall other: Word | HasPrefix(other, long, n) ensures HasPrefix(other, short, m) {
      MatchesByBits(other, long, n);
      MatchesByBits(other, short, m);
      assert forall i :: 32 - m <= i < 32 ==> other[i] == long[i] == addr[i] == short[i];
    }
  }
}
