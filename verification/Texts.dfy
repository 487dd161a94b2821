/** Strings as sequences of UTF-16 code units, the white space that trimming removes, and the
    joining of chunks. */
module Texts {
  type Text = seq<nat>

  predicate IsSpaceCode(u: int) {
    9 <= u <= 13 || u == 32 || u == 160 || u == 0x1680 || 0x2000 <= u <= 0x200A
    || u == 0x2028 || u == 0x2029 || u == 0x202F || u == 0x205F || u == 0x3000 || u == 0xFEFF
  }

  /** The white space and line terminators of the language the source is written in, one by one. */
  lemma SpaceCodesAre(u: nat)
    ensures IsSpaceCode(u) <==>
              u in [0x9, 0xA, 0xB, 0xC, 0xD, 0x20, 0xA0, 0x1680, 0x2000, 0x2001, 0x2002, 0x2003, 0x2004, 0x2005, 0x2006,
                    0x2007, 0x2008, 0x2009, 0x200A, 0x2028, 0x2029, 0x202F, 0x205F, 0x3000, 0xFEFF]
  {
  }

  function TrimStart(t: Text): Text {
    if t != [] && IsSpaceCode(t[0]) then TrimStart(t[1..]) else t
  }

  function TrimEnd(t: Text): Text {
    if t != [] && IsSpaceCode(t[|t| - 1]) then TrimEnd(t[..|t| - 1]) else t
  }

  function Trim(t: Text): Text {
    TrimEnd(TrimStart(t))
  }

  /** Trimming takes white space from both ends and nothing else: what is left is inside the text, neither starts
      nor ends with white space, and there was only white space around it. */
  lemma {:induction false} TrimStartIs(t: Text) returns (n: nat)
    ensures n <= |t| && TrimStart(t) == t[n..] && forall k :: 0 <= k < n ==> IsSpaceCode(t[k])
    ensures n < |t| ==> !IsSpaceCode(t[n])
  {
    n := 0;
    if t != [] && IsSpaceCode(t[0]) {
      var rest := TrimStartIs(t[1..]);
      n := rest + 1;
    }
  }

  lemma {:induction false} TrimEndIs(t: Text) returns (n: nat)
    ensures n <= |t| && TrimEnd(t) == t[..n] && forall k :: n <= k < |t| ==> IsSpaceCode(t[k])
    ensures n > 0 ==> !IsSpaceCode(t[n - 1])
  {
    n := |t|;
    if t != [] && IsSpaceCode(t[n - 1]) {
      n := TrimEndIs(t[..n - 1]);
    }
  }

  lemma TrimIs(t: Text) returns (first: nat, last: nat)
    ensures first <= last <= |t| && Trim(t) == t[first..last]
    ensures forall k :: 0 <= k < first || last <= k < |t| ==> IsSpaceCode(t[k])
    ensures first < last ==> !IsSpaceCode(t[first]) && !IsSpaceCode(t[last - 1])
  {
    first := TrimStartIs(t);
    var n := TrimEndIs(t[first..]);
    last := first + n;
    assert t[first..][..n] == t[first..last];
    forall k | last <= k < |t| ensures IsSpaceCode(t[k]) { assert t[k] == t[first..][k - first]; }
  }

  lemma TrimIsInside(t: Text)
    ensures forall u :: u in Trim(t) ==> u in t
  {
    var first, last := TrimIs(t);
  }

  lemma TrimIsEmptyIff(t: Text)
    ensures Trim(t) == [] <==> forall k :: 0 <= k < |t| ==> IsSpaceCode(t[k])
  {
    var first, last := TrimIs(t);
  }

  /** Characters of the basic plane, one code unit each. */
  function Codes(s: string): (t: Text)
    ensures |t| == |s|
  {
    seq(|s|, i requires 0 <= i < |s| => s[i] as nat)
  }

  /** The octets of one code point in UTF-8. */
  function CodeOctets(c: nat): (n: nat)
    ensures 1 <= n <= 4
  {
    if c < 0x80 then 1 else if c < 0x800 then 2 else if c < 0x10000 then 3 else 4
  }

  function PowerOfTwo(n: nat): nat {
    if n == 0 then 1 else 2 * PowerOfTwo(n - 1)
  }

  /** The bits that n octets of UTF-8 carry: seven in a single one; otherwise the first carries 7 - n and each of the
      others six. */
  function PayloadBits(n: nat): int {
    if n == 1 then 7 else 7 - n + 6 * (n - 1)
  }

  /** A code point takes the fewest octets that can carry it. */
  lemma FewestOctets(c: nat)
    requires c < 0x110000
    ensures var n := CodeOctets(c);
            && PayloadBits(n) >= 0 && c < PowerOfTwo(PayloadBits(n))
            && (n > 1 ==> PayloadBits(n - 1) >= 0 && PowerOfTwo(PayloadBits(n - 1)) <= c)
  {
    assert PowerOfTwo(4) == 16;
    assert PowerOfTwo(7) == 128;
    assert PowerOfTwo(11) == 0x800 by { assert PowerOfTwo(9) == 512; }
    assert PowerOfTwo(13) == 0x2000;
    assert PowerOfTwo(16) == 0x10000 by { assert PowerOfTwo(15) == 0x8000; }
    assert PowerOfTwo(18) == 0x40000;
    assert PowerOfTwo(21) == 0x200000 by { assert PowerOfTwo(20) == 0x100000; }
  }

  predicate IsSurrogatePair(high: nat, low: nat) {
    0xD800 <= high <= 0xDBFF && 0xDC00 <= low <= 0xDFFF
  }

  /** The bytes of a text in UTF-8; a surrogate without its partner counts as the replacement
      character. */
  function Utf8Length(t: Text): nat {
    if t == [] then 0
    else if |t| > 1 && IsSurrogatePair(t[0], t[1]) then 4 + Utf8Length(t[2..])
    else (if t[0] < 0x80 then 1 else if t[0] < 0x800 then 2 else 3) + Utf8Length(t[1..])
  }

  /** The code point that a pair of surrogates stands for. */
  function PairCode(high: nat, low: nat): nat
    requires IsSurrogatePair(high, low)
  {
    0x10000 + 0x400 * (high - 0xD800) + (low - 0xDC00)
  }

  /** Counting code point by code point, surrogates taken in pairs where they are pairs. */
  lemma Utf8LengthIs(t: Text)
    requires forall k :: 0 <= k < |t| ==> t[k] < 0x10000
    ensures Utf8Length(t) == if t == [] then 0
                             else if |t| > 1 && IsSurrogatePair(t[0], t[1])
                             then CodeOctets(PairCode(t[0], t[1])) + Utf8Length(t[2..])
                             else CodeOctets(t[0]) + Utf8Length(t[1..])
  {
  }

  function Flatten<T>(chunks: seq<seq<T>>): seq<T> {
    if chunks == [] then [] else chunks[0] + Flatten(chunks[1..])
  }
}
