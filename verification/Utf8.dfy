/** The UTF-8 validation of manifest paths against the grammar of RFC 3629, section 4. */
module Utf8 {

  type Octet = bv8
  type Octets = seq<bv8>

  // ---- the grammar -----------------------------------------------------------------------

  predicate Tail(c: Octet) {
    0x80 <= c <= 0xBF
  }

  /** UTF8-1 to UTF8-4 of the grammar. */
  predicate Char(s: Octets) {
    match |s|
    case 1 => s[0] <= 0x7F
    case 2 => Char2(s[0], s[1])
    case 3 => Char3(s[0], s[1], s[2])
    case 4 => Char4(s[0], s[1], s[2], s[3])
    case _ => false
  }

  predicate Char2(a: Octet, b: Octet) {
    0xC2 <= a <= 0xDF && Tail(b)
  }

  predicate Char3(a: Octet, b: Octet, c: Octet) {
    || (a == 0xE0 && 0xA0 <= b <= 0xBF && Tail(c))
    || (0xE1 <= a <= 0xEC && Tail(b) && Tail(c))
    || (a == 0xED && 0x80 <= b <= 0x9F && Tail(c))
    || (0xEE <= a <= 0xEF && Tail(b) && Tail(c))
  }

  predicate Char4(a: Octet, b: Octet, c: Octet, d: Octet) {
    || (a == 0xF0 && 0x90 <= b <= 0xBF && Tail(c) && Tail(d))
    || (0xF1 <= a <= 0xF3 && Tail(b) && Tail(c) && Tail(d))
    || (a == 0xF4 && 0x80 <= b <= 0x8F && Tail(c) && Tail(d))
  }

  /** A sequence of characters. */
  ghost predicate Text(s: Octets)
    decreases |s|
  {
    s == [] || exists n | 1 <= n <= |s| :: Char(s[..n]) && Text(s[n..])
  }

  // ---- the code ----------------------------------------------------------------------------

  /** The length a leading octet announces; none for octets that cannot lead. */
  function Announced(c: Octet): (n: nat)
    ensures n <= 4
  {
    if c < 0x80 then 1
    else if c & 0xE0 == 0xC0 then (if c < 0xC2 then 0 else 2)
    else if c & 0xF0 == 0xE0 then 3
    else if c & 0xF8 == 0xF0 then (if c > 0xF4 then 0 else 4)
    else 0
  }

  function LeadBits(c: Octet): bv32 {
    if c & 0xE0 == 0xC0 then (c & 0x1F) as bv32
    else if c & 0xF0 == 0xE0 then (c & 0x0F) as bv32
    else (c & 0x07) as bv32
  }

  predicate Continues(c: Octet) {
    c & 0xC0 == 0x80
  }

  function Shifted(cp: bv32, c: Octet): bv32 {
    (cp << 6) | ((c & 0x3F) as bv32)
  }

  predicate CodeOk(len: nat, cp: bv32) {
    && !(len == 3 && cp < 0x800)
    && !(len == 4 && cp < 0x10000)
    && !(cp > 0x10FFFF)
    && !(0xD800 <= cp <= 0xDFFF)
  }

  lemma Two(a: Octet, b: Octet)
    ensures Char2(a, b) <==>
              Announced(a) == 2 && Continues(b) && CodeOk(2, Shifted(LeadBits(a), b))
  {}

  lemma Three(a: Octet, b: Octet, c: Octet)
    ensures Char3(a, b, c) <==>
              Announced(a) == 3 && Continues(b) && Continues(c)
              && CodeOk(3, Shifted(Shifted(LeadBits(a), b), c))
  {}

  lemma Four(a: Octet, b: Octet, c: Octet, d: Octet)
    ensures Char4(a, b, c, d) <==>
              Announced(a) == 4 && Continues(b) && Continues(c) && Continues(d)
              && CodeOk(4, Shifted(Shifted(Shifted(LeadBits(a), b), c), d))
  {}

  /** The code point after the continuation octets, if they all are ones. */
  function Folded(cp: bv32, s: Octets): bv32 {
    if s == [] then cp else Shifted(Folded(cp, s[..|s| - 1]), s[|s| - 1])
  }

  predicate AllContinue(s: Octets) {
    forall k | 0 <= k < |s| :: Continues(s[k])
  }

  /** A multi-octet character as the code sees it. */
  predicate Seen(s: Octets)
    requires s != []
  {
    && |s| == Announced(s[0])
    && (|s| > 1 ==> AllContinue(s[1..]) && CodeOk(|s|, Folded(LeadBits(s[0]), s[1..])))
  }

  lemma FoldedTwo(cp: bv32, b: Octet)
    ensures Folded(cp, [b]) == Shifted(cp, b)
  {
    assert [b][..0] == [];
  }

  lemma FoldedThree(cp: bv32, b: Octet, c: Octet)
    ensures Folded(cp, [b, c]) == Shifted(Shifted(cp, b), c)
  {
    assert [b, c][..1] == [b];
    FoldedTwo(cp, b);
  }

  lemma FoldedFour(cp: bv32, b: Octet, c: Octet, d: Octet)
    ensures Folded(cp, [b, c, d]) == Shifted(Shifted(Shifted(cp, b), c), d)
  {
    assert [b, c, d][..2] == [b, c];
    FoldedThree(cp, b, c);
  }

  lemma Lead(a: Octet)
    ensures Announced(a) == 1 <==> a <= 0x7F
  {}

  /** Masks, shifts and range checks accept exactly the characters of the grammar. */
  lemma SeenIsChar(s: Octets)
    requires s != []
    ensures Seen(s) <==> Char(s)
  {
    hide Announced, LeadBits, Continues, Shifted, CodeOk, Char2, Char3, Char4, Folded;
    Lead(s[0]);
    match |s| {
      case 2 =>
        assert s[1..] == [s[1]];
        FoldedTwo(LeadBits(s[0]), s[1]);
        Two(s[0], s[1]);
      case 3 =>
        assert s[1..] == [s[1], s[2]];
        FoldedThree(LeadBits(s[0]), s[1], s[2]);
        Three(s[0], s[1], s[2]);
      case 4 =>
        assert s[1..] == [s[1], s[2], s[3]];
        FoldedFour(LeadBits(s[0]), s[1], s[2], s[3]);
        Four(s[0], s[1], s[2], s[3]);
      case _ =>
    }
  }

  /** A text can be cut off only after the length its first octet announces. */
  lemma TextByFirst(s: Octets)
    requires s != []
    ensures var n := Announced(s[0]);
            Text(s) <==> 1 <= n <= |s| && Char(s[..n]) && Text(s[n..])
  {
    hide Announced, Char;
    var m := Announced(s[0]);
    if Text(s) {
      var n :| 1 <= n <= |s| && Char(s[..n]) && Text(s[n..]);
      SeenIsChar(s[..n]);
      assert s[..n][0] == s[0];
    }
  }

  /** The continuation octets of the character at `i`. */
  method Continuation(s: Octets, i: nat, len: nat) returns (ok: bool, cp: bv32)
    requires 2 <= len && i + len <= |s|
    ensures ok <==> AllContinue(s[i..i + len][1..])
    ensures ok ==> cp == Folded(LeadBits(s[i]), s[i..i + len][1..])
  {
    hide LeadBits, Continues, Shifted;
    ghost var rest := s[i..i + len][1..];
    cp := LeadBits(s[i]);
    ok := true;
    var k := 1;
    while k < len
      invariant 1 <= k <= len
      invariant AllContinue(rest[..k - 1])
      invariant cp == Folded(LeadBits(s[i]), rest[..k - 1])
    {
      assert rest[k - 1] == s[i + k];
      if !Continues(s[i + k]) {
        return false, cp;
      }
      cp := Shifted(cp, s[i + k]);
      assert rest[..k][..k - 1] == rest[..k - 1];
      k := k + 1;
    }
    assert rest[..len - 1] == rest;
  }

  method ValidUtf8(s: Octets) returns (ok: bool)
    ensures ok <==> Text(s)
  {
    hide Announced, LeadBits, CodeOk, AllContinue, Folded, Char, Text;
    var i := 0;
    assert s[0..] == s;
    while i < |s|
      invariant i <= |s|
      invariant Text(s) <==> Text(s[i..])
      decreases |s| - i
    {
      ghost var rest := s[i..];
      TextByFirst(rest);
      var len := Announced(s[i]);
      if len == 0 || i + len > |s| { return false; }
      assert rest[..len] == s[i..i + len] && rest[len..] == s[i + len..];
      SeenIsChar(rest[..len]);
      if len > 1 {
        var tails, cp := Continuation(s, i, len);
        if !tails || !CodeOk(len, cp) { return false; }
      }
      i := i + len;
    }
    assert s[i..] == [];
    EmptyText();
    return true;
  }

  lemma EmptyText()
    ensures Text([])
  {}
}
