/** The gateway's recogniser of client addresses, and the grammar it recognises: dotted quads without leading zeros and
    the text forms of section 2.2 of RFC 4291. */
module IpLiteral {
  import opened Outcomes

  // ---- splitting and joining ----

  function Split(s: string, c: char): (parts: seq<string>)
    ensures parts != []
  {
    if s == "" then [""]
    else
      var rest := Split(s[1..], c);
      if s[0] == c then [""] + rest else [[s[0]] + rest[0]] + rest[1..]
  }

  function Join(parts: seq<string>, c: char): string {
    if parts == [] then ""
    else if |parts| == 1 then parts[0]
    else parts[0] + [c] + Join(parts[1..], c)
  }

  /** Split at "::", scanning from the left without overlaps. */
  function SplitDouble(s: string): (halves: seq<string>)
    ensures halves != []
  {
    if |s| < 2 then [s]
    else if s[0] == ':' && s[1] == ':' then [""] + SplitDouble(s[2..])
    else
      var rest := SplitDouble(s[1..]);
      [[s[0]] + rest[0]] + rest[1..]
  }

  /** The index after the last colon. */
  function Boundary(s: string): (k: nat)
    ensures k <= |s|
    ensures forall i :: k <= i < |s| ==> s[i] != ':'
    ensures k > 0 ==> s[k - 1] == ':'
  {
    if s == "" then 0 else if s[|s| - 1] == ':' then |s| else Boundary(s[..|s| - 1])
  }

  // ---- the recogniser ----

  predicate IsDigit(c: char) {
    '0' <= c <= '9'
  }

  predicate IsHexDigit(c: char) {
    IsDigit(c) || 'a' <= c <= 'f' || 'A' <= c <= 'F'
  }

  predicate IsHexGroup(s: string) {
    1 <= |s| <= 4 && forall i :: 0 <= i < |s| ==> IsHexDigit(s[i])
  }

  predicate AllHex(parts: seq<string>) {
    forall i :: 0 <= i < |parts| ==> IsHexGroup(parts[i])
  }

  predicate AllDigits(s: string) {
    forall i :: 0 <= i < |s| ==> IsDigit(s[i])
  }

  function DigitValue(c: char): nat
    requires IsDigit(c)
  {
    c as int - '0' as int
  }

  function Value(s: string): nat
    requires AllDigits(s)
  {
    if s == "" then 0
    else
      assert IsDigit(s[|s| - 1]);
      Value(s[..|s| - 1]) * 10 + DigitValue(s[|s| - 1])
  }

  predicate IsOctet(s: string) {
    && 1 <= |s| <= 3
    && AllDigits(s)
    && (s[0] == '0' ==> |s| == 1)
    && Value(s) <= 255
  }

  predicate IsIpv4(s: string) {
    var octets := Split(s, '.');
    |octets| == 4 && forall i :: 0 <= i < 4 ==> IsOctet(octets[i])
  }

  function Groups(half: string): seq<string> {
    if half == "" then [] else Split(half, ':')
  }

  predicate IsHexAddress(address: string) {
    var halves := SplitDouble(address);
    |halves| <= 2 &&
    var groups := if |halves| == 1 then Groups(halves[0]) else Groups(halves[0]) + Groups(halves[1]);
    AllHex(groups) && if |halves| == 2 then |groups| < 8 else |groups| == 8
  }

  predicate IsIpLiteral(s: string) {
    if ':' !in s then IsIpv4(s)
    else if |s| > 45 then false
    else if '.' in s then
      var k := Boundary(s);
      IsIpv4(s[k..]) && IsHexAddress(s[..k] + "0:0")
    else IsHexAddress(s)
  }

  // ---- the grammar ----

  function Digit(d: nat): char
    requires d < 10
  {
    ('0' as int + d) as char
  }

  /** A number in decimal. */
  function Decimal(n: nat): string {
    if n < 10 then [Digit(n)] else Decimal(n / 10) + [Digit(n % 10)]
  }

  ghost predicate Ipv4Text(s: string) {
    exists a: nat, b: nat, c: nat, d: nat :: a <= 255 && b <= 255 && c <= 255 && d <= 255 && s == QuadText(a, b, c, d)
  }

  function QuadText(a: nat, b: nat, c: nat, d: nat): string {
    Decimal(a) + "." + Decimal(b) + "." + Decimal(c) + "." + Decimal(d)
  }

  /** The optional dotted quad that stands for the last two groups. */
  function Tail(q: Option<string>): seq<string> {
    if q.Some? then [q.value] else []
  }

  function GroupsOf(q: Option<string>): nat {
    if q.Some? then 2 else 0
  }

  /** Eight groups, or "::" for one or more groups of zeros, with the last two groups possibly as a dotted quad. */
  ghost predicate Ipv6Form(s: string, left: seq<string>, right: seq<string>, q: Option<string>, compressed: bool) {
    && AllHex(left) && AllHex(right) && (q.Some? ==> Ipv4Text(q.value))
    && if compressed
       then s == Join(left, ':') + "::" + Join(right + Tail(q), ':') && |left| + |right| + GroupsOf(q) <= 7
       else right == [] && s == Join(left + Tail(q), ':') && |left| + GroupsOf(q) == 8
  }

  ghost predicate Ipv6Text(s: string) {
    exists left, right, q, compressed :: Ipv6Form(s, left, right, q, compressed)
  }

  // ---- octets ----

  /** Decimals are digit strings without a leading zero, and denote their number. */
  lemma {:induction false} DecimalIsCanonical(n: nat)
    ensures Decimal(n) != "" && AllDigits(Decimal(n)) && Value(Decimal(n)) == n
    ensures Decimal(n)[0] == '0' ==> n == 0
    decreases n
  {
    if n < 10 {
      assert Decimal(n)[..0] == [];
    } else {
      DecimalIsCanonical(n / 10);
      assert Decimal(n)[..|Decimal(n)| - 1] == Decimal(n / 10);
    }
  }

  lemma DecimalLength(n: nat)
    ensures n < 10 ==> |Decimal(n)| == 1
    ensures 10 <= n < 100 ==> |Decimal(n)| == 2
    ensures 100 <= n < 1000 ==> |Decimal(n)| == 3
  {
  }

  lemma DecimalIsOctet(n: nat)
    requires n <= 255
    ensures IsOctet(Decimal(n))
  {
    DecimalIsCanonical(n);
    DecimalLength(n);
  }

  /** A canonical digit string is the decimal of its value. */
  lemma {:induction false} OctetIsDecimal(s: string)
    requires 1 <= |s| && AllDigits(s) && (s[0] == '0' ==> |s| == 1)
    ensures Decimal(Value(s)) == s && (|s| > 1 ==> Value(s) >= 10) && (s[0] != '0' ==> Value(s) > 0)
    decreases |s|
  {
    var front := s[..|s| - 1];
    if |s| == 1 {
      assert front == [];
    } else {
      OctetIsDecimal(front);
      assert Value(s) / 10 == Value(front) && Value(s) % 10 == DigitValue(s[|s| - 1]);
    }
  }

  // ---- splitting undoes joining ----

  ghost predicate Free(parts: seq<string>, c: char) {
    forall i :: 0 <= i < |parts| ==> c !in parts[i]
  }

  lemma JoinPrepend(x: char, parts: seq<string>, c: char)
    requires parts != []
    ensures Join([[x] + parts[0]] + parts[1..], c) == [x] + Join(parts, c)
    ensures Join([""] + parts, c) == [c] + Join(parts, c)
  {
  }

  lemma {:induction false} JoinOfSplit(s: string, c: char)
    ensures Join(Split(s, c), c) == s && Free(Split(s, c), c)
    decreases |s|
  {
    if s != "" {
      JoinOfSplit(s[1..], c);
      JoinPrepend(s[0], Split(s[1..], c), c);
    }
  }

  lemma {:induction false} SplitWhole(p: string, c: char)
    requires c !in p
    ensures Split(p, c) == [p]
    decreases |p|
  {
    if p != "" {
      SplitWhole(p[1..], c);
      assert [p[0]] + p[1..] == p;
    }
  }

  lemma {:induction false} SplitHead(p: string, rest: string, c: char)
    requires c !in p
    ensures Split(p + [c] + rest, c) == [p] + Split(rest, c)
    decreases |p|
  {
    var s := p + [c] + rest;
    if p == "" {
      assert s[1..] == rest;
    } else {
      SplitHead(p[1..], rest, c);
      assert s[1..] == p[1..] + [c] + rest;
      assert [p[0]] + p[1..] == p;
    }
  }

  lemma {:induction false} SplitOfJoin(parts: seq<string>, c: char)
    requires parts != [] && Free(parts, c)
    ensures Split(Join(parts, c), c) == parts
    decreases |parts|
  {
    if |parts| == 1 {
      SplitWhole(parts[0], c);
    } else {
      SplitOfJoin(parts[1..], c);
      SplitHead(parts[0], Join(parts[1..], c), c);
    }
  }

  // ---- dotted quads ----

  lemma JoinFour(p: seq<string>)
    requires |p| == 4
    ensures Join(p, '.') == p[0] + "." + p[1] + "." + p[2] + "." + p[3]
  {
    assert p[1..][1..][1..] == [p[3]] && p[1..][1..] == [p[2], p[3]];
    assert Join(p[1..][1..], '.') == p[2] + "." + p[3];
  }

  lemma OctetShape(s: string)
    requires IsOctet(s)
    ensures '.' !in s && ':' !in s && |s| <= 3
  {
  }

  lemma Ipv4HasQuad(s: string)
    requires IsIpv4(s)
    ensures Ipv4Text(s)
  {
    var o := Split(s, '.');
    JoinOfSplit(s, '.');
    JoinFour(o);
    forall i | 0 <= i < 4 ensures Value(o[i]) <= 255 && Decimal(Value(o[i])) == o[i] {
      OctetIsDecimal(o[i]);
    }
    assert s == QuadText(Value(o[0]), Value(o[1]), Value(o[2]), Value(o[3]));
  }

  lemma QuadIsIpv4(a: nat, b: nat, c: nat, d: nat)
    requires a <= 255 && b <= 255 && c <= 255 && d <= 255
    ensures IsIpv4(QuadText(a, b, c, d))
    ensures var s := QuadText(a, b, c, d); ':' !in s && '.' in s && |s| <= 15
  {
    var o := [Decimal(a), Decimal(b), Decimal(c), Decimal(d)];
    forall n: nat | n <= 255 ensures IsOctet(Decimal(n)) {
      DecimalIsOctet(n);
    }
    assert forall i :: 0 <= i < 4 ==> IsOctet(o[i]);
    forall i | 0 <= i < 4 ensures '.' !in o[i] && ':' !in o[i] && |o[i]| <= 3 {
      OctetShape(o[i]);
    }
    JoinFour(o);
    SplitOfJoin(o, '.');
    assert o[0] == Decimal(a) && o[1] == Decimal(b) && o[2] == Decimal(c) && o[3] == Decimal(d);
    assert QuadText(a, b, c, d)[|Decimal(a)|] == '.';
  }

  lemma Ipv4IsQuad(s: string)
    ensures IsIpv4(s) <==> Ipv4Text(s)
    ensures Ipv4Text(s) ==> ':' !in s && '.' in s && |s| <= 15
  {
    if IsIpv4(s) {
      Ipv4HasQuad(s);
    }
    if Ipv4Text(s) {
      var a: nat, b: nat, c: nat, d: nat :| a <= 255 && b <= 255 && c <= 255 && d <= 255 && s == QuadText(a, b, c, d);
      QuadIsIpv4(a, b, c, d);
    }
  }

  // ---- hexadecimal addresses ----

  lemma HexFree(parts: seq<string>)
    requires AllHex(parts)
    ensures Free(parts, ':') && Free(parts, '.')
  {
  }

  /** No two colons stand next to each other, and none stands at the end. */
  ghost predicate Single(s: string) {
    (forall i :: 0 <= i < |s| - 1 ==> !(s[i] == ':' && s[i + 1] == ':')) && (s != "" ==> s[|s| - 1] != ':')
  }

  lemma {:induction false} JoinIsSingle(parts: seq<string>)
    requires AllHex(parts)
    ensures Single(Join(parts, ':'))
    ensures Join(parts, ':') == "" <==> parts == []
    decreases |parts|
  {
    if |parts| > 1 {
      JoinIsSingle(parts[1..]);
      JoinStartsInside(parts[1..]);
    }
  }

  lemma JoinStartsInside(parts: seq<string>)
    requires AllHex(parts) && parts != []
    ensures Join(parts, ':') != "" && Join(parts, ':')[0] != ':'
  {
  }

  lemma {:induction false} SplitDoubleWhole(s: string)
    requires Single(s)
    ensures SplitDouble(s) == [s]
    decreases |s|
  {
    if |s| >= 2 {
      SplitDoubleWhole(s[1..]);
      assert [s[0]] + s[1..] == s;
    }
  }

  lemma {:induction false} SplitDoubleAt(a: string, b: string)
    requires Single(a) && Single(b)
    ensures SplitDouble(a + "::" + b) == [a, b]
    decreases |a|
  {
    var s := a + "::" + b;
    if a == "" {
      assert s[2..] == b;
      SplitDoubleWhole(b);
    } else {
      assert s[1..] == a[1..] + "::" + b;
      SplitDoubleAt(a[1..], b);
      assert [a[0]] + a[1..] == a;
      assert !(s[0] == ':' && s[1] == ':');
    }
  }

  /** The halves, put back together. */
  lemma {:induction false} SplitDoubleParts(s: string)
    ensures |SplitDouble(s)| == 1 ==> SplitDouble(s) == [s]
    ensures |SplitDouble(s)| == 2 ==> s == SplitDouble(s)[0] + "::" + SplitDouble(s)[1]
    decreases |s|
  {
    if |s| >= 2 {
      if s[0] == ':' && s[1] == ':' {
        SplitDoubleParts(s[2..]);
        assert s == "::" + s[2..];
      } else {
        SplitDoubleParts(s[1..]);
        assert s == [s[0]] + s[1..];
      }
    }
  }

  lemma GroupsOfJoin(parts: seq<string>)
    requires AllHex(parts)
    ensures Groups(Join(parts, ':')) == parts
  {
    JoinIsSingle(parts);
    if parts != [] {
      HexFree(parts);
      SplitOfJoin(parts, ':');
    }
  }

  lemma JoinOfGroups(half: string)
    ensures Join(Groups(half), ':') == half
  {
    JoinOfSplit(half, ':');
  }

  ghost predicate HexForm(s: string, left: seq<string>, right: seq<string>, compressed: bool) {
    && AllHex(left) && AllHex(right)
    && if compressed then s == Join(left, ':') + "::" + Join(right, ':') && |left| + |right| <= 7
       else right == [] && s == Join(left, ':') && |left| == 8
  }

  lemma HexFormIsAccepted(s: string, left: seq<string>, right: seq<string>, compressed: bool)
    requires HexForm(s, left, right, compressed)
    ensures IsHexAddress(s)
  {
    JoinIsSingle(left);
    JoinIsSingle(right);
    GroupsOfJoin(left);
    GroupsOfJoin(right);
    if compressed {
      SplitDoubleAt(Join(left, ':'), Join(right, ':'));
    } else {
      SplitDoubleWhole(s);
    }
  }

  lemma AllHexParts(a: seq<string>, b: seq<string>)
    requires AllHex(a + b)
    ensures AllHex(a) && AllHex(b)
  {
    assert forall i :: 0 <= i < |a| ==> (a + b)[i] == a[i];
    assert forall i :: 0 <= i < |b| ==> (a + b)[|a| + i] == b[i];
  }

  lemma AcceptedHasHexForm(s: string) returns (left: seq<string>, right: seq<string>, compressed: bool)
    requires IsHexAddress(s)
    ensures HexForm(s, left, right, compressed)
  {
    SplitDoubleParts(s);
    var halves := SplitDouble(s);
    left, right, compressed := Groups(halves[0]), [], |halves| == 2;
    JoinOfGroups(halves[0]);
    if compressed {
      right := Groups(halves[1]);
      JoinOfGroups(halves[1]);
      AllHexParts(left, right);
    }
  }

  // ---- the dotted tail ----

  /** The text of some groups before a last part. */
  function Lead(parts: seq<string>): string {
    if parts == [] then "" else Join(parts, ':') + ":"
  }

  lemma {:induction false} JoinAppend(parts: seq<string>, x: string)
    ensures Join(parts + [x], ':') == Lead(parts) + x
    decreases |parts|
  {
    if |parts| == 1 {
      assert (parts + [x])[1..] == [x];
    } else if |parts| > 1 {
      JoinAppend(parts[1..], x);
      assert (parts + [x])[1..] == parts[1..] + [x];
    }
  }

  lemma LeadAppend(parts: seq<string>, x: string, y: string)
    ensures Join(parts + [x, y], ':') == Lead(parts) + x + ":" + y
  {
    JoinAppend(parts, x);
    JoinAppend(parts + [x], y);
    assert parts + [x, y] == parts + [x] + [y];
  }

  predicate EndsInColon(s: string) {
    s != "" && s[|s| - 1] == ':'
  }

  lemma BoundaryOf(p: string, q: string)
    requires EndsInColon(p) && ':' !in q
    ensures Boundary(p + q) == |p|
  {
    var s := p + q;
    assert s[|p| - 1] == ':';
    forall i | |p| <= i < |s| ensures s[i] != ':' {
      assert s[i] == q[i - |p|];
    }
  }

  lemma UniqueTail(u: string, v: string, x: string, y: string)
    requires u + v == x + y && ':' !in v && ':' !in y && EndsInColon(u) && EndsInColon(x)
    ensures u == x && v == y
  {
    BoundaryOf(u, v);
    BoundaryOf(x, y);
    var s := u + v;
    assert u == s[..|u|] && v == s[|u|..];
  }

  /** Two parts before the end of a text pin down what comes before them. */
  lemma SameLead(base: string, x: string, y: string, p: string)
    requires EndsInColon(base) && EndsInColon(p) && ':' !in x && ':' !in y
    requires base + x + ":" + y == p + "0:0"
    ensures base == p
  {
    assert base + x + ":" + y == (base + x + ":") + y;
    assert p + "0:0" == (p + "0:") + "0";
    UniqueTail(base + x + ":", y, p + "0:", "0");
    assert base + x == (base + x + ":")[..|base + x|] && p + "0" == (p + "0:")[..|p| + 1];
    UniqueTail(base, x, p, "0");
  }

  lemma LastTwoOfEight(p: string, left: seq<string>)
    requires EndsInColon(p) && AllHex(left) && |left| == 8 && p + "0:0" == Join(left, ':')
    ensures p == Lead(left[..6])
  {
    HexFree(left);
    assert left == left[..6] + [left[6], left[7]];
    LeadAppend(left[..6], left[6], left[7]);
    SameLead(Lead(left[..6]), left[6], left[7], p);
  }

  lemma Associates(base: string, lead: string, x: string, y: string)
    ensures base + (lead + x + ":" + y) == (base + lead) + x + ":" + y
  {
  }

  lemma LeadEnds(base: string, parts: seq<string>)
    requires EndsInColon(base)
    ensures EndsInColon(base + Lead(parts))
  {
  }

  lemma LastTwoAfterGap(p: string, base: string, front: seq<string>, x: string, y: string)
    requires EndsInColon(p) && EndsInColon(base) && ':' !in x && ':' !in y
    requires p + "0:0" == base + Join(front + [x, y], ':')
    ensures p == base + Lead(front)
  {
    LeadAppend(front, x, y);
    Associates(base, Lead(front), x, y);
    LeadEnds(base, front);
    SameLead(base + Lead(front), x, y, p);
  }

  lemma SplitLastTwo(right: seq<string>) returns (front: seq<string>, x: string, y: string)
    requires AllHex(right) && |right| >= 2
    ensures front == right[..|right| - 2] && right == front + [x, y] && ':' !in x && ':' !in y
  {
    HexFree(right);
    front, x, y := right[..|right| - 2], right[|right| - 2], right[|right| - 1];
  }

  /** A hexadecimal address that ends in ":0:0" has those as its last two groups. */
  lemma LastTwoGroups(p: string, left: seq<string>, right: seq<string>, compressed: bool)
    requires EndsInColon(p) && HexForm(p + "0:0", left, right, compressed)
    ensures compressed ==> |right| >= 2 && p == Join(left, ':') + "::" + Lead(right[..|right| - 2])
    ensures !compressed ==> p == Lead(left[..6])
  {
    if compressed {
      AtLeastTwoGroups(p, left, right);
      var front, x, y := SplitLastTwo(right);
      LastTwoAfterGap(p, Join(left, ':') + "::", front, x, y);
    } else {
      LastTwoOfEight(p, left);
    }
  }

  lemma AtLeastTwoGroups(p: string, left: seq<string>, right: seq<string>)
    requires EndsInColon(p) && HexForm(p + "0:0", left, right, true)
    ensures |right| >= 2
  {
    var base, s := Join(left, ':') + "::", p + "0:0";
    assert s[|s| - 1] == '0' && base[|base| - 1] == ':' && base[|base| - 2] == ':' && (p + "0:")[|p|] == '0';
    assert base + "" == base;
    if right == [] {
      assert false;
    } else if |right| == 1 {
      HexFree(right);
      assert s == base + right[0] && s == (p + "0:") + "0";
      UniqueTail(base, right[0], p + "0:", "0");
      assert false;
    }
  }

  // ---- the recogniser is the grammar ----

  lemma HexIsForm(s: string)
    requires '.' !in s && ':' in s
    ensures IsHexAddress(s) <==> Ipv6Text(s)
  {
    if IsHexAddress(s) {
      var left, right, compressed := AcceptedHasHexForm(s);
      assert right + Tail(None) == right && left + Tail(None) == left;
      assert Ipv6Form(s, left, right, None, compressed);
    }
    if Ipv6Text(s) {
      var left, right, q, compressed :| Ipv6Form(s, left, right, q, compressed);
      if q.Some? {
        DottedHasDot(s, left, right, q.value, compressed);
        assert false;
      }
      assert right + Tail(None) == right && left + Tail(None) == left;
      HexFormIsAccepted(s, left, right, compressed);
    }
  }

  /** Where the dotted tail of a text starts. */
  function Prefix(left: seq<string>, right: seq<string>, compressed: bool): string {
    if compressed then Join(left, ':') + "::" + Lead(right) else Lead(left)
  }

  lemma FullPrefix(left: seq<string>, q: string)
    requires |left| == 6
    ensures Join(left + [q], ':') == Prefix(left, [], false) + q && EndsInColon(Prefix(left, [], false))
  {
    JoinAppend(left, q);
  }

  lemma CompressedPrefix(left: seq<string>, right: seq<string>, q: string)
    ensures Join(left, ':') + "::" + Join(right + [q], ':') == Prefix(left, right, true) + q
    ensures EndsInColon(Prefix(left, right, true))
  {
    JoinAppend(right, q);
    assert Join(left, ':') + "::" + (Lead(right) + q) == (Join(left, ':') + "::" + Lead(right)) + q;
  }

  lemma DottedPrefix(s: string, left: seq<string>, right: seq<string>, q: string, compressed: bool)
    requires Ipv6Form(s, left, right, Some(q), compressed)
    ensures s == Prefix(left, right, compressed) + q && EndsInColon(Prefix(left, right, compressed))
  {
    if compressed {
      CompressedPrefix(left, right, q);
    } else {
      FullPrefix(left, q);
    }
  }

  lemma DottedHasDot(s: string, left: seq<string>, right: seq<string>, q: string, compressed: bool)
    requires Ipv6Form(s, left, right, Some(q), compressed)
    ensures '.' in s
  {
    DottedPrefix(s, left, right, q, compressed);
    Ipv4IsQuad(q);
    var i :| 0 <= i < |q| && q[i] == '.';
    assert s[|Prefix(left, right, compressed)| + i] == '.';
  }

  /** Without a dotted tail there is no dot. */
  lemma {:induction false} HexHasNoDot(parts: seq<string>)
    requires AllHex(parts)
    ensures '.' !in Join(parts, ':')
    decreases |parts|
  {
    if |parts| > 1 {
      HexHasNoDot(parts[1..]);
    }
  }

  /** Replacing the dotted tail by two groups of zeros gives an accepted hexadecimal address. */
  lemma PrefixIsAccepted(left: seq<string>, right: seq<string>, compressed: bool)
    requires AllHex(left) && AllHex(right)
    requires if compressed then |left| + |right| <= 5 else right == [] && |left| == 6
    ensures IsHexAddress(Prefix(left, right, compressed) + "0:0")
  {
    var zeros := ["0", "0"];
    assert AllHex(zeros);
    if compressed {
      LeadAppend(right, "0", "0");
      var s := Join(left, ':') + "::" + Join(right + zeros, ':');
      assert s == Prefix(left, right, true) + "0:0";
      HexFormIsAccepted(s, left, right + zeros, true);
    } else {
      LeadAppend(left, "0", "0");
      assert Join(left + zeros, ':') == Prefix(left, [], false) + "0:0";
      HexFormIsAccepted(Join(left + zeros, ':'), left + zeros, [], false);
    }
  }

  lemma DottedIsAccepted(s: string, left: seq<string>, right: seq<string>, q: string, compressed: bool)
    requires Ipv6Form(s, left, right, Some(q), compressed)
    ensures var k := Boundary(s); IsIpv4(s[k..]) && IsHexAddress(s[..k] + "0:0")
  {
    var p := Prefix(left, right, compressed);
    DottedPrefix(s, left, right, q, compressed);
    Ipv4IsQuad(q);
    BoundaryOf(p, q);
    assert s[|p|..] == q && s[..|p|] == p;
    PrefixIsAccepted(left, right, compressed);
  }

  /** A text whose dotted tail stands where an accepted address has its last two groups is grammatical. */
  lemma PrefixIsForm(left: seq<string>, right: seq<string>, q: string, compressed: bool)
    requires AllHex(left) && AllHex(right) && Ipv4Text(q)
    requires if compressed then |left| + |right| <= 5 else right == [] && |left| == 6
    ensures Ipv6Text(Prefix(left, right, compressed) + q)
  {
    if compressed {
      CompressedPrefix(left, right, q);
    } else {
      FullPrefix(left, q);
    }
    assert Ipv6Form(Prefix(left, right, compressed) + q, left, right, Some(q), compressed);
  }

  lemma AcceptedTail(p: string, q: string)
    requires EndsInColon(p) && Ipv4Text(q) && IsHexAddress(p + "0:0")
    ensures Ipv6Text(p + q)
  {
    var left, right, compressed := AcceptedHasHexForm(p + "0:0");
    LastTwoGroups(p, left, right, compressed);
    if compressed {
      PrefixIsForm(left, right[..|right| - 2], q, true);
    } else {
      PrefixIsForm(left[..6], [], q, false);
    }
  }

  lemma AcceptedParts(p: string, q: string)
    requires EndsInColon(p) && IsIpv4(q) && IsHexAddress(p + "0:0")
    ensures Ipv6Text(p + q)
  {
    Ipv4IsQuad(q);
    AcceptedTail(p, q);
  }

  lemma Rejoin(s: string, k: nat)
    requires k <= |s|
    ensures s[..k] + s[k..] == s
  {
  }

  lemma AcceptedDotted(s: string)
    requires ':' in s
    requires var k := Boundary(s); IsIpv4(s[k..]) && IsHexAddress(s[..k] + "0:0")
    ensures Ipv6Text(s)
  {
    var k := Boundary(s);
    Rejoin(s, k);
    AcceptedParts(s[..k], s[k..]);
  }

  // ---- lengths ----

  lemma {:induction false} JoinLength(parts: seq<string>)
    requires AllHex(parts)
    ensures |Lead(parts)| <= 5 * |parts|
    ensures parts != [] ==> |Join(parts, ':')| <= 5 * |parts| - 1
    decreases |parts|
  {
    if |parts| == 1 {
      assert IsHexGroup(parts[0]);
    } else if parts != [] {
      assert IsHexGroup(parts[0]);
      JoinLength(parts[1..]);
    }
  }

  /** No grammatical literal is longer than 45 characters. */
  lemma Ipv6Length(s: string)
    requires Ipv6Text(s)
    ensures |s| <= 45
  {
    var left, right, q, compressed :| Ipv6Form(s, left, right, q, compressed);
    JoinLength(left);
    JoinLength(right);
    if q.Some? {
      DottedPrefix(s, left, right, q.value, compressed);
      Ipv4IsQuad(q.value);
    } else {
      assert right + Tail(None) == right && left + Tail(None) == left;
    }
  }

  lemma Ipv6HasColon(s: string)
    requires Ipv6Text(s)
    ensures ':' in s
  {
  }

  /** The characters of a hexadecimal group and of a decimal. */
  lemma HexDigitExact(c: char)
    ensures IsHexDigit(c) <==> c in "0123456789abcdefABCDEF"
    ensures IsDigit(c) <==> c in "0123456789"
  {
    var hex, digits := "0123456789abcdefABCDEF", "0123456789";
    if '0' <= c <= '9' { assert digits[c as int - 48] == c && hex[c as int - 48] == c; }
    if 'a' <= c <= 'f' { assert hex[c as int - 97 + 10] == c; }
    if 'A' <= c <= 'F' { assert hex[c as int - 65 + 16] == c; }
  }

  /** The recogniser accepts exactly the dotted quads and the RFC 4291 texts; its length cap never rejects one. */
  lemma RecogniserIsGrammar(s: string)
    ensures IsIpLiteral(s) <==> Ipv4Text(s) || Ipv6Text(s)
  {
    Ipv4IsQuad(s);
    if Ipv6Text(s) {
      Ipv6HasColon(s);
      Ipv6Length(s);
    }
    if ':' in s {
      if '.' in s {
        DottedExactly(s);
      } else {
        HexIsForm(s);
      }
    }
  }

  lemma DottedExactly(s: string)
    requires ':' in s && '.' in s
    ensures var k := Boundary(s); IsIpv4(s[k..]) && IsHexAddress(s[..k] + "0:0") <==> Ipv6Text(s)
  {
    var k := Boundary(s);
    if IsIpv4(s[k..]) && IsHexAddress(s[..k] + "0:0") {
      AcceptedDotted(s);
    }
    if Ipv6Text(s) {
      var left, right, q, compressed :| Ipv6Form(s, left, right, q, compressed);
      if q.None? {
        assert right + Tail(None) == right && left + Tail(None) == left;
        HexHasNoDot(left);
        HexHasNoDot(right);
        assert false;
      }
      DottedIsAccepted(s, left, right, q.value, compressed);
    }
  }

  /** 45 is the exact maximum. */
  lemma LongestLiteral() returns (s: string)
    ensures Ipv6Text(s) && |s| == 45
  {
    var left := ["ffff", "ffff", "ffff", "ffff", "ffff", "ffff"];
    var q := QuadText(255, 255, 255, 255);
    s := Lead(left) + q;
    JoinAppend(left, q);
    DecimalLength(255);
    assert Ipv4Text(q);
    assert left + Tail(Some(q)) == left + [q];
    assert Ipv6Form(s, left, [], Some(q), false);
    SixGroups(left);
  }

  lemma SixGroups(left: seq<string>)
    requires |left| == 6 && forall i :: 0 <= i < 6 ==> |left[i]| == 4
    ensures |Join(left, ':')| == 29
  {
    var a := left[1..];
    var b := a[1..];
    var c := b[1..];
    var d := c[1..];
    assert |Join(d, ':')| == 9;
    assert |Join(c, ':')| == 14;
    assert |Join(b, ':')| == 19;
    assert |Join(a, ':')| == 24;
  }
}
