/** The text of an IPv6 address: the printing loop, a reader for the text form of section 2.2 of RFC 4291,
    and the round trip. The reader knows nothing of the printer. */
module Ipv6Text {
  import opened Common

  type Byte = x: int | 0 <= x < 256
  type Group = x: int | 0 <= x < 65536

  // ----- Hexadecimal groups ---------------------------------------------------------------

  const DIGITS := "0123456789abcdef"

  function Digit(d: int): char
    requires 0 <= d < 16
  {
    DIGITS[d]
  }

  function DigitValue(c: char): Option<int> {
    if '0' <= c <= '9' then Some(c as int - '0' as int)
    else if 'a' <= c <= 'f' then Some(c as int - 'a' as int + 10)
    else if 'A' <= c <= 'F' then Some(c as int - 'A' as int + 10)
    else None
  }

  /** A number in hexadecimal without leading zeros. */
  function Hex(n: nat): (s: string)
    ensures s != ""
  {
    if n < 16 then [Digit(n)] else Hex(n / 16) + [Digit(n % 16)]
  }

  function HexValue(s: string): Option<nat> {
    if s == "" then Some(0)
    else
      var n := |s| - 1;
      var high, low := HexValue(s[..n]), DigitValue(s[n]);
      if high == None || low == None || low.value < 0 then None else Some(16 * high.value + low.value)
  }

  lemma DigitRoundTrip(d: int)
    requires 0 <= d < 16
    ensures DigitValue(Digit(d)) == Some(d) && Digit(d) != ':'
  {
  }

  lemma {:induction false} AppendDigit(high: string, d: int)
    requires 0 <= d < 16 && HexValue(high).Some? && ':' !in high
    ensures HexValue(high + [Digit(d)]) == Some(16 * HexValue(high).value + d) && ':' !in high + [Digit(d)]
  {
    DigitRoundTrip(d);
    assert (high + [Digit(d)])[..|high|] == high;
  }

  lemma {:induction false} HexRoundTrip(n: nat)
    ensures HexValue(Hex(n)) == Some(n) && ':' !in Hex(n)
  {
    if n < 16 {
      OneDigit(n);
    } else {
      HexRoundTrip(n / 16);
      AppendDigit(Hex(n / 16), n % 16);
      Quotient(n);
    }
  }

  lemma Quotient(n: nat)
    ensures 16 * (n / 16) + n % 16 == n
  {
  }

  lemma OneDigit(d: int)
    requires 0 <= d < 16
    ensures HexValue([Digit(d)]) == Some(d) && ':' !in [Digit(d)]
  {
    DigitRoundTrip(d);
    assert HexValue([Digit(d)][..0]) == Some(0);
  }

  /** The digits are in lower case, and the first is zero only for zero itself. */
  lemma {:induction false} HexDigits(n: nat)
    ensures forall i :: 0 <= i < |Hex(n)| ==> '0' <= Hex(n)[i] <= '9' || 'a' <= Hex(n)[i] <= 'f'
    ensures n > 0 ==> Hex(n)[0] != '0'
  {
    if n >= 16 {
      HexDigits(n / 16);
    }
  }

  lemma HexLength(n: Group)
    ensures |Hex(n)| <= 4
  {
    var a, b := n / 16, n / 16 / 16;
    assert |Hex(b)| <= 1 + |Hex(b / 16)|;
    assert b < 256 && b / 16 < 16;
    assert |Hex(b / 16)| == 1;
  }

  // ----- The reader -----------------------------------------------------------------------

  predicate DoubleAt(s: string, i: int) {
    0 <= i && i + 1 < |s| && s[i] == ':' && s[i + 1] == ':'
  }

  /** The first position from `i` on where two colons stand together, or the end. */
  function FindDouble(s: string, i: nat): (k: nat)
    requires i <= |s|
    ensures i <= k <= |s|
    decreases |s| - i
  {
    if i == |s| || DoubleAt(s, i) then i else FindDouble(s, i + 1)
  }

  /** The position behind the last colon in the first `n` characters. */
  function AfterColon(s: string, n: nat): (k: nat)
    requires n <= |s|
    ensures k <= n && (forall i :: k <= i < n ==> s[i] != ':') && (k > 0 ==> s[k - 1] == ':')
  {
    if n == 0 || s[n - 1] == ':' then n else AfterColon(s, n - 1)
  }

  function Split(s: string): seq<string>
    decreases |s|
  {
    var k := AfterColon(s, |s|);
    (if k == 0 then [] else Split(s[..k - 1])) + [s[k..]]
  }

  /** The groups between single colons: one to four hexadecimal digits each. */
  function ReadGroups(fields: seq<string>): Option<seq<nat>> {
    if fields == [] then Some([])
    else
      var n := |fields| - 1;
      var front, group := ReadGroups(fields[..n]), HexValue(fields[n]);
      if front == None || group == None || !(1 <= |fields[n]| <= 4) then None else Some(front.value + [group.value])
  }

  function Side(s: string): seq<string> {
    if s == "" then [] else Split(s)
  }

  function Zeros(n: nat): (r: seq<nat>)
    ensures |r| == n
  {
    seq(n, _ => 0)
  }

  /** The eight groups a text stands for; two adjacent colons stand for one or more groups of zeros. */
  function Expand(s: string): Option<seq<nat>> {
    var k := FindDouble(s, 0);
    if k == |s| then
      var gs := ReadGroups(Split(s));
      if gs.Some? && |gs.value| == 8 then gs else None
    else ExpandSides(s[..k], s[if k + 2 <= |s| then k + 2 else |s|..])
  }

  function ExpandSides(before: string, behind: string): Option<seq<nat>> {
    var left, right := ReadGroups(Side(before)), ReadGroups(Side(behind));
    if left == None || right == None || |left.value| + |right.value| > 7 then None
    else Some(left.value + Zeros(8 - |left.value| - |right.value|) + right.value)
  }

  // ----- The printed form -----------------------------------------------------------------

  function Join(gs: seq<Group>): string {
    if gs == [] then ""
    else if |gs| == 1 then Hex(gs[0])
    else Join(gs[..|gs| - 1]) + ":" + Hex(gs[|gs| - 1])
  }

  /** The first zero group from `i` on, or the end. */
  function ZeroFrom(gs: seq<Group>, i: nat): (z: nat)
    requires i <= |gs|
    ensures i <= z <= |gs| && (forall j :: i <= j < z ==> gs[j] != 0) && (z < |gs| ==> gs[z] == 0)
    decreases |gs| - i
  {
    if i == |gs| || gs[i] == 0 then i else ZeroFrom(gs, i + 1)
  }

  function ZerosEnd(gs: seq<Group>, i: nat): (e: nat)
    requires i <= |gs|
    ensures i <= e <= |gs| && (forall j :: i <= j < e ==> gs[j] == 0) && (e < |gs| ==> gs[e] != 0)
    decreases |gs| - i
  {
    if i == |gs| || gs[i] != 0 then i else ZerosEnd(gs, i + 1)
  }

  /** The first run of zeros, however short, is left out. */
  function Form(gs: seq<Group>): string {
    var z := ZeroFrom(gs, 0);
    if z == |gs| then Join(gs) else Join(gs[..z]) + "::" + Join(gs[ZerosEnd(gs, z)..])
  }

  lemma {:induction false} JoinChars(gs: seq<Group>)
    requires gs != []
    ensures var s := Join(gs);
      && s != "" && s[0] != ':' && s[|s| - 1] != ':'
      && (forall i :: !DoubleAt(s, i))
  {
    var n := |gs| - 1;
    HexRoundTrip(gs[n]);
    if n > 0 {
      JoinChars(gs[..n]);
      GlueChars(Join(gs[..n]), Hex(gs[n]));
    }
  }

  lemma GlueChars(a: string, h: string)
    requires a != "" && a[0] != ':' && a[|a| - 1] != ':' && (forall i :: !DoubleAt(a, i)) && h != "" && ':' !in h
    ensures var s := a + ":" + h; s[0] != ':' && s[|s| - 1] != ':' && (forall i :: !DoubleAt(s, i))
  {
    var s := a + ":" + h;
    forall i | 0 <= i && i + 1 < |s| ensures !DoubleAt(s, i) {
      assert !DoubleAt(a, i);
      assert i > |a| ==> s[i] == h[i - |a| - 1];
      assert i + 1 > |a| ==> s[i + 1] == h[i - |a|];
    }
  }

  lemma {:induction false} LastField(front: string, last: string)
    requires ':' !in last
    ensures Split(front + ":" + last) == Split(front) + [last]
  {
    var s := front + ":" + last;
    var k := AfterColon(s, |s|);
    assert s[|front|] == ':';
    assert forall i :: |front| < i < |s| ==> s[i] == last[i - |front| - 1];
    assert k == |front| + 1;
    assert s[..k - 1] == front && s[k..] == last;
  }

  lemma {:induction false} OnlyField(last: string)
    requires ':' !in last
    ensures Split(last) == [last]
  {
    assert AfterColon(last, |last|) == 0;
  }

  lemma {:induction false} ReadJoined(gs: seq<Group>)
    requires gs != []
    ensures ReadGroups(Split(Join(gs))) == Some(gs)
  {
    var n := |gs| - 1;
    var last := Hex(gs[n]);
    HexRoundTrip(gs[n]);
    HexLength(gs[n]);
    assert gs == gs[..n] + [gs[n]];
    if n == 0 {
      OnlyField(last);
      assert ReadGroups([]) == Some([]);
      ReadOneMore([], last);
      assert [] + [last] == [last];
      assert [gs[n]] == gs;
    } else {
      ReadJoined(gs[..n]);
      LastField(Join(gs[..n]), last);
      ReadOneMore(Split(Join(gs[..n])), last);
    }
  }

  lemma {:induction false} ReadOneMore(fields: seq<string>, last: string)
    requires ReadGroups(fields).Some? && HexValue(last).Some? && 1 <= |last| <= 4
    ensures ReadGroups(fields + [last]) == Some(ReadGroups(fields).value + [HexValue(last).value])
  {
    assert (fields + [last])[..|fields|] == fields;
  }

  lemma ReadSide(gs: seq<Group>)
    ensures ReadGroups(Side(Join(gs))) == Some(gs)
  {
    if gs != [] {
      JoinChars(gs);
      ReadJoined(gs);
    }
  }

  lemma {:induction false} FirstDouble(s: string, i: nat, k: nat)
    requires i <= k <= |s| && (k < |s| ==> DoubleAt(s, k)) && (forall j :: i <= j < k ==> !DoubleAt(s, j))
    ensures FindDouble(s, i) == k
    decreases k - i
  {
    if i < k {
      FirstDouble(s, i + 1, k);
    }
  }

  /** In text with a gap, the gap is where the two colons stand and nowhere else. */
  lemma GapAt(a: seq<Group>, b: seq<Group>, i: int)
    ensures DoubleAt(Join(a) + "::" + Join(b), i) <==> i == |Join(a)|
  {
    var x, y := Join(a), Join(b);
    var s := x + "::" + y;
    assert a == [] ==> x == "";
    assert b == [] ==> y == "";
    if a != [] { JoinChars(a); }
    if b != [] { JoinChars(b); }
    if 0 <= i && i + 1 < |s| {
      assert i + 1 < |x| ==> s[i] == x[i] && s[i + 1] == x[i + 1] && !DoubleAt(x, i);
      var j := i - |x| - 2;
      assert j >= 0 ==> s[i] == y[j] && s[i + 1] == y[j + 1] && !DoubleAt(y, j);
    }
  }

  lemma FindGap(a: seq<Group>, b: seq<Group>)
    ensures FindDouble(Join(a) + "::" + Join(b), 0) == |Join(a)|
  {
    var s := Join(a) + "::" + Join(b);
    forall i: int ensures DoubleAt(s, i) <==> i == |Join(a)| {
      GapAt(a, b, i);
    }
    FirstDouble(s, 0, |Join(a)|);
  }

  lemma CutGap(x: string, y: string)
    ensures var s := x + "::" + y; s[..|x|] == x && s[|x| + 2..] == y && |x| + 2 <= |s|
  {
  }

  lemma ExpandGap(a: seq<Group>, n: nat, b: seq<Group>)
    requires n > 0 && |a| + n + |b| == 8
    ensures Expand(Join(a) + "::" + Join(b)) == Some(a + Zeros(n) + b)
  {
    FindGap(a, b);
    CutGap(Join(a), Join(b));
    ExpandRead(a, n, b);
  }

  lemma ExpandRead(a: seq<Group>, n: nat, b: seq<Group>)
    requires n > 0 && |a| + n + |b| == 8
    ensures ExpandSides(Join(a), Join(b)) == Some(a + Zeros(n) + b)
  {
    ReadSide(a);
    ReadSide(b);
    Expanded(Join(a), Join(b), a, n, b);
  }

  lemma {:induction false} Expanded(before: string, behind: string, a: seq<nat>, n: nat, b: seq<nat>)
    requires ReadGroups(Side(before)) == Some(a) && ReadGroups(Side(behind)) == Some(b) && n > 0 && |a| + n + |b| == 8
    ensures ExpandSides(before, behind) == Some(a + Zeros(n) + b)
  {
  }

  lemma ExpandJoin(gs: seq<Group>)
    requires |gs| == 8
    ensures Expand(Join(gs)) == Some(gs)
  {
    JoinChars(gs);
    FirstDouble(Join(gs), 0, |Join(gs)|);
    ReadJoined(gs);
  }

  /** Reading the printed form gives back exactly the eight groups, wherever their zeros are. */
  lemma FormRoundTrip(gs: seq<Group>)
    requires |gs| == 8
    ensures Expand(Form(gs)) == Some(gs)
  {
    var z := ZeroFrom(gs, 0);
    if z == 8 {
      ExpandJoin(gs);
    } else {
      var e := ZerosEnd(gs, z);
      GapRoundTrip(gs, z, e);
    }
  }

  lemma GapRoundTrip(gs: seq<Group>, z: nat, e: nat)
    requires |gs| == 8 && z < e <= 8 && forall j :: z <= j < e ==> gs[j] == 0
    ensures Expand(Join(gs[..z]) + "::" + Join(gs[e..])) == Some(gs)
  {
    ExpandGap(gs[..z], e - z, gs[e..]);
    FillGap(gs, z, e);
  }

  lemma FillGap(gs: seq<Group>, z: nat, e: nat)
    requires z <= e <= |gs| && forall j :: z <= j < e ==> gs[j] == 0
    ensures gs[..z] + Zeros(e - z) + gs[e..] == gs
  {
  }

  /** Two adjacent colons occur at most once. */
  lemma OneGap(gs: seq<Group>, i: int, j: int)
    requires |gs| == 8 && DoubleAt(Form(gs), i) && DoubleAt(Form(gs), j)
    ensures i == j
  {
    var z := ZeroFrom(gs, 0);
    if z == 8 {
      JoinChars(gs);
    } else {
      var e := ZerosEnd(gs, z);
      GapAt(gs[..z], gs[e..], i);
      GapAt(gs[..z], gs[e..], j);
    }
  }

  lemma {:induction false} FirstZeros(gs: seq<Group>, i: nat, z: nat)
    requires i <= z < |gs| && gs[z] == 0 && forall j :: i <= j < z ==> gs[j] != 0
    ensures ZeroFrom(gs, i) == z
    decreases z - i
  {
    if i < z {
      FirstZeros(gs, i + 1, z);
    }
  }

  lemma {:induction false} LastZero(gs: seq<Group>, i: nat, e: nat)
    requires i <= e <= |gs| && (e < |gs| ==> gs[e] != 0) && forall j :: i <= j < e ==> gs[j] == 0
    ensures ZerosEnd(gs, i) == e
    decreases e - i
  {
    if i < e {
      LastZero(gs, i + 1, e);
    }
  }

  /** The gap stands for the first run of zeros, the whole of it: what is in front of it reads as the groups before the
      first zero, and what is behind it as the groups from the next non-zero one on. */
  lemma GapIsFirstZeros(gs: seq<Group>, i: int, z: nat, e: nat)
    requires |gs| == 8 && DoubleAt(Form(gs), i)
    requires z < e <= 8 && (forall j :: 0 <= j < z ==> gs[j] != 0) && (forall j :: z <= j < e ==> gs[j] == 0)
    requires e < 8 ==> gs[e] != 0
    ensures ReadGroups(Side(Form(gs)[..i])) == Some(gs[..z]) && ReadGroups(Side(Form(gs)[i + 2..])) == Some(gs[e..])
  {
    FirstZeros(gs, 0, z);
    LastZero(gs, z, e);
    GapAt(gs[..z], gs[e..], i);
    CutGap(Join(gs[..z]), Join(gs[e..]));
    ReadSide(gs[..z]);
    ReadSide(gs[e..]);
  }

  // ----- The printing loop ----------------------------------------------------------------

  function Word(low: Byte, high: Byte): Group {
    var l: int, h: int := low, high;
    l + 256 * h
  }

  /** The i-th 16-bit word of the address as a little-endian machine loads it. */
  function Load(bytes: seq<Byte>, i: nat): Group
    requires |bytes| == 16 && i < 8
  {
    Word(bytes[2 * i], bytes[2 * i + 1])
  }

  function ByteSwap(x: Group): Group {
    x % 256 * 256 + x / 256
  }

  /** The groups of an address, which is kept in network order. */
  function Groups(bytes: seq<Byte>): (gs: seq<Group>)
    requires |bytes| == 16
    ensures |gs| == 8
    ensures forall i :: 0 <= i < 8 ==> gs[i] as int == 256 * (bytes[2 * i] as int) + bytes[2 * i + 1] as int
  {
    seq(8, i requires 0 <= i < 8 => Word(bytes[2 * i + 1], bytes[2 * i]))
  }

  lemma SwapWord(low: Byte, high: Byte)
    ensures ByteSwap(Word(low, high)) == Word(high, low) && (Word(low, high) == 0 <==> Word(high, low) == 0)
  {
    var x: int := Word(low, high);
    assert x % 256 == low && x / 256 == high;
  }

  lemma SwapLoads(bytes: seq<Byte>, i: nat)
    requires |bytes| == 16 && i < 8
    ensures ByteSwap(Load(bytes, i)) == Groups(bytes)[i] && (Load(bytes, i) == 0 <==> Groups(bytes)[i] == 0)
  {
    SwapWord(bytes[2 * i], bytes[2 * i + 1]);
  }

  lemma JoinOneMore(gs: seq<Group>, a: nat, i: nat)
    requires a <= i < |gs|
    ensures Join(gs[a..i + 1]) == Join(gs[a..i]) + (if a < i then ":" else "") + Hex(gs[i])
  {
    assert gs[a..i + 1][..i - a] == gs[a..i];
    assert a == i ==> Join(gs[a..i]) == "";
  }

  /** The text after the groups before `i`, where the first run of zeros goes from `z` to `e`. */
  function Sofar(gs: seq<Group>, z: nat, e: nat, i: nat): string
    requires z <= e <= |gs| && i <= |gs|
  {
    if i <= z then Join(gs[0..i])
    else if i <= e then Join(gs[0..z])
    else Join(gs[0..z]) + "::" + Join(gs[e..i])
  }

  lemma StepBefore(gs: seq<Group>, z: nat, e: nat, i: nat)
    requires i < z <= e <= |gs|
    ensures Sofar(gs, z, e, i + 1) == Sofar(gs, z, e, i) + (if i > 0 then ":" else "") + Hex(gs[i])
  {
    JoinOneMore(gs, 0, i);
  }

  lemma StepBehind(gs: seq<Group>, z: nat, e: nat, i: nat)
    requires z < e <= i < |gs|
    ensures Sofar(gs, z, e, i + 1) == Sofar(gs, z, e, i) + (if i == e then ":" else "") + ":" + Hex(gs[i])
  {
    JoinOneMore(gs, e, i);
    ColonsAssociate(Join(gs[0..z]), Join(gs[e..i]), Hex(gs[i]));
  }

  lemma ColonsAssociate(x: string, y: string, h: string)
    ensures x + "::" + (y + ":" + h) == (x + "::" + y) + "" + ":" + h
    ensures x + "::" + ("" + "" + h) == x + ":" + ":" + h
  {
  }

  lemma FormIsSofar(gs: seq<Group>)
    requires |gs| == 8
    ensures var z := ZeroFrom(gs, 0); var e := ZerosEnd(gs, z);
      Form(gs) == if z < 8 && e == 8 then Sofar(gs, z, e, 8) + "::" else Sofar(gs, z, e, 8)
  {
    var z := ZeroFrom(gs, 0);
    var e := ZerosEnd(gs, z);
    assert gs[0..8] == gs && gs[0..z] == gs[..z] && gs[e..8] == gs[e..];
    if z < 8 && e == 8 {
      assert gs[e..] == [];
      assert Join(gs[..z]) + "::" + "" == Join(gs[..z]) + "::";
    }
  }

  /** One turn of the loop, for a group that is not skipped. */
  method PutGroup(raw: Group, previousZero: bool, i: nat, used: bool, os: string) returns (os': string, used': bool)
    ensures used' == (used || (i > 0 && previousZero))
    ensures i == 0 ==> os' == os + "" + Hex(ByteSwap(raw))
    ensures i > 0 && (!previousZero || used) ==>
      os' == os + ":" + Hex(ByteSwap(raw)) == os + "" + ":" + Hex(ByteSwap(raw))
    ensures i > 0 && previousZero && !used ==> os' == os + ":" + ":" + Hex(ByteSwap(raw))
  {
    os', used' := os, used;
    if i > 0 && previousZero && !used' {
      os' := os' + ":";
      used' := true;
    }
    if i > 0 {
      os' := os' + ":";
    }
    os' := os' + Hex(ByteSwap(raw));
  }

  /** The text between the brackets. */
  method Insert(bytes: seq<Byte>) returns (os: string)
    requires |bytes| == 16
    ensures os == Form(Groups(bytes))
    ensures Expand(os) == Some(Groups(bytes))
  {
    ghost var gs := Groups(bytes);
    ghost var z := ZeroFrom(gs, 0);
    ghost var e := ZerosEnd(gs, z);
    os := "";
    var usedZeros := false;
    for i := 0 to 8
      invariant usedZeros <==> z < e < i
      invariant os == Sofar(gs, z, e, i)
    {
      SwapLoads(bytes, i);
      if Load(bytes, i) == 0 && !usedZeros {
        continue;
      }
      if i > 0 {
        SwapLoads(bytes, i - 1);
      }
      assert i > 0 ==> (Load(bytes, i - 1) == 0 <==> gs[i - 1] == 0);
      if i < z {
        StepBefore(gs, z, e, i);
      } else {
        StepBehind(gs, z, e, i);
      }
      os, usedZeros := PutGroup(Load(bytes, i), i > 0 && Load(bytes, i - 1) == 0, i, usedZeros, os);
    }
    FormIsSofar(gs);
    SwapLoads(bytes, 7);
    if !usedZeros && Load(bytes, 7) == 0 {
      os := os + "::";
    }
    FormRoundTrip(gs);
  }

  lemma GroupsDecide(a: seq<Byte>, b: seq<Byte>, i: nat)
    requires |a| == 16 && |b| == 16 && i < 8 && Groups(a)[i] == Groups(b)[i]
    ensures a[2 * i] == b[2 * i] && a[2 * i + 1] == b[2 * i + 1]
  {
  }

  lemma SameGroups(a: seq<Byte>, b: seq<Byte>)
    requires |a| == 16 && |b| == 16 && Groups(a) == Groups(b)
    ensures a == b
  {
    forall k | 0 <= k < 16 ensures a[k] == b[k] {
      GroupsDecide(a, b, k / 2);
    }
  }

  /** No two addresses are printed alike. */
  lemma TextDecides(a: seq<Byte>, b: seq<Byte>)
    requires |a| == 16 && |b| == 16 && Form(Groups(a)) == Form(Groups(b))
    ensures a == b
  {
    FormRoundTrip(Groups(a));
    FormRoundTrip(Groups(b));
    SameGroups(a, b);
  }
}
