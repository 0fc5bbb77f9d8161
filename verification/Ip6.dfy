/** Reading and printing IPv6 addresses (src/vat/plugin_api.c:97-187 and 196-244), the text
    form of section 2.2 of RFC 4291 without embedded IPv4 addresses. */
module Ip6 {
  type u16 = x: int | 0 <= x < 0x10000

  /** The parser's variables: groups read, the group being read and its number of digits, how
      many colons came last, and before which group "::" stood (8 for nowhere). */
  datatype Parser = Parser(quads: seq<u16>, quad: nat, digits: nat, colons: nat, dbl: nat)

  const START: Parser := Parser([], 0, 0, 0, 8)

  datatype Step = More(p: Parser) | Bad | Stop

  function HexValue(c: char): nat {
    if '0' <= c <= '9' then c as int - '0' as int
    else if 'a' <= c <= 'f' then c as int + 10 - 'a' as int
    else if 'A' <= c <= 'F' then c as int + 10 - 'A' as int
    else 16
  }

  function HexChar(d: nat): (c: char)
    requires d < 16
    ensures HexValue(c) == d
  {
    if d < 10 then '0' + d as char else 'a' + (d - 10) as char
  }

  /** One round of the parser's loop. */
  function Take(p: Parser, c: char): Step {
    var d := HexValue(c);
    if d == 16 && !(c == ':' && p.colons < 2) then Stop
    else if |p.quads| >= 8 then Bad
    else if d < 16 then
      if p.digits >= 4 then Bad else More(p.(quad := p.quad * 16 + d, digits := p.digits + 1, colons := 0))
    else
      var colons := p.colons + 1;
      if colons == 2 && p.dbl < 8 then Bad
      else
        var dbl := if colons == 2 then |p.quads| else p.dbl;
        if p.digits > 0 then
          if p.quad < 0x10000 then More(Parser(p.quads + [p.quad], 0, 0, colons, dbl)) else Bad
        else
          More(p.(colons := colons, dbl := dbl))
  }

  datatype Outcome = Rejected | Ended(p: Parser, used: nat)

  /** The loop: until the input ends or a character cannot belong to an address. */
  function Loop(p: Parser, s: string): Outcome
    decreases |s|
  {
    if s == [] then Ended(p, 0)
    else
      match Take(p, s[0])
      case Bad => Rejected
      case Stop => Ended(p, 0)
      case More(p') =>
        match Loop(p', s[1..])
        case Rejected => Rejected
        case Ended(q, n) => Ended(q, n + 1)
  }

  datatype Result = None | Some(address: seq<u16>, used: nat)

  function Zeros(n: nat): seq<u16> {
    seq(n, i => 0)
  }

  /** After the loop: the last group, then "::" becomes as many zeros as are missing. */
  function Finish(p: Parser, used: nat): Result {
    if p.digits > 0 && p.quad >= 0x10000 then None
    else
      var quads := if p.digits > 0 then p.quads + [p.quad] else p.quads;
      if p.dbl < 8 then
        if p.dbl <= |quads| <= 8 then Some(quads[..p.dbl] + Zeros(8 - |quads|) + quads[p.dbl..], used) else None
      else if |quads| < 8 then None
      else Some(quads, used)
  }

  function Parse(s: string): Result {
    match Loop(START, s)
    case Rejected => None
    case Ended(p, n) => Finish(p, n)
  }

  /** What holds of the parser in every round: the group fits in 16 bits and the array is not overrun. */
  ghost predicate Fits(p: Parser) {
    && |p.quads| <= 8 && p.digits <= 4 && p.colons <= 2 && p.quad < Sixteen(p.digits) && (|p.quads| == 8 ==> p.digits == 0)
    && (p.dbl == 8 || p.dbl <= |p.quads|) && (p.dbl < 8 ==> |p.quads| + p.digits > 0 || p.dbl == 0)
  }

  function Sixteen(n: nat): (r: nat) {
    if n == 0 then 1 else if n == 1 then 16 else if n == 2 then 256 else if n == 3 then 4096 else 65536
  }

  lemma TakeFits(p: Parser, c: char)
    requires Fits(p)
    ensures Take(p, c).More? ==> Fits(Take(p, c).p)
  {
  }

  function Shift(o: Outcome, n: nat): Outcome {
    match o
    case Rejected => Rejected
    case Ended(p, m) => Ended(p, m + n)
  }

  /** What one round leaves to do. */
  lemma LoopStep(p: Parser, s: string, i: nat)
    requires i < |s|
    ensures match Take(p, s[i])
            case Bad => Loop(p, s[i..]) == Rejected
            case Stop => Loop(p, s[i..]) == Ended(p, 0)
            case More(q) => Shift(Loop(p, s[i..]), i) == Shift(Loop(q, s[i + 1..]), i + 1)
  {
    assert s[i..][1..] == s[i + 1..];
  }

  lemma LoopAll(s: string)
    ensures Loop(START, s) == Shift(Loop(START, s), 0)
  {
  }

  /** The loop stops at the end of the input or at a character it puts back. */
  lemma LoopEnds(p: Parser, s: string, i: nat)
    requires i <= |s| && (i < |s| ==> Take(p, s[i]) == Stop)
    ensures Shift(Loop(p, s[i..]), i) == Ended(p, i)
  {
  }

  /** The loop that moves the groups after "::" to the end. */
  method MoveUp(quads: array<u16>, n: nat, dbl: nat)
    requires quads.Length == 8 && dbl <= n <= 8
    modifies quads
    ensures forall k :: 0 <= k < dbl ==> quads[k] == old(quads[k])
    ensures forall k :: 8 - n + dbl <= k < 8 ==> quads[k] == old(quads[k - (8 - n)])
  {
    var zeros := 8 - n;
    ghost var was := quads[..];
    var i := n - 1;
    while i >= dbl
      invariant dbl - 1 <= i < n
      invariant forall k :: 0 <= k <= zeros + i ==> quads[k] == was[k]
      invariant forall k :: zeros + i < k < 8 ==> quads[k] == was[k - zeros]
    {
      quads[zeros + i] := quads[i];
      i := i - 1;
    }
  }

  /** Makes room for the zeros that "::" stands for, in place. */
  method Expand(quads: array<u16>, n: nat, dbl: nat)
    requires quads.Length == 8 && dbl <= n <= 8
    modifies quads
    ensures quads[..] == old(quads[..dbl]) + Zeros(8 - n) + old(quads[dbl..n])
  {
    var zeros := 8 - n;
    ghost var was := quads[..];
    MoveUp(quads, n, dbl);
    ghost var moved := quads[..];
    var j := 0;
    while j < zeros
      invariant 0 <= j <= zeros
      invariant forall k :: 0 <= k < 8 ==> quads[k] == if dbl <= k < dbl + j then 0 else moved[k]
    {
      quads[dbl + j] := 0;
      j := j + 1;
    }
    Parts(was, quads[..], n, dbl);
  }

  lemma Parts(was: seq<u16>, quads: seq<u16>, n: nat, dbl: nat)
    requires |was| == |quads| == 8 && dbl <= n <= 8
    requires forall k :: 0 <= k < dbl ==> quads[k] == was[k]
    requires forall k :: dbl <= k < dbl + 8 - n ==> quads[k] == 0
    requires forall k :: 8 - n + dbl <= k < 8 ==> quads[k] == was[k - (8 - n)]
    ensures quads == was[..dbl] + Zeros(8 - n) + was[dbl..n]
  {
  }

  /** The loop of unformat_ip6_address; on success it returns its variables and the number of
      characters used. */
  method ReadGroups(input: string, quads: array<u16>)
    returns (ok: bool, n: nat, quad: nat, digits: nat, dbl: nat, i: nat, ghost p: Parser)
    requires quads.Length == 8
    modifies quads
    ensures !ok ==> Loop(START, input) == Rejected
    ensures ok ==> Loop(START, input) == Ended(p, i) && Fits(p) && n <= 8 && p == Parser(quads[..n], quad, digits, p.colons, dbl)
  {
    hide Loop;
    n, quad, digits, dbl, i, ok := 0, 0, 0, 8, 0, false;
    var colons: nat := 0;
    p := START;
    LoopAll(input);
    assert quads[..0] == [] && input[0..] == input;
    while i < |input|
      invariant i <= |input| && n <= 8 && Fits(p) && p == Parser(quads[..n], quad, digits, colons, dbl) && !ok
      invariant Loop(START, input) == Shift(Loop(p, input[i..]), i)
    {
      TakeFits(p, input[i]);
      LoopStep(p, input, i);
      var c := input[i];
      var d := 16;
      if '0' <= c <= '9' {
        d := c as int - '0' as int;
      } else if 'a' <= c <= 'f' {
        d := c as int + 10 - 'a' as int;
      } else if 'A' <= c <= 'F' {
        d := c as int + 10 - 'A' as int;
      } else if c == ':' && colons < 2 {
        colons := colons + 1;
      } else {
        break;
      }
      if n >= 8 {
        return;
      }
      if d < 16 {
        quad := quad * 16 + d;
        if digits >= 4 {
          return;
        }
        colons := 0;
        digits := digits + 1;
      }
      if colons == 2 {
        if dbl < 8 {
          return;
        }
        dbl := n;
      }
      if colons > 0 && digits > 0 {
        quads[n] := quad;
        assert quads[..n + 1] == p.quads + [quad];
        n := n + 1;
        quad := 0;
        digits := 0;
      }
      i := i + 1;
      p := Parser(quads[..n], quad, digits, colons, dbl);
    }
    LoopEnds(p, input, i);
    ok := true;
  }

  /** All groups read, the last one included. */
  function AllGroups(p: Parser): seq<u16>
    requires p.quad < 0x10000
  {
    if p.digits > 0 then p.quads + [p.quad] else p.quads
  }

  lemma FinishIs(p: Parser, used: nat)
    requires Fits(p)
    ensures p.quad < 0x10000 && |AllGroups(p)| <= 8 && (p.dbl < 8 ==> p.dbl <= |AllGroups(p)|)
    ensures p.dbl < 8 ==> Finish(p, used) == Some(AllGroups(p)[..p.dbl] + Zeros(8 - |AllGroups(p)|) + AllGroups(p)[p.dbl..], used)
    ensures p.dbl >= 8 ==> Finish(p, used) == if |AllGroups(p)| < 8 then None else Some(AllGroups(p), used)
  {
  }

  lemma ParseIs(s: string, p: Parser, n: nat)
    ensures Loop(START, s) == Ended(p, n) ==> Parse(s) == Finish(p, n)
    ensures Loop(START, s) == Rejected ==> Parse(s) == None
  {
  }

  /** unformat_ip6_address: reads as much of the input as can belong to an address. */
  method Unformat(input: string) returns (r: Result)
    ensures r == Parse(input) && (r.Some? ==> |r.address| == 8)
    ensures Means(input, r)
  {
    hide *;
    ParseExactly(input, Parse(input));
    var quads := new u16[8];
    var ok, n, quad, digits, dbl, i; ghost var p;
    ok, n, quad, digits, dbl, i, p := ReadGroups(input, quads);
    ParseIs(input, p, i);
    if !ok {
      return None;
    }
    FinishIs(p, i);
    AllGroupsIs(p);
    if digits > 0 {
      quads[n] := quad;
      assert quads[..n + 1] == p.quads + [quad];
      n := n + 1;
    }
    assert quads[..n] == AllGroups(p);
    if dbl < 8 {
      ghost var all := quads[..n];
      assert quads[..dbl] == all[..dbl] && quads[dbl..n] == all[dbl..];
      Expand(quads, n, dbl);
    } else if n < 8 {
      return None;
    }
    r := Some(quads[..], i);
  }

  lemma AllGroupsIs(p: Parser)
    requires Fits(p) && p.quad < 0x10000
    ensures AllGroups(p) == (if p.digits > 0 then p.quads + [p.quad] else p.quads) && (p.digits > 0 ==> |p.quads| < 8)
  {
  }

  /** A group in hexadecimal without leading zeros. */
  function Hex(x: nat): (s: string)
    ensures s != []
  {
    if x < 16 then [HexChar(x)] else Hex(x / 16) + [HexChar(x % 16)]
  }

  /** Groups with a colon between any two. */
  function Groups(xs: seq<u16>): string {
    if xs == [] then []
    else if |xs| == 1 then Hex(xs[0])
    else Groups(xs[..|xs| - 1]) + ":" + Hex(xs[|xs| - 1])
  }

  /** The variables of the printer's search for the longest run of zero groups. */
  datatype Scan = Scan(iMax: nat, max: nat, first: nat, n: nat)

  /** One round of the search. */
  function Look(s: Scan, zero: bool, i: nat): Scan {
    var first := if zero && s.first >= 8 then i else s.first;
    var n := (if zero && s.first >= 8 then 0 else s.n) + (if zero then 1 else 0);
    if (!zero && n > s.max) || (i + 1 >= 8 && n > s.max) then Scan(first, n, 8, 0) else Scan(s.iMax, s.max, first, n)
  }

  /** The search over the first i groups. */
  function Search(a: seq<u16>, i: nat): Scan
    requires i <= |a|
  {
    if i == 0 then Scan(8, 0, 8, 0) else Look(Search(a, i - 1), a[i - 1] == 0, i - 1)
  }

  lemma {:induction false} SearchBounds(a: seq<u16>, i: nat)
    requires i <= |a| == 8
    ensures var s := Search(a, i);
            && (s.max > 0 ==> s.iMax + s.max <= i) && (s.first < 8 ==> s.first + s.n <= i) && (s.first >= 8 ==> s.n == 0)
  {
    if i > 0 {
      SearchBounds(a, i - 1);
    }
  }

  function Print(a: seq<u16>): string
    requires |a| == 8
  {
    SearchBounds(a, 8);
    var s := Search(a, 8);
    if s.max > 1 then Groups(a[..s.iMax]) + "::" + Groups(a[s.iMax + s.max..]) else Groups(a)
  }

  /** The first loop of format_ip6_address. */
  method FindZeros(a: seq<u16>) returns (iMax: nat, max: nat)
    requires |a| == 8
    ensures iMax == Search(a, 8).iMax && max == Search(a, 8).max
  {
    iMax, max := 8, 0;
    var first: nat, n: nat, i: nat := 8, 0, 0;
    while i < 8
      invariant i <= 8 && Scan(iMax, max, first, n) == Search(a, i)
    {
      var zero := a[i] == 0;
      if zero && first >= 8 {
        first := i;
        n := 0;
      }
      n := n + if zero then 1 else 0;
      if (!zero && n > max) || (i + 1 >= 8 && n > max) {
        iMax, max := first, n;
        first, n := 8, 0;
      }
      i := i + 1;
    }
  }

  lemma GroupsMore(a: seq<u16>, from: nat, i: nat)
    requires from <= i < |a|
    ensures Groups(a[from..i + 1]) == Groups(a[from..i]) + (if i == from then "" else ":") + Hex(a[i])
  {
    assert a[from..i + 1][..i - from] == a[from..i];
    assert i == from ==> a[from..i + 1] == [a[i]];
  }

  lemma PrintIs(a: seq<u16>)
    requires |a| == 8
    ensures var s := Search(a, 8);
            && (s.max > 1 ==> s.iMax + s.max <= 8 && Print(a) == Groups(a[0..s.iMax]) + "::" + Groups(a[s.iMax + s.max..8]))
            && (s.max <= 1 ==> Print(a) == Groups(a[0..8]))
  {
    SearchBounds(a, 8);
    assert a[0..8] == a;
    var s := Search(a, 8);
    if s.max > 1 {
      assert a[0..s.iMax] == a[..s.iMax] && a[s.iMax + s.max..8] == a[s.iMax + s.max..];
    }
  }

  /** format_ip6_address. */
  method Format(a: seq<u16>) returns (s: string)
    requires |a| == 8
    ensures s == Print(a)
  {
    hide Hex, Search, Groups, Print;
    var iMax, max := FindZeros(a);
    PrintIs(a);
    s := [];
    var last := false;
    var i := 0;
    GroupsNone(a, 0);
    while i < 8
      invariant 0 <= i <= 8
      invariant max > 1 && iMax < i ==> iMax + max <= i && s == Groups(a[0..iMax]) + "::" + Groups(a[iMax + max..i])
      invariant last <==> max > 1 && i == iMax + max
      invariant max <= 1 || i <= iMax ==> s == Groups(a[0..i])
    {
      if i == iMax && max > 1 {
        s := s + "::";
        i := i + max - 1;
        last := true;
        GroupsNone(a, i + 1);
      } else {
        GroupsMore(a, if max > 1 && iMax < i then iMax + max else 0, i);
        s := s + (if last || i == 0 then "" else ":") + Hex(a[i]);
        last := false;
      }
      i := i + 1;
    }
  }

  lemma GroupsNone(a: seq<u16>, i: nat)
    requires i <= |a|
    ensures Groups(a[i..i]) == []
  {
  }

  /* What the parser reads, said without the parser. */

  const LOWER: string := "0123456789abcdef"
  const UPPER: string := "0123456789ABCDEF"

  /** The digits of either case, by position. */
  ghost predicate Digit(c: char, d: nat) {
    d < 16 && (c == LOWER[d] || c == UPPER[d])
  }

  ghost predicate IsDigit(c: char) {
    exists d: nat :: Digit(c, d)
  }

  /** A text in hexadecimal and its value. */
  ghost predicate Numeral(t: string, x: nat)
    decreases |t|
  {
    if t == [] then x == 0 else Digit(t[|t| - 1], x % 16) && Numeral(t[..|t| - 1], x / 16)
  }

  datatype Group = Group(text: string, value: u16)

  /** Groups, perhaps a double colon, and groups after it. A colon may also stand alone in front of
      the first group and behind the last one. */
  datatype Text = Text(lead: bool, before: seq<Group>, dbl: bool, after: seq<Group>, trail: bool)

  ghost predicate GroupOk(g: Group) {
    1 <= |g.text| <= 4 && Numeral(g.text, g.value)
  }

  ghost predicate WellFormed(x: Text) {
    && (forall i :: 0 <= i < |x.before| ==> GroupOk(x.before[i])) && (forall i :: 0 <= i < |x.after| ==> GroupOk(x.after[i]))
    && |x.before| + |x.after| <= 8 && (if x.dbl then |x.before| <= 7 else x.after == [])
    && (x.lead ==> x.before != [] || (!x.dbl && !x.trail))
    && (x.trail ==> Front(x) != [])
  }

  /** The groups to which the next one would be added. */
  ghost function Front(x: Text): seq<Group> {
    if x.dbl then x.after else x.before
  }

  /** Groups with a colon between any two. */
  ghost function Join(gs: seq<Group>): string {
    if gs == [] then [] else if |gs| == 1 then gs[0].text else Join(gs[..|gs| - 1]) + ":" + gs[|gs| - 1].text
  }

  ghost function Render(x: Text): string {
    (if x.lead then ":" else "") + Join(x.before) + (if x.dbl then "::" else "") + Join(x.after) + (if x.trail then ":" else "")
  }

  ghost function Values(gs: seq<Group>): (vs: seq<u16>)
    ensures |vs| == |gs|
  {
    seq(|gs|, i requires 0 <= i < |gs| => gs[i].value)
  }

  /** The text ends in a group, which another digit would continue. */
  ghost predicate Open(x: Text) {
    !x.trail && Front(x) != []
  }

  /** The character goes on with the address. */
  ghost predicate Continues(x: Text, c: char) {
    IsDigit(c) || (c == ':' && !(x.dbl && x.after == []))
  }

  /** It does, but it must not: the text has eight groups and a colon, or this is a fifth digit or
      the second double colon. */
  ghost predicate Breaks(x: Text, c: char) {
    || (|x.before| + |x.after| == 8 && !Open(x))
    || (IsDigit(c) && Open(x) && |Front(x)[|Front(x)| - 1].text| == 4)
    || (c == ':' && x.dbl && x.trail)
  }

  /** All eight groups are there, or a double colon stands for those that are not. */
  ghost predicate Whole(x: Text) {
    x.dbl || |x.before| == 8
  }

  ghost function Address(x: Text): seq<u16>
    requires |x.before| + |x.after| <= 8
  {
    if x.dbl then Values(x.before) + Zeros(8 - |x.before| - |x.after|) + Values(x.after) else Values(x.before)
  }

  /** r is what reading s gives, as text x shows. */
  ghost predicate Shows(s: string, r: Result, x: Text) {
    && WellFormed(x) && Render(x) <= s
    && var rest := s[|Render(x)|..];
       match r
       case Some(a, n) => n == |Render(x)| && Whole(x) && a == Address(x) && (rest == [] || !Continues(x, rest[0]))
       case None => if rest != [] && Continues(x, rest[0]) then Breaks(x, rest[0]) else !Whole(x)
  }

  /** The longest text at the start of s is an address, or s has a text that breaks off or is not whole. */
  ghost predicate Means(s: string, r: Result) {
    exists x :: Shows(s, r, x)
  }

  lemma DigitIs(c: char, d: nat)
    ensures Digit(c, d) <==> d < 16 && HexValue(c) == d
  {
    assert LOWER[0] == '0' == UPPER[0] && LOWER[1] == '1' == UPPER[1] && LOWER[2] == '2' == UPPER[2] && LOWER[3] == '3' == UPPER[3];
    assert LOWER[4] == '4' == UPPER[4] && LOWER[5] == '5' == UPPER[5] && LOWER[6] == '6' == UPPER[6] && LOWER[7] == '7' == UPPER[7];
    assert LOWER[8] == '8' == UPPER[8] && LOWER[9] == '9' == UPPER[9] && LOWER[10] == 'a' && UPPER[10] == 'A' && LOWER[11] == 'b' && UPPER[11] == 'B';
    assert LOWER[12] == 'c' && UPPER[12] == 'C' && LOWER[13] == 'd' && UPPER[13] == 'D' && LOWER[14] == 'e' && UPPER[14] == 'E' && LOWER[15] == 'f' && UPPER[15] == 'F';
  }

  lemma IsDigitIs(c: char)
    ensures IsDigit(c) <==> HexValue(c) < 16
    ensures HexValue(c) < 16 ==> Digit(c, HexValue(c))
    ensures HexValue(c) <= 16 && (c == ':' ==> HexValue(c) == 16)
  {
    DigitIs(c, HexValue(c));
    if d: nat :| Digit(c, d) {
      DigitIs(c, d);
    }
  }

  lemma {:induction false} NumeralBound(t: string, x: nat)
    requires Numeral(t, x) && |t| <= 4
    ensures x < Sixteen(|t|)
    decreases |t|
  {
    if t != [] {
      NumeralBound(t[..|t| - 1], x / 16);
    }
  }

  lemma NumeralMore(t: string, x: nat, c: char, d: nat)
    requires Numeral(t, x) && Digit(c, d)
    ensures Numeral(t + [c], x * 16 + d)
  {
    hide Digit;
    assert d < 16 by { DigitIs(c, d); }
    assert (x * 16 + d) % 16 == d && (x * 16 + d) / 16 == x;
    assert (t + [c])[..|t|] == t;
  }

  ghost function Colons(x: Text): nat {
    if x.trail then 1 else if x.dbl then 2 else if x.lead then 1 else 0
  }

  /** The parser's variables after it has read a text. */
  ghost function StateOf(x: Text): Parser {
    var all, dbl := Values(x.before + x.after), if x.dbl then |x.before| else 8;
    if Open(x) then
      var g := Front(x)[|Front(x)| - 1];
      Parser(all[..|all| - 1], g.value, |g.text|, 0, dbl)
    else
      Parser(all, 0, 0, Colons(x), dbl)
  }

  /** What stands in front of the groups to which the next one would be added. */
  ghost function Prefix(x: Text): string {
    (if x.lead then ":" else "") + (if x.dbl then Join(x.before) + "::" else "")
  }

  lemma RenderIs(x: Text)
    requires WellFormed(x)
    ensures Render(x) == Prefix(x) + Join(Front(x)) + (if x.trail then ":" else "")
  {
    hide GroupOk;
  }

  lemma JoinMore(gs: seq<Group>, g: Group)
    ensures Join(gs + [g]) == if gs == [] then g.text else Join(gs) + ":" + g.text
  {
    assert (gs + [g])[..|gs|] == gs;
  }

  /** The text with another last part of groups. */
  ghost function WithFront(x: Text, gs: seq<Group>): Text {
    if x.dbl then x.(after := gs, trail := false) else x.(before := gs, trail := false)
  }

  lemma ValuesMore(gs: seq<Group>, g: Group)
    ensures Values(gs + [g]) == Values(gs) + [g.value]
  {
  }

  /** One more digit of the last group. */
  lemma MoreDigits(x: Text, c: char, d: nat) returns (y: Text)
    requires WellFormed(x) && Open(x) && Digit(c, d) && |Front(x)[|Front(x)| - 1].text| < 4
    ensures var g := Front(x)[|Front(x)| - 1];
            g.value * 16 + d < 0x10000 && y == WithFront(x, Front(x)[..|Front(x)| - 1] + [Group(g.text + [c], g.value * 16 + d)])
    ensures WellFormed(y) && Render(y) == Render(x) + [c] && Take(StateOf(x), c) == More(StateOf(y))
  {
    hide Numeral, Digit, Join, Render, StateOf, Take;
    var gs := Front(x);
    var front, g := gs[..|gs| - 1], gs[|gs| - 1];
    assert gs == front + [g];
    assert GroupOk(g);
    NumeralBound(g.text, g.value);
    DigitIs(c, d);
    NumeralMore(g.text, g.value, c, d);
    var h := Group(g.text + [c], g.value * 16 + d);
    y := WithFront(x, front + [h]);
    assert GroupOk(h) && WellFormed(y) && Front(y) == front + [h] && Prefix(y) == Prefix(x);
    hide WellFormed, GroupOk, Prefix;
    MoreDigitsText(x, y, front, g, h, c);
    StateIs(x, front, g);
    StateIs(y, front, h);
    TakeDigit(StateOf(x), c, d);
  }

  lemma MoreDigitsText(x: Text, y: Text, front: seq<Group>, g: Group, h: Group, c: char)
    requires WellFormed(x) && WellFormed(y) && Prefix(y) == Prefix(x) && !x.trail && !y.trail
    requires Front(x) == front + [g] && Front(y) == front + [h] && h.text == g.text + [c]
    ensures Render(y) == Render(x) + [c]
  {
    hide Join, Prefix, Render, WellFormed;
    JoinMore(front, g);
    JoinMore(front, h);
    RenderIs(x);
    RenderIs(y);
  }

  lemma TakeDigit(p: Parser, c: char, d: nat)
    requires d < 16 && HexValue(c) == d && |p.quads| < 8 && p.digits < 4
    ensures Take(p, c) == More(p.(quad := p.quad * 16 + d, digits := p.digits + 1, colons := 0))
  {
  }

  lemma StateIs(x: Text, front: seq<Group>, g: Group)
    requires WellFormed(x) && !x.trail && Front(x) == front + [g]
    ensures StateOf(x) == Parser(Values(if x.dbl then x.before + front else front), g.value, |g.text|, 0, if x.dbl then |x.before| else 8)
    ensures |StateOf(x).quads| < 8
  {
    hide GroupOk;
    LastOf(x, front, g);
  }

  /** The values of all groups but the last, and of all. */
  lemma LastOf(x: Text, front: seq<Group>, g: Group)
    requires (!x.dbl ==> x.after == []) && Front(x) == front + [g]
    ensures var all := Values(x.before + x.after);
            && all[..|all| - 1] == Values(if x.dbl then x.before + front else front) && all == all[..|all| - 1] + [g.value]
  {
    if x.dbl {
      assert x.before + x.after == (x.before + front) + [g];
      ValuesMore(x.before + front, g);
    } else {
      assert x.before + x.after == front + [g];
      ValuesMore(front, g);
    }
  }

  /** The first digit of another group. */
  lemma NewGroup(x: Text, c: char, d: nat) returns (y: Text)
    requires WellFormed(x) && !Open(x) && Digit(c, d) && |x.before| + |x.after| < 8
    ensures d < 16 && y == WithFront(x, Front(x) + [Group([c], d)])
    ensures WellFormed(y) && Render(y) == Render(x) + [c] && Take(StateOf(x), c) == More(StateOf(y))
  {
    hide Numeral, Digit, Join, Render, StateOf, Take;
    DigitIs(c, d);
    NumeralOne(c, d);
    var g := Group([c], d);
    y := WithFront(x, Front(x) + [g]);
    assert GroupOk(g) && WellFormed(y) && Front(y) == Front(x) + [g] && Prefix(y) == Prefix(x) && !y.trail;
    assert x.trail <==> Front(x) != [];
    hide GroupOk;
    ClosedState(x);
    StateIs(y, Front(x), g);
    hide WellFormed, Prefix;
    NewGroupText(x, y, g);
    TakeDigit(StateOf(x), c, d);
  }

  lemma NewGroupText(x: Text, y: Text, g: Group)
    requires WellFormed(x) && WellFormed(y) && Prefix(y) == Prefix(x) && !y.trail && (x.trail <==> Front(x) != [])
    requires Front(y) == Front(x) + [g]
    ensures Render(y) == Render(x) + g.text
  {
    hide Join, Prefix, Render, WellFormed;
    JoinMore(Front(x), g);
    JoinNone();
    RenderIs(x);
    RenderIs(y);
  }

  lemma ClosedState(x: Text)
    requires WellFormed(x) && !Open(x)
    ensures StateOf(x) == Parser(Values(if x.dbl then x.before + Front(x) else Front(x)), 0, 0, Colons(x), if x.dbl then |x.before| else 8)
    ensures |StateOf(x).quads| == |x.before| + |x.after|
  {
    hide GroupOk;
    assert x.before + [] == x.before;
  }

  lemma JoinNone()
    ensures Join([]) == []
  {
  }

  lemma NumeralOne(c: char, d: nat)
    requires Digit(c, d)
    ensures Numeral([c], d)
  {
    assert [c][..0] == [];
  }

  /** A colon behind the last group. */
  lemma ClosesGroup(x: Text) returns (y: Text)
    requires WellFormed(x) && Open(x)
    ensures y == x.(trail := true) && WellFormed(y) && Render(y) == Render(x) + ":" && Take(StateOf(x), ':') == More(StateOf(y))
  {
    hide Join, Numeral;
    y := x.(trail := true);
    var front, g := Front(x)[..|Front(x)| - 1], Front(x)[|Front(x)| - 1];
    assert GroupOk(g) && Front(x) == front + [g];
    LastOf(x, front, g);
    StateIs(x, front, g);
    RenderIs(x);
    RenderIs(y);
  }

  /** A colon at the very start. */
  lemma LeadingColon(x: Text) returns (y: Text)
    requires x == Text(false, [], false, [], false)
    ensures y == x.(lead := true) && WellFormed(y) && Render(y) == Render(x) + ":" && Take(StateOf(x), ':') == More(StateOf(y))
  {
    y := x.(lead := true);
  }

  /** A second colon, behind a group or at the start. */
  lemma DoubleColon(x: Text) returns (y: Text)
    requires WellFormed(x) && !x.dbl && |x.before| < 8 && (x.trail || (x.lead && x.before == []))
    ensures y == (if x.trail then x.(trail := false, dbl := true) else x.(lead := false, dbl := true))
    ensures WellFormed(y) && Render(y) == Render(x) + ":" && Take(StateOf(x), ':') == More(StateOf(y))
  {
    hide GroupOk;
    y := if x.trail then x.(trail := false, dbl := true) else x.(lead := false, dbl := true);
    assert x.before + [] == x.before;
  }

  /** What the parser makes of the next character, by what the text and the character are. */
  lemma TakeIs(x: Text, c: char)
    requires WellFormed(x)
    ensures Take(StateOf(x), c) == Stop <==> !Continues(x, c)
    ensures Take(StateOf(x), c) == Bad <==> Continues(x, c) && Breaks(x, c)
  {
    hide HexValue, IsDigit;
    IsDigitIs(c);
    if Open(x) {
      assert GroupOk(Front(x)[|Front(x)| - 1]);
    }
  }

  /** The parser reads all of s and goes from p to q. */
  ghost predicate Reads(p: Parser, s: string, q: Parser) {
    Loop(p, s) == Ended(q, |s|)
  }

  lemma {:induction false} LoopAppend(p: Parser, s: string, q: Parser, t: string)
    requires Reads(p, s, q)
    ensures Loop(p, s + t) == Shift(Loop(q, t), |s|)
    decreases |s|
  {
    if s == [] {
      assert s + t == t;
    } else {
      assert (s + t)[1..] == s[1..] + t;
      LoopAppend(Take(p, s[0]).p, s[1..], q, t);
    }
  }

  lemma ReadsAppend(p: Parser, s: string, q: Parser, t: string, r: Parser)
    requires Reads(p, s, q) && Reads(q, t, r)
    ensures Reads(p, s + t, r)
  {
    LoopAppend(p, s, q, t);
  }

  lemma ReadsOne(p: Parser, c: char)
    requires Take(p, c).More?
    ensures Reads(p, [c], Take(p, c).p)
  {
    assert [c][1..] == [];
  }

  /** A character that the parser takes leads from a text to the next. */
  lemma Extend(x: Text, c: char) returns (y: Text)
    requires WellFormed(x) && Take(StateOf(x), c).More?
    ensures WellFormed(y) && Render(y) == Render(x) + [c] && Take(StateOf(x), c) == More(StateOf(y))
  {
    TakeIs(x, c);
    IsDigitIs(c);
    hide WellFormed, Take, Render, StateOf, HexValue, Digit, IsDigit;
    if HexValue(c) < 16 {
      if Open(x) {
        AtMostFour(x);
        y := MoreDigits(x, c, HexValue(c));
      } else {
        FewGroups(x);
        y := NewGroup(x, c, HexValue(c));
      }
    } else if Open(x) {
      y := ClosesGroup(x);
    } else if x.trail || x.lead {
      FewGroups(x);
      y := DoubleColon(x);
    } else {
      FewGroups(x);
      y := LeadingColon(x);
    }
  }

  lemma AtMostFour(x: Text)
    requires WellFormed(x) && Open(x)
    ensures 1 <= |Front(x)[|Front(x)| - 1].text| <= 4
  {
    assert GroupOk(Front(x)[|Front(x)| - 1]);
  }

  lemma FewGroups(x: Text)
    requires WellFormed(x) && !Open(x)
    ensures |x.before| + |x.after| <= 8 && (x.dbl && !x.trail ==> x.after == []) && (!x.dbl && !x.trail ==> x.before == x.after == [])
    ensures !x.dbl ==> x.after == []
  {
    hide GroupOk;
  }

  /** Every text but the empty one is another one and a character that the parser takes. */
  lemma Shorten(y: Text) returns (x: Text, c: char)
    requires WellFormed(y) && Render(y) != []
    ensures WellFormed(x) && Render(y) == Render(x) + [c] && Take(StateOf(x), c) == More(StateOf(y))
  {
    if Open(y) {
      x, c := ShortenGroup(y);
    } else if y.trail {
      x, c := y.(trail := false), ':';
      var z := ClosesGroup(x);
    } else if y.dbl {
      x, c := if y.before == [] then Text(true, [], false, [], false) else y.(dbl := false, trail := true), ':';
      var z := DoubleColon(x);
    } else {
      x, c := Text(false, [], false, [], false), ':';
      var z := LeadingColon(x);
    }
  }

  lemma ShortenGroup(y: Text) returns (x: Text, c: char)
    requires WellFormed(y) && Open(y)
    ensures WellFormed(x) && Render(y) == Render(x) + [c] && Take(StateOf(x), c) == More(StateOf(y))
  {
    hide *;
    var front, h, t; front, h, t, c := LastGroup(y);
    if t == [] {
      NoDigits(t, h.value / 16);
      assert h == Group([c], h.value % 16);
      x := WithoutGroup(y, front, h);
      var z := NewGroup(x, c, h.value % 16);
      assert z == y;
    } else {
      var g := Group(t, h.value / 16);
      assert h == Group(g.text + [c], g.value * 16 + h.value % 16);
      x := WithoutDigit(y, front, h, g);
      var z := MoreDigits(x, c, h.value % 16);
      assert z == y;
    }
  }

  lemma LastGroup(y: Text) returns (front: seq<Group>, h: Group, t: string, c: char)
    requires WellFormed(y) && Open(y)
    ensures !y.trail && Front(y) == front + [h] && h.text == t + [c] && |h.text| <= 4
    ensures Digit(c, h.value % 16) && Numeral(t, h.value / 16)
  {
    hide Digit;
    var gs := Front(y);
    front, h := gs[..|gs| - 1], gs[|gs| - 1];
    assert GroupOk(h) && gs == front + [h];
    c, t := h.text[|h.text| - 1], h.text[..|h.text| - 1];
  }

  lemma WithoutGroup(y: Text, front: seq<Group>, h: Group) returns (x: Text)
    requires WellFormed(y) && !y.trail && Front(y) == front + [h]
    ensures WellFormed(x) && !Open(x) && |x.before| + |x.after| < 8 && Front(x) == front && WithFront(x, front + [h]) == y
  {
    hide GroupOk;
    FrontOk(y, front, h);
    x := WithFront(y, front);
    if front != [] {
      x := x.(trail := true);
    }
  }

  lemma WithoutDigit(y: Text, front: seq<Group>, h: Group, g: Group) returns (x: Text)
    requires WellFormed(y) && !y.trail && Front(y) == front + [h] && 1 <= |g.text| <= 4 && Numeral(g.text, g.value)
    ensures WellFormed(x) && Open(x) && Front(x) == front + [g] && Front(x)[..|front|] == front && WithFront(x, front + [h]) == y
  {
    x := WithFront(y, front + [g]);
    assert GroupOk(g);
    hide GroupOk;
    FrontOk(y, front, h);
    assert Front(x)[..|front|] == front;
  }

  lemma FrontOk(y: Text, front: seq<Group>, h: Group)
    requires WellFormed(y) && Front(y) == front + [h]
    ensures forall i :: 0 <= i < |front| ==> GroupOk(front[i])
  {
    hide GroupOk;
    forall i | 0 <= i < |front| ensures GroupOk(front[i]) {
      assert Front(y)[i] == front[i];
    }
  }

  lemma NoDigits(t: string, x: nat)
    requires Numeral(t, x) && t == []
    ensures x == 0
  {
  }

  /** The parser reads every text, and its variables are then what the text says. */
  lemma {:induction false} ReadsText(x: Text)
    requires WellFormed(x)
    ensures Reads(START, Render(x), StateOf(x))
    decreases |Render(x)|
  {
    if Render(x) == [] {
      EmptyText(x);
    } else {
      var y, c := Shorten(x);
      hide *;
      ReadsText(y);
      ReadsOne(StateOf(y), c);
      ReadsAppend(START, Render(y), StateOf(y), [c], StateOf(x));
    }
  }

  lemma EmptyText(x: Text)
    requires WellFormed(x) && Render(x) == []
    ensures StateOf(x) == START && x == Text(false, [], false, [], false) && Reads(START, [], START)
  {
    hide Join;
    RenderIs(x);
    if Open(x) {
      var gs := Front(x);
      assert GroupOk(gs[|gs| - 1]) && gs == gs[..|gs| - 1] + [gs[|gs| - 1]];
      JoinMore(gs[..|gs| - 1], gs[|gs| - 1]);
    }
  }

  /** The longest text at the start of s that goes on from x. */
  lemma {:induction false} Longest(x: Text, s: string) returns (y: Text, k: nat)
    requires WellFormed(x)
    ensures WellFormed(y) && k <= |s| && Render(y) == Render(x) + s[..k] && (k < |s| ==> !Take(StateOf(y), s[k]).More?)
    decreases |s|
  {
    hide *;
    y, k := x, 0;
    assert Render(x) + s[..0] == Render(x);
    if s != [] && Take(StateOf(x), s[0]).More? {
      var z := Extend(x, s[0]);
      y, k := Longest(z, s[1..]);
      k := k + 1;
      assert Render(z) + s[1..][..k - 1] == Render(x) + s[..k];
      assert k < |s| ==> s[k] == s[1..][k - 1];
    }
  }

  /** What the parser makes of the end of a text. */
  lemma FinishText(x: Text, n: nat)
    requires WellFormed(x)
    ensures Finish(StateOf(x), n) == if Whole(x) then Some(Address(x), n) else None
  {
    hide *;
    var all, p := Values(x.before + x.after), StateOf(x);
    AllRead(x);
    ValuesConcat(x.before, x.after);
    WellBounds(x);
    FinishWith(p, all, n);
    AddressIs(x);
  }

  lemma WellBounds(x: Text)
    requires WellFormed(x)
    ensures |x.before| + |x.after| <= 8 && (if x.dbl then |x.before| <= 7 else x.after == []) && (Whole(x) <==> x.dbl || |x.before| == 8)
  {
    hide GroupOk;
  }

  lemma AddressIs(x: Text)
    requires |x.before| + |x.after| <= 8
    ensures Address(x) == if x.dbl then Values(x.before) + Zeros(8 - |x.before| - |x.after|) + Values(x.after) else Values(x.before)
  {
  }

  lemma ValuesConcat(a: seq<Group>, b: seq<Group>)
    ensures var all := Values(a + b);
            all[..|a|] == Values(a) && all[|a|..] == Values(b) && (b == [] ==> all == Values(a))
  {
    assert b == [] ==> a + b == a;
  }

  /** The groups in the parser's variables are those of the text. */
  lemma AllRead(x: Text)
    requires WellFormed(x)
    ensures var p := StateOf(x);
            && Values(x.before + x.after) == (if p.digits > 0 then p.quads + [p.quad] else p.quads)
            && p.quad < 0x10000 && p.dbl == if x.dbl then |x.before| else 8
  {
    hide GroupOk, Values;
    if Open(x) {
      AtMostFour(x);
      LastOf(x, Front(x)[..|Front(x)| - 1], Front(x)[|Front(x)| - 1]);
    }
  }

  lemma FinishWith(p: Parser, all: seq<u16>, n: nat)
    requires p.quad < 0x10000 && all == (if p.digits > 0 then p.quads + [p.quad] else p.quads) && |all| <= 8 && (p.dbl < 8 ==> p.dbl <= |all|)
    ensures Finish(p, n) == if p.dbl < 8 then Some(all[..p.dbl] + Zeros(8 - |all|) + all[p.dbl..], n)
                            else if |all| < 8 then None else Some(all, n)
  {
  }

  /** Reading s after a text that it starts with. */
  lemma ParseAfter(s: string, x: Text)
    requires WellFormed(x) && Render(x) <= s
    ensures var n := |Render(x)|;
            && (n == |s| || Take(StateOf(x), s[n]) == Stop ==> Parse(s) == Finish(StateOf(x), n))
            && (n < |s| && Take(StateOf(x), s[n]) == Bad ==> Parse(s) == None)
  {
    hide Take, StateOf, Render, WellFormed, Finish;
    var n := |Render(x)|;
    var rest := s[n..];
    ReadsText(x);
    LoopAppend(START, Render(x), StateOf(x), rest);
    assert s == Render(x) + rest;
    assert n < |s| ==> rest[0] == s[n];
  }

  /** The parser gives exactly what the text means: an address when the longest text at the start is
      one, whatever the case of its digits, and nothing when it breaks off or is not whole. */
  lemma ParseExactly(s: string, r: Result)
    ensures Parse(s) == r <==> Means(s, r)
  {
    hide Parse, Take, StateOf, Render, WellFormed, Finish, Continues, Breaks, Whole, Address;
    var e := Text(false, [], false, [], false);
    EmptyStart(e);
    var x, k := Longest(e, s);
    assert Render(x) == s[..k] && k == |Render(x)|;
    MeansIs(s, x);
    if Parse(s) == r {
      assert Shows(s, r, x);
    }
    if Means(s, r) {
      var y :| Shows(s, r, y);
      ShownIs(s, r, y);
    }
  }

  lemma EmptyStart(e: Text)
    requires e == Text(false, [], false, [], false)
    ensures WellFormed(e) && Render(e) == []
  {
  }

  /** A text that the parser does not get past shows what reading gives. */
  lemma MeansIs(s: string, x: Text)
    requires WellFormed(x) && Render(x) <= s
    requires var n := |Render(x)|; n < |s| ==> !Take(StateOf(x), s[n]).More?
    ensures Shows(s, Parse(s), x)
  {
    hide Parse, Take, StateOf, Render, WellFormed, Finish, Continues, Breaks, Whole, Address;
    var n := |Render(x)|;
    ParseAfter(s, x);
    FinishText(x, n);
    if n < |s| {
      TakeIs(x, s[n]);
    }
  }

  lemma ShownIs(s: string, r: Result, x: Text)
    requires Shows(s, r, x)
    ensures r == Parse(s)
  {
    hide Parse, Take, StateOf, Render, WellFormed, Finish, Continues, Breaks, Whole, Address;
    var n := |Render(x)|;
    ParseAfter(s, x);
    FinishText(x, n);
    if n < |s| {
      TakeIs(x, s[n]);
    }
  }

  /** How many digits a number has, and how large a number of n digits is. */
  lemma {:induction false} HexLength(x: nat, n: nat)
    requires 1 <= n <= 4 && x < Sixteen(n)
    ensures |Hex(x)| <= n
  {
    if x >= 16 {
      HexLength(x / 16, n - 1);
    }
  }

  /** A printed group is read back as its value. */
  lemma {:induction false} ReadsHex(p: Parser, x: nat)
    requires p.digits == 0 && p.quad == 0 && |p.quads| < 8 && |Hex(x)| <= 4
    ensures Reads(p, Hex(x), p.(quad := x, digits := |Hex(x)|, colons := 0))
  {
    if x < 16 {
      ReadsOne(p, HexChar(x));
    } else {
      var h, d := Hex(x / 16), HexChar(x % 16);
      ReadsHex(p, x / 16);
      var q := p.(quad := x / 16, digits := |h|, colons := 0);
      ReadsOne(q, d);
      ReadsAppend(p, h, q, [d], p.(quad := x, digits := |h| + 1, colons := 0));
    }
  }

  /** A printed group: its digits in lower case, without leading zeros. */
  lemma {:induction false} HexIs(x: nat)
    ensures Numeral(Hex(x), x) && (|Hex(x)| > 1 ==> Hex(x)[0] != '0')
    ensures forall i :: 0 <= i < |Hex(x)| ==> Hex(x)[i] in "0123456789abcdef"
  {
    var d := x % 16;
    var c := HexChar(d);
    LowerCase(d);
    hide Digit, HexChar;
    if x < 16 {
      NumeralOne(c, x);
    } else {
      HexIs(x / 16);
      NumeralMore(Hex(x / 16), x / 16, c, d);
      HexNotZero(x / 16);
    }
  }

  lemma HexNotZero(x: nat)
    requires 0 < x
    ensures |Hex(x)| == 1 ==> Hex(x)[0] != '0'
  {
  }

  lemma LowerCase(d: nat)
    requires d < 16
    ensures Digit(HexChar(d), d) && HexChar(d) in "0123456789abcdef"
  {
    DigitIs(HexChar(d), d);
    assert HexChar(d) == LOWER[d] by { LowerAt(d); }
    assert LOWER[d] in LOWER;
  }

  lemma LowerAt(d: nat)
    requires d < 16
    ensures LOWER[d] == if d < 10 then '0' + d as char else 'a' + (d - 10) as char
  {
    if d < 8 {
      assert LOWER[d] == ['0', '1', '2', '3', '4', '5', '6', '7'][d];
    } else {
      assert LOWER[d] == ['8', '9', 'a', 'b', 'c', 'd', 'e', 'f'][d - 8];
    }
  }

  /** The parser after it has read groups up to the end of the last one. */
  function Pending(p: Parser, xs: seq<u16>): Parser
    requires xs != []
  {
    Parser(p.quads + xs[..|xs| - 1], xs[|xs| - 1], |Hex(xs[|xs| - 1])|, 0, p.dbl)
  }

  lemma {:induction false} ReadsGroups(p: Parser, xs: seq<u16>)
    requires p.digits == 0 && p.quad == 0 && xs != [] && |p.quads| + |xs| <= 8
    ensures Reads(p, Groups(xs), Pending(p, xs))
    decreases |xs|
  {
    hide Loop, Hex;
    var x := xs[|xs| - 1];
    HexLength(x, 4);
    if |xs| == 1 {
      ReadsHex(p, x);
      assert p.quads + [] == p.quads;
    } else {
      var front := xs[..|xs| - 1];
      ReadsGroups(p, front);
      var q := Pending(p, front);
      ReadsOne(q, ':');
      var r := Take(q, ':').p;
      assert r.quads == p.quads + front by { assert front == front[..|front| - 1] + [front[|front| - 1]]; }
      ReadsAppend(p, Groups(front), q, ":", r);
      ReadsHex(r, x);
      ReadsAppend(p, Groups(front) + ":", r, Hex(x), r.(quad := x, digits := |Hex(x)|, colons := 0));
    }
  }

  /** The address that the printed text stands for: the groups that "::" replaces are zero. */
  function Blanked(a: seq<u16>): seq<u16>
    requires |a| == 8
  {
    SearchBounds(a, 8);
    var s := Search(a, 8);
    if s.max > 1 then a[..s.iMax] + Zeros(s.max) + a[s.iMax + s.max..] else a
  }

  /** The parser after a colon, and after a double colon. */
  lemma ReadsColons(p: Parser, xs: seq<u16>)
    requires |xs| <= 6 && p.dbl == 8 && p.colons == 0
    requires if xs == [] then p == START else p.digits > 0 && p.quad < 0x10000 && p.quads + [p.quad] == xs
    ensures Reads(p, "::", Parser(xs, 0, 0, 2, |xs|))
  {
    hide Loop;
    ReadsOne(p, ':');
    var q := Take(p, ':').p;
    assert q == Parser(xs, 0, 0, 1, 8);
    ReadsOne(q, ':');
    ReadsAppend(p, ":", q, ":", Parser(xs, 0, 0, 2, |xs|));
    assert ":" + ":" == "::";
  }

  /** The parser after some groups and a double colon. */
  lemma ReadsDouble(xs: seq<u16>)
    requires |xs| <= 6
    ensures Reads(START, Groups(xs) + "::", Parser(xs, 0, 0, 2, |xs|))
  {
    hide Loop, Hex, Take, Reads;
    var p := START;
    if xs != [] {
      ReadsGroups(START, xs);
      p := Pending(START, xs);
      assert [] + xs[..|xs| - 1] + [xs[|xs| - 1]] == xs;
    } else {
      ReadsNothing(START);
    }
    ReadsColons(p, xs);
    ReadsAppend(START, Groups(xs), p, "::", Parser(xs, 0, 0, 2, |xs|));
  }

  lemma ReadsNothing(p: Parser)
    ensures Reads(p, [], p)
  {
  }

  /** The parser after a text with "::", and what it makes of it. */
  lemma ReadsShortened(xs: seq<u16>, ys: seq<u16>) returns (p: Parser)
    requires |xs| + |ys| <= 6
    ensures Reads(START, Groups(xs) + "::" + Groups(ys), p)
    ensures forall n: nat :: Finish(p, n) == Some(xs + Zeros(8 - |xs| - |ys|) + ys, n)
  {
    hide Loop, Hex, Take;
    ReadsDouble(xs);
    var q := Parser(xs, 0, 0, 2, |xs|);
    if ys == [] {
      ReadsNothing(q);
      p := q;
      assert xs[..|xs|] == xs && xs[|xs|..] == ys;
    } else {
      ReadsGroups(q, ys);
      p := Pending(q, ys);
      assert p.quads + [p.quad] == xs + ys;
      assert (xs + ys)[..|xs|] == xs && (xs + ys)[|xs|..] == ys;
    }
    ReadsAppend(START, Groups(xs) + "::", q, Groups(ys), p);
  }

  /** The parser after the whole text, and what it makes of it. */
  lemma ReadsPrinted(a: seq<u16>) returns (p: Parser)
    requires |a| == 8
    ensures Reads(START, Print(a), p) && Finish(p, |Print(a)|) == Some(Blanked(a), |Print(a)|)
  {
    hide Loop, Hex, Take, Groups, Search, Reads;
    SearchBounds(a, 8);
    var s := Search(a, 8);
    if s.max > 1 {
      p := ReadsShortened(a[..s.iMax], a[s.iMax + s.max..]);
    } else {
      ReadsGroups(START, a);
      p := Pending(START, a);
      assert p.quads + [p.quad] == a;
    }
  }

  /** A character that cannot continue an address. */
  predicate Ends(rest: string) {
    rest == [] || (HexValue(rest[0]) == 16 && rest[0] != ':')
  }

  /** Reading a printed address, whatever follows it, uses exactly its text and gives the address
      with the groups that the printer replaced set to zero. */
  lemma RoundTrip(a: seq<u16>, rest: string)
    requires |a| == 8 && Ends(rest)
    ensures Parse(Print(a) + rest) == Some(Blanked(a), |Print(a)|)
  {
    hide Print, Finish, Blanked;
    var p := ReadsPrinted(a);
    LoopAppend(START, Print(a), p, rest);
  }

  /** Lengths of the first and the second run of zero groups (0 if there is none) and the number
      of zero groups. The phase tells which run comes or is being counted. */
  datatype Runs = Runs(phase: nat, first: nat, second: nat, zeros: nat)

  function Count(r: Runs, zero: bool): Runs {
    if zero then
      var phase := if r.phase == 0 then 1 else if r.phase == 2 then 3 else r.phase;
      Runs(phase, r.first + (if phase == 1 then 1 else 0), r.second + (if phase == 3 then 1 else 0), r.zeros + 1)
    else
      r.(phase := if r.phase == 1 then 2 else if r.phase == 3 then 4 else r.phase)
  }

  function RunsOf(a: seq<u16>, i: nat): Runs
    requires i <= |a|
  {
    if i == 0 then Runs(0, 0, 0, 0) else Count(RunsOf(a, i - 1), a[i - 1] == 0)
  }

  /** The printer does not forget a run that is not longer than the best one, and takes it and
      later runs for one: this goes wrong when the second run is not longer than the first, and
      the runs after the first have together more groups than the first. */
  predicate Mistaken(r: Runs) {
    r.second <= r.first && r.first < r.zeros - r.first
  }

  /** The search on a pattern of eight zero and other groups. */
  function ScanOf(z: seq<bool>): Scan
    requires |z| == 8
  {
    var s4 := Look(Look(Look(Look(Scan(8, 0, 8, 0), z[0], 0), z[1], 1), z[2], 2), z[3], 3);
    Look(Look(Look(Look(s4, z[4], 4), z[5], 5), z[6], 6), z[7], 7)
  }

  /** The count on such a pattern. */
  function CountOf(z: seq<bool>): Runs
    requires |z| == 8
  {
    var r4 := Count(Count(Count(Count(Runs(0, 0, 0, 0), z[0]), z[1]), z[2]), z[3]);
    Count(Count(Count(Count(r4, z[4]), z[5]), z[6]), z[7])
  }

  /** Some group that is not zero is among those that "::" replaces. */
  predicate Replaces(z: seq<bool>, s: Scan)
    requires |z| == 8
  {
    s.max > 1 && exists k :: s.iMax <= k < s.iMax + s.max && k < 8 && !z[k]
  }

  /** The search and the count on a pattern agree. */
  predicate Agree(z: seq<bool>)
    requires |z| == 8
  {
    var s2 := Look(Look(Scan(8, 0, 8, 0), z[0], 0), z[1], 1);
    var s4 := Look(Look(s2, z[2], 2), z[3], 3);
    var s6 := Look(Look(s4, z[4], 4), z[5], 5);
    var s := Look(Look(s6, z[6], 6), z[7], 7);
    var r4 := Count(Count(Count(Count(Runs(0, 0, 0, 0), z[0]), z[1]), z[2]), z[3]);
    var r := Count(Count(Count(Count(r4, z[4]), z[5]), z[6]), z[7]);
    (s.max > 1 && exists k :: s.iMax <= k < s.iMax + s.max && k < 8 && !z[k]) <==> Mistaken(r)
  }

  lemma AgreeIs(z: seq<bool>)
    requires |z| == 8
    ensures Agree(z) <==> (Replaces(z, ScanOf(z)) <==> Mistaken(CountOf(z)))
  {
    hide Look, Count, Mistaken;
  }

  lemma AgreeNoNo(z: seq<bool>)
    requires |z| == 8 && !z[0] && !z[1]
    ensures Agree(z)
  {
  }

  lemma AgreeNoYes(z: seq<bool>)
    requires |z| == 8 && !z[0] && z[1]
    ensures Agree(z)
  {
  }

  lemma AgreeYesNo(z: seq<bool>)
    requires |z| == 8 && z[0] && !z[1]
    ensures Agree(z)
  {
  }

  lemma AgreeYesYes(z: seq<bool>)
    requires |z| == 8 && z[0] && z[1]
    ensures Agree(z)
  {
  }

  function ZeroAt(a: seq<u16>): (z: seq<bool>)
    ensures |z| == |a| && forall i :: 0 <= i < |a| ==> z[i] == (a[i] == 0)
  {
    seq(|a|, i requires 0 <= i < |a| => a[i] == 0)
  }

  lemma SearchUnrolled(a: seq<u16>)
    requires |a| == 8
    ensures Search(a, 8) == ScanOf(ZeroAt(a))
  {
    hide Look;
    assert Search(a, 1) == Look(Search(a, 0), a[0] == 0, 0);
    assert Search(a, 2) == Look(Search(a, 1), a[1] == 0, 1);
    assert Search(a, 3) == Look(Search(a, 2), a[2] == 0, 2);
    assert Search(a, 4) == Look(Search(a, 3), a[3] == 0, 3);
    assert Search(a, 5) == Look(Search(a, 4), a[4] == 0, 4);
    assert Search(a, 6) == Look(Search(a, 5), a[5] == 0, 5);
    assert Search(a, 7) == Look(Search(a, 6), a[6] == 0, 6);
  }

  lemma RunsUnrolled(a: seq<u16>)
    requires |a| == 8
    ensures RunsOf(a, 8) == CountOf(ZeroAt(a))
  {
    hide Count;
    assert RunsOf(a, 1) == Count(RunsOf(a, 0), a[0] == 0);
    assert RunsOf(a, 2) == Count(RunsOf(a, 1), a[1] == 0);
    assert RunsOf(a, 3) == Count(RunsOf(a, 2), a[2] == 0);
    assert RunsOf(a, 4) == Count(RunsOf(a, 3), a[3] == 0);
    assert RunsOf(a, 5) == Count(RunsOf(a, 4), a[4] == 0);
    assert RunsOf(a, 6) == Count(RunsOf(a, 5), a[5] == 0);
    assert RunsOf(a, 7) == Count(RunsOf(a, 6), a[6] == 0);
  }

  /** The printer replaces a group that is not zero exactly when it is mistaken about the runs. */
  lemma ReplacedGroups(a: seq<u16>)
    requires |a| == 8
    ensures Blanked(a) == a <==> !Mistaken(RunsOf(a, 8))
  {
    var z, s := ZeroAt(a), Search(a, 8);
    AgreeAll(z);
    ReplacedIf(a, z, s);
  }

  lemma AgreeAll(z: seq<bool>)
    requires |z| == 8
    ensures Agree(z)
  {
    hide Agree;
    if z[0] {
      if z[1] { AgreeYesYes(z); } else { AgreeYesNo(z); }
    } else {
      if z[1] { AgreeNoYes(z); } else { AgreeNoNo(z); }
    }
  }

  lemma ReplacedIf(a: seq<u16>, z: seq<bool>, s: Scan)
    requires |a| == 8 && z == ZeroAt(a) && s == Search(a, 8) && Agree(z)
    ensures Blanked(a) == a <==> !Mistaken(RunsOf(a, 8))
  {
    hide Look, Count, Search, RunsOf, Mistaken, ScanOf, CountOf, Agree, ZeroAt;
    AgreeIs(z);
    SearchUnrolled(a);
    RunsUnrolled(a);
    SearchBounds(a, 8);
    if s.max > 1 {
      BlankedIs(a, s.iMax, s.max);
    }
  }

  lemma BlankedIs(a: seq<u16>, i: nat, n: nat)
    requires i + n <= |a| == 8
    ensures a[..i] + Zeros(n) + a[i + n..] == a <==> forall k :: i <= k < i + n ==> a[k] == 0
  {
    var b := a[..i] + Zeros(n) + a[i + n..];
    assert forall k :: 0 <= k < 8 ==> b[k] == if i <= k < i + n then 0 else a[k];
  }

  /** The groups from i on, n of them, are zero. */
  ghost predicate ZeroRun(a: seq<u16>, i: nat, n: nat) {
    i + n <= |a| && forall k :: i <= k < i + n ==> a[k] == 0
  }

  /** The first of the longest runs of zero groups. */
  ghost predicate FirstLongest(a: seq<u16>, i: nat, n: nat) {
    ZeroRun(a, i, n) && forall j: nat, m: nat :: ZeroRun(a, j, m) ==> m <= n && (m == n ==> n == 0 || i <= j)
  }

  /** How many zero groups follow in a row from the j-th on. */
  function RunAt(z: seq<bool>, j: nat): nat
    decreases |z| - j
  {
    if j < |z| && z[j] then 1 + RunAt(z, j + 1) else 0
  }

  function Upto(zero: bool, rest: nat): nat {
    if zero then 1 + rest else 0
  }

  /** The run at iMax is as long as the search says, no run is longer, and none before is as long. */
  predicate Best(s: Scan, r: nat, j: nat) {
    r <= s.max && (j < s.iMax ==> r < s.max || s.max == 0) && (j == s.iMax ==> r == s.max)
  }

  /** Unless the printer is mistaken, its search on a pattern finds the first longest run. */
  predicate Finds(z: seq<bool>)
    requires |z| == 8
  {
    var s2 := Look(Look(Scan(8, 0, 8, 0), z[0], 0), z[1], 1);
    var s4 := Look(Look(s2, z[2], 2), z[3], 3);
    var s6 := Look(Look(s4, z[4], 4), z[5], 5);
    var s := Look(Look(s6, z[6], 6), z[7], 7);
    var r4 := Count(Count(Count(Count(Runs(0, 0, 0, 0), z[0]), z[1]), z[2]), z[3]);
    var r := Count(Count(Count(Count(r4, z[4]), z[5]), z[6]), z[7]);
    var n7 := Upto(z[7], 0);
    var n6 := Upto(z[6], n7);
    var n5 := Upto(z[5], n6);
    var n4 := Upto(z[4], n5);
    var n3 := Upto(z[3], n4);
    var n2 := Upto(z[2], n3);
    var n1 := Upto(z[1], n2);
    var n0 := Upto(z[0], n1);
    !Mistaken(r) ==>
      && Best(s, n0, 0) && Best(s, n1, 1) && Best(s, n2, 2) && Best(s, n3, 3) && Best(s, n4, 4) && Best(s, n5, 5) && Best(s, n6, 6) && Best(s, n7, 7)
      && (s.max > 0 ==> s.iMax < 8)
  }

  lemma FindsNoNoNo(z: seq<bool>)
    requires |z| == 8 && !z[0] && !z[1] && !z[2]
    ensures Finds(z)
  {
  }

  lemma FindsNoNoYes(z: seq<bool>)
    requires |z| == 8 && !z[0] && !z[1] && z[2]
    ensures Finds(z)
  {
  }

  lemma FindsNoYesNo(z: seq<bool>)
    requires |z| == 8 && !z[0] && z[1] && !z[2]
    ensures Finds(z)
  {
  }

  lemma FindsNoYesYes(z: seq<bool>)
    requires |z| == 8 && !z[0] && z[1] && z[2]
    ensures Finds(z)
  {
  }

  lemma FindsYesNoNo(z: seq<bool>)
    requires |z| == 8 && z[0] && !z[1] && !z[2]
    ensures Finds(z)
  {
  }

  lemma FindsYesNoYes(z: seq<bool>)
    requires |z| == 8 && z[0] && !z[1] && z[2]
    ensures Finds(z)
  {
  }

  lemma FindsYesYesNo(z: seq<bool>)
    requires |z| == 8 && z[0] && z[1] && !z[2]
    ensures Finds(z)
  {
  }

  lemma FindsYesYesYes(z: seq<bool>)
    requires |z| == 8 && z[0] && z[1] && z[2]
    ensures Finds(z)
  {
  }

  lemma FindsAll(z: seq<bool>)
    requires |z| == 8
    ensures Finds(z)
  {
    hide Finds;
    match (z[0], z[1], z[2])
    case (false, false, false) => FindsNoNoNo(z);
    case (false, false, true) => FindsNoNoYes(z);
    case (false, true, false) => FindsNoYesNo(z);
    case (false, true, true) => FindsNoYesYes(z);
    case (true, false, false) => FindsYesNoNo(z);
    case (true, false, true) => FindsYesNoYes(z);
    case (true, true, false) => FindsYesYesNo(z);
    case (true, true, true) => FindsYesYesYes(z);
  }

  /** The same in terms of the pattern's runs. */
  lemma FindsBest(z: seq<bool>, j: nat)
    requires |z| == 8 && !Mistaken(CountOf(z)) && j < 8
    ensures Best(ScanOf(z), RunAt(z, j), j) && (ScanOf(z).max > 0 ==> ScanOf(z).iMax < 8)
  {
    FindsAll(z);
    hide Look, Count, Mistaken, Best;
    RunsAt(z);
  }

  lemma RunsAt(z: seq<bool>)
    requires |z| == 8
    ensures RunAt(z, 8) == 0 && forall j: nat :: j < 8 ==> RunAt(z, j) == Upto(z[j], RunAt(z, j + 1))
  {
  }

  lemma {:induction false} RunAtIs(a: seq<u16>, z: seq<bool>, j: nat)
    requires z == ZeroAt(a) && j <= |a|
    ensures ZeroRun(a, j, RunAt(z, j)) && forall m: nat :: ZeroRun(a, j, m) ==> m <= RunAt(z, j)
    decreases |a| - j
  {
    if j < |a| && z[j] {
      RunAtIs(a, z, j + 1);
      forall m: nat | ZeroRun(a, j, m) && m > 0 ensures m <= RunAt(z, j) {
        assert ZeroRun(a, j + 1, m - 1);
      }
    }
  }

  /** Unless the printer is mistaken, the text has "::" in place of the first longest run of zero
      groups if that has two groups or more, and otherwise all groups. */
  lemma PrintsLongest(a: seq<u16>, i: nat, n: nat)
    requires |a| == 8 && !Mistaken(RunsOf(a, 8)) && FirstLongest(a, i, n)
    ensures Print(a) == if n > 1 then Groups(a[..i]) + "::" + Groups(a[i + n..]) else Groups(a)
  {
    hide Look, Count, Mistaken, Search, RunsOf, ScanOf, CountOf, Groups, ZeroAt;
    var z, s := ZeroAt(a), Search(a, 8);
    SearchUnrolled(a);
    RunsUnrolled(a);
    SearchBounds(a, 8);
    if s.max > 0 {
      FindsBest(z, 0);
      FindsBest(z, s.iMax);
      RunAtIs(a, z, s.iMax);
      assert ZeroRun(a, s.iMax, s.max);
    }
    if n > 0 {
      FindsBest(z, i);
      RunAtIs(a, z, i);
    }
  }

  /** Printing and reading back gives the address exactly when the printer is not mistaken. */
  lemma RoundTripExactly(a: seq<u16>)
    requires |a| == 8
    ensures Parse(Print(a)) == Some(a, |Print(a)|) <==> !Mistaken(RunsOf(a, 8))
  {
    hide Print, Parse, Blanked, Mistaken, RunsOf;
    RoundTrip(a, []);
    assert Print(a) + [] == Print(a);
    ReplacedGroups(a);
  }

  /** At most two runs of zero groups are always printed faithfully. */
  lemma TwoRunsSuffice(a: seq<u16>)
    requires |a| == 8 && RunsOf(a, 8).zeros == RunsOf(a, 8).first + RunsOf(a, 8).second
    ensures Parse(Print(a)) == Some(a, |Print(a)|)
  {
    hide Print, Parse, RunsOf;
    RoundTripExactly(a);
  }

  /** An address that is not read back: its second group that is not zero is lost. */
  lemma Loses() returns (a: seq<u16>)
    ensures |a| == 8 && Parse(Print(a)).Some? && Parse(Print(a)).address != a
  {
    a := [0, 1, 0, 1, 0, 1, 1, 1];
    RunsUnrolled(a);
    assert ZeroAt(a) == [true, false, true, false, true, false, false, false];
    hide Print, Parse;
    RoundTrip(a, []);
    assert Print(a) + [] == Print(a);
    RoundTripExactly(a);
  }
}
