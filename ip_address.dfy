/** The textual IP-address check the request schemas apply
    (`ipaddress.ip_address(v)`): dotted-quad IPv4, or IPv6 with at most one
    `::`, an optional embedded IPv4 tail and an optional `%scope` suffix.
    The rules are those of CPython's `ipaddress` module. */
module IpAddress {
  import opened Wrappers
  import opened Strings

  /** One decimal octet: one to three ASCII digits, no leading zero, at
      most 255. */
  predicate ValidOctet(o: string) {
    1 <= |o| <= 3 && AllDigits(o) && (o == "0" || o[0] != '0') && DigitsValue(o) <= 255
  }

  /** `IPv4Address(s)` accepts `s`. */
  predicate ValidIPv4(s: string) {
    var octets := Split(s, '.');
    |octets| == 4 && forall i :: 0 <= i < 4 ==> ValidOctet(octets[i])
  }

  predicate AllHex(h: string) {
    forall i :: 0 <= i < |h| ==> IsHexDigit(h[i])
  }

  /** One group between colons: one to four hexadecimal digits. */
  predicate ValidHextet(h: string) {
    1 <= |h| <= 4 && AllHex(h)
  }

  /** The indices of the empty groups strictly inside `parts`, from `i` on;
      each one marks a `::`. */
  function InnerEmpty(parts: seq<string>, i: nat): (r: seq<nat>)
    ensures forall k :: 0 <= k < |r| ==> i <= r[k] && r[k] + 1 < |parts| && parts[r[k]] == ""
    decreases |parts| - i
  {
    if i + 1 >= |parts| then []
    else if parts[i] == "" then [i] + InnerEmpty(parts, i + 1)
    else InnerEmpty(parts, i + 1)
  }

  /** The groups of an IPv6 address once an embedded dotted-quad tail is
      replaced by the two groups it stands for; None when that tail is not
      a valid IPv4 address. The two groups are written `0` here: only their
      validity matters, and Python's `%x` rendering of them is always one
      to four hex digits. */
  function Groups(parts: seq<string>): Option<seq<string>>
    requires |parts| >= 1
  {
    var last := parts[|parts| - 1];
    if '.' in last then
      if ValidIPv4(last) then Some(parts[..|parts| - 1] + ["0", "0"]) else None
    else Some(parts)
  }

  /** The `::` rules for the groups of an address. */
  predicate ValidGroups(parts: seq<string>) {
    |parts| <= 9 && |parts| >= 1 &&
    var skips := InnerEmpty(parts, 1);
    if |skips| > 1 then false
    else if |skips| == 1 then
      var k := skips[0];
      var hi0 := k;
      var lo0 := |parts| - k - 1;
      (parts[0] == "" ==> hi0 == 1) &&
      (parts[|parts| - 1] == "" ==> lo0 == 1) &&
      var hi := if parts[0] == "" then 0 else hi0;
      var lo := if parts[|parts| - 1] == "" then 0 else lo0;
      8 - (hi + lo) >= 1 &&
      (forall i :: 0 <= i < hi ==> ValidHextet(parts[i])) &&
      (forall i :: |parts| - lo <= i < |parts| ==> ValidHextet(parts[i]))
    else
      |parts| == 8 && forall i :: 0 <= i < 8 ==> ValidHextet(parts[i])
  }

  /** `IPv6Address._ip_int_from_string` accepts `a`. */
  predicate ValidIPv6Address(a: string) {
    a != [] &&
    var parts := Split(a, ':');
    |parts| >= 3 &&
    var groups := Groups(parts);
    groups.Some? && ValidGroups(groups.value)
  }

  function IndexOf(s: string, c: char): (r: nat)
    ensures r <= |s|
    ensures c !in s[..r]
    ensures r < |s| ==> s[r] == c
    ensures r == |s| ==> c !in s
  {
    if s == [] then 0
    else if s[0] == c then 0
    else
      var k := IndexOf(s[1..], c);
      assert s[1..][..k] == s[1..k + 1];
      assert s[..k + 1] == [s[0]] + s[1..][..k];
      k + 1
  }

  /** `IPv6Address(s)` accepts `s`: no `/`, then an optional non-empty
      `%scope` without a second `%`, then a valid address. */
  predicate ValidIPv6(s: string) {
    '/' !in s &&
    var p := IndexOf(s, '%');
    if p == |s| then ValidIPv6Address(s)
    else
      var scope := s[p + 1..];
      scope != [] && '%' !in scope && ValidIPv6Address(s[..p])
  }

  /** `ipaddress.ip_address(s)` accepts `s`. */
  predicate ValidIp(s: string) {
    ValidIPv4(s) || ValidIPv6(s)
  }

  // ---- Printing dotted quads -------------------------------------------

  function DottedQuad(a: nat, b: nat, c: nat, d: nat): string {
    NatToString(a) + "." + NatToString(b) + "." + NatToString(c) + "." + NatToString(d)
  }

  lemma {:induction false} NatToStringShape(n: nat)
    ensures n < 10 ==> |NatToString(n)| == 1
    ensures 10 <= n < 100 ==> |NatToString(n)| == 2
    ensures 100 <= n < 1000 ==> |NatToString(n)| == 3
    ensures n > 0 ==> NatToString(n)[0] != '0'
    ensures n == 0 ==> NatToString(n) == "0"
    decreases n
  {
    if n >= 10 {
      NatToStringShape(n / 10);
      assert NatToString(n)[0] == NatToString(n / 10)[0];
    }
  }

  lemma PrintedOctet(n: nat)
    requires n <= 255
    ensures ValidOctet(NatToString(n))
  {
    NatToStringShape(n);
    NatToStringValue(n);
  }

  lemma Split4(a: string, b: string, c: string, d: string, sep: char)
    requires sep !in a && sep !in b && sep !in c && sep !in d
    ensures Split(a + [sep] + b + [sep] + c + [sep] + d, sep) == [a, b, c, d]
  {
    SplitWithout(d, sep);
    SplitCons(c, d, sep);
    var cd := c + [sep] + d;
    SplitCons(b, cd, sep);
    var bcd := b + [sep] + cd;
    SplitCons(a, bcd, sep);
    JoinedRight(a, b, c, d, sep);
  }

  /** The joined text, grouped from the right. */
  lemma JoinedRight(a: string, b: string, c: string, d: string, sep: char)
    ensures a + [sep] + b + [sep] + c + [sep] + d == a + [sep] + (b + [sep] + (c + [sep] + d))
  {
  }

  /** Printing four octets with dots gives an address the IPv4 parser
      accepts. */
  lemma DottedQuadValid(a: nat, b: nat, c: nat, d: nat)
    requires a <= 255 && b <= 255 && c <= 255 && d <= 255
    ensures ValidIPv4(DottedQuad(a, b, c, d))
  {
    var sa, sb, sc, sd := NatToString(a), NatToString(b), NatToString(c), NatToString(d);
    NonDigitAbsent(sa, '.'); NonDigitAbsent(sb, '.'); NonDigitAbsent(sc, '.'); NonDigitAbsent(sd, '.');
    Split4(sa, sb, sc, sd, '.');
    assert DottedQuad(a, b, c, d) == sa + ['.'] + sb + ['.'] + sc + ['.'] + sd;
    PrintedOctet(a); PrintedOctet(b); PrintedOctet(c); PrintedOctet(d);
  }

  /** An octet above 255 is refused. */
  lemma OctetTooLarge()
    ensures !ValidOctet("256")
  {
    assert "256"[..2] == "25" && "25"[..1] == "2" && "2"[..0] == "";
    assert DigitsValue("256") == 256;
  }

  /** A leading zero is refused. */
  lemma LeadingZeroRefused()
    ensures !ValidOctet("01")
  {
  }

  /** The loopback `::1` is a valid IPv6 address. */
  lemma LoopbackIPv6()
    ensures ValidIp("::1")
  {
    var s := "::1";
    assert IndexOf(s, '%') == 3;
    assert s[1..] == ":1" && s[1..][1..] == "1" && "1"[1..] == "";
    SplitWithout("1", ':');
    assert Split(":1", ':') == ["", "1"];
    assert Split(s, ':') == ["", "", "1"];
    assert InnerEmpty(["", "", "1"], 1) == [1];
    assert Groups(["", "", "1"]) == Some(["", "", "1"]);
  }
}
