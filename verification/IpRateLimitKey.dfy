/** The key that per-address limits count an address under (ipRateLimitKey in rate-limit.ts):
    an IPv4 address itself, also when it comes as ::ffff:a.b.c.d, and the /64 prefix of any
    other IPv6 address, however that is spelled (section 2.2 of RFC 4291). A spelling is taken
    as split at "::" and ":", in lower case and without a zone. */
module IpRateLimitKey {
  import opened Basics

  /** One to four hexadecimal digits. */
  type Group = string

  datatype IPv4 = IPv4(a: nat, b: nat, c: nat, d: nat)

  predicate IsIPv4(ip: IPv4) {
    ip.a < 256 && ip.b < 256 && ip.c < 256 && ip.d < 256
  }

  /** `tail` is what follows "::", if that is there; `ipv4` a dotted IPv4 address at the very
      end, which stands for two groups. */
  datatype Spelling = Spelling(head: seq<Group>, tail: Option<seq<Group>>, ipv4: Option<IPv4>)

  datatype Address = V4(ip: IPv4) | V6(spelling: Spelling)

  predicate IsHex(c: char) {
    '0' <= c <= '9' || 'a' <= c <= 'f'
  }

  predicate IsGroup(g: Group) {
    1 <= |g| <= 4 && forall c :: c in g ==> IsHex(c)
  }

  /** Groups spelled out, the dotted address counting for two. */
  function Width(s: Spelling): nat {
    |s.head| + (if s.tail.None? then 0 else |s.tail.value|) + (if s.ipv4.None? then 0 else 2)
  }

  predicate IsSpelling(s: Spelling) {
    && (forall g :: g in s.head ==> IsGroup(g))
    && (s.tail.Some? ==> forall g :: g in s.tail.value ==> IsGroup(g))
    && (s.ipv4.Some? ==> IsIPv4(s.ipv4.value))
    && (if s.tail.None? then Width(s) == 8 else Width(s) < 8)
  }

  predicate IsAddress(a: Address) {
    match a
    case V4(ip) => IsIPv4(ip)
    case V6(s) => IsSpelling(s)
  }

  /** The one spelling of an IPv4-mapped address that is recognised: ::ffff:a.b.c.d */
  predicate IsMapped(s: Spelling) {
    s.head == [] && s.tail == Some(["ffff"]) && s.ipv4.Some?
  }

  function Zeros(n: nat): seq<Group> {
    seq(n, _ => "0")
  }

  /** The hexadecimal groups after expanding "::". */
  function Expanded(s: Spelling): seq<Group>
    requires IsSpelling(s)
  {
    if s.tail.None? then s.head else s.head + Zeros(8 - Width(s)) + s.tail.value
  }

  /** Without leading zeros, but never empty. */
  function Stripped(g: Group): Group {
    if |g| > 1 && g[0] == '0' then Stripped(g[1..]) else g
  }

  function Joined(parts: seq<string>, separator: char): string {
    if parts == [] then "" else if |parts| == 1 then parts[0] else parts[0] + [separator] + Joined(parts[1..], separator)
  }

  function First(groups: seq<Group>, n: nat): seq<Group> {
    if |groups| < n then groups else groups[..n]
  }

  function StripAll(groups: seq<Group>): seq<Group> {
    seq(|groups|, i requires 0 <= i < |groups| => Stripped(groups[i]))
  }

  function Decimal(n: nat): string {
    (if n < 10 then "" else Decimal(n / 10)) + [('0' as int + n % 10) as char]
  }

  function Parts(ip: IPv4): seq<string> {
    [Decimal(ip.a), Decimal(ip.b), Decimal(ip.c), Decimal(ip.d)]
  }

  function Dotted(ip: IPv4): string {
    Joined(Parts(ip), '.')
  }

  function PrefixKey(s: Spelling): string
    requires IsSpelling(s)
  {
    Joined(StripAll(First(Expanded(s), 4)), ':') + "::/64"
  }

  function Key(a: Address): string
    requires IsAddress(a)
  {
    match a
    case V4(ip) => Dotted(ip)
    case V6(s) => if IsMapped(s) then Dotted(s.ipv4.value) else PrefixKey(s)
  }

  // ---------------------------------------------------------------- what a spelling means

  function Digit(c: char): nat {
    if '0' <= c <= '9' then (c as int - '0' as int) else if 'a' <= c <= 'f' then (c as int - 'a' as int) + 10 else 0
  }

  function Value(g: Group): nat {
    if g == "" then 0 else Value(g[..|g| - 1]) * 16 + Digit(g[|g| - 1])
  }

  /** The 16-bit number at position `k` of the eight: "::" stands for as many zeros as it takes. */
  function Number(s: Spelling, k: nat): nat
    requires IsSpelling(s) && k < 4
  {
    if k < |s.head| then Value(s.head[k])
    else if s.tail.None? || Width(s) + k < |s.head| + 8 then 0
    else Value(s.tail.value[Width(s) + k - |s.head| - 8])
  }

  /** The four leading 16-bit numbers of the address. */
  function Prefix(s: Spelling): seq<nat>
    requires IsSpelling(s)
  {
    seq(4, i requires 0 <= i < 4 => Number(s, i))
  }

  lemma {:induction false} ValueFirst(g: Group, c: char)
    ensures Value([c] + g) == Digit(c) * Power(|g|) + Value(g)
  {
    if g == "" {
      assert ([c] + g)[..0] == "";
    } else {
      var front := g[..|g| - 1];
      assert ([c] + g)[..|g|] == [c] + front && ([c] + g)[|g|] == g[|g| - 1];
      ValueFirst(front, c);
      Regroup(Digit(c), Power(|front|), Value(front), Digit(g[|g| - 1]));
      assert Power(|g|) == Power(|front|) * 16;
    }
  }

  lemma Regroup(high: nat, unit: nat, low: nat, digit: nat)
    ensures (high * unit + low) * 16 + digit == high * (unit * 16) + (low * 16 + digit)
  {
  }

  function Power(n: nat): nat {
    if n == 0 then 1 else Power(n - 1) * 16
  }

  lemma {:induction false} ValueBound(g: Group)
    ensures Value(g) < Power(|g|)
  {
    if g != "" { ValueBound(g[..|g| - 1]); }
  }

  lemma {:induction false} PowerGrows(a: nat, b: nat)
    requires a <= b
    ensures Power(a) <= Power(b)
  {
    if a < b { PowerGrows(a, b - 1); }
  }

  lemma {:induction false} StrippedIsGroup(g: Group)
    requires IsGroup(g)
    ensures IsGroup(Stripped(g)) && Value(Stripped(g)) == Value(g)
    ensures |Stripped(g)| > 1 ==> Stripped(g)[0] != '0'
  {
    if |g| > 1 && g[0] == '0' {
      ValueFirst(g[1..], '0');
      assert g == ['0'] + g[1..];
      StrippedIsGroup(g[1..]);
    }
  }

  lemma {:induction false} SameLengthSameValue(a: Group, b: Group)
    requires |a| == |b| && Value(a) == Value(b) && (forall c :: c in a ==> IsHex(c)) && (forall c :: c in b ==> IsHex(c))
    ensures a == b
  {
    if a != "" {
      var n := |a| - 1;
      assert a[n] in a && b[n] in b;
      assert a == a[..n] + [a[n]] && b == b[..n] + [b[n]];
      assert Digit(a[n]) < 16 && Digit(b[n]) < 16;
      SameLengthSameValue(a[..n], b[..n]);
    }
  }

  /** A group without leading zeros is longer exactly when its number is. */
  lemma LeadingDigit(g: Group)
    requires IsGroup(g) && |g| > 1 && g[0] != '0'
    ensures Value(g) >= Power(|g| - 1)
  {
    assert g == [g[0]] + g[1..] && g[0] in g;
    ValueFirst(g[1..], g[0]);
    assert Digit(g[0]) >= 1;
    assert Digit(g[0]) * Power(|g| - 1) >= Power(|g| - 1);
  }

  /** Stripping leading zeros gives each number one spelling. */
  lemma StrippedIsCanonical(a: Group, b: Group)
    requires IsGroup(a) && IsGroup(b)
    ensures Stripped(a) == Stripped(b) <==> Value(a) == Value(b)
  {
    StrippedIsGroup(a);
    StrippedIsGroup(b);
    var x, y := Stripped(a), Stripped(b);
    if Value(a) == Value(b) {
      if |x| < |y| { Shorter(x, y); } else if |y| < |x| { Shorter(y, x); }
      SameLengthSameValue(x, y);
    }
  }

  lemma Shorter(x: Group, y: Group)
    requires IsGroup(x) && IsGroup(y) && |x| < |y| && y[0] != '0'
    ensures Value(x) < Value(y)
  {
    ValueBound(x);
    PowerGrows(|x|, |y| - 1);
    LeadingDigit(y);
  }

  /** The separator does not occur in a part, so joining loses nothing. */
  lemma {:induction false} JoinedIsInjective(a: seq<string>, b: seq<string>, separator: char)
    requires |a| == |b| && Joined(a, separator) == Joined(b, separator)
    requires (forall g :: g in a ==> separator !in g) && (forall g :: g in b ==> separator !in g)
    ensures a == b
  {
    if |a| > 1 {
      SameFirst(a[0], b[0], Joined(a[1..], separator), Joined(b[1..], separator), separator);
      JoinedIsInjective(a[1..], b[1..], separator);
      assert a == [a[0]] + a[1..] && b == [b[0]] + b[1..];
    }
  }

  lemma SameFirst(a: string, b: string, x: string, y: string, separator: char)
    requires separator !in a && separator !in b && a + [separator] + x == b + [separator] + y
    ensures a == b && x == y
  {
    if |a| < |b| { Clash(a, b, x, y, separator); } else if |b| < |a| { Clash(b, a, y, x, separator); }
    var s, t := a + [separator] + x, b + [separator] + y;
    assert a == s[..|a|] == t[..|b|] == b;
    assert x == s[|a| + 1..] == t[|b| + 1..] == y;
  }

  lemma Clash(a: string, b: string, x: string, y: string, separator: char)
    requires separator !in b && |a| < |b|
    ensures a + [separator] + x != b + [separator] + y
  {
    assert b[|a|] in b && (b + [separator] + y)[|a|] == b[|a|] && (a + [separator] + x)[|a|] == separator;
  }

  lemma ExpandedGroups(s: Spelling)
    requires IsSpelling(s)
    ensures |First(Expanded(s), 4)| == 4 && forall g :: g in Expanded(s) ==> IsGroup(g)
    ensures forall k: nat :: k < 4 ==> Value(First(Expanded(s), 4)[k]) == Number(s, k)
  {
    assert IsGroup("0");
    assert Value("0") == 0 by { assert "0"[..0] == ""; }
  }

  /** Two spellings have one prefix key exactly when they agree in the first 64 bits of the
      address they spell. */
  lemma PrefixKeyIsPrefix(a: Spelling, b: Spelling)
    requires IsSpelling(a) && IsSpelling(b)
    ensures PrefixKey(a) == PrefixKey(b) <==> Prefix(a) == Prefix(b)
  {
    ExpandedGroups(a);
    ExpandedGroups(b);
    var x, y := First(Expanded(a), 4), First(Expanded(b), 4);
    forall g | g in x + y ensures IsGroup(g) && IsGroup(Stripped(g)) {
      StrippedIsGroup(g);
    }
    forall i | 0 <= i < 4 ensures Stripped(x[i]) == Stripped(y[i]) <==> Prefix(a)[i] == Prefix(b)[i] {
      assert x[i] in x + y && y[i] in x + y;
      StrippedIsCanonical(x[i], y[i]);
    }
    KeysDecide(x, y);
  }

  lemma KeysDecide(x: seq<Group>, y: seq<Group>)
    requires |x| == |y| == 4 && forall g :: g in x + y ==> IsGroup(Stripped(g))
    ensures Joined(StripAll(x), ':') + "::/64" == Joined(StripAll(y), ':') + "::/64" <==> forall i :: 0 <= i < 4 ==> Stripped(x[i]) == Stripped(y[i])
  {
    assert forall i :: 0 <= i < 4 ==> x[i] in x + y && y[i] in x + y;
    hide Joined, Stripped, IsGroup;
    SuffixedIsInjective(StripAll(x), StripAll(y), "::/64");
    assert forall i :: 0 <= i < 4 ==> StripAll(x)[i] == Stripped(x[i]) && StripAll(y)[i] == Stripped(y[i]);
  }

  lemma GroupHasNoColon(g: Group)
    requires IsGroup(g)
    ensures ':' !in g
  {
  }

  lemma SuffixedIsInjective(p: seq<Group>, q: seq<Group>, end: string)
    requires |p| == |q| && (forall g :: g in p ==> IsGroup(g)) && (forall g :: g in q ==> IsGroup(g))
    ensures Joined(p, ':') + end == Joined(q, ':') + end <==> p == q
  {
    hide Joined, IsGroup;
    if Joined(p, ':') + end == Joined(q, ':') + end {
      assert |Joined(p, ':')| == |Joined(q, ':')|;
      assert Joined(p, ':') == (Joined(p, ':') + end)[..|Joined(p, ':')|] && Joined(q, ':') == (Joined(q, ':') + end)[..|Joined(q, ':')|];
      forall g | g in p || g in q ensures ':' !in g { GroupHasNoColon(g); }
      JoinedIsInjective(p, q, ':');
    }
  }

  // ---------------------------------------------------------------- IPv4

  function DecimalValue(s: string): nat {
    if s == "" then 0 else DecimalValue(s[..|s| - 1]) * 10 + Digit(s[|s| - 1])
  }

  lemma {:induction false} DecimalReadsBack(n: nat)
    ensures DecimalValue(Decimal(n)) == n
    ensures forall c :: c in Decimal(n) ==> '0' <= c <= '9'
  {
    var last := ('0' as int + n % 10) as char;
    assert Digit(last) == n % 10;
    if n >= 10 {
      DecimalReadsBack(n / 10);
      assert Decimal(n)[..|Decimal(n)| - 1] == Decimal(n / 10);
    } else {
      assert Decimal(n)[..|Decimal(n)| - 1] == "";
    }
  }

  lemma PartsAreDigits(ip: IPv4)
    ensures forall part, c :: part in Parts(ip) && c in part ==> '0' <= c <= '9'
  {
    DecimalReadsBack(ip.a);
    DecimalReadsBack(ip.b);
    DecimalReadsBack(ip.c);
    DecimalReadsBack(ip.d);
    hide Decimal;
  }

  lemma DottedIsInjective(x: IPv4, y: IPv4)
    ensures Dotted(x) == Dotted(y) <==> x == y
  {
    if Dotted(x) == Dotted(y) {
      PartsAreDigits(x);
      PartsAreDigits(y);
      JoinedIsInjective(Parts(x), Parts(y), '.');
      assert Parts(x)[0] == Parts(y)[0] && Parts(x)[1] == Parts(y)[1] && Parts(x)[2] == Parts(y)[2] && Parts(x)[3] == Parts(y)[3];
      DecimalReadsBack(x.a);
      DecimalReadsBack(x.b);
      DecimalReadsBack(x.c);
      DecimalReadsBack(x.d);
      DecimalReadsBack(y.a);
      DecimalReadsBack(y.b);
      DecimalReadsBack(y.c);
      DecimalReadsBack(y.d);
      hide Decimal, Joined;
    }
  }

  lemma {:induction false} JoinedCharacters(parts: seq<string>, separator: char)
    ensures forall c :: c in Joined(parts, separator) ==> c == separator || exists p :: p in parts && c in p
  {
    if |parts| > 1 {
      JoinedCharacters(parts[1..], separator);
      assert parts[0] in parts && forall p :: p in parts[1..] ==> p in parts;
    }
  }

  lemma DottedHasNoSlash(ip: IPv4)
    ensures '/' !in Dotted(ip)
  {
    JoinedCharacters(Parts(ip), '.');
    PartsAreDigits(ip);
  }

  lemma PrefixKeyHasSlash(s: Spelling)
    requires IsSpelling(s)
    ensures '/' in PrefixKey(s)
  {
    var key := PrefixKey(s);
    assert key[|key| - 3] == '/';
  }

  // ---------------------------------------------------------------- what is counted together

  /** A single IPv4 host, or an IPv6 network by the first 64 bits. */
  datatype Counted = Host(ip: IPv4) | Network(prefix: seq<nat>)

  function CountedAs(a: Address): Counted
    requires IsAddress(a)
  {
    match a
    case V4(ip) => Host(ip)
    case V6(s) =>
      if |s.head| == 0 && s.tail.Some? && s.tail.value == ["ffff"] && s.ipv4.Some? then Host(s.ipv4.value) else Network(Prefix(s))
  }

  /** Two addresses share a key exactly when both are, or map, the same IPv4 address, or both are
      other IPv6 addresses that agree in their first 64 bits, however they are spelled. */
  lemma KeysAgree(a: Address, b: Address)
    requires IsAddress(a) && IsAddress(b)
    ensures Key(a) == Key(b) <==> CountedAs(a) == CountedAs(b)
  {
    hide PrefixKey, Dotted, Prefix;
    if CountedAs(a).Host? && CountedAs(b).Host? {
      DottedIsInjective(CountedAs(a).ip, CountedAs(b).ip);
    } else if CountedAs(a).Network? && CountedAs(b).Network? {
      PrefixKeyIsPrefix(a.spelling, b.spelling);
    } else if CountedAs(a).Host? {
      DottedHasNoSlash(CountedAs(a).ip);
      PrefixKeyHasSlash(b.spelling);
    } else {
      PrefixKeyHasSlash(a.spelling);
      DottedHasNoSlash(CountedAs(b).ip);
    }
  }

  /** A mapped address in another spelling is counted with its /64, and so apart from the IPv4
      address it maps. */
  lemma OnlyOneMappedSpelling(ip: IPv4)
    requires IsIPv4(ip)
    ensures var spelled := Spelling(["0", "0", "0", "0", "0", "ffff"], None, Some(ip));
      IsSpelling(spelled) && CountedAs(V6(spelled)) == Network([0, 0, 0, 0]) && Key(V6(spelled)) != Key(V4(ip))
  {
    var spelled := Spelling(["0", "0", "0", "0", "0", "ffff"], None, Some(ip));
    assert IsGroup("0") && IsGroup("ffff");
    assert Value("0") == 0 by { assert "0"[..0] == ""; }
    assert IsSpelling(spelled);
    hide Key;
    assert Prefix(spelled) == [0, 0, 0, 0];
    KeysAgree(V6(spelled), V4(ip));
  }
}
