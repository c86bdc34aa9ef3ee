/**
 Group quota scopes (`internal/billing/scope.go`): percent-encoding as in section 2.1 of
 RFC 3986, with the escape set of Go's `url.PathEscape`.
 */
module Scope {
  import opened Text

  const SLASH: byte := 47
  const PERCENT: byte := 37
  const GROUP_PREFIX: Str := [103, 114, 111, 117, 112, 58]

  /** Bytes `url.PathEscape` leaves alone: letters, digits, `-_.~` and `$&+:=@`. */
  predicate Plain(c: byte) {
    || 48 <= c <= 57 || 65 <= c <= 90 || 97 <= c <= 122
    || c in {45, 95, 46, 126}
    || c in {36, 38, 43, 58, 61, 64}
  }

  function Hex(n: byte): (c: byte)
    requires n < 16
    ensures Plain(c) && Unhex(c) == Some(n)
  {
    if n < 10 then 48 + n else 55 + n
  }

  /** Value of a hexadecimal digit of either case. */
  function Unhex(c: byte): (r: Option<byte>)
    ensures r.Some? ==> r.value < 16
  {
    if 48 <= c <= 57 then Some(c - 48)
    else if 65 <= c <= 70 then Some(c - 55)
    else if 97 <= c <= 102 then Some(c - 87)
    else None
  }

  function EscapeByte(c: byte): Str {
    if Plain(c) then [c] else [PERCENT, Hex(c / 16), Hex(c % 16)]
  }

  function PathEscape(s: Str): Str {
    if s == [] then [] else EscapeByte(s[0]) + PathEscape(s[1..])
  }

  /** `url.PathUnescape`; `None` on a malformed escape. */
  function PathUnescape(s: Str): Option<Str> {
    if s == [] then Some([])
    else if s[0] == PERCENT then
      if |s| < 3 || Unhex(s[1]).None? || Unhex(s[2]).None? then None
      else
        var rest := PathUnescape(s[3..]);
        if rest.None? then None
        else Some([HexPair(Unhex(s[1]).value, Unhex(s[2]).value)] + rest.value)
    else
      var rest := PathUnescape(s[1..]);
      if rest.None? then None else Some([s[0]] + rest.value)
  }

  function HexPair(hi: byte, lo: byte): byte
    requires hi < 16 && lo < 16
  {
    (hi as int * 16 + lo as int) as byte
  }

  /** `strings.Split(s, "/")`. */
  function Split(s: Str): (parts: seq<Str>)
    ensures |parts| >= 1
  {
    if s == [] then [[]]
    else
      var parts := Split(s[1..]);
      if s[0] == SLASH then [[]] + parts
      else [[s[0]] + parts[0]] + parts[1..]
  }

  function GroupScope(tenant: Str, group: Str): Str {
    GROUP_PREFIX + PathEscape(tenant) + [SLASH] + PathEscape(group)
  }

  const UPPER_HEX: Str := [48, 49, 50, 51, 52, 53, 54, 55, 56, 57, 65, 66, 67, 68, 69, 70]

  /** In a path segment the digits, the letters and `-_.~$&+:=@` stay as they are; every other byte becomes
      a percent sign and two upper-case hexadecimal digits. */
  lemma EscapeIs(c: byte)
    ensures var n := c as int;
            PathEscape([c])
            == if 47 < n < 58 || 64 < n < 91 || 96 < n < 123 || n in {45, 95, 46, 126, 36, 38, 43, 58, 61, 64} then [c]
               else [37, UPPER_HEX[n / 16], UPPER_HEX[n % 16]]
    ensures forall a, b :: PathEscape(a + b) == PathEscape(a) + PathEscape(b)
  {
    assert [c][1..] == [];
    assert PathEscape([c]) == EscapeByte(c) + PathEscape([c][1..]);
    HexIs(c / 16);
    HexIs(c % 16);
    forall a, b ensures PathEscape(a + b) == PathEscape(a) + PathEscape(b) {
      EscapeConcat(a, b);
    }
  }

  lemma HexIs(n: byte)
    requires n < 16
    ensures Hex(n) == UPPER_HEX[n as int]
  {
  }

  lemma {:induction false} EscapeConcat(a: Str, b: Str)
    ensures PathEscape(a + b) == PathEscape(a) + PathEscape(b)
  {
    if a == [] {
      assert a + b == b;
    } else {
      assert (a + b)[1..] == a[1..] + b;
      EscapeConcat(a[1..], b);
    }
  }

  /** `ParseGroupScope`; `None` is `ErrInvalidPolicy`. */
  function ParseGroupScope(scope: Str): Option<(Str, Str)> {
    if !(GROUP_PREFIX <= scope) then None
    else
      var parts := Split(scope[|GROUP_PREFIX|..]);
      if |parts| != 2 then None
      else
        var tenant, group := PathUnescape(parts[0]), PathUnescape(parts[1]);
        if tenant.None? || group.None? then None
        else if tenant.value == [] || group.value == [] || GroupScope(tenant.value, group.value) != scope then None
        else Some((tenant.value, group.value))
  }

  lemma {:induction false} UnescapeEscape(s: Str)
    ensures PathUnescape(PathEscape(s)) == Some(s)
  {
    if s != [] {
      var e, rest := EscapeByte(s[0]), PathEscape(s[1..]);
      UnescapeEscape(s[1..]);
      assert s == [s[0]] + s[1..];
      assert (e + rest)[|e|..] == rest;
      if !Plain(s[0]) {
        assert (e + rest)[1] == Hex(s[0] / 16) && (e + rest)[2] == Hex(s[0] % 16);
        assert HexPair(s[0] / 16, s[0] % 16) == s[0];
      }
    }
  }

  lemma {:induction false} EscapedHasNoSlash(s: Str)
    ensures SLASH !in PathEscape(s)
  {
    if s != [] {
      EscapedHasNoSlash(s[1..]);
    }
  }

  lemma {:induction false} SplitPlain(s: Str)
    requires SLASH !in s
    ensures Split(s) == [s]
  {
    if s != [] {
      SplitPlain(s[1..]);
      assert s == [s[0]] + s[1..];
    }
  }

  lemma {:induction false} SplitAtSlash(a: Str, b: Str)
    requires SLASH !in a && SLASH !in b
    ensures Split(a + [SLASH] + b) == [a, b]
  {
    var s := a + [SLASH] + b;
    if a == [] {
      SplitPlain(b);
      assert s[1..] == b;
    } else {
      SplitAtSlash(a[1..], b);
      assert s[1..] == a[1..] + [SLASH] + b;
      assert a == [a[0]] + a[1..];
    }
  }

  lemma SplitScope(tenant: Str, group: Str)
    ensures Split(GroupScope(tenant, group)[|GROUP_PREFIX|..]) == [PathEscape(tenant), PathEscape(group)]
  {
    hide PathEscape, Split;
    EscapedHasNoSlash(tenant);
    EscapedHasNoSlash(group);
    SplitAtSlash(PathEscape(tenant), PathEscape(group));
    assert GroupScope(tenant, group)[|GROUP_PREFIX|..] == PathEscape(tenant) + [SLASH] + PathEscape(group);
  }

  /** The parser accepts exactly the encoder's images of non-empty names, and inverts the encoder. */
  lemma ParseExact(scope: Str, tenant: Str, group: Str)
    ensures ParseGroupScope(scope) == Some((tenant, group))
            <==> tenant != [] && group != [] && scope == GroupScope(tenant, group)
  {
    hide PathEscape, PathUnescape, Split;
    if scope == GroupScope(tenant, group) {
      SplitScope(tenant, group);
      UnescapeEscape(tenant);
      UnescapeEscape(group);
    }
  }

  /** Distinct tenant and group pairs never share a scope. */
  lemma GroupScopeInjective(t1: Str, g1: Str, t2: Str, g2: Str)
    requires GroupScope(t1, g1) == GroupScope(t2, g2)
    ensures t1 == t2 && g1 == g2
  {
    hide PathEscape, PathUnescape, Split;
    SplitScope(t1, g1);
    SplitScope(t2, g2);
    UnescapeEscape(t1);
    UnescapeEscape(t2);
    UnescapeEscape(g1);
    UnescapeEscape(g2);
  }
}
