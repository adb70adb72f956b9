/** Values every bot shares: Python's `None`, truthiness, chat types, replies and `dict.get`. */
module Common {
  datatype Option<T> = None | Some(value: T)

  /** A Python truthiness test on an id: `None` and `0` are falsy. */
  predicate Truthy(x: Option<int>) {
    x.Some? && x.value != 0
  }

  /** The type of the chat an update comes from. */
  datatype ChatType = Private | Group | Supergroup | Channel

  /** `chat.type in ['group', 'supergroup']`; a missing chat is not a group. */
  predicate InGroup(chat: Option<ChatType>) {
    chat == Some(Group) || chat == Some(Supergroup)
  }

  /** The message a command replies to, if any, with that message's sender (absent for channel posts). */
  datatype ReplyTo = NoReply | ReplyTo(fromUser: Option<int>)

  /** Python's `d.get(k, default)` on a dictionary of integers. */
  function Get<K>(m: map<K, int>, k: K, default: int): int {
    if k in m then m[k] else default
  }
}

/**
 * The handful of Python `str` operations the bots use to read commands,
 * arguments and callback data: `strip()`, `lower()`, `split()`,
 * `split(c)`, `split(c, 1)`, `' '.join`, `startswith`, `isdigit()` and
 * `int()` applied to one token.
 */
module PyStr {
  import opened Common

  /** The characters for which Python's `str.isspace()` holds. */
  predicate IsSpace(c: char) {
    || c == ' ' || ('\t' <= c <= '\r') || ('\U{1c}' <= c <= '\U{1f}')
    || c == '\U{85}' || c == '\U{a0}' || c == '\U{1680}'
    || ('\U{2000}' <= c <= '\U{200a}') || c == '\U{2028}' || c == '\U{2029}'
    || c == '\U{202f}' || c == '\U{205f}' || c == '\U{3000}'
  }

  predicate NoSpace(s: string) {
    forall i :: 0 <= i < |s| ==> !IsSpace(s[i])
  }

  /** `s` without its leading whitespace. */
  function TrimLeft(s: string): (r: string)
    ensures |r| <= |s|
    ensures r == [] || !IsSpace(r[0])
  {
    if s != [] && IsSpace(s[0]) then TrimLeft(s[1..]) else s
  }

  /** `s` without its trailing whitespace. */
  function TrimRight(s: string): (r: string)
    ensures |r| <= |s| && (r != [] ==> r[0] == s[0])
    ensures r == [] || !IsSpace(r[|r| - 1])
  {
    if s != [] && IsSpace(s[|s| - 1]) then TrimRight(s[..|s| - 1]) else s
  }

  /** `TrimLeft` drops a prefix made only of whitespace. */
  lemma {:induction false} TrimLeftSlice(s: string)
    ensures TrimLeft(s) == s[|s| - |TrimLeft(s)|..]
    ensures forall i :: 0 <= i < |s| - |TrimLeft(s)| ==> IsSpace(s[i])
  {
    if s != [] && IsSpace(s[0]) {
      TrimLeftSlice(s[1..]);
      assert s[1..][|s| - 1 - |TrimLeft(s)|..] == s[|s| - |TrimLeft(s)|..];
      forall i | 0 <= i < |s| - |TrimLeft(s)| ensures IsSpace(s[i]) {
        if i > 0 { assert s[i] == s[1..][i - 1]; }
      }
    }
  }

  /** `TrimRight` drops a suffix made only of whitespace. */
  lemma {:induction false} TrimRightSlice(s: string)
    ensures TrimRight(s) == s[..|TrimRight(s)|]
    ensures forall i :: |TrimRight(s)| <= i < |s| ==> IsSpace(s[i])
  {
    if s != [] && IsSpace(s[|s| - 1]) {
      var p := s[..|s| - 1];
      TrimRightSlice(p);
      assert p[..|TrimRight(s)|] == s[..|TrimRight(s)|];
      forall i | |TrimRight(s)| <= i < |s| ensures IsSpace(s[i]) {
        if i < |s| - 1 { assert s[i] == p[i]; }
      }
    }
  }

  /** Python's `s.strip()`: no whitespace at either end. */
  function Strip(s: string): (r: string)
    ensures |r| <= |s|
    ensures r == [] || (!IsSpace(r[0]) && !IsSpace(r[|r| - 1]))
  {
    TrimRight(TrimLeft(s))
  }

  lemma {:induction false} StripNoSpace(s: string)
    requires NoSpace(s)
    ensures Strip(s) == s
  {
    assert s == [] || !IsSpace(s[0]);
    assert TrimLeft(s) == s;
    assert s == [] || !IsSpace(s[|s| - 1]);
    assert TrimRight(s) == s;
  }

  /**
   * Python's `lower()` of one character, for every character whose
   * lowercase form contains an ASCII letter: `A`-`Z`, the KELVIN SIGN
   * (lowercase `k`) and LATIN CAPITAL LETTER I WITH DOT ABOVE (lowercase
   * `i` followed by a combining dot). Other characters are kept as they
   * are; that cannot change whether a lowered string equals an ASCII word.
   */
  function LowerChar(c: char): string {
    if 'A' <= c <= 'Z' then [(c as int + 32) as char]
    else if c == '\U{212A}' then "k"
    else if c == '\U{130}' then "i\U{307}"
    else [c]
  }

  function Lower(s: string): string {
    if s == [] then [] else LowerChar(s[0]) + Lower(s[1..])
  }

  /** No character of `s` is changed by `Lower`. */
  predicate LowerFixed(s: string) {
    forall i :: 0 <= i < |s| ==> !('A' <= s[i] <= 'Z') && s[i] != '\U{212A}' && s[i] != '\U{130}'
  }

  lemma {:induction false} LowerOfLowercase(s: string)
    requires LowerFixed(s)
    ensures Lower(s) == s
  {
    if s != [] {
      LowerOfLowercase(s[1..]);
    }
  }

  lemma {:induction false} LowerAppend(a: string, b: string)
    ensures Lower(a + b) == Lower(a) + Lower(b)
  {
    if a == [] {
      assert a + b == b;
    } else {
      assert (a + b)[0] == a[0];
      assert (a + b)[1..] == a[1..] + b;
      LowerAppend(a[1..], b);
    }
  }

  predicate StartsWith(s: string, p: string) {
    |p| <= |s| && s[..|p|] == p
  }

  // ----- split on one character -----

  /** The position of the first `c` in `s`. */
  function IndexOf(s: string, c: char): (i: nat)
    requires c in s
    ensures i < |s| && s[i] == c && c !in s[..i]
  {
    if s[0] == c then 0 else
      assert c in s[1..];
      var j := IndexOf(s[1..], c);
      assert s[..j + 1] == [s[0]] + s[1..][..j];
      j + 1
  }

  /** Python's `s.split(c)`: the pieces between occurrences of `c`. */
  function SplitOn(s: string, c: char): (r: seq<string>)
    ensures |r| >= 1
    ensures forall i :: 0 <= i < |r| ==> c !in r[i]
    decreases |s|
  {
    if c !in s then [s]
    else
      var i := IndexOf(s, c);
      [s[..i]] + SplitOn(s[i + 1..], c)
  }

  /** Python's `s.split(c, 1)` when `c` occurs in `s`: what lies before and after the first `c`. */
  function SplitFirst(s: string, c: char): (r: (string, string))
    requires c in s
    ensures s == r.0 + [c] + r.1 && c !in r.0
  {
    var i := IndexOf(s, c);
    assert s == s[..i] + [c] + s[i + 1..];
    (s[..i], s[i + 1..])
  }

  /** Two pieces free of `c`, joined by `c`, split back into exactly those two pieces. */
  lemma {:induction false} SplitOnJoinTwo(a: string, b: string, c: char)
    requires c !in a && c !in b
    ensures SplitOn(a + [c] + b, c) == [a, b]
  {
    var s := a + [c] + b;
    assert s[|a|] == c;
    var i := IndexOf(s, c);
    if i < |a| {
      assert false;
    }
    if i > |a| {
      assert false;
    }
    assert s[..i] == a;
    assert s[i + 1..] == b;
  }

  /** A piece free of `c` in front of `c` splits off as the first piece. */
  lemma {:induction false} SplitOnCons(a: string, rest: string, c: char)
    requires c !in a
    ensures SplitOn(a + [c] + rest, c) == [a] + SplitOn(rest, c)
  {
    var s := a + [c] + rest;
    assert s[|a|] == c;
    var i := IndexOf(s, c);
    if i < |a| {
      assert false;
    }
    if i > |a| {
      assert false;
    }
    assert s[..i] == a;
    assert s[i + 1..] == rest;
  }

  /** Three pieces free of `c`, joined by `c`, split back into exactly those three pieces. */
  lemma SplitOnThree(a: string, b: string, d: string, c: char)
    requires c !in a && c !in b && c !in d
    ensures SplitOn(a + [c] + b + [c] + d, c) == [a, b, d]
  {
    var rest := b + [c] + d;
    assert a + [c] + b + [c] + d == a + [c] + rest;
    SplitOnCons(a, rest, c);
    SplitOnJoinTwo(b, d, c);
  }

  // ----- whitespace split and join -----

  /** Length of the leading run of non-space characters. */
  function TokenLen(s: string): (n: nat)
    ensures n <= |s| && NoSpace(s[..n]) && (n == |s| || IsSpace(s[n]))
  {
    if s == [] || IsSpace(s[0]) then 0 else
      var m := TokenLen(s[1..]);
      assert s[..m + 1] == [s[0]] + s[1..][..m];
      m + 1
  }

  /** Python's `s.split()`: the maximal runs of non-whitespace characters. */
  function Words(s: string): seq<string>
    decreases |s|
  {
    var t := TrimLeft(s);
    if t == [] then [] else
      var n := TokenLen(t);
      [t[..n]] + Words(t[n..])
  }

  /** Every word of `split()` is non-empty and free of whitespace. */
  lemma {:induction false} WordsAreTokens(s: string)
    ensures forall i :: 0 <= i < |Words(s)| ==> Words(s)[i] != [] && NoSpace(Words(s)[i])
    decreases |s|
  {
    var t := TrimLeft(s);
    if t != [] {
      var n := TokenLen(t);
      assert n > 0;
      WordsAreTokens(t[n..]);
      var r := Words(s);
      assert r == [t[..n]] + Words(t[n..]);
      forall i | 0 <= i < |r| ensures r[i] != [] && NoSpace(r[i]) {
        if i > 0 { assert r[i] == Words(t[n..])[i - 1]; }
      }
    }
  }

  /** Python's `sep.join(parts)`. */
  function Join(sep: string, parts: seq<string>): string {
    if parts == [] then ""
    else if |parts| == 1 then parts[0]
    else parts[0] + sep + Join(sep, parts[1..])
  }

  /** The leading token of `a + b` is `a` when `a` has no whitespace and `b` is empty or starts with whitespace. */
  lemma {:induction false} TokenLenPrefix(a: string, b: string)
    requires NoSpace(a) && (b == [] || IsSpace(b[0]))
    ensures TokenLen(a + b) == |a|
  {
    if a == [] {
      assert a + b == b;
    } else {
      assert (a + b)[0] == a[0];
      assert (a + b)[1..] == a[1..] + b;
      TokenLenPrefix(a[1..], b);
    }
  }

  /** A leading space does not change the words of a string. */
  lemma WordsSpacePrefix(s: string)
    ensures Words(" " + s) == Words(s)
  {
    assert (" " + s)[1..] == s;
    assert TrimLeft(" " + s) == TrimLeft(s);
  }

  /** `' '.join(words).split()` gives back the words, when each is non-empty and free of whitespace. */
  lemma {:induction false} WordsJoin(ws: seq<string>)
    requires forall i :: 0 <= i < |ws| ==> ws[i] != [] && NoSpace(ws[i])
    ensures Words(Join(" ", ws)) == ws
  {
    if ws == [] {
    } else {
      var w := ws[0];
      if |ws| == 1 {
        TokenLenPrefix(w, []);
        assert w + [] == w;
        assert w[|w|..] == [];
        assert TrimLeft(w) == w;
      } else {
        var j := Join(" ", ws[1..]);
        var s := w + (" " + j);
        assert Join(" ", ws) == s;
        assert s[0] == w[0];
        assert TrimLeft(s) == s;
        TokenLenPrefix(w, " " + j);
        assert s[..|w|] == w;
        assert s[|w|..] == " " + j;
        WordsSpacePrefix(j);
        WordsJoin(ws[1..]);
        assert ws == [w] + ws[1..];
      }
    }
  }

  // ----- digits and int() -----

  predicate IsDigit(c: char) {
    '0' <= c <= '9'
  }

  /** Python's `s.isdigit()`, for ASCII digits. */
  predicate AllDigits(s: string) {
    |s| > 0 && forall i :: 0 <= i < |s| ==> IsDigit(s[i])
  }

  /** Digits with single underscores between them, as Python's `int()` accepts. */
  predicate DigitGroup(s: string) {
    && |s| > 0 && IsDigit(s[0]) && IsDigit(s[|s| - 1])
    && (forall i :: 0 <= i < |s| ==> IsDigit(s[i]) || s[i] == '_')
    && (forall i :: 0 <= i < |s| - 1 ==> s[i] == '_' ==> s[i + 1] != '_')
  }

  /** The value of a run of digits and underscores, ignoring the underscores. */
  function DigitsValue(s: string): nat
    requires forall i :: 0 <= i < |s| ==> IsDigit(s[i]) || s[i] == '_'
  {
    if s == [] then 0
    else
      var last := s[|s| - 1];
      assert IsDigit(last) || last == '_';
      if last == '_' then DigitsValue(s[..|s| - 1])
      else 10 * DigitsValue(s[..|s| - 1]) + (last as int - '0' as int)
  }

  /** Python's `int(s)` for base-10 strings: `Some(value)`, or `None` where Python raises ValueError. */
  function ParseInt(s: string): Option<int> {
    ParseStripped(Strip(s))
  }

  /** `int()` of a string with no surrounding whitespace: an optional sign, then digits. */
  function ParseStripped(t: string): Option<int> {
    if |t| > 0 && (t[0] == '+' || t[0] == '-') then
      var body := t[1..];
      var v: int := if DigitGroup(body) then DigitsValue(body) else 0;
      if DigitGroup(body) then Some(if t[0] == '-' then -v else v)
      else None
    else if DigitGroup(t) then Some(DigitsValue(t))
    else None
  }

  function DigitChar(d: nat): char
    requires d < 10
  {
    ('0' as int + d) as char
  }

  /** Python's `str(n)` for a non-negative integer. */
  function NatToString(n: nat): (r: string)
    ensures AllDigits(r) && (|r| > 1 ==> r[0] != '0')
  {
    if n < 10 then [DigitChar(n)] else NatToString(n / 10) + [DigitChar(n % 10)]
  }

  /** Python's `str(n)`. */
  function IntToString(n: int): string {
    if n < 0 then "-" + NatToString(-n) else NatToString(n)
  }

  lemma {:induction false} NatToStringValue(n: nat)
    ensures DigitsValue(NatToString(n)) == n
  {
    if n >= 10 {
      NatToStringValue(n / 10);
      var s := NatToString(n);
      assert s[..|s| - 1] == NatToString(n / 10);
    }
  }

  lemma DigitsNoSpace(s: string)
    requires AllDigits(s)
    ensures NoSpace(s) && DigitGroup(s)
  {
  }

  /** `int(s)` of a string `s` for which `s.isdigit()` holds is the value of its digits. */
  lemma ParseDigits(d: string)
    requires AllDigits(d)
    ensures ParseInt(d) == Some(DigitsValue(d) as int)
  {
    DigitsNoSpace(d);
    StripNoSpace(d);
    assert IsDigit(d[0]);
    assert !(d[0] == '+' || d[0] == '-');
  }

  lemma {:induction false} ParseNatToString(m: nat)
    ensures ParseInt(NatToString(m)) == Some(m)
  {
    NatToStringValue(m);
    ParseDigits(NatToString(m));
  }

  lemma SignedDigitsNoSpace(d: string)
    requires AllDigits(d)
    ensures NoSpace("-" + d)
  {
    var s := "-" + d;
    forall i | 0 <= i < |s| ensures !IsSpace(s[i]) {
      if i > 0 { assert s[i] == d[i - 1]; }
    }
  }

  /** A minus sign before a run of digits parses to the negated digit value. */
  lemma ParseStrippedNeg(d: string)
    requires DigitGroup(d)
    ensures ParseStripped("-" + d) == Some(-(DigitsValue(d) as int))
  {
    assert ("-" + d)[1..] == d;
  }

  lemma ParseNegDigits(d: string)
    requires AllDigits(d)
    ensures ParseInt("-" + d) == Some(-(DigitsValue(d) as int))
  {
    SignedDigitsNoSpace(d);
    StripNoSpace("-" + d);
    DigitsNoSpace(d);
    ParseStrippedNeg(d);
  }

  /** `int(str(n)) == n`: the decimal text of an integer parses back to it. */
  lemma ParseNegIntToString(n: int)
    requires n < 0
    ensures ParseInt(IntToString(n)) == Some(n)
  {
    var m: nat := -n;
    var d := NatToString(m);
    NatToStringValue(m);
    ParseNegDigits(d);
    assert ParseInt("-" + d) == Some(n);
  }

  lemma {:induction false} ParseIntToString(n: int)
    ensures ParseInt(IntToString(n)) == Some(n)
  {
    if n >= 0 {
      ParseNatToString(n);
    } else {
      ParseNegIntToString(n);
    }
  }

}
