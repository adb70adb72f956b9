/**
 * The Telegram group-link checks: `EnhancedBot.is_valid_telegram_link`
 * (four anchored patterns tried on the stripped link), the `@name` to
 * `https://t.me/name` rewrite used for join buttons, and
 * `MultipurposeBot.is_valid_telegram_link` (any `@...`, or one pattern).
 * Each regular expression is written out as a predicate on the string.
 */
module Links {
  import opened PyStr

  predicate AsciiAlnum(c: char) {
    ('a' <= c <= 'z') || ('A' <= c <= 'Z') || ('0' <= c <= '9')
  }

  /** `[a-zA-Z0-9_]+` */
  predicate NamePart(n: string) {
    |n| > 0 && forall i :: 0 <= i < |n| ==> AsciiAlnum(n[i]) || n[i] == '_'
  }

  /** `[a-zA-Z0-9_-]+` */
  predicate InvitePart(n: string) {
    |n| > 0 && forall i :: 0 <= i < |n| ==> AsciiAlnum(n[i]) || n[i] == '_' || n[i] == '-'
  }

  const TmePrefix := "https://t.me/"
  const JoinchatPrefix := "https://t.me/joinchat/"
  const PlusPrefix := "https://t.me/+"

  /** `t` matches `^<prefix><part>$`, where `part` is checked by `ok`. */
  predicate Anchored(t: string, prefix: string, ok: string -> bool) {
    StartsWith(t, prefix) && ok(t[|prefix|..])
  }

  /**
   * One of the enhanced bot's patterns matches the whole of `t`. (`$` may
   * also match before a final newline; a stripped link never ends in one.)
   */
  predicate EnhancedPatterns(t: string) {
    || Anchored(t, TmePrefix, NamePart)
    || Anchored(t, JoinchatPrefix, InvitePart)
    || Anchored(t, PlusPrefix, InvitePart)
    || Anchored(t, "@", NamePart)
  }

  /** `EnhancedBot.is_valid_telegram_link`: the patterns, tried on `link.strip()`. */
  predicate EnhancedValidLink(link: string) {
    EnhancedPatterns(Strip(link))
  }

  /** Every link the enhanced check accepts is, once stripped, a `https://t.me/` URL or an `@name`. */
  lemma ValidLinkIsTmeOrName(link: string)
    requires EnhancedValidLink(link)
    ensures StartsWith(Strip(link), TmePrefix) || StartsWith(Strip(link), "@")
  {
    var t := Strip(link);
    if Anchored(t, JoinchatPrefix, InvitePart) {
      assert t[..|TmePrefix|] == t[..|JoinchatPrefix|][..|TmePrefix|];
    } else if Anchored(t, PlusPrefix, InvitePart) {
      assert t[..|TmePrefix|] == t[..|PlusPrefix|][..|TmePrefix|];
    }
  }

  /** The `i`-th entry of `telegram_patterns`, matched against all of `t`. */
  predicate PatternMatches(i: nat, t: string)
    requires i < 4
  {
    match i
    case 0 => Anchored(t, TmePrefix, NamePart)
    case 1 => Anchored(t, JoinchatPrefix, InvitePart)
    case 2 => Anchored(t, PlusPrefix, InvitePart)
    case _ => Anchored(t, "@", NamePart)
  }

  /** The pattern loop of `EnhancedBot.is_valid_telegram_link`: true as soon as one pattern matches the stripped link. */
  method IsValidTelegramLink(link: string) returns (ok: bool)
    ensures ok == EnhancedValidLink(link)
  {
    var t := Strip(link);
    var i := 0;
    while i < 4
      invariant 0 <= i <= 4
      invariant forall j :: 0 <= j < i ==> !PatternMatches(j, t)
    {
      if PatternMatches(i, t) {
        return true;
      }
      i := i + 1;
    }
    assert !PatternMatches(0, t) && !PatternMatches(1, t) && !PatternMatches(2, t) && !PatternMatches(3, t);
    return false;
  }

  /** The join-button URL for a stored group link: `@name` becomes `https://t.me/name`; other links are kept. */
  function FormatGroupLink(link: string): (r: string)
    ensures StartsWith(link, "@") ==> StartsWith(r, TmePrefix) && r[|TmePrefix|..] == link[1..]
    ensures !StartsWith(link, "@") ==> r == link
  {
    if StartsWith(link, "@") then TmePrefix + link[1..] else link
  }

  lemma NamePartNoSpace(n: string)
    requires NamePart(n) || InvitePart(n)
    ensures NoSpace(n)
  {
  }

  /**
   * A stored link (one the enhanced check accepted, already stripped)
   * becomes a join URL that starts with `https://t.me/` and that the check
   * still accepts; a link not starting with `@` is left as it is.
   */
  lemma FormattedLinkValid(link: string)
    requires EnhancedValidLink(link) && Strip(link) == link
    ensures StartsWith(FormatGroupLink(link), TmePrefix)
    ensures EnhancedValidLink(FormatGroupLink(link))
    ensures !StartsWith(link, "@") ==> FormatGroupLink(link) == link
  {
    if StartsWith(link, "@") {
      var name := link[1..];
      assert NamePart(name) by {
        assert !StartsWith(link, TmePrefix) by { assert link[0] == '@'; assert TmePrefix[0] == 'h'; }
        assert !StartsWith(link, JoinchatPrefix) by { assert link[0] == '@'; assert JoinchatPrefix[0] == 'h'; }
        assert !StartsWith(link, PlusPrefix) by { assert link[0] == '@'; assert PlusPrefix[0] == 'h'; }
      }
      var url := TmePrefix + name;
      assert url[..|TmePrefix|] == TmePrefix && url[|TmePrefix|..] == name;
      NamePartNoSpace(name);
      assert NoSpace(url) by {
        forall i | 0 <= i < |url| ensures !IsSpace(url[i]) {
          if i >= |TmePrefix| { assert url[i] == name[i - |TmePrefix|]; }
        }
      }
      StripNoSpace(url);
    } else {
      if Anchored(link, JoinchatPrefix, InvitePart) {
        assert link[..|TmePrefix|] == JoinchatPrefix[..|TmePrefix|];
      } else if Anchored(link, PlusPrefix, InvitePart) {
        assert link[..|TmePrefix|] == PlusPrefix[..|TmePrefix|];
      }
    }
  }

  // ----- MultipurposeBot.is_valid_telegram_link -----

  /** `[A-Za-z0-9_+/]+` */
  predicate MpPathPart(n: string) {
    |n| > 0 && forall i :: 0 <= i < |n| ==> AsciiAlnum(n[i]) || n[i] == '_' || n[i] == '+' || n[i] == '/'
  }

  /**
   * `^https://t.me/[A-Za-z0-9_+/]+` matching all of `t`, with the pattern's
   * `.` unescaped: any character but a newline stands between `t` and `me`.
   */
  predicate MpPatternAsWritten(t: string) {
    && |t| >= 13 && t[..9] == "https://t" && t[9] != '\n' && t[10..13] == "me/"
    && MpPathPart(t[13..])
  }

  /** The same pattern with the dot taken literally, as `t.me` evidently means. */
  predicate MpPatternIntended(t: string) {
    Anchored(t, TmePrefix, MpPathPart)
  }

  /** `re.match(p + '$', link)`: `$` also matches just before a final newline. */
  predicate MatchesToEnd(link: string, p: string -> bool) {
    p(link) || (|link| > 0 && link[|link| - 1] == '\n' && p(link[..|link| - 1]))
  }

  /** `MultipurposeBot.is_valid_telegram_link` as written: any `@...`, or the pattern with an unescaped dot. */
  predicate MpValidLinkAsWritten(link: string)
    ensures MpValidLinkAsWritten(link) ==> StartsWith(link, "@") || (|link| >= 13 && link[..9] == "https://t" && link[10..13] == "me/")
  {
    StartsWith(link, "@") || MatchesToEnd(link, MpPatternAsWritten)
  }

  /** The check with the dot escaped. */
  predicate MpValidLinkIntended(link: string) {
    StartsWith(link, "@") || MatchesToEnd(link, MpPatternIntended)
  }

  /** The intended pattern accepts only links on the host `t.me`, and the as-written one accepts all of those too. */
  lemma MpIntendedIsTme(link: string)
    ensures MpValidLinkIntended(link) && !StartsWith(link, "@") ==>
      StartsWith(link, TmePrefix) && MpValidLinkAsWritten(link)
  {
    if MpValidLinkIntended(link) && !StartsWith(link, "@") {
      var t := if MpPatternIntended(link) then link else link[..|link| - 1];
      assert MpPatternIntended(t);
      assert t[..9] == TmePrefix[..9] && t[9] == '.' && t[10..13] == TmePrefix[10..13];
      assert MpPatternAsWritten(t);
      assert link[..|TmePrefix|] == t[..|TmePrefix|];
    }
  }

  /** As written, a link on another host, `https://tXme/abc`, is accepted; the intended check rejects it. */
  lemma MpDotMatchesAnyHost()
    ensures MpValidLinkAsWritten("https://tXme/abc")
    ensures !MpValidLinkIntended("https://tXme/abc")
  {
    var s := "https://tXme/abc";
    assert s[..9] == "https://t" && s[9] == 'X' && s[10..13] == "me/" && s[13..] == "abc";
    assert MpPatternAsWritten(s);
    assert !StartsWith(s, TmePrefix) by { assert s[..|TmePrefix|][9] == 'X' && TmePrefix[9] == '.'; }
    assert !MpPatternIntended(s);
    assert !StartsWith(s, "@") by { assert s[..1][0] == 'h'; }
    assert s[|s| - 1] == 'c';
  }
}
