/**
 * The three regular-expression validators of `utils/validation.ts`, each stated
 * twice: as the language its regular expression denotes (a ghost predicate that
 * follows the expression's structure) and as a direct check, proved equal.
 */
module Validation {
  import opened Text

  /** `[^\s@]`. */
  predicate Plain(c: char) {
    !IsWhitespace(c) && c != '@'
  }

  /** `s[lo..hi]` matches `[^\s@]+`. */
  predicate PlainRun(s: string, lo: int, hi: int)
    requires 0 <= lo <= hi <= |s|
  {
    lo < hi && forall k :: lo <= k < hi ==> Plain(s[k])
  }

  /** `s` matches `^[^\s@]+@[^\s@]+\.[^\s@]+$` with the '@' at `i` and the literal '.' at `j`. */
  predicate EmailSplit(s: string, i: int, j: int) {
    && 0 <= i < j < |s| && s[i] == '@' && s[j] == '.'
    && PlainRun(s, 0, i) && PlainRun(s, i + 1, j) && PlainRun(s, j + 1, |s|)
  }

  /** The language of the e-mail regular expression. */
  ghost predicate EmailPattern(s: string) {
    exists i, j :: EmailSplit(s, i, j)
  }

  /** The number of occurrences of `c` in `s`. */
  function CountChar(s: string, c: char): (n: nat)
    ensures n == 0 <==> forall k :: 0 <= k < |s| ==> s[k] != c
  {
    if s == [] then 0
    else
      var n := CountChar(s[..|s| - 1], c) + if s[|s| - 1] == c then 1 else 0;
      assert forall k :: 0 <= k < |s| - 1 ==> s[k] == s[..|s| - 1][k];
      n
  }

  lemma {:induction false} CountCharSplit(s: string, c: char, i: nat)
    requires i <= |s|
    ensures CountChar(s, c) == CountChar(s[..i], c) + CountChar(s[i..], c)
    decreases |s|
  {
    if i < |s| {
      CountCharSplit(s[..|s| - 1], c, i);
      assert s[..|s| - 1][..i] == s[..i];
      assert s[i..][..|s[i..]| - 1] == s[..|s| - 1][i..];
    } else {
      assert s[..i] == s;
    }
  }

  /** The index of the first `c` in `s`, or `|s|` when there is none (`indexOf`). */
  function IndexOf(s: string, c: char): (i: nat)
    ensures i <= |s| && (i < |s| ==> s[i] == c)
    ensures forall k :: 0 <= k < i ==> s[k] != c
  {
    if s == [] then 0
    else if s[0] == c then 0
    else 1 + IndexOf(s[1..], c)
  }

  /** `validateEmail`: exactly one '@', no white space, something before the '@', and after it
    * a '.' with at least one character on each side. */
  function ValidateEmail(s: string): (ok: bool)
    ensures ok <==> EmailPattern(s)
  {
    var i := IndexOf(s, '@');
    var ok := && NoWhitespace(s)
              && 0 < i < |s|
              && CountChar(s, '@') == 1
              && exists j :: i + 1 < j < |s| - 1 && s[j] == '.';
    EmailCheckMatchesPattern(s, i);
    ok
  }

  lemma EmailCheckMatchesPattern(s: string, i: nat)
    requires i == IndexOf(s, '@')
    ensures (&& NoWhitespace(s) && 0 < i < |s| && CountChar(s, '@') == 1
             && exists j :: i + 1 < j < |s| - 1 && s[j] == '.') <==> EmailPattern(s)
  {
    if && NoWhitespace(s) && 0 < i < |s| && CountChar(s, '@') == 1
       && exists j :: i + 1 < j < |s| - 1 && s[j] == '.' {
      var j :| i + 1 < j < |s| - 1 && s[j] == '.';
      EmailCheckSound(s, i, j);
    }
    if EmailPattern(s) {
      var a, b :| EmailSplit(s, a, b);
      EmailCheckComplete(s, a, b);
    }
  }

  /** The single '@' is the first one, so nothing after it is an '@'. */
  lemma NoAtAfterFirst(s: string, i: nat)
    requires i < |s| && s[i] == '@' && CountChar(s, '@') == 1
    requires forall k :: 0 <= k < i ==> s[k] != '@'
    ensures forall k :: i + 1 <= k < |s| ==> s[k] != '@'
  {
    CountCharSplit(s, '@', i + 1);
    CountCharSplit(s[..i + 1], '@', i);
    assert s[..i + 1][..i] == s[..i];
    assert s[..i + 1][i..] == [s[i]];
    assert CountChar([s[i]], '@') == 1 by { assert [s[i]][..0] == []; }
    assert CountChar(s[i + 1..], '@') == 0;
    forall k | i + 1 <= k < |s| ensures s[k] != '@' {
      assert s[k] == s[i + 1..][k - (i + 1)];
    }
  }

  lemma EmailCheckSound(s: string, i: nat, j: int)
    requires i == IndexOf(s, '@')
    requires NoWhitespace(s) && 0 < i < |s| && CountChar(s, '@') == 1
    requires i + 1 < j < |s| - 1 && s[j] == '.'
    ensures EmailSplit(s, i, j)
  {
    NoAtAfterFirst(s, i);
  }

  lemma EmailCheckComplete(s: string, a: int, b: int)
    requires EmailSplit(s, a, b)
    ensures NoWhitespace(s) && IndexOf(s, '@') == a && CountChar(s, '@') == 1
  {
    var n := IndexOf(s, '@');
    assert forall k :: 0 <= k < a ==> s[k] != '@' by {
      forall k | 0 <= k < a ensures s[k] != '@' { assert Plain(s[k]); }
    }
    assert n == a;
    assert NoWhitespace(s) by {
      forall k | 0 <= k < |s| ensures !IsWhitespace(s[k]) {
        if k < a { assert Plain(s[k]); } else if k == a { } else if k < b { assert Plain(s[k]); }
        else if k == b { } else { assert Plain(s[k]); }
      }
    }
    var pre, post := s[..a], s[a + 1..];
    assert CountChar(pre, '@') == 0 by {
      forall k | 0 <= k < |pre| ensures pre[k] != '@' { assert Plain(s[k]); }
    }
    assert CountChar(post, '@') == 0 by {
      forall k | 0 <= k < |post| ensures post[k] != '@' {
        assert post[k] == s[a + 1 + k];
        if a + 1 + k < b { assert Plain(s[a + 1 + k]); }
        else if a + 1 + k > b { assert Plain(s[a + 1 + k]); }
      }
    }
    OneAtSplit(s, a);
  }

  lemma OneAtSplit(s: string, a: nat)
    requires a < |s| && s[a] == '@'
    ensures CountChar(s, '@') == CountChar(s[..a], '@') + 1 + CountChar(s[a + 1..], '@')
  {
    CountCharSplit(s, '@', a);
    CountCharSplit(s[a..], '@', 1);
    assert s[a..][..1] == [s[a]];
    assert s[a..][1..] == s[a + 1..];
    assert CountChar([s[a]], '@') == 1 by { assert [s[a]][..0] == []; }
  }

  /** A leading or trailing space (or any white space) makes an e-mail address invalid. */
  lemma EmailRejectsWhitespace(s: string, k: nat)
    requires k < |s| && IsWhitespace(s[k])
    ensures !ValidateEmail(s)
  {
  }

  /** `[\d\s\-\(\)]`. */
  predicate PhoneChar(c: char) {
    IsDigit(c) || IsWhitespace(c) || c == '-' || c == '(' || c == ')'
  }

  /** `s` matches `[1-9][\d\s\-\(\)]{7,15}`. */
  predicate PhoneBody(s: string) {
    8 <= |s| <= 16 && '1' <= s[0] <= '9' && forall k :: 1 <= k < |s| ==> PhoneChar(s[k])
  }

  /** The language of `^[+]?[1-9][\d\s\-\(\)]{7,15}$`: the body alone, or '+' and the body. */
  ghost predicate PhonePattern(s: string) {
    PhoneBody(s) || (|s| >= 1 && s[0] == '+' && PhoneBody(s[1..]))
  }

  /** `validatePhoneNumber`: drop one leading '+', then check the body. */
  function ValidatePhoneNumber(s: string): (ok: bool)
    ensures ok <==> PhonePattern(s)
  {
    var body := if s != [] && s[0] == '+' then s[1..] else s;
    8 <= |body| <= 16 && '1' <= body[0] <= '9' && forall k :: 1 <= k < |body| ==> PhoneChar(body[k])
  }

  /** An accepted number has 8 to 16 characters, or 9 to 17 counting the '+', and its first
    * digit is not 0. */
  lemma PhoneNumberShape(s: string)
    requires ValidatePhoneNumber(s)
    ensures if s[0] == '+' then 9 <= |s| <= 17 && '1' <= s[1] <= '9' else 8 <= |s| <= 16 && '1' <= s[0] <= '9'
  {
  }

  /** The extensions `(jpg|jpeg|png|gif|webp)`. */
  const ImageExtensions: seq<string> := ["jpg", "jpeg", "png", "gif", "webp"]

  /** `u` ends in '.' and one of the extensions, letters compared without regard to case
    * (the `i` flag). */
  ghost predicate HasImageExtension(u: string) {
    exists e :: e in ImageExtensions && EndsWith(ToLower(u), "." + e)
  }

  /** Whether `s` ends in '.' followed by one of `exts`. */
  function EndsWithAnyExtension(s: string, exts: seq<string>): (r: bool)
    ensures r <==> exists e :: e in exts && EndsWith(s, "." + e)
  {
    if exts == [] then false
    else EndsWith(s, "." + exts[0]) || EndsWithAnyExtension(s, exts[1..])
  }

  /** `validateImageUri`: an image extension at the end, or the literal prefix 'data:image/'
    * (which is compared with case). */
  function ValidateImageUri(u: string): (ok: bool)
    ensures ok <==> HasImageExtension(u) || StartsWith(u, "data:image/")
  {
    EndsWithAnyExtension(ToLower(u), ImageExtensions) || StartsWith(u, "data:image/")
  }

  /** The extension test ignores case, the 'data:image/' prefix does not. */
  lemma ImageUriCase()
    ensures ValidateImageUri("a.JPG")
    ensures ValidateImageUri("data:image/")
    ensures !ValidateImageUri("DATA:IMAGE/")
  {
    assert ToLower("a.JPG") == "a.jpg";
    assert EndsWith("a.jpg", "." + ImageExtensions[0]);
    var d := "DATA:IMAGE/";
    assert d[0] != 'd';
    assert ToLower(d)[|d| - 1] == '/';
  }
}
