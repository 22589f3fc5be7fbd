/** The three `str` methods the console loop applies: `lower()` for the exit
    test, `strip()` for the blank-input test, and the `replace` that repairs a
    mis-encoded bullet before an answer is shown (ChatBot.py:70, 73, 80). */
module Text {

  /** Python's whitespace (`str.isspace`), the characters `strip()` removes:
      the ASCII controls TAB through CR and FS through US, space, NEL,
      no-break space, ogham space mark, the spaces U+2000-U+200A, the line and
      paragraph separators, narrow no-break space, medium mathematical space
      and ideographic space. */
  predicate IsSpace(c: char) {
    || ('\t' <= c <= '\r')
    || ('\U{1C}' <= c <= ' ')
    || c == '\U{85}' || c == '\U{A0}' || c == '\U{1680}'
    || ('\U{2000}' <= c <= '\U{200A}')
    || c == '\U{2028}' || c == '\U{2029}' || c == '\U{202F}' || c == '\U{205F}' || c == '\U{3000}'
  }

  /** `s.lstrip()`. */
  function StripLeading(s: string): (r: string)
    ensures |r| <= |s|
  {
    if s != [] && IsSpace(s[0]) then StripLeading(s[1..]) else s
  }

  /** `s.rstrip()`. */
  function StripTrailing(s: string): (r: string)
    ensures |r| <= |s|
  {
    if s != [] && IsSpace(s[|s| - 1]) then StripTrailing(s[..|s| - 1]) else s
  }

  /** `s.strip()`: `s` without its leading and trailing whitespace. */
  function Strip(s: string): string {
    StripTrailing(StripLeading(s))
  }

  /** `lstrip()` removes a prefix of whitespace and stops at the first
      character that is not whitespace. */
  lemma {:induction false} StripLeadingSuffix(s: string)
    ensures var r := StripLeading(s);
      && r == s[|s| - |r|..]
      && (forall k :: 0 <= k < |s| - |r| ==> IsSpace(s[k]))
      && (r == [] || !IsSpace(r[0]))
  {
    if s != [] && IsSpace(s[0]) {
      StripLeadingSuffix(s[1..]);
    }
  }

  /** `rstrip()` removes a suffix of whitespace and stops at the last
      character that is not whitespace. */
  lemma {:induction false} StripTrailingPrefix(s: string)
    ensures var r := StripTrailing(s);
      && r == s[..|r|]
      && (forall k :: |r| <= k < |s| ==> IsSpace(s[k]))
      && (r == [] || !IsSpace(r[|r| - 1]))
  {
    if s != [] && IsSpace(s[|s| - 1]) {
      StripTrailingPrefix(s[..|s| - 1]);
    }
  }

  /** `strip()` leaves nothing exactly when every character is whitespace. */
  lemma StripEmptyIff(s: string)
    ensures Strip(s) == [] <==> forall k :: 0 <= k < |s| ==> IsSpace(s[k])
  {
    var l := StripLeading(s);
    StripLeadingSuffix(s);
    StripTrailingPrefix(l);
    if l != [] {
      assert s[|s| - |l|] == l[0];
    }
  }

  /** `lower()` on the ASCII letters. Outside ASCII, Python lowers no
      character to `e`, `x`, `i` or `t`, so comparing with `"exit"` after this
      mapping gives the same answer as after `str.lower()`. */
  function LowerAscii(s: string): (r: string)
    ensures |r| == |s|
    ensures forall k :: 0 <= k < |s| ==>
      r[k] == if 'A' <= s[k] <= 'Z' then (s[k] as int + 32) as char else s[k]
  {
    if s == [] then [] else
    [if 'A' <= s[0] <= 'Z' then (s[0] as int + 32) as char else s[0]] + LowerAscii(s[1..])
  }

  /** `line.lower() == 'exit'`: no trimming, any letter case. */
  predicate IsExit(line: string) {
    LowerAscii(line) == "exit"
  }

  /** A character equals a lower-case ASCII letter up to letter case. */
  predicate SameLetter(c: char, lower: char)
    requires 'a' <= lower <= 'z'
  {
    c == lower || c as int == lower as int - 32
  }

  /** The exit command is exactly the four letters e, x, i, t in any case,
      with nothing before or after them. */
  lemma ExitIff(line: string)
    ensures IsExit(line) <==>
      |line| == 4 && SameLetter(line[0], 'e') && SameLetter(line[1], 'x')
      && SameLetter(line[2], 'i') && SameLetter(line[3], 't')
  {
    if |line| == 4 && IsExit(line) {
      assert LowerAscii(line)[0] == 'e' && LowerAscii(line)[1] == 'x';
      assert LowerAscii(line)[2] == 'i' && LowerAscii(line)[3] == 't';
    }
    if |line| == 4 && SameLetter(line[0], 'e') && SameLetter(line[1], 'x')
      && SameLetter(line[2], 'i') && SameLetter(line[3], 't') {
      assert LowerAscii(line) == "exit";
    }
  }

  /** The mis-encoded bullet: the UTF-8 bytes E2 80 A2 of U+2022 read as
      Windows-1252, i.e. the three characters U+00E2 U+20AC U+00A2. */
  const Garbled: string := ['\U{E2}', '\U{20AC}', '\U{A2}']

  /** What the mis-encoded bullet is shown as: two spaces and an asterisk. */
  const Bullet: string := "  *"

  /** `Garbled` starts at position `i` of `s`. */
  predicate GarbledAt(s: string, i: int) {
    0 <= i && i + 3 <= |s| && s[i] == Garbled[0] && s[i + 1] == Garbled[1] && s[i + 2] == Garbled[2]
  }

  /** `Bullet` starts at position `i` of `s`. */
  predicate BulletAt(s: string, i: int) {
    0 <= i && i + 3 <= |s| && s[i] == Bullet[0] && s[i + 1] == Bullet[1] && s[i + 2] == Bullet[2]
  }

  /** `s.replace("â€¢", "  *")`: left to right, every occurrence replaced. */
  function FixBullets(s: string): (r: string)
    ensures |r| == |s|
  {
    if GarbledAt(s, 0) then Bullet + FixBullets(s[3..])
    else if s == [] then []
    else [s[0]] + FixBullets(s[1..])
  }

  /** One step of `FixBullets` at an occurrence. */
  lemma UnfoldGarbled(s: string)
    requires GarbledAt(s, 0)
    ensures FixBullets(s) == Bullet + FixBullets(s[3..])
  {
  }

  /** One step of `FixBullets` elsewhere. */
  lemma UnfoldPlain(s: string)
    requires !GarbledAt(s, 0) && s != []
    ensures FixBullets(s) == [s[0]] + FixBullets(s[1..])
  {
  }

  /** Every occurrence of the mis-encoded bullet becomes the fixed one. */
  lemma {:induction false} FixBulletsReplaces(s: string, i: int)
    requires GarbledAt(s, i)
    ensures BulletAt(FixBullets(s), i)
  {
    if GarbledAt(s, 0) {
      UnfoldGarbled(s);
      if i != 0 {
        assert i >= 3;
        FixBulletsReplaces(s[3..], i - 3);
      }
    } else {
      UnfoldPlain(s);
      FixBulletsReplaces(s[1..], i - 1);
    }
  }

  /** A character that is not part of any occurrence is left as it was. */
  lemma {:induction false} FixBulletsKeeps(s: string, i: int)
    requires 0 <= i < |s|
    requires !GarbledAt(s, i) && !GarbledAt(s, i - 1) && !GarbledAt(s, i - 2)
    ensures FixBullets(s)[i] == s[i]
  {
    if GarbledAt(s, 0) {
      UnfoldGarbled(s);
      assert i >= 3;
      assert !GarbledAt(s[3..], i - 3) && !GarbledAt(s[3..], i - 4) && !GarbledAt(s[3..], i - 5);
      FixBulletsKeeps(s[3..], i - 3);
    } else if i > 0 {
      UnfoldPlain(s);
      assert !GarbledAt(s[1..], i - 1) && !GarbledAt(s[1..], i - 2) && !GarbledAt(s[1..], i - 3);
      FixBulletsKeeps(s[1..], i - 1);
    }
  }

  /** No mis-encoded bullet is left over afterwards. */
  lemma {:induction false} FixBulletsClean(s: string, i: int)
    ensures !GarbledAt(FixBullets(s), i)
  {
    var r := FixBullets(s);
    if GarbledAt(r, i) {
      if GarbledAt(s, 0) {
        UnfoldGarbled(s);
        if i >= 3 {
          assert GarbledAt(FixBullets(s[3..]), i - 3);
          FixBulletsClean(s[3..], i - 3);
        }
      } else if i == 0 {
        UnfoldPlain(s);
        FixBulletsKeeps(s, 1);
        FixBulletsKeeps(s, 2);
      } else {
        UnfoldPlain(s);
        assert GarbledAt(FixBullets(s[1..]), i - 1);
        FixBulletsClean(s[1..], i - 1);
      }
    }
  }
}
