/**
 * The Python `str` operations the core relies on: `lower`/`upper`, `strip`,
 * `split`, `join`, `in`, `startswith`, `replace(p, "")`, `str(n)` and
 * `format(n, ",")` for integers. Strings are sequences of code points, as in Python 3.
 */
module Text {

  /** The characters for which Python's `str.isspace()` is true. */
  predicate IsSpace(c: char) {
    || ('\t' <= c <= '\r')
    || ('\U{1C}' <= c <= '\U{1F}')
    || c == ' ' || c == '\U{85}' || c == '\U{A0}' || c == '\U{1680}'
    || ('\U{2000}' <= c <= '\U{200A}')
    || c == '\U{2028}' || c == '\U{2029}' || c == '\U{202F}' || c == '\U{205F}' || c == '\U{3000}'
  }

  function LowerChar(c: char): char {
    if 'A' <= c <= 'Z' then (c as int + 32) as char else c
  }

  /**
   * The upper case of one character: the ASCII letters, and the letters
   * whose upper case is or starts with `S` ('ſ' gives "S", 'ß' gives "SS",
   * the ligatures 'ﬅ' and 'ﬆ' give "ST"). Other characters are kept.
   */
  function UpperChar(c: char): (r: string)
    ensures |r| >= 1
  {
    if 'a' <= c <= 'z' then [(c as int - 32) as char]
    else if c == '\U{017F}' then "S"
    else if c == '\U{00DF}' then "SS"
    else if c == '\U{FB05}' || c == '\U{FB06}' then "ST"
    else [c]
  }

  /** `s.lower()`, for the ASCII letters. */
  function Lower(s: string): (r: string)
    ensures |r| == |s| && forall i :: 0 <= i < |s| ==> r[i] == LowerChar(s[i])
  {
    seq(|s|, i requires 0 <= i < |s| => LowerChar(s[i]))
  }

  /** `s.upper()`: the upper case of each character in turn, which may be longer than the character. */
  function Upper(s: string): (r: string)
    ensures |r| >= |s|
  {
    if s == [] then [] else UpperChar(s[0]) + Upper(s[1..])
  }

  /** Upper-casing distributes over concatenation. */
  lemma {:induction false} UpperAppend(a: string, b: string)
    ensures Upper(a + b) == Upper(a) + Upper(b)
    decreases |a|
  {
    if a == [] {
      assert a + b == b;
    } else {
      var ab := a + b;
      assert ab[0] == a[0];
      assert ab[1..] == a[1..] + b;
      UpperAppend(a[1..], b);
    }
  }

  /** The upper case of three characters. */
  lemma UpperThree(a: char, b: char, c: char)
    ensures Upper([a, b, c]) == UpperChar(a) + UpperChar(b) + UpperChar(c)
  {
    assert [a, b, c][1..] == [b, c];
    assert [b, c][1..] == [c];
    assert [c][1..] == [];
    assert Upper([c]) == UpperChar(c);
    assert Upper([b, c]) == UpperChar(b) + UpperChar(c);
  }

  /** `s.lstrip()`: the longest suffix of `s` that does not start with white space. */
  function StripLeft(s: string): (r: string)
    ensures |r| <= |s|
    ensures r != [] ==> !IsSpace(r[0])
  {
    if |s| > 0 && IsSpace(s[0]) then StripLeft(s[1..]) else s
  }

  /** What `lstrip()` keeps is a suffix. */
  lemma {:induction false} StripLeftSuffix(s: string)
    ensures StripLeft(s) == s[|s| - |StripLeft(s)|..]
    decreases |s|
  {
    if |s| > 0 && IsSpace(s[0]) {
      StripLeftSuffix(s[1..]);
    }
  }

  /** What `lstrip()` drops is white space. */
  lemma {:induction false} StripLeftDropsSpace(s: string)
    ensures forall i :: 0 <= i < |s| - |StripLeft(s)| ==> IsSpace(s[i])
    decreases |s|
  {
    if |s| > 0 && IsSpace(s[0]) {
      StripLeftDropsSpace(s[1..]);
    }
  }

  /** `s.rstrip()`: the longest prefix of `s` that does not end with white space. */
  function StripRight(s: string): (r: string)
    ensures |r| <= |s|
    ensures r != [] ==> !IsSpace(r[|r| - 1])
  {
    if |s| > 0 && IsSpace(s[|s| - 1]) then StripRight(s[..|s| - 1]) else s
  }

  /** What `rstrip()` keeps is a prefix. */
  lemma {:induction false} StripRightPrefix(s: string)
    ensures StripRight(s) == s[..|StripRight(s)|]
    decreases |s|
  {
    if |s| > 0 && IsSpace(s[|s| - 1]) {
      StripRightPrefix(s[..|s| - 1]);
    }
  }

  /** What `rstrip()` drops is white space. */
  lemma {:induction false} StripRightDropsSpace(s: string)
    ensures forall i :: |StripRight(s)| <= i < |s| ==> IsSpace(s[i])
    decreases |s|
  {
    if |s| > 0 && IsSpace(s[|s| - 1]) {
      StripRightDropsSpace(s[..|s| - 1]);
    }
  }

  /** `s.strip()`. */
  function Strip(s: string): string {
    StripRight(StripLeft(s))
  }

  /** A string that `strip()` leaves as it is. */
  predicate IsStripped(s: string) {
    s == [] || (!IsSpace(s[0]) && !IsSpace(s[|s| - 1]))
  }

  lemma StripOfStripped(s: string)
    requires IsStripped(s)
    ensures Strip(s) == s
  {
  }

  /** Python's `needle in hay` for strings. */
  function Contains(hay: string, needle: string): bool
    decreases |hay|
  {
    if |needle| > |hay| then false
    else if hay[..|needle|] == needle then true
    else Contains(hay[1..], needle)
  }

  predicate OccursAt(hay: string, needle: string, i: int) {
    0 <= i && i + |needle| <= |hay| && hay[i..i + |needle|] == needle
  }

  /** `Contains` holds exactly when the needle occurs at some position. */
  lemma {:induction false} ContainsIff(hay: string, needle: string)
    ensures Contains(hay, needle) <==> exists i :: OccursAt(hay, needle, i)
    decreases |hay|
  {
    if |needle| > |hay| {
    } else if hay[..|needle|] == needle {
      assert OccursAt(hay, needle, 0);
    } else {
      ContainsIff(hay[1..], needle);
      if Contains(hay[1..], needle) {
        var i :| OccursAt(hay[1..], needle, i);
        assert hay[1..][i..i + |needle|] == hay[i + 1..i + 1 + |needle|];
        assert OccursAt(hay, needle, i + 1);
      } else {
        forall i | OccursAt(hay, needle, i) ensures false {
          if i > 0 {
            assert hay[1..][i - 1..i - 1 + |needle|] == hay[i..i + |needle|];
            assert OccursAt(hay[1..], needle, i - 1);
          }
        }
      }
    }
  }

  /** What occurs in a string still occurs once text is added on either side. */
  lemma ContainsExtended(pre: string, hay: string, post: string, needle: string)
    requires Contains(hay, needle)
    ensures Contains(pre + hay + post, needle)
  {
    ContainsIff(hay, needle);
    var i :| OccursAt(hay, needle, i);
    assert (pre + hay + post)[|pre| + i..|pre| + i + |needle|] == hay[i..i + |needle|];
    assert OccursAt(pre + hay + post, needle, |pre| + i);
    ContainsIff(pre + hay + post, needle);
  }

  /** Each piece of a join occurs in the joined string. */
  lemma {:induction false} JoinContains(parts: seq<string>, sep: string, i: nat)
    requires i < |parts|
    ensures Contains(Join(parts, sep), parts[i])
    decreases |parts|
  {
    var j := Join(parts, sep);
    if i == 0 {
      assert j[..|parts[0]|] == parts[0];
      assert OccursAt(j, parts[0], 0);
      ContainsIff(j, parts[0]);
    } else {
      var rest := Join(parts[1..], sep);
      assert parts[1..][i - 1] == parts[i];
      JoinContains(parts[1..], sep, i - 1);
      ContainsExtended(parts[0] + sep, rest, [], parts[i]);
      assert parts[0] + sep + rest + [] == j;
    }
  }

  /** A join starts with its first piece. */
  lemma JoinStartsWith(parts: seq<string>, sep: string)
    requires |parts| >= 1
    ensures StartsWith(Join(parts, sep), parts[0])
  {
    assert Join(parts, sep)[..|parts[0]|] == parts[0];
  }

  /** Appending a piece to a join with the empty separator appends it to the string. */
  lemma {:induction false} JoinEmptyAppend(parts: seq<string>, x: string)
    ensures Join(parts + [x], "") == Join(parts, "") + x
    decreases |parts|
  {
    if |parts| == 0 {
      assert parts + [x] == [x];
    } else if |parts| == 1 {
      assert (parts + [x])[1..] == [x];
    } else {
      assert (parts + [x])[1..] == parts[1..] + [x];
      JoinEmptyAppend(parts[1..], x);
    }
  }

  /** A join avoids every character that neither the separator nor any piece holds. */
  lemma {:induction false} JoinAvoids(parts: seq<string>, sep: string, c: char)
    requires c !in sep
    requires forall k :: 0 <= k < |parts| ==> c !in parts[k]
    ensures c !in Join(parts, sep)
    decreases |parts|
  {
    if |parts| > 1 {
      JoinAvoids(parts[1..], sep, c);
    }
  }

  /** A join ends with the last character of its last piece. */
  lemma {:induction false} JoinLast(parts: seq<string>, sep: string)
    requires |parts| >= 1 && parts[|parts| - 1] != []
    ensures |Join(parts, sep)| >= 1
    ensures Join(parts, sep)[|Join(parts, sep)| - 1] == parts[|parts| - 1][|parts[|parts| - 1]| - 1]
    decreases |parts|
  {
    if |parts| > 1 {
      assert parts[1..][|parts[1..]| - 1] == parts[|parts| - 1];
      JoinLast(parts[1..], sep);
    }
  }

  /** A string with a character that is not white space does not strip to nothing. */
  lemma StripNonBlank(s: string, i: nat)
    requires i < |s| && !IsSpace(s[i])
    ensures Strip(s) != []
  {
    var l := StripLeft(s);
    StripLeftDropsSpace(s);
    StripRightDropsSpace(l);
    assert l != [];
    assert !IsSpace(l[0]);
  }

  /** `s.startswith(p)`. */
  predicate StartsWith(s: string, p: string) {
    |p| <= |s| && s[..|p|] == p
  }

  /** No string starts with two prefixes whose first characters differ. */
  lemma StartsWithDiffer(s: string, p: string, q: string)
    requires |p| > 0 && |q| > 0 && p[0] != q[0]
    ensures StartsWith(s, p) ==> !StartsWith(s, q)
  {
    if StartsWith(s, p) {
      assert s[0] == p[0] by {
        assert s[..|p|][0] == s[0];
      }
      assert |q| <= |s| ==> s[..|q|][0] == s[0];
    }
  }

  lemma StartsWithPrefix(s: string, t: string, p: string)
    requires StartsWith(s, t) && StartsWith(t, p)
    ensures StartsWith(s, p)
  {
    assert s[..|p|] == s[..|t|][..|p|];
  }

  /** The index of the first `c` in `s`, or `|s|` when there is none. */
  function FindChar(s: string, c: char): (i: nat)
    ensures i <= |s|
    ensures i < |s| ==> s[i] == c
  {
    if |s| == 0 then 0 else if s[0] == c then 0 else 1 + FindChar(s[1..], c)
  }

  /** A string without the character splits into itself alone. */
  lemma {:induction false} SplitAbsent(s: string, c: char)
    requires c !in s
    ensures Split(s, c) == [s]
  {
    FindCharAbsent(s, c);
  }

  lemma {:induction false} FindCharAbsent(s: string, c: char)
    requires c !in s
    ensures FindChar(s, c) == |s|
    decreases |s|
  {
    if |s| > 0 {
      assert s == [s[0]] + s[1..];
      FindCharAbsent(s[1..], c);
    }
  }

  /** No `c` comes before the one `FindChar` finds. */
  lemma {:induction false} FindCharFirst(s: string, c: char)
    ensures forall j :: 0 <= j < FindChar(s, c) ==> s[j] != c
    decreases |s|
  {
    if |s| > 0 && s[0] != c {
      FindCharFirst(s[1..], c);
    }
  }

  /** `s.split(sep)` for a one-character separator. */
  function Split(s: string, sep: char): (parts: seq<string>)
    ensures |parts| >= 1
    decreases |s|
  {
    var i := FindChar(s, sep);
    if i == |s| then [s] else [s[..i]] + Split(s[i + 1..], sep)
  }

  /** No piece of a split holds the separator. */
  lemma {:induction false} SplitAvoids(s: string, sep: char)
    ensures forall k :: 0 <= k < |Split(s, sep)| ==> sep !in Split(s, sep)[k]
    decreases |s|
  {
    var i := FindChar(s, sep);
    FindCharFirst(s, sep);
    if i < |s| {
      SplitAvoids(s[i + 1..], sep);
    }
  }

  /** `sep.join(parts)`. */
  function Join(parts: seq<string>, sep: string): string {
    if |parts| == 0 then ""
    else if |parts| == 1 then parts[0]
    else parts[0] + sep + Join(parts[1..], sep)
  }

  /** Joining the pieces of a split gives back the string. */
  lemma {:induction false} JoinSplit(s: string, sep: char)
    ensures Join(Split(s, sep), [sep]) == s
    decreases |s|
  {
    var i := FindChar(s, sep);
    if i < |s| {
      var rest := Split(s[i + 1..], sep);
      assert Split(s, sep) == [s[..i]] + rest;
      JoinSplit(s[i + 1..], sep);
      assert Join([s[..i]] + rest, [sep]) == s[..i] + [sep] + Join(rest, [sep]) by {
        assert ([s[..i]] + rest)[1..] == rest;
      }
      assert s == s[..i] + [sep] + s[i + 1..];
    } else {
      assert Split(s, sep) == [s];
    }
  }

  /** Splitting a join gives back the pieces, provided none holds the separator. */
  lemma {:induction false} SplitJoin(parts: seq<string>, sep: char)
    requires |parts| >= 1
    requires forall k :: 0 <= k < |parts| ==> sep !in parts[k]
    ensures Split(Join(parts, [sep]), sep) == parts
    decreases |parts|
  {
    if |parts| == 1 {
      assert FindChar(parts[0], sep) == |parts[0]|;
    } else {
      var s := Join(parts, [sep]);
      assert s == parts[0] + [sep] + Join(parts[1..], [sep]);
      var i := FindChar(s, sep);
      FindFirst(parts[0], sep, Join(parts[1..], [sep]));
      assert s[..i] == parts[0];
      assert s[i + 1..] == Join(parts[1..], [sep]);
      SplitJoin(parts[1..], sep);
    }
  }

  /** Joined parts that start and end with a non-space survive the trim and split back into the parts. */
  lemma SplitStrippedJoin(parts: seq<string>, sep: char)
    requires |parts| >= 1
    requires forall k :: 0 <= k < |parts| ==> sep !in parts[k]
    requires parts[0] != [] && !IsSpace(parts[0][0])
    requires parts[|parts| - 1] != [] && !IsSpace(parts[|parts| - 1][|parts[|parts| - 1]| - 1])
    ensures Split(Strip(Join(parts, [sep])), sep) == parts
  {
    var text := Join(parts, [sep]);
    JoinStartsWith(parts, [sep]);
    JoinLast(parts, [sep]);
    assert text[..|parts[0]|] == parts[0];
    assert text[0] == parts[0][0];
    StripOfStripped(text);
    SplitJoin(parts, sep);
  }

  lemma FindFirst(a: string, c: char, b: string)
    requires c !in a
    ensures FindChar(a + [c] + b, c) == |a|
  {
    var s := a + [c] + b;
    FindCharFirst(s, c);
    assert s[|a|] == c;
    assert forall j :: 0 <= j < |a| ==> s[j] == a[j];
  }

  /**
   * `s.replace(pat, "")`: every occurrence of `pat`, scanning left to right
   * without overlap, removed.
   */
  function RemoveAll(s: string, pat: string): (r: string)
    requires |pat| > 0
    ensures |r| <= |s|
    decreases |s|
  {
    if |s| < |pat| then s
    else if s[..|pat|] == pat then RemoveAll(s[|pat|..], pat)
    else [s[0]] + RemoveAll(s[1..], pat)
  }

  /** Removing a pattern from a string that does not hold it changes nothing. */
  lemma {:induction false} RemoveAllAbsent(s: string, pat: string)
    requires |pat| > 0 && !Contains(s, pat)
    ensures RemoveAll(s, pat) == s
    decreases |s|
  {
    if |s| >= |pat| {
      RemoveAllAbsent(s[1..], pat);
      assert s == [s[0]] + s[1..];
    }
  }

  function DigitChar(d: nat): char
    requires d < 10
  {
    "0123456789"[d]
  }

  /** `str(n)` for a natural number: its decimal digits, without leading zeros. */
  function NatToString(n: nat): (s: string)
    ensures 1 <= |s|
    ensures forall i :: 0 <= i < |s| ==> '0' <= s[i] <= '9'
    ensures |s| == 1 <==> n < 10
    decreases n
  {
    if n < 10 then [DigitChar(n)] else NatToString(n / 10) + [DigitChar(n % 10)]
  }

  /** `str(n)` (or `f"{n:.0f}"`) for any integer. */
  function IntToString(n: int): string {
    if n < 0 then "-" + NatToString(-n) else NatToString(n)
  }

  /** A string of digits with a ',' before every group of three, counted from the right. */
  function GroupThousands(digits: string): string
    decreases |digits|
  {
    if |digits| <= 3 then digits
    else GroupThousands(digits[..|digits| - 3]) + "," + digits[|digits| - 3..]
  }

  /** `format(n, ",")`: the decimal digits of `n` grouped in thousands, after a sign when negative. */
  function FormatThousands(n: int): string {
    if n < 0 then "-" + GroupThousands(NatToString(-n)) else GroupThousands(NatToString(n))
  }

  /** Removing a character from a concatenation removes it from each part. */
  lemma {:induction false} RemoveCharAppend(a: string, b: string, c: char)
    ensures RemoveAll(a + b, [c]) == RemoveAll(a, [c]) + RemoveAll(b, [c])
    decreases |a|
  {
    if a == [] {
      assert a + b == b;
    } else {
      assert (a + b)[..1] == a[..1] == [a[0]];
      assert (a + b)[1..] == a[1..] + b;
      RemoveCharAppend(a[1..], b, c);
    }
  }

  /** A string without the character is kept by removing it. */
  lemma RemoveCharAbsent(s: string, c: char)
    requires c !in s
    ensures RemoveAll(s, [c]) == s
  {
    if Contains(s, [c]) {
      ContainsHead(s, [c]);
    }
    RemoveAllAbsent(s, [c]);
  }

  /** Dropping the separators of a grouped string gives its digits back. */
  lemma {:induction false} GroupThousandsUngroups(digits: string)
    requires ',' !in digits
    ensures RemoveAll(GroupThousands(digits), ",") == digits
    decreases |digits|
  {
    if |digits| <= 3 {
      RemoveCharAbsent(digits, ',');
    } else {
      var k := |digits| - 3;
      var front, back := digits[..k], digits[k..];
      AbsentInParts(digits, k, ',');
      GroupThousandsUngroups(front);
      UngroupLast(GroupThousands(front), front, back);
      assert front + back == digits;
    }
  }

  /** One more group: its separator is dropped and its digits kept. */
  lemma UngroupLast(g: string, front: string, back: string)
    requires RemoveAll(g, ",") == front && ',' !in back
    ensures RemoveAll(g + "," + back, ",") == front + back
  {
    assert g + "," + back == g + ([','] + back);
    RemoveCharAppend(g, [','] + back, ',');
    RemoveSeparator(back, ',');
  }

  /** A character absent from a string is absent from both sides of a split. */
  lemma AbsentInParts(s: string, k: nat, c: char)
    requires k <= |s| && c !in s
    ensures c !in s[..k] && c !in s[k..]
  {
    assert s == s[..k] + s[k..];
  }

  /** Removing `c` from `[c] + s` drops the leading `c` and keeps `s` when it has no `c`. */
  lemma RemoveSeparator(s: string, c: char)
    requires c !in s
    ensures RemoveAll([c] + s, [c]) == s
  {
    assert ([c] + s)[..1] == [c];
    assert ([c] + s)[1..] == s;
    RemoveCharAbsent(s, c);
  }

  /** `format(n, ",")` without its separators is `str(n)`. */
  lemma FormatThousandsUngroups(n: int)
    ensures RemoveAll(FormatThousands(n), ",") == IntToString(n)
  {
    var digits := NatToString(if n < 0 then -n else n);
    assert ',' !in digits by {
      forall i | 0 <= i < |digits| ensures digits[i] != ',' { }
    }
    GroupThousandsUngroups(digits);
    if n < 0 {
      RemoveCharAppend("-", GroupThousands(digits), ',');
      RemoveCharAbsent("-", ',');
    }
  }

  /** A string that holds a non-empty needle holds the needle's first character. */
  lemma ContainsHead(hay: string, needle: string)
    requires |needle| > 0 && Contains(hay, needle)
    ensures needle[0] in hay
  {
    ContainsIff(hay, needle);
    var i :| OccursAt(hay, needle, i);
    assert hay[i] == hay[i..i + |needle|][0];
  }

  /** Every string occurs in itself. */
  lemma ContainsSelf(s: string)
    ensures Contains(s, s)
  {
    assert OccursAt(s, s, 0);
    ContainsIff(s, s);
  }

  /** Different numbers print differently. */
  lemma {:induction false} NatToStringInjective(a: nat, b: nat)
    requires NatToString(a) == NatToString(b)
    ensures a == b
    decreases a
  {
    var s := NatToString(a);
    if a >= 10 && b >= 10 {
      assert s[..|s| - 1] == NatToString(a / 10) == NatToString(b / 10);
      NatToStringInjective(a / 10, b / 10);
      assert DigitChar(a % 10) == s[|s| - 1] == DigitChar(b % 10);
    }
  }
}
