/** The JavaScript string built-ins that the route handlers rely on, with the meaning
    ECMAScript gives them: `split` and `join`, `trim`, `startsWith`, `replace` with a
    string pattern (including the `$` patterns of its replacement text) and `parseInt`. */
module JsString {
  import opened Base

  /** `s.startsWith(prefix)` */
  predicate StartsWith(s: string, prefix: string) {
    |prefix| <= |s| && s[..|prefix|] == prefix
  }

  // ---------------------------------------------------------------------------
  // split and join

  /** `s.split(sep)` for a separator of one character: the pieces between separators,
      including the empty ones at either end. */
  function Split(s: string, sep: char): (parts: seq<string>)
    ensures |parts| >= 1
    decreases |s|
  {
    if |s| == 0 then [""]
    else
      var rest := Split(s[1..], sep);
      if s[0] == sep then [""] + rest
      else [[s[0]] + rest[0]] + rest[1..]
  }

  /** No piece of a split holds the separator. */
  lemma {:induction false} SplitPiecesLackSeparator(s: string, sep: char)
    ensures forall i :: 0 <= i < |Split(s, sep)| ==> sep !in Split(s, sep)[i]
    decreases |s|
  {
    if |s| > 0 {
      SplitPiecesLackSeparator(s[1..], sep);
      var rest := Split(s[1..], sep);
      if s[0] != sep {
        assert sep !in [s[0]] + rest[0];
      }
    }
  }

  /** `parts.join(sep)`; an empty list joins to the empty string. */
  function Join(parts: seq<string>, sep: string): string
    decreases |parts|
  {
    if |parts| == 0 then ""
    else if |parts| == 1 then parts[0]
    else parts[0] + sep + Join(parts[1..], sep)
  }

  /** A join starts with the first piece. */
  lemma JoinStarts(parts: seq<string>, sep: string)
    requires |parts| >= 1 && parts[0] != ""
    ensures Join(parts, sep) != "" && Join(parts, sep)[0] == parts[0][0]
  {
  }

  /** Joining a list whose last piece is `x + y`: the joined text ends in `y`. */
  lemma {:induction false} JoinLastSplit(p: seq<string>, x: string, y: string, sep: string)
    requires |p| >= 1
    ensures Join(p + [x + y], sep) == (Join(p, sep) + sep + x) + y
    decreases |p|
  {
    var q := p + [x + y];
    if |p| == 1 {
      assert q[1..] == [x + y];
      assert Join(q, sep) == p[0] + sep + (x + y);
    } else {
      assert q[1..] == p[1..] + [x + y];
      JoinLastSplit(p[1..], x, y, sep);
      assert Join(q, sep) == p[0] + sep + ((Join(p[1..], sep) + sep + x) + y);
    }
  }

  /** A character found neither in the pieces nor in the separator is not in their join. */
  lemma {:induction false} JoinAvoids(p: seq<string>, sep: string, c: char)
    requires c !in sep && forall i :: 0 <= i < |p| ==> c !in p[i]
    ensures c !in Join(p, sep)
    decreases |p|
  {
    if |p| > 1 {
      JoinAvoids(p[1..], sep, c);
    }
  }

  /** Joining the pieces of a split with the separator gives back the string. */
  lemma {:induction false} JoinSplit(s: string, sep: char)
    ensures Join(Split(s, sep), [sep]) == s
    decreases |s|
  {
    if |s| > 0 {
      JoinSplit(s[1..], sep);
      var rest := Split(s[1..], sep);
      var parts := Split(s, sep);
      if s[0] == sep {
        assert parts == [""] + rest;
        assert parts[1..] == rest;
        calc {
          Join(parts, [sep]);
          "" + [sep] + Join(rest, [sep]);
          [sep] + s[1..];
        }
      } else {
        assert parts == [[s[0]] + rest[0]] + rest[1..];
        if |rest| > 1 {
          assert parts[1..] == rest[1..];
          calc {
            Join(parts, [sep]);
            [s[0]] + rest[0] + [sep] + Join(rest[1..], [sep]);
            [s[0]] + (rest[0] + [sep] + Join(rest[1..], [sep]));
            [s[0]] + Join(rest, [sep]);
          }
        }
      }
      assert s == [s[0]] + s[1..];
    }
  }

  /** A string without the separator splits into itself alone. */
  lemma {:induction false} SplitWithoutSeparator(p: string, sep: char)
    requires sep !in p
    ensures Split(p, sep) == [p]
    decreases |p|
  {
    if |p| > 0 {
      SplitWithoutSeparator(p[1..], sep);
      assert [p[0]] + p[1..] == p;
    }
  }

  /** A piece without the separator, followed by the separator, splits off as one piece. */
  lemma {:induction false} SplitAfterPiece(p: string, sep: char, r: string)
    requires sep !in p
    ensures Split(p + [sep] + r, sep) == [p] + Split(r, sep)
    decreases |p|
  {
    var s := p + [sep] + r;
    if |p| == 0 {
      assert s[1..] == r;
    } else {
      assert s[1..] == p[1..] + [sep] + r;
      SplitAfterPiece(p[1..], sep, r);
      assert [p[0]] + p[1..] == p;
    }
  }

  /** Splitting a join of separator-free pieces gives back the pieces. */
  lemma {:induction false} SplitJoin(parts: seq<string>, sep: char)
    requires |parts| >= 1
    requires forall i :: 0 <= i < |parts| ==> sep !in parts[i]
    ensures Split(Join(parts, [sep]), sep) == parts
    decreases |parts|
  {
    if |parts| == 1 {
      SplitWithoutSeparator(parts[0], sep);
    } else {
      SplitJoin(parts[1..], sep);
      SplitAfterPiece(parts[0], sep, Join(parts[1..], [sep]));
      assert [parts[0]] + parts[1..] == parts;
    }
  }

  // ---------------------------------------------------------------------------
  // trim

  /** The characters `trim` removes: WhiteSpace and LineTerminator of ECMAScript. */
  predicate IsWhitespace(c: char) {
    || c == '\t' || c == '\n' || c == '\U{000B}' || c == '\U{000C}' || c == '\r' || c == ' '
    || c == '\U{00A0}' || c == '\U{1680}' || ('\U{2000}' <= c <= '\U{200A}')
    || c == '\U{2028}' || c == '\U{2029}' || c == '\U{202F}' || c == '\U{205F}'
    || c == '\U{3000}' || c == '\U{FEFF}'
  }

  /** `s.trimStart()`: the suffix left after dropping the leading whitespace. */
  function TrimStart(s: string): (r: string)
    ensures |r| <= |s| && r == s[|s| - |r|..]
    ensures forall i :: 0 <= i < |s| - |r| ==> IsWhitespace(s[i])
    ensures r == "" || !IsWhitespace(r[0])
    decreases |s|
  {
    if |s| > 0 && IsWhitespace(s[0]) then TrimStart(s[1..]) else s
  }

  /** `s.trimEnd()`: the prefix left after dropping the trailing whitespace. */
  function TrimEnd(s: string): (r: string)
    ensures |r| <= |s| && r == s[..|r|]
    ensures forall i :: |r| <= i < |s| ==> IsWhitespace(s[i])
    ensures r == "" || !IsWhitespace(r[|r| - 1])
    decreases |s|
  {
    if |s| > 0 && IsWhitespace(s[|s| - 1]) then TrimEnd(s[..|s| - 1]) else s
  }

  /** `s.trim()` */
  function Trim(s: string): (r: string)
    ensures r == "" || (!IsWhitespace(r[0]) && !IsWhitespace(r[|r| - 1]))
    ensures r == "" <==> forall i :: 0 <= i < |s| ==> IsWhitespace(s[i])
    ensures |r| <= |s| && forall i :: 0 <= i < |r| ==> r[i] in s
  {
    var t := TrimStart(s);
    var r := TrimEnd(t);
    var k := |s| - |t|;
    assert r != "" ==> r[0] == t[0];
    assert forall i :: 0 <= i < |r| ==> r[i] == s[k + i];
    assert r == "" ==> t == "";
    assert r != "" ==> !IsWhitespace(s[k]);
    r
  }

  /** Whitespace at the end of a string does not survive `trimEnd`. */
  lemma {:induction false} TrimEndDropsWhitespace(s: string, w: string)
    requires forall i :: 0 <= i < |w| ==> IsWhitespace(w[i])
    ensures TrimEnd(s + w) == TrimEnd(s)
    decreases |w|
  {
    if |w| > 0 {
      var t := s + w;
      assert t[..|t| - 1] == s + w[..|w| - 1];
      TrimEndDropsWhitespace(s, w[..|w| - 1]);
    } else {
      assert s + w == s;
    }
  }

  /** `trimEnd` stops at the last character that is not whitespace: text before it stays. */
  lemma {:induction false} TrimEndAfter(x: string, y: string)
    requires |x| > 0 && !IsWhitespace(x[|x| - 1])
    ensures TrimEnd(x + y) == x + TrimEnd(y)
    decreases |y|
  {
    if |y| == 0 {
      assert x + y == x;
    } else if IsWhitespace(y[|y| - 1]) {
      var t := x + y;
      assert t[..|t| - 1] == x + y[..|y| - 1];
      TrimEndAfter(x, y[..|y| - 1]);
    }
  }

  /** Whitespace at the start of a string does not survive `trimStart`, and a string
      that starts with anything else is left as it is. */
  lemma {:induction false} TrimStartDropsWhitespace(w: string, s: string)
    requires forall i :: 0 <= i < |w| ==> IsWhitespace(w[i])
    requires s != "" && !IsWhitespace(s[0])
    ensures TrimStart(w + s) == s
    decreases |w|
  {
    if |w| > 0 {
      assert (w + s)[1..] == w[1..] + s;
      TrimStartDropsWhitespace(w[1..], s);
    } else {
      assert w + s == s;
    }
  }

  /** Trimming text framed by whitespace, whose first part starts and ends with
      characters that are not whitespace, only touches the end of the last part. */
  lemma TrimFramed(w1: string, body: string, head: string, last: string, w2: string)
    requires forall i :: 0 <= i < |w1| ==> IsWhitespace(w1[i])
    requires forall i :: 0 <= i < |w2| ==> IsWhitespace(w2[i])
    requires body == head + last
    requires head != "" && !IsWhitespace(head[0]) && !IsWhitespace(head[|head| - 1])
    ensures Trim(w1 + body + w2) == head + TrimEnd(last)
  {
    assert w1 + body + w2 == w1 + (body + w2);
    assert (body + w2)[0] == head[0];
    TrimStartDropsWhitespace(w1, body + w2);
    TrimEndDropsWhitespace(body, w2);
    TrimEndAfter(head, last);
  }

  /** `s.trim() === ''` */
  predicate IsBlank(s: string) {
    Trim(s) == ""
  }

  /** Every character of `s` is whitespace. */
  predicate AllWhitespace(s: string) {
    forall i :: 0 <= i < |s| ==> IsWhitespace(s[i])
  }

  /** A string is blank exactly when every character of it is whitespace. */
  lemma BlankIffAllWhitespace(s: string)
    ensures IsBlank(s) <==> AllWhitespace(s)
  {
  }

  // ---------------------------------------------------------------------------
  // indexOf and replace

  /** `pattern` occurs in `s` starting at index `i`. */
  predicate OccursAt(s: string, pattern: string, i: nat) {
    i + |pattern| <= |s| && s[i..i + |pattern|] == pattern
  }

  /** The first occurrence of `pattern` in `s` at or after `from`. */
  function IndexOfFrom(s: string, pattern: string, from: nat): (r: Option<nat>)
    requires from <= |s|
    ensures r.Some? ==> from <= r.value && OccursAt(s, pattern, r.value)
    ensures r.Some? ==> forall j: nat :: from <= j < r.value ==> !OccursAt(s, pattern, j)
    ensures r.None? ==> forall j: nat :: from <= j ==> !OccursAt(s, pattern, j)
    decreases |s| - from
  {
    if OccursAt(s, pattern, from) then Some(from)
    else if from == |s| then None
    else IndexOfFrom(s, pattern, from + 1)
  }

  /** `s.indexOf(pattern)`, with `None` for -1. */
  function IndexOf(s: string, pattern: string): (r: Option<nat>)
    ensures r.Some? ==> OccursAt(s, pattern, r.value)
    ensures r.Some? ==> forall j: nat :: j < r.value ==> !OccursAt(s, pattern, j)
    ensures r.None? ==> forall j: nat :: !OccursAt(s, pattern, j)
  {
    IndexOfFrom(s, pattern, 0)
  }

  /** GetSubstitution of ECMAScript for a string pattern (no capture groups): in the
      replacement text `$$` stands for `$`, `$&` for the matched text, `` $` `` for the
      text before the match and `$'` for the text after it; every other `$` is literal. */
  function Substitution(template: string, matched: string, before: string, after: string): string
    decreases |template|
  {
    if |template| == 0 then ""
    else if |template| >= 2 && template[0] == '$' && template[1] in "$&`'" then
      var piece := if template[1] == '$' then "$"
                   else if template[1] == '&' then matched
                   else if template[1] == '`' then before
                   else after;
      piece + Substitution(template[2..], matched, before, after)
    else
      [template[0]] + Substitution(template[1..], matched, before, after)
  }

  /** A replacement text without `$` is inserted literally. */
  lemma {:induction false} SubstitutionLiteral(template: string, matched: string, before: string, after: string)
    requires '$' !in template
    ensures Substitution(template, matched, before, after) == template
    decreases |template|
  {
    if |template| > 0 {
      SubstitutionLiteral(template[1..], matched, before, after);
      assert [template[0]] + template[1..] == template;
    }
  }

  /** `$'` in a replacement text stands for the text after the match. */
  lemma {:induction false} SubstitutionQuoteAfter(a: string, b: string, matched: string, before: string, after: string)
    requires '$' !in a && '$' !in b
    ensures Substitution(a + "$'" + b, matched, before, after) == a + after + b
    decreases |a|
  {
    if |a| == 0 {
      assert a + "$'" + b == "$'" + b;
      SubstitutionQuoteFirst(b, matched, before, after);
    } else {
      assert a + "$'" + b == [a[0]] + (a[1..] + "$'" + b);
      SubstitutionPlainFirst(a[0], a[1..] + "$'" + b, matched, before, after);
      SubstitutionQuoteAfter(a[1..], b, matched, before, after);
      assert [a[0]] + (a[1..] + after + b) == a + after + b;
    }
  }

  /** A leading `$'` is the text after the match. */
  lemma SubstitutionQuoteFirst(b: string, matched: string, before: string, after: string)
    requires '$' !in b
    ensures Substitution("$'" + b, matched, before, after) == after + b
  {
    assert ("$'" + b)[2..] == b;
    SubstitutionLiteral(b, matched, before, after);
  }

  /** A leading character other than `$` is copied. */
  lemma SubstitutionPlainFirst(c: char, rest: string, matched: string, before: string, after: string)
    requires c != '$'
    ensures Substitution([c] + rest, matched, before, after) == [c] + Substitution(rest, matched, before, after)
  {
    assert ([c] + rest)[1..] == rest;
  }

  /** `pattern` occurs in `s` at `k` and nowhere before. */
  predicate FirstOccurrence(s: string, pattern: string, k: nat) {
    OccursAt(s, pattern, k) && forall j: nat :: j < k ==> !OccursAt(s, pattern, j)
  }

  /** There is at most one first occurrence. */
  lemma FirstOccurrenceUnique(s: string, pattern: string, k: nat, k': nat)
    requires FirstOccurrence(s, pattern, k) && FirstOccurrence(s, pattern, k')
    ensures k == k'
  {
    assert !(k < k') && !(k' < k);
  }

  /** `s.replace(pattern, replacement)` with a string pattern: only the first
      occurrence is replaced, and the string is unchanged when there is none. */
  function Replace(s: string, pattern: string, replacement: string): (r: string)
    ensures (forall j: nat :: !OccursAt(s, pattern, j)) ==> r == s
    ensures forall k: nat :: FirstOccurrence(s, pattern, k) ==>
              r == s[..k] + Substitution(replacement, pattern, s[..k], s[k + |pattern|..]) + s[k + |pattern|..]
  {
    match IndexOf(s, pattern)
    case None => s
    case Some(k) =>
      assert forall k': nat :: FirstOccurrence(s, pattern, k') ==> k' == k by {
        forall k': nat | FirstOccurrence(s, pattern, k') ensures k' == k {
          FirstOccurrenceUnique(s, pattern, k, k');
        }
      }
      s[..k] + Substitution(replacement, pattern, s[..k], s[k + |pattern|..]) + s[k + |pattern|..]
  }

  /** When the first occurrence of `pattern` in `head + pattern + tail` is the one after
      `head`, replace puts the substituted replacement text there, with `head` as the
      text before the match and `tail` as the text after it. */
  lemma ReplaceWithSubstitution(head: string, pattern: string, tail: string, replacement: string)
    requires forall j: nat :: j < |head| ==> !OccursAt(head + pattern + tail, pattern, j)
    ensures Replace(head + pattern + tail, pattern, replacement)
            == head + Substitution(replacement, pattern, head, tail) + tail
  {
    var s := head + pattern + tail;
    assert s[|head|..|head| + |pattern|] == pattern;
    assert OccursAt(s, pattern, |head|);
    assert IndexOf(s, pattern) == Some(|head|);
    assert s[..|head|] == head;
    assert s[|head| + |pattern|..] == tail;
  }

  /** A pattern that starts with a character absent from `head` cannot occur at any
      index inside `head`. */
  lemma NoOccurrenceInside(head: string, rest: string, pattern: string)
    requires |pattern| > 0 && pattern[0] !in head
    ensures forall j: nat :: j < |head| ==> !OccursAt(head + rest, pattern, j)
  {

  }

  /** A pattern whose first character is absent from `head` is first found right after it. */
  lemma ReplaceAfter(head: string, pattern: string, tail: string, replacement: string)
    requires |pattern| > 0 && pattern[0] !in head
    ensures Replace(head + pattern + tail, pattern, replacement)
            == head + Substitution(replacement, pattern, head, tail) + tail
  {
    assert head + pattern + tail == head + (pattern + tail);
    NoOccurrenceInside(head, pattern + tail, pattern);
    ReplaceWithSubstitution(head, pattern, tail, replacement);
  }

  /** Filling two placeholders in turn, each by a first-occurrence replace: when the
      first character of each placeholder appears nowhere before it (the filled-in
      first value included), each replace lands on its own placeholder. The first
      value goes in verbatim when it has no `$`; the second is substituted with the
      text around its placeholder. */
  lemma ReplaceInTurn(head: string, p1: string, middle: string, p2: string, tail: string, x: string, y: string)
    requires |p1| > 0 && |p2| > 0
    requires p1[0] !in head && p2[0] !in head + x + middle
    requires '$' !in x
    ensures Replace(Replace(head + p1 + middle + p2 + tail, p1, x), p2, y)
            == head + x + middle + Substitution(y, p2, head + x + middle, tail) + tail
  {
    var rest := middle + p2 + tail;
    var h2 := head + x + middle;
    calc {
      Replace(head + p1 + middle + p2 + tail, p1, x);
      == { assert head + p1 + middle + p2 + tail == head + p1 + rest; }
      Replace(head + p1 + rest, p1, x);
      == { ReplaceAfter(head, p1, rest, x); SubstitutionLiteral(x, p1, head, rest); }
      head + x + rest;
      == { assert head + x + rest == h2 + p2 + tail; }
      h2 + p2 + tail;
    }
    ReplaceAfter(h2, p2, tail, y);
  }

  /** Filling two placeholders in turn when the second value ends in `$'`: those two
      characters become the text after the second placeholder, so it appears twice. */
  lemma ReplaceInTurnQuoteAfter(head: string, p1: string, middle: string, p2: string, tail: string, x: string, a: string)
    requires |p1| > 0 && |p2| > 0
    requires p1[0] !in head && p2[0] !in head + x + middle
    requires '$' !in x && '$' !in a
    ensures Replace(Replace(head + p1 + middle + p2 + tail, p1, x), p2, a + "$'")
            == head + x + middle + a + tail + tail
  {
    var y, h2 := a + "$'", head + x + middle;
    var sub := Substitution(y, p2, h2, tail);
    assert sub == a + tail by {
      assert y == a + "$'" + "";
      SubstitutionQuoteAfter(a, "", p2, h2, tail);
      assert a + tail + "" == a + tail;
    }
    calc {
      Replace(Replace(head + p1 + middle + p2 + tail, p1, x), p2, y);
      == { ReplaceInTurn(head, p1, middle, p2, tail, x, y); }
      h2 + sub + tail;
      == { assert h2 + (a + tail) + tail == h2 + a + tail + tail; }
      h2 + a + tail + tail;
    }
  }

  // ---------------------------------------------------------------------------
  // numbers: String(n) and parseInt

  function DigitChar(d: nat): (c: char)
    requires d < 10
    ensures '0' <= c <= '9'
  {
    (('0' as int) + d) as char
  }

  /** The decimal digits of a natural number, most significant first, no leading zero. */
  function NatToString(n: nat): (r: string)
    ensures |r| >= 1
    ensures forall i :: 0 <= i < |r| ==> '0' <= r[i] <= '9'
    decreases n
  {
    if n < 10 then [DigitChar(n)] else NatToString(n / 10) + [DigitChar(n % 10)]
  }

  /** `String(n)` for an integer `n`. */
  function IntToString(n: int): (r: string)
    ensures |r| >= 1 && (r[0] == '-' <==> n < 0)
    ensures forall i :: (if n < 0 then 1 else 0) <= i < |r| ==> '0' <= r[i] <= '9'
  {
    if n < 0 then "-" + NatToString(-n) else NatToString(n)
  }

  /** The value of a digit in radix up to 36; 36 for a character that is no digit. */
  function DigitValue(c: char): nat {
    if '0' <= c <= '9' then c as int - '0' as int
    else if 'a' <= c <= 'z' then c as int - 'a' as int + 10
    else if 'A' <= c <= 'Z' then c as int - 'A' as int + 10
    else 36
  }

  /** The longest prefix of `s` made of digits of the given radix. */
  function DigitPrefix(s: string, radix: nat): (r: string)
    ensures |r| <= |s| && r == s[..|r|]
    ensures forall i :: 0 <= i < |r| ==> DigitValue(r[i]) < radix
    ensures |r| == |s| || DigitValue(s[|r|]) >= radix
    decreases |s|
  {
    if |s| > 0 && DigitValue(s[0]) < radix then [s[0]] + DigitPrefix(s[1..], radix) else ""
  }

  /** The value of a digit string, most significant digit first. */
  function DigitsValue(digits: string, radix: nat): nat
    decreases |digits|
  {
    if |digits| == 0 then 0
    else DigitsValue(digits[..|digits| - 1], radix) * radix + DigitValue(digits[|digits| - 1]) % 36
  }

  /** The number an unsigned numeral starts with: hexadecimal digits after `0x`/`0X`,
      decimal digits otherwise; the longest run of digits counts and the rest is
      ignored. `None` when there is no digit at all. */
  function UnsignedValue(u: string): (r: Option<nat>)
  {
    var hex := |u| >= 2 && u[0] == '0' && (u[1] == 'x' || u[1] == 'X');
    var radix := if hex then 16 else 10;
    var digits := DigitPrefix(if hex then u[2..] else u, radix);
    if digits == "" then None else Some(DigitsValue(digits, radix))
  }

  /** A numeral with an optional sign; `None` when no digit follows the sign. */
  function SignedValue(t: string): (r: Option<int>)
  {
    if |t| > 0 && t[0] == '-' then
      match UnsignedValue(t[1..])
      case None => None
      case Some(v) => Some(-(v as int))
    else if |t| > 0 && t[0] == '+' then
      match UnsignedValue(t[1..])
      case None => None
      case Some(v) => Some(v)
    else
      match UnsignedValue(t)
      case None => None
      case Some(v) => Some(v)
  }

  /** `parseInt(s)` without a radix: leading whitespace, then a numeral with an
      optional sign. `None` stands for NaN. */
  function ParseInt(s: string): (r: Option<int>)
    ensures (forall i :: 0 <= i < |s| ==> IsWhitespace(s[i])) ==> r.None?
    ensures r.Some? ==> exists i :: 0 <= i < |s| && '0' <= s[i] <= '9'
  {
    var t := TrimStart(s);
    assert (forall i :: 0 <= i < |s| ==> IsWhitespace(s[i])) ==> t == "";
    var r := SignedValue(t);
    assert r.Some? ==> exists i :: 0 <= i < |s| && '0' <= s[i] <= '9' by {
      if r.Some? {
        var i := NumeralDigit(t);
        assert s[|s| - |t| + i] == t[i];
      }
    }
    r
  }

  /** A numeral that reads as a number has a decimal digit right after its sign: the
      first digit, or the `0` of `0x`. */
  lemma NumeralDigit(t: string) returns (i: nat)
    requires SignedValue(t).Some?
    ensures i < |t| && '0' <= t[i] <= '9'
  {
    i := if |t| > 0 && (t[0] == '-' || t[0] == '+') then 1 else 0;
    var u := t[i..];
    assert UnsignedValue(u).Some?;
    assert u[0] == t[i];
  }

  /** A string made only of digits of the radix is its own digit prefix. */
  lemma {:induction false} DigitPrefixOfDigits(s: string, radix: nat)
    requires forall i :: 0 <= i < |s| ==> DigitValue(s[i]) < radix
    ensures DigitPrefix(s, radix) == s
    decreases |s|
  {
    if |s| > 0 {
      DigitPrefixOfDigits(s[1..], radix);
      assert [s[0]] + s[1..] == s;
    }
  }

  /** The decimal digits of `n` have the value `n`. */
  lemma {:induction false} DecimalValue(n: nat)
    ensures DigitsValue(NatToString(n), 10) == n
    decreases n
  {
    var r := NatToString(n);
    if n >= 10 {
      DecimalValue(n / 10);
      assert r[..|r| - 1] == NatToString(n / 10);
      assert r[|r| - 1] == DigitChar(n % 10);
    }
  }

  /** A run of decimal digits that does not start with `0x` reads as its value. */
  lemma UnsignedDigits(d: string)
    requires |d| >= 1 && forall i :: 0 <= i < |d| ==> DigitValue(d[i]) < 10
    requires !(|d| >= 2 && d[0] == '0' && (d[1] == 'x' || d[1] == 'X'))
    ensures UnsignedValue(d) == Some(DigitsValue(d, 10))
  {
    DigitPrefixOfDigits(d, 10);
  }

  /** The decimal digits of a natural number read back as the number. */
  lemma DecimalNumeral(m: nat)
    ensures UnsignedValue(NatToString(m)) == Some(m)
  {
    var d := NatToString(m);
    assert forall i :: 0 <= i < |d| ==> DigitValue(d[i]) < 10;
    assert |d| >= 2 ==> '0' <= d[1] <= '9';
    UnsignedDigits(d);
    DecimalValue(m);
  }

  /** Text that starts with no whitespace is read from its first character. */
  lemma ParseIntUntrimmed(s: string)
    requires s != "" && !IsWhitespace(s[0])
    ensures ParseInt(s) == SignedValue(s)
  {
    TrimStartDropsWhitespace("", s);
    assert "" + s == s;
  }

  /** A numeral that starts with a digit reads the same after an optional minus sign,
      negated when the sign is there. */
  lemma SignedNumeral(d: string, v: nat, negative: bool)
    requires |d| >= 1 && '0' <= d[0] <= '9' && UnsignedValue(d) == Some(v)
    ensures ParseInt(if negative then "-" + d else d) == Some(if negative then -(v as int) else v)
  {
    if negative {
      var s := "-" + d;
      assert s[0] == '-' && s[1..] == d;
      assert SignedValue(s) == Some(-(v as int));
      ParseIntUntrimmed(s);
    } else {
      assert d[0] != '-' && d[0] != '+';
      assert SignedValue(d) == Some(v);
      ParseIntUntrimmed(d);
    }
  }

  /** `parseInt` reads the decimal digits of a natural number back, with or without a
      leading minus sign. */
  lemma ParseIntDecimal(m: nat, negative: bool)
    ensures ParseInt(if negative then "-" + NatToString(m) else NatToString(m))
            == Some(if negative then -(m as int) else m)
  {
    DecimalNumeral(m);
    SignedNumeral(NatToString(m), m, negative);
  }

  /** `parseInt(String(n))` gives back `n`. */
  lemma ParseIntRoundTrip(n: int)
    ensures ParseInt(IntToString(n)) == Some(n)
  {
    var negative := n < 0;
    var m: nat := if negative then -n else n;
    assert IntToString(n) == if negative then "-" + NatToString(m) else NatToString(m);
    ParseIntDecimal(m, negative);
  }
}
