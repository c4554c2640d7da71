/** The Python `str` operations the pipeline relies on, over `string`
    (a sequence of Unicode scalar values, like a Python `str`). */
module Text {

  import opened Wrappers

  /** `c.isspace()`: the characters Python treats as whitespace (bidirectional
      class WS, B or S, or general category Zs). The same set is `\s` in `re`
      and the separator set of `str.split()` and `str.strip()`. */
  predicate IsSpace(c: char)
  {
    || c == ' '
    || '\t' <= c <= '\r'
    || '\U{1c}' <= c <= '\U{1f}'
    || c == '\U{85}' || c == '\U{a0}' || c == '\U{1680}'
    || '\U{2000}' <= c <= '\U{200a}'
    || c == '\U{2028}' || c == '\U{2029}' || c == '\U{202f}' || c == '\U{205f}' || c == '\U{3000}'
  }

  predicate IsDigit(c: char)
  {
    '0' <= c <= '9'
  }

  /** Lower-casing of one character, for the ASCII letters. */
  function LowerChar(c: char): (r: char)
    ensures IsSpace(r) <==> IsSpace(c)
    ensures 'A' <= c <= 'Z' ==> 'a' <= r <= 'z' && r as int - c as int == 32
    ensures !('A' <= c <= 'Z') ==> r == c
  {
    if 'A' <= c <= 'Z' then (c as int + 32) as char else c
  }

  /** `s.lower()` */
  function Lower(s: string): (r: string)
    ensures |r| == |s|
    ensures forall i | 0 <= i < |s| :: r[i] == LowerChar(s[i])
  {
    seq(|s|, i requires 0 <= i < |s| => LowerChar(s[i]))
  }

  /** Every character is its own lower case. */
  predicate IsLowered(s: string)
  {
    forall i | 0 <= i < |s| :: LowerChar(s[i]) == s[i]
  }

  lemma LowerIsLowered(s: string)
    ensures IsLowered(Lower(s))
    ensures IsLowered(s) ==> Lower(s) == s
  {
  }

  /** Leading whitespace removed (`s.lstrip()`). */
  function LStrip(s: string): string
  {
    if s != [] && IsSpace(s[0]) then LStrip(s[1..]) else s
  }

  /** `lstrip` removes a prefix made of whitespace only, and what remains does
      not start with whitespace. */
  lemma {:induction false} LStripDropsLeadingSpace(s: string)
    ensures var r := LStrip(s);
      && |r| <= |s| && r == s[|s| - |r|..]
      && (r == [] || !IsSpace(r[0]))
      && forall i | 0 <= i < |s| - |r| :: IsSpace(s[i])
  {
    if s != [] && IsSpace(s[0]) {
      var t := s[1..];
      LStripDropsLeadingSpace(t);
      var r := LStrip(t);
      assert LStrip(s) == r;
      assert t[|t| - |r|..] == s[|s| - |r|..];
      forall i | 0 <= i < |s| - |r| ensures IsSpace(s[i]) {
        if i > 0 {
          assert s[i] == t[i - 1];
        }
      }
    }
  }

  /** Trailing whitespace removed (`s.rstrip()`). */
  function RStrip(s: string): string
  {
    if s != [] && IsSpace(s[|s| - 1]) then RStrip(s[..|s| - 1]) else s
  }

  /** `rstrip` removes a suffix made of whitespace only, and what remains does
      not end with whitespace. */
  lemma {:induction false} RStripDropsTrailingSpace(s: string)
    ensures var r := RStrip(s);
      && |r| <= |s| && r == s[..|r|]
      && (r == [] || !IsSpace(r[|r| - 1]))
      && forall i | |r| <= i < |s| :: IsSpace(s[i])
  {
    if s != [] && IsSpace(s[|s| - 1]) {
      RStripDropsTrailingSpace(s[..|s| - 1]);
    }
  }

  /** `s.strip()` */
  function Strip(s: string): string
  {
    RStrip(LStrip(s))
  }

  /** A string that starts and ends with a non-whitespace character is its own strip. */
  lemma StripTrimmed(s: string)
    requires s == [] || (!IsSpace(s[0]) && !IsSpace(s[|s| - 1]))
    ensures Strip(s) == s
  {
  }

  /** Stripping twice strips nothing more. */
  lemma StripIdempotent(s: string)
    ensures Strip(Strip(s)) == Strip(s)
  {
    LStripDropsLeadingSpace(s);
    var l := LStrip(s);
    var r := RStrip(l);
    RStripDropsTrailingSpace(l);
    if r != [] {
      assert r[0] == l[0];
      StripTrimmed(r);
    }
  }

  /** Length of the leading run of non-whitespace characters. */
  function WordLen(s: string): (n: nat)
    ensures n <= |s|
    ensures forall i | 0 <= i < n :: !IsSpace(s[i])
    ensures n < |s| ==> IsSpace(s[n])
  {
    if s == [] || IsSpace(s[0]) then 0 else 1 + WordLen(s[1..])
  }

  /** A word as `str.split()` produces it: non-empty, no whitespace. */
  predicate IsWord(w: string)
  {
    w != [] && forall i | 0 <= i < |w| :: !IsSpace(w[i])
  }

  /** `s.split()`: the maximal runs of non-whitespace characters, in order. */
  function Split(s: string): (ws: seq<string>)
    ensures forall w | w in ws :: IsWord(w) && forall c | c in w :: c in s
    decreases |s|
  {
    if s == [] then []
    else if IsSpace(s[0]) then Split(s[1..])
    else
      var n := WordLen(s);
      [s[..n]] + Split(s[n..])
  }

  /** `sep.join(ws)` */
  function Join(sep: string, ws: seq<string>): string
  {
    if ws == [] then "" else if |ws| == 1 then ws[0] else ws[0] + sep + Join(sep, ws[1..])
  }

  /** The normalised form of a name or a query: lower-cased, whitespace runs
      collapsed to one space, no leading or trailing whitespace
      (`" ".join(s.lower().strip().split())`). */
  function Normalize(s: string): string
  {
    Join(" ", Split(Strip(Lower(s))))
  }

  /** `sub in s` */
  predicate Contains(s: string, sub: string)
    decreases |s|
  {
    if |sub| > |s| then false
    else s[..|sub|] == sub || (s != [] && Contains(s[1..], sub))
  }

  lemma {:induction false} WordLenOfWord(w: string, t: string)
    requires forall i | 0 <= i < |w| :: !IsSpace(w[i])
    requires t == [] || IsSpace(t[0])
    ensures WordLen(w + t) == |w|
  {
    if w != [] {
      assert (w + t)[1..] == w[1..] + t;
      WordLenOfWord(w[1..], t);
    } else {
      assert w + t == t;
    }
  }

  lemma SplitOfWord(w: string)
    requires IsWord(w)
    ensures Split(w) == [w]
  {
    WordLenOfWord(w, []);
    assert w + [] == w;
    assert w[|w|..] == [];
  }

  lemma {:induction false} WordLenAppend(a: string, t: string)
    requires t == [] || IsSpace(t[0])
    ensures WordLen(a + t) == WordLen(a)
  {
    if a == [] {
      assert a + t == t;
    } else if !IsSpace(a[0]) {
      assert (a + t)[1..] == a[1..] + t;
      WordLenAppend(a[1..], t);
    }
  }

  /** Leading whitespace produces no word. */
  lemma {:induction false} SplitDropsLeadingSpace(w: string, b: string)
    requires forall i | 0 <= i < |w| :: IsSpace(w[i])
    ensures Split(w + b) == Split(b)
  {
    if w == [] {
      assert w + b == b;
    } else {
      assert (w + b)[1..] == w[1..] + b;
      SplitDropsLeadingSpace(w[1..], b);
    }
  }

  /** A whitespace run, however long, separates words exactly as one space
      does: the words around it are split apart and nothing else is produced. */
  lemma {:induction false} SplitSpaceRun(a: string, w: string, b: string)
    requires w != [] && forall i | 0 <= i < |w| :: IsSpace(w[i])
    ensures Split(a + w + b) == Split(a) + Split(b)
    decreases |a|
  {
    var s := a + w + b;
    if a == [] {
      assert s == w + b;
      SplitDropsLeadingSpace(w, b);
    } else if IsSpace(a[0]) {
      assert s[1..] == a[1..] + w + b;
      SplitSpaceRun(a[1..], w, b);
    } else {
      var m := WordLen(a);
      assert s == a + (w + b);
      WordLenAppend(a, w + b);
      assert s[..m] == a[..m];
      assert s[m..] == a[m..] + w + b;
      SplitSpaceRun(a[m..], w, b);
    }
  }

  /** `split()` yields no word exactly when the string is all whitespace. */
  lemma {:induction false} SplitEmptyIff(s: string)
    ensures Split(s) == [] <==> forall i | 0 <= i < |s| :: IsSpace(s[i])
  {
    if s != [] && IsSpace(s[0]) {
      SplitEmptyIff(s[1..]);
      assert forall i | 1 <= i < |s| :: s[i] == s[1..][i - 1];
    }
  }

  /** Stripping does not change the words. */
  lemma SplitStrip(s: string)
    ensures Split(Strip(s)) == Split(s)
  {
    LStripDropsLeadingSpace(s);
    var l := LStrip(s);
    var k := |s| - |l|;
    assert s == s[..k] + l;
    SplitDropsLeadingSpace(s[..k], l);
    RStripDropsTrailingSpace(l);
    var r := RStrip(l);
    if |r| < |l| {
      assert l == r + l[|r|..] + [];
      SplitSpaceRun(r, l[|r|..], []);
    }
  }

  lemma LowerAppend(a: string, b: string)
    ensures Lower(a + b) == Lower(a) + Lower(b)
  {
  }

  /** Normalising collapses any whitespace run to one space. */
  lemma NormalizeCollapsesSpace(a: string, w: string, b: string)
    requires w != [] && forall i | 0 <= i < |w| :: IsSpace(w[i])
    ensures Normalize(a + w + b) == Normalize(a + " " + b)
  {
    SplitStrip(Lower(a + w + b));
    SplitStrip(Lower(a + " " + b));
    LowerAppend(a + w, b);
    LowerAppend(a, w);
    LowerAppend(a + " ", b);
    LowerAppend(a, " ");
    SplitSpaceRun(Lower(a), Lower(w), Lower(b));
    SplitSpaceRun(Lower(a), Lower(" "), Lower(b));
  }

  /** `str.split()` undoes `" ".join` of words. */
  lemma {:induction false} SplitJoin(ws: seq<string>)
    requires forall w | w in ws :: IsWord(w)
    ensures Split(Join(" ", ws)) == ws
  {
    if |ws| == 1 {
      SplitOfWord(ws[0]);
    } else if |ws| > 1 {
      var w, rest := ws[0], Join(" ", ws[1..]);
      var s := w + " " + rest;
      assert ws[0] in ws && IsWord(w);
      assert Join(" ", ws) == s;
      assert w + (" " + rest) == s;
      WordLenOfWord(w, " " + rest);
      assert s[..|w|] == w;
      assert s[|w|..] == " " + rest;
      assert (" " + rest)[1..] == rest;
      SplitJoin(ws[1..]);
    }
  }

  lemma {:induction false} JoinLowered(sep: string, ws: seq<string>)
    requires IsLowered(sep)
    requires forall w | w in ws :: IsLowered(w)
    ensures IsLowered(Join(sep, ws))
  {
    if |ws| > 1 {
      JoinLowered(sep, ws[1..]);
      assert ws[0] in ws;
      ConcatLowered(ws[0], sep);
      ConcatLowered(ws[0] + sep, Join(sep, ws[1..]));
    } else if |ws| == 1 {
      assert ws[0] in ws;
    }
  }

  lemma ConcatLowered(a: string, b: string)
    requires IsLowered(a) && IsLowered(b)
    ensures IsLowered(a + b)
  {
    forall i | 0 <= i < |a + b| ensures LowerChar((a + b)[i]) == (a + b)[i] {
      if i >= |a| {
        assert (a + b)[i] == b[i - |a|];
      }
    }
  }

  /** Normalising a normalised string changes nothing. */
  lemma NormalizeIdempotent(s: string)
    ensures Normalize(Normalize(s)) == Normalize(s)
  {
    var low := Strip(Lower(s));
    var ws := Split(low);
    var n := Join(" ", ws);
    LowerIsLowered(s);
    StripKeepsLowered(Lower(s));
    forall w | w in ws ensures IsLowered(w) {
      forall i | 0 <= i < |w| ensures LowerChar(w[i]) == w[i] {
        assert w[i] in low;
      }
    }
    JoinLowered(" ", ws);
    if n != [] {
      NormalEnds(ws);
    }
    LowerIsLowered(n);
    StripTrimmed(n);
    SplitJoin(ws);
  }

  lemma StripKeepsLowered(s: string)
    requires IsLowered(s)
    ensures IsLowered(Strip(s))
  {
    LStripDropsLeadingSpace(s);
    var l := LStrip(s);
    assert forall i | 0 <= i < |l| :: l[i] == s[|s| - |l| + i];
    var r := RStrip(l);
    RStripDropsTrailingSpace(l);
    assert forall i | 0 <= i < |r| :: r[i] == l[i];
  }

  lemma {:induction false} LStripLower(s: string)
    ensures LStrip(Lower(s)) == Lower(LStrip(s))
  {
    if s != [] && IsSpace(s[0]) {
      assert Lower(s)[1..] == Lower(s[1..]);
      LStripLower(s[1..]);
    }
  }

  lemma {:induction false} RStripLower(s: string)
    ensures RStrip(Lower(s)) == Lower(RStrip(s))
  {
    if s != [] && IsSpace(s[|s| - 1]) {
      assert Lower(s)[..|s| - 1] == Lower(s[..|s| - 1]);
      RStripLower(s[..|s| - 1]);
    }
  }

  /** Lower-casing and stripping commute (`s.lower().strip() == s.strip().lower()`). */
  lemma StripLowerCommute(s: string)
    ensures Strip(Lower(s)) == Lower(Strip(s))
  {
    LStripLower(s);
    RStripLower(LStrip(s));
  }

  lemma {:induction false} NormalEnds(ws: seq<string>)
    requires forall w | w in ws :: IsWord(w)
    requires ws != []
    ensures var n := Join(" ", ws); n != [] && !IsSpace(n[0]) && !IsSpace(n[|n| - 1])
  {
    assert ws[0] in ws;
    if |ws| > 1 {
      NormalEnds(ws[1..]);
      var rest := Join(" ", ws[1..]);
      assert Join(" ", ws) == ws[0] + " " + rest;
    }
  }

  /** The decimal digit character for `d`. */
  function DigitChar(d: nat): (c: char)
    requires d < 10
    ensures IsDigit(c) && c as int - '0' as int == d
  {
    (d + '0' as int) as char
  }

  /** `str(n)` for a non-negative integer. */
  function NatToString(n: nat): (s: string)
    ensures s != [] && forall i | 0 <= i < |s| :: IsDigit(s[i])
  {
    if n < 10 then [DigitChar(n)] else NatToString(n / 10) + [DigitChar(n % 10)]
  }

  predicate IsDigits(s: string)
  {
    s != [] && forall i | 0 <= i < |s| :: IsDigit(s[i])
  }

  function DigitValue(c: char): (d: nat)
    requires IsDigit(c)
    ensures d < 10
  {
    c as int - '0' as int
  }

  /** The value of a run of decimal digits. */
  function DigitsValue(s: string): nat
    requires forall i | 0 <= i < |s| :: IsDigit(s[i])
  {
    if s == [] then 0 else DigitsValue(s[..|s| - 1]) * 10 + DigitValue(s[|s| - 1])
  }

  /** `int(s)` for a string: surrounding whitespace allowed, an optional sign,
      then one or more ASCII digits; anything else raises `ValueError` (None). */
  function ParseInt(s: string): Option<int>
  {
    var t := Strip(s);
    if t != [] && (t[0] == '-' || t[0] == '+') then
      if IsDigits(t[1..]) then
        Some(if t[0] == '-' then -(DigitsValue(t[1..]) as int) else DigitsValue(t[1..]))
      else None
    else if IsDigits(t) then Some(DigitsValue(t))
    else None
  }

  lemma {:induction false} DigitsValueOfNatToString(n: nat)
    ensures DigitsValue(NatToString(n)) == n
  {
    var s := NatToString(n);
    if n >= 10 {
      DigitsValueOfNatToString(n / 10);
      assert s[..|s| - 1] == NatToString(n / 10);
    }
  }

  /** `int(str(n)) == n` */
  lemma ParseIntOfNatToString(n: nat)
    ensures ParseInt(NatToString(n)) == Some(n)
  {
    var s := NatToString(n);
    StripTrimmed(s);
    DigitsValueOfNatToString(n);
  }
}
