/** The Python string operations the modelled services share. */
module PyText {
  datatype Option<+T> = None | Some(value: T)

  ghost function AnyOf<T>(s: set<T>): (x: T)
    requires s != {}
    ensures x in s
  {
    var x :| x in s;
    x
  }

  /** `str.isspace` on one character. */
  predicate IsSpace(c: char) {
    '\t' <= c <= '\r' || '\U{1c}' <= c <= ' ' || c == '\U{85}' || c == '\U{a0}' || c == '\U{1680}' ||
    '\U{2000}' <= c <= '\U{200a}' || c == '\U{2028}' || c == '\U{2029}' || c == '\U{202f}' ||
    c == '\U{205f}' || c == '\U{3000}'
  }

  predicate Trimmed(s: string) {
    s == [] || (!IsSpace(s[0]) && !IsSpace(s[|s| - 1]))
  }

  /** `str.lstrip()` */
  function LStrip(s: string): (r: string)
    ensures |r| <= |s| && r == s[|s| - |r|..]
    ensures r == [] || !IsSpace(r[0])
    ensures forall i :: 0 <= i < |s| - |r| ==> IsSpace(s[i])
  {
    if s != [] && IsSpace(s[0]) then LStrip(s[1..]) else s
  }

  /** `str.rstrip()` */
  function RStrip(s: string): (r: string)
    ensures r <= s
    ensures r == [] || !IsSpace(r[|r| - 1])
    ensures forall i :: |r| <= i < |s| ==> IsSpace(s[i])
  {
    if s != [] && IsSpace(s[|s| - 1]) then RStrip(s[..|s| - 1]) else s
  }

  /** `str.strip()` */
  function Strip(s: string): (r: string)
    ensures Trimmed(r)
    ensures Trimmed(s) ==> r == s
  {
    var t := LStrip(s);
    assert RStrip(t) != [] ==> RStrip(t)[0] == t[0];
    RStrip(t)
  }

  /** `str.lower` on the characters whose lower case can hold an ASCII letter: the Kelvin sign becomes a k, and an I
      with a dot above becomes an i and a combining dot. Other characters are left alone. */
  function LowerChar(c: char): (r: string)
    ensures 1 <= |r| <= 2
    ensures 'A' <= c <= 'Z' ==> r == [(c as int + 32) as char]
  {
    if 'A' <= c <= 'Z' then ['a' + (c - 'A')]
    else if c == '\U{212a}' then "k"
    else if c == '\U{130}' then ['i', '\U{307}']
    else [c]
  }

  function LowerText(s: string): (r: string)
    ensures |s| <= |r| <= 2 * |s|
  {
    if |s| == 0 then [] else LowerChar(s[0]) + LowerText(s[1..])
  }

  lemma {:induction false} LowerConcat(a: string, b: string)
    ensures LowerText(a + b) == LowerText(a) + LowerText(b)
  {
    if |a| == 0 {
      assert a + b == b;
    } else {
      assert (a + b)[1..] == a[1..] + b;
      LowerConcat(a[1..], b);
    }
  }

  /** Text without capital letters is its own lower case. */
  lemma {:induction false} LowerSame(s: string)
    requires forall c :: c in s ==> LowerChar(c) == [c]
    ensures LowerText(s) == s
  {
    if |s| != 0 {
      assert s[0] in s && forall c :: c in s[1..] ==> c in s;
      LowerSame(s[1..]);
      assert s == [s[0]] + s[1..];
    }
  }

  /** What is in a lower case comes from a character of the text. */
  lemma {:induction false} LowerMember(s: string, c: char) returns (d: char)
    requires c in LowerText(s)
    ensures d in s && c in LowerChar(d)
  {
    hide LowerChar;
    if c in LowerChar(s[0]) {
      d := s[0];
    } else {
      d := LowerMember(s[1..], c);
    }
  }

  lemma {:induction false} LowerHas(s: string, d: char, c: char)
    requires d in s && c in LowerChar(d)
    ensures c in LowerText(s)
  {
    hide LowerChar;
    if d != s[0] { LowerHas(s[1..], d, c); }
  }

  lemma LowerSettles(s: string)
    ensures LowerText(LowerText(s)) == LowerText(s)
  {
    hide LowerText, LowerChar;
    forall c | c in LowerText(s) ensures LowerChar(c) == [c] {
      var d := LowerMember(s, c);
      LowerCharSettles(d, c);
    }
    LowerSame(LowerText(s));
  }

  lemma LowerCharSettles(d: char, c: char)
    requires c in LowerChar(d)
    ensures LowerChar(c) == [c]
    ensures !IsSpace(d) ==> !IsSpace(c)
  {
  }

  lemma LowerFirst(s: string)
    requires s != ""
    ensures LowerText(s)[0] == LowerChar(s[0])[0]
  {
    hide LowerChar;
  }

  lemma LowerLast(s: string)
    requires s != ""
    ensures var l, last := LowerText(s), LowerChar(s[|s| - 1]); l[|l| - 1] == last[|last| - 1]
  {
    LowerConcat(s[..|s| - 1], [s[|s| - 1]]);
    assert s == s[..|s| - 1] + [s[|s| - 1]];
    assert [s[|s| - 1]][1..] == [] && LowerText([]) == [];
  }

  /** Nothing but white space. */
  predicate Blank(s: string) {
    forall i :: 0 <= i < |s| ==> IsSpace(s[i])
  }

  /** `r` is `s` without its outer white space. */
  ghost predicate IsStripped(s: string, r: string) {
    Trimmed(r) && exists pre, post :: Blank(pre) && Blank(post) && s == pre + r + post
  }

  lemma StripSplits(s: string)
    ensures IsStripped(s, Strip(s))
  {
    hide IsSpace, Trimmed, LStrip, RStrip;
    var t := LStrip(s);
    var u, pre := RStrip(t), s[..|s| - |t|];
    var post := t[|u|..];
    assert s == pre + u + post;
    assert Blank(pre) && Blank(post);
  }

  /** `str.strip` takes away white space at both ends and nothing else. */
  lemma {:induction false} StripIff(s: string, r: string)
    ensures Strip(s) == r <==> IsStripped(s, r)
  {
    hide Strip, Blank, Trimmed;
    StripSplits(s);
    if IsStripped(s, r) {
      var pre, post :| Blank(pre) && Blank(post) && s == pre + r + post;
      StripOnce(pre, r, post);
    }
  }

  lemma BlankIff(s: string)
    ensures Blank(s) <==> Strip(s) == ""
  {
    hide Strip, IsSpace;
    StripIff(s, "");
    if Strip(s) == "" {
      var pre, post :| Blank(pre) && Blank(post) && s == pre + "" + post;
      assert Blank(s);
    }
    assert Blank("") && Trimmed("") && s == s + "" + "";
  }

  lemma StripOnce(pre: string, r: string, post: string)
    requires Blank(pre) && Blank(post) && Trimmed(r)
    ensures Strip(pre + r + post) == r
  {
    hide IsSpace, LStrip, RStrip;
    var s := pre + r + post;
    var t := LStrip(s);
    assert t != [] ==> t[0] == s[|s| - |t|];
    if r == [] {
      assert Blank(s);
    } else {
      assert s[|pre|] == r[0];
      assert |t| == |r| + |post|;
      assert t == r + post;
      assert t[|r| - 1] == r[|r| - 1];
      var u := RStrip(t);
      assert u != [] ==> u[|u| - 1] == t[|u| - 1];
      assert |u| == |r|;
    }
  }

  predicate IsDigit(c: char) {
    '0' <= c <= '9'
  }

  /** `str(n)` */
  function Decimal(n: nat): (s: string)
    ensures |s| > 0 && forall i :: 0 <= i < |s| ==> IsDigit(s[i])
  {
    (if n < 10 then [] else Decimal(n / 10)) + ['0' + (n % 10) as char]
  }

  function Value(digits: string): int {
    if |digits| == 0 then 0 else 10 * Value(digits[..|digits| - 1]) + (digits[|digits| - 1] as int - '0' as int)
  }

  /** `str(n)` reads as `n`, and has no leading zero. */
  lemma {:induction false} DecimalReads(n: nat)
    ensures Value(Decimal(n)) == n && (n > 0 ==> Decimal(n)[0] != '0')
  {
    var s := Decimal(n);
    if n >= 10 {
      DecimalReads(n / 10);
      assert s[..|s| - 1] == Decimal(n / 10) && s[0] == Decimal(n / 10)[0];
    } else {
      assert s[..|s| - 1] == [];
    }
    assert s[|s| - 1] as int - '0' as int == n % 10;
  }

  lemma {:induction false} DecimalInjective(m: nat, n: nat)
    requires Decimal(m) == Decimal(n)
    ensures m == n
  {
    var s := Decimal(m);
    assert s[|s| - 1] == '0' + (m % 10) as char == '0' + (n % 10) as char;
    if m >= 10 && n >= 10 {
      assert s[..|s| - 1] == Decimal(m / 10) == Decimal(n / 10);
      DecimalInjective(m / 10, n / 10);
    }
  }
}
