/**
 * The few Python string operations the core relies on, written out:
 * `s.split('\n')`, `sep.join(parts)`, `s.strip()` and `str(n)` for an int.
 */
module PyText {
  import opened Wrappers

  /** Characters for which Python's `str.isspace()` holds; `str.strip()` removes these. */
  predicate IsWhitespace(c: char) {
    c == ' ' || ('\t' <= c <= '\r') || ('\U{1c}' <= c <= '\U{1f}') ||
    c == '\U{85}' || c == '\U{a0}' || c == '\U{1680}' || ('\U{2000}' <= c <= '\U{200a}') ||
    c == '\U{2028}' || c == '\U{2029}' || c == '\U{202f}' || c == '\U{205f}' || c == '\U{3000}'
  }

  /** True when every character is whitespace (the empty string included). */
  predicate IsBlank(s: string) {
    forall i :: 0 <= i < |s| ==> IsWhitespace(s[i])
  }

  predicate NoNewline(s: string) {
    '\n' !in s
  }

  predicate HasPrefix(s: string, prefix: string) {
    |prefix| <= |s| && s[..|prefix|] == prefix
  }

  lemma PrefixOfPrefix(s: string, t: string, u: string)
    requires HasPrefix(s, t) && HasPrefix(t, u)
    ensures HasPrefix(s, u)
  {
    assert s[..|u|] == s[..|t|][..|u|];
  }

  // ---------------------------------------------------------------------
  // sep.join(parts)

  /** Python's `sep.join(parts)`: the parts with one `sep` between each neighbouring pair. */
  function Join(sep: string, parts: seq<string>): string
  {
    if |parts| == 0 then ""
    else if |parts| == 1 then parts[0]
    else Join(sep, parts[..|parts| - 1]) + sep + parts[|parts| - 1]
  }

  /** A join of at least one part starts with the first part. */
  lemma {:induction false} JoinStartsWithFirst(sep: string, parts: seq<string>)
    requires |parts| >= 1
    ensures HasPrefix(Join(sep, parts), parts[0])
  {
    if |parts| > 1 {
      var init := parts[..|parts| - 1];
      JoinStartsWithFirst(sep, init);
      assert init[0] == parts[0];
      var j := Join(sep, init);
      assert Join(sep, parts) == j + (sep + parts[|parts| - 1]);
    }
  }

  // ---------------------------------------------------------------------
  // s.split('\n')

  /**
   * The pieces after one more character: a newline opens a new empty piece,
   * any other character extends the last piece.
   */
  function Extend(pieces: seq<string>, c: char): (r: seq<string>)
    requires |pieces| >= 1
    ensures |r| >= 1
  {
    if c == '\n' then pieces + [[]]
    else pieces[..|pieces| - 1] + [pieces[|pieces| - 1] + [c]]
  }

  /**
   * Python's `s.split('\n')`: k newlines give k + 1 pieces, so "" gives [""]
   * and a trailing newline gives a trailing empty piece.
   */
  function Split(s: string): (pieces: seq<string>)
    ensures |pieces| >= 1
  {
    if s == [] then [[]] else Extend(Split(s[..|s| - 1]), s[|s| - 1])
  }

  /** k separators give exactly k + 1 pieces. */
  lemma {:induction false} SplitCount(s: string)
    ensures |Split(s)| == multiset(s)['\n'] + 1
  {
    if s != [] {
      var init := s[..|s| - 1];
      SplitCount(init);
      assert s == init + [s[|s| - 1]];
      assert multiset(s) == multiset(init) + multiset{s[|s| - 1]};
    }
  }

  /** No piece contains the separator. */
  lemma {:induction false} SplitPiecesHaveNoNewline(s: string)
    ensures forall k :: 0 <= k < |Split(s)| ==> NoNewline(Split(s)[k])
  {
    if s != [] {
      var init := s[..|s| - 1];
      SplitPiecesHaveNoNewline(init);
      var pi := Split(init);
      var c := s[|s| - 1];
      if c != '\n' {
        var last := pi[|pi| - 1] + [c];
        assert NoNewline(pi[|pi| - 1]);
        assert NoNewline(last) by {
          forall i | 0 <= i < |last| ensures last[i] != '\n' {
            if i < |pi[|pi| - 1]| { assert last[i] == pi[|pi| - 1][i]; }
          }
        }
      }
    }
  }

  /** A string without newlines is one piece. */
  lemma {:induction false} SplitWithoutNewline(s: string)
    requires NoNewline(s)
    ensures Split(s) == [s]
  {
    if s != [] {
      var init := s[..|s| - 1];
      assert NoNewline(init) by {
        forall i | 0 <= i < |init| ensures init[i] != '\n' { assert init[i] == s[i]; }
      }
      SplitWithoutNewline(init);
      assert s[|s| - 1] != '\n' by { assert s[|s| - 1] in s; }
      assert init + [s[|s| - 1]] == s;
    }
  }

  lemma SplitSnoc(s: string, c: char)
    ensures Split(s + [c]) == Extend(Split(s), c)
  {
    assert (s + [c])[..|s + [c]| - 1] == s;
  }

  /** Extending the pieces of `sa + sb` only touches the `sb` part. */
  lemma ExtendShared(sa: seq<string>, sb: seq<string>, c: char)
    requires |sb| >= 1
    ensures Extend(sa + sb, c) == sa + Extend(sb, c)
  {
    if c != '\n' {
      var r := sa + sb;
      assert r[..|r| - 1] == sa + sb[..|sb| - 1];
      assert r[|r| - 1] == sb[|sb| - 1];
    }
  }

  /** Appending a character to `b` where `Split(x)` ends in `Split(b)` keeps that correspondence. */
  lemma SplitSnocShared(x: string, b: string, c: char, sa: seq<string>)
    requires Split(x) == sa + Split(b)
    ensures Split(x + [c]) == sa + Split(b + [c])
  {
    SplitSnoc(x, c);
    SplitSnoc(b, c);
    ExtendShared(sa, Split(b), c);
  }

  /** Splitting at a newline splits the two sides independently. */
  lemma {:induction false} SplitConcat(a: string, b: string)
    ensures Split(a + "\n" + b) == Split(a) + Split(b)
  {
    if b == [] {
      assert a + "\n" + b == a + ['\n'];
      SplitSnoc(a, '\n');
    } else {
      var b', c := b[..|b| - 1], b[|b| - 1];
      var x := a + "\n" + b';
      assert b == b' + [c];
      assert a + "\n" + b == x + [c];
      SplitConcat(a, b');
      SplitSnocShared(x, b', c, Split(a));
    }
  }

  /** Joining the pieces with the separator restores the string. */
  lemma {:induction false} JoinSplit(s: string)
    ensures Join("\n", Split(s)) == s
  {
    if s != [] {
      var init, c := s[..|s| - 1], s[|s| - 1];
      assert s == init + [c];
      SplitSnoc(init, c);
      JoinSplit(init);
      var pi := Split(init);
      if c == '\n' {
        var r := pi + [[]];
        assert r[..|r| - 1] == pi;
        assert Join("\n", r) == Join("\n", pi) + "\n" + [];
      } else {
        var r := pi[..|pi| - 1] + [pi[|pi| - 1] + [c]];
        if |pi| == 1 {
          assert Join("\n", r) == r[0];
        } else {
          var pre := pi[..|pi| - 1];
          assert r[..|r| - 1] == pre;
          assert Join("\n", r) == Join("\n", pre) + "\n" + (pi[|pi| - 1] + [c]);
          assert Join("\n", pi) == Join("\n", pre) + "\n" + pi[|pi| - 1];
        }
      }
    }
  }

  lemma SplitJoinStep(j: string, init: seq<string>, last: string)
    requires Split(j) == init && NoNewline(last)
    ensures Split(j + "\n" + last) == init + [last]
  {
    SplitConcat(j, last);
    SplitWithoutNewline(last);
  }

  /** Two newlines in a row leave one empty piece between the two sides. */
  lemma SplitAtBlankLine(a: string, b: string)
    ensures Split(a + "\n\n" + b) == Split(a) + [""] + Split(b)
  {
    assert a + "\n\n" + b == a + "\n" + ("" + "\n" + b);
    SplitConcat(a, "" + "\n" + b);
    SplitConcat("", b);
  }

  /** Splitting a newline-join of newline-free parts gives the parts back. */
  lemma {:induction false} SplitJoin(parts: seq<string>)
    requires |parts| >= 1
    requires forall k :: 0 <= k < |parts| ==> NoNewline(parts[k])
    ensures Split(Join("\n", parts)) == parts
  {
    if |parts| == 1 {
      SplitWithoutNewline(parts[0]);
    } else {
      var init, last := parts[..|parts| - 1], parts[|parts| - 1];
      SplitJoin(init);
      SplitJoinStep(Join("\n", init), init, last);
      assert init + [last] == parts;
    }
  }

  // ---------------------------------------------------------------------
  // s.strip()

  function TrimStart(s: string): (t: string)
    ensures |t| <= |s| && t == s[|s| - |t|..]
    ensures t != [] ==> !IsWhitespace(t[0])
    ensures forall i :: 0 <= i < |s| - |t| ==> IsWhitespace(s[i])
  {
    if s != [] && IsWhitespace(s[0]) then TrimStart(s[1..]) else s
  }

  function TrimEnd(s: string): (t: string)
    ensures |t| <= |s| && t == s[..|t|]
    ensures t != [] ==> !IsWhitespace(t[|t| - 1])
    ensures forall i :: |t| <= i < |s| ==> IsWhitespace(s[i])
  {
    if s != [] && IsWhitespace(s[|s| - 1]) then TrimEnd(s[..|s| - 1]) else s
  }

  /**
   * Python's `s.strip()`: `s` without its leading and trailing whitespace.
   * The result neither starts nor ends with whitespace.
   */
  function Strip(s: string): (t: string)
    ensures |t| <= |s|
    ensures t != [] ==> !IsWhitespace(t[0]) && !IsWhitespace(t[|t| - 1])
  {
    TrimEnd(TrimStart(s))
  }

  /** `s.strip()` is empty exactly when `s` is all whitespace. */
  lemma StripEmptyIffBlank(s: string)
    ensures Strip(s) == "" <==> IsBlank(s)
  {
    var u := TrimStart(s);
    if Strip(s) == "" {
      forall i | 0 <= i < |s| ensures IsWhitespace(s[i]) {
        if i >= |s| - |u| {
          assert s[i] == u[i - (|s| - |u|)];
        }
      }
    } else {
      var t := Strip(s);
      assert t[0] in s;
    }
  }

  // ---------------------------------------------------------------------
  // str(n) for an int, and its inverse

  function DigitChar(d: nat): (c: char)
    requires d < 10
    ensures '0' <= c <= '9'
  {
    (('0' as int) + d) as char
  }

  /** Decimal digits of n, most significant first, with no leading zero. */
  function NatToString(n: nat): (s: string)
    ensures |s| >= 1
    ensures forall i :: 0 <= i < |s| ==> '0' <= s[i] <= '9'
  {
    if n < 10 then [DigitChar(n)] else NatToString(n / 10) + [DigitChar(n % 10)]
  }

  /** Python's `str(n)` for an int: a minus sign for negatives, then the decimal digits. */
  function IntToString(n: int): string
  {
    if n < 0 then "-" + NatToString(-n) else NatToString(n)
  }

  /** Reads a non-empty run of decimal digits; None for anything else. */
  function ParseNat(s: string): (r: Option<nat>)
    ensures r.Some? ==> s != [] && forall i :: 0 <= i < |s| ==> '0' <= s[i] <= '9'
  {
    if s == [] || !('0' <= s[|s| - 1] <= '9') then None
    else
      var d := (s[|s| - 1] as int) - ('0' as int);
      if |s| == 1 then Some(d)
      else match ParseNat(s[..|s| - 1])
        case None => None
        case Some(m) => Some(10 * m + d)
  }

  /** Reads what `IntToString` writes: an optional minus sign then digits. */
  function ParseInt(s: string): Option<int>
  {
    if |s| >= 1 && s[0] == '-' then
      match ParseNat(s[1..])
      case None => None
      case Some(m) => Some(-(m as int))
    else
      match ParseNat(s)
      case None => None
      case Some(m) => Some(m)
  }

  lemma {:induction false} ParseNatToString(n: nat)
    ensures ParseNat(NatToString(n)) == Some(n)
  {
    if n >= 10 {
      ParseNatToString(n / 10);
      var s := NatToString(n);
      assert s[..|s| - 1] == NatToString(n / 10);
    }
  }

  lemma ParseIntOfDigits(d: string, m: nat, negative: bool)
    requires ParseNat(d) == Some(m)
    ensures ParseInt(if negative then "-" + d else d) == Some(if negative then -(m as int) else m)
  {
    if negative {
      assert ("-" + d)[1..] == d;
    } else {
      assert d[0] != '-';
    }
  }

  /** `str(n)` loses nothing: the number can be read back from it. */
  lemma IntToStringRoundTrip(n: int)
    ensures ParseInt(IntToString(n)) == Some(n)
  {
    var m: nat := if n < 0 then -n else n;
    ParseNatToString(m);
    ParseIntOfDigits(NatToString(m), m, n < 0);
  }

  lemma IntToStringHasNoNewline(n: int)
    ensures NoNewline(IntToString(n))
  {
    var s := IntToString(n);
    if n < 0 {
      var d := NatToString(-n);
      assert s == "-" + d;
      forall i | 0 <= i < |s| ensures s[i] != '\n' {
        if i > 0 { assert s[i] == d[i - 1]; }
      }
    }
  }
}
