/**
 * The JavaScript string operations the source relies on, over `seq<char>`:
 * `trim`, ASCII `toLowerCase`, `includes`, `startsWith`, `split('\n')`,
 * `replace(/[^0-9]/g, '')` followed by `parseInt`, `replace(/\s+/g, c)`
 * and the decimal rendering of integers in template strings.
 */
module Text {
  import opened Wrappers

  /** The characters that `String.prototype.trim` and the class `\s` treat as white space. */
  predicate IsSpace(c: char) {
    || c == ' ' || c == '\t' || c == '\n' || c == '\U{B}' || c == '\U{C}' || c == '\r'
    || c == '\U{A0}' || c == '\U{1680}' || ('\U{2000}' <= c <= '\U{200A}')
    || c == '\U{2028}' || c == '\U{2029}' || c == '\U{202F}' || c == '\U{205F}'
    || c == '\U{3000}' || c == '\U{FEFF}'
  }

  predicate AllSpace(s: string) {
    forall i :: 0 <= i < |s| ==> IsSpace(s[i])
  }

  predicate NoSpace(s: string) {
    forall i :: 0 <= i < |s| ==> !IsSpace(s[i])
  }

  /** Drops the leading white space: what remains is a suffix that starts with a non-space. */
  function TrimStart(s: string): (r: string)
    ensures |r| <= |s| && r == s[|s| - |r|..]
    ensures AllSpace(s[..|s| - |r|])
    ensures r != [] ==> !IsSpace(r[0])
    decreases |s|
  {
    if s != [] && IsSpace(s[0]) then
      var r := TrimStart(s[1..]);
      assert s[..|s| - |r|] == [s[0]] + s[1..][..|s| - 1 - |r|];
      r
    else s
  }

  /** Drops the trailing white space: what remains is a prefix that ends with a non-space. */
  function TrimEnd(s: string): (r: string)
    ensures |r| <= |s| && r == s[..|r|]
    ensures AllSpace(s[|r|..])
    ensures r != [] ==> !IsSpace(r[|r| - 1])
    decreases |s|
  {
    if s != [] && IsSpace(s[|s| - 1]) then
      var r := TrimEnd(s[..|s| - 1]);
      assert s[|r|..] == s[..|s| - 1][|r|..] + [s[|s| - 1]];
      r
    else s
  }

  /** `r` sits in `s` at `i` with only white space before and after it. */
  predicate Framed(s: string, i: nat, r: string) {
    && i + |r| <= |s| && s[i..i + |r|] == r
    && (forall j :: 0 <= j < i ==> IsSpace(s[j]))
    && (forall j :: i + |r| <= j < |s| ==> IsSpace(s[j]))
  }

  /** `t` is `s` without a white-space prefix and `r` is `t` without a white-space suffix. */
  lemma TrimFramed(s: string, t: string, r: string)
    requires |t| <= |s| && t == s[|s| - |t|..] && AllSpace(s[..|s| - |t|])
    requires |r| <= |t| && r == t[..|r|] && AllSpace(t[|r|..])
    ensures Framed(s, |s| - |t|, r)
  {
    var i := |s| - |t|;
    assert s[i..i + |r|] == r;
    forall j | 0 <= j < i
      ensures IsSpace(s[j])
    {
      assert s[..i][j] == s[j];
    }
    forall j | i + |r| <= j < |s|
      ensures IsSpace(s[j])
    {
      assert t[|r|..][j - i - |r|] == s[j];
    }
  }

  /** Neither the first nor the last character is white space. */
  predicate Unpadded(r: string) {
    r != [] ==> !IsSpace(r[0]) && !IsSpace(r[|r| - 1])
  }

  /** `String.prototype.trim`. It is empty exactly when the whole input is white space. */
  function Trim(s: string): (r: string)
    ensures |r| <= |s|
    ensures Unpadded(r)
    ensures r == [] <==> AllSpace(s)
  {
    var t := TrimStart(s);
    var r := TrimEnd(t);
    TrimEnds(s, t, r);
    r
  }

  /** The facts `Trim` draws from its two halves, stated without unfolding them. */
  lemma TrimEnds(s: string, t: string, r: string)
    requires |t| <= |s| && t == s[|s| - |t|..] && AllSpace(s[..|s| - |t|]) && (t != [] ==> !IsSpace(t[0]))
    requires |r| <= |t| && r == t[..|r|] && AllSpace(t[|r|..]) && (r != [] ==> !IsSpace(r[|r| - 1]))
    ensures Unpadded(r)
    ensures r == [] <==> AllSpace(s)
  {
    assert r != [] ==> r[0] == t[0];
    assert r == [] ==> t[|r|..] == t;
    assert t == [] ==> s[..|s| - |t|] == s;
    assert t != [] ==> t[0] == s[|s| - |t|];
  }

  /** `trim` removes white space only: its result sits in the text with nothing but white space around it. */
  lemma TrimSlice(s: string)
    ensures exists i :: Framed(s, i, Trim(s))
  {
    TrimFramed(s, TrimStart(s), Trim(s));
  }

  /** White space on both sides is dropped and the word kept. */
  lemma TrimExample()
    ensures Trim(" Foo ") == "Foo"
  {
    var t, u, w := " Foo ", "Foo ", "Foo";
    assert t[0] == ' ' && t[1..] == u;
    assert u[0] == 'F' && !IsSpace('F');
    assert TrimStart(u) == u;
    assert TrimStart(t) == u;
    assert u[3] == ' ' && u[..3] == w;
    assert w[2] == 'o' && !IsSpace('o');
    assert TrimEnd(w) == w;
    assert TrimEnd(u) == w;
  }

  function LowerChar(c: char): char {
    if 'A' <= c <= 'Z' then (c as int + 32) as char else c
  }

  /** `toLowerCase`, restricted to the ASCII letters. */
  function Lower(s: string): (r: string)
    ensures |r| == |s|
    ensures forall i :: 0 <= i < |s| ==> r[i] == LowerChar(s[i])
  {
    if s == [] then [] else [LowerChar(s[0])] + Lower(s[1..])
  }

  /** `value || fallback` on a string: the empty string is falsy. */
  function OrElse(value: string, fallback: string): (r: string)
    ensures value != "" ==> r == value
    ensures value == "" ==> r == fallback
  {
    if value != "" then value else fallback
  }

  predicate StartsWith(s: string, prefix: string) {
    |prefix| <= |s| && s[..|prefix|] == prefix
  }

  /** `String.prototype.includes`. */
  predicate Contains(s: string, sub: string) {
    exists i :: 0 <= i <= |s| && StartsWith(s[i..], sub)
  }

  /** `list.some(x => s.includes(x))`. */
  predicate ContainsAny(s: string, subs: seq<string>) {
    exists j :: 0 <= j < |subs| && Contains(s, subs[j])
  }

  lemma ContainsMiddle(a: string, sub: string, b: string)
    ensures Contains(a + sub + b, sub)
  {
    var s := a + sub + b;
    assert s[|a|..][..|sub|] == sub;
    assert StartsWith(s[|a|..], sub);
  }

  lemma ContainsAnyAt(s: string, subs: seq<string>, j: nat)
    requires j < |subs| && Contains(s, subs[j])
    ensures ContainsAny(s, subs)
  {
  }

  predicate IsDigit(c: char) {
    '0' <= c <= '9'
  }

  predicate AllDigits(s: string) {
    forall i :: 0 <= i < |s| ==> IsDigit(s[i])
  }

  /** `s.replace(/[^0-9]/g, '')`: the digits of `s`, in order. */
  function DigitsOnly(s: string): (r: string)
    ensures |r| <= |s|
    ensures AllDigits(r)
    ensures r == [] <==> forall i :: 0 <= i < |s| ==> !IsDigit(s[i])
    ensures AllDigits(s) ==> r == s
  {
    if s == [] then []
    else
      var rest := DigitsOnly(s[1..]);
      assert forall i :: 1 <= i < |s| ==> s[i] == s[1..][i - 1];
      if IsDigit(s[0]) then [s[0]] + rest else rest
  }

  /** One character keeps itself exactly when it is a digit. */
  lemma DigitsOnlyChar(c: char)
    ensures DigitsOnly([c]) == if IsDigit(c) then [c] else []
  {
    assert [c][1..] == [];
  }

  /** The filter works character by character, so it distributes over concatenation. */
  lemma {:induction false} DigitsOnlyAppend(a: string, b: string)
    ensures DigitsOnly(a + b) == DigitsOnly(a) + DigitsOnly(b)
  {
    if a == [] {
      assert a + b == b;
    } else {
      assert (a + b)[0] == a[0];
      assert (a + b)[1..] == a[1..] + b;
      DigitsOnlyAppend(a[1..], b);
    }
  }

  function DigitValue(c: char): nat
    requires IsDigit(c)
  {
    c as int - '0' as int
  }

  function DigitChar(d: nat): (c: char)
    requires d < 10
    ensures IsDigit(c) && DigitValue(c) == d
  {
    ('0' as int + d) as char
  }

  /** The value of a string of decimal digits, most significant first. */
  function DecimalValue(d: string): nat
    requires AllDigits(d)
  {
    if d == [] then 0 else DecimalValue(d[..|d| - 1]) * 10 + DigitValue(d[|d| - 1])
  }

  /** Appending a digit multiplies the value by ten and adds the digit. */
  lemma DecimalValueSnoc(d: string, c: char)
    requires AllDigits(d) && IsDigit(c)
    ensures AllDigits(d + [c]) && DecimalValue(d + [c]) == DecimalValue(d) * 10 + DigitValue(c)
  {
    assert (d + [c])[..|d|] == d;
  }

  /**
   * `parseInt(s.replace(/[^0-9]/g, ''))`: `None` stands for NaN, which is
   * what `parseInt('')` gives when `s` holds no digit at all.
   */
  function ParseDigits(s: string): (r: Option<nat>)
    ensures r.None? <==> forall i :: 0 <= i < |s| ==> !IsDigit(s[i])
    ensures AllDigits(s) && s != [] ==> r == Some(DecimalValue(s))
  {
    var d := DigitsOnly(s);
    if d == [] then None else Some(DecimalValue(d))
  }

  lemma DigitsOnlyDigits(d: string)
    requires AllDigits(d)
    ensures DigitsOnly(d) == d
  {
  }

  lemma DecimalExample()
    ensures DecimalValue("25") == 25 && DecimalValue("25000") == 25000
  {
    DecimalValueSnoc("", '2');
    assert "" + ['2'] == "2";
    DecimalValueSnoc("2", '5');
    assert "2" + ['5'] == "25";
    DecimalValueSnoc("25", '0');
    assert "25" + ['0'] == "250";
    DecimalValueSnoc("250", '0');
    assert "250" + ['0'] == "2500";
    DecimalValueSnoc("2500", '0');
    assert "2500" + ['0'] == "25000";
  }

  /** A comma between digit groups is dropped. */
  lemma ParseDigitsGrouped()
    ensures ParseDigits("25,000") == Some(25000)
  {
    DigitsOfGrouped();
    DecimalExample();
  }

  lemma DigitsOfGrouped()
    ensures DigitsOnly("25,000") == "25000"
  {
    assert "25" + ",000" == "25,000" && "25" + "000" == "25000";
    DigitsOnlyAppend("25", ",000");
    DigitsOfSeparated();
    DigitsOnlyDigits("25");
  }

  lemma DigitsOfSeparated()
    ensures DigitsOnly(",000") == "000"
  {
    assert "," + "000" == ",000";
    DigitsOnlyAppend(",", "000");
    DigitsOnlyChar(',');
    DigitsOnlyDigits("000");
  }

  /** A trailing letter is dropped. */
  lemma ParseDigitsSuffixed()
    ensures ParseDigits("25K") == Some(25)
  {
    DigitsOnlyAppend("25", "K");
    assert "25" + "K" == "25K";
    DigitsOnlyChar('K');
    DigitsOnlyDigits("25");
    DecimalExample();
  }

  /** The decimal rendering of a natural number, as a template string shows it. */
  function NatToString(n: nat): (s: string)
    ensures s != [] && AllDigits(s)
    ensures DecimalValue(s) == n
    ensures n >= 10 ==> s[0] != '0'
  {
    if n < 10 then [DigitChar(n)]
    else
      var s := NatToString(n / 10) + [DigitChar(n % 10)];
      assert s[..|s| - 1] == NatToString(n / 10);
      s
  }

  function IntToString(n: int): (s: string)
    ensures s != []
  {
    if n < 0 then "-" + NatToString(-n) else NatToString(n)
  }

  /** `s.split(sep)`: always at least one piece, and no piece holds the separator. */
  function Split(s: string, sep: char): (parts: seq<string>)
    ensures |parts| >= 1
    ensures forall k :: 0 <= k < |parts| ==> sep !in parts[k]
    decreases |s|
  {
    if s == [] then [""]
    else
      var rest := Split(s[1..], sep);
      if s[0] == sep then [""] + rest else [[s[0]] + rest[0]] + rest[1..]
  }

  /** `parts.join(sep)`. */
  function Join(parts: seq<string>, sep: char): string
    requires |parts| >= 1
  {
    if |parts| == 1 then parts[0] else parts[0] + [sep] + Join(parts[1..], sep)
  }

  /** Splitting loses nothing: joining the pieces back gives the input. */
  lemma {:induction false} JoinSplit(s: string, sep: char)
    ensures Join(Split(s, sep), sep) == s
    decreases |s|
  {
    if s != [] {
      var rest := Split(s[1..], sep);
      JoinSplit(s[1..], sep);
      if s[0] == sep {
        assert ([""] + rest)[1..] == rest;
      } else if |rest| > 1 {
        var parts := [[s[0]] + rest[0]] + rest[1..];
        assert parts[1..] == rest[1..];
        assert Join(rest, sep) == rest[0] + [sep] + Join(rest[1..], sep);
      }
    }
  }

  /**
   * `s.replace(/\s+/g, [sub])`: every maximal run of white space becomes one
   * `sub`; everything else is kept in order.
   */
  function ReplaceSpaceRuns(s: string, sub: char): (r: string)
    requires !IsSpace(sub)
    ensures NoSpace(r)
    ensures |r| <= |s|
    decreases |s|
  {
    if s == [] then []
    else if IsSpace(s[0]) then
      var rest := TrimStart(s);
      [sub] + ReplaceSpaceRuns(rest, sub)
    else [s[0]] + ReplaceSpaceRuns(s[1..], sub)
  }

  /** A string without white space comes back unchanged. */
  lemma {:induction false} ReplaceSpaceRunsKeeps(s: string, sub: char)
    requires !IsSpace(sub) && NoSpace(s)
    ensures ReplaceSpaceRuns(s, sub) == s
    decreases |s|
  {
    if s != [] {
      assert NoSpace(s[1..]) by {
        forall i | 0 <= i < |s| - 1 ensures !IsSpace(s[1..][i]) {
          assert s[1..][i] == s[i + 1];
        }
      }
      ReplaceSpaceRunsKeeps(s[1..], sub);
    }
  }

  /** A run of white space followed by a non-space (or the end) is dropped whole by `TrimStart`. */
  lemma {:induction false} TrimStartRun(w: string, b: string)
    requires AllSpace(w) && (b == [] || !IsSpace(b[0]))
    ensures TrimStart(w + b) == b
    decreases |w|
  {
    if w == [] {
      assert w + b == b;
    } else {
      assert (w + b)[0] == w[0];
      assert (w + b)[1..] == w[1..] + b;
      assert AllSpace(w[1..]) by {
        forall i | 0 <= i < |w| - 1 ensures IsSpace(w[1..][i]) {
          assert w[1..][i] == w[i + 1];
        }
      }
      TrimStartRun(w[1..], b);
    }
  }

  /**
   * A word, one run of white space and the rest: the word is kept, the run
   * becomes one `sub`, and the rest is replaced on its own.
   */
  lemma {:induction false} ReplaceSpaceRunsSplit(a: string, w: string, b: string, sub: char)
    requires !IsSpace(sub) && NoSpace(a) && AllSpace(w) && w != [] && (b == [] || !IsSpace(b[0]))
    ensures ReplaceSpaceRuns(a + w + b, sub) == a + [sub] + ReplaceSpaceRuns(b, sub)
    decreases |a|
  {
    var s := a + w + b;
    if a == [] {
      assert s == w + b && s[0] == w[0] && IsSpace(s[0]);
      TrimStartRun(w, b);
      assert ReplaceSpaceRuns(s, sub) == [sub] + ReplaceSpaceRuns(b, sub);
    } else {
      assert s[0] == a[0] && !IsSpace(s[0]);
      assert s[1..] == a[1..] + w + b;
      assert ReplaceSpaceRuns(s, sub) == [s[0]] + ReplaceSpaceRuns(s[1..], sub);
      assert NoSpace(a[1..]) by {
        forall i | 0 <= i < |a| - 1 ensures !IsSpace(a[1..][i]) {
          assert a[1..][i] == a[i + 1];
        }
      }
      ReplaceSpaceRunsSplit(a[1..], w, b, sub);
      assert [a[0]] + (a[1..] + [sub] + ReplaceSpaceRuns(b, sub)) == a + [sub] + ReplaceSpaceRuns(b, sub);
    }
  }

  /** A double space between two words becomes one `sub`. */
  lemma ReplaceSpaceRunsExample()
    ensures ReplaceSpaceRuns("Jane  Doe", '_') == "Jane_Doe"
  {
    assert "Jane  Doe" == "Jane" + "  " + "Doe";
    ReplaceSpaceRunsSplit("Jane", "  ", "Doe", '_');
    ReplaceSpaceRunsKeeps("Doe", '_');
    assert "Jane" + ['_'] + "Doe" == "Jane_Doe";
  }
}
