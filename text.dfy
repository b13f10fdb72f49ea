/** The JavaScript string built-ins the extension relies on, over `string` (a sequence of
    Unicode scalar values): white space as ECMAScript defines it, `trim`, the
    `replace(/\s+/g, ' ')` clean-up, `split(/\s+/)` without empty pieces, `join`,
    `includes`, `startsWith`, `toLowerCase` (ASCII letters only) and decimal formatting. */
module Text {
  import opened Basics

  /** ECMAScript white space (section 12.2 of ECMA-262: TAB, VT, FF, SP, NBSP, ZWNBSP and the
      Unicode Space_Separator characters) and line terminators (section 12.3: LF, CR, LS, PS).
      This is the set the regular-expression class `\s` matches and `String.prototype.trim`
      removes. */
  predicate IsWs(c: char) {
    c == '\t' || c == '\n' || c == '\U{000B}' || c == '\U{000C}' || c == '\r' || c == ' '
    || c == '\U{00A0}' || c == '\U{1680}' || ('\U{2000}' <= c <= '\U{200A}')
    || c == '\U{2028}' || c == '\U{2029}' || c == '\U{202F}' || c == '\U{205F}'
    || c == '\U{3000}' || c == '\U{FEFF}'
  }

  predicate NoWs(s: string) {
    forall i :: 0 <= i < |s| ==> !IsWs(s[i])
  }

  /** The characters of `s` that are not white space, in order. */
  function NonWs(s: string): string {
    if s == [] then [] else (if IsWs(s[0]) then [] else [s[0]]) + NonWs(s[1..])
  }

  lemma {:induction false} NonWsAppend(a: string, b: string)
    ensures NonWs(a + b) == NonWs(a) + NonWs(b)
  {
    if a != [] {
      assert (a + b)[0] == a[0];
      assert (a + b)[1..] == a[1..] + b;
      NonWsAppend(a[1..], b);
    } else {
      assert a + b == b;
    }
  }

  lemma {:induction false} NonWsOfNoWs(s: string)
    requires NoWs(s)
    ensures NonWs(s) == s
  {
    if s != [] {
      NonWsOfNoWs(s[1..]);
    }
  }

  /** `String.prototype.startsWith` */
  predicate HasPrefix(s: string, p: string) {
    |p| <= |s| && s[..|p|] == p
  }

  /** `String.prototype.includes` */
  predicate Contains(s: string, sub: string)
    decreases |s|
  {
    HasPrefix(s, sub) || (s != [] && Contains(s[1..], sub))
  }

  /** A string that lacks a character of `sub` does not include `sub`. */
  lemma MissingChar(s: string, sub: string, c: char)
    requires c in sub && c !in s
    ensures !Contains(s, sub)
  {
    if Contains(s, sub) {
      ContainsChars(s, sub);
    }
  }

  /** A string that includes `sub` holds every character of `sub`. */
  lemma {:induction false} ContainsChars(s: string, sub: string)
    requires Contains(s, sub)
    ensures forall c :: c in sub ==> c in s
    decreases |s|
  {
    if HasPrefix(s, sub) {
      forall c | c in sub ensures c in s {
        var i :| 0 <= i < |sub| && sub[i] == c;
        assert s[i] == s[..|sub|][i];
      }
    } else {
      ContainsChars(s[1..], sub);
      forall c | c in sub ensures c in s {
        var i :| 0 <= i < |s| - 1 && s[1..][i] == c;
        assert s[i + 1] == c;
      }
    }
  }

  function TrimStart(s: string): (r: string)
    ensures |r| <= |s|
    ensures r == [] || !IsWs(r[0])
  {
    if s != [] && IsWs(s[0]) then TrimStart(s[1..]) else s
  }

  /** What `TrimStart` keeps is a suffix of its argument. */
  lemma {:induction false} TrimStartIsSuffix(s: string)
    ensures TrimStart(s) == s[|s| - |TrimStart(s)|..]
  {
    if s != [] && IsWs(s[0]) {
      TrimStartIsSuffix(s[1..]);
    }
  }

  function TrimEnd(s: string): (r: string)
    ensures |r| <= |s| && r == s[..|r|]
    ensures r == [] || !IsWs(r[|r| - 1])
  {
    if s != [] && IsWs(s[|s| - 1]) then TrimEnd(s[..|s| - 1]) else s
  }

  /** `String.prototype.trim`: the result is the part of `s` between its leading and its
      trailing white space. */
  function Trim(s: string): (r: string)
    ensures r == [] || (!IsWs(r[0]) && !IsWs(r[|r| - 1]))
    ensures |r| <= |s|
  {
    TrimEnd(TrimStart(s))
  }

  /** What `TrimStart` drops is white space. */
  lemma {:induction false} TrimStartLeadingWs(s: string)
    ensures forall k :: 0 <= k < |s| - |TrimStart(s)| ==> IsWs(s[k])
  {
    if s != [] && IsWs(s[0]) {
      TrimStartLeadingWs(s[1..]);
      forall k | 1 <= k < |s| - |TrimStart(s)| ensures IsWs(s[k]) {
        assert s[1..][k - 1] == s[k];
      }
    }
  }

  /** What `TrimEnd` drops is white space. */
  lemma {:induction false} TrimEndTrailingWs(s: string)
    ensures forall k :: |TrimEnd(s)| <= k < |s| ==> IsWs(s[k])
  {
    if s != [] && IsWs(s[|s| - 1]) {
      TrimEndTrailingWs(s[..|s| - 1]);
      forall k | |TrimEnd(s)| <= k < |s| - 1 ensures IsWs(s[k]) {
        assert s[..|s| - 1][k] == s[k];
      }
    }
  }

  /** `trim` removes the leading and the trailing white space and nothing else: the result
      is the slice of `s` between them, interior spacing included. */
  lemma TrimIsSlice(s: string)
    ensures exists i, j :: (0 <= i <= j <= |s| && Trim(s) == s[i..j]
      && (forall k :: 0 <= k < i ==> IsWs(s[k])) && (forall k :: j <= k < |s| ==> IsWs(s[k])))
  {
    var t := TrimStart(s);
    TrimStartIsSuffix(s);
    TrimStartLeadingWs(s);
    TrimEndTrailingWs(t);
    var i := |s| - |t|;
    var j := i + |TrimEnd(t)|;
    assert Trim(s) == s[i..j];
    forall k | j <= k < |s| ensures IsWs(s[k]) {
      assert t[k - i] == s[k];
    }
  }

  lemma {:induction false} TrimOfTrimmed(s: string)
    requires s == [] || (!IsWs(s[0]) && !IsWs(s[|s| - 1]))
    ensures Trim(s) == s
  {
  }

  /** Every white-space character is a plain space and no two white-space characters are
      adjacent. */
  predicate SingleSpaced(s: string) {
    && (forall i :: 0 <= i < |s| && IsWs(s[i]) ==> s[i] == ' ')
    && (forall i :: 0 <= i < |s| - 1 ==> !WsPair(s, i))
  }

  /** Positions `i` and `i + 1` of `s` both hold white space. */
  predicate WsPair(s: string, i: nat)
    requires i + 1 < |s|
  {
    IsWs(s[i]) && IsWs(s[i + 1])
  }

  lemma SingleSpacedSlice(s: string, a: nat, b: nat)
    requires a <= b <= |s| && SingleSpaced(s)
    ensures SingleSpaced(s[a..b])
  {
    var t := s[a..b];
    forall i | 0 <= i < |t| - 1 ensures !WsPair(t, i) {
      assert !WsPair(s, a + i);
    }
  }

  /** `s.replace(/\s+/g, ' ')`: every maximal run of white space becomes one space. */
  function Collapse(s: string): (r: string)
    ensures r == [] <==> s == []
    ensures r != [] ==> (IsWs(r[0]) <==> IsWs(s[0]))
    decreases |s|
  {
    if s == [] then []
    else if IsWs(s[0]) then
      var t := TrimStart(s);
      assert |t| < |s|;
      [' '] + Collapse(t)
    else [s[0]] + Collapse(s[1..])
  }

  lemma {:induction false} TrimStartKeepsText(s: string)
    ensures NonWs(TrimStart(s)) == NonWs(s)
  {
    if s != [] && IsWs(s[0]) {
      TrimStartKeepsText(s[1..]);
    }
  }

  lemma {:induction false} TrimEndKeepsText(s: string)
    ensures NonWs(TrimEnd(s)) == NonWs(s)
  {
    if s != [] && IsWs(s[|s| - 1]) {
      TrimEndKeepsText(s[..|s| - 1]);
      assert s == s[..|s| - 1] + [s[|s| - 1]];
      NonWsAppend(s[..|s| - 1], [s[|s| - 1]]);
    }
  }

  /** Trimming removes white space only. */
  lemma TrimKeepsText(s: string)
    ensures NonWs(Trim(s)) == NonWs(s)
  {
    TrimStartKeepsText(s);
    TrimEndKeepsText(TrimStart(s));
  }

  lemma {:induction false} CollapseSingleSpaced(s: string)
    ensures SingleSpaced(Collapse(s))
    decreases |s|
  {
    if s != [] {
      var t := if IsWs(s[0]) then TrimStart(s) else s[1..];
      CollapseSingleSpaced(t);
      var q := Collapse(t);
      var r := Collapse(s);
      assert r == [if IsWs(s[0]) then ' ' else s[0]] + q;
      forall i | 0 <= i < |r| - 1 ensures !WsPair(r, i) {
        if i > 0 {
          assert r[i] == q[i - 1] && r[i + 1] == q[i];
          assert !WsPair(q, i - 1);
        }
      }
      forall i | 0 <= i < |r| && IsWs(r[i]) ensures r[i] == ' ' {
        if i > 0 {
          assert r[i] == q[i - 1];
        }
      }
    }
  }

  /** The space-collapsing replace removes and inserts white space only. */
  lemma {:induction false} CollapseKeepsText(s: string)
    ensures NonWs(Collapse(s)) == NonWs(s)
    decreases |s|
  {
    if s != [] {
      if IsWs(s[0]) {
        var t := TrimStart(s);
        CollapseKeepsText(t);
        TrimStartKeepsText(s);
        assert ([' '] + Collapse(t))[1..] == Collapse(t);
      } else {
        CollapseKeepsText(s[1..]);
        assert ([s[0]] + Collapse(s[1..]))[1..] == Collapse(s[1..]);
      }
    }
  }

  /** The body clean-up of the content extractor: `s.replace(/\s+/g, ' ').trim()`. */
  function Normalize(s: string): (r: string)
    ensures r == [] || (!IsWs(r[0]) && !IsWs(r[|r| - 1]))
  {
    Trim(Collapse(s))
  }

  /** A cleaned-up body has no white space but single plain spaces between words. */
  lemma NormalizeSingleSpaced(s: string)
    ensures SingleSpaced(Normalize(s))
  {
    var c := Collapse(s);
    var a := TrimStart(c);
    var r := TrimEnd(a);
    CollapseSingleSpaced(s);
    TrimStartIsSuffix(c);
    SingleSpacedSlice(c, |c| - |a|, |c|);
    assert c[|c| - |a|..|c|] == c[|c| - |a|..] == a;
    SingleSpacedSlice(a, 0, |r|);
    assert a[0..|r|] == r;
  }

  /** The clean-up removes and inserts white space only. */
  lemma NormalizeKeepsText(s: string)
    ensures NonWs(Normalize(s)) == NonWs(s)
  {
    CollapseKeepsText(s);
    TrimKeepsText(Collapse(s));
  }

  lemma {:induction false} CollapseOfSingleSpaced(s: string)
    requires SingleSpaced(s)
    ensures Collapse(s) == s
    decreases |s|
  {
    if s != [] {
      SingleSpacedSlice(s, 1, |s|);
      assert s[1..|s|] == s[1..];
      CollapseOfSingleSpaced(s[1..]);
      if IsWs(s[0]) {
        assert |s| > 1 ==> !WsPair(s, 0);
        assert TrimStart(s) == TrimStart(s[1..]) == s[1..];
      }
    }
  }

  /** Cleaning up an already cleaned-up body changes nothing. */
  lemma NormalizeIdempotent(s: string)
    ensures Normalize(Normalize(s)) == Normalize(s)
  {
    var n := Normalize(s);
    NormalizeSingleSpaced(s);
    CollapseOfSingleSpaced(n);
    TrimOfTrimmed(n);
  }

  /** The longest prefix of `s` that holds no white space. */
  function TakeWord(s: string): (r: string)
    ensures |r| <= |s| && r == s[..|r|] && NoWs(r)
    ensures |r| < |s| ==> IsWs(s[|r|])
    ensures s != [] && !IsWs(s[0]) ==> r != []
  {
    if s == [] || IsWs(s[0]) then [] else [s[0]] + TakeWord(s[1..])
  }

  /** `s.split(/\s+/).filter(t => t.length > 0)`: the maximal runs of non-white-space
      characters of `s`, in order. */
  function Words(s: string): seq<string>
    decreases |s|
  {
    var t := TrimStart(s);
    if t == [] then []
    else
      var w := TakeWord(t);
      [w] + Words(t[|w|..])
  }

  /** Every piece `Words` yields is a non-empty run of non-white-space characters. */
  lemma {:induction false} WordsAreWords(s: string)
    ensures forall i :: 0 <= i < |Words(s)| ==> Words(s)[i] != [] && NoWs(Words(s)[i])
    decreases |s|
  {
    var t := TrimStart(s);
    if t != [] {
      var w := TakeWord(t);
      var rest := Words(t[|w|..]);
      WordsAreWords(t[|w|..]);
      var r := [w] + rest;
      assert Words(s) == r;
      forall i | 0 <= i < |r| ensures r[i] != [] && NoWs(r[i]) {
        if i > 0 {
          assert r[i] == rest[i - 1];
        }
      }
    }
  }

  /** `Array.prototype.join` */
  function Join(ws: seq<string>, sep: string): string {
    if ws == [] then ""
    else if |ws| == 1 then ws[0]
    else ws[0] + sep + Join(ws[1..], sep)
  }

  function Concat(ws: seq<string>): string {
    if ws == [] then "" else ws[0] + Concat(ws[1..])
  }

  /** Splitting into words loses exactly the white space. */
  lemma {:induction false} WordsKeepText(s: string)
    ensures Concat(Words(s)) == NonWs(s)
    decreases |s|
  {
    var t := TrimStart(s);
    TrimStartKeepsText(s);
    if t != [] {
      var w := TakeWord(t);
      var u := t[|w|..];
      assert t == w + u;
      NonWsAppend(w, u);
      NonWsOfNoWs(w);
      WordsKeepText(u);
      assert Words(s)[1..] == Words(u);
    }
  }

  lemma {:induction false} TakeWordOfJoin(w: string, u: string)
    requires NoWs(w) && (u == [] || IsWs(u[0]))
    ensures TakeWord(w + u) == w
  {
    if w != [] {
      assert (w + u)[1..] == w[1..] + u;
      TakeWordOfJoin(w[1..], u);
    }
  }

  lemma WordsSkipWs(c: char, x: string)
    requires IsWs(c)
    ensures Words([c] + x) == Words(x)
  {
    assert ([c] + x)[1..] == x;
    assert TrimStart([c] + x) == TrimStart(x);
  }

  lemma WordsOfWordFirst(w: string, x: string)
    requires w != [] && NoWs(w) && (x == [] || IsWs(x[0]))
    ensures Words(w + x) == [w] + Words(x)
  {
    var s := w + x;
    assert s[0] == w[0];
    assert TrimStart(s) == s;
    TakeWordOfJoin(w, x);
    assert s[|w|..] == x;
  }

  lemma JoinCons(ws: seq<string>, sep: string)
    requires |ws| > 1
    ensures Join(ws, sep) == ws[0] + (sep + Join(ws[1..], sep))
  {
  }

  lemma WordsOfJoinStep(ws: seq<string>)
    requires |ws| > 1 && ws[0] != [] && NoWs(ws[0])
    requires Words(Join(ws[1..], " ")) == ws[1..]
    ensures Words(Join(ws, " ")) == ws
  {
    var rest := Join(ws[1..], " ");
    JoinCons(ws, " ");
    WordsOfWordFirst(ws[0], " " + rest);
    WordsSkipWs(' ', rest);
    assert ws == [ws[0]] + ws[1..];
  }

  /** Joining words with single spaces and splitting again gives the words back. */
  lemma {:induction false} WordsOfJoin(ws: seq<string>)
    requires forall i :: 0 <= i < |ws| ==> ws[i] != [] && NoWs(ws[i])
    ensures Words(Join(ws, " ")) == ws
  {
    if |ws| == 1 {
      assert Join(ws, " ") == ws[0];
      WordsOfWordFirst(ws[0], []);
      assert ws[0] + [] == ws[0];
      assert [ws[0]] == ws;
    } else if |ws| > 1 {
      var tail := ws[1..];
      forall i | 0 <= i < |tail| ensures tail[i] != [] && NoWs(tail[i]) {
        assert tail[i] == ws[i + 1];
      }
      WordsOfJoin(tail);
      WordsOfJoinStep(ws);
    }
  }

  lemma {:induction false} TrimEndAppend(x: string, y: string)
    requires TrimEnd(y) != []
    ensures TrimEnd(x + y) == x + TrimEnd(y)
    decreases |y|
  {
    var s := x + y;
    if IsWs(y[|y| - 1]) {
      assert s[..|s| - 1] == x + y[..|y| - 1];
      TrimEndAppend(x, y[..|y| - 1]);
    }
  }

  lemma {:induction false} CollapseWord(w: string, u: string)
    requires NoWs(w)
    ensures Collapse(w + u) == w + Collapse(u)
  {
    if w != [] {
      var s := w + u;
      assert s[0] == w[0];
      assert !IsWs(s[0]);
      assert s[1..] == w[1..] + u;
      assert Collapse(s) == [s[0]] + Collapse(s[1..]);
      assert NoWs(w[1..]);
      CollapseWord(w[1..], u);
      assert w == [w[0]] + w[1..];
    } else {
      assert w + u == u;
    }
  }

  lemma NormalizeSkipsLeadingWs(s: string)
    ensures Normalize(s) == Normalize(TrimStart(s))
  {
    if s != [] && IsWs(s[0]) {
      var t := TrimStart(s);
      if t == [] {
        assert Collapse(s) == " ";
      } else {
        var c := Collapse(t);
        assert Collapse(s) == [' '] + c;
        assert ([' '] + c)[1..] == c;
        assert TrimStart([' '] + c) == TrimStart(c);
      }
    }
  }

  lemma NormalizeOfWord(w: string)
    requires w != [] && NoWs(w)
    ensures Normalize(w) == w
  {
    CollapseWord(w, []);
    assert w + [] == w;
    assert Collapse(w) == w;
    TrimOfTrimmed(w);
  }

  lemma NormalizeOfWordSpace(w: string)
    requires w != [] && NoWs(w)
    ensures Normalize(w + " ") == w
  {
    var x := w + " ";
    CollapseWord(w, " ");
    assert Collapse(" ") == " ";
    assert Collapse(x) == x;
    assert x[0] == w[0];
    assert TrimStart(x) == x;
    assert x[..|x| - 1] == w;
    assert TrimEnd(x) == TrimEnd(w) == w;
  }

  lemma NormalizeWordThenBlank(w: string, u: string)
    requires w != [] && NoWs(w) && TrimStart(u) == []
    ensures Normalize(w + u) == w
  {
    if u == [] {
      assert w + u == w;
      NormalizeOfWord(w);
    } else {
      CollapseWord(w, u);
      CollapseWord(w, " ");
      assert Collapse(u) == [' '] + Collapse([]) == " ";
      assert Collapse(w + u) == Collapse(w + " ");
      NormalizeOfWordSpace(w);
    }
  }

  lemma {:induction false} TrimEndKeepsFirst(s: string)
    requires s != [] && !IsWs(s[0])
    ensures TrimEnd(s) != []
    decreases |s|
  {
    if IsWs(s[|s| - 1]) {
      var p := s[..|s| - 1];
      assert p[0] == s[0];
      TrimEndKeepsFirst(p);
    }
  }

  lemma CollapseAfterWord(w: string, u: string)
    requires NoWs(w) && u != [] && IsWs(u[0])
    ensures Collapse(w + u) == (w + " ") + Collapse(TrimStart(u))
  {
    CollapseWord(w, u);
    assert Collapse(u) == [' '] + Collapse(TrimStart(u));
  }

  lemma TrimAfterWord(p: string, c: string)
    requires p != [] && !IsWs(p[0]) && c != [] && !IsWs(c[0])
    ensures Trim(p + c) == p + TrimEnd(c)
  {
    var x := p + c;
    assert x[0] == p[0];
    assert TrimStart(x) == x;
    TrimEndKeepsFirst(c);
    TrimEndAppend(p, c);
  }

  lemma NormalizeWordThenMore(w: string, u: string)
    requires w != [] && NoWs(w) && u != [] && IsWs(u[0]) && TrimStart(u) != []
    ensures Normalize(w + u) == w + " " + Normalize(TrimStart(u))
  {
    var c := Collapse(TrimStart(u));
    assert TrimStart(c) == c;
    CollapseAfterWord(w, u);
    TrimAfterWord(w + " ", c);
  }

  lemma WordsSkipLeadingWs(u: string)
    ensures Words(u) == Words(TrimStart(u))
  {
    var v := TrimStart(u);
    assert v == [] || TrimStart(v) == v;
  }

  lemma JoinedWordsStep(w: string, u: string)
    requires w != [] && NoWs(w) && (u == [] || IsWs(u[0]))
    requires TrimStart(u) != [] ==> Normalize(TrimStart(u)) == Join(Words(TrimStart(u)), " ")
    ensures Normalize(w + u) == Join([w] + Words(u), " ")
  {
    WordsSkipLeadingWs(u);
    var v := TrimStart(u);
    if v == [] {
      NormalizeWordThenBlank(w, u);
      assert Words(u) == [];
      assert [w] + [] == [w];
    } else {
      NormalizeWordThenMore(w, u);
      var rest := Words(v);
      assert rest != [];
      JoinCons([w] + rest, " ");
      assert ([w] + rest)[1..] == rest;
    }
  }

  lemma WordsFirst(s: string)
    requires TrimStart(s) != []
    ensures Words(s) == [TakeWord(TrimStart(s))] + Words(TrimStart(s)[|TakeWord(TrimStart(s))|..])
  {
  }

  /** The extractor's body clean-up and the search box's tokenising agree: a cleaned-up body
      is its words joined by single spaces. */
  lemma {:induction false} NormalizeIsJoinedWords(s: string)
    ensures Normalize(s) == Join(Words(s), " ")
    decreases |s|
  {
    NormalizeSkipsLeadingWs(s);
    var t := TrimStart(s);
    if t == [] {
      assert Words(s) == [];
      assert Collapse(t) == [];
    } else {
      var w := TakeWord(t);
      var u := t[|w|..];
      assert t == w + u;
      WordsFirst(s);
      if TrimStart(u) != [] {
        NormalizeIsJoinedWords(TrimStart(u));
      }
      JoinedWordsStep(w, u);
    }
  }

  /** `String.prototype.toLowerCase` on ASCII letters; other characters are kept. */
  function LowerChar(c: char): (r: char)
    ensures IsWs(r) <==> IsWs(c)
  {
    if 'A' <= c <= 'Z' then (c as int + 32) as char else c
  }

  function Lower(s: string): (r: string)
    ensures |r| == |s|
    ensures forall i :: 0 <= i < |s| ==> r[i] == LowerChar(s[i])
  {
    seq(|s|, i requires 0 <= i < |s| => LowerChar(s[i]))
  }

  function DigitChar(d: nat): char
    requires d < 10
  {
    "0123456789"[d]
  }

  /** Decimal formatting of a count, as a template literal `${n}` prints it. */
  function NatToString(n: nat): (r: string)
    ensures r != [] && forall i :: 0 <= i < |r| ==> '0' <= r[i] <= '9'
  {
    if n < 10 then [DigitChar(n)] else NatToString(n / 10) + [DigitChar(n % 10)]
  }

  /** The digit a decimal character stands for. */
  function DigitValue(c: char): nat {
    if '0' <= c <= '9' then c as int - '0' as int else 0
  }

  /** The number a string of decimal digits denotes, most significant digit first. */
  function DigitsValue(s: string): nat {
    if s == [] then 0 else DigitsValue(s[..|s| - 1]) * 10 + DigitValue(s[|s| - 1])
  }

  lemma DigitCharValue(d: nat)
    requires d < 10
    ensures DigitValue(DigitChar(d)) == d && (DigitChar(d) == '0' <==> d == 0)
  {
  }

  /** `${n}` prints the digits that denote `n`, with no leading zero unless `n` is 0. */
  lemma {:induction false} NatToStringValue(n: nat)
    ensures DigitsValue(NatToString(n)) == n
    ensures n > 0 ==> NatToString(n)[0] != '0'
  {
    if n < 10 {
      DigitCharValue(n);
    } else {
      NatToStringValue(n / 10);
      DigitCharValue(n % 10);
      var r := NatToString(n);
      assert r[..|r| - 1] == NatToString(n / 10);
      assert r[0] == NatToString(n / 10)[0];
    }
  }

  /** `s.substring(s.lastIndexOf('/') + 1)`: everything after the last slash, or all of `s`
      when it has none. */
  function AfterLastSlash(s: string): string {
    if s == [] || s[|s| - 1] == '/' then [] else AfterLastSlash(s[..|s| - 1]) + [s[|s| - 1]]
  }

  /** The segment is a suffix of `s` free of slashes, preceded by a slash unless it is all of `s`. */
  lemma {:induction false} AfterLastSlashShape(s: string)
    ensures var r := AfterLastSlash(s);
      && |r| <= |s| && r == s[|s| - |r|..]
      && '/' !in r
      && (|r| < |s| ==> s[|s| - |r| - 1] == '/')
  {
    if s != [] && s[|s| - 1] != '/' {
      var init := s[..|s| - 1];
      AfterLastSlashShape(init);
      var r0 := AfterLastSlash(init);
      assert s[|s| - |r0| - 1..] == init[|init| - |r0|..] + [s[|s| - 1]];
      if |r0| < |init| {
        assert s[|s| - |r0| - 2] == init[|init| - |r0| - 1];
      }
    }
  }

  /** Whatever precedes the last slash is dropped. */
  lemma {:induction false} AfterSlashSegment(p: string, seg: string)
    requires '/' !in seg
    ensures AfterLastSlash(p + "/" + seg) == seg
    decreases |seg|
  {
    var s := p + "/" + seg;
    if seg == [] {
      assert s[|s| - 1] == '/';
    } else {
      var init := seg[..|seg| - 1];
      assert s[..|s| - 1] == p + "/" + init;
      assert s[|s| - 1] == seg[|seg| - 1];
      AfterSlashSegment(p, init);
      assert init + [seg[|seg| - 1]] == seg;
    }
  }
}
