/** The few `java.lang.String` and `java.lang.Integer` operations the command,
    mention and webhook parsers build on, with Java's own edge cases:
    `split` drops trailing empty pieces unless given a limit, returns the
    whole input when nothing matches, and `trim` cuts every character up to
    U+0020. */
module JavaStrings {
  import opened Bytes

  // ---------------------------------------------------------------------
  // Whitespace

  /** The characters `\s` matches in a Java regular expression: space, tab,
      line feed, vertical tab, form feed and carriage return. */
  predicate IsSpace(c: char)
  {
    c == ' ' || 9 <= c as int <= 13
  }

  predicate NoSpace(s: string)
  {
    forall k :: 0 <= k < |s| ==> !IsSpace(s[k])
  }

  predicate AllSpace(s: string)
  {
    forall k :: 0 <= k < |s| ==> IsSpace(s[k])
  }

  /** Where the first whitespace character of `s` is. */
  function FirstSpace(s: string): (i: nat)
    requires !NoSpace(s)
    ensures i < |s| && IsSpace(s[i]) && NoSpace(s[..i])
  {
    if IsSpace(s[0]) then 0
    else
      var j := FirstSpace(s[1..]);
      assert forall k :: 1 <= k < j + 1 ==> s[k] == s[1..][..j][k - 1];
      j + 1
  }

  /** Where the run of whitespace that starts at `i` ends. */
  function RunEnd(s: string, i: nat): (j: nat)
    requires i <= |s|
    ensures i <= j <= |s| && AllSpace(s[i..j]) && (j == |s| || !IsSpace(s[j]))
    decreases |s| - i
  {
    if i < |s| && IsSpace(s[i]) then RunEnd(s, i + 1) else i
  }

  /** The pieces of `s` between its maximal runs of whitespace, in order;
      an empty piece comes first when `s` starts with whitespace and last
      when it ends with it. */
  function WsPieces(s: string): (r: seq<string>)
    ensures |r| >= 1 && forall k :: 0 <= k < |r| ==> NoSpace(r[k])
    decreases |s|
  {
    if NoSpace(s) then [s]
    else
      var i := FirstSpace(s);
      [s[..i]] + WsPieces(s[RunEnd(s, i)..])
  }

  /** `list` without its trailing empty strings, as `split` with limit 0
      returns it. */
  function DropTrailingEmpty(list: seq<string>): (r: seq<string>)
    ensures |r| <= |list| && r == list[..|r|]
    ensures |r| > 0 ==> r[|r| - 1] != ""
    ensures forall k :: |r| <= k < |list| ==> list[k] == ""
  {
    if |list| > 0 && list[|list| - 1] == "" then DropTrailingEmpty(list[..|list| - 1]) else list
  }

  /** `s.split("\\s+")`: the whole input when it holds no whitespace (so
      `""` gives `[""]`), otherwise the pieces between whitespace runs
      without the trailing empty ones (so `" "` gives no piece at all). */
  function SplitWs(s: string): (r: seq<string>)
    ensures forall k :: 0 <= k < |r| ==> NoSpace(r[k])
    ensures NoSpace(s) ==> r == [s]
  {
    if NoSpace(s) then [s] else DropTrailingEmpty(WsPieces(s))
  }

  /** `token` is the whitespace-free head of `s` up to its first
      whitespace run and `rest` what follows that run, or `s` holds no
      whitespace and is the token alone. */
  predicate FirstToken(s: string, token: string, rest: string)
  {
    NoSpace(token)
    && ((NoSpace(s) && token == s && rest == "")
        || (|token| + |rest| < |s| && s[..|token|] == token && s[|s| - |rest|..] == rest
            && AllSpace(s[|token|..|s| - |rest|]) && (rest == "" || !IsSpace(rest[0]))))
  }

  /** `s.split("\\s+", 2)`: the whole input when it holds no whitespace,
      otherwise the text before the first whitespace run and everything
      after that run, however much whitespace it holds. */
  function SplitWs2(s: string): (r: seq<string>)
    ensures |r| == 1 || |r| == 2
    ensures NoSpace(r[0])
    ensures |r| == 1 <==> NoSpace(s)
    ensures |r| == 1 ==> r[0] == s
    ensures |r| == 2 ==>
              |r[0]| + |r[1]| < |s| && s[..|r[0]|] == r[0] && s[|s| - |r[1]|..] == r[1]
              && AllSpace(s[|r[0]|..|s| - |r[1]|]) && (r[1] == "" || !IsSpace(r[1][0]))
    ensures FirstToken(s, r[0], if |r| == 2 then r[1] else "")
  {
    if NoSpace(s) then [s]
    else
      var i := FirstSpace(s);
      var j := RunEnd(s, i);
      assert s[|s| - |s[j..]|..] == s[j..];
      [s[..i], s[j..]]
  }

  /** A token, a run of whitespace and a rest that does not start with
      whitespace split back into the token and the rest. */
  lemma SplitWs2Of(token: string, sep: string, rest: string)
    requires NoSpace(token) && sep != "" && AllSpace(sep)
    requires rest == "" || !IsSpace(rest[0])
    ensures SplitWs2(token + sep + rest) == [token, rest]
  {
    var s := token + sep + rest;
    assert forall k :: 0 <= k < |token| ==> s[k] == token[k];
    assert forall k :: |token| <= k < |token| + |sep| ==> s[k] == sep[k - |token|];
    assert IsSpace(s[|token|]);
    var i := FirstSpace(s);
    assert i == |token|;
    var j := RunEnd(s, i);
    if rest != "" {
      assert s[|token| + |sep|] == rest[0];
    }
    assert j == |token| + |sep|;
    assert s[..i] == token && s[j..] == rest;
  }

  /** `pieces` joined with `sep` between neighbours (`String.join`). */
  function Join(pieces: seq<string>, sep: string): string
  {
    if |pieces| == 0 then ""
    else if |pieces| == 1 then pieces[0]
    else pieces[0] + sep + Join(pieces[1..], sep)
  }

  /** `s` with every maximal run of whitespace replaced by one space: what
      the whitespace pieces of `s` give back when joined with spaces. */
  function Collapse(s: string): string
    decreases |s|
  {
    if |s| == 0 then ""
    else if IsSpace(s[0]) then " " + Collapse(s[RunEnd(s, 0)..])
    else [s[0]] + Collapse(s[1..])
  }

  lemma {:induction false} CollapseNoSpace(s: string)
    requires NoSpace(s)
    ensures Collapse(s) == s
    decreases |s|
  {
    if |s| > 0 {
      assert NoSpace(s[1..]) by {
        forall k | 0 <= k < |s[1..]| ensures !IsSpace(s[1..][k]) {
          assert s[1..][k] == s[k + 1];
        }
      }
      CollapseNoSpace(s[1..]);
      assert s == [s[0]] + s[1..];
    }
  }

  /** A whitespace-free head passes through `Collapse` unchanged. */
  lemma {:induction false} CollapseHead(s: string, i: nat)
    requires i <= |s| && NoSpace(s[..i])
    ensures Collapse(s) == s[..i] + Collapse(s[i..])
    decreases i
  {
    if i > 0 {
      assert !IsSpace(s[..i][0]);
      var tail := s[1..][..i - 1];
      assert NoSpace(tail) by {
        forall k | 0 <= k < |tail| ensures !IsSpace(tail[k]) {
          assert tail[k] == s[..i][k + 1];
        }
      }
      CollapseHead(s[1..], i - 1);
      assert s[1..][i - 1..] == s[i..];
      assert s[..i] == [s[0]] + s[1..][..i - 1];
    }
  }

  /** A run of whitespace read from inside `s` ends where it ends in `s`. */
  lemma {:induction false} RunEndShift(s: string, i: nat, k: nat)
    requires i <= k <= |s| && AllSpace(s[i..k])
    ensures RunEnd(s[i..], k - i) == RunEnd(s, k) - i
    decreases |s| - k
  {
    if k < |s| && IsSpace(s[k]) {
      var run := s[i..k + 1];
      assert AllSpace(run) by {
        forall m | 0 <= m < |run| ensures IsSpace(run[m]) {
          if m < k - i {
            assert run[m] == s[i..k][m];
          }
        }
      }
      assert s[i..][k - i] == s[k];
      RunEndShift(s, i, k + 1);
    } else if k < |s| {
      assert s[i..][k - i] == s[k];
    }
  }

  /** At a whitespace character, `Collapse` writes one space and goes on
      after the run. */
  lemma CollapseAtSpace(s: string, i: nat)
    requires i < |s| && IsSpace(s[i])
    ensures Collapse(s[i..]) == " " + Collapse(s[RunEnd(s, i)..])
  {
    var t := s[i..];
    assert IsSpace(t[0]);
    RunEndShift(s, i, i);
    assert t[RunEnd(t, 0)..] == s[RunEnd(s, i)..];
  }

  /** `Join` peels off its first piece. */
  lemma JoinCons(x: string, rest: seq<string>, sep: string)
    requires |rest| >= 1
    ensures Join([x] + rest, sep) == x + sep + Join(rest, sep)
  {
    assert ([x] + rest)[1..] == rest;
  }

  /** Joining the whitespace pieces of `s` with single spaces gives `s` with
      each whitespace run collapsed: no character outside the whitespace is
      lost, reordered or added. */
  lemma {:induction false} WsPiecesJoin(s: string)
    ensures Join(WsPieces(s), " ") == Collapse(s)
    decreases |s|
  {
    if NoSpace(s) {
      CollapseNoSpace(s);
    } else {
      var i := FirstSpace(s);
      var j := RunEnd(s, i);
      var rest := WsPieces(s[j..]);
      WsPiecesJoin(s[j..]);
      JoinCons(s[..i], rest, " ");
      CollapseHead(s, i);
      CollapseAtSpace(s, i);
    }
  }

  // ---------------------------------------------------------------------
  // Splitting on one character

  /** Where `c` first occurs in `s`. */
  function IndexOf(s: string, c: char): (i: nat)
    requires c in s
    ensures i < |s| && s[i] == c && c !in s[..i]
  {
    if s[0] == c then 0
    else
      var j := IndexOf(s[1..], c);
      assert s[1..][..j] == s[1..j + 1];
      assert s[..j + 1] == [s[0]] + s[1..j + 1];
      j + 1
  }

  /** Every piece of `s` between occurrences of `c`, empty ones included. */
  function CharPieces(s: string, c: char): (r: seq<string>)
    ensures |r| >= 1 && forall k :: 0 <= k < |r| ==> c !in r[k]
    decreases |s|
  {
    if c !in s then [s]
    else
      var i := IndexOf(s, c);
      [s[..i]] + CharPieces(s[i + 1..], c)
  }

  /** The pieces put back together with `c` give `s` again. */
  lemma {:induction false} CharPiecesJoin(s: string, c: char)
    ensures Join(CharPieces(s, c), [c]) == s
    decreases |s|
  {
    if c in s {
      var i := IndexOf(s, c);
      CharPiecesJoin(s[i + 1..], c);
      var rest := CharPieces(s[i + 1..], c);
      assert CharPieces(s, c) == [s[..i]] + rest;
      assert Join(CharPieces(s, c), [c]) == s[..i] + [c] + Join(rest, [c]);
      assert s == s[..i] + [c] + s[i + 1..];
    }
  }

  /** Splitting on `c` cuts at its first occurrence. */
  lemma CharPiecesAt(g: string, x: string, c: char)
    requires c !in g
    ensures c in g + [c] + x
    ensures CharPieces(g + [c] + x, c) == [g] + CharPieces(x, c)
  {
    var s := g + [c] + x;
    assert s[|g|] == c;
    var i := IndexOf(s, c);
    assert i == |g|;
    assert s[..i] == g && s[i + 1..] == x;
  }

  /** A trailing empty piece is dropped. */
  lemma DropTrailingEmptyLast(init: seq<string>)
    ensures DropTrailingEmpty(init + [""]) == DropTrailingEmpty(init)
  {
    var list := init + [""];
    assert list[..|list| - 1] == init;
  }

  /** `split` keeps every piece up to the last non-empty one. */
  lemma DropTrailingEmptyKeeps(list: seq<string>, k: nat)
    requires k < |list| && list[k] != ""
    ensures k < |DropTrailingEmpty(list)| && DropTrailingEmpty(list)[k] == list[k]
  {
  }

  /** `s.split(c)` for a character that is not special in a regular
      expression: the whole input when `c` does not occur, otherwise the
      pieces without the trailing empty ones. */
  function SplitChar(s: string, c: char): (r: seq<string>)
    ensures forall k :: 0 <= k < |r| ==> c !in r[k]
    ensures c !in s ==> r == [s]
  {
    if c !in s then [s] else DropTrailingEmpty(CharPieces(s, c))
  }

  /** `s.split(c, 2)`: everything before the first `c`, then everything
      after it, later `c`s included. */
  function SplitChar2(s: string, c: char): (r: seq<string>)
    ensures c !in s ==> r == [s]
    ensures c in s ==> |r| == 2 && c !in r[0] && s == r[0] + [c] + r[1]
  {
    if c !in s then [s]
    else
      var i := IndexOf(s, c);
      assert s == s[..i] + [c] + s[i + 1..];
      [s[..i], s[i + 1..]]
  }

  /** `split(c, 2)` cuts at the first `c`, wherever the later ones are. */
  lemma SplitChar2Of(a: string, c: char, b: string)
    requires c !in a
    ensures SplitChar2(a + [c] + b, c) == [a, b]
  {
    var s := a + [c] + b;
    assert s[|a|] == c;
    var r := SplitChar2(s, c);
    assert forall k :: 0 <= k < |a| ==> s[k] == a[k];
    assert |r[0]| == |a|;
    assert r[0] == s[..|a|] == a;
    assert r[1] == s[|a| + 1..] == b;
  }

  // ---------------------------------------------------------------------
  // trim, startsWith, replace, toLowerCase

  /** `trim` cuts every character up to U+0020 from both ends. */
  predicate IsTrimmed(c: char)
  {
    c as int <= 0x20
  }

  predicate AllTrimmed(s: string)
  {
    forall k :: 0 <= k < |s| ==> IsTrimmed(s[k])
  }

  /** How many characters `trim` cuts from the front. */
  function TrimStart(s: string): (i: nat)
    ensures i <= |s| && AllTrimmed(s[..i]) && (i < |s| ==> !IsTrimmed(s[i]))
  {
    if |s| > 0 && IsTrimmed(s[0]) then
      var j := TrimStart(s[1..]);
      assert forall k :: 1 <= k < j + 1 ==> s[k] == s[1..][..j][k - 1];
      j + 1
    else 0
  }

  /** Where the text after the front cut ends. */
  function TrimEnd(s: string): (j: nat)
    ensures j <= |s| && AllTrimmed(s[j..]) && (j > 0 ==> !IsTrimmed(s[j - 1]))
  {
    if |s| > 0 && IsTrimmed(s[|s| - 1]) then
      var j := TrimEnd(s[..|s| - 1]);
      assert forall k :: j <= k < |s| - 1 ==> s[k] == s[..|s| - 1][j..][k - j];
      j
    else |s|
  }

  /** `String.trim`. */
  function Trim(s: string): (r: string)
    ensures r == "" || (!IsTrimmed(r[0]) && !IsTrimmed(r[|r| - 1]))
  {
    var i := TrimStart(s);
    if i == |s| then "" else s[i..TrimEnd(s)]
  }

  /** Padding cut off `trim`-free text gives the text back: `trim` undoes
      any padding that is made of characters it cuts. */
  lemma TrimPadded(front: string, t: string, back: string)
    requires AllTrimmed(front) && AllTrimmed(back)
    requires t == "" || (!IsTrimmed(t[0]) && !IsTrimmed(t[|t| - 1]))
    ensures Trim(front + t + back) == t
  {
    var s := front + t + back;
    TrimStartOf(front, t + back);
    assert s == front + (t + back);
    var i := TrimStart(s);
    if t != "" {
      assert TrimStart(t + back) == 0;
      assert i == |front|;
      TrimEndOf(front + t, back);
      assert s[i..TrimEnd(s)] == t;
    } else {
      assert t + back == back;
      assert i == |s|;
    }
  }

  lemma {:induction false} TrimStartOf(front: string, rest: string)
    requires AllTrimmed(front)
    ensures TrimStart(front + rest) == |front| + TrimStart(rest)
    decreases |front|
  {
    if |front| > 0 {
      var s := front + rest;
      assert s[1..] == front[1..] + rest;
      TrimStartOf(front[1..], rest);
    } else {
      assert front + rest == rest;
    }
  }

  lemma {:induction false} TrimEndOf(body: string, back: string)
    requires AllTrimmed(back) && |body| > 0 && !IsTrimmed(body[|body| - 1])
    ensures TrimEnd(body + back) == |body|
    decreases |back|
  {
    var s := body + back;
    if |back| > 0 {
      assert s[..|s| - 1] == body + back[..|back| - 1];
      TrimEndOf(body, back[..|back| - 1]);
    } else {
      assert s == body;
    }
  }

  /** `trim` is idempotent. */
  lemma TrimTwice(s: string)
    ensures Trim(Trim(s)) == Trim(s)
  {
    TrimPadded("", Trim(s), "");
    assert "" + Trim(s) + "" == Trim(s);
  }

  function StartsWith(s: string, prefix: string): bool
  {
    |prefix| <= |s| && s[..|prefix|] == prefix
  }

  /** `s.replace(target, replacement)`: every occurrence of `target`, left to
      right and not overlapping, replaced. */
  function Replace(s: string, target: string, replacement: string): string
    requires |target| > 0
    decreases |s|
  {
    if |s| < |target| then s
    else if s[..|target|] == target then replacement + Replace(s[|target|..], target, replacement)
    else [s[0]] + Replace(s[1..], target, replacement)
  }

  predicate OccursAt(s: string, target: string, p: nat)
  {
    p + |target| <= |s| && s[p..p + |target|] == target
  }

  /** Whether `target` occurs in `s` at all. */
  ghost predicate Occurs(s: string, target: string)
  {
    exists p: nat :: OccursAt(s, target, p)
  }

  /** Text in which the target does not occur is left alone. */
  lemma {:induction false} ReplaceAbsent(s: string, target: string, replacement: string)
    requires |target| > 0 && !Occurs(s, target)
    ensures Replace(s, target, replacement) == s
    decreases |s|
  {
    if |s| >= |target| {
      assert !OccursAt(s, target, 0);
      assert s[0..0 + |target|] == s[..|target|];
      var tail := s[1..];
      assert !Occurs(tail, target) by {
        forall p: nat | OccursAt(tail, target, p) ensures false {
          assert tail[p..p + |target|] == s[p + 1..p + 1 + |target|];
          assert OccursAt(s, target, p + 1);
        }
      }
      ReplaceAbsent(s[1..], target, replacement);
    }
  }

  /** A leading occurrence is replaced and the rest is handled alone. */
  lemma ReplaceLeading(target: string, rest: string, replacement: string)
    requires |target| > 0
    ensures Replace(target + rest, target, replacement) == replacement + Replace(rest, target, replacement)
  {
    var s := target + rest;
    assert s[..|target|] == target && s[|target|..] == rest;
  }

  /** `Character.toLowerCase` on the letters A-Z. */
  function LowerChar(c: char): (r: char)
  {
    if 'A' <= c <= 'Z' then (c as int + 32) as char else c
  }

  /** `toLowerCase`, on A-Z. */
  function Lower(s: string): (r: string)
    ensures |r| == |s| && forall k :: 0 <= k < |s| ==> r[k] == LowerChar(s[k])
  {
    seq(|s|, k requires 0 <= k < |s| => LowerChar(s[k]))
  }

  lemma LowerTwice(s: string)
    ensures Lower(Lower(s)) == Lower(s)
  {
  }

  /** Lower-casing a concatenation lower-cases the parts. */
  lemma LowerAppend(a: string, b: string)
    ensures Lower(a + b) == Lower(a) + Lower(b)
  {
    assert forall k :: 0 <= k < |a| ==> (a + b)[k] == a[k];
    assert forall k :: |a| <= k < |a + b| ==> (a + b)[k] == b[k - |a|];
  }

  // ---------------------------------------------------------------------
  // Integer.valueOf and Long.valueOf

  const INT_MIN: int := -0x8000_0000
  const INT_MAX: int := 0x7FFF_FFFF
  const LONG_MIN: int := -0x8000_0000_0000_0000
  const LONG_MAX: int := 0x7FFF_FFFF_FFFF_FFFF

  predicate IsDigit(c: char)
  {
    '0' <= c <= '9'
  }

  predicate AllDigits(s: string)
  {
    forall k :: 0 <= k < |s| ==> IsDigit(s[k])
  }

  function DigitValue(c: char): (d: nat)
    requires IsDigit(c)
    ensures d < 10
  {
    c as int - '0' as int
  }

  function DigitChar(d: nat): (c: char)
    requires d < 10
    ensures IsDigit(c) && DigitValue(c) == d
  {
    ('0' as int + d) as char
  }

  /** The value of a string of decimal digits, most significant first. */
  function DigitsValue(s: string): nat
    requires AllDigits(s)
  {
    if |s| == 0 then 0 else DigitsValue(s[..|s| - 1]) * 10 + DigitValue(s[|s| - 1])
  }

  /** `Integer.parseInt(s, 10)` and `Long.parseLong(s, 10)` for the range
      `[min, max]`: an optional sign, at least one digit, nothing else, and
      a value in range; `None` where Java throws `NumberFormatException`. */
  function ParseSigned(s: string, min: int, max: int): (r: Option<int>)
    ensures r.Some? ==> min <= r.value <= max
  {
    if |s| == 0 then None
    else
      var signed := s[0] == '-' || s[0] == '+';
      var digits := if signed then s[1..] else s;
      if |digits| == 0 || !AllDigits(digits) then None
      else
        var v := if s[0] == '-' then -(DigitsValue(digits) as int) else DigitsValue(digits);
        if min <= v <= max then Some(v) else None
  }

  function ParseInt(s: string): (r: Option<int>)
    ensures r.Some? ==> INT_MIN <= r.value <= INT_MAX
  {
    ParseSigned(s, INT_MIN, INT_MAX)
  }

  function ParseLong(s: string): (r: Option<int>)
    ensures r.Some? ==> LONG_MIN <= r.value <= LONG_MAX
  {
    ParseSigned(s, LONG_MIN, LONG_MAX)
  }

  /** The decimal digits of `n`, no leading zeros (`Integer.toString`). */
  function ShowNat(n: nat): (r: string)
    ensures |r| >= 1 && AllDigits(r)
  {
    if n < 10 then [DigitChar(n)] else ShowNat(n / 10) + [DigitChar(n % 10)]
  }

  function ShowInt(n: int): (r: string)
  {
    if n < 0 then "-" + ShowNat(-n) else ShowNat(n)
  }

  lemma {:induction false} ShowNatValue(n: nat)
    ensures DigitsValue(ShowNat(n)) == n
  {
    if n >= 10 {
      var s := ShowNat(n);
      assert s[..|s| - 1] == ShowNat(n / 10);
      ShowNatValue(n / 10);
    }
  }

  /** Parsing reads back what `toString` wrote, for every value in range. */
  lemma ParseShow(n: int, min: int, max: int)
    requires min <= n <= max
    ensures ParseSigned(ShowInt(n), min, max) == Some(n)
  {
    ShowNatValue(if n < 0 then -n else n);
    if n < 0 {
      assert ShowInt(n)[1..] == ShowNat(-n);
    }
  }

  /** Values past the range are rejected, not wrapped. */
  lemma ParseOverflow(n: int, min: int, max: int)
    requires n < min || max < n
    ensures ParseSigned(ShowInt(n), min, max) == None
  {
    ShowNatValue(if n < 0 then -n else n);
    if n < 0 {
      assert ShowInt(n)[1..] == ShowNat(-n);
    }
  }
}
