/** The few JavaScript string operations the dashboard relies on, over `seq<char>`. */
module Text {

  /** The characters that JavaScript's `\s` and `String.prototype.trim` treat as white space
      (WhiteSpace and LineTerminator of ECMAScript). */
  predicate IsSpace(c: char)
  {
    var n := c as int;
    (9 <= n <= 13) || n == 0x20 || n == 0xA0 || n == 0x1680 || (0x2000 <= n <= 0x200A)
    || n == 0x2028 || n == 0x2029 || n == 0x202F || n == 0x205F || n == 0x3000 || n == 0xFEFF
  }

  /** The characters of the regular-expression class `\d`. */
  predicate IsDigit(c: char)
  {
    '0' <= c <= '9'
  }

  predicate AllSpace(s: string)
  {
    forall k :: 0 <= k < |s| ==> IsSpace(s[k])
  }

  predicate AllDigits(s: string)
  {
    forall k :: 0 <= k < |s| ==> IsDigit(s[k])
  }

  /** Lower-case of one character; only ASCII letters change. */
  function LowerChar(c: char): (d: char)
    ensures 'A' <= c <= 'Z' ==> d as int == c as int + 32
    ensures !('A' <= c <= 'Z') ==> d == c
  {
    if 'A' <= c <= 'Z' then (c as int + 32) as char else c
  }

  /** `toLowerCase()` restricted to ASCII letters. */
  function ToLower(s: string): (r: string)
    ensures |r| == |s|
    ensures forall k :: 0 <= k < |s| ==> r[k] == LowerChar(s[k])
  {
    seq(|s|, k requires 0 <= k < |s| => LowerChar(s[k]))
  }

  lemma ToLowerSlice(s: string, i: nat, j: nat)
    requires i <= j <= |s|
    ensures ToLower(s[i..j]) == ToLower(s)[i..j]
  {
  }

  /** `w` occurs in `s` starting at position `i`. */
  predicate OccursAt(s: string, w: string, i: int)
  {
    0 <= i && i + |w| <= |s| && s[i..i + |w|] == w
  }

  /** `s.includes(w)`: `w` occurs in `s` at some position. */
  predicate Contains(s: string, w: string)
  {
    exists i | 0 <= i <= |s| - |w| :: OccursAt(s, w, i)
  }

  lemma ContainsWitness(s: string, w: string, i: nat)
    requires OccursAt(s, w, i)
    ensures Contains(s, w)
  {
  }

  /** Every character of an occurring word is a character of the text. */
  lemma ContainsChar(s: string, w: string, k: nat)
    requires Contains(s, w) && k < |w|
    ensures w[k] in s
  {
    var i :| 0 <= i <= |s| - |w| && OccursAt(s, w, i);
    assert s[i..i + |w|][k] == s[i + k];
  }

  /** Length of the longest prefix of `s` whose characters satisfy `inRun` . */
  function RunLength(s: string, inRun: char -> bool): (n: nat)
    ensures n <= |s|
  {
    if |s| > 0 && inRun(s[0]) then 1 + RunLength(s[1..], inRun) else 0
  }

  /** The run is maximal: every character in it satisfies `inRun` and the one after it does not. */
  lemma {:induction false} RunLengthMaximal(s: string, inRun: char -> bool)
    ensures forall k :: 0 <= k < RunLength(s, inRun) ==> inRun(s[k])
    ensures RunLength(s, inRun) == |s| || !inRun(s[RunLength(s, inRun)])
  {
    if |s| > 0 && inRun(s[0]) {
      RunLengthMaximal(s[1..], inRun);
      forall k | 0 <= k < RunLength(s, inRun) ensures inRun(s[k]) {
        if k > 0 { assert s[k] == s[1..][k - 1]; }
      }
    }
  }

  /** Skipping the run `x` in `x + y` when `y` does not continue it. */
  lemma {:induction false} RunOver(x: string, y: string, inRun: char -> bool)
    requires forall k :: 0 <= k < |x| ==> inRun(x[k])
    requires |y| == 0 || !inRun(y[0])
    ensures RunLength(x + y, inRun) == |x|
    ensures (x + y)[..|x|] == x && (x + y)[|x|..] == y
  {
    if |x| > 0 {
      assert (x + y)[1..] == x[1..] + y;
      RunOver(x[1..], y, inRun);
    } else {
      assert x + y == y;
    }
  }

  /** Length of `s` without its trailing white space. */
  function ContentEnd(s: string): (n: nat)
    ensures n <= |s|
  {
    if |s| > 0 && IsSpace(s[|s| - 1]) then ContentEnd(s[..|s| - 1]) else |s|
  }

  /** Everything from `ContentEnd(s)` on is white space, and the character before it is not. */
  lemma {:induction false} ContentEndMaximal(s: string)
    ensures forall k :: ContentEnd(s) <= k < |s| ==> IsSpace(s[k])
    ensures ContentEnd(s) == 0 || !IsSpace(s[ContentEnd(s) - 1])
  {
    if |s| > 0 && IsSpace(s[|s| - 1]) {
      var p := s[..|s| - 1];
      ContentEndMaximal(p);
      forall k | ContentEnd(s) <= k < |s| ensures IsSpace(s[k]) {
        if k < |p| { assert s[k] == p[k]; }
      }
      if ContentEnd(s) > 0 { assert s[ContentEnd(s) - 1] == p[ContentEnd(s) - 1]; }
    }
  }

  /** The white space `Trim` removes at the front. */
  lemma LeadingSpace(s: string)
    ensures AllSpace(s[..RunLength(s, IsSpace)])
  {
    var a := RunLength(s, IsSpace);
    RunLengthMaximal(s, IsSpace);
    forall k | 0 <= k < a ensures IsSpace(s[..a][k]) { assert s[..a][k] == s[k]; }
  }

  /** The white space `Trim` removes at the back. */
  lemma TrailingSpace(s: string)
    ensures AllSpace(s[ContentEnd(s)..])
  {
    var b := ContentEnd(s);
    ContentEndMaximal(s);
    forall k | 0 <= k < |s| - b ensures IsSpace(s[b..][k]) { assert s[b..][k] == s[b + k]; }
  }

  /** When the front run reaches the back run, the text is all white space. */
  lemma SpaceRunsMeet(s: string)
    ensures RunLength(s, IsSpace) >= ContentEnd(s) ==> RunLength(s, IsSpace) == |s|
  {
    RunLengthMaximal(s, IsSpace);
    ContentEndMaximal(s);
  }

  /** `s.trim()`: `s` is the result surrounded by white space only, and the result neither starts nor ends
      with white space. */
  function Trim(s: string): (r: string)
    ensures exists i :: OccursAt(s, r, i) && AllSpace(s[..i]) && AllSpace(s[i + |r|..])
    ensures r == [] || (!IsSpace(r[0]) && !IsSpace(r[|r| - 1]))
  {
    var a, b := RunLength(s, IsSpace), ContentEnd(s);
    LeadingSpace(s);
    TrailingSpace(s);
    SpaceRunsMeet(s);
    RunLengthMaximal(s, IsSpace);
    ContentEndMaximal(s);
    if a < b then
      assert OccursAt(s, s[a..b], a);
      s[a..b]
    else
      assert OccursAt(s, [], a);
      []
  }

  /** Trimming leaves text without surrounding white space as it is. */
  lemma TrimUntouched(s: string)
    requires s == [] || (!IsSpace(s[0]) && !IsSpace(s[|s| - 1]))
    ensures Trim(s) == s
  {
  }

  /** Decimal value of a digit string, as `Number` reads it (leading zeros allowed). */
  function Decimal(d: string): nat
  {
    if d == [] then 0 else 10 * Decimal(d[..|d| - 1]) + ((d[|d| - 1] as int - '0' as int) % 10)
  }

  function DigitChar(n: nat): (c: char)
    requires n < 10
    ensures IsDigit(c)
  {
    ('0' as int + n) as char
  }

  /** How a template literal writes a non-negative integer: decimal digits, no leading zero. */
  function NatText(n: nat): (s: string)
    ensures |s| > 0 && AllDigits(s)
    ensures s[0] == '0' ==> n == 0
  {
    if n < 10 then [DigitChar(n)] else NatText(n / 10) + [DigitChar(n % 10)]
  }

  /** Reading back what `NatText` wrote gives the number. */
  lemma {:induction false} NatTextRoundTrip(n: nat)
    ensures Decimal(NatText(n)) == n
  {
    var s := NatText(n);
    if n < 10 {
      assert s[..0] == [];
    } else {
      assert s[..|s| - 1] == NatText(n / 10);
      NatTextRoundTrip(n / 10);
    }
  }

  /** Trimming leaves nothing exactly when the text is all white space. */
  lemma TrimEmpty(s: string)
    ensures Trim(s) == [] <==> AllSpace(s)
  {
    var r := Trim(s);
    var i :| OccursAt(s, r, i) && AllSpace(s[..i]) && AllSpace(s[i + |r|..]);
    if r == [] {
      assert s == s[..i] + s[i..];
      forall k | 0 <= k < |s| ensures IsSpace(s[k]) {
        if k < i { assert s[k] == s[..i][k]; } else { assert s[k] == s[i..][k - i]; }
      }
    } else {
      assert r[0] == s[i];
    }
  }
}
