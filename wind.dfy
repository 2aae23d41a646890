/** The wind-speed parser: the first match of `(\d+)(?:\s*to\s*(\d+))?\s*mph`, case-insensitive,
    turned into miles per hour.  The pattern is read as a scan over suffixes of the text: each
    greedy run is skipped and the rest of the pattern is matched against what follows it. */
module Wind {
  import opened Optional
  import opened Text

  /** The two capture groups of a match; the second is absent when the range part did not match. */
  datatype Captures = Captures(first: string, second: Option<string>)

  /** `s` starts with the lower-case ASCII word `w`, in any letter case (the `i` flag). */
  predicate StartsWithWord(s: string, w: string)
  {
    |w| <= |s| && ToLower(s[..|w|]) == w
  }

  /** `\s*mph` matches at the start of `s`. */
  predicate UnitAhead(s: string)
  {
    StartsWithWord(s[RunLength(s, IsSpace)..], "mph")
  }

  /** The optional group and the unit, `\s*to\s*(\d+)\s*mph`, at the start of `r`: the second number
      when they match. */
  function RangeTail(r: string): (b: Option<string>)
  {
    var t := r[RunLength(r, IsSpace)..];
    if StartsWithWord(t, "to") then
      var u := t[2..];
      var v := u[RunLength(u, IsSpace)..];
      var n := RunLength(v, IsDigit);
      if n > 0 && UnitAhead(v[n..]) then Some(v[..n]) else None
    else None
  }

  /** A match at the start of `s`.  The greedy quantifiers never need to give characters back: a
      shorter digit run is followed by a digit and a shorter space run by a space, and the pattern
      continues with neither.  When the optional group matches but no unit follows it, the match is
      tried again without the group. */
  function MatchAt(s: string): (m: Option<Captures>)
  {
    if |s| > 0 && IsDigit(s[0]) then
      var a := RunLength(s, IsDigit);
      var r := s[a..];
      var ranged := RangeTail(r);
      if ranged.Some? then Some(Captures(s[..a], ranged))
      else if UnitAhead(r) then Some(Captures(s[..a], None))
      else None
    else None
  }

  /** The leftmost match: the first suffix of `s` at whose start the pattern matches. */
  function FirstMatch(s: string): (m: Option<Captures>)
  {
    if |s| == 0 then None
    else if MatchAt(s).Some? then MatchAt(s)
    else FirstMatch(s[1..])
  }

  /** A match at the start of the text begins with a digit, and its first capture is the whole
      leading digit run: the greedy `\d+` takes every digit before anything else is tried. */
  lemma MatchAtGreedy(s: string)
    ensures MatchAt(s).Some? ==> |s| > 0 && IsDigit(s[0])
    ensures MatchAt(s).Some? ==> var n := |MatchAt(s).value.first|;
              && 0 < n <= |s| && MatchAt(s).value.first == s[..n] && AllDigits(MatchAt(s).value.first)
              && (n == |s| || !IsDigit(s[n]))
  {
    RunLengthMaximal(s, IsDigit);
    if MatchAt(s).Some? {
      RunIsRun(s, IsDigit);
    }
  }

  /** `FirstMatch` finds nothing exactly when the pattern matches at no position of the text. */
  lemma {:induction false} FirstMatchNone(s: string)
    ensures FirstMatch(s).None? <==> forall i :: 0 <= i < |s| ==> MatchAt(s[i..]).None?
  {
    if |s| > 0 {
      assert s[0..] == s;
      if MatchAt(s).None? {
        var t := s[1..];
        FirstMatchNone(t);
        forall i | 0 < i < |s| ensures s[i..] == t[i - 1..] { }
        if FirstMatch(s).Some? {
          var i :| 0 <= i < |t| && MatchAt(t[i..]).Some?;
          assert s[i + 1..] == t[i..];
        }
      }
    }
  }

  /** A match that `FirstMatch` finds is the leftmost one: the match at some position before which the
      pattern matches nowhere. */
  lemma {:induction false} FirstMatchLeftmost(s: string)
    requires FirstMatch(s).Some?
    ensures exists i :: 0 <= i < |s| && FirstMatch(s) == MatchAt(s[i..]) &&
                        forall j :: 0 <= j < i ==> MatchAt(s[j..]).None?
  {
    if MatchAt(s).Some? {
      assert s[0..] == s;
      assert FirstMatch(s) == MatchAt(s[0..]);
    } else {
      var t := s[1..];
      assert FirstMatch(s) == FirstMatch(t);
      FirstMatchLeftmost(t);
      var i :| 0 <= i < |t| && FirstMatch(t) == MatchAt(t[i..]) && forall j :: 0 <= j < i ==> MatchAt(t[j..]).None?;
      assert s[i + 1..] == t[i..];
      forall j | 0 <= j < i + 1 ensures MatchAt(s[j..]).None? {
        if j > 0 { assert s[j..] == t[j - 1..]; } else { assert s[0..] == s; }
      }
      assert FirstMatch(s) == MatchAt(s[i + 1..]);
    }
  }

  /** `mphFromWindSpeed`: no match gives null; otherwise the first number, or the mean of the two
      numbers when the second is present and not zero (a zero second number is falsy). */
  function MphFromWindSpeed(windSpeed: string): (mph: Option<real>)
    ensures mph.Some? ==> mph.value >= 0.0
  {
    match FirstMatch(windSpeed)
    case None => None
    case Some(c) =>
      var a := Decimal(c.first);
      if c.second.Some? && Decimal(c.second.value) != 0 then Some((a + Decimal(c.second.value)) as real / 2.0)
      else Some(a as real)
  }

  /** A greedy run read back: its characters satisfy `inRun`. */
  lemma RunIsRun(s: string, inRun: char -> bool)
    ensures forall k :: 0 <= k < |s[..RunLength(s, inRun)]| ==> inRun(s[..RunLength(s, inRun)][k])
  {
    RunLengthMaximal(s, inRun);
  }

  /** The second number, when the range part matches, is a non-empty string of digits. */
  lemma RangeTailDigits(r: string)
    ensures RangeTail(r).Some? ==> |RangeTail(r).value| > 0 && AllDigits(RangeTail(r).value)
  {
    var t := r[RunLength(r, IsSpace)..];
    if StartsWithWord(t, "to") {
      var u := t[2..];
      RunIsRun(u[RunLength(u, IsSpace)..], IsDigit);
    }
  }

  /** Both captures of a match are non-empty strings of digits, as `\d+` promises. */
  lemma CapturesAreDigits(s: string)
    ensures MatchAt(s).Some? ==> |MatchAt(s).value.first| > 0 && AllDigits(MatchAt(s).value.first)
    ensures MatchAt(s).Some? && MatchAt(s).value.second.Some? ==>
              |MatchAt(s).value.second.value| > 0 && AllDigits(MatchAt(s).value.second.value)
  {
    if |s| > 0 && IsDigit(s[0]) {
      RunIsRun(s, IsDigit);
      RangeTailDigits(s[RunLength(s, IsDigit)..]);
    }
  }

  /** A word written in any letter case at the start of `x + y`; what follows it is `y`. */
  lemma WordAhead(x: string, y: string, w: string)
    requires ToLower(x) == w
    ensures StartsWithWord(x + y, w)
    ensures (x + y)[|w|..] == y
  {
    assert (x + y)[..|x|] == x;
  }

  /** A character that lower-cases to an ASCII letter is neither a digit nor white space. */
  lemma LetterIsNoSeparator(c: char)
    requires 'a' <= LowerChar(c) <= 'z'
    ensures !IsDigit(c) && !IsSpace(c)
  {
  }

  /** White space and then the unit: `\s*mph` matches, and the text does not start with a digit. */
  lemma UnitAfterSpace(w: string, unit: string, rest: string)
    requires AllSpace(w) && ToLower(unit) == "mph"
    ensures UnitAhead(w + (unit + rest))
    ensures !IsDigit((w + (unit + rest))[0])
  {
    var u := unit + rest;
    assert u[0] == unit[0] && LowerChar(unit[0]) == ToLower(unit)[0];
    LetterIsNoSeparator(unit[0]);
    RunOver(w, u, IsSpace);
    WordAhead(unit, rest, "mph");
  }

  /** The unit does not begin with the word "to", so the optional group cannot match there. */
  lemma UnitIsNotTo(unit: string, rest: string)
    requires ToLower(unit) == "mph"
    ensures !StartsWithWord(unit + rest, "to")
  {
    var u := unit + rest;
    assert u[1] == unit[1];
    assert LowerChar(unit[1]) == ToLower(unit)[1] == 'p';
    if |u| >= 2 {
      assert ToLower(u[..2])[1] == LowerChar(u[..2][1]) == 'p';
    }
  }

  /** White space and then the unit: the optional group does not match. */
  lemma NoRangeAhead(w: string, unit: string, rest: string)
    requires AllSpace(w) && ToLower(unit) == "mph"
    ensures RangeTail(w + (unit + rest)) == None
  {
    var u := unit + rest;
    assert u[0] == unit[0] && LowerChar(unit[0]) == ToLower(unit)[0];
    LetterIsNoSeparator(unit[0]);
    RunOver(w, u, IsSpace);
    UnitIsNotTo(unit, rest);
  }

  /** A text that starts with a match of the pattern is matched by `FirstMatch` right there. */
  lemma MatchAtStart(s: string)
    requires MatchAt(s).Some?
    ensures FirstMatch(s) == MatchAt(s)
  {
  }

  /** The reading of a text whose first match has captured a single number: that number. */
  lemma SingleReading(s: string, first: string)
    requires FirstMatch(s) == Some(Captures(first, None))
    ensures MphFromWindSpeed(s) == Some(Decimal(first) as real)
  {
  }

  /** The reading of a text whose first match has captured a range with a second number that is not
      zero: the mean of the two numbers. */
  lemma RangeMean(s: string, first: string, second: string)
    requires FirstMatch(s) == Some(Captures(first, Some(second))) && Decimal(second) != 0
    ensures MphFromWindSpeed(s) == Some((Decimal(first) + Decimal(second)) as real / 2.0)
  {
  }

  /** A second number that is zero is falsy: the reading is the first number. */
  lemma RangeZero(s: string, first: string, second: string)
    requires FirstMatch(s) == Some(Captures(first, Some(second))) && Decimal(second) == 0
    ensures MphFromWindSpeed(s) == Some(Decimal(first) as real)
  {
  }

  /** A match at the start of a number `d` followed by text `r` that does not continue it: the
      number is the first capture and the rest of the pattern is matched against `r`. */
  lemma LeadingNumber(d: string, r: string)
    requires |d| > 0 && AllDigits(d) && (|r| == 0 || !IsDigit(r[0]))
    ensures MatchAt(d + r) == if RangeTail(r).Some? then Some(Captures(d, RangeTail(r)))
                              else if UnitAhead(r) then Some(Captures(d, None))
                              else None
  {
    RunOver(d, r, IsDigit);
    assert (d + r)[0] == d[0];
  }

  /** "N mph" (any spacing, any letter case of the unit, anything after it) gives N. */
  lemma SingleSpeed(d: string, w: string, unit: string, rest: string)
    requires |d| > 0 && AllDigits(d) && AllSpace(w) && ToLower(unit) == "mph"
    ensures MphFromWindSpeed(d + (w + (unit + rest))) == Some(Decimal(d) as real)
  {
    var r := w + (unit + rest);
    UnitAfterSpace(w, unit, rest);
    NoRangeAhead(w, unit, rest);
    LeadingNumber(d, r);
    MatchAtStart(d + r);
    SingleReading(d + r, d);
  }

  /** The range part after the first number: `C to D mph` gives the second number `D`. */
  lemma RangeAhead(w1: string, to: string, w2: string, d2: string, w3: string, unit: string, rest: string)
    requires AllSpace(w1) && ToLower(to) == "to" && AllSpace(w2)
    requires |d2| > 0 && AllDigits(d2) && AllSpace(w3) && ToLower(unit) == "mph"
    ensures var r := w1 + (to + (w2 + (d2 + (w3 + (unit + rest)))));
            RangeTail(r) == Some(d2) && !IsDigit(r[0])
  {
    var x := w3 + (unit + rest);
    var v := d2 + x;
    var u := w2 + v;
    var t := to + u;
    var r := w1 + t;
    assert t[0] == to[0] && LowerChar(to[0]) == ToLower(to)[0];
    LetterIsNoSeparator(to[0]);
    RunOver(w1, t, IsSpace);
    WordAhead(to, u, "to");
    assert v[0] == d2[0];
    RunOver(w2, v, IsSpace);
    UnitAfterSpace(w3, unit, rest);
    RunOver(d2, x, IsDigit);
  }

  /** "A to B mph" (any spacing, any letter case, anything after it) gives the mean of A and B, or A
      when B is zero. */
  lemma SpeedRange(d1: string, w1: string, to: string, w2: string, d2: string, w3: string, unit: string, rest: string)
    requires |d1| > 0 && AllDigits(d1) && |d2| > 0 && AllDigits(d2)
    requires AllSpace(w1) && AllSpace(w2) && AllSpace(w3)
    requires ToLower(to) == "to" && ToLower(unit) == "mph"
    ensures var mph := MphFromWindSpeed(d1 + (w1 + (to + (w2 + (d2 + (w3 + (unit + rest)))))));
            mph == if Decimal(d2) != 0 then Some((Decimal(d1) + Decimal(d2)) as real / 2.0) else Some(Decimal(d1) as real)
  {
    var r := w1 + (to + (w2 + (d2 + (w3 + (unit + rest)))));
    var s := d1 + r;
    RangeAhead(w1, to, w2, d2, w3, unit, rest);
    LeadingNumber(d1, r);
    MatchAtStart(s);
    if Decimal(d2) != 0 {
      RangeMean(s, d1, d2);
    } else {
      RangeZero(s, d1, d2);
    }
  }

  /** What is found in a suffix is found in the whole text. */
  lemma DropContains(s: string, k: nat, w: string)
    requires k <= |s| && Contains(ToLower(s[k..]), w)
    ensures Contains(ToLower(s), w)
  {
    var i :| 0 <= i <= |s[k..]| - |w| && OccursAt(ToLower(s[k..]), w, i);
    ToLowerSlice(s, k, |s|);
    assert ToLower(s)[k + i..k + i + |w|] == ToLower(s[k..])[i..i + |w|];
    ContainsWitness(ToLower(s), w, k + i);
  }

  /** A text that starts with a word contains it. */
  lemma StartContains(s: string, w: string)
    requires StartsWithWord(s, w)
    ensures Contains(ToLower(s), w)
  {
    ToLowerSlice(s, 0, |w|);
    assert s[..|w|] == s[0..|w|];
    ContainsWitness(ToLower(s), w, 0);
  }

  /** Wherever `\s*mph` matches, the text contains "mph" in some letter case. */
  lemma UnitAheadContains(s: string)
    requires UnitAhead(s)
    ensures Contains(ToLower(s), "mph")
  {
    var k := RunLength(s, IsSpace);
    StartContains(s[k..], "mph");
    DropContains(s, k, "mph");
  }

  /** A match ends with the unit, so the text contains "mph" in some letter case. */
  lemma MatchContainsUnit(s: string)
    requires MatchAt(s).Some?
    ensures Contains(ToLower(s), "mph")
  {
    var a := RunLength(s, IsDigit);
    var r := s[a..];
    if RangeTail(r).Some? {
      var t := r[RunLength(r, IsSpace)..];
      var u := t[2..];
      var v := u[RunLength(u, IsSpace)..];
      var n := RunLength(v, IsDigit);
      UnitAheadContains(v[n..]);
      DropContains(v, n, "mph");
      DropContains(u, RunLength(u, IsSpace), "mph");
      DropContains(t, 2, "mph");
      DropContains(r, RunLength(r, IsSpace), "mph");
    } else {
      UnitAheadContains(r);
    }
    DropContains(s, a, "mph");
  }

  /** A text that does not contain "mph" in any letter case gives null. */
  lemma {:induction false} NoUnitNoSpeed(s: string)
    requires !Contains(ToLower(s), "mph")
    ensures MphFromWindSpeed(s) == None
    ensures FirstMatch(s) == None
  {
    if |s| > 0 {
      if MatchAt(s).Some? {
        MatchContainsUnit(s);
      }
      if !Contains(ToLower(s[1..]), "mph") {
        NoUnitNoSpeed(s[1..]);
      } else {
        DropContains(s, 1, "mph");
      }
    }
  }

  /** Text in front of the reading that holds no digit does not change it: matches start at a digit. */
  lemma {:induction false} DigitFreePrefix(p: string, s: string)
    requires forall k :: 0 <= k < |p| ==> !IsDigit(p[k])
    ensures MphFromWindSpeed(p + s) == MphFromWindSpeed(s)
    ensures FirstMatch(p + s) == FirstMatch(s)
  {
    if |p| > 0 {
      assert (p + s)[0] == p[0];
      assert (p + s)[1..] == p[1..] + s;
      DigitFreePrefix(p[1..], s);
    } else {
      assert p + s == s;
    }
  }
}
