/**
 JSON text as sections 2 to 7 of RFC 8259 describe it: what each form is made of, with no order of
 reading. The recogniser of JsonGrammar accepts exactly these texts.
 */
module JsonReference {
  import opened Common
  import opened HeadScan
  import opened JsonGrammar

  // ---------------------------------------------------------------- the forms

  predicate Blank(d: Bytes, i: nat, e: nat)
    requires i <= e <= |d|
  {
    forall k :: i <= k < e ==> d[k] in {0x20, 0x09, 0x0A, 0x0D}
  }

  predicate AllDigits(d: Bytes, i: nat, e: nat)
    requires i <= e <= |d|
  {
    i < e && forall k :: i <= k < e ==> 0x30 <= d[k] <= 0x39
  }

  predicate HexDigit(b: byte) {
    0x30 <= b <= 0x39 || 0x41 <= b <= 0x46 || 0x61 <= b <= 0x66
  }

  /** Characters of a string: unescaped, escaped by one letter, or by four hexadecimal digits. */
  predicate Chars(d: Bytes, i: nat, e: nat)
    requires i <= e <= |d|
    decreases e - i
  {
    || i == e
    || (d[i] >= 0x20 && d[i] != 0x22 && d[i] != 0x5C && Chars(d, i + 1, e))
    || (d[i] == 0x5C && i + 2 <= e && d[i + 1] in {0x22, 0x5C, 0x2F, 0x62, 0x66, 0x6E, 0x72, 0x74} && Chars(d, i + 2, e))
    || (d[i] == 0x5C && i + 6 <= e && d[i + 1] == 0x75
        && HexDigit(d[i + 2]) && HexDigit(d[i + 3]) && HexDigit(d[i + 4]) && HexDigit(d[i + 5]) && Chars(d, i + 6, e))
  }

  predicate IsString(d: Bytes, i: nat, e: nat)
    requires i <= e <= |d|
  {
    i + 2 <= e && d[i] == 0x22 && d[e - 1] == 0x22 && Chars(d, i + 1, e - 1)
  }

  predicate IsLiteral(d: Bytes, i: nat, e: nat)
    requires i <= e <= |d|
  {
    d[i..e] == [0x74, 0x72, 0x75, 0x65] || d[i..e] == [0x66, 0x61, 0x6C, 0x73, 0x65] || d[i..e] == [0x6E, 0x75, 0x6C, 0x6C]
  }

  /** An integer part: one zero, or digits that do not start with one. */
  predicate IsInteger(d: Bytes, i: nat, e: nat)
    requires i <= e <= |d|
  {
    AllDigits(d, i, e) && (d[i] == 0x30 ==> e == i + 1)
  }

  predicate IsFraction(d: Bytes, i: nat, e: nat)
    requires i <= e <= |d|
  {
    i == e || (d[i] == 0x2E && AllDigits(d, i + 1, e))
  }

  predicate IsExponent(d: Bytes, i: nat, e: nat)
    requires i <= e <= |d|
  {
    i == e
    || ((d[i] == 0x65 || d[i] == 0x45)
        && (AllDigits(d, i + 1, e) || (i + 1 < e && (d[i + 1] == 0x2B || d[i + 1] == 0x2D) && AllDigits(d, i + 2, e))))
  }

  ghost predicate NumberParts(d: Bytes, i: nat, a: nat, b: nat, e: nat)
    requires i <= a <= b <= e <= |d|
  {
    && i < a && (if d[i] == 0x2D then i + 1 < a && IsInteger(d, i + 1, a) else IsInteger(d, i, a))
    && IsFraction(d, a, b) && IsExponent(d, b, e)
  }

  ghost predicate IsNumber(d: Bytes, i: nat, e: nat)
    requires i <= e <= |d|
  {
    exists a: nat, b: nat :: i <= a <= b <= e && NumberParts(d, i, a, b, e)
  }

  ghost predicate IsValue(d: Bytes, i: nat, e: nat)
    requires i <= e <= |d|
    decreases e - i, 1
  {
    IsLiteral(d, i, e) || IsNumber(d, i, e) || IsString(d, i, e) || IsArray(d, i, e) || IsObject(d, i, e)
  }

  ghost predicate IsArray(d: Bytes, i: nat, e: nat)
    requires i <= e <= |d|
    decreases e - i, 0
  {
    i + 2 <= e && d[i] == 0x5B && d[e - 1] == 0x5D && Inside(d, i + 1, e - 1, false)
  }

  /** Between the brackets: nothing, or elements or members, with white space before them. */
  ghost predicate Inside(d: Bytes, i: nat, e: nat, members: bool)
    requires i <= e <= |d|
    decreases e - i, 5
  {
    || Blank(d, i, e)
    || exists s: nat :: i <= s <= e && Blank(d, i, s) && (if members then Members(d, s, e) else Elements(d, s, e))
  }

  /** Values with commas between them. */
  ghost predicate Elements(d: Bytes, i: nat, e: nat)
    requires i <= e <= |d|
    decreases e - i, 2
  {
    exists v: nat :: i < v <= e && IsValue(d, i, v) && Goes(d, i, v, e, false)
  }

  /** What follows a value: the end, or a comma and more. */
  ghost predicate Goes(d: Bytes, i: nat, v: nat, e: nat, members: bool)
    requires i < v <= e <= |d|
    decreases e - i, 1
  {
    || Blank(d, v, e)
    || exists c: nat, s: nat :: && v <= c < s <= e && Blank(d, v, c) && d[c] == 0x2C && Blank(d, c + 1, s)
                                && (if members then Members(d, s, e) else Elements(d, s, e))
  }

  ghost predicate IsObject(d: Bytes, i: nat, e: nat)
    requires i <= e <= |d|
    decreases e - i, 0
  {
    i + 2 <= e && d[i] == 0x7B && d[e - 1] == 0x7D && Inside(d, i + 1, e - 1, true)
  }

  /** A key, a colon, a value; then as for elements. */
  ghost predicate Members(d: Bytes, i: nat, e: nat)
    requires i <= e <= |d|
    decreases e - i, 4
  {
    exists k: nat, c: nat, s: nat, v: nat :: MemberParts(d, i, k, c, s, v, e)
  }

  ghost predicate MemberParts(d: Bytes, i: nat, k: nat, c: nat, s: nat, v: nat, e: nat)
    requires i <= e <= |d|
    decreases e - i, 3
  {
    && i < k <= c < s < v <= e && IsString(d, i, k) && Blank(d, k, c) && d[c] == 0x3A && Blank(d, c + 1, s)
    && IsValue(d, s, v) && Goes(d, i, v, e, true)
  }

  // ---------------------------------------------------------------- strings

  lemma {:induction false} CharsAreString(d: Bytes, i: nat)
    requires i <= |d| && StringFrom(d, i).Some?
    ensures var e := StringFrom(d, i).value; d[e - 1] == 0x22 && Chars(d, i, e - 1)
    decreases |d| - i
  {
    if d[i] != QUOTE {
      if d[i] != BACKSLASH {
        CharsAreString(d, i + 1);
      } else if IsEscape(d[i + 1]) {
        CharsAreString(d, i + 2);
      } else {
        CharsAreString(d, i + 6);
      }
    }
  }

  lemma {:induction false} StringIsChars(d: Bytes, i: nat, e: nat)
    requires i <= e < |d| && d[e] == 0x22 && Chars(d, i, e)
    ensures StringFrom(d, i) == Some(e + 1)
    decreases e - i
  {
    if i < e {
      if d[i] != 0x5C {
        StringIsChars(d, i + 1, e);
      } else if d[i + 1] != 0x75 {
        StringIsChars(d, i + 2, e);
      } else {
        StringIsChars(d, i + 6, e);
      }
    }
  }

  /** The end the recogniser finds is that of the string, and the only one. */
  lemma StringsAgree(d: Bytes, i: nat, e: nat)
    requires i <= e <= |d|
    ensures StringEnd(d, i) == Some(e) <==> IsString(d, i, e)
  {
    if StringEnd(d, i) == Some(e) {
      CharsAreString(d, i + 1);
    }
    if IsString(d, i, e) {
      StringIsChars(d, i + 1, e - 1);
    }
    hide StringFrom, Chars;
  }

  // ---------------------------------------------------------------- literals and numbers

  lemma LiteralsAgree(d: Bytes, i: nat, e: nat)
    requires i <= e <= |d|
    ensures LiteralEnd(d, i) == Some(e) <==> IsLiteral(d, i, e)
  {
    if IsLiteral(d, i, e) {
      assert d[i] == d[i..e][0];
      if d[i] == 0x6E {
        assert !TextAt(d, i, TRUE_TEXT) && !TextAt(d, i, FALSE_TEXT) by {
          NotText(d, i, TRUE_TEXT);
          NotText(d, i, FALSE_TEXT);
        }
      } else if d[i] == 0x66 {
        NotText(d, i, TRUE_TEXT);
      }
    }
  }

  lemma NotText(d: Bytes, i: nat, text: Bytes)
    requires i < |d| && text != [] && d[i] != text[0]
    ensures !TextAt(d, i, text)
  {
    if i + |text| <= |d| {
      assert d[i..i + |text|][0] == d[i];
    }
  }

  lemma {:induction false} DigitsAre(d: Bytes, i: nat, e: nat)
    requires i <= e <= |d| && (forall k :: i <= k < e ==> IsDigit(d[k])) && (e == |d| || !IsDigit(d[e]))
    ensures Digits(d, i) == e
    decreases e - i
  {
    if i < e {
      DigitsAre(d, i + 1, e);
    }
  }

  /** A number ends where no further digit, point or exponent follows. */
  predicate NumberStops(d: Bytes, e: nat) {
    e < |d| ==> !IsDigit(d[e]) && d[e] != 0x2E && d[e] != 0x65 && d[e] != 0x45
  }

  lemma {:induction false} DigitsStop(d: Bytes, i: nat)
    requires i <= |d|
    ensures var e := Digits(d, i); e < |d| ==> !IsDigit(d[e])
    decreases |d| - i
  {
    if i < |d| && IsDigit(d[i]) {
      DigitsStop(d, i + 1);
    }
  }

  lemma NumberIsRead(d: Bytes, i: nat)
    requires i <= |d| && NumberEnd(d, i).Some?
    ensures IsNumber(d, i, NumberEnd(d, i).value)
  {
    var from := if i < |d| && d[i] == 45 then i + 1 else i;
    var a := IntegerEnd(d, from).value;
    var b := FractionEnd(d, a).value;
    var e := ExponentEnd(d, b).value;
    assert NumberEnd(d, i) == Some(e);
    assert IsInteger(d, from, a);
    assert IsFraction(d, a, b) && IsExponent(d, b, e);
    assert NumberParts(d, i, a, b, e);
  }

  lemma NumberIsFound(d: Bytes, i: nat, a: nat, b: nat, e: nat)
    requires i <= a <= b <= e <= |d| && NumberParts(d, i, a, b, e) && NumberStops(d, e)
    ensures NumberEnd(d, i) == Some(e)
  {
    var from := if d[i] == 45 then i + 1 else i;
    IntegerIsFound(d, from, a, b, e);
    FractionIsFound(d, a, b, e);
    ExponentIsFound(d, b, e);
    hide IntegerEnd, FractionEnd, ExponentEnd, IsInteger, IsFraction, IsExponent;
  }

  lemma IntegerIsFound(d: Bytes, i: nat, a: nat, b: nat, e: nat)
    requires i <= a <= b <= e <= |d| && IsInteger(d, i, a) && IsFraction(d, a, b) && IsExponent(d, b, e) && NumberStops(d, e)
    ensures IntegerEnd(d, i) == Some(a)
  {
    if d[i] != 0x30 {
      assert a < |d| ==> !IsDigit(d[a]);
      DigitsAre(d, i, a);
    }
  }

  lemma FractionIsFound(d: Bytes, a: nat, b: nat, e: nat)
    requires a <= b <= e <= |d| && IsFraction(d, a, b) && IsExponent(d, b, e) && NumberStops(d, e)
    ensures FractionEnd(d, a) == Some(b)
  {
    assert b == |d| || !IsDigit(d[b]);
    if a < b {
      DigitsAre(d, a + 1, b);
    }
  }

  lemma ExponentIsFound(d: Bytes, b: nat, e: nat)
    requires b <= e <= |d| && IsExponent(d, b, e) && NumberStops(d, e)
    ensures ExponentEnd(d, b) == Some(e)
  {
    if b < e {
      if AllDigits(d, b + 1, e) {
        DigitsAre(d, b + 1, e);
      } else {
        DigitsAre(d, b + 2, e);
      }
    }
  }

  // ---------------------------------------------------------------- whatever is accepted is JSON

  lemma SpacesAreBlank(d: Bytes, i: nat)
    requires i <= |d|
    ensures Blank(d, i, SkipWs(d, i))
  {}

  lemma {:induction false} ValueIsJson(d: Bytes, i: nat)
    requires i <= |d| && ValueEnd(d, i).Some?
    ensures IsValue(d, i, ValueEnd(d, i).value)
    decreases |d| - i, 1
  {
    var e := ValueEnd(d, i).value;
    if d[i] == QUOTE {
      StringsAgree(d, i, e);
    } else if d[i] == OPEN_OBJECT {
      ObjectIsJson(d, i);
    } else if d[i] == OPEN_ARRAY {
      ArrayIsJson(d, i);
    } else if LiteralEnd(d, i).Some? {
      LiteralsAgree(d, i, e);
    } else {
      NumberIsRead(d, i);
    }
  }

  lemma BracketTurn(d: Bytes, i: nat)
    requires i < |d|
    ensures var j := SkipWs(d, i + 1);
            && (d[i] == OPEN_ARRAY ==> ValueEnd(d, i) == if At(d, j, CLOSE_ARRAY) then Some(j + 1) else ElementsEnd(d, j))
            && (d[i] == OPEN_OBJECT ==> ValueEnd(d, i) == if At(d, j, CLOSE_OBJECT) then Some(j + 1) else MembersEnd(d, j))
  {
    hide SkipWs, ElementsEnd, MembersEnd;
  }

  lemma {:induction false} ArrayIsJson(d: Bytes, i: nat)
    requires i < |d| && d[i] == OPEN_ARRAY && ValueEnd(d, i).Some?
    ensures IsArray(d, i, ValueEnd(d, i).value)
    decreases |d| - i, 0
  {
    hide ValueEnd, SkipWs, ElementsEnd, MembersEnd, Elements, Blank, Inside;
    BracketTurn(d, i);
    var j, e := SkipWs(d, i + 1), ValueEnd(d, i).value;
    SpacesAreBlank(d, i + 1);
    if !At(d, j, CLOSE_ARRAY) {
      ElementsAreJson(d, j);
    }
    InsideBy(d, i + 1, j, e - 1, false, At(d, j, CLOSE_ARRAY));
  }

  lemma InsideBy(d: Bytes, i: nat, s: nat, e: nat, members: bool, empty: bool)
    requires i <= s <= e <= |d| && Blank(d, i, s)
    requires if empty then s == e else if members then Members(d, s, e) else Elements(d, s, e)
    ensures Inside(d, i, e, members)
  {
    hide Members, Elements;
  }

  lemma {:induction false} ObjectIsJson(d: Bytes, i: nat)
    requires i < |d| && d[i] == OPEN_OBJECT && ValueEnd(d, i).Some?
    ensures IsObject(d, i, ValueEnd(d, i).value)
    decreases |d| - i, 0
  {
    hide ValueEnd, SkipWs, ElementsEnd, MembersEnd, Members, Blank, Inside;
    BracketTurn(d, i);
    var j, e := SkipWs(d, i + 1), ValueEnd(d, i).value;
    SpacesAreBlank(d, i + 1);
    if !At(d, j, CLOSE_OBJECT) {
      MembersAreJson(d, j);
    }
    InsideBy(d, i + 1, j, e - 1, true, At(d, j, CLOSE_OBJECT));
  }

  /** One turn of the recogniser over elements. */
  lemma ElementsTurn(d: Bytes, i: nat)
    requires i <= |d|
    ensures var v := ValueEnd(d, i);
            ElementsEnd(d, i)
            == if v.None? then None
               else if At(d, SkipWs(d, v.value), CLOSE_ARRAY) then Some(SkipWs(d, v.value) + 1)
               else if At(d, SkipWs(d, v.value), COMMA) then ElementsEnd(d, SkipWs(d, SkipWs(d, v.value) + 1))
               else None
  {
    hide SkipWs, ValueEnd;
  }

  lemma {:induction false} ElementsAreJson(d: Bytes, i: nat)
    requires i <= |d| && ElementsEnd(d, i).Some?
    ensures var e := ElementsEnd(d, i).value; e >= 1 && d[e - 1] == 0x5D && i <= e - 1 && Elements(d, i, e - 1)
    decreases |d| - i, 2
  {
    hide SkipWs, ValueEnd, ElementsEnd, IsValue, Elements, Blank, Goes;
    ElementsTurn(d, i);
    var v, e := ValueEnd(d, i).value, ElementsEnd(d, i).value;
    var next := SkipWs(d, v);
    ValueIsJson(d, i);
    SpacesAreBlank(d, v);
    if At(d, next, CLOSE_ARRAY) {
      GoesNoFurther(d, i, v, e - 1, false);
    } else {
      var s := SkipWs(d, next + 1);
      SpacesAreBlank(d, next + 1);
      ElementsAreJson(d, s);
      GoesOn(d, i, v, next, s, e - 1, false);
    }
    ElementsBy(d, i, v, e - 1);
  }

  lemma GoesNoFurther(d: Bytes, i: nat, v: nat, e: nat, members: bool)
    requires i < v <= e <= |d| && Blank(d, v, e)
    ensures Goes(d, i, v, e, members)
  {}

  lemma GoesOn(d: Bytes, i: nat, v: nat, c: nat, s: nat, e: nat, members: bool)
    requires i < v <= c < s <= e <= |d| && Blank(d, v, c) && d[c] == 0x2C && Blank(d, c + 1, s)
    requires if members then Members(d, s, e) else Elements(d, s, e)
    ensures Goes(d, i, v, e, members)
  {
    hide Members, Elements, Blank;
  }

  lemma ElementsBy(d: Bytes, i: nat, v: nat, e: nat)
    requires i < v <= e <= |d| && IsValue(d, i, v) && Goes(d, i, v, e, false)
    ensures Elements(d, i, e)
  {
    hide IsValue, Goes;
  }

  lemma MembersTurn(d: Bytes, i: nat)
    requires i <= |d|
    ensures KeyEnd(d, i).Some? ==>
              && StringEnd(d, i).Some? && At(d, SkipWs(d, StringEnd(d, i).value), COLON)
              && KeyEnd(d, i).value == SkipWs(d, SkipWs(d, StringEnd(d, i).value) + 1)
    ensures var s := KeyEnd(d, i);
            MembersEnd(d, i)
            == if s.None? || ValueEnd(d, s.value).None? then None
               else
                 var next := SkipWs(d, ValueEnd(d, s.value).value);
                 if At(d, next, CLOSE_OBJECT) then Some(next + 1)
                 else if At(d, next, COMMA) then MembersEnd(d, SkipWs(d, next + 1))
                 else None
  {
    hide SkipWs, ValueEnd, StringEnd;
  }

  lemma {:induction false} MembersAreJson(d: Bytes, i: nat)
    requires i <= |d| && MembersEnd(d, i).Some?
    ensures var e := MembersEnd(d, i).value; e >= 1 && d[e - 1] == 0x7D && i <= e - 1 && Members(d, i, e - 1)
    decreases |d| - i, 2
  {
    hide SkipWs, ValueEnd, StringEnd, KeyEnd, MembersEnd, IsValue, IsString, Members, Blank, Goes;
    MembersTurn(d, i);
    var k := StringEnd(d, i).value;
    var c, s := SkipWs(d, k), KeyEnd(d, i).value;
    var v, e := ValueEnd(d, s).value, MembersEnd(d, i).value;
    var next := SkipWs(d, v);
    StringsAgree(d, i, k);
    SpacesAreBlank(d, k);
    SpacesAreBlank(d, c + 1);
    ValueIsJson(d, s);
    SpacesAreBlank(d, v);
    if At(d, next, CLOSE_OBJECT) {
      GoesNoFurther(d, i, v, e - 1, true);
    } else {
      var more := SkipWs(d, next + 1);
      SpacesAreBlank(d, next + 1);
      MembersAreJson(d, more);
      GoesOn(d, i, v, next, more, e - 1, true);
    }
    MembersBy(d, i, k, c, s, v, e - 1);
  }

  lemma MembersBy(d: Bytes, i: nat, k: nat, c: nat, s: nat, v: nat, e: nat)
    requires i < k <= c < s < v <= e <= |d| && IsString(d, i, k) && Blank(d, k, c) && d[c] == 0x3A && Blank(d, c + 1, s)
    requires IsValue(d, s, v) && Goes(d, i, v, e, true)
    ensures Members(d, i, e)
  {
    hide IsValue, Goes, IsString, Blank;
    assert MemberParts(d, i, k, c, s, v, e);
  }

  // ---------------------------------------------------------------- whatever is JSON is accepted

  /** White space ends at the first byte that is none. */
  lemma {:induction false} BlankIsSkipped(d: Bytes, i: nat, e: nat)
    requires i <= e < |d| && Blank(d, i, e) && !IsSpace(d[e])
    ensures SkipWs(d, i) == e
    decreases e - i
  {
    if i < e {
      BlankIsSkipped(d, i + 1, e);
    }
  }

  /** A value starts with a byte that is no white space and closes nothing. */
  lemma ValueStarts(d: Bytes, i: nat, e: nat)
    requires i <= e <= |d| && IsValue(d, i, e)
    ensures i < e && !IsSpace(d[i]) && d[i] != CLOSE_ARRAY && d[i] != CLOSE_OBJECT && d[i] != COMMA && d[i] != COLON
  {
    if IsLiteral(d, i, e) {
      assert |d[i..e]| >= 4 && d[i] == d[i..e][0];
    } else if IsNumber(d, i, e) {
      var a: nat, b: nat :| i <= a <= b <= e && NumberParts(d, i, a, b, e);
    }
    hide IsLiteral, Chars, Elements, Members, IsFraction, IsExponent;
  }

  lemma ElementsStart(d: Bytes, i: nat, e: nat)
    requires i <= e <= |d| && Elements(d, i, e)
    ensures i < e && !IsSpace(d[i]) && d[i] != CLOSE_ARRAY
  {
    var v: nat :| i < v <= e && IsValue(d, i, v) && Goes(d, i, v, e, false);
    ValueStarts(d, i, v);
  }

  lemma MembersStart(d: Bytes, i: nat, e: nat)
    requires i <= e <= |d| && Members(d, i, e)
    ensures i < e && d[i] == QUOTE && !IsSpace(d[i])
  {
    hide IsValue, Goes, Chars;
  }

  /** Where a value may end: no byte that could still belong to a number. */
  lemma {:induction false} JsonIsAccepted(d: Bytes, i: nat, e: nat)
    requires i <= e <= |d| && IsValue(d, i, e) && NumberStops(d, e)
    ensures ValueEnd(d, i) == Some(e)
    decreases e - i, 1
  {
    ValueStarts(d, i, e);
    if IsString(d, i, e) {
      StringsAgree(d, i, e);
    } else if IsArray(d, i, e) {
      ArrayIsAccepted(d, i, e);
    } else if IsObject(d, i, e) {
      ObjectIsAccepted(d, i, e);
    } else if IsLiteral(d, i, e) {
      LiteralsAgree(d, i, e);
      LiteralStarts(d, i, e);
    } else {
      var a: nat, b: nat :| i <= a <= b <= e && NumberParts(d, i, a, b, e);
      NumberStarts(d, i, a, b, e);
      NumberIsFound(d, i, a, b, e);
      NotText(d, i, TRUE_TEXT);
      NotText(d, i, FALSE_TEXT);
      NotText(d, i, NULL_TEXT);
    }
  }

  lemma LiteralStarts(d: Bytes, i: nat, e: nat)
    requires i <= e <= |d| && IsLiteral(d, i, e)
    ensures i < e && d[i] != QUOTE && d[i] != OPEN_ARRAY && d[i] != OPEN_OBJECT
  {
    assert |d[i..e]| >= 4 && d[i] == d[i..e][0];
  }

  lemma NumberStarts(d: Bytes, i: nat, a: nat, b: nat, e: nat)
    requires i <= a <= b <= e <= |d| && NumberParts(d, i, a, b, e)
    ensures i < e && (IsDigit(d[i]) || d[i] == 45)
  {
    hide IsFraction, IsExponent;
  }

  lemma InsideSplit(d: Bytes, i: nat, e: nat, members: bool) returns (empty: bool, s: nat)
    requires i <= e <= |d| && Inside(d, i, e, members)
    ensures i <= s <= e && Blank(d, i, s)
    ensures empty ==> s == e
    ensures !empty ==> if members then Members(d, s, e) else Elements(d, s, e)
  {
    hide Members, Elements;
    empty, s := Blank(d, i, e), e;
    if !empty {
      s :| i <= s <= e && Blank(d, i, s) && (if members then Members(d, s, e) else Elements(d, s, e));
    }
  }

  lemma {:induction false} ArrayIsAccepted(d: Bytes, i: nat, e: nat)
    requires i <= e <= |d| && IsArray(d, i, e)
    ensures ValueEnd(d, i) == Some(e)
    decreases e - i, 0
  {
    hide SkipWs, ValueEnd, ElementsEnd, Elements, Blank, Inside;
    BracketTurn(d, i);
    var empty, s := InsideSplit(d, i + 1, e - 1, false);
    if empty {
      BlankIsSkipped(d, i + 1, e - 1);
    } else {
      ElementsStart(d, s, e - 1);
      BlankIsSkipped(d, i + 1, s);
      ElementsAreAccepted(d, s, e - 1);
    }
  }

  lemma {:induction false} ElementsAreAccepted(d: Bytes, i: nat, e: nat)
    requires i <= e < |d| && Elements(d, i, e) && d[e] == CLOSE_ARRAY
    ensures ElementsEnd(d, i) == Some(e + 1)
    decreases e - i, 2
  {
    hide SkipWs, ValueEnd, ElementsEnd, Elements, IsValue, Blank, Goes, NumberStops, IsSpace;
    ElementsTurn(d, i);
    var v := ElementsSplit(d, i, e);
    var last, c, s := GoesSplit(d, i, v, e, false);
    ValueStops(d, v, c);
    JsonIsAccepted(d, i, v);
    BlankIsSkipped(d, v, c);
    if !last {
      ElementsStart(d, s, e);
      BlankIsSkipped(d, c + 1, s);
      ElementsAreAccepted(d, s, e);
    }
  }

  lemma ElementsSplit(d: Bytes, i: nat, e: nat) returns (v: nat)
    requires i <= e <= |d| && Elements(d, i, e)
    ensures i < v <= e && IsValue(d, i, v) && Goes(d, i, v, e, false)
  {
    hide IsValue, Goes;
    v :| i < v <= e && IsValue(d, i, v) && Goes(d, i, v, e, false);
  }

  lemma GoesSplit(d: Bytes, i: nat, v: nat, e: nat, members: bool) returns (last: bool, c: nat, s: nat)
    requires i < v <= e < |d| && Goes(d, i, v, e, members)
    ensures v <= c <= e && Blank(d, v, c)
    ensures last ==> c == e
    ensures !last ==> c < s <= e && d[c] == 0x2C && Blank(d, c + 1, s) && (if members then Members(d, s, e) else Elements(d, s, e))
  {
    hide Members, Elements;
    last, c, s := Blank(d, v, e), e, e;
    if !last {
      c, s :| && v <= c < s <= e && Blank(d, v, c) && d[c] == 0x2C && Blank(d, c + 1, s)
              && (if members then Members(d, s, e) else Elements(d, s, e));
    }
  }

  /** After white space and a comma or a bracket no number goes on. */
  lemma ValueStops(d: Bytes, v: nat, c: nat)
    requires v <= c < |d| && Blank(d, v, c) && (d[c] == COMMA || d[c] == CLOSE_ARRAY || d[c] == CLOSE_OBJECT)
    ensures NumberStops(d, v) && !IsSpace(d[c])
  {
    assert v < c ==> d[v] in {0x20, 0x09, 0x0A, 0x0D};
  }

  lemma {:induction false} ObjectIsAccepted(d: Bytes, i: nat, e: nat)
    requires i <= e <= |d| && IsObject(d, i, e)
    ensures ValueEnd(d, i) == Some(e)
    decreases e - i, 0
  {
    hide SkipWs, ValueEnd, MembersEnd, Members, Blank, Inside;
    BracketTurn(d, i);
    var empty, s := InsideSplit(d, i + 1, e - 1, true);
    if empty {
      BlankIsSkipped(d, i + 1, e - 1);
    } else {
      MembersStart(d, s, e - 1);
      BlankIsSkipped(d, i + 1, s);
      MembersAreAccepted(d, s, e - 1);
    }
  }

  lemma {:induction false} MembersAreAccepted(d: Bytes, i: nat, e: nat)
    requires i <= e < |d| && Members(d, i, e) && d[e] == CLOSE_OBJECT
    ensures MembersEnd(d, i) == Some(e + 1)
    decreases e - i, 2
  {
    hide SkipWs, ValueEnd, StringEnd, KeyEnd, MembersEnd, Members, IsValue, IsString, Blank, Goes, NumberStops, IsSpace;
    MembersTurn(d, i);
    var k, c, s, v := MembersSplit(d, i, e);
    StringsAgree(d, i, k);
    ColonIsNoSpace(d, c);
    BlankIsSkipped(d, k, c);
    ValueStarts(d, s, v);
    BlankIsSkipped(d, c + 1, s);
    KeyIsFound(d, i, k, c, s);
    var last, comma, more := GoesSplit(d, i, v, e, true);
    ValueStops(d, v, comma);
    JsonIsAccepted(d, s, v);
    BlankIsSkipped(d, v, comma);
    if !last {
      MembersStart(d, more, e);
      BlankIsSkipped(d, comma + 1, more);
      MembersAreAccepted(d, more, e);
    }
  }

  lemma ColonIsNoSpace(d: Bytes, c: nat)
    requires c < |d| && d[c] == 0x3A
    ensures !IsSpace(d[c])
  {}

  lemma MembersSplit(d: Bytes, i: nat, e: nat) returns (k: nat, c: nat, s: nat, v: nat)
    requires i <= e <= |d| && Members(d, i, e)
    ensures i < k <= c < s < v <= e && IsString(d, i, k) && Blank(d, k, c) && d[c] == 0x3A && Blank(d, c + 1, s)
    ensures IsValue(d, s, v) && Goes(d, i, v, e, true)
  {
    hide IsString, Blank, IsValue, Goes;
    k, c, s, v :| MemberParts(d, i, k, c, s, v, e);
  }

  lemma KeyIsFound(d: Bytes, i: nat, k: nat, c: nat, s: nat)
    requires i < k <= c < s <= |d| && StringEnd(d, i) == Some(k) && SkipWs(d, k) == c && d[c] == 0x3A && SkipWs(d, c + 1) == s
    ensures KeyEnd(d, i) == Some(s)
  {
    hide StringEnd, SkipWs;
  }

  /** The recogniser accepts exactly the values of the standard, wherever no number could go on. */
  lemma RecogniserIsExact(d: Bytes, i: nat, e: nat)
    requires i <= e <= |d| && NumberStops(d, e)
    ensures ValueEnd(d, i) == Some(e) <==> IsValue(d, i, e)
  {
    hide *;
    if ValueEnd(d, i) == Some(e) {
      ValueIsJson(d, i);
    }
    if IsValue(d, i, e) {
      JsonIsAccepted(d, i, e);
    }
  }
}
