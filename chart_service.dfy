/**
 * The checkable parts of the chart service (service/chart_service_impl.rs):
 * the y-axis range, the argument checks of `generate_line_chart` and the
 * thousands-separator formatter of the y labels. Drawing is left out.
 */
module ChartService {
  import opened Wrappers
  import opened Decimal
  import opened Text

  datatype ChartError = LengthMismatch(xLen: nat, yLen: nat) | EmptyData

  function SeqMin(values: seq<int>): (m: int)
    requires values != []
    ensures m in values && forall k :: 0 <= k < |values| ==> m <= values[k]
  {
    if |values| == 1 then values[0]
    else
      var rest := SeqMin(values[1..]);
      if values[0] <= rest then values[0] else rest
  }

  function SeqMax(values: seq<int>): (m: int)
    requires values != []
    ensures m in values && forall k :: 0 <= k < |values| ==> values[k] <= m
  {
    if |values| == 1 then values[0]
    else
      var rest := SeqMax(values[1..]);
      if values[0] >= rest then values[0] else rest
  }

  /**
   * `((max - min) as f64 * 0.1).max(1.0) as i64`, read as a tenth of the
   * spread, truncated, and at least 1.
   */
  function Padding(spread: int): (p: int)
    ensures p >= 1
    ensures spread >= 10 ==> p == spread / 10
    ensures spread < 10 ==> p == 1
  {
    if spread / 10 >= 1 then spread / 10 else 1
  }

  /** `calculate_y_range`. */
  function CalculateYRange(values: seq<int>): (r: (int, int))
    ensures values == [] ==> r == (0, 100)
    ensures r.0 >= 0
  {
    if values == [] then (0, 100)
    else
      var minVal, maxVal := SeqMin(values), SeqMax(values);
      var padding := Padding(maxVal - minVal);
      var yMin := if minVal - padding >= 0 then minVal - padding else 0;
      (yMin, maxVal + padding)
  }

  /**
   * The range covers the data: the top lies at least one above the largest
   * value and, for non-negative data, every value lies in [y_min, y_max).
   */
  lemma YRangeCovers(values: seq<int>)
    requires values != []
    ensures CalculateYRange(values).1 >= SeqMax(values) + 1
    ensures (forall k :: 0 <= k < |values| ==> values[k] >= 0) ==>
      forall k :: 0 <= k < |values| ==> CalculateYRange(values).0 <= values[k] < CalculateYRange(values).1
  {
  }

  /** The argument checks of `generate_line_chart`: lengths first, then emptiness. */
  function ValidateChartInput(xLabels: seq<string>, yData: seq<int>): (r: Result<(), ChartError>)
    ensures |xLabels| != |yData| ==> r == Err(LengthMismatch(|xLabels|, |yData|))
    ensures |xLabels| == |yData| == 0 ==> r == Err(EmptyData)
    ensures r.Ok? <==> |xLabels| == |yData| > 0
  {
    if |xLabels| != |yData| then Err(LengthMismatch(|xLabels|, |yData|))
    else if xLabels == [] then Err(EmptyData)
    else Ok(())
  }

  /** A mismatch is reported even when one side is empty. */
  lemma MismatchBeforeEmpty(yData: seq<int>)
    requires yData != []
    ensures ValidateChartInput([], yData) == Err(LengthMismatch(0, |yData|))
  {
  }

  /** The reference grouping: a comma before every third character from the right. */
  function Group(s: string): (g: string)
    ensures |s| <= |g|
    decreases |s|
  {
    if |s| <= 3 then s else Group(s[..|s| - 3]) + "," + s[|s| - 3..]
  }

  function Reverse(s: string): (r: string)
    ensures |r| == |s|
  {
    if s == [] then [] else Reverse(s[1..]) + [s[0]]
  }

  lemma {:induction false} ReverseAppend(a: string, b: string)
    ensures Reverse(a + b) == Reverse(b) + Reverse(a)
    decreases |a|
  {
    if a == [] {
      assert a + b == b;
    } else {
      ReverseAppend(a[1..], b);
      assert (a + b)[1..] == a[1..] + b;
    }
  }

  lemma {:induction false} ReverseReverse(s: string)
    ensures Reverse(Reverse(s)) == s
    decreases |s|
  {
    if s != [] {
      ReverseReverse(s[1..]);
      ReverseAppend(Reverse(s[1..]), [s[0]]);
      assert s == [s[0]] + s[1..];
    }
  }

  /**
   * Putting one more character in front: it joins the leading group, or
   * starts a new one when the leading group is full.
   */
  lemma {:induction false} GroupCons(c: char, t: string)
    ensures |t| > 0 && |t| % 3 == 0 ==> Group([c] + t) == [c] + "," + Group(t)
    ensures !(|t| > 0 && |t| % 3 == 0) ==> Group([c] + t) == [c] + Group(t)
    decreases |t|, 1
  {
    var s := [c] + t;
    if |t| > 3 {
      GroupConsLong(c, t);
    } else if |t| == 3 {
      assert s[..|s| - 3] == [c];
      assert s[|s| - 3..] == t;
      assert Group(s) == Group([c]) + "," + t;
    } else {
      assert Group(s) == s;
    }
  }

  /** `GroupCons` past the first group: the last three characters stay a group of their own. */
  lemma {:induction false} GroupConsLong(c: char, t: string)
    requires |t| > 3
    ensures |t| % 3 == 0 ==> Group([c] + t) == [c] + "," + Group(t)
    ensures |t| % 3 != 0 ==> Group([c] + t) == [c] + Group(t)
    decreases |t|, 0
  {
    var s := [c] + t;
    var p, q := t[..|t| - 3], t[|t| - 3..];
    assert s[..|s| - 3] == [c] + p && s[|s| - 3..] == q;
    assert |p| % 3 == |t| % 3;
    GroupCons(c, p);
    var head := if |t| % 3 == 0 then [c] + "," else [c];
    assert Group([c] + p) == head + Group(p);
    calc {
      Group(s);
      Group([c] + p) + "," + q;
      (head + Group(p)) + "," + q;
      { AppendAssoc(head, Group(p), "," + q); }
      head + (Group(p) + "," + q);
      head + Group(t);
    }
  }

  /** One step of the formatter's loop, on the reversed text it builds. */
  lemma ReversedGroupCons(c: char, t: string)
    ensures |t| > 0 && |t| % 3 == 0 ==> Reverse(Group([c] + t)) == Reverse(Group(t)) + [',', c]
    ensures !(|t| > 0 && |t| % 3 == 0) ==> Reverse(Group([c] + t)) == Reverse(Group(t)) + [c]
  {
    GroupCons(c, t);
    if |t| > 0 && |t| % 3 == 0 {
      ReverseAppend([c] + ",", Group(t));
      assert Reverse([c] + ",") == [',', c];
    } else {
      ReverseAppend([c], Group(t));
    }
  }

  /** The y-label formatter's loop over the characters of `s`, last to first. */
  method GroupDigits(s: string) returns (text: string)
    ensures text == Group(s)
  {
    var result: string := [];
    var count := 0;
    var k := 0;
    while k < |s|
      invariant 0 <= k <= |s|
      invariant result == Reverse(Group(s[|s| - k..]))
      invariant count == Counter(k)
    {
      var c := s[|s| - 1 - k];
      assert s[|s| - (k + 1)..] == [c] + s[|s| - k..];
      GroupDigitsStep(c, s[|s| - k..], result);
      CounterStep(k);
      result, count := PushDigit(result, count, c);
      k := k + 1;
    }
    assert s[|s| - k..] == s;
    ReverseReverse(Group(s));
    text := Reverse(result);
  }

  /** The body of the formatter's loop: a comma first when three characters are already in the group. */
  method PushDigit(result: string, count: int, c: char) returns (result': string, count': int)
    ensures count == 3 ==> result' == result + [',', c] && count' == 1
    ensures count != 3 ==> result' == result + [c] && count' == count + 1
  {
    result', count' := result, count;
    if count' == 3 {
      result' := result' + [','];
      count' := 0;
    }
    result' := result' + [c];
    count' := count' + 1;
  }

  /**
   * One iteration of `GroupDigits`: once a multiple of three characters is
   * taken, a comma goes before the next character.
   */
  lemma GroupDigitsStep(c: char, done: string, result: string)
    requires result == Reverse(Group(done))
    ensures |done| > 0 && |done| % 3 == 0 ==> result + [',', c] == Reverse(Group([c] + done))
    ensures !(|done| > 0 && |done| % 3 == 0) ==> result + [c] == Reverse(Group([c] + done))
  {
    ReversedGroupCons(c, done);
  }

  /** The formatter's counter after `k` characters: the size of the group being filled. */
  function Counter(k: nat): (count: int)
    ensures 0 <= count <= 3 && (k > 0 ==> count >= 1)
  {
    if k == 0 then 0 else (k - 1) % 3 + 1
  }

  /** The counter is full exactly after a positive multiple of three characters, then starts over at one. */
  lemma CounterStep(k: nat)
    ensures Counter(k) == 3 <==> k > 0 && k % 3 == 0
    ensures Counter(k + 1) == if Counter(k) == 3 then 1 else Counter(k) + 1
  {
    if k > 0 {
      var q, r := (k - 1) / 3, (k - 1) % 3;
      assert k == 3 * q + r + 1;
      if r == 2 {
        assert k == 3 * (q + 1);
        assert k % 3 == 0;
      } else {
        assert k == 3 * q + (r + 1) && 0 < r + 1 < 3;
        assert k % 3 == r + 1;
      }
    }
  }

  /** The y-label formatter: `y.to_string()` grouped by thousands. */
  method FormatYLabel(y: int) returns (text: string)
    ensures text == Group(IntToString(y))
  {
    text := GroupDigits(IntToString(y));
  }

  /** The text with its commas taken out. */
  function StripCommas(s: string): (r: string)
    ensures |r| <= |s|
  {
    if s == [] then [] else (if s[0] == ',' then [] else [s[0]]) + StripCommas(s[1..])
  }

  lemma {:induction false} StripCommasAppend(a: string, b: string)
    ensures StripCommas(a + b) == StripCommas(a) + StripCommas(b)
    decreases |a|
  {
    if a == [] {
      assert a + b == b;
    } else {
      StripCommasAppend(a[1..], b);
      var head := if a[0] == ',' then [] else [a[0]];
      assert (a + b)[0] == a[0];
      assert (a + b)[1..] == a[1..] + b;
      calc {
        StripCommas(a + b);
        head + StripCommas(a[1..] + b);
        head + (StripCommas(a[1..]) + StripCommas(b));
        (head + StripCommas(a[1..])) + StripCommas(b);
      }
    }
  }

  lemma {:induction false} StripCommasOfDigits(d: string)
    requires AllDigits(d)
    ensures StripCommas(d) == d
    decreases |d|
  {
    if d != [] {
      StripCommasOfDigits(d[1..]);
      assert d == [d[0]] + d[1..];
    }
  }

  /** Grouping only inserts commas: taking them out gives the digits back. */
  lemma {:induction false} GroupStrip(d: string)
    requires AllDigits(d)
    ensures StripCommas(Group(d)) == d
    decreases |d|
  {
    if |d| <= 3 {
      StripCommasOfDigits(d);
    } else {
      var p, q := d[..|d| - 3], d[|d| - 3..];
      assert AllDigits(p) && AllDigits(q);
      assert Group(d) == Group(p) + "," + q;
      GroupStrip(p);
      StripJoined(Group(p), p, q);
      assert d == p + q;
    }
  }

  /** Joining a grouped prefix and a group of digits with a comma: stripping gives the digits back. */
  lemma StripJoined(g: string, p: string, q: string)
    requires StripCommas(g) == p && AllDigits(q)
    ensures StripCommas(g + "," + q) == p + q
  {
    StripCommasOfDigits(q);
    StripCommasAppend(g + ",", q);
    StripCommasAppend(g, ",");
    assert StripCommas(",") == [];
    assert StripCommas(g + ",") == p;
  }

  /**
   * Commas sit exactly at every fourth position counted from the right, so
   * the digits are split into groups of three with a leading group of one to
   * three digits.
   */
  predicate WellGrouped(g: string) {
    && |g| % 4 != 0
    && forall k :: 0 <= k < |g| ==> (g[k] == ',' <==> (|g| - k) % 4 == 0)
  }

  lemma {:induction false} GroupWellGrouped(d: string)
    requires AllDigits(d) && d != []
    ensures WellGrouped(Group(d))
    decreases |d|
  {
    if |d| > 3 {
      var p, q := d[..|d| - 3], d[|d| - 3..];
      assert AllDigits(p) && AllDigits(q);
      assert Group(d) == Group(p) + "," + q;
      GroupWellGrouped(p);
      WellGroupedJoined(Group(p), q);
    }
  }

  /** A well-grouped prefix, a comma and three digits are well grouped. */
  lemma WellGroupedJoined(gp: string, q: string)
    requires WellGrouped(gp) && |q| == 3 && AllDigits(q)
    ensures WellGrouped(gp + "," + q)
  {
    var g := gp + "," + q;
    forall k | 0 <= k < |g| ensures (g[k] == ',' <==> (|g| - k) % 4 == 0) {
      if k < |gp| {
        assert g[k] == gp[k];
        assert (|g| - k) % 4 == (|gp| - k) % 4;
      } else if k > |gp| {
        assert g[k] == q[k - |gp| - 1];
      }
    }
  }

  /**
   * For a non-negative y, the label with its commas removed is y's decimal
   * digits, and those digits are grouped by three from the right.
   */
  lemma LabelOfNonNegative(y: int)
    requires y >= 0
    ensures StripCommas(Group(IntToString(y))) == NatToString(y)
    ensures ParseNat(StripCommas(Group(IntToString(y)))) == y
    ensures WellGrouped(Group(IntToString(y)))
  {
    GroupStrip(NatToString(y));
    ParseNatToString(y);
    GroupWellGrouped(NatToString(y));
  }

  /**
   * The sign counts as a digit: -123 is labelled "-,123". The y range never
   * goes below 0, so such a label is not drawn.
   */
  lemma NegativeLabel()
    ensures Group(IntToString(-123)) == "-,123"
  {
    assert NatToString(123) == "123" by {
      assert NatToString(1) == "1";
      assert NatToString(12) == NatToString(1) + "2";
    }
  }
}
