/** Trade rows as the script sees them once the CSV has been loaded and
    parsed, and the per-trade signed cashflow (audit_script.py line 34). */
module Trades {

  /** Hour of day of a trade's execution time. */
  type Hour = h: int | 0 <= h < 24

  /** One executed transaction. `date` is the already-parsed calendar date
      as an ordered key, `value` the trade value in the smallest currency unit.
      `segment` is only read when the log has a Segment column. */
  datatype Trade = Trade(date: int, hour: Hour, side: string, value: int, segment: string)

  /** The loaded table: its rows, and whether the input had a Segment column. */
  datatype TradeLog = TradeLog(trades: seq<Trade>, hasSegment: bool)

  /** The characters Python's `str.strip()` removes (`str.isspace()`). */
  predicate IsSpace(c: char)
  {
    || c == ' '
    || ('\t' <= c <= '\r')
    || ('\U{1C}' <= c <= '\U{1F}')
    || c == '\U{85}' || c == '\U{A0}' || c == '\U{1680}'
    || ('\U{2000}' <= c <= '\U{200A}')
    || c == '\U{2028}' || c == '\U{2029}' || c == '\U{202F}' || c == '\U{205F}'
    || c == '\U{3000}'
  }

  predicate AllSpace(s: string)
  {
    forall i :: 0 <= i < |s| ==> IsSpace(s[i])
  }

  /** `s` without its leading whitespace. */
  function TrimStart(s: string): (r: string)
    ensures |r| <= |s| && r == s[|s| - |r|..]
    ensures AllSpace(s[..|s| - |r|])
    ensures |r| > 0 ==> !IsSpace(r[0])
  {
    if |s| > 0 && IsSpace(s[0]) then TrimStart(s[1..]) else s
  }

  /** `s` without its trailing whitespace. */
  function TrimEnd(s: string): (r: string)
    ensures |r| <= |s| && r == s[..|r|]
    ensures AllSpace(s[|r|..])
    ensures |r| > 0 ==> !IsSpace(r[|r| - 1])
  {
    if |s| > 0 && IsSpace(s[|s| - 1]) then TrimEnd(s[..|s| - 1]) else s
  }

  /** Python's `str.strip()`: the text between the leading and the trailing
      whitespace, which starts and ends with a non-space character. */
  function Trim(s: string): (r: string)
    ensures |r| <= |s|
    ensures exists a :: 0 <= a <= |s| - |r| && r == s[a..a + |r|] && AllSpace(s[..a]) && AllSpace(s[a + |r|..])
    ensures |r| > 0 ==> !IsSpace(r[0]) && !IsSpace(r[|r| - 1])
  {
    var t := TrimStart(s);
    var r := TrimEnd(t);
    var a := |s| - |t|;
    assert r == s[a..a + |r|];
    assert s[a + |r|..] == t[|r|..];
    r
  }

  /** Python's `str.upper()` on one character, as far as it matters here:
      `a`-`z` and the long s (U+017F, which upper-cases to `S`). */
  function UpperChar(c: char): char
  {
    if 'a' <= c <= 'z' then (c as int - 32) as char
    else if c == '\U{17F}' then 'S'
    else c
  }

  function Upper(s: string): (r: string)
    ensures |r| == |s|
    ensures forall i :: 0 <= i < |s| ==> r[i] == UpperChar(s[i])
  {
    if |s| == 0 then "" else [UpperChar(s[0])] + Upper(s[1..])
  }

  /** The side test of the cashflow rule: trimmed and upper-cased, the side reads SELL. */
  predicate IsSellSide(side: string)
  {
    Upper(Trim(side)) == "SELL"
  }

  /** Signed cashflow of a trade: proceeds of a sale are an inflow, anything
      else (a buy, or any other side text) is an outflow of the trade value. */
  function Cashflow(t: Trade): (c: int)
    ensures c == t.value || c == -t.value
    ensures c == t.value <==> IsSellSide(t.side) || t.value == 0
  {
    if IsSellSide(t.side) then t.value else -t.value
  }

  /** `w` spells SELL in any mix of letter cases. */
  predicate SpellsSell(w: string)
  {
    |w| == 4 && forall i :: 0 <= i < 4 ==> UpperChar(w[i]) == "SELL"[i]
  }

  /** The side test holds exactly when the stripped side spells SELL in some mix of cases. */
  lemma SellSideSpellsSell(side: string)
    ensures IsSellSide(side) <==> SpellsSell(Trim(side))
  {
    var t := Trim(side);
    if SpellsSell(t) {
      assert Upper(t) == "SELL";
    }
  }

  /** Trimming removes exactly surrounding whitespace. */
  lemma TrimPadded(pre: string, core: string, post: string)
    requires AllSpace(pre) && AllSpace(post)
    requires |core| > 0 && !IsSpace(core[0]) && !IsSpace(core[|core| - 1])
    ensures Trim(pre + core + post) == core
  {
    var rest := core + post;
    assert pre + core + post == pre + rest;
    assert rest[0] == core[0];
    TrimStartPadded(pre, rest);
    TrimEndPadded(core, post);
  }

  lemma {:induction false} TrimStartPadded(pre: string, rest: string)
    requires AllSpace(pre)
    requires |rest| > 0 && !IsSpace(rest[0])
    ensures TrimStart(pre + rest) == rest
  {
    if |pre| == 0 {
      assert pre + rest == rest;
    } else {
      assert (pre + rest)[1..] == pre[1..] + rest;
      TrimStartPadded(pre[1..], rest);
    }
  }

  lemma {:induction false} TrimEndPadded(rest: string, post: string)
    requires AllSpace(post)
    requires |rest| > 0 && !IsSpace(rest[|rest| - 1])
    ensures TrimEnd(rest + post) == rest
  {
    if |post| == 0 {
      assert rest + post == rest;
    } else {
      var n := |post|;
      assert (rest + post)[..|rest + post| - 1] == rest + post[..n - 1];
      TrimEndPadded(rest, post[..n - 1]);
    }
  }

  /** Any casing of SELL, with any surrounding whitespace, is a sale. */
  lemma PaddedSellIsSale(pre: string, w: string, post: string)
    requires AllSpace(pre) && AllSpace(post)
    requires SpellsSell(w)
    ensures IsSellSide(pre + w + post)
  {
    assert !IsSpace(w[0]) && !IsSpace(w[3]);
    TrimPadded(pre, w, post);
  }

  /** Conversely, a sale side is exactly a casing of SELL wrapped in whitespace. */
  lemma SaleIsPaddedSell(side: string)
    requires IsSellSide(side)
    ensures exists a, b :: 0 <= a <= b <= |side| && AllSpace(side[..a]) && AllSpace(side[b..])
                           && SpellsSell(side[a..b])
  {
    var s1 := TrimStart(side);
    var a := |side| - |s1|;
    var core := TrimEnd(s1);
    var b := a + |core|;
    assert side[a..b] == core;
    assert side[b..] == s1[|core|..];
    assert Upper(core) == "SELL";
  }

  /** A side with no character that upper-cases to S, such as BUY or HOLD,
      is treated as a purchase: the trade is an outflow. */
  lemma NoSIsOutflow(t: Trade)
    requires forall i :: 0 <= i < |t.side| ==> UpperChar(t.side[i]) != 'S'
    ensures Cashflow(t) == -t.value
  {
    var core := Trim(t.side);
    var s1 := TrimStart(t.side);
    assert core == s1[..|core|];
    if |core| > 0 {
      assert core[0] == t.side[|t.side| - |s1|];
      assert Upper(core)[0] != 'S';
    }
  }
}
