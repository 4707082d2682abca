/**
 * The runtime field of a watched record: `Number(runtime.split(" ").at(0))`,
 * the numeric value of the text before the first space ("148 min" gives 148).
 * `None` stands for the NaN that `Number` yields when that text is not a
 * decimal numeral.
 */
module Runtime {
  import opened Optional

  /** `s.split(" ").at(0)`: everything before the first space, or all of `s`. */
  function FirstToken(s: string): (t: string)
    ensures t <= s
    ensures ' ' !in t
    ensures t == s || s[|t|] == ' '
  {
    if s == [] || s[0] == ' ' then [] else [s[0]] + FirstToken(s[1..])
  }

  predicate IsDigit(c: char)
  {
    '0' <= c <= '9'
  }

  predicate AllDigits(t: string)
  {
    forall i :: 0 <= i < |t| ==> IsDigit(t[i])
  }

  /** The value of a decimal numeral, read most significant digit first. */
  function DigitsValue(t: string): nat
    requires AllDigits(t)
  {
    if t == [] then 0
    else DigitsValue(t[..|t| - 1]) * 10 + (t[|t| - 1] as int - '0' as int)
  }

  /**
   * `Number(token)` on the first token: a numeral gives its value, the empty
   * token gives 0 (as `Number("")` does), anything else is NaN (`None`).
   */
  function ParseRuntime(s: string): Option<nat>
  {
    var t := FirstToken(s);
    if AllDigits(t) then Some(DigitsValue(t)) else None
  }

  /** The decimal numeral of `n`, the form in which the catalog writes a runtime. */
  function Numeral(n: nat): (t: string)
    ensures |t| > 0 && AllDigits(t)
  {
    var d := ['0' + (n % 10) as char];
    if n < 10 then d else Numeral(n / 10) + d
  }

  /** Reading a numeral back gives the number it was written from. */
  lemma {:induction false} NumeralRoundTrip(n: nat)
    ensures DigitsValue(Numeral(n)) == n
  {
    var t := Numeral(n);
    if n >= 10 {
      NumeralRoundTrip(n / 10);
      assert t[..|t| - 1] == Numeral(n / 10);
    }
  }

  /** The first token of a space-free text followed by a space and anything is that text. */
  lemma FirstTokenOfWord(w: string, rest: string)
    requires ' ' !in w
    ensures FirstToken(w + " " + rest) == w
  {
    var s := w + " " + rest;
    assert s[|w|] == ' ';
    assert s[..|w|] == w;
  }

  /** "<n> <unit>" parses to `n`, whatever the unit text is. */
  lemma ParseRuntimeOfNumeral(n: nat, rest: string)
    ensures ParseRuntime(Numeral(n) + " " + rest) == Some(n)
  {
    var w := Numeral(n);
    assert forall c :: c in w ==> IsDigit(c);
    FirstTokenOfWord(w, rest);
    NumeralRoundTrip(n);
  }

  /** A typical catalog runtime: "148 min" is 148 minutes. */
  lemma ParseRuntimeExample()
    ensures ParseRuntime("148 min") == Some(148)
  {
    assert Numeral(148) == "148";
    assert "148 min" == Numeral(148) + " " + "min";
    ParseRuntimeOfNumeral(148, "min");
  }

  /** A first token that holds a non-digit is NaN. */
  lemma ParseRuntimeRejects(s: string, i: nat)
    requires i < |FirstToken(s)| && !IsDigit(FirstToken(s)[i])
    ensures ParseRuntime(s) == None
  {
  }
}
