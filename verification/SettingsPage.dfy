/** The input handlers of the settings page (app/settings/page.tsx): the
    degree-variance rounding, the per-entry target-angle edit and the inline
    clamp of its input, the cap on angles per quadrant, and the conversion of
    the edited angle texts on submit.

    A number read from text (`Number(...)`, `Number.parseFloat(...)`) is an
    `Option<real>`, with `None` for `NaN`. */
module SettingsPage {
  import opened Wrappers
  import opened Angles
  import opened SettingsContext
  import StimulusGenerator

  /** `Math.round`: halves round up, towards positive infinity. */
  function Round(x: real): (n: int)
    ensures x - 0.5 < n as real <= x + 0.5
  {
    (x + 0.5).Floor
  }

  /** `Math.max(7.5, Math.min(50, Math.round(v / 2.5) * 2.5))`; `NaN` passes
      through every step and is stored as it is. */
  function DegreeVariance(value: Option<real>): (r: Option<real>)
    ensures r.None? <==> value.None?
    ensures value.Some? && value.value <= 7.5 ==> r == Some(7.5)
    ensures value.Some? && value.value >= 50.0 ==> r == Some(50.0)
  {
    match value
    case None => None
    case Some(v) =>
      var stepped := Round(v / 2.5) as real * 2.5;
      var capped := if 50.0 < stepped then 50.0 else stepped;
      Some(if 7.5 < capped then capped else 7.5)
  }

  /** Whether `x` is a whole number of 2.5-degree steps. */
  predicate OnStep(x: real) {
    (x / 2.5).Floor as real * 2.5 == x
  }

  /** For numeric input the result lies in [7.5, 50] and on the 2.5 grid. */
  lemma DegreeVarianceInRange(v: real)
    ensures var r := DegreeVariance(Some(v)).value;
      7.5 <= r <= 50.0 && OnStep(r)
  {
    var m := Round(v / 2.5);
    var r := DegreeVariance(Some(v)).value;
    if m < 3 {
      assert r == 7.5 == 3 as real * 2.5;
    } else if m > 20 {
      assert r == 50.0 == 20 as real * 2.5;
    } else {
      assert r == m as real * 2.5;
    }
    assert (r / 2.5).Floor == (r / 2.5) as int;
  }

  /** In range, the result is the nearest grid point: within half a step,
      and a value exactly half-way between two grid points goes up. */
  lemma DegreeVarianceNearest(v: real)
    requires 7.5 <= v <= 50.0
    ensures var r := DegreeVariance(Some(v)).value;
      v - 1.25 < r <= v + 1.25
  {
    var m := Round(v / 2.5);
    assert 3 <= m <= 20;
    assert DegreeVariance(Some(v)).value == m as real * 2.5;
  }

  /** A value already in range and on the grid is kept, so the handler is
      idempotent. */
  lemma DegreeVarianceIdempotent(v: real)
    ensures DegreeVariance(DegreeVariance(Some(v))) == DegreeVariance(Some(v))
  {
    DegreeVarianceInRange(v);
    var r := DegreeVariance(Some(v)).value;
    DegreeVarianceFixes(r);
  }

  /** Grid points in [7.5, 50] are fixed points. */
  lemma DegreeVarianceFixes(r: real)
    requires 7.5 <= r <= 50.0 && OnStep(r)
    ensures DegreeVariance(Some(r)) == Some(r)
  {
    var m := (r / 2.5).Floor;
    assert m as real * 2.5 == r;
    assert r / 2.5 == m as real;
    assert Round(r / 2.5) == m;
  }

  /** An entry of the page's local list of angle texts: text that `Number`
      reads as a number, or text it reads as `NaN`. */
  datatype Entry = Numeric(value: real) | Text(text: string)

  /** `Math.min(179, Math.max(1, x))`. */
  function ClampAngle(x: real): (r: real)
    ensures 1.0 <= r <= 179.0
    ensures 1.0 <= x <= 179.0 ==> r == x
    ensures x < 1.0 ==> r == 1.0
    ensures x > 179.0 ==> r == 179.0
  {
    var low := if 1.0 < x then x else 1.0;
    if 179.0 < low then 179.0 else low
  }

  /** `handleTargetAngleChange(index, value)`: a copy of the list with entry
      `index` replaced by the clamped number, or by the text itself when it is
      not a number. */
  function TargetAngleChange(entries: seq<Entry>, index: nat, value: Entry): (r: seq<Entry>)
    requires index < |entries|
    ensures |r| == |entries|
    ensures forall i :: 0 <= i < |entries| && i != index ==> r[i] == entries[i]
    ensures value.Numeric? ==> r[index] == Numeric(ClampAngle(value.value))
    ensures value.Text? ==> r[index] == value
  {
    entries[index := match value
      case Numeric(v) => Numeric(ClampAngle(v))
      case Text(_) => value]
  }

  /** The input's `onChange`: `Math.min(179, Math.max(1, Number(text) || 1))`;
      `NaN` and 0 become 1. */
  function TargetInput(raw: Option<real>): (r: real)
    ensures 1.0 <= r <= 179.0
    ensures raw.Some? && 1.0 <= raw.value <= 179.0 ==> r == raw.value
    ensures raw.None? || raw.value == 0.0 ==> r == 1.0
  {
    var n := if raw.None? || raw.value == 0.0 then 1.0 else raw.value;
    ClampAngle(n)
  }

  /** Edits through the input leave a numeric entry in [1, 179] at `index`,
      the input's own value, so the handler's clamp changes nothing more. */
  lemma TargetInputEdit(entries: seq<Entry>, index: nat, raw: Option<real>)
    requires index < |entries|
    ensures var r := TargetAngleChange(entries, index, Numeric(TargetInput(raw)));
      r[index] == Numeric(TargetInput(raw)) && 1.0 <= r[index].value <= 179.0
  {
  }

  /** `Math.min(value, 4)` on the angles-per-quadrant input: capped above at
      4, with no lower bound. */
  function CapAnglesPerQuadrant(value: int): (r: int)
    ensures r <= 4
    ensures value <= 4 ==> r == value
    ensures value > 4 ==> r == 4
  {
    if value < 4 then value else 4
  }

  /** Nothing stops a zero or negative count from reaching the settings, and
      then a stimulus has the single option that `OptionCount` falls back to. */
  lemma CapKeepsNonPositive(value: int)
    requires value <= 0
    ensures CapAnglesPerQuadrant(value) == value
  {
  }

  /** Through the capped input, a count of -1 reaches the settings, and with
      the quadrant option on the relocation step then has no valid slot. */
  lemma CapAdmitsNegativeCount(prev: Settings, rand: Draws.Stream)
    requires prev.useCorrectQuadrant
    ensures var s := Update(prev, EmptyPatch.(anglesPerQuadrant := Some(CapAnglesPerQuadrant(-1))), rand);
      s.Some? && s.value.anglesPerQuadrant == -1 && !StimulusGenerator.RelocationDefined(s.value)
  {
  }

  /** The count the input's `min={1}` and `max={4}` announce: clamped to
      [1, 4] on both sides. */
  function CapAnglesPerQuadrantToRange(value: int): (r: int)
    ensures 1 <= r <= 4
    ensures 1 <= value <= 4 ==> r == value
    ensures value < 1 ==> r == 1
    ensures value > 4 ==> r == 4
  {
    if value < 1 then 1 else if value > 4 then 4 else value
  }

  /** With the two-sided clamp every count the input can produce leaves the
      relocation step well defined, whatever was typed. */
  lemma ClampedCountKeepsRelocationDefined(prev: Settings, value: int, rand: Draws.Stream)
    requires 1 <= prev.correctQuadrant <= 4
    ensures var s := Update(prev, EmptyPatch.(anglesPerQuadrant := Some(CapAnglesPerQuadrantToRange(value))), rand);
      s.Some? && 1 <= s.value.anglesPerQuadrant <= 4 && StimulusGenerator.RelocationDefined(s.value)
  {
  }

  // ---------------------------------------------------------------------
  // parseInt
  // ---------------------------------------------------------------------

  predicate IsDigit(c: char) {
    '0' <= c <= '9'
  }

  /** The white-space characters `parseInt` skips (the ASCII ones). */
  predicate IsSpace(c: char) {
    c == ' ' || c == '\t' || c == '\n' || c == '\r' || c == '\U{B}' || c == '\U{C}'
  }

  /** The text after leading white space. */
  function SkipSpaces(s: string): (r: string)
    ensures |r| <= |s| && r == s[|s| - |r|..]
    ensures |r| > 0 ==> !IsSpace(r[0])
    ensures forall i :: 0 <= i < |s| - |r| ==> IsSpace(s[i])
  {
    if |s| > 0 && IsSpace(s[0]) then
      var r := SkipSpaces(s[1..]);
      assert s[1..][|s| - 1 - |r|..] == s[|s| - |r|..];
      assert forall i :: 1 <= i < |s| - |r| ==> s[i] == s[1..][i - 1];
      r
    else s
  }

  /** The number of leading decimal digits. */
  function DigitPrefix(s: string): (n: nat)
    ensures n <= |s|
    ensures forall i :: 0 <= i < n ==> IsDigit(s[i])
    ensures n < |s| ==> !IsDigit(s[n])
  {
    if |s| > 0 && IsDigit(s[0]) then 1 + DigitPrefix(s[1..]) else 0
  }

  /** The value of a string of decimal digits, most significant first. */
  function DigitsValue(ds: string): nat
    requires forall i :: 0 <= i < |ds| ==> IsDigit(ds[i])
  {
    if |ds| == 0 then 0
    else
      var last := ds[|ds| - 1];
      assert IsDigit(last);
      DigitsValue(ds[..|ds| - 1]) * 10 + (last as int - '0' as int)
  }

  /** `Number.parseInt(text)` in base 10: leading white space, an optional
      sign, then the longest run of digits; `NaN` (`None`) without digits. */
  function ParseInt(s: string): Option<int> {
    ParseSigned(SkipSpaces(s))
  }

  /** The optional sign and the digit run, once white space is skipped. */
  function ParseSigned(t: string): Option<int> {
    var negative := |t| > 0 && t[0] == '-';
    var body := if |t| > 0 && (t[0] == '-' || t[0] == '+') then t[1..] else t;
    var n := DigitPrefix(body);
    if n == 0 then None
    else
      var magnitude: int := DigitsValue(body[..n]);
      Some(if negative then -magnitude else magnitude)
  }

  /** `parseInt` gives `NaN` exactly when no digit follows the leading white
      space and the optional sign. */
  lemma ParseIntNaN(s: string)
    ensures ParseInt(s).None? <==> var t := SkipSpaces(s);
      var body := if |t| > 0 && (t[0] == '-' || t[0] == '+') then t[1..] else t;
      DigitPrefix(body) == 0
  {
  }

  /** The decimal digits of a natural number. */
  function Decimal(n: nat): (ds: string)
    ensures |ds| > 0 && forall i :: 0 <= i < |ds| ==> IsDigit(ds[i])
  {
    var last := ('0' as int + n % 10) as char;
    if n < 10 then [last] else Decimal(n / 10) + [last]
  }

  /** Reading back the digits of `n` gives `n`. */
  lemma {:induction false} DecimalValue(n: nat)
    ensures DigitsValue(Decimal(n)) == n
  {
    var ds := Decimal(n);
    if n >= 10 {
      DecimalValue(n / 10);
      assert ds[..|ds| - 1] == Decimal(n / 10);
    }
  }

  /** The digits of a decimal run followed by a non-digit end where the run
      ends. */
  lemma {:induction false} DigitPrefixOfRun(ds: string, rest: string)
    requires forall i :: 0 <= i < |ds| ==> IsDigit(ds[i])
    requires |rest| == 0 || !IsDigit(rest[0])
    ensures DigitPrefix(ds + rest) == |ds|
  {
    if |ds| > 0 {
      assert (ds + rest)[1..] == ds[1..] + rest;
      DigitPrefixOfRun(ds[1..], rest);
    }
  }

  /** `parseInt` reads back a natural number written in decimal, whatever
      text that does not start with a digit follows it (a fraction, for
      instance). */
  lemma ParseIntDecimal(n: nat, rest: string)
    requires |rest| == 0 || !IsDigit(rest[0])
    ensures ParseInt(Decimal(n) + rest) == Some(n)
  {
    var ds := Decimal(n);
    var s := ds + rest;
    assert !IsSpace(s[0]) && s[0] != '-' && s[0] != '+';
    assert SkipSpaces(s) == s;
    assert DigitPrefix(s) == |ds| by {
      DigitPrefixOfRun(ds, rest);
    }
    assert s[..|ds|] == ds;
    assert DigitsValue(ds) == n by {
      DecimalValue(n);
    }
  }

  /** A minus sign in front of text that starts with a digit negates what
      `parseInt` reads. */
  lemma ParseIntMinus(s: string, v: int)
    requires |s| > 0 && IsDigit(s[0]) && ParseInt(s) == Some(v)
    ensures ParseInt("-" + s) == Some(-v)
  {
    assert ParseSigned(s) == Some(v) by {
      NoLeadingSpace(s);
    }
    assert ParseInt("-" + s) == ParseSigned("-" + s) by {
      NoLeadingSpace("-" + s);
    }
    ParseSignedMinus(s, v);
  }

  /** Text that starts with something other than white space is not
      trimmed. */
  lemma NoLeadingSpace(t: string)
    requires |t| > 0 && !IsSpace(t[0])
    ensures SkipSpaces(t) == t
  {
  }

  /** The sign step of `ParseSigned`: a leading minus negates the digit
      run's value. */
  lemma ParseSignedMinus(s: string, v: int)
    requires |s| > 0 && IsDigit(s[0]) && ParseSigned(s) == Some(v)
    ensures ParseSigned("-" + s) == Some(-v)
  {
    var m := "-" + s;
    assert m[0] == '-' && m[1..] == s;
  }

  /** The same for a negative integer, written with a leading minus sign. */
  lemma ParseIntNegativeDecimal(n: nat, rest: string)
    requires n > 0
    requires |rest| == 0 || !IsDigit(rest[0])
    ensures ParseInt("-" + (Decimal(n) + rest)) == Some(-(n as int))
  {
    var s := Decimal(n) + rest;
    assert IsDigit(s[0]) by {
      assert s[0] == Decimal(n)[0];
    }
    assert ParseInt(s) == Some(n) by {
      ParseIntDecimal(n, rest);
    }
    ParseIntMinus(s, n);
  }

  // ---------------------------------------------------------------------
  // Submit
  // ---------------------------------------------------------------------

  /** `Number.parseInt(entry) || 0` for one entry. A numeric entry is the
      text of a number in positional notation, which `parseInt` reads up to
      the decimal point. */
  function SubmitEntry(e: Entry): (r: int)
    ensures e.Numeric? && e.value >= 0.0 ==> r as real <= e.value < r as real + 1.0
    ensures e.Numeric? && e.value < 0.0 ==> r as real - 1.0 < e.value <= r as real
    ensures e.Text? && ParseInt(e.text).None? ==> r == 0
  {
    match e
    case Numeric(v) => Trunc(v)
    case Text(t) => ParseInt(t).GetOr(0)
  }

  /** The list `handleSubmit` sends: one integer per entry, in order. */
  function Submit(entries: seq<Entry>): (r: seq<int>)
    ensures |r| == |entries|
    ensures forall i :: 0 <= i < |entries| ==> r[i] == SubmitEntry(entries[i])
  {
    seq(|entries|, i requires 0 <= i < |entries| => SubmitEntry(entries[i]))
  }

  /** Unparsable text is submitted as 0. */
  lemma SubmitUnparsable(entries: seq<Entry>, i: nat)
    requires i < |entries| && entries[i].Text? && ParseInt(entries[i].text).None?
    ensures Submit(entries)[i] == 0
  {
  }

  /** Angles edited through the input are submitted as their whole part, in
      [1, 179]. */
  lemma SubmitEditedAngle(raw: Option<real>)
    ensures 1 <= SubmitEntry(Numeric(TargetInput(raw))) <= 179
  {
  }

  /** The patch `handleSubmit` applies. */
  function SubmitPatch(entries: seq<Entry>): Patch {
    EmptyPatch.(targetAngles := Some(seq(|entries|, i requires 0 <= i < |entries| => Submit(entries)[i] as real)))
  }

  /** Submitting replaces the target angles by the converted list and
      changes nothing else, with no resize. */
  lemma SubmitReplacesAngles(prev: Settings, entries: seq<Entry>, rand: Draws.Stream)
    ensures var r := Update(prev, SubmitPatch(entries), rand);
      && r.Some?
      && r.value.(targetAngles := prev.targetAngles) == prev
      && |r.value.targetAngles| == |entries|
      && forall i :: 0 <= i < |entries| ==> r.value.targetAngles[i] == SubmitEntry(entries[i]) as real
  {
    UpdateWithoutResize(prev, SubmitPatch(entries), rand);
    var submitted := Submit(entries);
    assert forall i :: 0 <= i < |entries| ==> submitted[i] == SubmitEntry(entries[i]);
  }
}
