/** The stimulus generator of the test page (app/test/page.tsx): for each
    stimulus a target angle and a list of option angles grown from it by exact
    variance steps, a target-deduplication pass, a shuffle, and an optional
    swap that moves the target into the chosen quadrant's index range. */
module StimulusGenerator {
  import opened Wrappers
  import opened Angles
  import opened Draws
  import opened SettingsContext

  datatype Stimulus = Stimulus(targetAngle: real, options: seq<real>)

  // ---------------------------------------------------------------------
  // getPossibleAngles (defined in the source but never called)
  // ---------------------------------------------------------------------

  /** A candidate of `getPossibleAngles`: on the 10-degree grid of the band,
      not the target, and within the variance of the target. */
  predicate IsPossibleAngle(x: int, target: real, variance: real, c: Category) {
    && BandLow(c) <= x <= BandHigh(c)
    && (x - BandLow(c)) % 10 == 0
    && x as real != target
    && Abs(x as real - target) <= variance
  }

  /** `getPossibleAngles`: every candidate of the band, in ascending order. */
  method PossibleAngles(target: real, variance: real, c: Category) returns (r: seq<int>)
    ensures forall j :: 0 <= j < |r| ==> IsPossibleAngle(r[j], target, variance, c)
    ensures forall i, j :: 0 <= i < j < |r| ==> r[i] < r[j]
    ensures forall x :: IsPossibleAngle(x, target, variance, c) ==> x in r
  {
    var lo, hi := BandLow(c), BandHigh(c);
    r := [];
    var angle := lo;
    while angle <= hi
      invariant lo <= angle <= hi + 10
      invariant (angle - lo) % 10 == 0
      invariant forall j :: 0 <= j < |r| ==> IsPossibleAngle(r[j], target, variance, c) && r[j] < angle
      invariant forall i, j :: 0 <= i < j < |r| ==> r[i] < r[j]
      invariant forall x :: IsPossibleAngle(x, target, variance, c) && x < angle ==> x in r
    {
      ghost var r0 := r;
      if angle as real != target && Abs(angle as real - target) <= variance {
        r := r + [angle];
      }
      CoverNextGridPoint(r0, r, angle, target, variance, c);
      angle := angle + 10;
    }
  }

  /** Once the grid point `angle` has been considered, every candidate
      below the next grid point is listed. */
  lemma CoverNextGridPoint(r0: seq<int>, r: seq<int>, angle: int, target: real, variance: real, c: Category)
    requires (angle - BandLow(c)) % 10 == 0
    requires forall x :: IsPossibleAngle(x, target, variance, c) && x < angle ==> x in r0
    requires r == r0 || r == r0 + [angle]
    requires IsPossibleAngle(angle, target, variance, c) ==> r == r0 + [angle]
    ensures forall x :: IsPossibleAngle(x, target, variance, c) && x < angle + 10 ==> x in r
  {
    forall x | IsPossibleAngle(x, target, variance, c) && x < angle + 10
      ensures x in r
    {
      if x >= angle {
        NextGridPoint(x, angle, BandLow(c));
      } else {
        assert x in r0;
      }
    }
  }

  /** Two points of the same 10-degree grid less than 10 apart coincide. */
  lemma NextGridPoint(x: int, angle: int, lo: int)
    requires (angle - lo) % 10 == 0 && (x - lo) % 10 == 0
    requires angle <= x < angle + 10
    ensures x == angle
  {
    var q1, q2 := (angle - lo) / 10, (x - lo) / 10;
    assert angle - lo == 10 * q1;
    assert x - lo == 10 * q2;
  }

  // ---------------------------------------------------------------------
  // Growing the option list
  // ---------------------------------------------------------------------

  /** The number of entries the growth loop ends with: it starts from the
      target alone and stops once `anglesPerQuadrant * 4` is reached. */
  function OptionCount(anglesPerQuadrant: int): (n: nat)
    ensures n >= 1
    ensures anglesPerQuadrant >= 1 ==> n == anglesPerQuadrant * 4
    ensures anglesPerQuadrant < 1 ==> n == 1
  {
    if anglesPerQuadrant * 4 < 1 then 1 else anglesPerQuadrant * 4
  }

  /** One growth step: an exact variance step from `base`, normalised, then
      clamped into the category's band. */
  function Branch(base: real, direction: real, variance: real, c: Category): (r: real)
    ensures InBand(r, c)
  {
    ClampToBand(Normalize(base + direction * variance), c)
  }

  /** The draw cursor before growth step `j` (the step that appends entry `j`). */
  function StepCursor(k0: nat, j: nat): nat
    requires j >= 1
  {
    k0 + 2 * (j - 1)
  }

  /** The `while (options.length < totalAnglesNeeded)` loop. Each step picks a
      base among the entries so far and a direction, two draws per step. */
  method GrowOptions(target: real, c: Category, variance: real, anglesPerQuadrant: int, rand: Stream, k0: nat)
    returns (options: seq<real>, k: nat)
    ensures |options| == OptionCount(anglesPerQuadrant)
    ensures options[0] == target
    ensures forall j :: 1 <= j < |options| ==> InBand(options[j], c)
    ensures forall j :: 1 <= j < |options| ==>
      options[j] == Branch(options[Pick(rand(StepCursor(k0, j)), j)], Direction(rand(StepCursor(k0, j) + 1)), variance, c)
    ensures k == k0 + 2 * (|options| - 1)
  {
    var totalAnglesNeeded := anglesPerQuadrant * 4;
    options := [target];
    k := k0;
    while |options| < totalAnglesNeeded
      invariant 1 <= |options| <= OptionCount(anglesPerQuadrant)
      invariant options[0] == target
      invariant forall j :: 1 <= j < |options| ==> InBand(options[j], c)
      invariant forall j :: 1 <= j < |options| ==>
        options[j] == Branch(options[Pick(rand(StepCursor(k0, j)), j)], Direction(rand(StepCursor(k0, j) + 1)), variance, c)
      invariant k == k0 + 2 * (|options| - 1)
      decreases totalAnglesNeeded - |options|
    {
      var baseAngle := options[Pick(rand(k), |options|)];
      var direction := Direction(rand(k + 1));
      options := options + [Branch(baseAngle, direction, variance, c)];
      k := k + 2;
    }
  }

  /** A growth step from the target can give the target back: from 80
      (acute, band [0, 80]) a step of +10 reaches 90 and is clamped to 80. */
  lemma GrowthCanRepeatTarget()
    ensures CategoryOf(80.0) == Acute
    ensures Branch(80.0, 1.0, 10.0, Acute) == 80.0
  {
    NormalizeFixesRange(90.0);
    CategoryOfNormalized(80.0);
  }

  // ---------------------------------------------------------------------
  // The excess-target pass
  // ---------------------------------------------------------------------

  /** `findIndex(angle => angle === x)`: the first index holding `x`, or -1. */
  function FindIndex(s: seq<real>, x: real): (i: int)
    ensures -1 <= i < |s|
    ensures i >= 0 ==> s[i] == x && forall j :: 0 <= j < i ==> s[j] != x
    ensures i == -1 <==> x !in s
  {
    if s == [] then -1
    else if s[0] == x then 0
    else
      var i := FindIndex(s[1..], x);
      if i < 0 then -1 else i + 1
  }

  /** The replacement angle of the excess-target pass: a variance step from
      `base`; when that lands within one degree of the target, a variance step
      from the target instead; then clamped into the band. */
  function Replacement(base: real, direction: real, variance: real, target: real, c: Category): (r: real)
    ensures InBand(r, c)
    ensures Abs(Normalize(base + direction * variance) - target) >= 1.0 ==> r == Branch(base, direction, variance, c)
    ensures Abs(Normalize(base + direction * variance) - target) < 1.0 && (direction == 1.0 || direction == -1.0) ==>
      r == Branch(target, direction, variance, c)
  {
    var stepped := Normalize(base + direction * variance);
    if Abs(stepped - target) < 1.0 then
      var sign := if direction == 1.0 then 1.0 else -1.0;
      assert (direction == 1.0 || direction == -1.0) ==> variance * sign == direction * variance by {
        if direction == 1.0 || direction == -1.0 {
          SignedStep(variance, direction);
        }
      }
      ClampToBand(Normalize(target + variance * sign), c)
    else
      ClampToBand(stepped, c)
  }

  /** Multiplying by the sign the source derives from `direction` is
      multiplying by `direction` itself. */
  lemma SignedStep(variance: real, direction: real)
    requires direction == 1.0 || direction == -1.0
    ensures variance * (if direction == 1.0 then 1.0 else -1.0) == direction * variance
  {
  }

  /** The "exactly one correct angle" pass as written: for every extra
      occurrence of the target, find the first occurrence and, only when its
      index is positive, remove it and append a replacement. When the list
      starts with the target, which the growth loop guarantees, the first
      occurrence is index 0, the guard fails every time, and nothing changes. */
  method RemoveExcessTargets(options: seq<real>, target: real, c: Category, variance: real, rand: Stream, k0: nat)
    returns (result: seq<real>, k: nat)
    ensures |result| == |options|
    ensures forall j :: 0 <= j < |result| ==> result[j] in options || InBand(result[j], c)
    ensures k >= k0
    ensures |options| > 0 && options[0] == target ==> result == options && k == k0
  {
    result, k := options, k0;
    var correctCount := multiset(options)[target];
    if correctCount > 1 {
      var i := 0;
      while i < correctCount - 1
        invariant |result| == |options| && k >= k0
        invariant forall j :: 0 <= j < |result| ==> result[j] in options || InBand(result[j], c)
        invariant |options| > 0 && options[0] == target ==> result == options && k == k0
      {
        var index := FindIndex(result, target);
        if index > 0 {
          var kept := result[..index] + result[index + 1..];
          assert forall j :: 0 <= j < |kept| ==> kept[j] in result;
          var baseAngle := kept[Pick(rand(k), |kept|)];
          var direction := Direction(rand(k + 1));
          result := kept + [Replacement(baseAngle, direction, variance, target, c)];
          k := k + 2;
        }
        i := i + 1;
      }
    }
  }

  // ---------------------------------------------------------------------
  // Relocation into the correct quadrant
  // ---------------------------------------------------------------------

  function QuadrantStart(correctQuadrant: int, anglesPerQuadrant: int): int {
    (correctQuadrant - 1) * anglesPerQuadrant
  }

  function QuadrantEnd(correctQuadrant: int, anglesPerQuadrant: int): int {
    QuadrantStart(correctQuadrant, anglesPerQuadrant) + anglesPerQuadrant
  }

  /** `s` with the entries at `i` and `j` exchanged. */
  function Swap(s: seq<real>, i: nat, j: nat): (r: seq<real>)
    requires i < |s| && j < |s|
    ensures |r| == |s| && r[i] == s[j] && r[j] == s[i]
    ensures forall m :: 0 <= m < |s| && m != i && m != j ==> r[m] == s[m]
    ensures multiset(r) == multiset(s)
  {
    s[i := s[j]][j := s[i]]
  }

  /** The `useCorrectQuadrant` block: when the first occurrence of the target
      lies outside [start, start + anglesPerQuadrant), swap it with a slot of
      that range picked by one draw; otherwise leave the list alone. */
  method RelocateTarget(a: array<real>, target: real, anglesPerQuadrant: int, correctQuadrant: int, rand: Stream, k0: nat)
    returns (k: nat)
    requires anglesPerQuadrant >= 0 && 1 <= correctQuadrant <= 4
    requires correctQuadrant * anglesPerQuadrant <= a.Length
    requires target in a[..]
    modifies a
    ensures multiset(a[..]) == multiset(old(a[..]))
    ensures anglesPerQuadrant > 0 ==>
      exists j :: QuadrantStart(correctQuadrant, anglesPerQuadrant) <= j < QuadrantEnd(correctQuadrant, anglesPerQuadrant) && a[j] == target
    ensures var first := FindIndex(old(a[..]), target);
      QuadrantStart(correctQuadrant, anglesPerQuadrant) <= first < QuadrantEnd(correctQuadrant, anglesPerQuadrant) ==>
      a[..] == old(a[..]) && k == k0
    ensures var first := FindIndex(old(a[..]), target);
      !(QuadrantStart(correctQuadrant, anglesPerQuadrant) <= first < QuadrantEnd(correctQuadrant, anglesPerQuadrant)) ==>
      k == k0 + 1 &&
      a[..] == Swap(old(a[..]), first, QuadrantStart(correctQuadrant, anglesPerQuadrant) + Pick(rand(k0), anglesPerQuadrant))
  {
    k := k0;
    var targetQuadrantStart := QuadrantStart(correctQuadrant, anglesPerQuadrant);
    var targetQuadrantEnd := targetQuadrantStart + anglesPerQuadrant;
    var targetIndex := FindIndex(a[..], target);
    if targetIndex < targetQuadrantStart || targetIndex >= targetQuadrantEnd {
      var slot := targetQuadrantStart + Pick(rand(k), anglesPerQuadrant);
      k := k + 1;
      SwapEntries(a, targetIndex, slot);
      assert a[slot] == target;
    } else {
      assert a[targetIndex] == target;
    }
  }

  /** Exchanges `a[i]` and `a[j]` in place. */
  method SwapEntries(a: array<real>, i: nat, j: nat)
    requires i < a.Length && j < a.Length
    modifies a
    ensures a[..] == Swap(old(a[..]), i, j)
  {
    a[i], a[j] := a[j], a[i];
  }

  /** `options[k]` on a JavaScript array: `undefined` (`None`) outside
      `[0, |options|)`. */
  function EntryAt(options: seq<real>, k: int): Option<real> {
    if 0 <= k < |options| then Some(options[k]) else None
  }

  /** `a[k] = v` on a JavaScript array: a negative index sets a property that
      is not an entry, and an index at or past the end extends the array,
      leaving `undefined` holes before `k`. */
  function WriteAt(a: seq<Option<real>>, k: int, v: Option<real>): (r: seq<Option<real>>)
    ensures k < 0 ==> r == a
    ensures 0 <= k ==> |r| == if k < |a| then |a| else k + 1
    ensures forall m :: 0 <= m < |r| ==>
      r[m] == if m == k then v else if m < |a| then a[m] else None
  {
    if k < 0 then a
    else if k < |a| then a[k := v]
    else a + seq(k - |a|, _ => None) + [v]
  }

  /** The larger of two integers. */
  function Larger(a: int, b: int): (r: int)
    ensures r >= a && r >= b && (r == a || r == b)
  {
    if a < b then b else a
  }

  /** The destructuring swap `[o[i], o[j]] = [o[j], o[i]]` on a JavaScript
      array, for any two indices: both entries are read first, then `o[i]`
      and `o[j]` are written in that order. */
  function SwapAsWritten(options: seq<real>, i: int, j: int): (r: seq<Option<real>>)
    ensures |r| == Larger(|options|, Larger(i + 1, j + 1))
    ensures forall m :: 0 <= m < |r| ==>
      r[m] == if m == j then EntryAt(options, i) else if m == i then EntryAt(options, j) else EntryAt(options, m)
    ensures 0 <= i < |options| && 0 <= j < |options| ==>
      forall m :: 0 <= m < |r| ==> r[m] == Some(Swap(options, i, j)[m])
    ensures 0 <= i < |options| && !(0 <= j < |options|) ==> r[i] == None
    ensures 0 <= i < |options| <= j ==> r[j] == Some(options[i])
  {
    var lifted := seq(|options|, m requires 0 <= m < |options| => Some(options[m]));
    WriteAt(WriteAt(lifted, i, EntryAt(options, j)), j, EntryAt(options, i))
  }

  /** The `useCorrectQuadrant` block as written, for any count per quadrant:
      `Math.floor(Math.random() * quadrantSize)` is negative when the count
      is. */
  function RelocateAsWritten(options: seq<real>, target: real, anglesPerQuadrant: int, correctQuadrant: int, draw: Draw)
    : seq<Option<real>>
  {
    var start := QuadrantStart(correctQuadrant, anglesPerQuadrant);
    var targetIndex := FindIndex(options, target);
    if targetIndex < start || targetIndex >= start + anglesPerQuadrant then
      SwapAsWritten(options, targetIndex, start + (draw * anglesPerQuadrant as real).Floor)
    else
      seq(|options|, m requires 0 <= m < |options| => Some(options[m]))
  }

  /** With a correct quadrant of 5 the range starts at the end of four
      options: the swap writes the target past the end and leaves an
      `undefined` hole where it was. */
  lemma QuadrantPastEndExtends(draw: Draw)
    ensures RelocateAsWritten([30.0, 10.0, 20.0, 40.0], 30.0, 1, 5, draw)
      == [None, Some(10.0), Some(20.0), Some(40.0), Some(30.0)]
  {
    assert FindIndex([30.0, 10.0, 20.0, 40.0], 30.0) == 0;
    assert (draw * 1.0).Floor == 0;
  }

  /** With a count of -1 per quadrant the options are the target alone, the
      relocation swaps it with index -1, and the stimulus is left with a
      single `undefined` option: the target is gone. */
  lemma NegativeCountLosesTarget(target: real, draw: Draw)
    requires draw > 0.0
    ensures RelocateAsWritten([target], target, -1, 1, draw) == [None]
  {
    assert FindIndex([target], target) == 0;
    assert (draw * -1.0).Floor == -1;
  }

  // ---------------------------------------------------------------------
  // generateStimuli
  // ---------------------------------------------------------------------

  /** `targetAngles[index]` when it is present and truthy (not 0). */
  function ConfiguredTarget(targetAngles: seq<real>, index: nat): Option<real> {
    if index < |targetAngles| && targetAngles[index] != 0.0 then Some(targetAngles[index]) else None
  }

  /** `sort(() => Math.random() - 0.5)`: the comparator is inconsistent, so
      all the model keeps is that the result is some permutation. The first
      argument is the stimulus index, so each stimulus may be shuffled
      differently. */
  type Shuffle = (nat, seq<real>) -> seq<real>

  ghost predicate IsShuffle(shuffle: Shuffle) {
    forall i, s :: multiset(shuffle(i, s)) == multiset(s)
  }

  /** The options hold the target, and every other entry lies in the band of
      the target's category. */
  predicate OptionsAround(options: seq<real>, target: real, c: Category) {
    && target in options
    && forall x :: x in options ==> x == target || InBand(x, c)
  }

  /** A permutation keeps the length and `OptionsAround`. */
  lemma PermutationKeepsOptions(before: seq<real>, after: seq<real>, target: real, c: Category)
    requires multiset(after) == multiset(before)
    requires OptionsAround(before, target, c)
    ensures |after| == |before|
    ensures OptionsAround(after, target, c)
  {
    assert |multiset(after)| == |multiset(before)|;
    assert target in multiset(before);
    forall x | x in after ensures x in before {
      assert x in multiset(after);
    }
  }

  /** Some index of the chosen quadrant's range holds the target. */
  predicate TargetInQuadrant(options: seq<real>, target: real, correctQuadrant: int, anglesPerQuadrant: int) {
    exists j :: 0 <= j < |options| &&
      QuadrantStart(correctQuadrant, anglesPerQuadrant) <= j < QuadrantEnd(correctQuadrant, anglesPerQuadrant) &&
      options[j] == target
  }

  /** What every stimulus the generator returns satisfies. */
  predicate Conforms(s: Stimulus, settings: Settings, index: nat) {
    && 0.0 <= s.targetAngle < 360.0
    && (ConfiguredTarget(settings.targetAngles, index).Some? ==>
          s.targetAngle == Normalize(settings.targetAngles[index]))
    && (ConfiguredTarget(settings.targetAngles, index).None? ==>
          s.targetAngle <= 350.0 && s.targetAngle == s.targetAngle.Floor as real && s.targetAngle.Floor % 10 == 0)
    && |s.options| == OptionCount(settings.anglesPerQuadrant)
    && OptionsAround(s.options, s.targetAngle, CategoryOf(s.targetAngle))
    && (settings.useCorrectQuadrant && settings.anglesPerQuadrant > 0 ==>
          TargetInQuadrant(s.options, s.targetAngle, settings.correctQuadrant, settings.anglesPerQuadrant))
  }

  /** The settings the relocation step can work with: the quadrant selector
      offers 1..4, and a negative count per quadrant would index outside the
      list. */
  predicate RelocationDefined(settings: Settings) {
    settings.useCorrectQuadrant ==> settings.anglesPerQuadrant >= 0 && 1 <= settings.correctQuadrant <= 4
  }

  /** Copies the options into an array, relocates the target there in place
      and reads the array back. */
  method PlaceInQuadrant(options: seq<real>, target: real, c: Category, anglesPerQuadrant: int, correctQuadrant: int,
                         rand: Stream, k0: nat)
    returns (placed: seq<real>, k: nat)
    requires anglesPerQuadrant >= 0 && 1 <= correctQuadrant <= 4
    requires |options| == OptionCount(anglesPerQuadrant)
    requires OptionsAround(options, target, c)
    ensures |placed| == |options| && multiset(placed) == multiset(options)
    ensures OptionsAround(placed, target, c)
    ensures anglesPerQuadrant > 0 ==> TargetInQuadrant(placed, target, correctQuadrant, anglesPerQuadrant)
    ensures k >= k0
  {
    var a := new real[|options|](j requires 0 <= j < |options| => options[j]);
    assert a[..] == options;
    QuadrantFits(correctQuadrant, anglesPerQuadrant);
    k := RelocateTarget(a, target, anglesPerQuadrant, correctQuadrant, rand, k0);
    placed := a[..];
    PermutationKeepsOptions(options, placed, target, c);
  }

  /** The shuffle followed by the optional relocation into the correct
      quadrant. */
  method ArrangeOptions(options: seq<real>, target: real, c: Category, settings: Settings, index: nat,
                        rand: Stream, k0: nat, shuffle: Shuffle)
    returns (arranged: seq<real>, k: nat)
    requires IsShuffle(shuffle)
    requires RelocationDefined(settings)
    requires OptionsAround(options, target, c)
    requires |options| == OptionCount(settings.anglesPerQuadrant)
    ensures multiset(arranged) == multiset(options)
    ensures |arranged| == |options|
    ensures OptionsAround(arranged, target, c)
    ensures settings.useCorrectQuadrant && settings.anglesPerQuadrant > 0 ==>
      TargetInQuadrant(arranged, target, settings.correctQuadrant, settings.anglesPerQuadrant)
    ensures k >= k0
  {
    k := k0;
    arranged := shuffle(index, options);
    PermutationKeepsOptions(options, arranged, target, c);
    if settings.useCorrectQuadrant {
      arranged, k := PlaceInQuadrant(arranged, target, c, settings.anglesPerQuadrant, settings.correctQuadrant, rand, k);
    }
  }

  /** The chosen quadrant's index range ends within the option list. */
  lemma QuadrantFits(correctQuadrant: int, anglesPerQuadrant: int)
    requires anglesPerQuadrant >= 0 && 1 <= correctQuadrant <= 4
    ensures correctQuadrant * anglesPerQuadrant <= OptionCount(anglesPerQuadrant)
  {
  }

  /** `targetAngles[index] || fallback`, then `normalizeAngle`. */
  function ResolveTarget(targetAngles: seq<real>, index: nat, fallback: Draw): (t: real)
    ensures 0.0 <= t < 360.0
    ensures ConfiguredTarget(targetAngles, index).Some? ==> t == Normalize(targetAngles[index])
    ensures ConfiguredTarget(targetAngles, index).None? ==> t == FallbackAngle(fallback)
  {
    var configured := ConfiguredTarget(targetAngles, index);
    NormalizeFixesRange(FallbackAngle(fallback));
    Normalize(configured.GetOr(FallbackAngle(fallback)))
  }

  /** One iteration of `Array.from({ length: stimuliCount }, ...)`. The
      fallback target consumes a draw only when the configured one is absent
      or 0, as the short-circuiting `||` does. */
  method GenerateStimulus(settings: Settings, index: nat, rand: Stream, k0: nat, shuffle: Shuffle)
    returns (s: Stimulus, k: nat)
    requires IsShuffle(shuffle)
    requires RelocationDefined(settings)
    ensures Conforms(s, settings, index)
    ensures ConfiguredTarget(settings.targetAngles, index).None? ==> s.targetAngle == FallbackAngle(rand(k0))
    ensures k >= k0
  {
    k := k0;
    var targetAngle := ResolveTarget(settings.targetAngles, index, rand(k));
    if ConfiguredTarget(settings.targetAngles, index).None? {
      k := k + 1;
    }
    var targetCategory := CategoryOf(targetAngle);

    var options;
    options, k := GrowOptions(targetAngle, targetCategory, settings.degreeVariance, settings.anglesPerQuadrant, rand, k);
    options, k := RemoveExcessTargets(options, targetAngle, targetCategory, settings.degreeVariance, rand, k);
    assert OptionsAround(options, targetAngle, targetCategory);
    options, k := ArrangeOptions(options, targetAngle, targetCategory, settings, index, rand, k, shuffle);
    s := Stimulus(targetAngle, options);
  }

  /** `generateStimuli`: one stimulus per index below `stimuliCount` (none when
      the count is not positive), consuming the draws in order. */
  method GenerateStimuli(settings: Settings, rand: Stream, shuffle: Shuffle) returns (stimuli: seq<Stimulus>)
    requires IsShuffle(shuffle)
    requires RelocationDefined(settings)
    ensures |stimuli| == if settings.stimuliCount < 0 then 0 else settings.stimuliCount
    ensures forall i :: 0 <= i < |stimuli| ==> Conforms(stimuli[i], settings, i)
  {
    stimuli := [];
    var k := 0;
    var stimulusIndex := 0;
    while stimulusIndex < settings.stimuliCount
      invariant 0 <= stimulusIndex == |stimuli|
      invariant stimulusIndex <= if settings.stimuliCount < 0 then 0 else settings.stimuliCount
      invariant forall i :: 0 <= i < |stimuli| ==> Conforms(stimuli[i], settings, i)
    {
      var s;
      s, k := GenerateStimulus(settings, stimulusIndex, rand, k, shuffle);
      stimuli := stimuli + [s];
      stimulusIndex := stimulusIndex + 1;
    }
  }

  /** With the default settings the first stimulus targets 30 degrees and
      has four options, each the target or an acute angle in [0, 80]. */
  lemma DefaultFirstStimulus(s: Stimulus)
    requires Conforms(s, DefaultSettings, 0)
    ensures s.targetAngle == 30.0 && |s.options| == 4
    ensures forall x :: x in s.options ==> x == 30.0 || 0.0 <= x <= 80.0
  {
    NormalizeFixesRange(30.0);
    CategoryOfNormalized(30.0);
  }

  /** With one option per quadrant and the first quadrant chosen, the
      target is the first option. */
  lemma FirstQuadrantHoldsTarget(s: Stimulus)
    requires Conforms(s, Settings(1, 1, 1, true, 10.0, [30.0]), 0)
    ensures |s.options| == 4 && s.options[0] == s.targetAngle == 30.0
  {
    NormalizeFixesRange(30.0);
    var j :| 0 <= j < |s.options| && QuadrantStart(1, 1) <= j < QuadrantEnd(1, 1) && s.options[j] == s.targetAngle;
    assert j == 0;
  }
}
