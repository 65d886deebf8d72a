/** The shared settings record (contexts/SettingsContext.tsx): its defaults,
    the rule that accepts or rejects settings loaded from storage, and the
    `updateSettings` merge that resizes the target angles when the number of
    stimuli changes. */
module SettingsContext {
  import opened Wrappers
  import opened Draws

  datatype Settings = Settings(
    stimuliCount: int,
    anglesPerQuadrant: int,
    correctQuadrant: int,
    useCorrectQuadrant: bool,
    degreeVariance: real,
    targetAngles: seq<real>)

  /** `defaultSettings`. */
  const DefaultSettings := Settings(3, 1, 1, false, 7.5, [30.0, 60.0, 120.0])

  /** A `Partial<Settings>`: every key may be absent. */
  datatype Patch = Patch(
    stimuliCount: Option<int>,
    anglesPerQuadrant: Option<int>,
    correctQuadrant: Option<int>,
    useCorrectQuadrant: Option<bool>,
    degreeVariance: Option<real>,
    targetAngles: Option<seq<real>>)

  const EmptyPatch := Patch(None, None, None, None, None, None)

  /** `{ ...prev, ...patch }`: keys present in the patch win. */
  function Merge(prev: Settings, patch: Patch): Settings {
    Settings(
      patch.stimuliCount.GetOr(prev.stimuliCount),
      patch.anglesPerQuadrant.GetOr(prev.anglesPerQuadrant),
      patch.correctQuadrant.GetOr(prev.correctQuadrant),
      patch.useCorrectQuadrant.GetOr(prev.useCorrectQuadrant),
      patch.degreeVariance.GetOr(prev.degreeVariance),
      patch.targetAngles.GetOr(prev.targetAngles))
  }

  /** Whether entry `i` of the previous angles survives a resize: it exists
      and is truthy (non-zero). */
  predicate Kept(prev: seq<real>, i: int) {
    0 <= i < |prev| && prev[i] != 0.0
  }

  /** The number of entries in positions `i` to `j - 1` that do not
      survive, i.e. the number of draws the resize consumes between reaching
      entry `i` and reaching entry `j`. */
  function DrawsBetween(prev: seq<real>, i: nat, j: nat): (d: nat)
    decreases j - i
    ensures i <= j ==> d <= j - i
  {
    if i >= j then 0 else (if Kept(prev, i) then 0 else 1) + DrawsBetween(prev, i + 1, j)
  }

  /** Entries `i` to `n - 1` of `Array(n).fill(0).map((_, i) =>
      prev[i] || Math.floor(Math.random() * 36) * 10)`, where `k` draws have
      already been consumed. Each entry that is not kept consumes the next
      draw. */
  function ResizeFrom(prev: seq<real>, n: nat, i: nat, rand: Stream, k: nat): (r: seq<real>)
    requires i <= n
    decreases n - i
    ensures |r| == n - i
    ensures forall j :: i <= j < n && Kept(prev, j) ==> r[j - i] == prev[j]
    ensures forall j :: i <= j < n && !Kept(prev, j) ==>
      0.0 <= r[j - i] <= 350.0 && r[j - i] == r[j - i].Floor as real && r[j - i].Floor % 10 == 0
  {
    if i == n then []
    else if Kept(prev, i) then [prev[i]] + ResizeFrom(prev, n, i + 1, rand, k)
    else [FallbackAngle(rand(k))] + ResizeFrom(prev, n, i + 1, rand, k + 1)
  }

  /** The resized list of `n` angles. */
  function Resize(prev: seq<real>, n: nat, rand: Stream): (r: seq<real>)
    ensures |r| == n
  {
    ResizeFrom(prev, n, 0, rand, 0)
  }

  /** A dropped entry takes the fallback angle of exactly the draw that its
      position among the dropped entries selects. */
  lemma {:induction false} ResizeFromDraw(prev: seq<real>, n: nat, i: nat, rand: Stream, k: nat, j: nat)
    requires i <= j < n && !Kept(prev, j)
    decreases n - i
    ensures ResizeFrom(prev, n, i, rand, k)[j - i] == FallbackAngle(rand(k + DrawsBetween(prev, i, j)))
  {
    var r := ResizeFrom(prev, n, i, rand, k);
    if i == j {
      assert r == [FallbackAngle(rand(k))] + ResizeFrom(prev, n, i + 1, rand, k + 1);
    } else {
      var k' := if Kept(prev, i) then k else k + 1;
      var rest := ResizeFrom(prev, n, i + 1, rand, k');
      assert r == [r[0]] + rest;
      assert r[j - i] == rest[j - (i + 1)];
      assert k + DrawsBetween(prev, i, j) == k' + DrawsBetween(prev, i + 1, j);
      ResizeFromDraw(prev, n, i + 1, rand, k', j);
    }
  }

  /** Entry `j` of a resize is the previous entry when that is kept, and
      otherwise the fallback angle of the draw numbered by the dropped
      entries before it. */
  lemma ResizeEntry(prev: seq<real>, n: nat, rand: Stream, j: nat)
    requires j < n
    ensures Kept(prev, j) ==> Resize(prev, n, rand)[j] == prev[j]
    ensures !Kept(prev, j) ==> Resize(prev, n, rand)[j] == FallbackAngle(rand(DrawsBetween(prev, 0, j)))
  {
    if !Kept(prev, j) {
      ResizeFromDraw(prev, n, 0, rand, 0, j);
    }
  }

  /** Shrinking a list with no zero entries truncates it, whatever the
      draws. */
  lemma ResizeTruncates(prev: seq<real>, n: nat, rand: Stream)
    requires n <= |prev| && forall i :: 0 <= i < |prev| ==> prev[i] != 0.0
    ensures Resize(prev, n, rand) == prev[..n]
  {
  }

  /** `Array(n)` accepts exactly the lengths below 2^32 (a uint32). */
  const ArrayLengthLimit: int := 0x1_0000_0000

  /** `updateSettings`: the merge, then, when the patch carries a stimulus
      count different from the previous one, the target angles rebuilt from
      the previous list at the new length. `Array(n)` throws `RangeError` for
      a negative length and for one of 2^32 or more; the update is then lost
      (`None`). */
  function Update(prev: Settings, patch: Patch, rand: Stream): (r: Option<Settings>)
    ensures r.None? <==> patch.stimuliCount.Some? && patch.stimuliCount.value != prev.stimuliCount
                          && (patch.stimuliCount.value < 0 || patch.stimuliCount.value >= ArrayLengthLimit)
  {
    var merged := Merge(prev, patch);
    if patch.stimuliCount.Some? && patch.stimuliCount.value != prev.stimuliCount then
      var n := patch.stimuliCount.value;
      if n < 0 || n >= ArrayLengthLimit then None
      else Some(merged.(targetAngles := Resize(prev.targetAngles, n, rand)))
    else Some(merged)
  }

  /** Keys absent from the patch keep their previous values and keys present
      overwrite them (the target angles aside, see the resize lemmas). */
  lemma UpdateMerges(prev: Settings, patch: Patch, rand: Stream)
    requires Update(prev, patch, rand).Some?
    ensures var s := Update(prev, patch, rand).value;
      && (patch.stimuliCount.None? ==> s.stimuliCount == prev.stimuliCount)
      && (patch.stimuliCount.Some? ==> s.stimuliCount == patch.stimuliCount.value)
      && (patch.anglesPerQuadrant.None? ==> s.anglesPerQuadrant == prev.anglesPerQuadrant)
      && (patch.anglesPerQuadrant.Some? ==> s.anglesPerQuadrant == patch.anglesPerQuadrant.value)
      && (patch.correctQuadrant.None? ==> s.correctQuadrant == prev.correctQuadrant)
      && (patch.correctQuadrant.Some? ==> s.correctQuadrant == patch.correctQuadrant.value)
      && (patch.useCorrectQuadrant.None? ==> s.useCorrectQuadrant == prev.useCorrectQuadrant)
      && (patch.useCorrectQuadrant.Some? ==> s.useCorrectQuadrant == patch.useCorrectQuadrant.value)
      && (patch.degreeVariance.None? ==> s.degreeVariance == prev.degreeVariance)
      && (patch.degreeVariance.Some? ==> s.degreeVariance == patch.degreeVariance.value)
  {
  }

  /** A changed stimulus count resizes the target angles to the new count,
      keeping the previous non-zero entries and filling the rest with whole
      multiples of 10 in [0, 350], one draw each in order; target angles
      supplied in the same patch are discarded. */
  lemma UpdateResizes(prev: Settings, patch: Patch, rand: Stream)
    requires patch.stimuliCount.Some? && patch.stimuliCount.value != prev.stimuliCount
    requires 0 <= patch.stimuliCount.value < ArrayLengthLimit
    ensures Update(prev, patch, rand).Some?
    ensures var s := Update(prev, patch, rand).value;
      && |s.targetAngles| == patch.stimuliCount.value == s.stimuliCount
      && s.targetAngles == Update(prev, patch.(targetAngles := None), rand).value.targetAngles
      && (forall i :: 0 <= i < |s.targetAngles| && Kept(prev.targetAngles, i) ==>
            s.targetAngles[i] == prev.targetAngles[i])
      && (forall i :: 0 <= i < |s.targetAngles| && !Kept(prev.targetAngles, i) ==>
            && 0.0 <= s.targetAngles[i] <= 350.0
            && s.targetAngles[i] == s.targetAngles[i].Floor as real && s.targetAngles[i].Floor % 10 == 0
            && s.targetAngles[i] == FallbackAngle(rand(DrawsBetween(prev.targetAngles, 0, i))))
  {
    var s := Update(prev, patch, rand).value;
    forall i | 0 <= i < |s.targetAngles| && !Kept(prev.targetAngles, i)
      ensures s.targetAngles[i] == FallbackAngle(rand(DrawsBetween(prev.targetAngles, 0, i)))
    {
      ResizeEntry(prev.targetAngles, patch.stimuliCount.value, rand, i);
    }
  }

  /** With the stimulus count absent or unchanged the target angles are the
      patch's, or the previous ones, with no length fix-up. */
  lemma UpdateWithoutResize(prev: Settings, patch: Patch, rand: Stream)
    requires patch.stimuliCount.None? || patch.stimuliCount.value == prev.stimuliCount
    ensures Update(prev, patch, rand) == Some(Merge(prev, patch))
    ensures Update(prev, patch, rand).value.targetAngles == patch.targetAngles.GetOr(prev.targetAngles)
  {
  }

  /** A settings record whose angle list matches its stimulus count. */
  predicate Consistent(s: Settings) {
    s.stimuliCount >= 0 && |s.targetAngles| == s.stimuliCount
  }

  /** The update keeps the list length in step with the count, unless the
      patch itself brings a list of another length without changing the
      count. */
  lemma UpdateKeepsConsistent(prev: Settings, patch: Patch, rand: Stream)
    requires Consistent(prev) && Update(prev, patch, rand).Some?
    requires patch.targetAngles.Some? && (patch.stimuliCount.None? || patch.stimuliCount.value == prev.stimuliCount)
      ==> |patch.targetAngles.value| == prev.stimuliCount
    ensures Consistent(Update(prev, patch, rand).value)
  {
  }

  /** An empty patch changes nothing. */
  lemma UpdateEmpty(prev: Settings, rand: Stream)
    ensures Update(prev, EmptyPatch, rand) == Some(prev)
  {
  }

  /** What `localStorage` may hold under the settings key: nothing, text
      that is not JSON, or a parsed object. The object's fields are carried
      as a settings record, with whether `stimuliCount` was present at all and
      whether `targetAngles` was an array. */
  datatype Stored =
    | NoItem
    | Malformed
    | Parsed(value: Settings, hasStimuliCount: bool, targetAnglesIsArray: bool)

  /** The load validation: a truthy `stimuliCount` and an array of target
      angles. */
  predicate Acceptable(stored: Stored) {
    stored.Parsed? && stored.hasStimuliCount && stored.value.stimuliCount != 0 && stored.targetAnglesIsArray
  }

  /** The settings after the load effect: the stored object when it is
      acceptable, the defaults otherwise (including when parsing throws). */
  function Load(stored: Stored): (s: Settings)
    ensures Acceptable(stored) ==> s == stored.value
    ensures !Acceptable(stored) ==> s == DefaultSettings
  {
    if Acceptable(stored) then stored.value else DefaultSettings
  }

  /** Loaded settings never have a zero stimulus count. */
  lemma LoadedCountNonZero(stored: Stored)
    ensures Load(stored).stimuliCount != 0
  {
  }

  /** The defaults have one target angle per stimulus. */
  lemma DefaultsConsistent()
    ensures Consistent(DefaultSettings)
  {
  }

  /** The settings provider: the current settings, what `localStorage`
      holds under the settings key, and whether an update has thrown. A
      throw escapes the render with no error boundary around the provider,
      so the page is torn down and no later update happens. */
  class SettingsStore {
    var settings: Settings
    var saved: Stored
    var failed: bool

    /** Mount: the load effect reads the stored value, then the sync effect
        writes the resulting settings back. */
    constructor (stored: Stored)
      ensures settings == Load(stored)
      ensures saved == Parsed(settings, true, true)
      ensures !failed
    {
      settings := Load(stored);
      saved := Parsed(Load(stored), true, true);
      failed := false;
    }

    /** `updateSettings(patch)`, drawing from `rand`, on a page that is still
        up. When `Array(n)` throws, the updater never reaches `setItem`, so
        storage is left unchanged, and the page fails. */
    method UpdateSettings(patch: Patch, rand: Stream)
      requires !failed
      modifies this
      ensures Update(old(settings), patch, rand).Some? ==>
        && settings == Update(old(settings), patch, rand).value
        && saved == Parsed(settings, true, true)
        && !failed
      ensures Update(old(settings), patch, rand).None? ==>
        settings == old(settings) && saved == old(saved) && failed
    {
      var next := Update(settings, patch, rand);
      if next.Some? {
        settings := next.value;
        saved := Parsed(next.value, true, true);
      } else {
        failed := true;
      }
    }
  }
}
