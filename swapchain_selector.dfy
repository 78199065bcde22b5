/**
 * SwapchainSelector (src/RHI/Intialization/SwapchainSelector.hpp): a builder
 * that collects preferred formats, color spaces and present modes, scores
 * the surface's formats by the positions of their matches in the
 * preference lists, and picks a present mode by first match.
 */
module SwapchainSelection {
  import opened Common
  import opened Vk

  datatype SwapchainError = NoSurfaceFormat | NoPresentMode

  const SCORE_BONUS_PER_MATCH: u32 := 1000
  const SCORE_DECREASE_PER_INDEX: u32 := 1

  /** What one match at preference position i adds, in uint32 arithmetic. */
  function MatchBonus(i: nat): u32
  {
    Wrap32(SCORE_BONUS_PER_MATCH - SCORE_DECREASE_PER_INDEX * i)
  }

  /** Sum, over the positions i where the preference list holds x, of 1000 - i (unwrapped). */
  function MatchScore(prefs: seq<nat>, x: nat): int
  {
    if prefs == [] then 0
    else MatchScore(prefs[..|prefs| - 1], x) + (if prefs[|prefs| - 1] == x then 1000 - (|prefs| - 1) else 0)
  }

  /** A format's score: its format matches plus its color space matches, modulo 2^32. */
  function FormatScore(formats: seq<nat>, colorSpaces: seq<nat>, f: SurfaceFormat): u32
  {
    Wrap32(MatchScore(formats, f.format) + MatchScore(colorSpaces, f.colorSpace))
  }

  predicate IsBestFormat(formats: seq<nat>, colorSpaces: seq<nat>, available: seq<SurfaceFormat>, f: SurfaceFormat)
  {
    && f in available
    && forall g :: g in available ==> FormatScore(formats, colorSpaces, g) <= FormatScore(formats, colorSpaces, f)
  }

  /** pickPresentationMode's choice: the first preferred mode that is available, else the first available. */
  function FirstPreferredAvailable(prefs: seq<nat>, available: seq<nat>): (m: nat)
    requires |available| > 0
    ensures m in available
    ensures (exists i :: 0 <= i < |prefs| && prefs[i] in available) ==>
      exists i :: 0 <= i < |prefs| && prefs[i] == m && forall j :: 0 <= j < i ==> prefs[j] !in available
    ensures (forall i :: 0 <= i < |prefs| ==> prefs[i] !in available) ==> m == available[0]
  {
    if prefs == [] then available[0]
    else if prefs[0] in available then prefs[0]
    else
      var m := FirstPreferredAvailable(prefs[1..], available);
      FirstPreferredPastMissing(prefs, available, m);
      m
  }

  /** A missing first preference passes the choice on to the rest of the list. */
  lemma FirstPreferredPastMissing(prefs: seq<nat>, available: seq<nat>, m: nat)
    requires |available| > 0 && prefs != [] && prefs[0] !in available && m in available
    requires (exists i :: 0 <= i < |prefs[1..]| && prefs[1..][i] in available) ==>
      exists i :: 0 <= i < |prefs[1..]| && prefs[1..][i] == m && forall j :: 0 <= j < i ==> prefs[1..][j] !in available
    requires (forall i :: 0 <= i < |prefs[1..]| ==> prefs[1..][i] !in available) ==> m == available[0]
    ensures (exists i :: 0 <= i < |prefs| && prefs[i] in available) ==>
      exists i :: 0 <= i < |prefs| && prefs[i] == m && forall j :: 0 <= j < i ==> prefs[j] !in available
    ensures (forall i :: 0 <= i < |prefs| ==> prefs[i] !in available) ==> m == available[0]
  {
    var rest := prefs[1..];
    if exists i :: 0 <= i < |prefs| && prefs[i] in available {
      var i :| 0 <= i < |prefs| && prefs[i] in available;
      assert rest[i - 1] in available;
      var k :| 0 <= k < |rest| && rest[k] == m && forall j :: 0 <= j < k ==> rest[j] !in available;
      assert prefs[k + 1] == m;
      assert forall j :: 1 <= j < k + 1 ==> prefs[j] == rest[j - 1];
    } else {
      assert forall i :: 0 <= i < |rest| ==> rest[i] == prefs[i + 1];
    }
  }

  /** The index of the first occurrence of x. */
  function IndexOf(s: seq<nat>, x: nat): (i: nat)
    requires x in s
    ensures i < |s| && s[i] == x && forall j :: 0 <= j < i ==> s[j] != x
  {
    if s[0] == x then 0 else 1 + IndexOf(s[1..], x)
  }

  predicate NoDuplicates(s: seq<nat>)
  {
    forall i, j :: 0 <= i < j < |s| ==> s[i] != s[j]
  }

  /** With no repeated preference, a match scores 1000 minus its position, and a miss scores 0. */
  lemma {:induction false} MatchScoreOfDistinct(prefs: seq<nat>, x: nat)
    requires NoDuplicates(prefs)
    ensures MatchScore(prefs, x) == if x in prefs then 1000 - IndexOf(prefs, x) else 0
    decreases |prefs|
  {
    if prefs != [] {
      var init := prefs[..|prefs| - 1];
      MatchScoreOfDistinct(init, x);
      if x in init {
        var i := IndexOf(init, x);
        assert prefs[i] == x;
        assert forall j :: 0 <= j < i ==> prefs[j] == init[j];
        assert IndexOf(prefs, x) == i;
      } else if x in prefs {
        assert prefs[|prefs| - 1] == x;
        assert forall j :: 0 <= j < |prefs| - 1 ==> prefs[j] == init[j];
        assert IndexOf(prefs, x) == |prefs| - 1;
      }
    }
  }

  /**
   * With at most 1000 distinct preferences of each kind, the pair of the
   * first preferred format and the first preferred color space, when the
   * surface offers it, is the only pair that can be picked.
   */
  lemma FirstPreferencesWin(formats: seq<nat>, colorSpaces: seq<nat>, available: seq<SurfaceFormat>, f: SurfaceFormat)
    requires 0 < |formats| <= 1000 && 0 < |colorSpaces| <= 1000
    requires NoDuplicates(formats) && NoDuplicates(colorSpaces)
    requires SurfaceFormat(formats[0], colorSpaces[0]) in available
    requires IsBestFormat(formats, colorSpaces, available, f)
    ensures f == SurfaceFormat(formats[0], colorSpaces[0])
  {
    var top := SurfaceFormat(formats[0], colorSpaces[0]);
    MatchScoreOfDistinct(formats, formats[0]);
    MatchScoreOfDistinct(colorSpaces, colorSpaces[0]);
    assert IndexOf(formats, formats[0]) == 0 && IndexOf(colorSpaces, colorSpaces[0]) == 0;
    assert FormatScore(formats, colorSpaces, top) == 2000;
    MatchScoreOfDistinct(formats, f.format);
    MatchScoreOfDistinct(colorSpaces, f.colorSpace);
  }

  class SwapchainSelector {
    var physicalDevice: Handle
    var surface: Handle
    var surfaceFormats: seq<SurfaceFormat>
    var preferableFormats: seq<nat>
    var preferableColorSpaces: seq<nat>
    var presentModes: seq<nat>
    var preferableModes: seq<nat>

    /** start: records the device and surface; the capability check always passes. */
    constructor Start(device: Handle, surf: Handle)
      ensures physicalDevice == device && surface == surf
      ensures surfaceFormats == [] && preferableFormats == [] && preferableColorSpaces == []
      ensures presentModes == [] && preferableModes == []
    {
      physicalDevice, surface := device, surf;
      surfaceFormats, preferableFormats, preferableColorSpaces := [], [], [];
      presentModes, preferableModes := [], [];
    }

    method AddPreferableFormat(format: nat)
      modifies this`preferableFormats
      ensures preferableFormats == old(preferableFormats) + [format]
    {
      preferableFormats := preferableFormats + [format];
    }

    method AddPreferableColorSpace(colorSpace: nat)
      modifies this`preferableColorSpaces
      ensures preferableColorSpaces == old(preferableColorSpaces) + [colorSpace]
    {
      preferableColorSpaces := preferableColorSpaces + [colorSpace];
    }

    method AddPreferableMode(mode: nat)
      modifies this`preferableModes
      ensures preferableModes == old(preferableModes) + [mode]
    {
      preferableModes := preferableModes + [mode];
    }

    /**
     * pickSurfaceFormat, with the surface's format list as a parameter:
     * throws when it is empty and otherwise returns a format with the
     * highest score (which one among equals the unstable sort leaves open).
     */
    method PickSurfaceFormat(queried: seq<SurfaceFormat>) returns (r: Result<SurfaceFormat, SwapchainError>)
      modifies this`surfaceFormats
      ensures surfaceFormats == queried
      ensures r.Err? <==> |queried| == 0
      ensures r.Ok? ==> IsBestFormat(preferableFormats, preferableColorSpaces, queried, r.value)
    {
      surfaceFormats := queried;
      if |queried| == 0 {
        return Err(NoSurfaceFormat);
      }
      var formatKeys := seq(|queried|, k requires 0 <= k < |queried| => queried[k].format);
      var colorSpaceKeys := seq(|queried|, k requires 0 <= k < |queried| => queried[k].colorSpace);
      var scores := seq(|queried|, k => 0);
      scores := ScoreAll(scores, formatKeys, preferableFormats);
      scores := ScoreAll(scores, colorSpaceKeys, preferableColorSpaces);
      forall k | 0 <= k < |queried|
        ensures scores[k] == FormatScore(preferableFormats, preferableColorSpaces, queried[k])
      {
        Wrap32AddLeft(MatchScore(preferableFormats, queried[k].format), MatchScore(preferableColorSpaces, queried[k].colorSpace));
      }
      var best := 0;
      var j := 1;
      while j < |queried|
        invariant 1 <= j <= |queried| && 0 <= best < j
        invariant forall k :: 0 <= k < j ==> scores[k] <= scores[best]
      {
        if scores[j] > scores[best] {
          best := j;
        }
        j := j + 1;
      }
      r := Ok(queried[best]);
    }

    /**
     * pickPresentationMode, with the surface's mode list as a parameter:
     * throws when it is empty, otherwise picks by first match.  `warned` is
     * the fallback warning's condition, which can never hold.
     */
    method PickPresentationMode(queried: seq<nat>) returns (r: Result<nat, SwapchainError>, warned: bool)
      modifies this`presentModes
      ensures presentModes == queried
      ensures r.Err? <==> |queried| == 0
      ensures r.Ok? ==> r.value == FirstPreferredAvailable(preferableModes, queried)
      ensures !warned
    {
      presentModes := queried;
      warned := false;
      if |queried| == 0 {
        return Err(NoPresentMode), false;
      }
      var i := 0;
      while i < |preferableModes|
        invariant 0 <= i <= |preferableModes|
        invariant forall j :: 0 <= j < i ==> preferableModes[j] !in queried
      {
        var k := 0;
        while k < |queried|
          invariant 0 <= k <= |queried|
          invariant forall j :: 0 <= j < k ==> queried[j] != preferableModes[i]
        {
          if preferableModes[i] == queried[k] {
            FirstMatchIsChoice(preferableModes, queried, i);
            return Ok(preferableModes[i]), false;
          }
          k := k + 1;
        }
        i := i + 1;
      }
      var picked := queried[0];
      warned := picked !in queried;
      r := Ok(picked);
    }
  }

  /** The first available preference, found by the nested loops, is the function's choice. */
  lemma {:induction false} FirstMatchIsChoice(prefs: seq<nat>, available: seq<nat>, i: nat)
    requires |available| > 0 && i < |prefs| && prefs[i] in available
    requires forall j :: 0 <= j < i ==> prefs[j] !in available
    ensures FirstPreferredAvailable(prefs, available) == prefs[i]
    decreases i
  {
    if i > 0 {
      FirstMatchIsChoice(prefs[1..], available, i - 1);
    }
  }

  /** One call of the lambda turns the score against prefs[..i] into the score against prefs[..i + 1]. */
  lemma ScoreByStep(previous: u32, base: int, key: nat, prefs: seq<nat>, i: nat)
    requires i < |prefs| && previous == Wrap32(base + MatchScore(prefs[..i], key))
    ensures (if key == prefs[i] then Wrap32(previous + MatchBonus(i)) else previous)
         == Wrap32(base + MatchScore(prefs[..i + 1], key))
  {
    assert prefs[..i + 1][..i] == prefs[..i];
    if key == prefs[i] {
      Wrap32Add(base + MatchScore(prefs[..i], key), 1000 - i);
    }
  }

  /** One of the two scoring loops: call the lambda for every preference, in order, with its position. */
  method ScoreAll(scores: seq<u32>, keys: seq<nat>, prefs: seq<nat>) returns (updated: seq<u32>)
    requires |keys| == |scores|
    ensures |updated| == |scores|
    ensures forall k :: 0 <= k < |scores| ==> updated[k] == Wrap32(scores[k] + MatchScore(prefs, keys[k]))
  {
    updated := scores;
    var i := 0;
    while i < |prefs|
      invariant 0 <= i <= |prefs| && |updated| == |scores|
      invariant forall k :: 0 <= k < |scores| ==> updated[k] == Wrap32(scores[k] + MatchScore(prefs[..i], keys[k]))
    {
      var before := updated;
      updated := ScoreBy(updated, keys, prefs[i], MatchBonus(i));
      forall k | 0 <= k < |scores|
        ensures updated[k] == Wrap32(scores[k] + MatchScore(prefs[..i + 1], keys[k]))
      {
        ScoreByStep(before[k], scores[k], keys[k], prefs, i);
      }
      i := i + 1;
    }
    assert prefs[..i] == prefs;
  }

  /** The body of the scoring lambdas: add `bonus`, modulo 2^32, to every entry whose key is `target`. */
  method ScoreBy(scores: seq<u32>, keys: seq<nat>, target: nat, bonus: u32) returns (updated: seq<u32>)
    requires |keys| == |scores|
    ensures |updated| == |scores|
    ensures forall k :: 0 <= k < |scores| ==>
      updated[k] == (if keys[k] == target then Wrap32(scores[k] + bonus) else scores[k])
  {
    updated := scores;
    var k := 0;
    while k < |scores|
      invariant 0 <= k <= |scores| && |updated| == |scores|
      invariant forall j :: 0 <= j < k ==> updated[j] == (if keys[j] == target then Wrap32(scores[j] + bonus) else scores[j])
      invariant forall j :: k <= j < |scores| ==> updated[j] == scores[j]
    {
      if keys[k] == target {
        updated := updated[k := Wrap32(updated[k] + bonus)];
      }
      k := k + 1;
    }
  }
}
