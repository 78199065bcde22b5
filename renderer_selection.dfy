/**
 * The selection steps of InferusRenderer::Init
 * (src/Engine/InferusRenderer/InferusRenderer.cpp): the king-of-the-hill
 * physical device, the four queue requests scored family by family, the
 * queue create infos in first-appearance order, the surface format, the
 * present-mode tier list, the swapchain image count and its sharing mode.
 * Each loop of Init is a method proved against a function or a predicate.
 */
module RendererSelection {
  import opened Common
  import opened Vk
  import DeviceSelection
  import SwapchainSelection
  import VulkanContextModel

  /** The reasons Init returns FAIL during selection. */
  datatype InitError = NoValidPhysicalDevice | QueueCriteriaUnmet

  /** DEVICE_EXTENSIONS: swapchain, synchronization2, dynamic rendering and the two VMA extensions. */
  const DEVICE_EXTENSIONS: seq<string> :=
    ["VK_KHR_swapchain", "VK_KHR_synchronization2", "VK_KHR_dynamic_rendering",
     "VK_EXT_memory_budget", "VK_EXT_memory_priority"]

  // ---------------------------------------------------------------------
  // Physical device: king of the hill
  // ---------------------------------------------------------------------

  /**
   * Device k holds the hill: no device scores more, and every device before
   * it scores strictly less, so it is the first of the best.
   */
  predicate IsKingOfTheHill(devices: seq<DeviceSelection.PhysicalDevice>, required: seq<string>, k: nat)
  {
    k < |devices|
    && (forall j :: 0 <= j < |devices| ==>
          DeviceSelection.EvaluateDevice(devices[j], required) <= DeviceSelection.EvaluateDevice(devices[k], required))
    && (forall j :: 0 <= j < k ==>
          DeviceSelection.EvaluateDevice(devices[j], required) < DeviceSelection.EvaluateDevice(devices[k], required))
  }

  /**
   * The device loop of Init: each score is compared with a strict `>`
   * against the hill, which starts at -1; FAIL when the hill stays below 0.
   * The result is the index of the chosen device.
   */
  method PickKingOfTheHill(devices: seq<DeviceSelection.PhysicalDevice>, required: seq<string>)
    returns (r: Result<nat, InitError>)
    ensures r.Err? <==> forall j :: 0 <= j < |devices| ==> DeviceSelection.EvaluateDevice(devices[j], required) < 0
    ensures r.Err? ==> r.error == NoValidPhysicalDevice
    ensures r.Ok? ==> IsKingOfTheHill(devices, required, r.value)
    ensures r.Ok? ==> DeviceSelection.EvaluateDevice(devices[r.value], required) >= 0
  {
    var kingScore := -1;
    var king := 0;
    var i := 0;
    while i < |devices|
      invariant 0 <= i <= |devices|
      invariant kingScore >= -1
      invariant forall j :: 0 <= j < i ==> DeviceSelection.EvaluateDevice(devices[j], required) <= kingScore
      invariant kingScore >= 0 ==> king < i && DeviceSelection.EvaluateDevice(devices[king], required) == kingScore
      invariant kingScore >= 0 ==> forall j :: 0 <= j < king ==> DeviceSelection.EvaluateDevice(devices[j], required) < kingScore
    {
      var score := DeviceSelection.EvaluateDevice(devices[i], required);
      if score > kingScore {
        kingScore := score;
        king := i;
      }
      i := i + 1;
    }
    if kingScore < 0 {
      return Err(NoValidPhysicalDevice);
    }
    r := Ok(king);
  }

  /** A device lacking one of the required extensions never holds the hill. */
  lemma MissingExtensionNeverKing(devices: seq<DeviceSelection.PhysicalDevice>, k: nat)
    requires k < |devices|
    requires exists e :: 0 <= e < |DEVICE_EXTENSIONS| && DEVICE_EXTENSIONS[e] !in devices[k].extensions
    requires exists j :: 0 <= j < |devices| && DeviceSelection.EvaluateDevice(devices[j], DEVICE_EXTENSIONS) >= 0
    ensures !IsKingOfTheHill(devices, DEVICE_EXTENSIONS, k)
  {
    assert !DeviceSelection.AllFound(DEVICE_EXTENSIONS, devices[k].extensions);
  }

  // ---------------------------------------------------------------------
  // Queue requests
  // ---------------------------------------------------------------------

  /** One QueueRequest of Init: what the family must have, should avoid, and how it is scored. */
  datatype QueueRequest = QueueRequest(requiredFlags: Flags, avoidedFlags: Flags, needsPresent: bool, scoreUniqueness: bool)

  /** What Init reads of a queue family: its flags and the surface support the driver reports. */
  datatype FamilyProperties = FamilyProperties(queueFlags: Flags, presentSupport: bool)

  /** The request's QueueCtx->Index and LatestScore. */
  datatype Pick = Pick(index: u32, latestScore: int)

  const SCORE_PER_UNIQUENESS: int := 1000
  const SCORE_FOR_DESIRED_SUPPORT: int := 1000
  const SCORE_PER_AVOIDED_FLAG: int := 100

  /** QueueRequests[0..3]: Graphics, Present, Transfer, Compute. */
  const GRAPHICS_REQUEST: QueueRequest := QueueRequest(QUEUE_GRAPHICS, 0, false, true)
  const PRESENT_REQUEST: QueueRequest := QueueRequest(0, QUEUE_COMPUTE, true, false)
  const TRANSFER_REQUEST: QueueRequest := QueueRequest(QUEUE_TRANSFER, QUEUE_GRAPHICS | QUEUE_COMPUTE, false, true)
  const COMPUTE_REQUEST: QueueRequest := QueueRequest(QUEUE_COMPUTE, QUEUE_GRAPHICS | QUEUE_TRANSFER, false, true)
  const QUEUE_REQUESTS: seq<QueueRequest> := [GRAPHICS_REQUEST, PRESENT_REQUEST, TRANSFER_REQUEST, COMPUTE_REQUEST]

  /** Every request starts with LatestScore -1 and whatever index its context held. */
  function InitialPicks(indices: seq<u32>): (picks: seq<Pick>)
    ensures |picks| == |indices|
    ensures forall k :: 0 <= k < |picks| ==> picks[k].latestScore == -1 && picks[k].index == indices[k]
  {
    seq(|indices|, k requires 0 <= k < |indices| => Pick(indices[k], -1))
  }

  /** A family the request does not skip: it can present if asked to, and has every required flag. */
  predicate Qualifies(req: QueueRequest, fam: FamilyProperties)
  {
    (!req.needsPresent || fam.presentSupport) && HasAllFlags(fam.queueFlags, req.requiredFlags)
  }

  /** Every bit of `required` is set in `flags`. */
  predicate HasAllFlags(flags: Flags, required: Flags)
  {
    flags & required == required
  }

  /** No bit of `avoided` is set in `flags`. */
  predicate HasNoFlag(flags: Flags, avoided: Flags)
  {
    flags & avoided == 0
  }

  /** The part of a family's score that does not look at other picks. */
  function BaseScore(req: QueueRequest, fam: FamilyProperties): (s: int)
    ensures 0 <= s <= SCORE_FOR_DESIRED_SUPPORT + SCORE_PER_AVOIDED_FLAG
    ensures req.needsPresent ==> s >= SCORE_FOR_DESIRED_SUPPORT
  {
    (if req.needsPresent then SCORE_FOR_DESIRED_SUPPORT else 0)
    + (if HasNoFlag(fam.queueFlags, req.avoidedFlags) then SCORE_PER_AVOIDED_FLAG else 0)
  }

  /**
   * The Req2 loop from position k: every request in array order until the
   * first one still at LatestScore < 0, 1000 for each whose index differs
   * from the family.  As written (`skipSelf` false) the request `self` takes
   * part too, with its own provisional pick; with `skipSelf` it is passed over.
   */
  function Uniqueness(picks: seq<Pick>, self: nat, family: nat, k: nat, skipSelf: bool): (s: int)
    ensures s >= 0
    decreases |picks| - k
  {
    if k >= |picks| then 0
    else if skipSelf && k == self then Uniqueness(picks, self, family, k + 1, skipSelf)
    else if picks[k].latestScore < 0 then 0
    else (if family != picks[k].index as nat then SCORE_PER_UNIQUENESS else 0)
         + Uniqueness(picks, self, family, k + 1, skipSelf)
  }

  /** The score of a qualifying family for request `self` against the current picks. */
  function FamilyScore(reqs: seq<QueueRequest>, picks: seq<Pick>, self: nat, family: nat,
                       fam: FamilyProperties, skipSelf: bool): (s: int)
    requires self < |reqs|
    ensures s >= 0
  {
    BaseScore(reqs[self], fam)
    + (if reqs[self].scoreUniqueness then Uniqueness(picks, self, family, 0, skipSelf) else 0)
  }

  /**
   * The picks after request `self` has looked at families [0, n): skipped
   * families change nothing, and a pick is replaced only by a strictly
   * greater score.  Only the entry of `self` can change.
   */
  function ScanFamilies(reqs: seq<QueueRequest>, self: nat, fams: seq<FamilyProperties>, picks: seq<Pick>,
                        n: nat, skipSelf: bool): (r: seq<Pick>)
    requires self < |reqs| == |picks| && n <= |fams| < U32_MODULUS
    ensures |r| == |picks|
    ensures forall k :: 0 <= k < |picks| && k != self ==> r[k] == picks[k]
    decreases n
  {
    if n == 0 then picks
    else
      var p := ScanFamilies(reqs, self, fams, picks, n - 1, skipSelf);
      if !Qualifies(reqs[self], fams[n - 1]) then p
      else
        var s := FamilyScore(reqs, p, self, n - 1, fams[n - 1], skipSelf);
        if s > p[self].latestScore then p[self := Pick((n - 1) as u32, s)] else p
  }

  /** The picks after requests [0, m) have each scanned every family, in array order. */
  function ScanRequests(reqs: seq<QueueRequest>, fams: seq<FamilyProperties>, picks: seq<Pick>,
                        m: nat, skipSelf: bool): (r: seq<Pick>)
    requires m <= |reqs| == |picks| && |fams| < U32_MODULUS
    ensures |r| == |picks|
    ensures forall k :: m <= k < |picks| ==> r[k] == picks[k]
  {
    if m == 0 then picks
    else ScanFamilies(reqs, m - 1, fams, ScanRequests(reqs, fams, picks, m - 1, skipSelf), |fams|, skipSelf)
  }

  /** Some family in [0, n) passes the request's skips. */
  predicate SomeFamilyQualifies(req: QueueRequest, fams: seq<FamilyProperties>, n: nat)
    requires n <= |fams|
  {
    exists f :: 0 <= f < n && Qualifies(req, fams[f])
  }

  /**
   * Whatever the uniqueness term does, a request that starts unpicked ends
   * picked exactly when some family qualifies, and then on a qualifying one.
   */
  lemma {:induction false} ScanFamiliesPicksQualifying(reqs: seq<QueueRequest>, self: nat, fams: seq<FamilyProperties>,
                                                       picks: seq<Pick>, n: nat, skipSelf: bool)
    requires self < |reqs| == |picks| && n <= |fams| < U32_MODULUS
    requires picks[self].latestScore == -1
    ensures var r := ScanFamilies(reqs, self, fams, picks, n, skipSelf);
      (r[self].latestScore >= 0 <==> SomeFamilyQualifies(reqs[self], fams, n))
      && (r[self].latestScore < 0 ==> r[self] == picks[self])
      && (r[self].latestScore >= 0 ==> r[self].index as nat < n && Qualifies(reqs[self], fams[r[self].index]))
    decreases n
  {
    if n > 0 {
      ScanFamiliesPicksQualifying(reqs, self, fams, picks, n - 1, skipSelf);
      var p := ScanFamilies(reqs, self, fams, picks, n - 1, skipSelf);
      if Qualifies(reqs[self], fams[n - 1]) {
        assert FamilyScore(reqs, p, self, n - 1, fams[n - 1], skipSelf) >= 0;
      } else {
        if SomeFamilyQualifies(reqs[self], fams, n) {
          var f :| 0 <= f < n && Qualifies(reqs[self], fams[f]);
          assert f < n - 1;
        }
      }
    }
  }

  /**
   * After every request has scanned, request k is picked exactly when some
   * family qualifies for it, and then its family qualifies.
   */
  lemma {:induction false} ScanRequestsPicksQualifying(reqs: seq<QueueRequest>, fams: seq<FamilyProperties>,
                                                       indices: seq<u32>, m: nat, skipSelf: bool)
    requires m <= |reqs| == |indices| && |fams| < U32_MODULUS
    ensures var r := ScanRequests(reqs, fams, InitialPicks(indices), m, skipSelf);
      forall k :: 0 <= k < m ==>
        (r[k].latestScore >= 0 <==> SomeFamilyQualifies(reqs[k], fams, |fams|))
        && (r[k].latestScore >= 0 ==> r[k].index as nat < |fams| && Qualifies(reqs[k], fams[r[k].index]))
    decreases m
  {
    if m > 0 {
      ScanRequestsPicksQualifying(reqs, fams, indices, m - 1, skipSelf);
      var before := ScanRequests(reqs, fams, InitialPicks(indices), m - 1, skipSelf);
      ScanFamiliesPicksQualifying(reqs, m - 1, fams, before, |fams|, skipSelf);
    }
  }

  /** The Req2 loop of one family, with its early break. */
  method UniquenessBonus(picks: seq<Pick>, self: nat, family: nat) returns (bonus: int)
    ensures bonus == Uniqueness(picks, self, family, 0, false)
  {
    bonus := 0;
    var k := 0;
    while k < |picks|
      invariant 0 <= k <= |picks|
      invariant bonus + Uniqueness(picks, self, family, k, false) == Uniqueness(picks, self, family, 0, false)
    {
      if picks[k].latestScore < 0 {
        break;
      }
      if family != picks[k].index as nat {
        bonus := bonus + SCORE_PER_UNIQUENESS;
      }
      k := k + 1;
    }
  }

  /** One request's pass over every family, in index order. */
  method ScanRequest(reqs: seq<QueueRequest>, self: nat, fams: seq<FamilyProperties>, picks: seq<Pick>)
    returns (updated: seq<Pick>)
    requires self < |reqs| == |picks| && |fams| < U32_MODULUS
    ensures updated == ScanFamilies(reqs, self, fams, picks, |fams|, false)
  {
    var req := reqs[self];
    updated := picks;
    var f := 0;
    while f < |fams|
      invariant 0 <= f <= |fams|
      invariant updated == ScanFamilies(reqs, self, fams, picks, f, false)
    {
      var fam := fams[f];
      var score := 0;
      var presentOk := !req.needsPresent || fam.presentSupport;
      if presentOk && req.needsPresent {
        score := score + SCORE_FOR_DESIRED_SUPPORT;
      }
      var flagsOk := HasAllFlags(fam.queueFlags, req.requiredFlags);
      if presentOk && flagsOk {
        if HasNoFlag(fam.queueFlags, req.avoidedFlags) {
          score := score + SCORE_PER_AVOIDED_FLAG;
        }
        if req.scoreUniqueness {
          var bonus := UniquenessBonus(updated, self, f);
          score := score + bonus;
        }
        assert score == FamilyScore(reqs, updated, self, f, fam, false);
        if score > updated[self].latestScore {
          updated := updated[self := Pick(f as u32, score)];
        }
      }
      f := f + 1;
    }
  }

  /**
   * The queue loop of Init followed by its FAIL check: every request, in
   * array order, scans every family; Init fails when some request is left
   * at LatestScore < 0, which happens exactly when no family qualifies for it.
   */
  method SelectQueueFamilies(fams: seq<FamilyProperties>, indices: seq<u32>)
    returns (picks: seq<Pick>, r: Result<(), InitError>)
    requires |indices| == |QUEUE_REQUESTS| && |fams| < U32_MODULUS
    ensures picks == ScanRequests(QUEUE_REQUESTS, fams, InitialPicks(indices), |QUEUE_REQUESTS|, false)
    ensures r.Err? ==> r.error == QueueCriteriaUnmet
    ensures r.Err? <==> exists k :: 0 <= k < |QUEUE_REQUESTS| && !SomeFamilyQualifies(QUEUE_REQUESTS[k], fams, |fams|)
    ensures r.Ok? ==> forall k :: 0 <= k < |QUEUE_REQUESTS| ==>
      picks[k].index as nat < |fams| && Qualifies(QUEUE_REQUESTS[k], fams[picks[k].index])
  {
    var reqs := QUEUE_REQUESTS;
    picks := InitialPicks(indices);
    var m := 0;
    while m < |reqs|
      invariant 0 <= m <= |reqs| && |picks| == |reqs|
      invariant picks == ScanRequests(reqs, fams, InitialPicks(indices), m, false)
    {
      picks := ScanRequest(reqs, m, fams, picks);
      m := m + 1;
    }
    ScanRequestsPicksQualifying(reqs, fams, indices, |reqs|, false);
    var k := 0;
    while k < |picks|
      invariant 0 <= k <= |picks|
      invariant forall j :: 0 <= j < k ==> picks[j].latestScore >= 0
    {
      if picks[k].latestScore < 0 {
        return picks, Err(QueueCriteriaUnmet);
      }
      k := k + 1;
    }
    r := Ok(());
  }

  // ---------------------------------------------------------------------
  // The self-comparison in the uniqueness loop
  // ---------------------------------------------------------------------

  /**
   * Family k is the first best for request `self` under the score that
   * ignores the request's own pick: it qualifies, scores `latest`, nothing
   * qualifying scores more, and every earlier qualifying family scores less.
   */
  predicate IsFirstBest(reqs: seq<QueueRequest>, fams: seq<FamilyProperties>, picks: seq<Pick>,
                        self: nat, n: nat, k: nat, latest: int)
    requires self < |reqs| && n <= |fams|
  {
    k < n && Qualifies(reqs[self], fams[k]) && latest == FamilyScore(reqs, picks, self, k, fams[k], true)
    && (forall g :: 0 <= g < n && Qualifies(reqs[self], fams[g]) ==> FamilyScore(reqs, picks, self, g, fams[g], true) <= latest)
    && (forall g :: 0 <= g < k && Qualifies(reqs[self], fams[g]) ==> FamilyScore(reqs, picks, self, g, fams[g], true) < latest)
  }

  /** With the request passed over, its uniqueness term reads only the other requests' picks. */
  lemma {:induction false} UniquenessIgnoresSelf(p: seq<Pick>, q: seq<Pick>, self: nat, family: nat, k: nat)
    requires |p| == |q| && forall j :: 0 <= j < |p| && j != self ==> p[j] == q[j]
    ensures Uniqueness(p, self, family, k, true) == Uniqueness(q, self, family, k, true)
    decreases |p| - k
  {
    if k < |p| {
      UniquenessIgnoresSelf(p, q, self, family, k + 1);
    }
  }

  /** A family that does not qualify leaves the first best as it was. */
  lemma FirstBestPastSkipped(reqs: seq<QueueRequest>, fams: seq<FamilyProperties>, picks: seq<Pick>,
                             self: nat, n: nat, k: nat, latest: int)
    requires self < |reqs| && 0 < n <= |fams|
    requires IsFirstBest(reqs, fams, picks, self, n - 1, k, latest) && !Qualifies(reqs[self], fams[n - 1])
    ensures IsFirstBest(reqs, fams, picks, self, n, k, latest)
  {
  }

  /** A qualifying family that scores no more than the first best leaves it as it was. */
  lemma FirstBestPastLower(reqs: seq<QueueRequest>, fams: seq<FamilyProperties>, picks: seq<Pick>,
                           self: nat, n: nat, k: nat, latest: int)
    requires self < |reqs| && 0 < n <= |fams|
    requires IsFirstBest(reqs, fams, picks, self, n - 1, k, latest) && Qualifies(reqs[self], fams[n - 1])
    requires FamilyScore(reqs, picks, self, n - 1, fams[n - 1], true) <= latest
    ensures IsFirstBest(reqs, fams, picks, self, n, k, latest)
  {
  }

  /** A qualifying family that scores more than every earlier one becomes the first best. */
  lemma FirstBestAtNew(reqs: seq<QueueRequest>, fams: seq<FamilyProperties>, picks: seq<Pick>,
                       self: nat, n: nat, previous: int, s: int)
    requires self < |reqs| && 0 < n <= |fams|
    requires Qualifies(reqs[self], fams[n - 1]) && s == FamilyScore(reqs, picks, self, n - 1, fams[n - 1], true)
    requires previous < s
    requires forall g :: 0 <= g < n - 1 && Qualifies(reqs[self], fams[g]) ==> FamilyScore(reqs, picks, self, g, fams[g], true) <= previous
    ensures IsFirstBest(reqs, fams, picks, self, n, n - 1, s)
  {
  }

  /**
   * With the request itself skipped in the Req2 loop, one request's scan
   * picks the first family of the highest score, that score being fixed by
   * the other requests' picks before the scan.
   */
  lemma {:induction false} CorrectedScanPicksFirstBest(reqs: seq<QueueRequest>, self: nat, fams: seq<FamilyProperties>,
                                                       picks: seq<Pick>, n: nat)
    requires self < |reqs| == |picks| && n <= |fams| < U32_MODULUS
    requires picks[self].latestScore == -1
    ensures var r := ScanFamilies(reqs, self, fams, picks, n, true);
      r[self].latestScore >= 0 ==> IsFirstBest(reqs, fams, picks, self, n, r[self].index as nat, r[self].latestScore)
    ensures var r := ScanFamilies(reqs, self, fams, picks, n, true);
      r[self].latestScore < 0 ==> forall g :: 0 <= g < n ==> !Qualifies(reqs[self], fams[g])
    decreases n
  {
    if n > 0 {
      CorrectedScanPicksFirstBest(reqs, self, fams, picks, n - 1);
      CorrectedScanStep(reqs, self, fams, picks, n);
    }
  }

  /** One more family in the corrected scan keeps the first best. */
  lemma CorrectedScanStep(reqs: seq<QueueRequest>, self: nat, fams: seq<FamilyProperties>, picks: seq<Pick>, n: nat)
    requires self < |reqs| == |picks| && 0 < n <= |fams| < U32_MODULUS
    requires picks[self].latestScore == -1
    requires var p := ScanFamilies(reqs, self, fams, picks, n - 1, true);
      p[self].latestScore >= 0 ==> IsFirstBest(reqs, fams, picks, self, n - 1, p[self].index as nat, p[self].latestScore)
    requires var p := ScanFamilies(reqs, self, fams, picks, n - 1, true);
      p[self].latestScore < 0 ==> forall g :: 0 <= g < n - 1 ==> !Qualifies(reqs[self], fams[g])
    ensures var r := ScanFamilies(reqs, self, fams, picks, n, true);
      r[self].latestScore >= 0 ==> IsFirstBest(reqs, fams, picks, self, n, r[self].index as nat, r[self].latestScore)
    ensures var r := ScanFamilies(reqs, self, fams, picks, n, true);
      r[self].latestScore < 0 ==> forall g :: 0 <= g < n ==> !Qualifies(reqs[self], fams[g])
  {
    ScanFamiliesPicksQualifying(reqs, self, fams, picks, n - 1, true);
    var p := ScanFamilies(reqs, self, fams, picks, n - 1, true);
    var r := ScanFamilies(reqs, self, fams, picks, n, true);
    var fam := fams[n - 1];
    var best := p[self];
    if !Qualifies(reqs[self], fam) {
      assert r == p;
      if best.latestScore >= 0 {
        FirstBestPastSkipped(reqs, fams, picks, self, n, best.index as nat, best.latestScore);
      }
    } else {
      UniquenessIgnoresSelf(p, picks, self, n - 1, 0);
      var s := FamilyScore(reqs, picks, self, n - 1, fam, true);
      assert FamilyScore(reqs, p, self, n - 1, fam, true) == s;
      if s > best.latestScore {
        assert r[self] == Pick((n - 1) as u32, s);
        FirstBestAtNew(reqs, fams, picks, self, n, best.latestScore, s);
      } else {
        assert r == p;
        FirstBestPastLower(reqs, fams, picks, self, n, best.index as nat, best.latestScore);
      }
    }
  }

  /** Two families that have only GRAPHICS and cannot present. */
  const TWO_GRAPHICS_FAMILIES: seq<FamilyProperties> :=
    [FamilyProperties(QUEUE_GRAPHICS, false), FamilyProperties(QUEUE_GRAPHICS, false)]

  /**
   * As written, the graphics request compares the second family with its
   * own provisional pick of the first one, so the second scores 1100 and
   * wins although both score 100 against the other requests; skipping the
   * request itself keeps the first, lower-indexed family.
   */
  lemma SelfComparisonChangesPick()
    ensures ScanFamilies(QUEUE_REQUESTS, 0, TWO_GRAPHICS_FAMILIES, InitialPicks([0, 0, 0, 0]), 2, false)[0] == Pick(1, 1100)
    ensures ScanFamilies(QUEUE_REQUESTS, 0, TWO_GRAPHICS_FAMILIES, InitialPicks([0, 0, 0, 0]), 2, true)[0] == Pick(0, 100)
    ensures !IsFirstBest(QUEUE_REQUESTS, TWO_GRAPHICS_FAMILIES, InitialPicks([0, 0, 0, 0]), 0, 2, 1, 1100)
  {
    var fams := TWO_GRAPHICS_FAMILIES;
    var init := InitialPicks([0, 0, 0, 0]);
    assert init == [Pick(0, -1), Pick(0, -1), Pick(0, -1), Pick(0, -1)];
    assert Qualifies(GRAPHICS_REQUEST, fams[0]) && Qualifies(GRAPHICS_REQUEST, fams[1]);
    assert BaseScore(GRAPHICS_REQUEST, fams[0]) == 100 && BaseScore(GRAPHICS_REQUEST, fams[1]) == 100;
    // as written
    assert Uniqueness(init, 0, 0, 0, false) == 0;
    var p1 := init[0 := Pick(0, 100)];
    assert ScanFamilies(QUEUE_REQUESTS, 0, fams, init, 1, false) == p1;
    assert Uniqueness(p1, 0, 1, 1, false) == 0;
    assert Uniqueness(p1, 0, 1, 0, false) == 1000;
    // corrected
    assert Uniqueness(init, 0, 0, 1, true) == 0;
    assert Uniqueness(init, 0, 0, 0, true) == 0;
    assert ScanFamilies(QUEUE_REQUESTS, 0, fams, init, 1, true) == p1;
    assert Uniqueness(p1, 0, 1, 1, true) == 0;
    assert Uniqueness(p1, 0, 1, 0, true) == 0;
    assert Uniqueness(init, 0, 1, 1, true) == 0;
    assert Uniqueness(init, 0, 1, 0, true) == 0;
  }

  // ---------------------------------------------------------------------
  // Queue create infos
  // ---------------------------------------------------------------------

  /** No value occurs twice. */
  predicate NoRepeats(xs: seq<u32>)
  {
    forall i, j :: 0 <= i < j < |xs| ==> xs[i] != xs[j]
  }

  /** The family indices with every repeat dropped, in order of first appearance. */
  function FirstAppearances(xs: seq<u32>): (r: seq<u32>)
    ensures forall x :: x in r <==> x in xs
    ensures NoRepeats(r)
    ensures |r| <= |xs|
  {
    if xs == [] then []
    else
      var r := FirstAppearances(xs[..|xs| - 1]);
      assert forall x :: x in xs <==> x in xs[..|xs| - 1] || x == xs[|xs| - 1];
      if xs[|xs| - 1] in r then r else r + [xs[|xs| - 1]]
  }

  /** Distinct families are kept as they are, in the same order. */
  lemma {:induction false} FirstAppearancesOfDistinct(xs: seq<u32>)
    requires NoRepeats(xs)
    ensures FirstAppearances(xs) == xs
  {
    if xs != [] {
      var init := xs[..|xs| - 1];
      assert NoRepeats(init);
      FirstAppearancesOfDistinct(init);
      assert xs[|xs| - 1] !in init;
      assert init + [xs[|xs| - 1]] == xs;
    }
  }

  /** The first family asked for always heads the list. */
  lemma {:induction false} FirstAppearancesStartsWithFirst(xs: seq<u32>)
    requires |xs| > 0
    ensures |FirstAppearances(xs)| > 0 && FirstAppearances(xs)[0] == xs[0]
    decreases |xs|
  {
    if |xs| > 1 {
      FirstAppearancesStartsWithFirst(xs[..|xs| - 1]);
    }
  }

  /**
   * The QueueCreateInfos loop: for Graphics, Present, Transfer and Compute
   * in that order, a create info with one queue is appended unless one for
   * the family is already there.
   */
  method QueueCreateInfos(g: u32, p: u32, t: u32, c: u32) returns (infos: seq<VulkanContextModel.QueueCreateInfo>)
    ensures |infos| == |FirstAppearances([g, p, t, c])|
    ensures forall k :: 0 <= k < |infos| ==>
      infos[k] == VulkanContextModel.QueueCreateInfo(FirstAppearances([g, p, t, c])[k], 1)
  {
    infos := CreateInfosFor([g, p, t, c]);
  }

  /** The loop over the four indices, for any list of them. */
  method CreateInfosFor(all: seq<u32>) returns (infos: seq<VulkanContextModel.QueueCreateInfo>)
    ensures |infos| == |FirstAppearances(all)|
    ensures forall k :: 0 <= k < |infos| ==> infos[k] == VulkanContextModel.QueueCreateInfo(FirstAppearances(all)[k], 1)
  {
    infos := [];
    var i := 0;
    while i < |all|
      invariant 0 <= i <= |all|
      invariant |infos| == |FirstAppearances(all[..i])|
      invariant forall k :: 0 <= k < |infos| ==> infos[k] == VulkanContextModel.QueueCreateInfo(FirstAppearances(all[..i])[k], 1)
    {
      var isUnique := HasNoInfoFor(infos, all[i]);
      assert all[..i + 1][..i] == all[..i];
      if isUnique {
        infos := infos + [VulkanContextModel.QueueCreateInfo(all[i], 1)];
      }
      i := i + 1;
    }
    assert all[..i] == all;
  }

  /** The inner loop: no create info so far is for `family`. */
  method HasNoInfoFor(infos: seq<VulkanContextModel.QueueCreateInfo>, family: u32) returns (isUnique: bool)
    ensures isUnique <==> forall k :: 0 <= k < |infos| ==> infos[k].queueFamilyIndex != family
  {
    isUnique := true;
    var j := 0;
    while j < |infos|
      invariant 0 <= j <= |infos|
      invariant isUnique <==> forall k :: 0 <= k < j ==> infos[k].queueFamilyIndex != family
    {
      if family == infos[j].queueFamilyIndex {
        isUnique := false;
        break;
      }
      j := j + 1;
    }
  }

  // ---------------------------------------------------------------------
  // Surface format, present mode, image count, sharing mode
  // ---------------------------------------------------------------------

  /** The surface format Init asks for first. */
  const DESIRABLE_SURFACE_FORMAT: SurfaceFormat := SurfaceFormat(FORMAT_B8G8R8A8_SRGB, COLOR_SPACE_SRGB_NONLINEAR)

  /**
   * The surface-format loop: the desirable pair when the surface lists it,
   * otherwise the first listed format.  An empty list would be indexed at 0.
   */
  method PickSurfaceFormat(formats: seq<SurfaceFormat>) returns (picked: SurfaceFormat, desirable: bool)
    requires |formats| > 0
    ensures picked in formats
    ensures desirable <==> DESIRABLE_SURFACE_FORMAT in formats
    ensures desirable ==> picked == DESIRABLE_SURFACE_FORMAT
    ensures !desirable ==> picked == formats[0]
  {
    desirable := false;
    picked := formats[0];
    var i := 0;
    while i < |formats|
      invariant 0 <= i <= |formats|
      invariant forall j :: 0 <= j < i ==> formats[j] != DESIRABLE_SURFACE_FORMAT
    {
      if formats[i].format == DESIRABLE_SURFACE_FORMAT.format
         && formats[i].colorSpace == DESIRABLE_SURFACE_FORMAT.colorSpace {
        picked := formats[i];
        desirable := true;
        return;
      }
      i := i + 1;
    }
  }

  /** PresentModesTierList: mailbox, then FIFO, then immediate. */
  const PRESENT_MODES_TIER_LIST: seq<nat> := [PRESENT_MODE_MAILBOX, PRESENT_MODE_FIFO, PRESENT_MODE_IMMEDIATE]

  /**
   * The present-mode loops: the first tier the surface offers, otherwise
   * the first listed mode.  An empty list would be indexed at 0.
   */
  method PickPresentMode(modes: seq<nat>) returns (mode: nat)
    requires |modes| > 0
    ensures mode == SwapchainSelection.FirstPreferredAvailable(PRESENT_MODES_TIER_LIST, modes)
  {
    var tiers := PRESENT_MODES_TIER_LIST;
    var i := 0;
    while i < |tiers|
      invariant 0 <= i <= |tiers|
      invariant forall j :: 0 <= j < i ==> tiers[j] !in modes
    {
      var k := 0;
      while k < |modes|
        invariant 0 <= k <= |modes|
        invariant forall j :: 0 <= j < k ==> modes[j] != tiers[i]
      {
        if tiers[i] == modes[k] {
          SwapchainSelection.FirstMatchIsChoice(tiers, modes, i);
          return modes[k];
        }
        k := k + 1;
      }
      i := i + 1;
    }
    mode := modes[0];
  }

  /** Mailbox wins whenever offered; FIFO wins whenever offered without mailbox. */
  lemma TierListOrder(modes: seq<nat>)
    requires |modes| > 0
    ensures PRESENT_MODE_MAILBOX in modes ==>
      SwapchainSelection.FirstPreferredAvailable(PRESENT_MODES_TIER_LIST, modes) == PRESENT_MODE_MAILBOX
    ensures PRESENT_MODE_MAILBOX !in modes && PRESENT_MODE_FIFO in modes ==>
      SwapchainSelection.FirstPreferredAvailable(PRESENT_MODES_TIER_LIST, modes) == PRESENT_MODE_FIFO
  {
    if PRESENT_MODE_MAILBOX in modes {
      SwapchainSelection.FirstMatchIsChoice(PRESENT_MODES_TIER_LIST, modes, 0);
    } else if PRESENT_MODE_FIFO in modes {
      SwapchainSelection.FirstMatchIsChoice(PRESENT_MODES_TIER_LIST, modes, 1);
    }
  }

  /** SwapchainImageCount: one more than the surface minimum, in uint32. */
  function SwapchainImageCount(minImageCount: u32): (count: u32)
    ensures minImageCount < 0xFFFF_FFFF ==> count == minImageCount + 1
    ensures minImageCount == 0xFFFF_FFFF ==> count == 0
  {
    Wrap32(minImageCount + 1)
  }

  datatype SharingMode = Exclusive | Concurrent

  /** The sharing part of SwapchainCreateInfo: the mode and the family list it passes. */
  datatype Sharing = Sharing(mode: SharingMode, queueFamilyIndices: seq<u32>)

  /** Concurrent sharing between graphics and present when they differ, exclusive otherwise. */
  function SharingFor(graphics: u32, present: u32): (s: Sharing)
    ensures s.mode == Concurrent <==> graphics != present
    ensures s.mode == Concurrent ==> s.queueFamilyIndices == [graphics, present]
    ensures s.mode == Exclusive ==> s.queueFamilyIndices == []
  {
    if graphics != present then Sharing(Concurrent, [graphics, present]) else Sharing(Exclusive, [])
  }

  /**
   * Every queue that touches a swapchain image may use it: with concurrent
   * sharing both families are listed, with exclusive sharing they are one.
   */
  lemma SharingCoversBothQueues(graphics: u32, present: u32)
    ensures var s := SharingFor(graphics, present);
      (s.mode == Concurrent ==> graphics in s.queueFamilyIndices && present in s.queueFamilyIndices
                                && NoRepeats(s.queueFamilyIndices))
      && (s.mode == Exclusive ==> graphics == present)
  {
  }
}
