/** The simulated skin analysis behind the analysis endpoint: it picks a
    primary condition from the repository and, on a coin flip, a different
    secondary one, gives each a bounded integer confidence and its first
    listed location, and recommends every treatment the repository joins to
    a detected condition, each once, in first-seen order. */
module SkinAnalysis {
  import opened Schema
  import opened Text
  import opened Storage

  // ---------------------------------------------------------------------
  // Random draws
  // ---------------------------------------------------------------------

  /** `Math.random()` yields a multiple of 2^-53 in [0, 1); a draw is the
      numerator of that fraction. */
  const RandomScale: int := 0x20_0000_0000_0000

  type Random = k: int | 0 <= k < RandomScale

  /** `Math.floor(Math.random() * n)`: an index of a list of length n. The
      product and the quotient are written as `Times` and `Wholes` so that
      proofs about the callers see only linear arithmetic. */
  function Pick(r: Random, n: nat): (i: nat)
    ensures n > 0 ==> i < n
  {
    PickIsFloor(r, n);
    Wholes(Times(r, n))
  }

  /** `r * n`, as n repeated additions. */
  function Times(r: nat, n: nat): nat {
    if n == 0 then 0 else Times(r, n - 1) + r
  }

  /** `p / 2^53`, as the number of whole multiples of 2^53 in p. */
  function Wholes(p: nat): nat {
    if p < RandomScale then 0 else 1 + Wholes(p - RandomScale)
  }

  lemma {:induction false} TimesIsProduct(r: nat, n: nat)
    ensures Times(r, n) == r * n
  {
    if n > 0 {
      TimesIsProduct(r, n - 1);
    }
  }

  lemma {:induction false} WholesIsQuotient(p: nat)
    ensures Wholes(p) == p / RandomScale
  {
    if p >= RandomScale {
      WholesIsQuotient(p - RandomScale);
    }
  }

  /** `Pick(r, n)` is the integer part of r / 2^53 * n. */
  lemma PickIsFloor(r: Random, n: nat)
    ensures var i := Wholes(Times(r, n));
            i * RandomScale <= r * n < (i + 1) * RandomScale && (n > 0 ==> i < n)
  {
    TimesIsProduct(r, n);
    WholesIsQuotient(r * n);
    var i := r * n / RandomScale;
    if n > 0 {
      MultiplyStrict(r, RandomScale, n);
      if i >= n { MultiplyMonotone(n, i, RandomScale); }
    }
  }

  lemma MultiplyStrict(a: int, b: int, n: int)
    requires a < b && n > 0
    ensures a * n < b * n
  {
  }

  lemma MultiplyMonotone(a: int, b: int, s: int)
    requires a <= b && s >= 0
    ensures a * s <= b * s
  {
  }

  /** Every index of a list of n elements is picked by some draw: no
      condition is out of reach of the selection. */
  lemma PickReachesEvery(n: nat, i: nat)
    requires i < n <= RandomScale
    ensures exists r: Random :: Pick(r, n) == i
  {
    var r := (i * RandomScale + n - 1) / n;
    assert r * n >= i * RandomScale;
    assert r * n < i * RandomScale + n;
    assert r < RandomScale by {
      MultiplyMonotone(i + 1, n, RandomScale);
      assert i * RandomScale + n <= n * RandomScale;
    }
    var p := Pick(r, n);
    PickIsFloor(r, n);
    if p < i { MultiplyMonotone(p + 1, i, RandomScale); }
    if p > i { MultiplyMonotone(i + 1, p, RandomScale); }
    assert p == i;
  }

  /** `Math.random() > 0.5` */
  predicate CoinAbove(r: Random) {
    2 * r > RandomScale
  }

  /** The draws one run may make, in the order it makes them; the last two
      are used only when a secondary condition is chosen. */
  datatype Draws = Draws(
    primaryPick: Random,
    primaryConfidence: Random,
    coin: Random,
    secondaryPick: Random,
    secondaryConfidence: Random
  )

  // ---------------------------------------------------------------------
  // Detected conditions
  // ---------------------------------------------------------------------

  /** `commonLocations.split(',')[0].trim()`: the text before the first comma,
      with surrounding whitespace removed. */
  function FirstLocation(commonLocations: string): (r: string)
    ensures exists i, j, p :: IsFirstLocation(commonLocations, r, i, j, p)
    ensures r == [] || (!IsWhitespace(r[0]) && !IsWhitespace(r[|r| - 1]))
  {
    var first := Split(commonLocations, ',')[0];
    var r := Trim(first);
    SplitFirst(commonLocations, ',');
    FirstLocationAt(commonLocations, first, r);
    r
  }

  /** `r` is `s[i..j]`, the text before the first comma of `s` (which stands
      at `p`, or `p` is the end) with only whitespace on either side. */
  ghost predicate IsFirstLocation(s: string, r: string, i: int, j: int, p: int) {
    && 0 <= i <= j <= p <= |s|
    && r == s[i..j]
    && ',' !in s[..p] && (p == |s| || s[p] == ',')
    && AllWhitespace(s[..i]) && AllWhitespace(s[j..p])
  }

  lemma FirstLocationAt(s: string, first: string, r: string)
    requires first <= s && ',' !in first && (first == s || s[|first|] == ',')
    requires r == Trim(first)
    ensures exists i, j, p :: IsFirstLocation(s, r, i, j, p)
  {
    var i, j :| 0 <= i <= j <= |first| && r == first[i..j] && AllWhitespace(first[..i]) && AllWhitespace(first[j..]);
    FirstLocationBounds(s, first, r, i, j);
  }

  lemma FirstLocationBounds(s: string, first: string, r: string, i: int, j: int)
    requires first <= s && ',' !in first && (first == s || s[|first|] == ',')
    requires 0 <= i <= j <= |first| && r == first[i..j] && AllWhitespace(first[..i]) && AllWhitespace(first[j..])
    ensures IsFirstLocation(s, r, i, j, |first|)
  {
    assert first == s[..|first|];
    assert s[..i] == first[..i];
    assert s[j..|first|] == first[j..];
  }

  /** The detected-condition record pushed for condition `c`. */
  function Detect(c: SkinCondition, confidence: int): (d: DetectedCondition)
    ensures Describes(d, c) && d.confidence == confidence
  {
    DetectedCondition(c.id, c.name, c.description, FirstLocation(c.commonLocations), confidence, c.severity)
  }

  /** `d` reports condition `c`: same id, name, description and severity,
      and the first of its common locations. */
  predicate Describes(d: DetectedCondition, c: SkinCondition) {
    d.id == c.id && d.name == c.name && d.description == c.description &&
    d.severity == c.severity && d.locations == FirstLocation(c.commonLocations)
  }

  /** `conditions.filter(c => c.id !== id)` */
  function WithoutId(conditions: seq<SkinCondition>, id: int): (r: seq<SkinCondition>)
    ensures forall c {:trigger c in r} :: c in r <==> c in conditions && c.id != id
    ensures |r| <= |conditions|
    ensures (forall c :: c in conditions ==> c.id != id) ==> r == conditions
  {
    if |conditions| == 0 then []
    else
      var head, rest := conditions[0], WithoutId(conditions[1..], id);
      assert forall c :: c in conditions <==> c == head || c in conditions[1..] by {
        assert conditions == [head] + conditions[1..];
      }
      if head.id == id then rest else [head] + rest
  }

  /** In a table numbered 1, 2, 3, ..., removing a stored id removes exactly
      that one condition and keeps the others in table order: another
      condition remains exactly when the table holds at least two. */
  lemma {:induction false} WithoutStoredId(conditions: seq<SkinCondition>, first: int, id: int)
    requires forall i :: 0 <= i < |conditions| ==> conditions[i].id == first + i
    requires first <= id < first + |conditions|
    ensures WithoutId(conditions, id) == conditions[..id - first] + conditions[id - first + 1..]
    ensures |WithoutId(conditions, id)| == |conditions| - 1
  {
    if conditions[0].id != id {
      var tail, k := conditions[1..], id - first;
      WithoutStoredId(tail, first + 1, id);
      assert WithoutId(conditions, id) == [conditions[0]] + WithoutId(tail, id);
      assert conditions[..k] + conditions[k + 1..] == [conditions[0]] + (tail[..k - 1] + tail[k..]) by {
        assert conditions[..k] == [conditions[0]] + tail[..k - 1];
        assert conditions[k + 1..] == tail[k..];
      }
    } else {
      assert WithoutId(conditions[1..], id) == conditions[1..] by {
        forall c | c in conditions[1..] ensures c.id != id {
          var k :| 0 <= k < |conditions[1..]| && conditions[1..][k] == c;
          assert c == conditions[k + 1];
        }
      }
      assert conditions[..id - first] + conditions[id - first + 1..] == conditions[1..];
    }
  }

  // ---------------------------------------------------------------------
  // Recommended treatments
  // ---------------------------------------------------------------------

  /** The entry pushed for treatment `t`; its tags are the comma-separated
      pieces of `t.tags`, untrimmed, and join back to `t.tags`. */
  function Recommend(t: Treatment): (r: RecommendedTreatment)
    ensures r.id == t.id && r.name == t.name && r.description == t.description
    ensures r.recommendationLevel == t.recommendationLevel
    ensures |r.tags| == Count(t.tags, ',') + 1 && Join(r.tags, ',') == t.tags
  {
    RecommendedTreatment(t.id, t.name, t.description, t.recommendationLevel, Split(t.tags, ','))
  }

  function Recommends(ts: seq<Treatment>): seq<RecommendedTreatment> {
    seq(|ts|, i requires 0 <= i < |ts| => Recommend(ts[i]))
  }

  /** `treatments.some(t => t.id === id)` */
  predicate HasId(ts: seq<RecommendedTreatment>, id: int) {
    exists k :: 0 <= k < |ts| && ts[k].id == id
  }

  predicate UniqueIds(ts: seq<RecommendedTreatment>) {
    forall i, j :: 0 <= i < j < |ts| ==> ts[i].id != ts[j].id
  }

  /** The inner loop: `acc` after each treatment of `ts` whose id it does not
      yet hold has been pushed, in order. */
  function AddNew(acc: seq<RecommendedTreatment>, ts: seq<Treatment>): seq<RecommendedTreatment> {
    if |ts| == 0 then acc
    else
      var before := AddNew(acc, ts[..|ts| - 1]);
      var t := ts[|ts| - 1];
      if HasId(before, t.id) then before else before + [Recommend(t)]
  }

  /** The outer loop: the treatment lists of the detected conditions, folded
      with `AddNew` from the empty list. */
  function Gather(lists: seq<seq<Treatment>>): seq<RecommendedTreatment> {
    if |lists| == 0 then []
    else AddNew(Gather(lists[..|lists| - 1]), lists[|lists| - 1])
  }

  /** `AddNew` only appends; it keeps ids unique; what it appends recommends
      a treatment of `ts`; and afterwards every treatment of `ts` has its id
      present. */
  lemma {:induction false} AddNewProperties(acc: seq<RecommendedTreatment>, ts: seq<Treatment>)
    ensures acc <= AddNew(acc, ts)
    ensures UniqueIds(acc) ==> UniqueIds(AddNew(acc, ts))
    ensures forall x :: x in AddNew(acc, ts) ==> x in acc || exists t :: t in ts && x == Recommend(t)
    ensures forall t :: t in ts ==> HasId(AddNew(acc, ts), t.id)
  {
    if |ts| > 0 {
      var init := ts[..|ts| - 1];
      var t := ts[|ts| - 1];
      AddNewProperties(acc, init);
      var before := AddNew(acc, init);
      assert forall u :: u in ts <==> u in init || u == t by {
        assert ts == init + [t];
      }
      if !HasId(before, t.id) {
        assert HasId(before + [Recommend(t)], t.id) by {
          assert (before + [Recommend(t)])[|before|].id == t.id;
        }
        assert forall id :: HasId(before, id) ==> HasId(before + [Recommend(t)], id) by {
          forall id | HasId(before, id) ensures HasId(before + [Recommend(t)], id) {
            var k :| 0 <= k < |before| && before[k].id == id;
            assert (before + [Recommend(t)])[k].id == id;
          }
        }
      }
    }
  }

  /** A list whose ids are new and distinct is appended whole, in order. */
  lemma {:induction false} AddNewFresh(acc: seq<RecommendedTreatment>, ts: seq<Treatment>)
    requires TreatmentIdsIncrease(ts)
    requires forall t :: t in ts ==> !HasId(acc, t.id)
    ensures AddNew(acc, ts) == acc + Recommends(ts)
  {
    if |ts| > 0 {
      var init := ts[..|ts| - 1];
      var t := ts[|ts| - 1];
      AddNewFresh(acc, init);
      assert Recommends(ts) == Recommends(init) + [Recommend(t)];
      assert !HasId(acc + Recommends(init), t.id) by {
        forall k | 0 <= k < |acc + Recommends(init)| ensures (acc + Recommends(init))[k].id != t.id {
          if k >= |acc| {
            assert init[k - |acc|].id < t.id;
          } else {
            assert acc[k].id != t.id;
          }
        }
      }
    }
  }

  /** Folding more lists only appends to what the earlier lists produced. */
  lemma {:induction false} GatherPrefix(lists: seq<seq<Treatment>>, k: nat)
    requires k <= |lists|
    ensures Gather(lists[..k]) <= Gather(lists)
    decreases |lists|
  {
    if k < |lists| {
      var init := lists[..|lists| - 1];
      assert lists[..k] == init[..k];
      GatherPrefix(init, k);
      AddNewProperties(Gather(init), lists[|lists| - 1]);
    } else {
      assert lists[..k] == lists;
    }
  }

  /** The gathered list is the union of the treatment lists, without
      repeated ids: each entry recommends a treatment of some list, and every
      treatment of every list has its id among the entries. */
  lemma {:induction false} GatherUnion(lists: seq<seq<Treatment>>)
    ensures UniqueIds(Gather(lists))
    ensures forall x :: x in Gather(lists) ==>
      exists i, t :: 0 <= i < |lists| && t in lists[i] && x == Recommend(t)
    ensures forall i, t :: 0 <= i < |lists| && t in lists[i] ==> HasId(Gather(lists), t.id)
  {
    if |lists| > 0 {
      var init := lists[..|lists| - 1];
      var last := lists[|lists| - 1];
      GatherUnion(init);
      AddNewProperties(Gather(init), last);
      var r := Gather(lists);
      forall x | x in r ensures exists i, t :: 0 <= i < |lists| && t in lists[i] && x == Recommend(t) {
        if x in Gather(init) {
          var i, t :| 0 <= i < |init| && t in init[i] && x == Recommend(t);
          assert lists[i] == init[i];
        } else {
          var t :| t in last && x == Recommend(t);
          assert t in lists[|lists| - 1];
        }
      }
      forall i, t | 0 <= i < |lists| && t in lists[i] ensures HasId(r, t.id) {
        if i < |lists| - 1 {
          assert t in init[i];
          var k :| 0 <= k < |Gather(init)| && Gather(init)[k].id == t.id;
          assert r[k] == Gather(init)[k];
        }
      }
    }
  }

  /** The primary condition's treatments come first, whole and in their own
      order. */
  lemma PrimaryFirst(lists: seq<seq<Treatment>>)
    requires |lists| > 0 && TreatmentIdsIncrease(lists[0])
    ensures Recommends(lists[0]) <= Gather(lists)
  {
    GatherPrefix(lists, 1);
    GatherFirst(lists);
    AddNewFresh([], lists[0]);
    assert [] + Recommends(lists[0]) == Recommends(lists[0]);
  }

  lemma GatherFirst(lists: seq<seq<Treatment>>)
    requires |lists| > 0
    ensures Gather(lists[..1]) == AddNew([], lists[0])
  {
    var first := lists[..1];
    assert first[..0] == [] && first[0] == lists[0];
  }

  /** The treatment list the repository returns for each detected condition. */
  function TreatmentLists(storage: MemStorage, detected: seq<DetectedCondition>): (lists: seq<seq<Treatment>>)
    reads storage
    requires storage.Valid()
    ensures |lists| == |detected|
  {
    seq(|detected|, i reads storage requires 0 <= i < |detected| && storage.Valid() =>
      storage.GetTreatmentsForCondition(detected[i].id))
  }

  /** One more turn of the outer loop folds in one more list. */
  lemma GatherStep(lists: seq<seq<Treatment>>, i: nat)
    requires i < |lists|
    ensures Gather(lists[..i + 1]) == AddNew(Gather(lists[..i]), lists[i])
  {
    assert lists[..i + 1][..i] == lists[..i];
  }

  /** What the outer loop gathers, in terms of the repository: every
      treatment joined to a detected condition is recommended, and every
      recommendation is that of such a treatment. */
  lemma GatheredFromStorage(storage: MemStorage, detected: seq<DetectedCondition>)
    requires storage.Valid()
    ensures forall i, t :: 0 <= i < |detected| && t in storage.GetTreatmentsForCondition(detected[i].id) ==>
              HasId(Gather(TreatmentLists(storage, detected)), t.id)
    ensures forall x :: x in Gather(TreatmentLists(storage, detected)) ==>
              exists i, t :: 0 <= i < |detected| &&
                             t in storage.GetTreatmentsForCondition(detected[i].id) && x == Recommend(t)
  {
    var lists := TreatmentLists(storage, detected);
    GatherUnion(lists);
    forall i, t | 0 <= i < |detected| && t in storage.GetTreatmentsForCondition(detected[i].id)
      ensures HasId(Gather(lists), t.id)
    {
      assert t in lists[i];
    }
    forall x | x in Gather(lists)
      ensures exists i, t :: 0 <= i < |detected| &&
                             t in storage.GetTreatmentsForCondition(detected[i].id) && x == Recommend(t)
    {
      var i, t :| 0 <= i < |lists| && t in lists[i] && x == Recommend(t);
      assert t in storage.GetTreatmentsForCondition(detected[i].id);
    }
  }

  // ---------------------------------------------------------------------
  // The analysis
  // ---------------------------------------------------------------------

  /** `detected` is what the first half of `simulateAnalysis()` draws from
      `all`: the picked primary condition with confidence 75 plus a pick
      below 20, then, exactly when the coin is above one half and another
      condition exists, the pick from the other conditions with confidence 55
      plus a pick below 20. */
  predicate Chosen(all: seq<SkinCondition>, draws: Draws, detected: seq<DetectedCondition>)
    requires |all| > 0
  {
    var primary := all[Pick(draws.primaryPick, |all|)];
    && 1 <= |detected| <= 2
    && Describes(detected[0], primary)
    && detected[0].confidence == 75 + Pick(draws.primaryConfidence, 20)
    && (|detected| == 2 <==> CoinAbove(draws.coin) && |all| >= 2)
    && (|detected| == 2 ==>
          var others := WithoutId(all, primary.id);
          && |others| == |all| - 1
          && Describes(detected[1], others[Pick(draws.secondaryPick, |others|)])
          && detected[1].confidence == 55 + Pick(draws.secondaryConfidence, 20))
  }

  /** A chosen primary has confidence 75..94; a chosen secondary is another
      stored condition, with a different id and confidence 55..74. */
  lemma ChosenBounds(all: seq<SkinCondition>, draws: Draws, detected: seq<DetectedCondition>)
    requires |all| > 0 && Chosen(all, draws, detected)
    ensures 75 <= detected[0].confidence <= 94
    ensures |detected| == 2 ==>
              && detected[1].id != detected[0].id
              && 55 <= detected[1].confidence <= 74
              && exists c :: c in all && Describes(detected[1], c)
  {
    if |detected| == 2 {
      var primary := all[Pick(draws.primaryPick, |all|)];
      var others := WithoutId(all, primary.id);
      var secondary := others[Pick(draws.secondaryPick, |others|)];
      assert secondary in others;
    }
  }

  /** The first half of `simulateAnalysis()`: the primary condition is the
      draw's pick of `all`; on a coin above one half, a different condition is
      picked from the rest. `all` is a table numbered 1, 2, 3, ... holding at
      least one condition: with none, the primary lookup reads past the end. */
  method ChooseConditions(all: seq<SkinCondition>, draws: Draws) returns (randomConditions: seq<DetectedCondition>)
    requires |all| > 0 && forall i :: 0 <= i < |all| ==> all[i].id == i + 1
    ensures Chosen(all, draws, randomConditions)
  {
    randomConditions := [];
    var primaryIndex := Pick(draws.primaryPick, |all|);
    var primaryCondition := all[primaryIndex];
    var primaryDetected := Detect(primaryCondition, 75 + Pick(draws.primaryConfidence, 20));
    assert Describes(primaryDetected, primaryCondition);
    randomConditions := randomConditions + [primaryDetected];

    WithoutStoredId(all, 1, primaryIndex + 1);
    if CoinAbove(draws.coin) {
      var remainingConditions := WithoutId(all, primaryCondition.id);
      if |remainingConditions| > 0 {
        var secondaryCondition := remainingConditions[Pick(draws.secondaryPick, |remainingConditions|)];
        assert secondaryCondition in remainingConditions;
        var secondaryDetected := Detect(secondaryCondition, 55 + Pick(draws.secondaryConfidence, 20));
        assert Describes(secondaryDetected, secondaryCondition);
        randomConditions := randomConditions + [secondaryDetected];
      }
    }
  }

  /** The inner loop of `simulateAnalysis()`: each treatment of
      `conditionTreatments` is pushed unless an entry with its id is already
      in `treatments`. */
  method PushNew(treatments: seq<RecommendedTreatment>, conditionTreatments: seq<Treatment>)
    returns (pushed: seq<RecommendedTreatment>)
    ensures pushed == AddNew(treatments, conditionTreatments)
  {
    pushed := treatments;
    for j := 0 to |conditionTreatments|
      invariant pushed == AddNew(treatments, conditionTreatments[..j])
    {
      var treatment := conditionTreatments[j];
      assert conditionTreatments[..j + 1][..j] == conditionTreatments[..j];
      if !HasId(pushed, treatment.id) {
        pushed := pushed + [Recommend(treatment)];
      }
    }
    assert conditionTreatments[..|conditionTreatments|] == conditionTreatments;
  }

  /** The second half of `simulateAnalysis()`: the treatments of each
      detected condition in turn, as the repository returns them, go through
      the inner loop. */
  method CollectTreatments(storage: MemStorage, randomConditions: seq<DetectedCondition>)
    returns (treatments: seq<RecommendedTreatment>)
    requires storage.Valid()
    ensures treatments == Gather(TreatmentLists(storage, randomConditions))
  {
    ghost var lists := TreatmentLists(storage, randomConditions);
    treatments := [];
    for i := 0 to |randomConditions|
      invariant treatments == Gather(lists[..i])
    {
      var conditionTreatments := storage.GetTreatmentsForCondition(randomConditions[i].id);
      assert conditionTreatments == lists[i];
      treatments := PushNew(treatments, conditionTreatments);
      GatherStep(lists, i);
    }
    assert lists[..|lists|] == lists;
  }

  /** `simulateAnalysis()` over the repository `storage`, with the draws of
      `Math.random()` given as `draws`. The repository must hold at least one
      condition. */
  method SimulateAnalysis(storage: MemStorage, draws: Draws) returns (result: AnalysisResult)
    requires storage.Valid() && storage.conditionCurrentId > 1
    ensures Chosen(storage.GetAllSkinConditions(), draws, result.detectedConditions)
    ensures var detected := result.detectedConditions;
            && 1 <= |detected| <= 2 && 75 <= detected[0].confidence <= 94
            && (|detected| == 2 ==>
                  && detected[1].id != detected[0].id && 55 <= detected[1].confidence <= 74
                  && exists c :: c in storage.GetAllSkinConditions() && Describes(detected[1], c))
    ensures result.recommendedTreatments == Gather(TreatmentLists(storage, result.detectedConditions))
    ensures UniqueIds(result.recommendedTreatments)
    ensures forall i, t :: 0 <= i < |result.detectedConditions| &&
                           t in storage.GetTreatmentsForCondition(result.detectedConditions[i].id) ==>
              HasId(result.recommendedTreatments, t.id)
    ensures forall x :: x in result.recommendedTreatments ==>
              exists i, t :: 0 <= i < |result.detectedConditions| &&
                             t in storage.GetTreatmentsForCondition(result.detectedConditions[i].id) &&
                             x == Recommend(t)
    ensures |result.detectedConditions| > 0 &&
            Recommends(storage.GetTreatmentsForCondition(result.detectedConditions[0].id)) <= result.recommendedTreatments
  {
    var allConditions := storage.GetAllSkinConditions();
    var randomConditions := ChooseConditions(allConditions, draws);
    ChosenBounds(allConditions, draws, randomConditions);
    var treatments := CollectTreatments(storage, randomConditions);
    GatherUnion(TreatmentLists(storage, randomConditions));
    GatheredFromStorage(storage, randomConditions);
    PrimaryFirst(TreatmentLists(storage, randomConditions));
    result := AnalysisResult(randomConditions, treatments);
  }
}
