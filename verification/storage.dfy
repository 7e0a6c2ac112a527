/** The in-memory reference repository: four id-keyed tables (users, skin
    conditions, treatments, condition/treatment links), each with its own
    auto-increment counter, seeded at construction with five conditions,
    five treatments and eight links. */
module Storage {
  import opened Schema
  import opened InsertionMap

  // ---------------------------------------------------------------------
  // Queries over table contents (the `find`, `filter` and `map` calls)
  // ---------------------------------------------------------------------

  /** The first user, in table order, whose username is `username`. */
  function FindByUsername(users: seq<User>, username: string): (r: Option<User>)
    ensures r.None? <==> forall i :: 0 <= i < |users| ==> users[i].username != username
    ensures r.Some? ==> exists i :: 0 <= i < |users| && users[i] == r.value && r.value.username == username &&
                                    forall j :: 0 <= j < i ==> users[j].username != username
  {
    if |users| == 0 then None
    else if users[0].username == username then Some(users[0])
    else
      var r := FindByUsername(users[1..], username);
      assert r.Some? ==> exists i :: 0 < i < |users| && users[i] == r.value && r.value.username == username &&
                                     forall j :: 0 <= j < i ==> users[j].username != username by {
        if r.Some? {
          var i :| 0 <= i < |users[1..]| && users[1..][i] == r.value && r.value.username == username &&
                   forall j :: 0 <= j < i ==> users[1..][j].username != username;
          assert users[i + 1] == r.value;
          assert forall j :: 0 <= j < i + 1 ==> users[j].username != username by {
            forall j | 0 < j < i + 1 ensures users[j].username != username {
              assert users[j] == users[1..][j - 1];
            }
          }
        }
      }
      r
  }

  // Id order is stated once per record type: a single predicate over an id
  // projection `T -> int` would put a function application under every
  // quantifier of the join proofs below.

  predicate LinkIdsIncrease(s: seq<ConditionTreatment>) {
    forall i, j :: 0 <= i < j < |s| ==> s[i].id < s[j].id
  }

  predicate TreatmentIdsIncrease(s: seq<Treatment>) {
    forall i, j :: 0 <= i < j < |s| ==> s[i].id < s[j].id
  }

  function TreatmentIds(s: seq<Treatment>): seq<int> {
    seq(|s|, i requires 0 <= i < |s| => s[i].id)
  }

  /** The links of `conditionId`, in the order they stand in `links`. */
  function LinksFor(links: seq<ConditionTreatment>, conditionId: int): (r: seq<ConditionTreatment>)
    ensures forall l :: l in r <==> l in links && l.conditionId == conditionId
    ensures LinkIdsIncrease(links) ==> LinkIdsIncrease(r)
    ensures (forall l :: l in links ==> l.conditionId != conditionId) ==> r == []
  {
    if |links| == 0 then []
    else
      var head, rest := links[0], LinksFor(links[1..], conditionId);
      assert links == [head] + links[1..];
      if head.conditionId == conditionId then
        assert LinkIdsIncrease(links) ==> LinkIdsIncrease([head] + rest) by {
          if LinkIdsIncrease(links) {
            LinkHeadFirst(links, rest);
          }
        }
        [head] + rest
      else rest
  }

  /** The first link keeps its place ahead of any links taken from the rest. */
  lemma LinkHeadFirst(links: seq<ConditionTreatment>, rest: seq<ConditionTreatment>)
    requires |links| > 0 && LinkIdsIncrease(links) && LinkIdsIncrease(rest)
    requires forall l :: l in rest ==> l in links[1..]
    ensures LinkIdsIncrease([links[0]] + rest)
  {
    forall l | l in rest ensures links[0].id < l.id {
      var k :| 0 <= k < |links[1..]| && links[1..][k] == l;
      assert links[k + 1] == l;
    }
    LinkConsIncrease(links[0], rest);
  }

  lemma LinkConsIncrease(head: ConditionTreatment, rest: seq<ConditionTreatment>)
    requires LinkIdsIncrease(rest)
    requires forall l :: l in rest ==> head.id < l.id
    ensures LinkIdsIncrease([head] + rest)
  {
    forall i, j | 0 <= i < j < |[head] + rest| ensures ([head] + rest)[i].id < ([head] + rest)[j].id {
      if i == 0 {
        assert ([head] + rest)[j] == rest[j - 1];
        assert rest[j - 1] in rest;
      }
    }
  }

  /** `relationships.map(rel => rel.treatmentId)` */
  function TreatmentIdsOf(links: seq<ConditionTreatment>): seq<int> {
    seq(|links|, i requires 0 <= i < |links| => links[i].treatmentId)
  }

  /** The treatments whose id is in `ids`, in the order they stand in `treatments`. */
  function TreatmentsWithIds(treatments: seq<Treatment>, ids: seq<int>): (r: seq<Treatment>)
    ensures forall t :: t in r <==> t in treatments && t.id in ids
    ensures TreatmentIdsIncrease(treatments) ==> TreatmentIdsIncrease(r)
    ensures ids == [] ==> r == []
  {
    if |treatments| == 0 then []
    else
      var head, rest := treatments[0], TreatmentsWithIds(treatments[1..], ids);
      assert forall t :: t in treatments <==> t == head || t in treatments[1..] by {
        assert treatments == [head] + treatments[1..];
      }
      if head.id in ids then
        assert TreatmentIdsIncrease(treatments) ==> TreatmentIdsIncrease([head] + rest) by {
          if TreatmentIdsIncrease(treatments) {
            forall t | t in rest ensures head.id < t.id {
              var k :| 0 <= k < |treatments[1..]| && treatments[1..][k] == t;
              assert treatments[k + 1] == t;
            }
            TreatmentConsIncrease(head, rest);
          }
        }
        [head] + rest
      else rest
  }

  lemma TreatmentConsIncrease(head: Treatment, rest: seq<Treatment>)
    requires TreatmentIdsIncrease(rest)
    requires forall t :: t in rest ==> head.id < t.id
    ensures TreatmentIdsIncrease([head] + rest)
  {
    forall i, j | 0 <= i < j < |[head] + rest| ensures ([head] + rest)[i].id < ([head] + rest)[j].id {
      if i == 0 {
        assert ([head] + rest)[j] == rest[j - 1];
        assert rest[j - 1] in rest;
      }
    }
  }

  /** The join behind `getTreatmentsForCondition`: every treatment that some
      link of `conditionId` points at, in treatment-table order, each once. */
  function TreatmentsForCondition(links: seq<ConditionTreatment>, treatments: seq<Treatment>, conditionId: int)
    : (r: seq<Treatment>)
    ensures forall t :: t in r <==>
      t in treatments && exists l :: l in links && l.conditionId == conditionId && l.treatmentId == t.id
    ensures TreatmentIdsIncrease(treatments) ==> TreatmentIdsIncrease(r)
    ensures (forall l :: l in links ==> l.conditionId != conditionId) ==> r == []
  {
    var rels := LinksFor(links, conditionId);
    var ids := TreatmentIdsOf(rels);
    assert forall id :: id in ids <==> exists l :: l in rels && l.treatmentId == id by {
      forall id | id in ids ensures exists l :: l in rels && l.treatmentId == id {
        var i :| 0 <= i < |ids| && ids[i] == id;
        assert rels[i] in rels;
      }
      forall l | l in rels ensures l.treatmentId in ids {
        var i :| 0 <= i < |rels| && rels[i] == l;
        assert ids[i] == l.treatmentId;
      }
    }
    TreatmentsWithIds(treatments, ids)
  }

  // ---------------------------------------------------------------------
  // Seed data
  // ---------------------------------------------------------------------

  // Each seeded row is a named constant, so that proofs about the seeded
  // tables can speak of a row without unfolding its text.

  const AcneVulgaris: InsertSkinCondition := InsertSkinCondition(
    "Acne Vulgaris",
    "Inflammatory condition of the skin characterized by pimples, blackheads, and whiteheads.",
    "Pimples, blackheads, whiteheads, redness, and inflammation.",
    "mild",
    "face, chest, back")
  const Eczema: InsertSkinCondition := InsertSkinCondition(
    "Eczema",
    "Chronic inflammatory skin condition causing dry, itchy skin.",
    "Dry, itchy, red, and inflamed skin. May have small bumps or blisters.",
    "moderate",
    "elbows, knees, neck, hands")
  const Psoriasis: InsertSkinCondition := InsertSkinCondition(
    "Psoriasis",
    "Autoimmune condition causing rapid skin cell growth leading to thick, scaly patches.",
    "Thick, red patches of skin covered with silvery scales.",
    "severe",
    "elbows, knees, scalp, lower back")
  const Rosacea: InsertSkinCondition := InsertSkinCondition(
    "Rosacea",
    "Chronic inflammatory condition causing facial redness and visible blood vessels.",
    "Facial redness, visible blood vessels, and sometimes small, red bumps.",
    "moderate",
    "cheeks, nose, forehead, chin")
  const DrySkin: InsertSkinCondition := InsertSkinCondition(
    "Dry Skin",
    "Skin condition characterized by lack of moisture in the skin.",
    "Rough, flaky, or scaly skin. May cause itching.",
    "mild",
    "face, arms, legs")

  function SeedConditionRows(): seq<InsertSkinCondition> {
    [AcneVulgaris, Eczema, Psoriasis, Rosacea, DrySkin]
  }

  const BenzoylPeroxideCleanser: InsertTreatment := InsertTreatment(
    "Benzoyl Peroxide Cleanser",
    "Helps kill acne-causing bacteria and reduce inflammation.",
    "Benzoyl Peroxide 2.5%-5%",
    "high",
    "formulated for sensitive skin,no prescription needed,daily use")
  const SalicylicAcidSpotTreatment: InsertTreatment := InsertTreatment(
    "Salicylic Acid Spot Treatment",
    "Helps unclog pores and reduce inflammation when applied directly to acne lesions.",
    "Salicylic Acid 1-2%",
    "medium",
    "apply only to affected areas,use as needed,over-the-counter")
  const HyaluronicAcidMoisturizer: InsertTreatment := InsertTreatment(
    "Hyaluronic Acid Moisturizer",
    "Helps maintain skin hydration without clogging pores.",
    "Hyaluronic Acid, Glycerin",
    "high",
    "oil-free formula,morning and night application,suitable for all skin types")
  const TopicalCorticosteroidCream: InsertTreatment := InsertTreatment(
    "Topical Corticosteroid Cream",
    "Reduces inflammation, itching, and redness associated with various skin conditions.",
    "Hydrocortisone 0.5-1%",
    "medium",
    "short-term use,prescription may be needed for stronger formulations,avoid on face")
  const NiacinamideSerum: InsertTreatment := InsertTreatment(
    "Niacinamide Serum",
    "Helps improve skin barrier function, reduce inflammation, and even skin tone.",
    "Niacinamide 5-10%",
    "high",
    "suitable for most skin types,morning or night application,can be combined with other products")

  function SeedTreatmentRows(): seq<InsertTreatment> {
    [BenzoylPeroxideCleanser, SalicylicAcidSpotTreatment, HyaluronicAcidMoisturizer, TopicalCorticosteroidCream, NiacinamideSerum]
  }

  function SeedLinkRows(): seq<InsertConditionTreatment> {
    [
      InsertConditionTreatment(1, 1, "high"),    // Acne - Benzoyl Peroxide
      InsertConditionTreatment(1, 2, "medium"),  // Acne - Salicylic Acid
      InsertConditionTreatment(1, 5, "medium"),  // Acne - Niacinamide
      InsertConditionTreatment(2, 4, "high"),    // Eczema - Corticosteroid
      InsertConditionTreatment(2, 3, "medium"),  // Eczema - Hyaluronic Acid
      InsertConditionTreatment(3, 4, "medium"),  // Psoriasis - Corticosteroid
      InsertConditionTreatment(4, 5, "high"),    // Rosacea - Niacinamide
      InsertConditionTreatment(5, 3, "high")     // Dry Skin - Hyaluronic Acid
    ]
  }

  /** The records `rows` become when created one after another from id `first`. */
  function ConditionsFrom(rows: seq<InsertSkinCondition>, first: int): seq<SkinCondition> {
    seq(|rows|, i requires 0 <= i < |rows| => rows[i].WithId(first + i))
  }

  function TreatmentsFrom(rows: seq<InsertTreatment>, first: int): seq<Treatment> {
    seq(|rows|, i requires 0 <= i < |rows| => rows[i].WithId(first + i))
  }

  function LinksFrom(rows: seq<InsertConditionTreatment>, first: int): seq<ConditionTreatment> {
    seq(|rows|, i requires 0 <= i < |rows| => rows[i].WithId(first + i))
  }

  /** A sequence whose ids strictly increase is determined by its members:
      this is what makes the membership-and-order contract of
      `TreatmentsForCondition` a complete description of its result. */
  lemma {:induction false} TreatmentsDeterminedByMembers(a: seq<Treatment>, b: seq<Treatment>)
    requires TreatmentIdsIncrease(a) && TreatmentIdsIncrease(b)
    requires forall t :: t in a <==> t in b
    ensures a == b
    decreases |a|
  {
    assert a != [] ==> a[0] in a && a[0] in b;
    assert b != [] ==> b[0] in b && b[0] in a;
    if a != [] {
      var i :| 0 <= i < |b| && b[i] == a[0];
      var j :| 0 <= j < |a| && a[j] == b[0];
      assert a[0] == b[0];
      TailMembers(a);
      TailMembers(b);
      assert forall t :: t in a[1..] <==> t in b[1..];
      TreatmentsDeterminedByMembers(a[1..], b[1..]);
      assert a == [a[0]] + a[1..] && b == [b[0]] + b[1..];
    }
  }

  /** In a sequence whose ids strictly increase, the tail holds every member
      but the head. */
  lemma TailMembers(s: seq<Treatment>)
    requires TreatmentIdsIncrease(s) && s != []
    ensures forall t :: t in s[1..] <==> t in s && t != s[0]
  {
    forall t | t in s[1..] ensures t in s && t != s[0] {
      var k :| 0 <= k < |s[1..]| && s[1..][k] == t;
      assert s[k + 1] == t;
    }
    forall t | t in s && t != s[0] ensures t in s[1..] {
      var k :| 0 <= k < |s| && s[k] == t;
      assert s[1..][k - 1] == t;
    }
  }

  /** The seeded links, written out. This second copy of the rows of
      `SeedLinkRows` lets the join proofs below work on literal records
      without unfolding the numbering; `SeededLinks` equates the two. */
  function SeededLinkTable(): seq<ConditionTreatment> {
    [ConditionTreatment(1, 1, 1, "high"), ConditionTreatment(2, 1, 2, "medium"),
     ConditionTreatment(3, 1, 5, "medium"), ConditionTreatment(4, 2, 4, "high"),
     ConditionTreatment(5, 2, 3, "medium"), ConditionTreatment(6, 3, 4, "medium"),
     ConditionTreatment(7, 4, 5, "high"), ConditionTreatment(8, 5, 3, "high")]
  }

  lemma SeededLinks()
    ensures LinksFrom(SeedLinkRows(), 1) == SeededLinkTable()
  {
  }

  /** Over the seeded links and any treatment table holding ids 1..5 in
      order (as the seeded one does): acne (condition 1) gets treatments 1, 2
      and 5; eczema (condition 2) gets 3 and 4, in table order although its
      links name 4 before 3; a condition id that no link names gets nothing,
      not an error. */
  lemma SeedJoin(treatments: seq<Treatment>)
    requires TreatmentIds(treatments) == [1, 2, 3, 4, 5]
    ensures var links := LinksFrom(SeedLinkRows(), 1);
            && TreatmentsForCondition(links, treatments, 1) == [treatments[0], treatments[1], treatments[4]]
            && TreatmentsForCondition(links, treatments, 2) == [treatments[2], treatments[3]]
            && TreatmentsForCondition(links, treatments, 999) == []
  {
    SeededLinks();
    var links := SeededLinkTable();
    assert |treatments| == 5;
    assert forall k :: 0 <= k < 5 ==> treatments[k].id == k + 1 by {
      forall k | 0 <= k < 5 ensures treatments[k].id == k + 1 {
        assert TreatmentIds(treatments)[k] == treatments[k].id;
      }
    }
    SeededAcneLinks(links);
    SeedJoinAcne(links, treatments);
    SeededEczemaLinks(links);
    SeedJoinEczema(links, treatments);
    SeedJoinUnknown(links, treatments);
  }

  /** The seeded treatment table holds ids 1..5 in order, so the joins of
      `SeedJoin` name treatments 1, 2, 5 and 3, 4. */
  lemma SeededTreatmentIds(treatments: seq<Treatment>)
    requires treatments == TreatmentsFrom(SeedTreatmentRows(), 1)
    ensures TreatmentIds(treatments) == [1, 2, 3, 4, 5]
    ensures TreatmentIds([treatments[0], treatments[1], treatments[4]]) == [1, 2, 5]
    ensures TreatmentIds([treatments[2], treatments[3]]) == [3, 4]
  {
    assert |treatments| == 5;
    assert treatments[0].id == 1 && treatments[1].id == 2 && treatments[2].id == 3;
    assert treatments[3].id == 4 && treatments[4].id == 5;
  }

  lemma SeedJoinUnknown(links: seq<ConditionTreatment>, treatments: seq<Treatment>)
    requires links == SeededLinkTable()
    ensures TreatmentsForCondition(links, treatments, 999) == []
  {
    assert forall l :: l in links ==> l.conditionId != 999;
  }

  lemma SeedJoinAcne(links: seq<ConditionTreatment>, treatments: seq<Treatment>)
    requires forall id :: Linked(links, 1, id) <==> (id == 1 || id == 2 || id == 5)
    requires |treatments| == 5 && forall k :: 0 <= k < 5 ==> treatments[k].id == k + 1
    ensures TreatmentsForCondition(links, treatments, 1) == [treatments[0], treatments[1], treatments[4]]
  {
    var joined := [treatments[0], treatments[1], treatments[4]];
    forall t | t in treatments
      ensures t in joined <==> Linked(links, 1, t.id)
    {
      var k :| 0 <= k < 5 && treatments[k] == t;
    }
    JoinMatches(links, treatments, 1, joined);
  }

  lemma SeedJoinEczema(links: seq<ConditionTreatment>, treatments: seq<Treatment>)
    requires forall id :: Linked(links, 2, id) <==> (id == 3 || id == 4)
    requires |treatments| == 5 && forall k :: 0 <= k < 5 ==> treatments[k].id == k + 1
    ensures TreatmentsForCondition(links, treatments, 2) == [treatments[2], treatments[3]]
  {
    var joined := [treatments[2], treatments[3]];
    forall t | t in treatments
      ensures t in joined <==> Linked(links, 2, t.id)
    {
      var k :| 0 <= k < 5 && treatments[k] == t;
    }
    JoinMatches(links, treatments, 2, joined);
  }

  /** Some link of `links` joins `conditionId` to `treatmentId`. */
  predicate Linked(links: seq<ConditionTreatment>, conditionId: int, treatmentId: int) {
    exists l :: l in links && l.conditionId == conditionId && l.treatmentId == treatmentId
  }

  /** The seeded links give acne (condition 1) treatments 1, 2 and 5. */
  lemma SeededAcneLinks(links: seq<ConditionTreatment>)
    requires links == SeededLinkTable()
    ensures forall id :: Linked(links, 1, id) <==> (id == 1 || id == 2 || id == 5)
  {
    assert links[0] in links && links[1] in links && links[2] in links;
  }

  /** The seeded links give eczema (condition 2) treatments 3 and 4. */
  lemma SeededEczemaLinks(links: seq<ConditionTreatment>)
    requires links == SeededLinkTable()
    ensures forall id :: Linked(links, 2, id) <==> (id == 3 || id == 4)
  {
    assert links[3] in links && links[4] in links;
  }

  /** `joined` is the join when it holds, in order, exactly the treatments
      a link of `conditionId` points at. */
  lemma JoinMatches(links: seq<ConditionTreatment>, treatments: seq<Treatment>, conditionId: int, joined: seq<Treatment>)
    requires TreatmentIdsIncrease(treatments) && TreatmentIdsIncrease(joined)
    requires forall t :: t in joined <==>
      t in treatments && exists l :: l in links && l.conditionId == conditionId && l.treatmentId == t.id
    ensures TreatmentsForCondition(links, treatments, conditionId) == joined
  {
    TreatmentsDeterminedByMembers(TreatmentsForCondition(links, treatments, conditionId), joined);
  }

  // ---------------------------------------------------------------------
  // The repository object
  // ---------------------------------------------------------------------

  class MemStorage {
    var users: seq<Entry<User>>
    var skinConditions: seq<Entry<SkinCondition>>
    var treatments: seq<Entry<Treatment>>
    var conditionTreatments: seq<Entry<ConditionTreatment>>

    var userCurrentId: int
    var conditionCurrentId: int
    var treatmentCurrentId: int
    var relationshipCurrentId: int

    /** Each table holds ids 1, 2, 3, ... in insertion order, every record
        carries its own key as `id`, and each counter is the next id. */
    ghost predicate Valid()
      reads this
    {
      && KeysFrom(users, 1) && userCurrentId == |users| + 1
      && (forall i :: 0 <= i < |users| ==> users[i].value.id == users[i].key)
      && KeysFrom(skinConditions, 1) && conditionCurrentId == |skinConditions| + 1
      && (forall i :: 0 <= i < |skinConditions| ==> skinConditions[i].value.id == skinConditions[i].key)
      && KeysFrom(treatments, 1) && treatmentCurrentId == |treatments| + 1
      && (forall i :: 0 <= i < |treatments| ==> treatments[i].value.id == treatments[i].key)
      && KeysFrom(conditionTreatments, 1) && relationshipCurrentId == |conditionTreatments| + 1
      && (forall i :: 0 <= i < |conditionTreatments| ==> conditionTreatments[i].value.id == conditionTreatments[i].key)
    }

    /** The state construction leaves: no users, and the seeded conditions,
        treatments and links numbered from 1 in the order they are listed. */
    ghost predicate Seeded()
      reads this
    {
      && users == []
      && Values(skinConditions) == ConditionsFrom(SeedConditionRows(), 1)
      && Values(treatments) == TreatmentsFrom(SeedTreatmentRows(), 1)
      && Values(conditionTreatments) == LinksFrom(SeedLinkRows(), 1)
    }

    /** All counters start at 1, then the three reference tables are seeded. */
    constructor ()
      ensures Valid() && Seeded()
      ensures userCurrentId == 1 && conditionCurrentId == 6 && treatmentCurrentId == 6
      ensures relationshipCurrentId == 9
    {
      users := [];
      skinConditions := [];
      treatments := [];
      conditionTreatments := [];
      userCurrentId := 1;
      conditionCurrentId := 1;
      treatmentCurrentId := 1;
      relationshipCurrentId := 1;
      new;
      SeedSkinConditions();
      SeedTreatments();
      SeedConditionTreatments();
    }

    /** Right after construction: acne (condition 1) gets treatments 1, 2
        and 5; eczema (condition 2) gets 3 and 4, in table order although its
        links name 4 before 3; an id no link names gets none. */
    lemma SeededQueries()
      requires Valid() && Seeded()
      ensures |GetAllSkinConditions()| == 5 && TreatmentIds(GetAllTreatments()) == [1, 2, 3, 4, 5]
      ensures TreatmentIds(GetTreatmentsForCondition(1)) == [1, 2, 5]
      ensures TreatmentIds(GetTreatmentsForCondition(2)) == [3, 4]
      ensures GetTreatmentsForCondition(999) == []
    {
      SeededTreatmentIds(Values(treatments));
      SeedJoin(Values(treatments));
    }

    // User methods

    function GetUser(id: int): (r: Option<User>)
      reads this
      requires Valid()
      ensures r.Some? <==> 1 <= id < userCurrentId
      ensures r.Some? ==> r.value.id == id
    {
      GetNumbered(users, 1, id);
      Get(users, id)
    }

    /** Each stored user sits at position id - 1 of the table. */
    lemma UsersNumbered()
      requires Valid()
      ensures forall id :: 1 <= id < userCurrentId ==> GetUser(id) == Some(Values(users)[id - 1])
    {
      forall id | 1 <= id < userCurrentId ensures GetUser(id) == Some(Values(users)[id - 1]) {
        GetNumbered(users, 1, id);
      }
    }

    function GetUserByUsername(username: string): (r: Option<User>)
      reads this
      requires Valid()
      ensures r.None? <==> forall id :: 1 <= id < userCurrentId ==> GetUser(id).value.username != username
      ensures r.Some? ==> r.value.username == username && GetUser(r.value.id) == Some(r.value)
      ensures r.Some? ==> forall id :: 1 <= id < r.value.id ==> GetUser(id).value.username != username
    {
      var all := Values(users);
      UsersNumbered();
      assert (forall i :: 0 <= i < |all| ==> all[i].username != username) ==>
             forall id :: 1 <= id < userCurrentId ==> GetUser(id).value.username != username;
      assert (forall id :: 1 <= id < userCurrentId ==> GetUser(id).value.username != username) ==>
             forall i :: 0 <= i < |all| ==> all[i].username != username by {
        if forall id :: 1 <= id < userCurrentId ==> GetUser(id).value.username != username {
          forall i | 0 <= i < |all| ensures all[i].username != username {
            assert GetUser(i + 1) == Some(all[i]);
          }
        }
      }
      FindByUsername(all, username)
    }

    method CreateUser(insertUser: InsertUser) returns (user: User)
      requires Valid()
      modifies this
      ensures Valid()
      ensures user == insertUser.WithId(old(userCurrentId))
      ensures users == old(users) + [Entry(user.id, user)] && userCurrentId == old(userCurrentId) + 1
      ensures GetUser(user.id) == Some(user)
      ensures forall id :: id != user.id ==> GetUser(id) == old(GetUser(id))
      ensures skinConditions == old(skinConditions) && treatments == old(treatments)
      ensures conditionTreatments == old(conditionTreatments)
      ensures conditionCurrentId == old(conditionCurrentId) && treatmentCurrentId == old(treatmentCurrentId)
      ensures relationshipCurrentId == old(relationshipCurrentId)
    {
      var id := userCurrentId;
      userCurrentId := userCurrentId + 1;
      user := insertUser.WithId(id);
      NextKeyIsFresh(users, 1);
      users := Set(users, id, user);
    }

    // Skin condition methods

    function GetSkinCondition(id: int): (r: Option<SkinCondition>)
      reads this
      requires Valid()
      ensures r.Some? <==> 1 <= id < conditionCurrentId
      ensures r.Some? ==> r.value.id == id
    {
      GetNumbered(skinConditions, 1, id);
      Get(skinConditions, id)
    }

    /** Every stored condition exactly once, in insertion (= id) order. */
    function GetAllSkinConditions(): (r: seq<SkinCondition>)
      reads this
      requires Valid()
      ensures |r| == conditionCurrentId - 1
      ensures forall i :: 0 <= i < |r| ==> r[i].id == i + 1 && GetSkinCondition(i + 1) == Some(r[i])
    {
      Values(skinConditions)
    }

    method CreateSkinCondition(insertCondition: InsertSkinCondition) returns (condition: SkinCondition)
      requires Valid()
      modifies this
      ensures Valid()
      ensures condition == insertCondition.WithId(old(conditionCurrentId))
      ensures skinConditions == old(skinConditions) + [Entry(condition.id, condition)]
      ensures conditionCurrentId == old(conditionCurrentId) + 1
      ensures GetSkinCondition(condition.id) == Some(condition)
      ensures forall id :: id != condition.id ==> GetSkinCondition(id) == old(GetSkinCondition(id))
      ensures users == old(users) && treatments == old(treatments)
      ensures conditionTreatments == old(conditionTreatments)
      ensures userCurrentId == old(userCurrentId) && treatmentCurrentId == old(treatmentCurrentId)
      ensures relationshipCurrentId == old(relationshipCurrentId)
    {
      var id := conditionCurrentId;
      conditionCurrentId := conditionCurrentId + 1;
      condition := insertCondition.WithId(id);
      NextKeyIsFresh(skinConditions, 1);
      skinConditions := Set(skinConditions, id, condition);
    }

    // Treatment methods

    function GetTreatment(id: int): (r: Option<Treatment>)
      reads this
      requires Valid()
      ensures r.Some? <==> 1 <= id < treatmentCurrentId
      ensures r.Some? ==> r.value.id == id
    {
      GetNumbered(treatments, 1, id);
      Get(treatments, id)
    }

    /** Every stored treatment exactly once, in insertion (= id) order. */
    function GetAllTreatments(): (r: seq<Treatment>)
      reads this
      requires Valid()
      ensures |r| == treatmentCurrentId - 1
      ensures forall i :: 0 <= i < |r| ==> r[i].id == i + 1 && GetTreatment(i + 1) == Some(r[i])
    {
      Values(treatments)
    }

    method CreateTreatment(insertTreatment: InsertTreatment) returns (treatment: Treatment)
      requires Valid()
      modifies this
      ensures Valid()
      ensures treatment == insertTreatment.WithId(old(treatmentCurrentId))
      ensures treatments == old(treatments) + [Entry(treatment.id, treatment)]
      ensures treatmentCurrentId == old(treatmentCurrentId) + 1
      ensures GetTreatment(treatment.id) == Some(treatment)
      ensures forall id :: id != treatment.id ==> GetTreatment(id) == old(GetTreatment(id))
      ensures users == old(users) && skinConditions == old(skinConditions)
      ensures conditionTreatments == old(conditionTreatments)
      ensures userCurrentId == old(userCurrentId) && conditionCurrentId == old(conditionCurrentId)
      ensures relationshipCurrentId == old(relationshipCurrentId)
    {
      var id := treatmentCurrentId;
      treatmentCurrentId := treatmentCurrentId + 1;
      treatment := insertTreatment.WithId(id);
      NextKeyIsFresh(treatments, 1);
      treatments := Set(treatments, id, treatment);
    }

    // Relationship methods

    function GetConditionTreatment(id: int): (r: Option<ConditionTreatment>)
      reads this
      requires Valid()
      ensures r.Some? <==> 1 <= id < relationshipCurrentId
      ensures r.Some? ==> r.value.id == id
    {
      GetNumbered(conditionTreatments, 1, id);
      Get(conditionTreatments, id)
    }

    /** Exactly the stored links of `conditionId`, in insertion (= id) order. */
    function GetConditionTreatmentsByCondition(conditionId: int): (r: seq<ConditionTreatment>)
      reads this
      requires Valid()
      ensures forall l :: l in r <==>
        1 <= l.id < relationshipCurrentId && GetConditionTreatment(l.id) == Some(l) && l.conditionId == conditionId
      ensures LinkIdsIncrease(r)
    {
      LinksStored();
      LinksFor(Values(conditionTreatments), conditionId)
    }

    /** The stored links are exactly those `getConditionTreatment` finds. */
    lemma LinksStored()
      requires Valid()
      ensures forall l :: l in Values(conditionTreatments) <==>
        1 <= l.id < relationshipCurrentId && GetConditionTreatment(l.id) == Some(l)
    {
      var all := Values(conditionTreatments);
      forall l | l in all ensures 1 <= l.id < relationshipCurrentId && GetConditionTreatment(l.id) == Some(l) {
        var i :| 0 <= i < |all| && all[i] == l;
        assert conditionTreatments[i].key == i + 1;
      }
      forall l: ConditionTreatment | 1 <= l.id < relationshipCurrentId && GetConditionTreatment(l.id) == Some(l) ensures l in all {
        GetNumbered(conditionTreatments, 1, l.id);
        assert all[l.id - 1] == l;
      }
    }

    method CreateConditionTreatment(insertRelationship: InsertConditionTreatment) returns (relationship: ConditionTreatment)
      requires Valid()
      modifies this
      ensures Valid()
      ensures relationship == insertRelationship.WithId(old(relationshipCurrentId))
      ensures conditionTreatments == old(conditionTreatments) + [Entry(relationship.id, relationship)]
      ensures relationshipCurrentId == old(relationshipCurrentId) + 1
      ensures GetConditionTreatment(relationship.id) == Some(relationship)
      ensures forall id :: id != relationship.id ==> GetConditionTreatment(id) == old(GetConditionTreatment(id))
      ensures users == old(users) && skinConditions == old(skinConditions) && treatments == old(treatments)
      ensures userCurrentId == old(userCurrentId) && conditionCurrentId == old(conditionCurrentId)
      ensures treatmentCurrentId == old(treatmentCurrentId)
    {
      var id := relationshipCurrentId;
      relationshipCurrentId := relationshipCurrentId + 1;
      relationship := insertRelationship.WithId(id);
      NextKeyIsFresh(conditionTreatments, 1);
      conditionTreatments := Set(conditionTreatments, id, relationship);
    }

    /** Every stored treatment that some link of `conditionId` points at,
        in treatment-table order and each once; none for an unknown id. */
    function GetTreatmentsForCondition(conditionId: int): (r: seq<Treatment>)
      reads this
      requires Valid()
      ensures forall t :: t in r <==>
        t in GetAllTreatments() && exists l :: l in GetConditionTreatmentsByCondition(conditionId) && l.treatmentId == t.id
      ensures TreatmentIdsIncrease(r)
      ensures (forall id :: 1 <= id < relationshipCurrentId ==> GetConditionTreatment(id).value.conditionId != conditionId)
              ==> r == []
    {
      var links := Values(conditionTreatments);
      var relationships := GetConditionTreatmentsByCondition(conditionId);
      assert forall l :: l in relationships <==> l in links && l.conditionId == conditionId;
      LinksStored();
      TreatmentsForCondition(links, GetAllTreatments(), conditionId)
    }

    // Seed methods: each runs `forEach(create...)` over its literal rows.

    /** `rows.forEach(row => this.createSkinCondition(row))` */
    method CreateSkinConditions(rows: seq<InsertSkinCondition>)
      requires Valid()
      modifies this
      ensures Valid()
      ensures Values(skinConditions) == old(Values(skinConditions)) + ConditionsFrom(rows, old(conditionCurrentId))
      ensures users == old(users) && treatments == old(treatments) && conditionTreatments == old(conditionTreatments)
      ensures userCurrentId == old(userCurrentId) && treatmentCurrentId == old(treatmentCurrentId)
      ensures relationshipCurrentId == old(relationshipCurrentId)
    {
      for i := 0 to |rows|
        invariant Valid()
        invariant Values(skinConditions) == old(Values(skinConditions)) + ConditionsFrom(rows[..i], old(conditionCurrentId))
        invariant users == old(users) && treatments == old(treatments) && conditionTreatments == old(conditionTreatments)
        invariant userCurrentId == old(userCurrentId) && treatmentCurrentId == old(treatmentCurrentId)
        invariant relationshipCurrentId == old(relationshipCurrentId)
      {
        ghost var before := Values(skinConditions);
        var created := CreateSkinCondition(rows[i]);
        assert Values(skinConditions) == before + [created];
        assert ConditionsFrom(rows[..i + 1], old(conditionCurrentId))
            == ConditionsFrom(rows[..i], old(conditionCurrentId)) + [created];
      }
      assert rows[..|rows|] == rows;
    }

    method SeedSkinConditions()
      requires Valid()
      modifies this
      ensures Valid()
      ensures Values(skinConditions) == old(Values(skinConditions)) + ConditionsFrom(SeedConditionRows(), old(conditionCurrentId))
      ensures users == old(users) && treatments == old(treatments) && conditionTreatments == old(conditionTreatments)
      ensures userCurrentId == old(userCurrentId) && treatmentCurrentId == old(treatmentCurrentId)
      ensures relationshipCurrentId == old(relationshipCurrentId)
    {
      CreateSkinConditions(SeedConditionRows());
    }

    /** `rows.forEach(row => this.createTreatment(row))` */
    method CreateTreatments(rows: seq<InsertTreatment>)
      requires Valid()
      modifies this
      ensures Valid()
      ensures Values(treatments) == old(Values(treatments)) + TreatmentsFrom(rows, old(treatmentCurrentId))
      ensures users == old(users) && skinConditions == old(skinConditions) && conditionTreatments == old(conditionTreatments)
      ensures userCurrentId == old(userCurrentId) && conditionCurrentId == old(conditionCurrentId)
      ensures relationshipCurrentId == old(relationshipCurrentId)
    {
      for i := 0 to |rows|
        invariant Valid()
        invariant Values(treatments) == old(Values(treatments)) + TreatmentsFrom(rows[..i], old(treatmentCurrentId))
        invariant users == old(users) && skinConditions == old(skinConditions) && conditionTreatments == old(conditionTreatments)
        invariant userCurrentId == old(userCurrentId) && conditionCurrentId == old(conditionCurrentId)
        invariant relationshipCurrentId == old(relationshipCurrentId)
      {
        ghost var before := Values(treatments);
        var created := CreateTreatment(rows[i]);
        assert Values(treatments) == before + [created];
        assert TreatmentsFrom(rows[..i + 1], old(treatmentCurrentId))
            == TreatmentsFrom(rows[..i], old(treatmentCurrentId)) + [created];
      }
      assert rows[..|rows|] == rows;
    }

    method SeedTreatments()
      requires Valid()
      modifies this
      ensures Valid()
      ensures Values(treatments) == old(Values(treatments)) + TreatmentsFrom(SeedTreatmentRows(), old(treatmentCurrentId))
      ensures users == old(users) && skinConditions == old(skinConditions) && conditionTreatments == old(conditionTreatments)
      ensures userCurrentId == old(userCurrentId) && conditionCurrentId == old(conditionCurrentId)
      ensures relationshipCurrentId == old(relationshipCurrentId)
    {
      CreateTreatments(SeedTreatmentRows());
    }

    /** `rows.forEach(row => this.createConditionTreatment(row))` */
    method CreateConditionTreatments(rows: seq<InsertConditionTreatment>)
      requires Valid()
      modifies this
      ensures Valid()
      ensures Values(conditionTreatments) == old(Values(conditionTreatments)) + LinksFrom(rows, old(relationshipCurrentId))
      ensures users == old(users) && skinConditions == old(skinConditions) && treatments == old(treatments)
      ensures userCurrentId == old(userCurrentId) && conditionCurrentId == old(conditionCurrentId)
      ensures treatmentCurrentId == old(treatmentCurrentId)
    {
      for i := 0 to |rows|
        invariant Valid()
        invariant Values(conditionTreatments) == old(Values(conditionTreatments)) + LinksFrom(rows[..i], old(relationshipCurrentId))
        invariant users == old(users) && skinConditions == old(skinConditions) && treatments == old(treatments)
        invariant userCurrentId == old(userCurrentId) && conditionCurrentId == old(conditionCurrentId)
        invariant treatmentCurrentId == old(treatmentCurrentId)
      {
        ghost var before := Values(conditionTreatments);
        var created := CreateConditionTreatment(rows[i]);
        assert Values(conditionTreatments) == before + [created];
        assert LinksFrom(rows[..i + 1], old(relationshipCurrentId))
            == LinksFrom(rows[..i], old(relationshipCurrentId)) + [created];
      }
      assert rows[..|rows|] == rows;
    }

    method SeedConditionTreatments()
      requires Valid()
      modifies this
      ensures Valid()
      ensures Values(conditionTreatments) == old(Values(conditionTreatments)) + LinksFrom(SeedLinkRows(), old(relationshipCurrentId))
      ensures users == old(users) && skinConditions == old(skinConditions) && treatments == old(treatments)
      ensures userCurrentId == old(userCurrentId) && conditionCurrentId == old(conditionCurrentId)
      ensures treatmentCurrentId == old(treatmentCurrentId)
    {
      CreateConditionTreatments(SeedLinkRows());
    }
  }
}
