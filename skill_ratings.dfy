/** The skill-rating rule the results screen (src/cli/components/ResultsDisplay.ts)
    and the console output (src/cli/utils/console.ts) share: keep the entries
    that are present and have a numeric, non-NaN rating, then order them by
    rating, highest first. `Array.prototype.sort` is stable, so entries with
    equal ratings keep their order. */
module SkillRatings {
  import opened Wrappers
  import opened Types

  /** `skill && typeof skill.rating === "number" && !isNaN(skill.rating)` */
  predicate IsValid(entry: Option<SkillRating>)
  {
    entry.Some? && entry.value.rating.Number?
  }

  /** A kept entry: its rating is a number. */
  type RatedSkill = s: SkillRating | s.rating.Number? witness SkillRating(None, None, Number(0), None)

  function RatingOf(s: RatedSkill): int
  {
    s.rating.value
  }

  /** The kept entries, in input order. */
  function ValidEntries(entries: seq<Option<SkillRating>>): (r: seq<RatedSkill>)
    ensures |r| <= |entries|
    ensures forall s :: s in r ==> Some(s) in entries
    ensures forall i :: 0 <= i < |entries| && IsValid(entries[i]) ==> entries[i].value in r
  {
    if entries == [] then []
    else
      var rest := ValidEntries(entries[..|entries| - 1]);
      var last := entries[|entries| - 1];
      assert entries == entries[..|entries| - 1] + [last];
      if IsValid(last) then rest + [last.value] else rest
  }

  /** Filtering a concatenation filters each part: the kept entries stay in
      input order. */
  lemma {:induction false} ValidEntriesAppend(a: seq<Option<SkillRating>>, b: seq<Option<SkillRating>>)
    ensures ValidEntries(a + b) == ValidEntries(a) + ValidEntries(b)
    decreases |b|
  {
    if b == [] {
      assert a + b == a;
    } else {
      var init := b[..|b| - 1];
      assert (a + b)[..|a + b| - 1] == a + init;
      ValidEntriesAppend(a, init);
    }
  }

  /** A single entry is kept, once, iff it is valid. */
  lemma ValidEntriesOne(e: Option<SkillRating>)
    ensures ValidEntries([e]) == if IsValid(e) then [e.value] else []
  {
    assert [e][..0] == [];
  }

  /** Every valid value is kept exactly as often as it occurs in the input. */
  lemma {:induction false} ValidEntriesOccurrences(entries: seq<Option<SkillRating>>)
    ensures forall x: RatedSkill :: multiset(ValidEntries(entries))[x] == multiset(entries)[Some(x)]
  {
    if entries != [] {
      var init := entries[..|entries| - 1];
      var last := entries[|entries| - 1];
      assert entries == init + [last];
      ValidEntriesOccurrences(init);
      assert multiset(entries) == multiset(init) + multiset{last};
    }
  }

  /** `skillRatings || []` filtered. */
  function ValidSkills(skillRatings: Option<seq<Option<SkillRating>>>): seq<RatedSkill>
  {
    ValidEntries(skillRatings.GetOr([]))
  }

  /** Highest rating first. */
  predicate SortedByRating(xs: seq<RatedSkill>)
  {
    forall i, j :: 0 <= i < j < |xs| ==> RatingOf(xs[i]) >= RatingOf(xs[j])
  }

  /** The entries rated `v`, in order. */
  function WithRating(xs: seq<RatedSkill>, v: int): seq<RatedSkill>
  {
    if xs == [] then []
    else WithRating(xs[..|xs| - 1], v) + (if RatingOf(xs[|xs| - 1]) == v then [xs[|xs| - 1]] else [])
  }

  /** Puts `x` after every entry rated at least as high. */
  function Insert(x: RatedSkill, sorted: seq<RatedSkill>): (r: seq<RatedSkill>)
    ensures multiset(r) == multiset(sorted) + multiset{x}
  {
    if sorted == [] || RatingOf(sorted[|sorted| - 1]) >= RatingOf(x) then sorted + [x]
    else
      assert sorted == sorted[..|sorted| - 1] + [sorted[|sorted| - 1]];
      Insert(x, sorted[..|sorted| - 1]) + [sorted[|sorted| - 1]]
  }

  /** Dropping the last entry keeps a list ordered. */
  lemma SortedInit(xs: seq<RatedSkill>)
    requires SortedByRating(xs) && xs != []
    ensures SortedByRating(xs[..|xs| - 1])
  {
    var init := xs[..|xs| - 1];
    forall i, j | 0 <= i < j < |init| ensures RatingOf(init[i]) >= RatingOf(init[j]) {
      assert init[i] == xs[i] && init[j] == xs[j];
    }
  }

  /** Every entry of an insertion is rated at least `b` when the inserted
      entry and the list are. */
  lemma InsertLowerBound(x: RatedSkill, xs: seq<RatedSkill>, b: int)
    requires RatingOf(x) >= b
    requires forall s :: s in xs ==> RatingOf(s) >= b
    ensures forall s :: s in Insert(x, xs) ==> RatingOf(s) >= b
  {
    forall s | s in Insert(x, xs) ensures RatingOf(s) >= b {
      assert s in multiset(Insert(x, xs));
      if s != x {
        assert s in multiset(xs);
      }
    }
  }

  /** Inserting into an ordered list keeps it ordered. */
  lemma {:induction false} InsertSorted(x: RatedSkill, sorted: seq<RatedSkill>)
    requires SortedByRating(sorted)
    ensures SortedByRating(Insert(x, sorted))
  {
    if sorted != [] && RatingOf(sorted[|sorted| - 1]) < RatingOf(x) {
      var init := sorted[..|sorted| - 1];
      var last := sorted[|sorted| - 1];
      SortedInit(sorted);
      InsertSorted(x, init);
      var front := Insert(x, init);
      var r := front + [last];
      assert r == Insert(x, sorted);
      forall s | s in init ensures RatingOf(s) >= RatingOf(last) {
        var k :| 0 <= k < |init| && init[k] == s;
        assert sorted[k] == s;
      }
      InsertLowerBound(x, init, RatingOf(last));
      forall i, j | 0 <= i < j < |r| ensures RatingOf(r[i]) >= RatingOf(r[j]) {
        if j == |r| - 1 {
          assert r[i] in front;
        } else {
          assert r[i] == front[i] && r[j] == front[j];
        }
      }
    }
  }

  /** `WithRating` of a list with one more entry at the end. */
  lemma WithRatingSnoc(xs: seq<RatedSkill>, y: RatedSkill, v: int)
    ensures WithRating(xs + [y], v) == WithRating(xs, v) + (if RatingOf(y) == v then [y] else [])
  {
    assert (xs + [y])[..|xs|] == xs;
  }

  /** Two pieces of which one is empty can be appended in either order. */
  lemma SwapOneEmpty<T>(w: seq<T>, a: seq<T>, b: seq<T>)
    requires a == [] || b == []
    ensures w + a + b == w + b + a
  {
  }

  /** Inserting adds the entry after the entries of the same rating. */
  lemma {:induction false} InsertWithRating(x: RatedSkill, sorted: seq<RatedSkill>, v: int)
    ensures WithRating(Insert(x, sorted), v) == WithRating(sorted, v) + (if RatingOf(x) == v then [x] else [])
  {
    if sorted == [] || RatingOf(sorted[|sorted| - 1]) >= RatingOf(x) {
      WithRatingSnoc(sorted, x, v);
    } else {
      var init := sorted[..|sorted| - 1];
      var last := sorted[|sorted| - 1];
      var front := Insert(x, init);
      assert Insert(x, sorted) == front + [last];
      InsertWithRating(x, init, v);
      assert sorted == init + [last];
      WithRatingPastLower(front, init, last, x, v);
    }
  }

  /** An entry rated below `x`, appended after `x` has been placed, keeps its
      place before `x` among the entries rated `v`: at most one of the two is
      rated `v`. */
  lemma WithRatingPastLower(front: seq<RatedSkill>, init: seq<RatedSkill>, last: RatedSkill, x: RatedSkill, v: int)
    requires RatingOf(last) < RatingOf(x)
    requires WithRating(front, v) == WithRating(init, v) + (if RatingOf(x) == v then [x] else [])
    ensures WithRating(front + [last], v) == WithRating(init + [last], v) + (if RatingOf(x) == v then [x] else [])
  {
    WithRatingSnoc(front, last, v);
    WithRatingSnoc(init, last, v);
    var xv: seq<RatedSkill> := if RatingOf(x) == v then [x] else [];
    var lv: seq<RatedSkill> := if RatingOf(last) == v then [last] else [];
    SwapOneEmpty(WithRating(init, v), xv, lv);
  }

  /** `validSkills.sort((a, b) => (b.rating || 0) - (a.rating || 0))`: a
      stable sort, highest rating first, written as an insertion sort. */
  function SortByRating(xs: seq<RatedSkill>): seq<RatedSkill>
  {
    if xs == [] then []
    else Insert(xs[|xs| - 1], SortByRating(xs[..|xs| - 1]))
  }

  /** The sort's result is ordered, holds the same entries, and keeps the
      input order among equal ratings. */
  lemma {:induction false} SortByRatingSpec(xs: seq<RatedSkill>)
    ensures SortedByRating(SortByRating(xs))
    ensures multiset(SortByRating(xs)) == multiset(xs)
    ensures forall v :: WithRating(SortByRating(xs), v) == WithRating(xs, v)
  {
    if xs != [] {
      var init := xs[..|xs| - 1];
      var last := xs[|xs| - 1];
      assert xs == init + [last];
      var sortedInit := SortByRating(init);
      SortByRatingSpec(init);
      InsertSorted(last, sortedInit);
      forall v ensures WithRating(Insert(last, sortedInit), v) == WithRating(xs, v) {
        InsertWithRating(last, sortedInit, v);
        WithRatingSnoc(init, last, v);
      }
    }
  }

  /** An already ordered list is left as it is. */
  lemma {:induction false} SortOfSorted(xs: seq<RatedSkill>)
    requires SortedByRating(xs)
    ensures SortByRating(xs) == xs
  {
    if xs != [] {
      var init := xs[..|xs| - 1];
      var last := xs[|xs| - 1];
      assert SortByRating(init) == init by {
        SortedInit(xs);
        SortOfSorted(init);
      }
      assert init == [] || RatingOf(init[|init| - 1]) >= RatingOf(last) by {
        if init != [] {
          SortedLastPair(xs);
          assert init[|init| - 1] == xs[|xs| - 2];
        }
      }
      SortAppendInOrder(init, last);
      assert init + [last] == xs;
    }
  }

  /** The last two entries of an ordered list are in order. */
  lemma SortedLastPair(xs: seq<RatedSkill>)
    requires SortedByRating(xs) && |xs| >= 2
    ensures RatingOf(xs[|xs| - 2]) >= RatingOf(xs[|xs| - 1])
  {
  }

  /** When the sort leaves `init` as it is and `last` is rated no higher than
      the end of `init`, it leaves `init + [last]` as it is. */
  lemma SortAppendInOrder(init: seq<RatedSkill>, last: RatedSkill)
    requires SortByRating(init) == init
    requires init == [] || RatingOf(init[|init| - 1]) >= RatingOf(last)
    ensures SortByRating(init + [last]) == init + [last]
  {
    SortByRatingStep(init, last);
    InsertInOrder(last, init);
  }

  /** One step of the sort: the last entry is inserted into the sorted rest. */
  lemma SortByRatingStep(init: seq<RatedSkill>, last: RatedSkill)
    ensures SortByRating(init + [last]) == Insert(last, SortByRating(init))
  {
    assert (init + [last])[..|init|] == init;
  }

  /** An entry rated no higher than the last goes at the end. */
  lemma InsertInOrder(x: RatedSkill, sorted: seq<RatedSkill>)
    requires sorted == [] || RatingOf(sorted[|sorted| - 1]) >= RatingOf(x)
    ensures Insert(x, sorted) == sorted + [x]
  {
  }

  /** The sorted valid entries: what both screens list. */
  function RankedSkills(skillRatings: Option<seq<Option<SkillRating>>>): seq<RatedSkill>
  {
    SortByRating(ValidSkills(skillRatings))
  }

  /** The listed entries are ordered, highest rating first, and there are as
      many of them as valid entries. */
  lemma RankedSkillsCount(skillRatings: Option<seq<Option<SkillRating>>>)
    ensures SortedByRating(RankedSkills(skillRatings))
    ensures |RankedSkills(skillRatings)| == |ValidSkills(skillRatings)|
  {
    var valid := ValidSkills(skillRatings);
    SortByRatingSpec(valid);
    assert |SortByRating(valid)| == |multiset(SortByRating(valid))| == |multiset(valid)|;
  }

  /** Every valid rating of the list is listed exactly as often as it occurs
      there, and entries with equal ratings keep their input order. */
  lemma RankedSkillsOccurrences(skillRatings: Option<seq<Option<SkillRating>>>)
    ensures forall x: RatedSkill ::
              multiset(RankedSkills(skillRatings))[x] == multiset(skillRatings.GetOr([]))[Some(x)]
    ensures forall v :: WithRating(RankedSkills(skillRatings), v) == WithRating(ValidSkills(skillRatings), v)
  {
    SortByRatingSpec(ValidSkills(skillRatings));
    ValidEntriesOccurrences(skillRatings.GetOr([]));
  }

  /** Exactly the valid entries are listed. */
  lemma RankedSkillsAreTheValidOnes(skillRatings: Option<seq<Option<SkillRating>>>, s: SkillRating)
    ensures s in RankedSkills(skillRatings) <==> Some(s) in skillRatings.GetOr([]) && s.rating.Number?
  {
    var ranked := RankedSkills(skillRatings);
    var valid := ValidSkills(skillRatings);
    SortByRatingSpec(valid);
    if s in ranked {
      assert s in multiset(ranked);
      assert s in multiset(valid);
    }
    if Some(s) in skillRatings.GetOr([]) && s.rating.Number? {
      var entries := skillRatings.GetOr([]);
      var i :| 0 <= i < |entries| && entries[i] == Some(s);
      assert IsValid(entries[i]);
      assert s in multiset(valid);
    }
  }
}
