/**
  The statistics derived from the static skills data: the number of skills, the rounded average
  level, and the five highest-rated skills, found by a stable descending sort of a flattened copy
  of the category lists.
 */
module Skills {
  import opened Base

  /** A skill; its icon and colour only feed the rendering. */
  datatype Skill = Skill(name: string, level: nat)

  /** One category of the `skills` object, in the object's key order. */
  datatype SkillGroup = SkillGroup(title: string, skills: seq<Skill>)

  /** `Object.values(skills).flat()`. */
  function Flat(groups: seq<SkillGroup>): (r: seq<Skill>)
    ensures forall i, j :: 0 <= i < |groups| && 0 <= j < |groups[i].skills| ==> groups[i].skills[j] in r
    ensures forall s :: s in r ==> exists i :: 0 <= i < |groups| && s in groups[i].skills
  {
    if |groups| == 0 then [] else groups[0].skills + Flat(groups[1..])
  }

  /** The sum of the group sizes, counted from the last group. */
  function GroupSizes(groups: seq<SkillGroup>): nat {
    if |groups| == 0 then 0 else GroupSizes(groups[..|groups| - 1]) + |groups[|groups| - 1].skills|
  }

  /** `totalSkills` is the sum of the category sizes. */
  lemma {:induction false} TotalIsSumOfGroups(groups: seq<SkillGroup>)
    ensures |Flat(groups)| == GroupSizes(groups)
    decreases |groups|
  {
    if |groups| > 0 {
      var init := groups[..|groups| - 1];
      TotalIsSumOfGroups(init);
      FlatSnoc(init, groups[|groups| - 1]);
      assert init + [groups[|groups| - 1]] == groups;
    }
  }

  lemma {:induction false} FlatSnoc(groups: seq<SkillGroup>, g: SkillGroup)
    ensures Flat(groups + [g]) == Flat(groups) + g.skills
    decreases |groups|
  {
    if |groups| == 0 {
      assert Flat([g]) == g.skills + Flat([]);
    } else {
      assert (groups + [g])[1..] == groups[1..] + [g];
      FlatSnoc(groups[1..], g);
    }
  }

  // ---------------------------------------------------------------------------
  // Average level

  function LevelSum(s: seq<Skill>): nat {
    if |s| == 0 then 0 else s[0].level + LevelSum(s[1..])
  }

  /**
    `Math.round(sum / count)`: the integer nearest the mean, halves rounded up. An empty list
    divides by zero and yields `NaN`, modelled as `None`.
   */
  function AverageLevel(s: seq<Skill>): (r: Option<nat>)
    ensures r.None? <==> |s| == 0
    ensures r.Some? ==> 2 * |s| * r.value <= 2 * LevelSum(s) + |s| < 2 * |s| * (r.value + 1)
  {
    if |s| == 0 then None else Some((2 * LevelSum(s) + |s|) / (2 * |s|))
  }

  /** The rounded average lies between any lower and upper bound of the levels: between the least and the greatest. */
  lemma AverageWithinBounds(s: seq<Skill>, lo: nat, hi: nat)
    requires |s| > 0
    requires forall i :: 0 <= i < |s| ==> lo <= s[i].level <= hi
    ensures lo <= AverageLevel(s).value <= hi
  {
    SumBounds(s, lo, hi);
    RoundedMeanBounds(LevelSum(s), |s|, lo, hi);
  }

  /** Rounding the mean of `n` values between `lo` and `hi` stays between them. */
  lemma RoundedMeanBounds(sum: nat, n: nat, lo: nat, hi: nat)
    requires n > 0 && n * lo <= sum <= n * hi
    ensures lo <= (2 * sum + n) / (2 * n) <= hi
  {
    var k := 2 * n;
    var q := (2 * sum + n) / k;
    assert k * q <= 2 * sum + n < k * q + k;
    MeanAtLeast(sum, n, lo, q);
    MeanAtMost(sum, n, hi, q);
  }

  lemma MeanAtLeast(sum: nat, n: nat, lo: nat, q: nat)
    requires n * lo <= sum && 2 * sum + n < 2 * n * q + 2 * n
    ensures lo <= q
  {
    MulMonotone(2 * n, q + 1, lo);
    assert 2 * n * (q + 1) == 2 * n * q + 2 * n;
    assert 2 * n * lo == 2 * (n * lo);
  }

  lemma MeanAtMost(sum: nat, n: nat, hi: nat, q: nat)
    requires n > 0 && sum <= n * hi && 2 * n * q <= 2 * sum + n
    ensures q <= hi
  {
    MulMonotone(2 * n, hi + 1, q);
    assert 2 * n * (hi + 1) == 2 * n * hi + 2 * n;
    assert 2 * n * hi == 2 * (n * hi);
  }

  lemma MulMonotone(k: nat, a: nat, b: nat)
    ensures a <= b ==> k * a <= k * b
  {
    if a <= b {
      assert k * b == k * a + k * (b - a);
    }
  }

  lemma {:induction false} SumBounds(s: seq<Skill>, lo: nat, hi: nat)
    requires forall i :: 0 <= i < |s| ==> lo <= s[i].level <= hi
    ensures |s| * lo <= LevelSum(s) <= |s| * hi
    decreases |s|
  {
    if |s| > 0 {
      SumBounds(s[1..], lo, hi);
      assert |s| * lo == lo + (|s| - 1) * lo;
      assert |s| * hi == hi + (|s| - 1) * hi;
    }
  }

  // ---------------------------------------------------------------------------
  // Top skills

  /** Levels never rise along `s`. */
  predicate NonIncreasing(s: seq<Skill>) {
    forall i, j :: 0 <= i < j < |s| ==> s[i].level >= s[j].level
  }

  function AtLevel(level: nat): Skill -> bool {
    (x: Skill) => x.level == level
  }

  /** Places `x` after every entry rated at least as high, as a stable sort does with a later element. */
  function Insert(x: Skill, t: seq<Skill>): (r: seq<Skill>)
    ensures |r| == |t| + 1
    ensures r[0] == x || (|t| > 0 && r[0] == t[0] && t[0].level >= x.level)
  {
    if |t| == 0 then [x]
    else if t[0].level >= x.level then [t[0]] + Insert(x, t[1..])
    else [x] + t
  }

  /** Inserting into a list whose levels never rise gives such a list again. */
  lemma {:induction false} InsertKeepsOrder(x: Skill, t: seq<Skill>)
    requires NonIncreasing(t)
    ensures NonIncreasing(Insert(x, t))
    decreases |t|
  {
    if |t| > 0 && t[0].level >= x.level {
      var rest := Insert(x, t[1..]);
      InsertKeepsOrder(x, t[1..]);
      assert Insert(x, t) == [t[0]] + rest;
      assert t[0].level >= rest[0].level;
    }
  }

  /** Inserting adds `x` and loses nothing. */
  lemma {:induction false} InsertPermutes(x: Skill, t: seq<Skill>)
    ensures multiset(Insert(x, t)) == multiset(t) + multiset{x}
    decreases |t|
  {
    if |t| > 0 && t[0].level >= x.level {
      InsertPermutes(x, t[1..]);
      assert Insert(x, t) == [t[0]] + Insert(x, t[1..]);
      assert t == [t[0]] + t[1..];
    }
  }

  /** `.sort((a, b) => b.level - a.level)` on a copy: JavaScript's sort is stable. */
  function SortByLevel(s: seq<Skill>): (r: seq<Skill>)
    ensures |r| == |s|
    ensures NonIncreasing(r)
    ensures multiset(r) == multiset(s)
  {
    if |s| == 0 then []
    else
      var init := s[..|s| - 1];
      var sorted := SortByLevel(init);
      SortStep(s, sorted);
      Insert(s[|s| - 1], sorted)
  }

  /** Inserting the last element into the sorted rest sorts the whole. */
  lemma SortStep(s: seq<Skill>, sorted: seq<Skill>)
    requires |s| > 0 && NonIncreasing(sorted) && multiset(sorted) == multiset(s[..|s| - 1])
    ensures NonIncreasing(Insert(s[|s| - 1], sorted))
    ensures multiset(Insert(s[|s| - 1], sorted)) == multiset(s)
  {
    InsertKeepsOrder(s[|s| - 1], sorted);
    InsertPermutes(s[|s| - 1], sorted);
    assert s == s[..|s| - 1] + [s[|s| - 1]];
  }

  /** The entries of `s` rated exactly `level`, in their order in `s`. */
  function RatedAt(s: seq<Skill>, level: nat): seq<Skill> {
    if |s| == 0 then [] else (if s[0].level == level then [s[0]] else []) + RatedAt(s[1..], level)
  }

  lemma {:induction false} RatedAtConcat(a: seq<Skill>, b: seq<Skill>, level: nat)
    ensures RatedAt(a + b, level) == RatedAt(a, level) + RatedAt(b, level)
    decreases |a|
  {
    if |a| == 0 {
      assert a + b == b;
    } else {
      assert (a + b)[1..] == a[1..] + b;
      RatedAtConcat(a[1..], b, level);
    }
  }

  lemma ConcatAssoc(a: seq<Skill>, b: seq<Skill>, c: seq<Skill>)
    ensures (a + b) + c == a + (b + c)
  {
  }

  /** Nothing in a list whose levels all lie below `level` is rated `level`. */
  lemma {:induction false} NoneRatedAbove(t: seq<Skill>, level: nat)
    requires forall i :: 0 <= i < |t| ==> t[i].level < level
    ensures RatedAt(t, level) == []
    decreases |t|
  {
    if |t| > 0 {
      NoneRatedAbove(t[1..], level);
    }
  }

  /** Inserting keeps, at every level, the entries already there ahead of the new one. */
  lemma {:induction false} InsertAtLevel(x: Skill, t: seq<Skill>, level: nat)
    requires NonIncreasing(t)
    ensures RatedAt(Insert(x, t), level) == RatedAt(t, level) + RatedAt([x], level)
    decreases |t|
  {
    if |t| == 0 {
      assert Insert(x, t) == [x];
    } else if t[0].level >= x.level {
      InsertAtLevel(x, t[1..], level);
      ConsStep(t[0], t[1..], Insert(x, t[1..]), RatedAt([x], level), level);
      assert Insert(x, t) == [t[0]] + Insert(x, t[1..]);
      assert [t[0]] + t[1..] == t;
    } else {
      InsertInFront(x, t, level);
    }
  }

  /** Putting the same entry in front of two lists keeps a relation between their selections. */
  lemma ConsStep(y: Skill, u: seq<Skill>, w: seq<Skill>, c: seq<Skill>, level: nat)
    requires RatedAt(w, level) == RatedAt(u, level) + c
    ensures RatedAt([y] + w, level) == RatedAt([y] + u, level) + c
  {
    assert ([y] + w)[1..] == w;
    assert ([y] + u)[1..] == u;
    ConcatAssoc(if y.level == level then [y] else [], RatedAt(u, level), c);
  }

  /** The step of `InsertAtLevel` where the new entry outranks everything. */
  lemma InsertInFront(x: Skill, t: seq<Skill>, level: nat)
    requires NonIncreasing(t) && |t| > 0 && t[0].level < x.level
    ensures RatedAt(Insert(x, t), level) == RatedAt(t, level) + RatedAt([x], level)
  {
    assert Insert(x, t) == [x] + t;
    RatedAtConcat([x], t, level);
    if x.level == level {
      NoneRatedAbove(t, level);
    }
  }

  /**
    The sort is stable: the skills at any one level appear in the sorted list in the order
    they have in the flattened data.
   */
  lemma {:induction false} SortIsStable(s: seq<Skill>, level: nat)
    ensures RatedAt(SortByLevel(s), level) == RatedAt(s, level)
    decreases |s|
  {
    if |s| > 0 {
      var init := s[..|s| - 1];
      SortIsStable(init, level);
      InsertAtLevel(s[|s| - 1], SortByLevel(init), level);
      RatedAtConcat(init, [s[|s| - 1]], level);
      assert init + [s[|s| - 1]] == s;
    }
  }

  /** The first `min(5, n)` entries of the sorted copy. */
  function TopPicks(s: seq<Skill>): (r: seq<Skill>)
    ensures |r| == if |s| < 5 then |s| else 5
    ensures NonIncreasing(r)
    ensures r == SortByLevel(s)[..|r|]
  {
    SortByLevel(s)[..if |s| < 5 then |s| else 5]
  }

  /** The picks are skills of the data, each taken no more often than it occurs. */
  lemma TopPicksFromData(s: seq<Skill>)
    ensures multiset(TopPicks(s)) <= multiset(s)
  {
    var sorted := SortByLevel(s);
    var r := TopPicks(s);
    assert sorted == r + sorted[|r|..];
  }

  /** No skill left out is rated above the last one picked. */
  lemma UnpickedNoHigher(s: seq<Skill>)
    ensures var r := TopPicks(s);
      forall i :: 0 <= i < |s| && s[i] !in r ==> |r| > 0 && s[i].level <= r[|r| - 1].level
  {
    var sorted := SortByLevel(s);
    var r := TopPicks(s);
    forall i | 0 <= i < |s| && s[i] !in r
      ensures |r| > 0 && s[i].level <= r[|r| - 1].level
    {
      assert s[i] in multiset(sorted);
      var j :| 0 <= j < |sorted| && sorted[j] == s[i];
      assert forall m :: 0 <= m < |r| ==> r[m] != s[i];
      assert forall m :: 0 <= m < |r| ==> r[m] == sorted[m];
    }
  }

  /** `topSkills`: the names of the picks, in order. */
  function TopSkills(s: seq<Skill>): (names: seq<string>)
    ensures |names| == if |s| < 5 then |s| else 5
    ensures forall i :: 0 <= i < |names| ==> names[i] == TopPicks(s)[i].name
  {
    var picks := TopPicks(s);
    seq(|picks|, i requires 0 <= i < |picks| => picks[i].name)
  }

  /**
    Among the skills of any one level, the picks are the ones that come first in the data: a
    skill is passed over only for one rated higher or for an equal one listed earlier.
   */
  lemma TopPicksAreStablePrefix(s: seq<Skill>, level: nat)
    ensures var f := RatedAt(TopPicks(s), level);
      var full := RatedAt(s, level);
      |f| <= |full| && f == full[..|f|]
  {
    var sorted := SortByLevel(s);
    var r := TopPicks(s);
    SortIsStable(s, level);
    RatedAtConcat(r, sorted[|r|..], level);
    assert sorted == r + sorted[|r|..];
  }

  // ---------------------------------------------------------------------------
  // The statistics object

  datatype SkillStats = SkillStats(totalSkills: nat, averageLevel: Option<nat>, topSkills: seq<string>)

  /**
    `skillStats`. All three are computed from the flattened list; the category lists themselves
    are values and are not reordered by the sort.
   */
  function StatsOf(groups: seq<SkillGroup>): (st: SkillStats)
    ensures st.totalSkills == GroupSizes(groups)
    ensures st.averageLevel.None? <==> st.totalSkills == 0
    ensures |st.topSkills| == if st.totalSkills < 5 then st.totalSkills else 5
  {
    var all := Flat(groups);
    TotalIsSumOfGroups(groups);
    SkillStats(|all|, AverageLevel(all), TopSkills(all))
  }

  const Data := [
    SkillGroup("Programming Languages", [
      Skill("JavaScript", 90), Skill("Python", 85), Skill("C++", 88), Skill("Java", 75), Skill("TypeScript", 80)]),
    SkillGroup("Frontend Technologies", [
      Skill("React.js", 92), Skill("HTML5", 95), Skill("CSS3", 90), Skill("Tailwind CSS", 88),
      Skill("Bootstrap", 85), Skill("Redux", 82)]),
    SkillGroup("Backend Technologies", [
      Skill("Node.js", 90), Skill("Express.js", 88), Skill("Flask", 80), Skill("RESTful APIs", 85)]),
    SkillGroup("Databases", [
      Skill("MongoDB", 87), Skill("MySQL", 75), Skill("PostgreSQL", 70)]),
    SkillGroup("Tools & Technologies", [
      Skill("Git", 90), Skill("GitHub", 88), Skill("VS Code", 95), Skill("Postman", 85),
      Skill("Docker", 70), Skill("Vercel", 80)])]

  lemma {:induction false} LevelSumConcat(a: seq<Skill>, b: seq<Skill>)
    ensures LevelSum(a + b) == LevelSum(a) + LevelSum(b)
    decreases |a|
  {
    if |a| == 0 {
      assert a + b == b;
    } else {
      assert (a + b)[1..] == a[1..] + b;
      LevelSumConcat(a[1..], b);
    }
  }

  /** The five category lists flattened. */
  lemma DataFlat()
    ensures Flat(Data) == Data[0].skills + Data[1].skills + Data[2].skills + Data[3].skills + Data[4].skills
    ensures |Data[0].skills| + |Data[1].skills| + |Data[2].skills| + |Data[3].skills| + |Data[4].skills| == 24
  {
  }

  /** The level sums of the categories: 418, 532, 343, 232 and 508. */
  lemma DataGroupSums()
    ensures LevelSum(Data[0].skills) == 418 && LevelSum(Data[1].skills) == 532
    ensures LevelSum(Data[2].skills) == 343 && LevelSum(Data[3].skills) == 232 && LevelSum(Data[4].skills) == 508
  {
  }

  lemma SumOfFive(a: seq<Skill>, b: seq<Skill>, c: seq<Skill>, d: seq<Skill>, e: seq<Skill>)
    ensures LevelSum(a + b + c + d + e) == LevelSum(a) + LevelSum(b) + LevelSum(c) + LevelSum(d) + LevelSum(e)
  {
    LevelSumConcat(a + b + c + d, e);
    LevelSumConcat(a + b + c, d);
    LevelSumConcat(a + b, c);
    LevelSumConcat(a, b);
  }

  /** On the data: 24 skills whose levels add up to 2033. */
  lemma DataSum(s: seq<Skill>)
    requires s == Flat(Data)
    ensures LevelSum(s) == 2033 && |s| == 24
  {
    DataFlat();
    DataGroupSums();
    SumOfFive(Data[0].skills, Data[1].skills, Data[2].skills, Data[3].skills, Data[4].skills);
  }

  /** 2033 / 24 is about 84.7, which rounds to 85. */
  lemma AverageOf2033Over24(s: seq<Skill>)
    requires LevelSum(s) == 2033 && |s| == 24
    ensures AverageLevel(s) == Some(85)
  {
  }

  /** The statistics of the data: 24 skills, average level 85. */
  lemma DataStats(groups: seq<SkillGroup>)
    requires groups == Data
    ensures StatsOf(groups).totalSkills == 24 && StatsOf(groups).averageLevel == Some(85)
  {
    DataSum(Flat(groups));
    AverageOf2033Over24(Flat(groups));
  }
}
