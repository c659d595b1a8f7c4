/**
 * The exact plans the scheduler produces for small fixed inputs: a single
 * blur, two layers sharing one radius, a chain that starts with radius 0, and
 * a zero-radius group whose later members are never written.  Most are
 * derived from a general lemma over an arbitrary level and plan state.
 */
module Scenarios {
  import opened Buckets
  import opened Plan
  import opened Prepare

  /** One tree makes one group, keyed by its radius. */
  lemma SingletonPartition(a: Tree, level: nat)
    ensures Partition([a], level) == [Bucket(KeyAt(a, level), [a])]
  {
    assert Keyed([a], level) == [(KeyAt(a, level), a)];
    BucketizeSnoc([], KeyAt(a, level), a);
    assert [] + [(KeyAt(a, level), a)] == Keyed([a], level);
  }

  /** Two trees with the same radius make one group, in input order. */
  lemma PairPartition(a: Tree, b: Tree, level: nat)
    requires KeyAt(a, level) == KeyAt(b, level)
    ensures Partition([a, b], level) == [Bucket(KeyAt(a, level), [a, b])]
  {
    var k := KeyAt(a, level);
    var kv := Keyed([a, b], level);
    assert kv == [(k, a), (k, b)];
    SingletonPartition(a, level);
    assert kv[..1] == Keyed([a], level);
    BucketizeSnoc(kv[..1], k, b);
    assert kv[..1] + [(k, b)] == kv;
    assert Keys([Bucket(k, [a])]) == [k];
    assert [a] + [b] == [a, b];
  }

  /** A lone tree whose radius at `level` is 0 only opens the level: nothing is scheduled. */
  lemma LoneZero(a: Tree, level: nat, blitting: bool, st: PlanState)
    requires level <= |st.levels| && KeyAt(a, level) == 0.0
    ensures PlanTree([a], level, blitting, st) == st.(levels := LevelOrCreate(st.levels, level))
  {
    SingletonPartition(a, level);
    var st1 := st.(levels := LevelOrCreate(st.levels, level));
    assert PlanGroups([a], level, blitting, 1, st1) == st1;
    assert PlanGroups([a], level, blitting, 0, st1) == st1;
    assert PlanMaster([a], level, blitting, st1) == st1;
  }

  /** A lone tree with a nonzero radius at `level` is blurred in place there and scheduled again one level down. */
  lemma LoneBlur(a: Tree, level: nat, blitting: bool, st: PlanState)
    requires level <= |st.levels| && KeyAt(a, level) != 0.0
    ensures var st1 := st.(levels := LevelOrCreate(st.levels, level));
      level < |st1.levels| &&
      PlanTree([a], level, blitting, st) == PlanTree([a], level + 1, blitting, AddBlur(st1, level, KeyAt(a, level), a.0, None))
  {
    SingletonPartition(a, level);
    var st1 := st.(levels := LevelOrCreate(st.levels, level));
    assert PlanGroups([a], level, blitting, 1, st1) == st1;
    assert PlanGroups([a], level, blitting, 0, st1) == st1;
  }

  /** A lone tree whose chain ends after `level`: one in-place blur at `level`, and the next level is opened empty. */
  lemma LoneLastBlur(a: Tree, level: nat, blitting: bool, st: PlanState)
    requires level <= |st.levels| && KeyAt(a, level) != 0.0 && KeyAt(a, level + 1) == 0.0
    ensures var st1 := AddBlur(st.(levels := LevelOrCreate(st.levels, level)), level, KeyAt(a, level), a.0, None);
      PlanTree([a], level, blitting, st) == st1.(levels := LevelOrCreate(st1.levels, level + 1))
  {
    LoneBlur(a, level, blitting, st);
    var st1 := AddBlur(st.(levels := LevelOrCreate(st.levels, level)), level, KeyAt(a, level), a.0, None);
    LoneZero(a, level + 1, blitting, st1);
  }

  /** The first blur on a fresh plan: one kernel, and the blur step alone in level 0. */
  lemma FirstBlur(t: Texture, s: real)
    ensures AddBlur(PlanState([EmptyLevel], map[]), 0, s, t, None) == PlanState([Level([], [Blur(s, [(t, None)])])], map[s := Kernel(s, 0)])
  {
    assert AddSigma(map[], s) == map[s := Kernel(s, 0)];
    assert EmptyLevel.afterSteps + [Blur(s, [(t, None)])] == [Blur(s, [(t, None)])];
  }

  /** On a fresh plan, one blur at level 0 followed by opening level 1 gives the blur and an empty level. */
  lemma LastBlurOnFresh(t: Texture, s: real)
    ensures var st := PlanState([], map[]);
      var st1 := AddBlur(st.(levels := LevelOrCreate(st.levels, 0)), 0, s, t, None);
      st1.(levels := LevelOrCreate(st1.levels, 1)) == PlanState([Level([], [Blur(s, [(t, None)])]), EmptyLevel], map[s := Kernel(s, 0)])
  {
    assert LevelOrCreate([], 0) == [EmptyLevel];
    FirstBlur(t, s);
    assert LevelOrCreate([Level([], [Blur(s, [(t, None)])])], 1) == [Level([], [Blur(s, [(t, None)])]), EmptyLevel];
  }

  /** On a fresh plan, one blur at level 0 and a copy at level 1 give exactly those two levels. */
  lemma SharedBlurOnFresh(t: Texture, u: Texture, s: real, blitting: bool)
    ensures var st := PlanState([], map[]);
      var st1 := AddBlur(st.(levels := LevelOrCreate(st.levels, 0)), 0, s, t, None);
      var st2 := st1.(levels := LevelOrCreate(st1.levels, 1));
      1 < |st2.levels| &&
      EmitCopy(st2, 1, blitting, t, u) == PlanState([Level([], [Blur(s, [(t, None)])]), CopyPart(blitting, t, u)], map[s := Kernel(s, 0)])
  {
    LastBlurOnFresh(t, s);
    CopyIntoEmpty(PlanState([Level([], [Blur(s, [(t, None)])]), EmptyLevel], map[s := Kernel(s, 0)]), blitting, t, u);
  }

  /** A copy into an empty last level makes that level exactly the copy. */
  lemma CopyIntoEmpty(st: PlanState, blitting: bool, from: Texture, to: Texture)
    requires |st.levels| == 2 && st.levels[1] == EmptyLevel
    ensures EmitCopy(st, 1, blitting, from, to) == st.(levels := [st.levels[0], CopyPart(blitting, from, to)])
  {
    EmitCopyLevel(st, 1, blitting, from, to);
    assert Concat(EmptyLevel, CopyPart(blitting, from, to)) == CopyPart(blitting, from, to);
  }

  /**
   * One layer with the single radius 5: one in-place blur of its texture at
   * level 0, one kernel, and an empty level 1 opened by the descent.
   */
  lemma SingleBlur(a: Tree)
    requires a.1 == [5.0]
    ensures PlanTree([a], 0, false, PlanState([], map[])) ==
      PlanState([Level([], [Blur(5.0, [(a.0, None)])]), EmptyLevel], map[5.0 := Kernel(5.0, 0)])
  {
    LoneLastBlur(a, 0, false, PlanState([], map[]));
    assert KeyAt(a, 0) == 5.0;
    LastBlurOnFresh(a.0, 5.0);
  }

  /**
   * Two trees sharing a nonzero radius at `level` whose chains end there: one
   * in-place blur of the first, and one level down a copy of it into the second.
   */
  lemma PairLastBlur(a: Tree, b: Tree, level: nat, blitting: bool, st: PlanState)
    requires level <= |st.levels| && KeyAt(a, level) == KeyAt(b, level) && KeyAt(a, level) != 0.0
    requires KeyAt(a, level + 1) == 0.0 && KeyAt(b, level + 1) == 0.0
    ensures var st1 := AddBlur(st.(levels := LevelOrCreate(st.levels, level)), level, KeyAt(a, level), a.0, None);
      var st2 := st1.(levels := LevelOrCreate(st1.levels, level + 1));
      level + 1 < |st2.levels| && PlanTree([a, b], level, blitting, st) == EmitCopy(st2, level + 1, blitting, a.0, b.0)
  {
    var trees := [a, b];
    PairPartition(a, b, level);
    PairPartition(a, b, level + 1);
    var st0 := st.(levels := LevelOrCreate(st.levels, level));
    assert PlanGroups(trees, level, blitting, 1, st0) == st0;
    assert PlanGroups(trees, level, blitting, 0, st0) == st0;
    var st1 := AddBlur(st0, level, KeyAt(a, level), a.0, None);
    assert PlanMaster(trees, level, blitting, st0) == PlanTree(trees, level + 1, blitting, st1);
    var st2 := st1.(levels := LevelOrCreate(st1.levels, level + 1));
    assert PlanGroups(trees, level + 1, blitting, 1, st2) == st2;
    assert PlanGroups(trees, level + 1, blitting, 0, st2) == st2;
    var st3 := EmitCopy(st2, level + 1, blitting, a.0, b.0);
    assert CopyToRest(trees, 2, level + 1, blitting, a.0, st3) == st3;
    assert PlanMaster(trees, level + 1, blitting, st2) == st3;
  }

  /**
   * Two layers with the same radius: one blur, in place on the first texture,
   * and one level down the second texture gets a copy of the blurred first.
   */
  lemma SharedRadius(a: Tree, b: Tree, s: real, blitting: bool)
    requires a.1 == [s] && b.1 == [s] && s != 0.0
    ensures PlanTree([a, b], 0, blitting, PlanState([], map[])) ==
      PlanState([Level([], [Blur(s, [(a.0, None)])]), CopyPart(blitting, a.0, b.0)], map[s := Kernel(s, 0)])
  {
    PairLastBlur(a, b, 0, blitting, PlanState([], map[]));
    assert KeyAt(a, 0) == s;
    SharedBlurOnFresh(a.0, b.0, s, blitting);
  }

  /**
   * A chain that starts with radius 0 is never blurred, whatever follows:
   * the later radii are never reached.
   */
  lemma ZeroFirstRadius(a: Tree, blitting: bool, m: map<real, Kernel>)
    requires |a.1| > 0 && a.1[0] == 0.0
    ensures PlanTree([a], 0, blitting, PlanState([], m)) == PlanState([EmptyLevel], m)
  {
    LoneZero(a, 0, blitting, PlanState([], m));
  }

  /** Two trees with different radii make two groups, in input order. */
  lemma DistinctPairPartition(a: Tree, b: Tree, level: nat)
    requires KeyAt(a, level) != KeyAt(b, level)
    ensures Partition([a, b], level) == [Bucket(KeyAt(a, level), [a]), Bucket(KeyAt(b, level), [b])]
  {
    var ka, kb := KeyAt(a, level), KeyAt(b, level);
    var kv := Keyed([a, b], level);
    assert kv == [(ka, a), (kb, b)];
    SingletonPartition(a, level);
    assert kv[..1] == Keyed([a], level);
    BucketizeSnoc(kv[..1], kb, b);
    assert kv[..1] + [(kb, b)] == kv;
    assert Keys([Bucket(ka, [a])]) == [ka];
  }

  /** A tree followed by two trees sharing a different radius makes two groups, in order of first appearance. */
  lemma SplitPartition(a: Tree, b: Tree, c: Tree, level: nat)
    requires KeyAt(b, level) == KeyAt(c, level) != KeyAt(a, level)
    ensures Partition([a, b, c], level) == [Bucket(KeyAt(a, level), [a]), Bucket(KeyAt(b, level), [b, c])]
  {
    var ka, kb := KeyAt(a, level), KeyAt(b, level);
    var kv := Keyed([a, b, c], level);
    assert kv == [(ka, a), (kb, b), (kb, c)];
    DistinctPairPartition(a, b, level);
    assert kv[..2] == Keyed([a, b], level);
    var g2 := [Bucket(ka, [a]), Bucket(kb, [b])];
    BucketizeSnoc(kv[..2], kb, c);
    assert kv[..2] + [(kb, c)] == kv;
    assert Keys(g2) == [ka, kb];
    assert [b] + [c] == [b, c];
  }

  /**
   * A tree with a nonzero radius at `level` whose chain ends there, followed
   * by two trees of radius 0: the zero group gets one copy from the master
   * into its first tree, then the master is blurred in place, and the next
   * level is opened empty.  The third tree is never written.
   */
  lemma GapPlan(a: Tree, b: Tree, c: Tree, level: nat, blitting: bool, st: PlanState)
    requires level <= |st.levels|
    requires KeyAt(b, level) == 0.0 && KeyAt(c, level) == 0.0
    requires KeyAt(a, level) != 0.0 && KeyAt(a, level + 1) == 0.0
    ensures var st0 := st.(levels := LevelOrCreate(st.levels, level));
      level < |st0.levels| &&
      var st2 := AddBlur(EmitCopy(st0, level, blitting, a.0, b.0), level, KeyAt(a, level), a.0, None);
      PlanTree([a, b, c], level, blitting, st) == st2.(levels := LevelOrCreate(st2.levels, level + 1))
  {
    var trees := [a, b, c];
    SplitPartition(a, b, c, level);
    var st0 := st.(levels := LevelOrCreate(st.levels, level));
    var st1 := EmitCopy(st0, level, blitting, a.0, b.0);
    assert PlanGroup(trees, level, blitting, 0, st0) == st0;
    assert PlanGroup(trees, level, blitting, 1, st0) == st1;
    assert PlanGroups(trees, level, blitting, 2, st1) == st1;
    assert PlanGroups(trees, level, blitting, 1, st0) == st1;
    assert PlanGroups(trees, level, blitting, 0, st0) == st1;
    var st2 := AddBlur(st1, level, KeyAt(a, level), a.0, None);
    assert PlanMaster(trees, level, blitting, st1) == PlanTree([a], level + 1, blitting, st2);
    LoneZero(a, level + 1, blitting, st2);
  }

  /** On a fresh plan without blits, a copy and then a blur at level 0, followed by opening level 1. */
  lemma GapOnFresh(t: Texture, u: Texture, s: real)
    ensures var st0 := PlanState([], map[]).(levels := LevelOrCreate([], 0));
      0 < |st0.levels| &&
      var st2 := AddBlur(EmitCopy(st0, 0, false, t, u), 0, s, t, None);
      st2.(levels := LevelOrCreate(st2.levels, 1)) ==
        PlanState([Level([], [Copy(t, u), Blur(s, [(t, None)])]), EmptyLevel], map[s := Kernel(s, 0)])
  {
    assert LevelOrCreate([], 0) == [EmptyLevel];
    var st1 := EmitCopy(PlanState([EmptyLevel], map[]), 0, false, t, u);
    assert EmptyLevel.afterSteps + [Copy(t, u)] == [Copy(t, u)];
    assert st1 == PlanState([Level([], [Copy(t, u)])], map[]);
    assert AddSigma(map[], s) == map[s := Kernel(s, 0)];
    var l := Level([], [Copy(t, u), Blur(s, [(t, None)])]);
    assert [Copy(t, u)] + [Blur(s, [(t, None)])] == l.afterSteps;
    assert AddBlur(st1, 0, s, t, None) == PlanState([l], map[s := Kernel(s, 0)]);
    assert LevelOrCreate([l], 1) == [l, EmptyLevel];
  }

  /**
   * A zero-radius group with two members that is not the master group: only
   * its first member is written (a copy from the master), the second one is
   * never a destination.  The whole plan is that copy, the master's blur, and
   * an empty level 1.
   */
  lemma CoverageGap(a: Tree, b: Tree, c: Tree)
    requires a.1 == [5.0] && b.1 == [0.0] && c.1 == [0.0]
    ensures PlanTree([a, b, c], 0, false, PlanState([], map[])) ==
      PlanState([Level([], [Copy(a.0, b.0), Blur(5.0, [(a.0, None)])]), EmptyLevel], map[5.0 := Kernel(5.0, 0)])
  {
    GapPlan(a, b, c, 0, false, PlanState([], map[]));
    assert KeyAt(a, 0) == 5.0;
    GapOnFresh(a.0, b.0, 5.0);
  }

  /** One prepared layer with scale factor 1, opacity 1, power 1, the single radius 5 and texture 0. */
  const OneLayer: Instructions := [Bucket(1.0, [Entry([5.0], 1.0, 1.0, Some(Made(0)))])]

  /** Its levels at global scale 1 without blits: one in-place blur at level 0, then an empty level. */
  lemma OneLayerLevels()
    ensures WellFormed(OneLayer) && Prepared(OneLayer)
    ensures PlanAll(OneLayer, 1.0, false, 0, PlanState([], map[])).levels ==
      [Level([], [Blur(5.0, [(Made(0), None)])]), EmptyLevel]
  {
    var e := OneLayer[0].items[0];
    assert WellFormed(OneLayer) && Prepared(OneLayer);
    var a := (Made(0), [5.0]);
    assert ScaledChain([5.0], 1.0, 1.0) == [5.0];
    assert TreesOf([e], 1.0, 1.0) == [a];
    SingleBlur(a);
    var r := PlanState([Level([], [Blur(5.0, [(Made(0), None)])]), EmptyLevel], map[5.0 := Kernel(5.0, 0)]);
    assert PlanAll(OneLayer, 1.0, false, 1, r) == r;
  }

  lemma FlattenBlurThenEmpty(s: Step)
    requires !s.Blit?
    ensures FlattenLevels([Level([], [s]), EmptyLevel]) == [s]
  {
    var ls := [Level([], [s]), EmptyLevel];
    assert ls[..1] == [Level([], [s])];
    assert [Level([], [s])][..0] == [];
    assert FlattenLevels(ls[..1]) == [s];
  }

  /** The combine pass for that layer reads its texture and then the source, both with weights (1, 1). */
  lemma OneLayerCombine()
    ensures Prepared(OneLayer)
    ensures CombinePieces(OneLayer, Replace) == [Made(0), Source]
    ensures CombineSettings(OneLayer, Replace) == [(1.0, 1.0), (1.0, 1.0)]
  {
    var e := OneLayer[0].items[0];
    assert Buckets.Flatten(OneLayer) == [e];
    assert TexturesOf([e]) == [Made(0)];
    assert WeightsOf([e]) == [(1.0, 1.0)];
  }

  /**
   * The whole plan for that layer: a copy of the source into the layer's
   * texture, then one in-place blur of it; the combine pass reads that
   * texture and the source, both with weights (1, 1).
   */
  lemma OneSimpleLayer()
    ensures WellFormed(OneLayer) && Prepared(OneLayer)
    ensures SourceCopies(OneLayer) + FlattenLevels(PlanAll(OneLayer, 1.0, false, 0, PlanState([], map[])).levels) ==
      [Copy(Source, Made(0)), Blur(5.0, [(Made(0), None)])]
    ensures CombinePieces(OneLayer, Replace) == [Made(0), Source]
    ensures CombineSettings(OneLayer, Replace) == [(1.0, 1.0), (1.0, 1.0)]
  {
    OneLayerLevels();
    FlattenBlurThenEmpty(Blur(5.0, [(Made(0), None)]));
    assert SourceCopies(OneLayer) == [Copy(Source, Made(0))];
    OneLayerCombine();
  }
}
