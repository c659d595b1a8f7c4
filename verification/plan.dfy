/**
 * The recursive blur scheduler of a blur composition, as pure functions on a
 * planning state.
 *
 * A *tree* is an instance texture together with its chain of blur radii, one
 * radius per level.  At every level the trees are grouped by their radius
 * there (0 when the chain is too short); the group of the first tree is the
 * *master* group and its first texture the *master texture*, which already
 * holds the picture blurred up to this level.  Every other group receives the
 * master picture in its first texture: by a copy (or blit) when its radius is
 * 0, by an out-of-place blur otherwise, after which the group is scheduled
 * again one level down.  The master group itself is blurred in place and
 * scheduled one level down, or, when its radius is 0, copied to its other
 * members.  Steps are collected in one bucket per level.
 */
module Plan {
  import opened Buckets

  datatype Option<T> = None | Some(value: T)

  /** A texture: the caller's source or destination, or the `serial`-th one the composition allocated. */
  datatype Texture = Source | Destination | Made(serial: nat)

  /** A Gaussian blur kernel object, built for one sigma; `serial` tells distinct objects apart. */
  datatype Kernel = Kernel(sigma: real, serial: nat)

  /** An encoding step: a render-pass copy, a batch of blits, or a blur with its (from, to) passes (`None`: in place). */
  datatype Step =
    | Copy(from: Texture, to: Texture)
    | Blit(pairs: seq<(Texture, Texture)>)
    | Blur(sigma: real, passes: seq<(Texture, Option<Texture>)>)

  /** The steps of one level: the blits batched in front, then the other steps in order. */
  datatype Level = Level(bigBlit: seq<(Texture, Texture)>, afterSteps: seq<Step>)

  const EmptyLevel := Level([], [])

  type Tree = (Texture, seq<real>)

  /** What the scheduler updates: the level buckets and the kernel cache, keyed by sigma. */
  datatype PlanState = PlanState(levels: seq<Level>, sigmas: map<real, Kernel>)

  function Max(a: int, b: int): int
  {
    if a < b then b else a
  }

  // ---------------------------------------------------------------------------
  // Grouping the trees of one level
  // ---------------------------------------------------------------------------

  /** The radius of a tree at `level`, 0 once its chain has ended. */
  function KeyAt(t: Tree, level: nat): real
  {
    if level < |t.1| then t.1[level] else 0.0
  }

  function Keyed(trees: seq<Tree>, level: nat): seq<(real, Tree)>
  {
    seq(|trees|, i requires 0 <= i < |trees| => (KeyAt(trees[i], level), trees[i]))
  }

  /** The groups of one level, keyed by radius, in order of first appearance. */
  function Partition(trees: seq<Tree>, level: nat): seq<Bucket<real, Tree>>
  {
    Bucketize(Keyed(trees, level))
  }

  /** The length of the longest chain. */
  function Height(trees: seq<Tree>): nat
  {
    if trees == [] then 0 else Max(|trees[0].1|, Height(trees[1..]))
  }

  /** The levels still to go below `level`. */
  function Remaining(trees: seq<Tree>, level: nat): nat
  {
    if level < Height(trees) then Height(trees) - level else 0
  }

  lemma {:induction false} HeightBound(trees: seq<Tree>, t: Tree)
    requires t in trees
    ensures |t.1| <= Height(trees)
  {
    if trees[0] != t {
      assert t in trees[1..];
      HeightBound(trees[1..], t);
    }
  }

  lemma {:induction false} HeightOfSubset(sub: seq<Tree>, trees: seq<Tree>)
    requires forall t :: t in sub ==> t in trees
    ensures Height(sub) <= Height(trees)
  {
    if sub != [] {
      HeightBound(trees, sub[0]);
      forall t | t in sub[1..]
        ensures t in trees
      {
        assert t in sub;
      }
      HeightOfSubset(sub[1..], trees);
    }
  }

  lemma KeyedMembers(trees: seq<Tree>, level: nat, k: real, t: Tree)
    requires (k, t) in Keyed(trees, level)
    ensures t in trees && KeyAt(t, level) == k
  {
    var i :| 0 <= i < |Keyed(trees, level)| && Keyed(trees, level)[i] == (k, t);
    assert trees[i] == t;
  }

  /** Every group is non-empty and holds trees of the input whose radius at this level is the group's key. */
  lemma PartitionFacts(trees: seq<Tree>, level: nat)
    ensures forall i :: 0 <= i < |Partition(trees, level)| ==> Partition(trees, level)[i].items != []
    ensures forall i, t :: 0 <= i < |Partition(trees, level)| && t in Partition(trees, level)[i].items ==>
      t in trees && KeyAt(t, level) == Partition(trees, level)[i].key
  {
    var kvs := Keyed(trees, level);
    BucketizeSpec(kvs);
    forall i, t | 0 <= i < |Partition(trees, level)| && t in Partition(trees, level)[i].items
      ensures t in trees && KeyAt(t, level) == Partition(trees, level)[i].key
    {
      var b := Partition(trees, level)[i];
      SelectMembers(kvs, b.key, t);
      KeyedMembers(trees, level, b.key, t);
    }
  }

  /**
   * Each tree lands in exactly one group: the keys are distinct, each group
   * holds exactly the trees with its radius in input order, and together the
   * groups hold the input trees, each as often as it occurs.
   */
  lemma PartitionIsExact(trees: seq<Tree>, level: nat)
    ensures DistinctKeys(Partition(trees, level))
    ensures forall i :: 0 <= i < |Partition(trees, level)| ==>
      Partition(trees, level)[i].items == Select(Keyed(trees, level), Partition(trees, level)[i].key)
    ensures multiset(Buckets.Flatten(Partition(trees, level))) == multiset(trees)
  {
    var kvs := Keyed(trees, level);
    BucketizeSpec(kvs);
    BucketizePartition(kvs);
    assert Values(kvs) == trees;
  }

  /** Recursing into a group whose radius is not 0 goes strictly down. */
  lemma Descend(trees: seq<Tree>, level: nat, group: seq<Tree>)
    requires group != [] && KeyAt(group[0], level) != 0.0
    requires forall t :: t in group ==> t in trees
    ensures Remaining(group, level + 1) < Remaining(trees, level)
    ensures level + 1 <= Height(group) <= Height(trees)
  {
    HeightBound(group, group[0]);
    HeightOfSubset(group, trees);
  }

  /** The radius of the first tree: the key of the master group. */
  function MasterKey(trees: seq<Tree>, level: nat): real
    requires trees != []
  {
    KeyAt(trees[0], level)
  }

  /** The first tree opens the first group, so the master group is the first one. */
  lemma MasterFirst(trees: seq<Tree>, level: nat)
    requires trees != []
    ensures |Partition(trees, level)| > 0
    ensures Partition(trees, level)[0].key == MasterKey(trees, level)
    ensures Find(Keys(Partition(trees, level)), MasterKey(trees, level)) == 0
    ensures Partition(trees, level)[0].items != [] && Partition(trees, level)[0].items[0] == trees[0]
  {
    BucketizeHead(Keyed(trees, level));
    assert Keys(Partition(trees, level))[0] == MasterKey(trees, level);
  }

  /** The group looked up by the master key: the first group, which starts with the first tree. */
  function MasterGroup(trees: seq<Tree>, level: nat): (g: seq<Tree>)
    requires trees != []
    ensures g == Partition(trees, level)[0].items
    ensures g != [] && g[0] == trees[0]
  {
    MasterFirst(trees, level);
    var gs := Partition(trees, level);
    gs[Find(Keys(gs), MasterKey(trees, level))].items
  }

  /** The first texture of the master group, which is the first tree's texture. */
  function MasterTexture(trees: seq<Tree>, level: nat): (t: Texture)
    requires trees != []
    ensures t == trees[0].0
  {
    MasterGroup(trees, level)[0].0
  }

  // ---------------------------------------------------------------------------
  // Elementary updates of the planning state
  // ---------------------------------------------------------------------------

  /** The level buckets after asking for bucket `level`: one empty bucket is appended when it is missing. */
  function LevelOrCreate(levels: seq<Level>, level: nat): seq<Level>
  {
    if level < |levels| then levels else levels + [EmptyLevel]
  }

  /** The index of the bucket handed back: `level` when present, else the bucket just appended. */
  function LevelIndex(levels: seq<Level>, level: nat): nat
  {
    if level < |levels| then level else |levels|
  }

  /** Asked for at most one level past the end, the bucket handed back is bucket `level`, and nothing else moves. */
  lemma LevelOrCreateHandsBackLevel(levels: seq<Level>, level: nat)
    requires level <= |levels|
    ensures LevelIndex(levels, level) == level < |LevelOrCreate(levels, level)|
    ensures |LevelOrCreate(levels, level)| == Max(|levels|, level + 1)
    ensures LevelOrCreate(levels, level)[..|levels|] == levels
    ensures level == |levels| ==> LevelOrCreate(levels, level)[level] == EmptyLevel
  {
  }

  /** The kernel cache after `checkAddSigma(s)`: a new kernel only when `s` has none yet. */
  function AddSigma(m: map<real, Kernel>, s: real): map<real, Kernel>
  {
    if s in m then m else m[s := Kernel(s, |m|)]
  }

  /** One kernel per sigma, built for that sigma, each a distinct object. */
  ghost predicate KernelsDistinct(m: map<real, Kernel>)
  {
    && (forall s :: s in m ==> m[s].sigma == s && m[s].serial < |m|)
    && (forall s, t :: s in m && t in m && s != t ==> m[s].serial != m[t].serial)
  }

  /**
   * After `AddSigma(m, s)` the sigma has a kernel, existing kernels are never
   * replaced, at most one kernel is built, a repeated call changes nothing, and
   * the cache keeps one distinct kernel per sigma.
   */
  lemma AddSigmaSpec(m: map<real, Kernel>, s: real)
    ensures s in AddSigma(m, s)
    ensures forall t :: t in m ==> t in AddSigma(m, s) && AddSigma(m, s)[t] == m[t]
    ensures AddSigma(m, s).Keys == m.Keys + {s}
    ensures AddSigma(AddSigma(m, s), s) == AddSigma(m, s)
    ensures KernelsDistinct(m) ==> KernelsDistinct(AddSigma(m, s)) && AddSigma(m, s)[s].sigma == s
  {
    if s !in m {
      assert |AddSigma(m, s)| == |m| + 1 by {
        assert AddSigma(m, s).Keys == m.Keys + {s};
      }
    }
  }

  /** Appends a copy from `from` to `to` to bucket `level`: to its blits when `blitting`, else to its steps. */
  function EmitCopy(st: PlanState, level: nat, blitting: bool, from: Texture, to: Texture): PlanState
    requires level < |st.levels|
  {
    var l := st.levels[level];
    var l' := if blitting then l.(bigBlit := l.bigBlit + [(from, to)]) else l.(afterSteps := l.afterSteps + [Copy(from, to)]);
    st.(levels := st.levels[level := l'])
  }

  /** Appends a one-pass blur step to bucket `level`. */
  function EmitBlur(st: PlanState, level: nat, sigma: real, from: Texture, to: Option<Texture>): PlanState
    requires level < |st.levels|
  {
    var l := st.levels[level];
    st.(levels := st.levels[level := l.(afterSteps := l.afterSteps + [Blur(sigma, [(from, to)])])])
  }

  // ---------------------------------------------------------------------------
  // What every scheduling call keeps
  // ---------------------------------------------------------------------------

  ghost predicate Prefix<T>(a: seq<T>, b: seq<T>)
  {
    |a| <= |b| && b[..|a|] == a
  }

  ghost predicate LevelPrefix(a: Level, b: Level)
  {
    Prefix(a.bigBlit, b.bigBlit) && Prefix(a.afterSteps, b.afterSteps)
  }

  /**
   * `r` extends `st` from `level` on: buckets are only appended to or added,
   * buckets above `level` are untouched, and cached kernels stay.
   */
  ghost predicate Extends(st: PlanState, r: PlanState, level: nat)
  {
    && |st.levels| <= |r.levels|
    && (forall j :: 0 <= j < level && j < |st.levels| ==> r.levels[j] == st.levels[j])
    && (forall j :: level <= j < |st.levels| ==> LevelPrefix(st.levels[j], r.levels[j]))
    && (forall s :: s in st.sigmas ==> s in r.sigmas && r.sigmas[s] == st.sigmas[s])
  }

  /** A step of a level's ordered part: a copy, or a one-pass blur whose kernel is cached. */
  predicate StepReady(s: Step, m: map<real, Kernel>)
  {
    match s
    case Copy(_, _) => true
    case Blit(_) => false
    case Blur(sigma, passes) => sigma in m && |passes| == 1
  }

  /** The cache holds one kernel per sigma, and every scheduled blur finds its kernel. */
  ghost predicate Valid(st: PlanState)
  {
    && KernelsDistinct(st.sigmas)
    && (forall j, k :: 0 <= j < |st.levels| && 0 <= k < |st.levels[j].afterSteps| ==>
          StepReady(st.levels[j].afterSteps[k], st.sigmas))
  }

  /** Nothing scheduled and no kernel built: the plan is consistent. */
  lemma EmptyPlanValid()
    ensures Valid(PlanState([], map[]))
  {
  }

  lemma ExtendsTrans(a: PlanState, b: PlanState, c: PlanState, level: nat, level': nat)
    requires Extends(a, b, level) && Extends(b, c, level') && level <= level'
    ensures Extends(a, c, level)
  {
    forall j | level <= j < |a.levels|
      ensures LevelPrefix(a.levels[j], c.levels[j])
    {
      if j < level' {
        assert c.levels[j] == b.levels[j];
      } else {
        assert LevelPrefix(b.levels[j], c.levels[j]);
        assert c.levels[j].bigBlit[..|a.levels[j].bigBlit|] == b.levels[j].bigBlit[..|a.levels[j].bigBlit|];
        assert c.levels[j].afterSteps[..|a.levels[j].afterSteps|] == b.levels[j].afterSteps[..|a.levels[j].afterSteps|];
      }
    }
  }

  lemma EmitCopyKeeps(st: PlanState, level: nat, blitting: bool, from: Texture, to: Texture)
    requires level < |st.levels|
    ensures Extends(st, EmitCopy(st, level, blitting, from, to), level)
    ensures Valid(st) ==> Valid(EmitCopy(st, level, blitting, from, to))
  {
    var r := EmitCopy(st, level, blitting, from, to);
    assert LevelPrefix(st.levels[level], r.levels[level]);
    if Valid(st) {
      forall j, k | 0 <= j < |r.levels| && 0 <= k < |r.levels[j].afterSteps|
        ensures StepReady(r.levels[j].afterSteps[k], r.sigmas)
      {
        if j != level || k < |st.levels[j].afterSteps| {
          assert r.levels[j].afterSteps[k] == st.levels[j].afterSteps[k];
        }
      }
    }
  }

  /** `checkAddSigma(sigma)` followed by a blur step with that sigma. */
  function AddBlur(st: PlanState, level: nat, sigma: real, from: Texture, to: Option<Texture>): PlanState
    requires level < |st.levels|
  {
    EmitBlur(st.(sigmas := AddSigma(st.sigmas, sigma)), level, sigma, from, to)
  }

  lemma AddBlurKeeps(st: PlanState, level: nat, sigma: real, from: Texture, to: Option<Texture>)
    requires level < |st.levels|
    ensures Extends(st, AddBlur(st, level, sigma, from, to), level)
    ensures Valid(st) ==> Valid(AddBlur(st, level, sigma, from, to))
  {
    var r := AddBlur(st, level, sigma, from, to);
    AddSigmaSpec(st.sigmas, sigma);
    assert LevelPrefix(st.levels[level], r.levels[level]);
    if Valid(st) {
      forall j, k | 0 <= j < |r.levels| && 0 <= k < |r.levels[j].afterSteps|
        ensures StepReady(r.levels[j].afterSteps[k], r.sigmas)
      {
        if j != level || k < |st.levels[j].afterSteps| {
          assert r.levels[j].afterSteps[k] == st.levels[j].afterSteps[k];
          assert StepReady(st.levels[j].afterSteps[k], st.sigmas);
        }
      }
    }
  }

  lemma OpenLevelKeeps(st: PlanState, level: nat)
    requires level <= |st.levels|
    ensures Extends(st, st.(levels := LevelOrCreate(st.levels, level)), level)
    ensures Valid(st) ==> Valid(st.(levels := LevelOrCreate(st.levels, level)))
  {
    var r := st.(levels := LevelOrCreate(st.levels, level));
    forall j | level <= j < |st.levels|
      ensures LevelPrefix(st.levels[j], r.levels[j])
    {
      assert r.levels[j] == st.levels[j];
    }
    if Valid(st) {
      forall j, k | 0 <= j < |r.levels| && 0 <= k < |r.levels[j].afterSteps|
        ensures StepReady(r.levels[j].afterSteps[k], r.sigmas)
      {
        assert j < |st.levels|;
        assert r.levels[j] == st.levels[j];
      }
    }
  }

  // ---------------------------------------------------------------------------
  // The scheduler
  // ---------------------------------------------------------------------------

  /**
   * Schedules `trees` from `level` on.  The trees arrive with the picture
   * already in the master texture.
   */
  function PlanTree(trees: seq<Tree>, level: nat, blitting: bool, st: PlanState): (r: PlanState)
    requires trees != [] && level <= |st.levels|
    ensures Extends(st, r, level)
    ensures Valid(st) ==> Valid(r)
    decreases Remaining(trees, level), 2, 0
  {
    var st1 := st.(levels := LevelOrCreate(st.levels, level));
    OpenLevelKeeps(st, level);
    var st2 := PlanGroups(trees, level, blitting, 0, st1);
    var r := PlanMaster(trees, level, blitting, st2);
    ExtendsTrans(st, st1, st2, level, level);
    ExtendsTrans(st, st2, r, level, level);
    r
  }

  /** The groups from index `i` on, in order; the master group is skipped. */
  function PlanGroups(trees: seq<Tree>, level: nat, blitting: bool, i: nat, st: PlanState): (r: PlanState)
    requires trees != [] && level < |st.levels| && i <= |Partition(trees, level)|
    ensures Extends(st, r, level)
    ensures Valid(st) ==> Valid(r)
    decreases Remaining(trees, level), 1, |Partition(trees, level)| - i
  {
    if i == |Partition(trees, level)| then st
    else
      var st1 := PlanGroup(trees, level, blitting, i, st);
      var r := PlanGroups(trees, level, blitting, i + 1, st1);
      ExtendsTrans(st, st1, r, level, level);
      r
  }

  /** Group `i`: a copy when its radius is 0, else a blur into its first texture and the group one level down. */
  function PlanGroup(trees: seq<Tree>, level: nat, blitting: bool, i: nat, st: PlanState): (r: PlanState)
    requires trees != [] && level < |st.levels| && i < |Partition(trees, level)|
    ensures Extends(st, r, level)
    ensures Valid(st) ==> Valid(r)
    decreases Remaining(trees, level), 0, 0
  {
    var g := Partition(trees, level)[i];
    PartitionFacts(trees, level);
    if g.key == MasterKey(trees, level) then st
    else if g.key == 0.0 then
      EmitCopyKeeps(st, level, blitting, MasterTexture(trees, level), g.items[0].0);
      EmitCopy(st, level, blitting, MasterTexture(trees, level), g.items[0].0)
    else
      Descend(trees, level, g.items);
      var st1 := AddBlur(st, level, g.key, MasterTexture(trees, level), Some(g.items[0].0));
      AddBlurKeeps(st, level, g.key, MasterTexture(trees, level), Some(g.items[0].0));
      var r := PlanTree(g.items, level + 1, blitting, st1);
      ExtendsTrans(st, st1, r, level, level + 1);
      r
  }

  /** The master group: blurred in place and scheduled one level down, or copied to its other members. */
  function PlanMaster(trees: seq<Tree>, level: nat, blitting: bool, st: PlanState): (r: PlanState)
    requires trees != [] && level < |st.levels|
    ensures Extends(st, r, level)
    ensures Valid(st) ==> Valid(r)
    decreases Remaining(trees, level), 0, 0
  {
    var mk := MasterKey(trees, level);
    var mg := MasterGroup(trees, level);
    PartitionFacts(trees, level);
    if mk != 0.0 then
      assert mg == Partition(trees, level)[0].items;
      Descend(trees, level, mg);
      var st1 := AddBlur(st, level, mk, MasterTexture(trees, level), None);
      AddBlurKeeps(st, level, mk, MasterTexture(trees, level), None);
      var r := PlanTree(mg, level + 1, blitting, st1);
      ExtendsTrans(st, st1, r, level, level + 1);
      r
    else
      CopyToRest(mg, 1, level, blitting, MasterTexture(trees, level), st)
  }

  /** Copies `from` into the textures of `group[i..]`, in order. */
  function CopyToRest(group: seq<Tree>, i: nat, level: nat, blitting: bool, from: Texture, st: PlanState): (r: PlanState)
    requires level < |st.levels| && i <= |group|
    ensures Extends(st, r, level)
    ensures Valid(st) ==> Valid(r)
    ensures |r.levels| == |st.levels|
    decreases |group| - i
  {
    if i == |group| then st
    else
      var st1 := EmitCopy(st, level, blitting, from, group[i].0);
      EmitCopyKeeps(st, level, blitting, from, group[i].0);
      var r := CopyToRest(group, i + 1, level, blitting, from, st1);
      ExtendsTrans(st, st1, r, level, level);
      r
  }

  // ---------------------------------------------------------------------------
  // What one call writes at its own level
  // ---------------------------------------------------------------------------

  function Concat(a: Level, b: Level): Level
  {
    Level(a.bigBlit + b.bigBlit, a.afterSteps + b.afterSteps)
  }

  /** A copy from `from` to `to`: a blit when `blitting`, else a render-pass copy. */
  function CopyPart(blitting: bool, from: Texture, to: Texture): Level
  {
    if blitting then Level([(from, to)], []) else Level([], [Copy(from, to)])
  }

  /**
   * Reference definition of what group `i` adds to bucket `level`: nothing for
   * the master group, one copy from the first tree to the group's first tree
   * for radius 0, one out-of-place blur with the group's radius otherwise.
   */
  function GroupPart(trees: seq<Tree>, level: nat, blitting: bool, i: nat): Level
    requires trees != [] && i < |Partition(trees, level)|
  {
    var g := Partition(trees, level)[i];
    PartitionFacts(trees, level);
    if g.key == KeyAt(trees[0], level) then EmptyLevel
    else if g.key == 0.0 then CopyPart(blitting, trees[0].0, g.items[0].0)
    else Level([], [Blur(g.key, [(trees[0].0, Some(g.items[0].0))])])
  }

  function GroupsPart(trees: seq<Tree>, level: nat, blitting: bool, i: nat): Level
    requires trees != [] && i <= |Partition(trees, level)|
    decreases |Partition(trees, level)| - i
  {
    if i == |Partition(trees, level)| then EmptyLevel
    else Concat(GroupPart(trees, level, blitting, i), GroupsPart(trees, level, blitting, i + 1))
  }

  /** Copies from `from` to every tree of `group[i..]`, in order. */
  function RestPart(group: seq<Tree>, i: nat, blitting: bool, from: Texture): Level
    decreases |group| - i
  {
    if i >= |group| then EmptyLevel
    else Concat(CopyPart(blitting, from, group[i].0), RestPart(group, i + 1, blitting, from))
  }

  /** What the master group adds: an in-place blur, or copies to all its other members. */
  function MasterPart(trees: seq<Tree>, level: nat, blitting: bool): Level
    requires trees != []
  {
    var mk := KeyAt(trees[0], level);
    MasterFirst(trees, level);
    if mk != 0.0 then Level([], [Blur(mk, [(trees[0].0, None)])])
    else RestPart(Partition(trees, level)[0].items, 1, blitting, trees[0].0)
  }

  /** Everything one scheduling call adds to its own level: the other groups in order, then the master group. */
  function LevelPart(trees: seq<Tree>, level: nat, blitting: bool): Level
    requires trees != []
  {
    Concat(GroupsPart(trees, level, blitting, 0), MasterPart(trees, level, blitting))
  }

  lemma ConcatAssoc(a: Level, b: Level, c: Level)
    ensures Concat(Concat(a, b), c) == Concat(a, Concat(b, c))
  {
    assert (a.bigBlit + b.bigBlit) + c.bigBlit == a.bigBlit + (b.bigBlit + c.bigBlit);
    assert (a.afterSteps + b.afterSteps) + c.afterSteps == a.afterSteps + (b.afterSteps + c.afterSteps);
  }

  lemma ConcatEmpty(a: Level)
    ensures Concat(a, EmptyLevel) == a
  {
    assert a.bigBlit + [] == a.bigBlit;
    assert a.afterSteps + [] == a.afterSteps;
  }

  lemma EmitCopyLevel(st: PlanState, level: nat, blitting: bool, from: Texture, to: Texture)
    requires level < |st.levels|
    ensures EmitCopy(st, level, blitting, from, to).levels[level] == Concat(st.levels[level], CopyPart(blitting, from, to))
  {
    ConcatEmpty(st.levels[level]);
  }

  lemma {:induction false} GroupLevel(trees: seq<Tree>, level: nat, blitting: bool, i: nat, st: PlanState)
    requires trees != [] && level < |st.levels| && i < |Partition(trees, level)|
    ensures PlanGroup(trees, level, blitting, i, st).levels[level] == Concat(st.levels[level], GroupPart(trees, level, blitting, i))
  {
    var g := Partition(trees, level)[i];
    PartitionFacts(trees, level);
    if g.key == MasterKey(trees, level) {
      ConcatEmpty(st.levels[level]);
    } else if g.key == 0.0 {
      EmitCopyLevel(st, level, blitting, trees[0].0, g.items[0].0);
    } else {
      Descend(trees, level, g.items);
      var st1 := AddBlur(st, level, g.key, MasterTexture(trees, level), Some(g.items[0].0));
      var r := PlanTree(g.items, level + 1, blitting, st1);
      assert r.levels[level] == st1.levels[level];
    }
  }

  lemma {:induction false} GroupsLevel(trees: seq<Tree>, level: nat, blitting: bool, i: nat, st: PlanState)
    requires trees != [] && level < |st.levels| && i <= |Partition(trees, level)|
    ensures PlanGroups(trees, level, blitting, i, st).levels[level] == Concat(st.levels[level], GroupsPart(trees, level, blitting, i))
    decreases |Partition(trees, level)| - i, 1
  {
    if i == |Partition(trees, level)| {
      ConcatEmpty(st.levels[level]);
    } else {
      GroupsLevelStep(trees, level, blitting, i, st);
    }
  }

  /** The step of `GroupsLevel`: group `i`, then the groups after it. */
  lemma {:induction false} GroupsLevelStep(trees: seq<Tree>, level: nat, blitting: bool, i: nat, st: PlanState)
    requires trees != [] && level < |st.levels| && i < |Partition(trees, level)|
    ensures PlanGroups(trees, level, blitting, i, st).levels[level] == Concat(st.levels[level], GroupsPart(trees, level, blitting, i))
    decreases |Partition(trees, level)| - i, 0
  {
    var st1 := PlanGroup(trees, level, blitting, i, st);
    GroupLevel(trees, level, blitting, i, st);
    GroupsLevel(trees, level, blitting, i + 1, st1);
    ConcatAssoc(st.levels[level], GroupPart(trees, level, blitting, i), GroupsPart(trees, level, blitting, i + 1));
  }

  lemma {:induction false} RestLevel(group: seq<Tree>, i: nat, level: nat, blitting: bool, from: Texture, st: PlanState)
    requires level < |st.levels| && i <= |group|
    ensures CopyToRest(group, i, level, blitting, from, st).levels[level] == Concat(st.levels[level], RestPart(group, i, blitting, from))
    decreases |group| - i
  {
    if i == |group| {
      ConcatEmpty(st.levels[level]);
    } else {
      var st1 := EmitCopy(st, level, blitting, from, group[i].0);
      EmitCopyLevel(st, level, blitting, from, group[i].0);
      RestLevel(group, i + 1, level, blitting, from, st1);
      ConcatAssoc(st.levels[level], CopyPart(blitting, from, group[i].0), RestPart(group, i + 1, blitting, from));
    }
  }

  lemma MasterLevel(trees: seq<Tree>, level: nat, blitting: bool, st: PlanState)
    requires trees != [] && level < |st.levels|
    ensures PlanMaster(trees, level, blitting, st).levels[level] == Concat(st.levels[level], MasterPart(trees, level, blitting))
  {
    var mk := MasterKey(trees, level);
    var mg := MasterGroup(trees, level);
    PartitionFacts(trees, level);
    if mk != 0.0 {
      Descend(trees, level, mg);
      var st1 := AddBlur(st, level, mk, MasterTexture(trees, level), None);
      var r := PlanTree(mg, level + 1, blitting, st1);
      assert r.levels[level] == st1.levels[level];
    } else {
      RestLevel(mg, 1, level, blitting, MasterTexture(trees, level), st);
    }
  }

  /**
   * One scheduling call leaves bucket `level` as it found it (or empty, when
   * it had to be created) followed by exactly `LevelPart`: the deeper
   * recursion never writes to this level.
   */
  lemma TreeLevel(trees: seq<Tree>, level: nat, blitting: bool, st: PlanState)
    requires trees != [] && level <= |st.levels|
    ensures PlanTree(trees, level, blitting, st).levels[level] ==
      Concat(LevelOrCreate(st.levels, level)[level], LevelPart(trees, level, blitting))
  {
    var st1 := st.(levels := LevelOrCreate(st.levels, level));
    var st2 := PlanGroups(trees, level, blitting, 0, st1);
    GroupsLevel(trees, level, blitting, 0, st1);
    MasterLevel(trees, level, blitting, st2);
    ConcatAssoc(st1.levels[level], GroupsPart(trees, level, blitting, 0), MasterPart(trees, level, blitting));
  }

  // ---------------------------------------------------------------------------
  // How deep scheduling goes
  // ---------------------------------------------------------------------------

  /**
   * Scheduling a tree list never opens more levels than its longest chain plus
   * one: any bound `B` that covers the levels already open, the current level
   * and the tallest tree still covers the levels afterwards.
   */
  lemma {:induction false} TreeDepth(trees: seq<Tree>, level: nat, blitting: bool, st: PlanState, B: nat)
    requires trees != [] && level <= |st.levels|
    requires |st.levels| <= B && level < B && Height(trees) < B
    ensures |PlanTree(trees, level, blitting, st).levels| <= B
    decreases Remaining(trees, level), 2, 0
  {
    var st1 := st.(levels := LevelOrCreate(st.levels, level));
    GroupsDepth(trees, level, blitting, 0, st1, B);
    MasterDepth(trees, level, blitting, PlanGroups(trees, level, blitting, 0, st1), B);
  }

  lemma {:induction false} GroupsDepth(trees: seq<Tree>, level: nat, blitting: bool, i: nat, st: PlanState, B: nat)
    requires trees != [] && level < |st.levels| && i <= |Partition(trees, level)|
    requires |st.levels| <= B && Height(trees) < B
    ensures |PlanGroups(trees, level, blitting, i, st).levels| <= B
    decreases Remaining(trees, level), 1, |Partition(trees, level)| - i, 1
  {
    if i < |Partition(trees, level)| {
      GroupsDepthStep(trees, level, blitting, i, st, B);
    } else {
      assert PlanGroups(trees, level, blitting, i, st) == st;
    }
  }

  /** The step of `GroupsDepth`: group `i`, then the groups after it. */
  lemma {:induction false} GroupsDepthStep(trees: seq<Tree>, level: nat, blitting: bool, i: nat, st: PlanState, B: nat)
    requires trees != [] && level < |st.levels| && i < |Partition(trees, level)|
    requires |st.levels| <= B && Height(trees) < B
    ensures |PlanGroups(trees, level, blitting, i, st).levels| <= B
    decreases Remaining(trees, level), 1, |Partition(trees, level)| - i, 0
  {
    var st1 := PlanGroup(trees, level, blitting, i, st);
    GroupDepth(trees, level, blitting, i, st, B);
    GroupsDepth(trees, level, blitting, i + 1, st1, B);
    assert PlanGroups(trees, level, blitting, i, st) == PlanGroups(trees, level, blitting, i + 1, st1);
  }

  lemma {:induction false} GroupDepth(trees: seq<Tree>, level: nat, blitting: bool, i: nat, st: PlanState, B: nat)
    requires trees != [] && level < |st.levels| && i < |Partition(trees, level)|
    requires |st.levels| <= B && Height(trees) < B
    ensures |PlanGroup(trees, level, blitting, i, st).levels| <= B
    decreases Remaining(trees, level), 0, 0
  {
    var g := Partition(trees, level)[i];
    PartitionFacts(trees, level);
    if g.key != MasterKey(trees, level) && g.key != 0.0 {
      Descend(trees, level, g.items);
      TreeDepth(g.items, level + 1, blitting, AddBlur(st, level, g.key, MasterTexture(trees, level), Some(g.items[0].0)), B);
    }
  }

  lemma {:induction false} MasterDepth(trees: seq<Tree>, level: nat, blitting: bool, st: PlanState, B: nat)
    requires trees != [] && level < |st.levels|
    requires |st.levels| <= B && Height(trees) < B
    ensures |PlanMaster(trees, level, blitting, st).levels| <= B
    decreases Remaining(trees, level), 0, 0
  {
    var mg := MasterGroup(trees, level);
    PartitionFacts(trees, level);
    if MasterKey(trees, level) != 0.0 {
      assert mg == Partition(trees, level)[0].items;
      Descend(trees, level, mg);
      TreeDepth(mg, level + 1, blitting, AddBlur(st, level, MasterKey(trees, level), MasterTexture(trees, level), None), B);
    }
  }
}
