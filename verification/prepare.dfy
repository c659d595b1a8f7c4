/**
 * The planning parts of preparing a blur composition, as functions: the
 * grouping of layers by scale factor, the allocation of one texture per
 * layer instance, the trees handed to the scheduler, the flattening of the
 * level buckets into one step list, and the ordered inputs of the final
 * combine pass.
 */
module Prepare {
  import opened Buckets
  import opened Plan
  import opened Layers

  /** How the combined picture is written to the destination. */
  datatype BlendMode = Replace | Additive | Alpha | FakeAdd

  /** One layer instance as stored: its radius chain, its weights, and its texture once prepared. */
  datatype Entry = Entry(steps: seq<real>, opacity: real, power: real, texture: Option<Texture>)

  /** The layer instances bucketed by scale factor. */
  type Instructions = seq<Bucket<real, Entry>>

  // ---------------------------------------------------------------------------
  // Grouping the layers
  // ---------------------------------------------------------------------------

  /** The bucket key and the stored instance of one layer; its texture slot starts empty. */
  function EntryOf(l: LayerRef): (real, Entry)
    reads l.Obj()
  {
    (l.Base().scaleFactor, Entry(l.Chain(), l.Base().opacity, l.Base().power, None))
  }

  function LayerEntries(layers: seq<LayerRef>): seq<(real, Entry)>
    reads set i | 0 <= i < |layers| :: layers[i].Obj()
  {
    if layers == [] then []
    else
      var n := |layers| - 1;
      LayerEntries(layers[..n]) + [EntryOf(layers[n])]
  }

  lemma {:induction false} LayerEntriesShape(layers: seq<LayerRef>)
    ensures |LayerEntries(layers)| == |layers|
    ensures forall i :: 0 <= i < |layers| ==> LayerEntries(layers)[i] == EntryOf(layers[i])
  {
    if layers != [] {
      var n := |layers| - 1;
      LayerEntriesShape(layers[..n]);
    }
  }

  lemma LayerEntriesSnoc(layers: seq<LayerRef>, i: nat)
    requires i < |layers|
    ensures LayerEntries(layers[..i + 1]) == LayerEntries(layers[..i]) + [EntryOf(layers[i])]
  {
    assert layers[..i + 1][..i] == layers[..i];
  }

  /**
   * Each layer is appended, in input order, to the bucket of its scale
   * factor, with its own chain (the steps of a complex layer, the single
   * radius of a simple one, nothing for a plain one), its weights and no
   * texture; the buckets hold exactly one instance per layer.
   */
  lemma GroupingSpec(layers: seq<LayerRef>)
    ensures |LayerEntries(layers)| == |layers|
    ensures Groups(LayerEntries(layers), Bucketize(LayerEntries(layers)))
    ensures NonEmptyBuckets(Bucketize(LayerEntries(layers)))
    ensures |Buckets.Flatten(Bucketize(LayerEntries(layers)))| == |layers|
    ensures forall i :: 0 <= i < |layers| ==> LayerEntries(layers)[i] == EntryOf(layers[i])
  {
    LayerEntriesShape(layers);
    BucketizeSpec(LayerEntries(layers));
    BucketizePartition(LayerEntries(layers));
  }

  // ---------------------------------------------------------------------------
  // Textures
  // ---------------------------------------------------------------------------

  /** Every bucket has an instance to copy the source into. */
  ghost predicate WellFormed(instr: Instructions)
  {
    forall i :: 0 <= i < |instr| ==> instr[i].items != []
  }

  /** Every instance has its texture. */
  ghost predicate Prepared(instr: Instructions)
  {
    forall i, j :: 0 <= i < |instr| && 0 <= j < |instr[i].items| ==> instr[i].items[j].texture.Some?
  }

  /** The instances of `items` given the textures `next`, `next + 1`, ... in order. */
  function Number(items: seq<Entry>, next: nat): seq<Entry>
  {
    seq(|items|, j requires 0 <= j < |items| => items[j].(texture := Some(Made(next + j))))
  }

  /** Bucket after bucket, instance after instance, every instance gets a fresh texture. */
  function AssignTextures(instr: Instructions, next: nat): Instructions
  {
    if instr == [] then []
    else [Bucket(instr[0].key, Number(instr[0].items, next))] + AssignTextures(instr[1..], next + |instr[0].items|)
  }

  lemma {:induction false} AssignTexturesAppend(instr: Instructions, i: nat, next: nat)
    requires i < |instr|
    ensures AssignTextures(instr[..i + 1], next) ==
      AssignTextures(instr[..i], next) + [Bucket(instr[i].key, Number(instr[i].items, next + |Buckets.Flatten(instr[..i])|))]
  {
    if i > 0 {
      assert instr[..i + 1][1..] == instr[1..][..i];
      assert instr[..i][1..] == instr[1..][..i - 1];
      AssignTexturesAppend(instr[1..], i - 1, next + |instr[0].items|);
      assert instr[..i][0] == instr[0];
    } else {
      assert instr[..1][1..] == [];
    }
  }

  /** Texture assignment keeps every bucket, its key and its number of instances. */
  lemma {:induction false} AssignTexturesShape(instr: Instructions, next: nat)
    ensures |AssignTextures(instr, next)| == |instr|
    ensures forall i :: 0 <= i < |instr| ==>
      AssignTextures(instr, next)[i].key == instr[i].key && |AssignTextures(instr, next)[i].items| == |instr[i].items|
  {
    if instr != [] {
      var rest := AssignTextures(instr[1..], next + |instr[0].items|);
      AssignTexturesShape(instr[1..], next + |instr[0].items|);
      forall i | 0 <= i < |instr|
        ensures AssignTextures(instr, next)[i].key == instr[i].key && |AssignTextures(instr, next)[i].items| == |instr[i].items|
      {
        if i > 0 {
          assert AssignTextures(instr, next)[i] == rest[i - 1];
        }
      }
    }
  }

  /**
   * Texture assignment keeps every instance's chain and weights, and the
   * `k`-th instance in bucket order gets texture `next + k`, so no two
   * instances share a texture.
   */
  lemma {:induction false} AssignTexturesSpec(instr: Instructions, next: nat)
    ensures |Buckets.Flatten(AssignTextures(instr, next))| == |Buckets.Flatten(instr)|
    ensures forall k :: 0 <= k < |Buckets.Flatten(instr)| ==>
      Buckets.Flatten(AssignTextures(instr, next))[k] == Buckets.Flatten(instr)[k].(texture := Some(Made(next + k)))
  {
    if instr != [] {
      var n0 := |instr[0].items|;
      var head := Number(instr[0].items, next);
      var rest := AssignTextures(instr[1..], next + n0);
      AssignTexturesSpec(instr[1..], next + n0);
      var r := AssignTextures(instr, next);
      assert r[0].items == head && r[1..] == rest;
      assert Buckets.Flatten(r) == head + Buckets.Flatten(rest);
      assert Buckets.Flatten(instr) == instr[0].items + Buckets.Flatten(instr[1..]);
      forall k | 0 <= k < |Buckets.Flatten(instr)|
        ensures Buckets.Flatten(r)[k] == Buckets.Flatten(instr)[k].(texture := Some(Made(next + k)))
      {
        if k >= n0 {
          assert Buckets.Flatten(r)[k] == Buckets.Flatten(rest)[k - n0];
          assert Buckets.Flatten(instr)[k] == Buckets.Flatten(instr[1..])[k - n0];
        }
      }
    }
  }

  /** After assignment every bucket is still non-empty and every instance has a texture. */
  lemma AssignTexturesPrepares(instr: Instructions, next: nat)
    requires WellFormed(instr)
    ensures WellFormed(AssignTextures(instr, next))
    ensures Prepared(AssignTextures(instr, next))
    decreases |instr|
  {
    if instr != [] {
      AssignTexturesPrepares(instr[1..], next + |instr[0].items|);
      var r := AssignTextures(instr, next);
      forall i | 0 <= i < |r|
        ensures r[i].items != [] && forall j :: 0 <= j < |r[i].items| ==> r[i].items[j].texture.Some?
      {
        if i > 0 {
          assert r[i] == AssignTextures(instr[1..], next + |instr[0].items|)[i - 1];
        }
      }
    }
  }

  // ---------------------------------------------------------------------------
  // The trees of one scale group
  // ---------------------------------------------------------------------------

  /** A radius in points, as pixels of the scale group's texture. */
  function TransformSigma(pointBlur: real, globalScaleFactor: real, treeScaleFactor: real): (r: real)
    ensures r == 0.0 <==> pointBlur == 0.0 || globalScaleFactor == 0.0 || treeScaleFactor == 0.0
  {
    pointBlur * globalScaleFactor * treeScaleFactor
  }

  function ScaledChain(chain: seq<real>, globalScaleFactor: real, key: real): seq<real>
  {
    seq(|chain|, i requires 0 <= i < |chain| => TransformSigma(chain[i], globalScaleFactor, key))
  }

  /** The (texture, scaled chain) tree of every instance of a prepared bucket. */
  function TreesOf(items: seq<Entry>, globalScaleFactor: real, key: real): seq<Tree>
    requires forall j :: 0 <= j < |items| ==> items[j].texture.Some?
  {
    seq(|items|, j requires 0 <= j < |items| => (items[j].texture.value, ScaledChain(items[j].steps, globalScaleFactor, key)))
  }

  /**
   * Scaling multiplies the radius of every level, the implicit 0 past a
   * chain's end included; so with non-zero factors a radius is 0 exactly
   * when it was 0 before scaling, and the groups of every level are the same.
   */
  lemma ScaledKey(e: Entry, t: Texture, globalScaleFactor: real, key: real, level: nat)
    ensures KeyAt((t, ScaledChain(e.steps, globalScaleFactor, key)), level) == KeyAt((t, e.steps), level) * globalScaleFactor * key
    ensures globalScaleFactor != 0.0 && key != 0.0 ==>
      (KeyAt((t, ScaledChain(e.steps, globalScaleFactor, key)), level) == 0.0 <==> KeyAt((t, e.steps), level) == 0.0)
  {
  }

  // ---------------------------------------------------------------------------
  // All scale groups
  // ---------------------------------------------------------------------------

  /** The longest radius chain of any instance. */
  function LongestChain(es: seq<Entry>): nat
  {
    if es == [] then 0 else Max(|es[0].steps|, LongestChain(es[1..]))
  }

  lemma {:induction false} LongestChainBound(es: seq<Entry>, j: nat)
    requires j < |es|
    ensures |es[j].steps| <= LongestChain(es)
  {
    if j > 0 {
      LongestChainBound(es[1..], j - 1);
    }
  }

  lemma {:induction false} LongestChainAppend(a: seq<Entry>, b: seq<Entry>)
    ensures LongestChain(a + b) == Max(LongestChain(a), LongestChain(b))
  {
    if a != [] {
      assert (a + b)[1..] == a[1..] + b;
      LongestChainAppend(a[1..], b);
    } else {
      assert a + b == b;
    }
  }

  lemma {:induction false} HeightOfTrees(items: seq<Entry>, globalScaleFactor: real, key: real)
    requires forall j :: 0 <= j < |items| ==> items[j].texture.Some?
    ensures Height(TreesOf(items, globalScaleFactor, key)) == LongestChain(items)
  {
    if items != [] {
      assert TreesOf(items, globalScaleFactor, key)[1..] == TreesOf(items[1..], globalScaleFactor, key);
      HeightOfTrees(items[1..], globalScaleFactor, key);
    }
  }

  /**
   * The scale groups from `i` on, in bucket order, each scheduled from level
   * 0 onto the same level buckets and kernel cache.  The level buckets never
   * outnumber the longest chain plus one.
   */
  function PlanAll(instr: Instructions, globalScaleFactor: real, blitting: bool, i: nat, st: PlanState): (r: PlanState)
    requires WellFormed(instr) && Prepared(instr) && i <= |instr|
    ensures Extends(st, r, 0)
    ensures Plan.Valid(st) ==> Plan.Valid(r)
    decreases |instr| - i
  {
    if i == |instr| then st
    else
      var trees := TreesOf(instr[i].items, globalScaleFactor, instr[i].key);
      var st1 := PlanTree(trees, 0, blitting, st);
      var r := PlanAll(instr, globalScaleFactor, blitting, i + 1, st1);
      ExtendsTrans(st, st1, r, 0, 0);
      r
  }

  /**
   * The level buckets never outnumber the longest chain plus one: any bound
   * `B` above the longest chain of the groups still to schedule that covers
   * the levels already open covers the levels afterwards.
   */
  lemma {:induction false} PlanAllDepth(instr: Instructions, globalScaleFactor: real, blitting: bool, i: nat, st: PlanState, B: nat)
    requires WellFormed(instr) && Prepared(instr) && i <= |instr|
    requires |st.levels| <= B && LongestChain(Buckets.Flatten(instr[i..])) < B
    ensures |PlanAll(instr, globalScaleFactor, blitting, i, st).levels| <= B
    decreases |instr| - i
  {
    if i < |instr| {
      var trees := TreesOf(instr[i].items, globalScaleFactor, instr[i].key);
      HeightOfTrees(instr[i].items, globalScaleFactor, instr[i].key);
      assert instr[i..] == [instr[i]] + instr[i + 1..];
      Buckets.FlattenAppend([instr[i]], instr[i + 1..]);
      assert Buckets.Flatten([instr[i]]) == instr[i].items;
      LongestChainAppend(instr[i].items, Buckets.Flatten(instr[i + 1..]));
      TreeDepth(trees, 0, blitting, st, B);
      PlanAllDepth(instr, globalScaleFactor, blitting, i + 1, PlanTree(trees, 0, blitting, st), B);
      assert PlanAll(instr, globalScaleFactor, blitting, i, st) == PlanAll(instr, globalScaleFactor, blitting, i + 1, PlanTree(trees, 0, blitting, st));
    } else {
      assert PlanAll(instr, globalScaleFactor, blitting, i, st) == st;
    }
  }

  /** The copies of the source into the first instance of every scale group, in bucket order. */
  function SourceCopies(instr: Instructions): (r: seq<Step>)
    requires WellFormed(instr) && Prepared(instr)
    ensures |r| == |instr|
    ensures forall i :: 0 <= i < |instr| ==> r[i] == Copy(Source, instr[i].items[0].texture.value)
  {
    seq(|instr|, i requires 0 <= i < |instr| => Copy(Source, instr[i].items[0].texture.value))
  }

  /**
   * The source is copied into the texture that scheduling the group from
   * level 0 treats as its master, so every blur and copy of the group starts
   * from the source image.
   */
  lemma SourceCopiesFeedMasters(instr: Instructions, globalScaleFactor: real, k: nat)
    requires WellFormed(instr) && Prepared(instr) && k < |instr|
    ensures var trees := TreesOf(instr[k].items, globalScaleFactor, instr[k].key);
      trees != [] && SourceCopies(instr)[k] == Copy(Source, MasterTexture(trees, 0))
  {
  }

  // ---------------------------------------------------------------------------
  // Flattening the level buckets
  // ---------------------------------------------------------------------------

  /** One level: its blits as one step, present only when there is a blit, then its other steps. */
  function LevelSteps(l: Level): seq<Step>
  {
    (if l.bigBlit != [] then [Blit(l.bigBlit)] else []) + l.afterSteps
  }

  /** All levels, in ascending order. */
  function FlattenLevels(ls: seq<Level>): seq<Step>
  {
    if ls == [] then []
    else
      var n := |ls| - 1;
      FlattenLevels(ls[..n]) + LevelSteps(ls[n])
  }

  /** Flattening is taken level by level: the steps of earlier levels come first. */
  lemma {:induction false} FlattenLevelsAppend(a: seq<Level>, b: seq<Level>)
    ensures FlattenLevels(a + b) == FlattenLevels(a) + FlattenLevels(b)
    decreases |b|
  {
    if b == [] {
      assert a + b == a;
    } else {
      var n := |b| - 1;
      assert (a + b)[..|a + b| - 1] == a + b[..n];
      FlattenLevelsAppend(a, b[..n]);
    }
  }

  function CountBlits(steps: seq<Step>): nat
  {
    if steps == [] then 0
    else
      var n := |steps| - 1;
      CountBlits(steps[..n]) + (if steps[n].Blit? then 1 else 0)
  }

  function CountFilled(ls: seq<Level>): nat
  {
    if ls == [] then 0
    else
      var n := |ls| - 1;
      CountFilled(ls[..n]) + (if ls[n].bigBlit != [] then 1 else 0)
  }

  lemma {:induction false} CountBlitsAppend(a: seq<Step>, b: seq<Step>)
    ensures CountBlits(a + b) == CountBlits(a) + CountBlits(b)
    decreases |b|
  {
    if b == [] {
      assert a + b == a;
    } else {
      var n := |b| - 1;
      assert (a + b)[..|a + b| - 1] == a + b[..n];
      CountBlitsAppend(a, b[..n]);
    }
  }

  /** No level keeps a blit among its ordered steps. */
  ghost predicate BlitsBatched(ls: seq<Level>)
  {
    forall j, k :: 0 <= j < |ls| && 0 <= k < |ls[j].afterSteps| ==> !ls[j].afterSteps[k].Blit?
  }

  lemma ValidBatchesBlits(st: PlanState)
    requires Plan.Valid(st)
    ensures BlitsBatched(st.levels)
  {
    forall j, k | 0 <= j < |st.levels| && 0 <= k < |st.levels[j].afterSteps|
      ensures !st.levels[j].afterSteps[k].Blit?
    {
      assert StepReady(st.levels[j].afterSteps[k], st.sigmas);
    }
  }

  lemma {:induction false} NoBlits(steps: seq<Step>)
    requires forall k :: 0 <= k < |steps| ==> !steps[k].Blit?
    ensures CountBlits(steps) == 0
  {
    if steps != [] {
      NoBlits(steps[..|steps| - 1]);
    }
  }

  /** With blits batched, the flattened list has exactly one blit step per level that has blits. */
  lemma {:induction false} FlattenLevelsCountsBlits(ls: seq<Level>)
    requires BlitsBatched(ls)
    ensures CountBlits(FlattenLevels(ls)) == CountFilled(ls)
  {
    if ls != [] {
      var n := |ls| - 1;
      assert BlitsBatched(ls[..n]);
      FlattenLevelsCountsBlits(ls[..n]);
      var head := if ls[n].bigBlit != [] then [Blit(ls[n].bigBlit)] else [];
      CountBlitsAppend(FlattenLevels(ls[..n]), LevelSteps(ls[n]));
      CountBlitsAppend(head, ls[n].afterSteps);
      NoBlits(ls[n].afterSteps);
      if ls[n].bigBlit != [] {
        assert head[..0] == [];
      }
    }
  }

  /** With blits batched, no blit step of the flattened list is empty. */
  lemma {:induction false} FlattenLevelsBlitsNonEmpty(ls: seq<Level>)
    requires BlitsBatched(ls)
    ensures forall k :: 0 <= k < |FlattenLevels(ls)| && FlattenLevels(ls)[k].Blit? ==> FlattenLevels(ls)[k].pairs != []
  {
    if ls != [] {
      var n := |ls| - 1;
      assert BlitsBatched(ls[..n]);
      FlattenLevelsBlitsNonEmpty(ls[..n]);
      var pre := FlattenLevels(ls[..n]);
      var head := if ls[n].bigBlit != [] then [Blit(ls[n].bigBlit)] else [];
      assert FlattenLevels(ls) == pre + (head + ls[n].afterSteps);
      forall k | 0 <= k < |FlattenLevels(ls)|
        ensures FlattenLevels(ls)[k].Blit? ==> FlattenLevels(ls)[k].pairs != []
      {
        if k < |pre| {
          assert FlattenLevels(ls)[k] == pre[k];
        } else if k >= |pre| + |head| {
          assert FlattenLevels(ls)[k] == ls[n].afterSteps[k - |pre| - |head|];
        }
      }
    }
  }

  /** Every blur among `steps` finds its kernel in `m`. */
  ghost predicate KernelsFound(steps: seq<Step>, m: map<real, Kernel>)
  {
    forall k :: 0 <= k < |steps| && steps[k].Blur? ==> steps[k].sigma in m
  }

  lemma KernelsFoundAppend(a: seq<Step>, b: seq<Step>, m: map<real, Kernel>)
    requires KernelsFound(a, m) && KernelsFound(b, m)
    ensures KernelsFound(a + b, m)
  {
    forall k | 0 <= k < |a + b| && (a + b)[k].Blur?
      ensures (a + b)[k].sigma in m
    {
      if k >= |a| {
        assert (a + b)[k] == b[k - |a|];
      }
    }
  }

  /** When every ordered step of every level is ready, every blur of the flattened list finds its kernel. */
  lemma {:induction false} FlattenLevelsKernelsFound(ls: seq<Level>, m: map<real, Kernel>)
    requires forall j, k :: 0 <= j < |ls| && 0 <= k < |ls[j].afterSteps| ==> StepReady(ls[j].afterSteps[k], m)
    ensures KernelsFound(FlattenLevels(ls), m)
  {
    if ls != [] {
      var n := |ls| - 1;
      FlattenLevelsKernelsFound(ls[..n], m);
      var head := if ls[n].bigBlit != [] then [Blit(ls[n].bigBlit)] else [];
      assert KernelsFound(ls[n].afterSteps, m) by {
        forall k | 0 <= k < |ls[n].afterSteps| && ls[n].afterSteps[k].Blur?
          ensures ls[n].afterSteps[k].sigma in m
        {
          assert StepReady(ls[n].afterSteps[k], m);
        }
      }
      KernelsFoundAppend(head, ls[n].afterSteps, m);
      KernelsFoundAppend(FlattenLevels(ls[..n]), LevelSteps(ls[n]), m);
    }
  }

  /**
   * Drawing walks the steps and looks up the kernel of every blur in the
   * cache.  After planning, every blur of the drawing steps finds it: the
   * steps kept from before, whose kernels stay cached, the source copies,
   * and the flattened levels.
   */
  lemma PlannedKernelsFound(steps0: seq<Step>, sigmas0: map<real, Kernel>, instr: Instructions,
                            globalScaleFactor: real, blitting: bool)
    requires WellFormed(instr) && Prepared(instr)
    requires KernelsFound(steps0, sigmas0) && Plan.Valid(PlanState([], sigmas0))
    ensures var r := PlanAll(instr, globalScaleFactor, blitting, 0, PlanState([], sigmas0));
      KernelsFound(steps0 + SourceCopies(instr) + FlattenLevels(r.levels), r.sigmas)
  {
    var r := PlanAll(instr, globalScaleFactor, blitting, 0, PlanState([], sigmas0));
    FlattenLevelsKernelsFound(r.levels, r.sigmas);
    assert KernelsFound(steps0, r.sigmas);
    assert KernelsFound(SourceCopies(instr), r.sigmas);
    KernelsFoundAppend(steps0, SourceCopies(instr), r.sigmas);
    KernelsFoundAppend(steps0 + SourceCopies(instr), FlattenLevels(r.levels), r.sigmas);
  }

  // ---------------------------------------------------------------------------
  // The combine pass
  // ---------------------------------------------------------------------------

  /** What the combine pass does with the destination's old contents. */
  datatype LoadAction = DontCare | Clear | Load

  /** `Replace` and `FakeAdd` start from a cleared destination, the other modes draw over it. */
  function LoadActionFor(mode: BlendMode): LoadAction
  {
    if mode == Replace || mode == FakeAdd then Clear else Load
  }

  /**
   * The destination's old pixels are discarded exactly when the mode
   * replaces them or, for fake-add, reads them as an input texture instead;
   * the other modes draw over them.  The action is always chosen.
   */
  lemma LoadActionMatchesInputs(instr: Instructions, mode: BlendMode)
    requires Prepared(instr)
    requires forall k :: 0 <= k < |Buckets.Flatten(instr)| ==> Buckets.Flatten(instr)[k].texture != Some(Destination)
    ensures LoadActionFor(mode) != DontCare
    ensures LoadActionFor(mode) == Clear <==> mode == Replace || Destination in CombinePieces(instr, mode)
  {
    PreparedEntries(instr);
    var ts := TexturesOf(Buckets.Flatten(instr));
    if mode != FakeAdd {
      assert CombinePieces(instr, mode) == ts + [Source];
      forall k | 0 <= k < |ts|
        ensures ts[k] != Destination
      {
        assert Buckets.Flatten(instr)[k].texture != Some(Destination);
      }
    } else {
      assert CombinePieces(instr, mode)[|ts|] == Destination;
    }
  }

  /** The textures of prepared instances, in order. */
  function TexturesOf(es: seq<Entry>): seq<Texture>
    requires forall k :: 0 <= k < |es| ==> es[k].texture.Some?
  {
    seq(|es|, k requires 0 <= k < |es| => es[k].texture.value)
  }

  /** The (opacity, power) weights of instances, in order. */
  function WeightsOf(es: seq<Entry>): seq<(real, real)>
  {
    seq(|es|, k requires 0 <= k < |es| => (es[k].opacity, es[k].power))
  }

  /** The textures the combine pass reads: every instance in bucket order, the destination for `FakeAdd`, the source last. */
  function CombinePieces(instr: Instructions, mode: BlendMode): seq<Texture>
    requires Prepared(instr)
  {
    PreparedEntries(instr);
    TexturesOf(Buckets.Flatten(instr)) + (if mode == FakeAdd then [Destination] else []) + [Source]
  }

  /** The (opacity, power) of every texture the combine pass reads, in the same order; (1, 1) for the extra ones. */
  function CombineSettings(instr: Instructions, mode: BlendMode): seq<(real, real)>
  {
    WeightsOf(Buckets.Flatten(instr)) + (if mode == FakeAdd then [(1.0, 1.0)] else []) + [(1.0, 1.0)]
  }

  lemma {:induction false} PreparedEntries(instr: Instructions)
    requires Prepared(instr)
    ensures forall k :: 0 <= k < |Buckets.Flatten(instr)| ==> Buckets.Flatten(instr)[k].texture.Some?
  {
    if instr != [] {
      assert Prepared(instr[1..]) by {
        forall i, j | 0 <= i < |instr[1..]| && 0 <= j < |instr[1..][i].items|
          ensures instr[1..][i].items[j].texture.Some?
        {
          assert instr[1..][i] == instr[i + 1];
        }
      }
      PreparedEntries(instr[1..]);
      forall k | 0 <= k < |Buckets.Flatten(instr)|
        ensures Buckets.Flatten(instr)[k].texture.Some?
      {
        if k >= |instr[0].items| {
          assert Buckets.Flatten(instr)[k] == Buckets.Flatten(instr[1..])[k - |instr[0].items|];
        }
      }
    }
  }

  /**
   * The combine textures and their settings are index-aligned: entry `k` is
   * instance `k` with its own weights, then the destination with (1, 1) for
   * `FakeAdd`, and last the source with (1, 1); the lists hold one entry per
   * instance plus one, or plus two for `FakeAdd`.
   */
  lemma CombineAligned(instr: Instructions, mode: BlendMode)
    requires Prepared(instr)
    ensures var n := |Buckets.Flatten(instr)|;
      && (forall k :: 0 <= k < n ==> Buckets.Flatten(instr)[k].texture.Some?)
      && |CombinePieces(instr, mode)| == |CombineSettings(instr, mode)| == n + (if mode == FakeAdd then 2 else 1)
      && (forall k :: 0 <= k < n ==>
            CombinePieces(instr, mode)[k] == Buckets.Flatten(instr)[k].texture.value
            && CombineSettings(instr, mode)[k] == (Buckets.Flatten(instr)[k].opacity, Buckets.Flatten(instr)[k].power))
      && CombinePieces(instr, mode)[|CombinePieces(instr, mode)| - 1] == Source
      && CombineSettings(instr, mode)[|CombineSettings(instr, mode)| - 1] == (1.0, 1.0)
      && (mode == FakeAdd ==> CombinePieces(instr, mode)[n] == Destination && CombineSettings(instr, mode)[n] == (1.0, 1.0))
  {
    PreparedEntries(instr);
  }
}
