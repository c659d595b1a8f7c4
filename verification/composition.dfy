/**
 * The blur composition object: it holds the layer instances bucketed by scale
 * factor, and preparing it plans every copy, blit and blur needed to draw the
 * layers, the kernels they use, and the inputs of the final combine pass.
 * The methods update the object's fields in place, as the original does; each
 * is proved to leave the state the corresponding planning function describes.
 */
module Composition {
  import opened Buckets
  import opened Plan
  import opened Prepare
  import opened Layers
  import opened CombineShader

  /** The groups of `trees` at `level`, built by inserting the trees one by one. */
  method GroupTrees(trees: seq<Tree>, level: nat) returns (groups: seq<Bucket<real, Tree>>)
    ensures groups == Partition(trees, level)
  {
    groups := [];
    for i := 0 to |trees|
      invariant groups == Bucketize(Keyed(trees, level)[..i])
    {
      var tree := trees[i];
      var personalLevel := 0.0;
      if level < |tree.1| {
        personalLevel := tree.1[level];
      }
      assert Keyed(trees, level)[..i + 1][..i] == Keyed(trees, level)[..i];
      groups := Add(groups, personalLevel, tree);
    }
    assert Keyed(trees, level)[..|trees|] == Keyed(trees, level);
  }

  /** The trees of one prepared bucket: each instance's texture with its chain scaled in place. */
  method BuildTrees(items: seq<Entry>, globalScaleFactor: real, key: real) returns (trees: seq<Tree>)
    requires forall j :: 0 <= j < |items| ==> items[j].texture.Some?
    ensures trees == TreesOf(items, globalScaleFactor, key)
  {
    trees := [];
    for e := 0 to |items|
      invariant trees == TreesOf(items[..e], globalScaleFactor, key)
    {
      var el := items[e];
      var build := el.steps;
      for i := 0 to |build|
        invariant |build| == |el.steps|
        invariant forall k :: 0 <= k < i ==> build[k] == TransformSigma(el.steps[k], globalScaleFactor, key)
        invariant forall k :: i <= k < |build| ==> build[k] == el.steps[k]
      {
        build := build[i := TransformSigma(build[i], globalScaleFactor, key)];
      }
      assert build == ScaledChain(el.steps, globalScaleFactor, key);
      trees := trees + [(el.texture.value, build)];
      assert TreesOf(items[..e + 1], globalScaleFactor, key) == TreesOf(items[..e], globalScaleFactor, key) + [(el.texture.value, build)];
    }
    assert items[..|items|] == items;
  }

  /** The layers bucketed by scale factor: each instance is appended to its bucket, in input order. */
  method GroupLayers(inst: seq<LayerRef>) returns (buildInst: Instructions)
    ensures buildInst == Bucketize(LayerEntries(inst))
  {
    buildInst := [];
    assert inst[..0] == [];
    for i := 0 to |inst|
      invariant buildInst == Bucketize(LayerEntries(inst[..i]))
    {
      var layer := inst[i];
      var steps: seq<real> := [];
      match layer {
        case Complex(cbl) =>
          steps := cbl.pointBlurSteps;
        case Simple(sbl) =>
          steps := steps + [sbl.pointBlur];
          assert steps == [sbl.pointBlur];
        case Plain(_) =>
      }
      var key := layer.Base().scaleFactor;
      var insert := Entry(steps, layer.Base().opacity, layer.Base().power, None);
      assert (key, insert) == EntryOf(layer);
      LayerEntriesSnoc(inst, i);
      BucketizeSnoc(LayerEntries(inst[..i]), key, insert);
      buildInst := Add(buildInst, key, insert);
    }
    assert inst[..|inst|] == inst;
  }

  class BlurComposition {
    var instructions: Instructions
    var drawingSteps: seq<Step>
    var levelObjects: seq<Level>
    var sigmas: map<real, Kernel>
    var combiningPieces: seq<Texture>
    /** The load action of the combine pass's colour attachment. */
    var combiningLoad: LoadAction
    /** The combine shader the combining pipeline is built from; `null` until prepared. */
    var combiningShader: DynamicTextureCombineShader?
    /** The serial of the next texture allocated. */
    var nextTexture: nat

    /** The part of the object the scheduler works on. */
    function State(): PlanState
      reads this`levelObjects, this`sigmas
    {
      PlanState(levelObjects, sigmas)
    }

    /** The instructions are well formed, the plan is consistent, and every blur among the drawing steps finds its kernel. */
    ghost predicate Valid()
      reads this`instructions, this`drawingSteps, this`levelObjects, this`sigmas
    {
      WellFormed(instructions) && Plan.Valid(State()) && KernelsFound(drawingSteps, sigmas)
    }

    /** Buckets the layers by scale factor, in input order. */
    constructor (inst: seq<LayerRef>)
      ensures instructions == Bucketize(LayerEntries(inst))
      ensures drawingSteps == [] && levelObjects == [] && sigmas == map[] && combiningPieces == []
      ensures combiningLoad == DontCare && combiningShader == null && nextTexture == 0
      ensures Valid()
    {
      var buildInst := GroupLayers(inst);
      BucketizeSpec(LayerEntries(inst));
      assert WellFormed(buildInst);
      instructions := buildInst;
      drawingSteps := [];
      levelObjects := [];
      sigmas := map[];
      combiningPieces := [];
      combiningLoad := DontCare;
      combiningShader := null;
      nextTexture := 0;
      new;
      assert this !in set i | 0 <= i < |inst| :: inst[i].Obj();
      EmptyPlanValid();
    }

    /** Hands back the index of bucket `level`, appending one empty bucket when it is missing. */
    method GetLevelObjectOrCreate(level: nat) returns (w: nat)
      modifies this`levelObjects
      ensures levelObjects == LevelOrCreate(old(levelObjects), level)
      ensures w == LevelIndex(old(levelObjects), level) && w < |levelObjects|
    {
      if level < |levelObjects| {
        return level;
      }
      levelObjects := levelObjects + [EmptyLevel];
      w := |levelObjects| - 1;
    }

    /** Builds a kernel for `sigma` unless one is cached. */
    method CheckAddSigma(sigma: real)
      modifies this`sigmas
      ensures sigmas == AddSigma(old(sigmas), sigma)
    {
      if sigma !in sigmas {
        sigmas := sigmas[sigma := Kernel(sigma, |sigmas|)];
      }
    }

    /** Appends a copy from `from` to `to` to bucket `writeTo`: a blit pair when `blitting`, else a render-pass copy. */
    method AppendCopy(writeTo: nat, blitting: bool, from: Texture, to: Texture)
      requires writeTo < |levelObjects|
      modifies this`levelObjects
      ensures State() == EmitCopy(old(State()), writeTo, blitting, from, to)
    {
      var l := levelObjects[writeTo];
      if blitting {
        levelObjects := levelObjects[writeTo := l.(bigBlit := l.bigBlit + [(from, to)])];
      } else {
        levelObjects := levelObjects[writeTo := l.(afterSteps := l.afterSteps + [Copy(from, to)])];
      }
    }

    /** Caches a kernel for `sigma` and appends a one-pass blur from `from` to `to` to bucket `writeTo`. */
    method AppendBlur(writeTo: nat, sigma: real, from: Texture, to: Option<Texture>)
      requires writeTo < |levelObjects|
      modifies this`levelObjects, this`sigmas
      ensures State() == AddBlur(old(State()), writeTo, sigma, from, to)
    {
      var bes := Blur(sigma, []);
      CheckAddSigma(sigma);
      bes := bes.(passes := bes.passes + [(from, to)]);
      assert bes == Blur(sigma, [(from, to)]);
      var l := levelObjects[writeTo];
      levelObjects := levelObjects[writeTo := l.(afterSteps := l.afterSteps + [bes])];
    }

    /** Schedules `trees` from `level` on into the level buckets. */
    method ProcessTree(trees: seq<Tree>, level: nat, blitting: bool)
      requires trees != [] && level <= |levelObjects|
      modifies this`levelObjects, this`sigmas
      ensures State() == PlanTree(trees, level, blitting, old(State()))
      decreases Remaining(trees, level), 2
    {
      var groups := GroupTrees(trees, level);
      var writeTo := GetLevelObjectOrCreate(level);
      LevelOrCreateHandsBackLevel(old(levelObjects), level);
      ghost var st1 := State();

      var master := trees[0];
      var masterLevel := 0.0;
      if level < |master.1| {
        masterLevel := master.1[level];
      }
      MasterFirst(trees, level);
      assert masterLevel == MasterKey(trees, level);
      var masterTex := groups[Find(Keys(groups), masterLevel)].items[0].0;
      assert masterTex == MasterTexture(trees, level);
      assert st1 == old(State()).(levels := LevelOrCreate(old(State()).levels, level));

      for i := 0 to |groups|
        invariant level < |levelObjects|
        invariant PlanGroups(trees, level, blitting, i, State()) == PlanGroups(trees, level, blitting, 0, st1)
      {
        ProcessGroup(trees, level, writeTo, blitting, groups, i, masterLevel, masterTex);
      }
      ProcessMaster(trees, level, writeTo, blitting, groups, masterLevel, masterTex);
    }

    /** One pass of the group loop: group `i` is copied to or blurred and descended into, unless it is the master group. */
    method ProcessGroup(trees: seq<Tree>, level: nat, writeTo: nat, blitting: bool, groups: seq<Bucket<real, Tree>>, i: nat,
                        masterLevel: real, masterTex: Texture)
      requires trees != [] && level < |levelObjects| && writeTo == level
      requires groups == Partition(trees, level) && i < |groups|
      requires masterLevel == MasterKey(trees, level) && masterTex == MasterTexture(trees, level)
      modifies this`levelObjects, this`sigmas
      ensures State() == PlanGroup(trees, level, blitting, i, old(State()))
      decreases Remaining(trees, level), 0
    {
      PartitionFacts(trees, level);
      var group := groups[i];
      if group.key != masterLevel {
        var minorMasterTex := group.items[0].0;
        if group.key == 0.0 {
          AppendCopy(writeTo, blitting, masterTex, minorMasterTex);
        } else {
          AppendBlur(writeTo, group.key, masterTex, Some(minorMasterTex));
          Descend(trees, level, group.items);
          ProcessTree(group.items, level + 1, blitting);
        }
      }
    }

    /** The master group: blurred in place and descended into, or copied to each of its other trees. */
    method ProcessMaster(trees: seq<Tree>, level: nat, writeTo: nat, blitting: bool, groups: seq<Bucket<real, Tree>>,
                         masterLevel: real, masterTex: Texture)
      requires trees != [] && level < |levelObjects| && writeTo == level
      requires groups == Partition(trees, level)
      requires masterLevel == MasterKey(trees, level) && masterTex == MasterTexture(trees, level)
      modifies this`levelObjects, this`sigmas
      ensures State() == PlanMaster(trees, level, blitting, old(State()))
      decreases Remaining(trees, level), 1
    {
      PartitionFacts(trees, level);
      MasterFirst(trees, level);
      var masterGroup := groups[Find(Keys(groups), masterLevel)].items;
      assert masterGroup == MasterGroup(trees, level);
      if masterLevel != 0.0 {
        AppendBlur(writeTo, masterLevel, masterTex, None);
        Descend(trees, level, masterGroup);
        ProcessTree(masterGroup, level + 1, blitting);
      } else {
        ghost var st0 := State();
        for i := 1 to |masterGroup|
          invariant level < |levelObjects|
          invariant CopyToRest(masterGroup, i, level, blitting, masterTex, State()) ==
            CopyToRest(masterGroup, 1, level, blitting, masterTex, st0)
        {
          AppendCopy(writeTo, blitting, masterTex, masterGroup[i].0);
        }
      }
    }

    /** Gives every instance a fresh texture, bucket after bucket, in place. */
    method CreateTextures()
      modifies this`instructions, this`nextTexture
      ensures instructions == Prepare.AssignTextures(old(instructions), old(nextTexture))
      ensures nextTexture == old(nextTexture) + |Buckets.Flatten(old(instructions))|
    {
      ghost var orig := instructions;
      ghost var start := nextTexture;
      for k := 0 to |instructions|
        invariant |instructions| == |orig|
        invariant instructions[..k] == Prepare.AssignTextures(orig[..k], start)
        invariant instructions[k..] == orig[k..]
        invariant nextTexture == start + |Buckets.Flatten(orig[..k])|
      {
        assert instructions[k] == instructions[k..][0] == orig[k..][0] == orig[k];
        ghost var done := instructions[..k];
        NumberBucket(k);
        assert instructions[..k] == done;
        assert instructions[k + 1..] == orig[k + 1..];
        AssignTexturesAppend(orig, k, start);
        TakeSnoc(orig, k);
        FlattenAppend(orig[..k], [orig[k]]);
        assert Buckets.Flatten([orig[k]]) == orig[k].items;
        TakeSnoc(instructions, k);
      }
      assert orig[..|orig|] == orig;
      assert instructions[..|orig|] == instructions;
    }

    /** Gives the instances of bucket `k` the next textures, in order, in place. */
    method NumberBucket(k: nat)
      requires k < |instructions|
      modifies this`instructions, this`nextTexture
      ensures instructions == old(instructions)[k := Bucket(old(instructions[k].key), Number(old(instructions[k].items), old(nextTexture)))]
      ensures nextTexture == old(nextTexture) + |old(instructions[k].items)|
    {
      ghost var orig := instructions;
      ghost var base := nextTexture;
      var key := instructions[k].key;
      var items := instructions[k].items;
      var numbered := items;
      assert orig == orig[k := Bucket(key, numbered)];
      for i := 0 to |items|
        invariant instructions == orig[k := Bucket(key, numbered)]
        invariant |numbered| == |items|
        invariant forall j :: 0 <= j < i ==> numbered[j] == items[j].(texture := Some(Made(base + j)))
        invariant forall j :: i <= j < |items| ==> numbered[j] == items[j]
        invariant nextTexture == base + i
      {
        var copy := items[i];
        var create := Made(nextTexture);
        nextTexture := nextTexture + 1;
        copy := copy.(texture := Some(create));
        numbered := numbered[i := copy];
        instructions := instructions[k := Bucket(key, numbered)];
      }
      assert numbered == Number(items, base);
    }

    /** Copies the source into the first instance of every scale group and schedules that group's trees. */
    method ScheduleScaleGroups(scaleFactor: real, useBlit: bool)
      requires WellFormed(instructions) && Prepared(instructions)
      modifies this`drawingSteps, this`levelObjects, this`sigmas
      ensures drawingSteps == old(drawingSteps) + SourceCopies(instructions)
      ensures State() == PlanAll(instructions, scaleFactor, useBlit, 0, old(State()))
    {
      ghost var instr := instructions;
      ghost var goal := PlanAll(instr, scaleFactor, useBlit, 0, State());
      ghost var copies := SourceCopies(instr);
      for k := 0 to |instructions|
        invariant drawingSteps == old(drawingSteps) + copies[..k]
        invariant PlanAll(instr, scaleFactor, useBlit, k, State()) == goal
      {
        ScheduleScaleGroup(k, scaleFactor, useBlit);
        AppendTakeSnoc(old(drawingSteps), copies, k);
      }
      assert copies[..|instructions|] == copies;
    }

    /**
     * Copies the source into the first instance of scale group `k` and
     * schedules the group's trees, their chains scaled to pixels, from level 0.
     */
    method ScheduleScaleGroup(k: nat, scaleFactor: real, useBlit: bool)
      requires WellFormed(instructions) && Prepared(instructions) && k < |instructions|
      modifies this`drawingSteps, this`levelObjects, this`sigmas
      ensures drawingSteps == old(drawingSteps) + [Copy(Source, instructions[k].items[0].texture.value)]
      ensures PlanAll(instructions, scaleFactor, useBlit, k + 1, State()) == PlanAll(instructions, scaleFactor, useBlit, k, old(State()))
    {
      var from := instructions[k].items[0].texture.value;
      drawingSteps := drawingSteps + [Copy(Source, from)];
      var trees := BuildTrees(instructions[k].items, scaleFactor, instructions[k].key);
      ProcessTree(trees, 0, useBlit);
    }

    /** Appends every level's steps, lowest level first: its blits as one step when it has any, then the rest. */
    method AppendLevelSteps()
      modifies this`drawingSteps
      ensures drawingSteps == old(drawingSteps) + FlattenLevels(levelObjects)
    {
      for j := 0 to |levelObjects|
        invariant drawingSteps == old(drawingSteps) + FlattenLevels(levelObjects[..j])
      {
        var level := levelObjects[j];
        assert levelObjects[..j + 1][..j] == levelObjects[..j];
        if |level.bigBlit| > 0 {
          drawingSteps := drawingSteps + [Blit(level.bigBlit)];
        }
        drawingSteps := drawingSteps + level.afterSteps;
      }
      assert levelObjects[..|levelObjects|] == levelObjects;
    }

    /** Lists the textures the combine pass reads and their weights: the instances, the destination for `FakeAdd`, the source. */
    method BuildCombineList(mode: BlendMode) returns (instructionBuild: seq<(real, real)>)
      requires Prepared(instructions)
      modifies this`combiningPieces
      ensures combiningPieces == old(combiningPieces) + CombinePieces(instructions, mode)
      ensures instructionBuild == CombineSettings(instructions, mode)
    {
      instructionBuild := [];
      var instr: Instructions := instructions;
      assert instr[..0] == [];
      for k := 0 to |instr|
        invariant forall j :: 0 <= j < |Buckets.Flatten(instr[..k])| ==> Buckets.Flatten(instr[..k])[j].texture.Some?
        invariant combiningPieces == old(combiningPieces) + TexturesOf(Buckets.Flatten(instr[..k]))
        invariant instructionBuild == WeightsOf(Buckets.Flatten(instr[..k]))
      {
        ghost var done := Buckets.Flatten(instr[..k]);
        var values := instr[k].items;
        for i := 0 to |values|
          invariant combiningPieces == old(combiningPieces) + TexturesOf(done + values[..i])
          invariant instructionBuild == WeightsOf(done + values[..i])
        {
          var value := values[i];
          assert done + values[..i + 1] == (done + values[..i]) + [value];
          combiningPieces := combiningPieces + [value.texture.value];
          instructionBuild := instructionBuild + [(value.opacity, value.power)];
        }
        assert values[..|values|] == values;
        TakeSnoc(instr, k);
        FlattenAppend(instr[..k], [instr[k]]);
        assert Buckets.Flatten([instr[k]]) == values;
      }
      assert instr[..|instr|] == instr;
      if mode == FakeAdd {
        combiningPieces := combiningPieces + [Destination];
        instructionBuild := instructionBuild + [(1.0, 1.0)];
      }
      combiningPieces := combiningPieces + [Source];
      instructionBuild := instructionBuild + [(1.0, 1.0)];
    }

    /**
     * Plans the whole composition: textures for every instance, the source
     * copies and the scheduled levels in drawing order, and the combine pass.
     * Only `Replace` is supported; another mode stops a build with
     * assertions enabled (`ok` is false and nothing changes) and is planned
     * like the others otherwise.
     */
    method PrepareWith(scaleFactor: real, useBlit: bool, finalCombineMode: BlendMode, debugAssertions: bool)
      returns (ok: bool)
      requires Valid()
      modifies this
      ensures ok == (finalCombineMode == Replace || !debugAssertions)
      ensures !ok ==> unchanged(this)
      ensures Valid()
      ensures ok ==> Planned(old(instructions), old(nextTexture), old(drawingSteps), old(combiningPieces), old(sigmas),
                             scaleFactor, useBlit, finalCombineMode)
    {
      if finalCombineMode != Replace && debugAssertions {
        return false;
      }
      ok := true;
      PlanComposition(scaleFactor, useBlit, finalCombineMode);
    }

    /**
     * The state after planning from the given earlier state: every instance
     * has its texture; the level buckets start afresh while the kernel cache
     * is kept, and hold what scheduling all scale groups leaves; the drawing
     * steps gain the source copies and then every level's steps; the combine
     * pass reads the instances, the destination for `FakeAdd` and the source,
     * with a freshly built shader for exactly those weights.
     */
    ghost predicate Planned(instr0: Instructions, next0: nat, steps0: seq<Step>, pieces0: seq<Texture>, sigmas0: map<real, Kernel>,
                            scaleFactor: real, useBlit: bool, mode: BlendMode)
      reads this, combiningShader
    {
      && LevelsPlanned(instr0, next0, steps0, sigmas0, scaleFactor, useBlit)
      && combiningPieces == pieces0 + CombinePieces(instructions, mode)
      && combiningLoad == LoadActionFor(mode)
      && combiningShader != null
      && combiningShader.settingsList == CombineSettings(instructions, mode)
    }

    /** The part of `Planned` about the textures, the levels and the drawing steps. */
    ghost predicate LevelsPlanned(instr0: Instructions, next0: nat, steps0: seq<Step>, sigmas0: map<real, Kernel>,
                                  scaleFactor: real, useBlit: bool)
      reads this`instructions, this`nextTexture, this`drawingSteps, this`levelObjects, this`sigmas
    {
      && instructions == Prepare.AssignTextures(instr0, next0)
      && nextTexture == next0 + |Buckets.Flatten(instr0)|
      && WellFormed(instructions) && Prepared(instructions)
      && State() == PlanAll(instructions, scaleFactor, useBlit, 0, PlanState([], sigmas0))
      && drawingSteps == steps0 + SourceCopies(instructions) + FlattenLevels(levelObjects)
    }

    /** The level buckets started afresh, every scale group scheduled into them, and the drawing steps appended. */
    method ScheduleAll(scaleFactor: real, useBlit: bool)
      requires WellFormed(instructions) && Prepared(instructions)
      modifies this`drawingSteps, this`levelObjects, this`sigmas
      ensures State() == PlanAll(instructions, scaleFactor, useBlit, 0, PlanState([], old(sigmas)))
      ensures drawingSteps == old(drawingSteps) + SourceCopies(instructions) + FlattenLevels(levelObjects)
    {
      levelObjects := [];
      ScheduleScaleGroups(scaleFactor, useBlit);
      ghost var steps1 := drawingSteps;
      AppendLevelSteps();
      assert drawingSteps == steps1 + FlattenLevels(levelObjects);
    }

    /** The body of `PrepareWith` past the blend-mode check. */
    method PlanComposition(scaleFactor: real, useBlit: bool, finalCombineMode: BlendMode)
      requires Valid()
      modifies this
      ensures Valid()
      ensures Planned(old(instructions), old(nextTexture), old(drawingSteps), old(combiningPieces), old(sigmas),
                      scaleFactor, useBlit, finalCombineMode)
      ensures fresh(combiningShader)
    {
      PlanLevels(scaleFactor, useBlit);
      PrepareCombine(finalCombineMode);
    }

    /** Textures for every instance, then the levels and the drawing steps. */
    method PlanLevels(scaleFactor: real, useBlit: bool)
      requires Valid()
      modifies this`instructions, this`nextTexture, this`drawingSteps, this`levelObjects, this`sigmas
      ensures Valid()
      ensures LevelsPlanned(old(instructions), old(nextTexture), old(drawingSteps), old(sigmas), scaleFactor, useBlit)
    {
      AssignTexturesPrepares(instructions, nextTexture);
      CreateTextures();
      assert Plan.Valid(PlanState([], old(sigmas)));
      ScheduleAll(scaleFactor, useBlit);
      PlannedKernelsFound(old(drawingSteps), old(sigmas), instructions, scaleFactor, useBlit);
    }

    /** The combine pass: the textures it reads, its load action, and a shader built for their weights. */
    method PrepareCombine(mode: BlendMode)
      requires Prepared(instructions)
      modifies this`combiningPieces, this`combiningLoad, this`combiningShader
      ensures combiningPieces == old(combiningPieces) + CombinePieces(instructions, mode)
      ensures combiningLoad == LoadActionFor(mode)
      ensures combiningShader != null && fresh(combiningShader)
      ensures combiningShader.settingsList == CombineSettings(instructions, mode)
    {
      var instructionBuild := BuildCombineList(mode);
      combiningLoad := LoadActionFor(mode);
      combiningShader := new DynamicTextureCombineShader(instructionBuild);
    }
  }
}
