# Blur composition planner, modelled in Dafny

This project models the planning core of the Blur-Composition Metal library.
A `BlurComposition2` object takes a list of blurred layers and plans how to draw them.
Each layer has a scale factor, an opacity, a power and a chain of blur radii.
Preparing the object with a source image yields:

- a texture for every layer instance;
- an ordered list of drawing steps:
  - one copy of the source into each scale group;
  - then the scheduled copies, batched blits and Gaussian blurs, level by level;
- a kernel cache holding one blur kernel per radius;
- the ordered inputs and weights of the final combine pass;
- the Metal source of the combine shader.

The scheduler (`helperProcessTree`) works level by level.
At each level it partitions the trees (texture plus radius chain) by their radius at that level:

- a non-master group with radius 0 gets a copy (or blit) from the master texture into its first tree;
- any other non-master group gets an out-of-place blur into its first tree, and is scheduled again one level down;
- the master group is blurred in place and scheduled again, or, when its radius is 0, copied into its other members.

The modules follow the source:

- `Buckets` models the Swift dictionaries whose values grow by `append`. They are insertion-ordered bucket lists, so the iteration order is the order of first insertion.
- `Plan` holds the scheduler as functions over a `PlanState`, which is the level buckets plus the kernel cache, and the facts the scheduler keeps.
- `Prepare` holds the other planning parts of `prepareWith`, as functions:
  - grouping;
  - texture assignment;
  - radius scaling;
  - flattening the levels;
  - the combine list.
- `Layers` holds the layer classes.
- `CombineShader` holds the shader text generator: a class whose loop method is proved equal to a text function.
- `Composition` holds the `BlurComposition` class. Its fields are updated in place, and each of its methods is proved to leave exactly the state described by the functions above.
- `Scenarios` states, for small fixed inputs, the exact plans the planner produces.

Three behaviours of the code are easy to misread, and the model keeps them as written:

- A radius of 0 stops the descent of its tree. A chain `[0, 4]` is therefore never blurred, not even with radius 4 at level 1 (`Scenarios.ZeroFirstRadius`).
- In a zero-radius group that is not the master group, only the first member is written, by a copy from the master. The other members are never a destination (`Scenarios.CoverageGap`).
- A blend mode other than replace prints a message and calls `assert(false)` (BlurComposition2.swift line 247). That stops only builds with assertions enabled; an optimised build plans normally. The model makes this choice a parameter, `debugAssertions`.

## Model

| member | source | states |
|---|---|---|
| Buckets.Find | BlurComposition2.swift:167 | a dictionary lookup finds the first bucket with the key, or reports that the key is absent |
| Buckets.BucketizeSpec | BlurComposition2.swift:159-173 | appending by key gives distinct keys; each bucket holds exactly the values paired with its key, in input order, and is never empty; every key gets a bucket |
| Buckets.BucketizeHead | BlurComposition2.swift:159-173 | the first value inserted opens the first bucket and is its first item |
| Buckets.BucketizePartition | BlurComposition2.swift:159-173 | every value lands in exactly one bucket: the buckets hold the input's values as a multiset, and no others |
| Buckets.SelectMembers | BlurComposition2.swift:167-172 | a bucket holds only values that were inserted under its key |
| Buckets.FlattenAppend | BlurComposition2.swift:314-319 | walking the buckets in order visits the items of earlier buckets first |
| Plan.PartitionFacts | BlurComposition2.swift:159-173 | every group is nonempty, and every tree of a group comes from the input and has the group's radius at that level (0 when the chain is too short) |
| Plan.PartitionIsExact | BlurComposition2.swift:159-173 | each group is exactly the trees with its radius, in input order, and the groups together hold every tree once |
| Plan.MasterFirst | BlurComposition2.swift:152-175 | the master radius is the first tree's radius; its group is the first group and starts with the first tree |
| Plan.MasterGroup | BlurComposition2.swift:175 | the group looked up by the master radius is the first group, and it starts with the first tree |
| Plan.MasterTexture | BlurComposition2.swift:175 | the master texture is the first tree's texture |
| Plan.Descend | BlurComposition2.swift:194-205 | a group with a nonzero radius is a proper descent: the work left shrinks, and the next level stays within the longest chain |
| Plan.LevelOrCreateHandsBackLevel | BlurComposition2.swift:122-128 | asked for at most one level past the end, the bucket handed back is the one at index `level`; an empty bucket is appended only when it is missing, and nothing else changes |
| Plan.AddSigmaSpec | BlurComposition2.swift:227-233 | after the check the radius has a kernel; existing kernels are never replaced; at most one kernel is added; a repeated call changes nothing; one distinct kernel per radius is kept |
| Plan.EmitCopyKeeps | BlurComposition2.swift:183-187 | scheduling a copy only appends, to the blit batch or to the ordered steps, and keeps every blur's kernel available |
| Plan.AddBlurKeeps | BlurComposition2.swift:190-193 | a blur appended after its kernel check only appends, keeps existing kernels, and can find its own kernel |
| Plan.OpenLevelKeeps | BlurComposition2.swift:149 | opening the level bucket only appends an empty bucket |
| Plan.PlanTree | BlurComposition2.swift:146-217 | scheduling a tree list only appends to levels at or above its own and never replaces a kernel; every scheduled blur finds its kernel and has one pass, and no blit sits among the ordered steps |
| Plan.PlanGroups | BlurComposition2.swift:177-197 | the group loop keeps the same append-only and kernel-available facts |
| Plan.PlanGroup | BlurComposition2.swift:178-196 | one non-master group keeps the same facts |
| Plan.PlanMaster | BlurComposition2.swift:199-216 | the master step keeps the same facts |
| Plan.CopyToRest | BlurComposition2.swift:208-215 | copying the master into the rest of its group keeps the same facts and adds no level |
| Plan.GroupLevel | BlurComposition2.swift:177-197 | what one group adds at its own level: nothing for the master group; one copy or blit from the master into the group's first tree for radius 0; otherwise one out-of-place blur with the group's radius |
| Plan.GroupsLevel | BlurComposition2.swift:177-197 | the group loop adds, at its own level, the groups' parts in group order |
| Plan.RestLevel | BlurComposition2.swift:207-215 | the master-copy loop adds one copy or blit from the master into each later member, in order |
| Plan.MasterLevel | BlurComposition2.swift:199-216 | the master adds one in-place blur when its radius is nonzero, and otherwise copies into its other members |
| Plan.TreeLevel | BlurComposition2.swift:146-217 | the bucket at a call's own level gains exactly the groups' parts and then the master's part; deeper recursive calls never write it |
| Plan.TreeDepth | BlurComposition2.swift:146-217 | scheduling a tree list opens no level beyond the longest chain: any bound covering the open levels, the current level and the tallest tree still covers the levels afterwards |
| Plan.GroupsDepth | BlurComposition2.swift:177-197 | the group loop keeps the levels within the same bound |
| Plan.GroupsDepthStep | BlurComposition2.swift:177-197 | one group followed by the rest of the loop keeps the levels within the bound |
| Plan.GroupDepth | BlurComposition2.swift:178-196 | one non-master group, descending one level, keeps the levels within the bound |
| Plan.MasterDepth | BlurComposition2.swift:199-216 | the master step, descending one level or copying in place, keeps the levels within the bound |
| Prepare.LayerEntriesShape | BlurComposition2.swift:59-67 | there is one stored instance per layer: a complex layer's steps, a simple layer's single radius, or nothing for a plain layer; its weights; no texture |
| Prepare.LayerEntriesSnoc | BlurComposition2.swift:59-74 | layers are read one after another, in input order |
| Prepare.GroupingSpec | BlurComposition2.swift:57-79 | each layer is appended, in input order, to the bucket of its scale factor; buckets are nonempty and hold one instance per layer in total |
| Prepare.AssignTexturesAppend | BlurComposition2.swift:254-262 | numbering one more bucket continues from the number of instances before it |
| Prepare.AssignTexturesShape | BlurComposition2.swift:254-262 | texture assignment keeps every bucket, its key and its number of instances |
| Prepare.AssignTexturesSpec | BlurComposition2.swift:254-262 | the k-th instance in bucket order receives the k-th fresh texture and keeps its chain and weights |
| Prepare.AssignTexturesPrepares | BlurComposition2.swift:254-262 | after assignment every instance has a texture, and every bucket still has a first instance to copy the source into |
| Prepare.TransformSigma | BlurComposition2.swift:141-143 | a scaled radius is 0 exactly when the raw radius, the global scale or the group's scale factor is 0 |
| Prepare.ScaledKey | BlurComposition2.swift:141-143 | a scaled radius is the raw radius times the global scale times the group's scale factor; with nonzero scales, a radius is 0 exactly when the raw radius is |
| Prepare.HeightOfTrees | BlurComposition2.swift:294-301 | scaling keeps the length of every chain |
| Prepare.LongestChainBound | BlurComposition2.swift:294-301 | no instance's chain is longer than the longest chain |
| Prepare.LongestChainAppend | BlurComposition2.swift:291-303 | the longest chain of two lists of instances is the longer of their longest chains |
| Prepare.PlanAll | BlurComposition2.swift:291-303 | scheduling every scale group from level 0 only appends, never replaces a kernel, keeps every blur's kernel available |
| Prepare.PlanAllDepth | BlurComposition2.swift:291-303 | scheduling every scale group from level 0 uses at most one level more than the longest chain of any instance |
| Prepare.SourceCopiesFeedMasters | BlurComposition2.swift:291-302 | each scale group's source copy writes exactly the texture that scheduling that group from level 0 uses as its master (line 175), so every group's blurs start from the source image |
| Prepare.FlattenLevelsAppend | BlurComposition2.swift:304-309 | the levels are emitted in ascending order: all steps of earlier levels come first |
| Prepare.CountBlitsAppend | BlurComposition2.swift:304-309 | counting batch steps is additive over concatenation |
| Prepare.ValidBatchesBlits | BlurComposition2.swift:183-214 | in a planned state, blits appear only in a level's blit batch, never among its ordered steps |
| Prepare.NoBlits | BlurComposition2.swift:308 | a list of ordered steps with no blit contributes no batch step |
| Prepare.FlattenLevelsCountsBlits | BlurComposition2.swift:304-309 | the flattened steps hold one blit step per level with a nonempty batch, and no other |
| Prepare.FlattenLevelsBlitsNonEmpty | BlurComposition2.swift:305-307 | an emitted blit step never carries an empty batch |
| Prepare.PreparedEntries | BlurComposition2.swift:316 | after texture assignment, every instance read by the combine loop has its texture |
| Prepare.FlattenLevelsKernelsFound | BlurComposition2.swift:304-309 | when every blur in the levels has its kernel in the cache, so does every blur in the flattened steps |
| Prepare.PlannedKernelsFound | BlurComposition2.swift:289-309 | after planning, every blur among the drawing steps, old and new, names a radius with a kernel in the cache, so the forced kernel lookup of the render loop (line 468) finds one |
| Prepare.LoadActionMatchesInputs | BlurComposition2.swift:325-332 | the combine pass always clears or loads, never leaves the destination undefined; it clears exactly when the mode is replace or the destination is itself a combine input (fake-add), and loads otherwise |
| Prepare.CombineAligned | BlurComposition2.swift:313-325 | the combine textures and weights are index-aligned: instance k with its own opacity and power, then the destination with (1, 1) for fake-add, and the source with (1, 1) last; the lists have one entry per instance plus one, or plus two for fake-add |
| Layers.BlurredLayer.constructor | BlurredLayer.swift:16-20 | scale factor, opacity and power are stored as given; power defaults to 1 |
| Layers.ComplexBlurredLayer.constructor | BlurredLayer.swift:26-29 | the steps are stored verbatim, and the weights go to the shared layer fields |
| Layers.ComplexBlurredLayer.AfterScale | BlurredLayer.swift:32-37 | every radius is multiplied by the factor in place; the length is kept; the same object is returned; the immutable fields cannot change |
| Layers.SimpleBlurredLayer.constructor | BlurredLayer.swift:43-46 | the radius is stored verbatim, and the weights go to the shared layer fields |
| Layers.SimpleBlurredLayer.AfterScale | BlurredLayer.swift:48-51 | the radius is multiplied by the factor in place, and the same object is returned |
| CombineShader.ParseNatToString | DynamicCombineShader.swift:27 | the decimal text of a slot index reads back as that index |
| CombineShader.NatToStringInjective | DynamicCombineShader.swift:27 | different slot indices are printed as different texts |
| CombineShader.ParamsStep | DynamicCombineShader.swift:25-27 | each loop pass appends exactly the parameter of its own slot |
| CombineShader.TermsStep | DynamicCombineShader.swift:28-38 | each loop pass appends a tab pair, then `+` unless it is the first entry, then the entry's term |
| CombineShader.Header | DynamicCombineShader.swift:48-50 | the header opens the `metal` namespace before anything else |
| CombineShader.Struct | DynamicCombineShader.swift:52-54 | the struct text opens with `typedef struct` and closes by naming the record `ColorInOut`, the type both shader functions use |
| CombineShader.VertexShader | DynamicCombineShader.swift:17-19 | the vertex text starts by declaring the entry point `gaussianComp_vertex` returning `ColorInOut` |
| CombineShader.FragmentEntryPoint | DynamicCombineShader.swift:20-42 | whatever the settings list, the fragment text starts by declaring the entry point `gaussianComp_fragment` returning `float4` |
| CombineShader.ShaderDefinesEntryPoints | DynamicCombineShader.swift:43-45 | for every settings list, the shader text declares both functions that BlurComposition2.swift lines 339-340 look up by name |
| CombineShader.DynamicTextureCombineShader.constructor | DynamicCombineShader.swift:14-16 | the settings list is stored verbatim |
| CombineShader.DynamicTextureCombineShader.FragmentShader | DynamicCombineShader.swift:20-42 | the text built by the loop is the fragment function for the settings list, with one texture parameter and one weighted term per entry, in order |
| CombineShader.DynamicTextureCombineShader.GetShaderString | DynamicCombineShader.swift:43-45 | the shader is the header, the struct and the vertex function, each followed by a blank line, then the fragment |
| CombineShader.TermUsesPowIff | DynamicCombineShader.swift:34-38 | a term raises the sample to a power exactly when its power is not 1 |
| CombineShader.TextureParamInjective | DynamicCombineShader.swift:27 | different slots get different parameter texts |
| CombineShader.ParamsPrefix | DynamicCombineShader.swift:25-27 | the parameters of a shorter list are a proper prefix of a longer list's, and the longer list continues with a further parameter |
| CombineShader.FragmentDeterminesCount | DynamicCombineShader.swift:20-42 | two lists with the same fragment text have the same length: the text declares exactly one texture per entry |
| CombineShader.FragmentsDiffer | DynamicCombineShader.swift:20-42 | lists of different lengths give different fragment texts |
| CombineShader.BodyStartsWithParen | DynamicCombineShader.swift:41 | the text after the parameter list starts by closing it |
| CombineShader.ShaderDiffersOnlyInFragment | DynamicCombineShader.swift:43-54 | the header, struct and vertex function do not depend on the list: two shaders are equal exactly when their fragments are |
| CombineShader.SingleEntry | DynamicCombineShader.swift:25-39 | with one entry there is one parameter and one term, without a leading `+` |
| CombineShader.SlotZero | DynamicCombineShader.swift:27 | the first parameter binds `texture0` to texture index 0 |
| Composition.GroupTrees | BlurComposition2.swift:158-173 | the loop builds exactly the partition of the trees by their radius at the level |
| Composition.BuildTrees | BlurComposition2.swift:294-301 | each instance becomes its texture with every radius scaled in place, in bucket order |
| Composition.GroupLayers | BlurComposition2.swift:58-74 | the loop over the layers builds exactly the bucketing of their instances by scale factor |
| Composition.BlurComposition.constructor | BlurComposition2.swift:57-79 | the instructions are the layers bucketed by scale factor; every other field starts empty |
| Composition.BlurComposition.GetLevelObjectOrCreate | BlurComposition2.swift:122-128 | the bucket index is `level` when it exists; otherwise one empty bucket is appended and its index returned |
| Composition.BlurComposition.CheckAddSigma | BlurComposition2.swift:227-233 | the kernel cache gains a kernel for the radius only when it has none |
| Composition.BlurComposition.AppendCopy | BlurComposition2.swift:183-187 | one copy goes into the level's blit batch when blitting, and otherwise into its ordered steps |
| Composition.BlurComposition.AppendBlur | BlurComposition2.swift:190-193 | the radius's kernel is ensured, then a one-pass blur is appended to the level's ordered steps |
| Composition.BlurComposition.ProcessTree | BlurComposition2.swift:146-217 | the bucket handed back for `level` is the one every write of this call goes to; the level buckets and kernel cache end exactly as the scheduler function says, so every fact proved of it holds for the object |
| Composition.BlurComposition.ProcessGroup | BlurComposition2.swift:177-197 | one pass of the group loop leaves exactly the state of the group step |
| Composition.BlurComposition.ProcessMaster | BlurComposition2.swift:199-216 | the master step leaves exactly the state of the master function |
| Composition.BlurComposition.NumberBucket | BlurComposition2.swift:255-261 | each instance of the bucket, in order, gets the next fresh texture in place; the other buckets, the key and the chains and weights are unchanged, and the counter advances by the bucket's size |
| Composition.BlurComposition.CreateTextures | BlurComposition2.swift:254-262 | the nested loop rewrites the instructions in place into the texture assignment and allocates exactly one texture per instance |
| Composition.BlurComposition.ScheduleScaleGroup | BlurComposition2.swift:294-302 | the source is copied into the group's first instance, and scheduling the group's scaled trees from level 0 moves planning of the groups from group `k` on to group `k + 1` |
| Composition.BlurComposition.ScheduleScaleGroups | BlurComposition2.swift:291-303 | the source copies are appended in bucket order, and the levels end as scheduling all scale groups says |
| Composition.BlurComposition.AppendLevelSteps | BlurComposition2.swift:304-309 | the steps of every level are appended, lowest level first: its blit batch when nonempty, then its ordered steps |
| Composition.BlurComposition.ScheduleAll | BlurComposition2.swift:289-309 | the levels start afresh and the kernel cache is kept; the drawing steps gain the source copies, then the flattened levels |
| Composition.BlurComposition.BuildCombineList | BlurComposition2.swift:313-325 | the combine textures and weights are the instances in bucket order, then the destination for fake-add, then the source |
| Composition.BlurComposition.PlanComposition | BlurComposition2.swift:250-336 | the whole prepared state: textures assigned, levels as planned, drawing steps and combine inputs appended, load action chosen, and a fresh shader built for exactly the combine weights; the plan stays consistent and every blur among the drawing steps has its kernel in the cache |
| Composition.BlurComposition.PrepareWith | BlurComposition2.swift:243-336 | with assertions enabled, a blend mode other than replace stops and changes nothing; otherwise the prepared state above holds |
| Scenarios.SingletonPartition | BlurComposition2.swift:159-173 | one tree makes one group keyed by its radius |
| Scenarios.PairPartition | BlurComposition2.swift:159-173 | two trees with the same radius make one group, in input order |
| Scenarios.LoneZero | BlurComposition2.swift:199-216 | a lone tree whose radius is 0 at a level only opens that level; nothing is scheduled and the descent stops |
| Scenarios.LoneBlur | BlurComposition2.swift:199-205 | a lone tree with a nonzero radius is blurred in place and scheduled again one level down |
| Scenarios.LoneLastBlur | BlurComposition2.swift:199-216 | a lone tree whose chain ends after a level is blurred in place there, and the next level is opened and left empty |
| Scenarios.SingleBlur | BlurComposition2.swift:146-217 | a single radius 5 gives one in-place blur at level 0, one kernel, and an empty level 1 |
| Scenarios.PairLastBlur | BlurComposition2.swift:146-217 | two trees sharing a nonzero radius whose chains end there: one in-place blur of the first, then one level down a copy of it into the second |
| Scenarios.SharedRadius | BlurComposition2.swift:146-217 | two layers with the same radius get one blur, and one level later the second texture gets a copy of the blurred first |
| Scenarios.ZeroFirstRadius | BlurComposition2.swift:199-216 | a chain starting with radius 0 is never blurred, whatever radii follow |
| Scenarios.DistinctPairPartition | BlurComposition2.swift:159-173 | two trees with different radii make two groups, in input order |
| Scenarios.SplitPartition | BlurComposition2.swift:159-173 | a tree followed by two trees sharing another radius makes two groups, in order of first appearance |
| Scenarios.GapPlan | BlurComposition2.swift:146-217 | a tree with a nonzero radius whose chain ends there, followed by two trees of radius 0: one copy from the master into the second tree, then the master's in-place blur, then an empty next level; the third tree is never written |
| Scenarios.CoverageGap | BlurComposition2.swift:146-217 | with radii 5, 0, 0 the whole plan is a copy into the second texture, the blur of the first, one kernel and an empty level 1; the third texture is never written |
| Scenarios.OneLayerLevels | BlurComposition2.swift:291-303 | one layer with radius 5 at global scale 1 leaves an in-place blur at level 0 and an empty level 1 |
| Scenarios.FlattenBlurThenEmpty | BlurComposition2.swift:304-309 | a level holding one ordered step, followed by an empty level, flattens to that step alone |
| Scenarios.OneSimpleLayer | BlurComposition2.swift:291-325 | one layer with radius 5 is planned as a source copy then one in-place blur; the combine pass reads its texture and the source, both with weights (1, 1) |

## Left out

- Metal and Metal Performance Shaders objects are not modelled:
  - textures become abstract `Texture` values, and a counter stands in for `helperMakeTexture`;
  - Gaussian kernels become `Kernel` tokens with a serial;
  - render pass descriptors and the copy pipeline (`helperCopyEncodingStep`, `basicCopyPipelineMake`, lines 130-139 and 519-541) are reduced to `Copy(from, to)`;
  - library compilation and the combine pipeline's blend settings (lines 336-373) are reduced to keeping the generated shader object.
- `render` (lines 432-517) replays the plan against a command buffer and is not modelled. The fact its kernel lookup relies on is stated by `Prepare.PlannedKernelsFound` and kept by the object's invariant.
- The debug helpers are not modelled: `IDTexture` labels, `arc4random`, the label-based `==`, `debugNameTexture`, `safeEqualCheck`, `debugSource` and `debugDestination`. `IDTexture` is not part of this model.
- The `width`, `height`, `device`, `pixelFormat` and `sampleCount` parameters of `prepareWith` only size and configure GPU objects, so they are left out, together with the texture sizes `Int(Float(width) * scaleFactor * key)`.
- The combine pass's store action and clear colour are left out; only its load action is kept.
- Swift `Float` is modelled as `real`: there is no rounding, no NaN and no infinity. Radius keys therefore compare exactly, and `afterScale` and radius scaling are exact products.
- CombineShader.DynamicTextureCombineShader.FragmentShader: Swift's `Float` to text formatting is a parameter `show`, so the digits of the weights are not modelled.
- Swift dictionary iteration order is unspecified. The model fixes it to first-insertion order, so every plan property is stated for that order.
- LevelObject is a reference type in Swift and a value in a sequence here. The planner only ever writes through the bucket of its own level, and that bucket's index is proved to equal the level, so no aliasing is lost.
- Composition.BlurComposition.PrepareWith: when assertions stop the call, the model returns `false` with the state unchanged; the process abort itself is not modelled.
