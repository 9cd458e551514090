# GraphicsProgramming core, modelled in Dafny

This project models the core of a small OpenGL renderer written in C++: the
skeletal-animation pipeline, the scene graph, collision, the camera, meshes,
model loading and lights. The model works at the level of the program's own
objects and follows its code:

- **Skeletal animation.** A bone's key tracks and bracket search. The bone
  table that hands out dense IDs to bone names, shared by a skinned model and
  the clips built on it. Clip construction. The animator's time wrapping and
  its recursive parent-before-child pass, which writes into a fixed
  512-matrix output. The array-based pose layer of `Structures.h`: the 32-bit
  name hash, `fm_xform_mul`, `PoseLocalToModel` and `AnimClipSample`.
- **Loading.** `Model` and `SkinnedModel` loading over an already-imported
  scene: depth-first mesh collection, index flattening, default texture
  coordinates, texture-source priority, and the four bone slots per vertex.
- **Scene graph.** Entities with unique IDs, child lists, name search and
  model-matrix propagation, and their `Transform`.
- **Collision and camera.** Axis-aligned box overlap and push-out. The
  camera's movement, mouse-look, pitch clamp, yaw wrap and zoom.
- **Meshes.** How a mesh names its texture samplers and binds the default
  textures, and how the three GL handles move on copy, move and assignment.
- **Lights.** Point, spot and directional lights: per-class ID counters with
  a bound, shader prefixes, and the attenuation presets.

How the model is built:

- A class whose fields the program updates in place is a Dafny `class`.
  Pure computations are functions, and the loops are methods with invariants.
- Static state is an explicit object passed in: the entity ID counter, each
  light class's counter, and the mesh's default-texture list.
- The GL state a draw touches is also an explicit object: texture units,
  integer uniforms and the log of draw calls.
- GL handles are plain numbers. Matrices and quaternions are free symbolic
  terms: two transforms are equal only when built by the same operations in
  the same order, so every composition order is exact.
- Times, scale factors, box arithmetic and the camera are reals.

Several behaviours are kept exactly as the code has them, and lemmas state
them:

- The name hash sign-extends bytes of 0x80 and above, so it equals FNV-1a
  only on 7-bit names.
- `fm_xform_mul` never reads the second operand's position.
- `AnimClipSample` blends positions from the upper key to the lower one.
- Two clips built on the same model can give different new bone names the
  same ID, because each copies the model's counter.
- `GetMesh` returns the last mesh for an index above the count.
- A texture of type NONE reuses the previous texture's uniform name.
- The metalness and roughness default samplers read each other's file.
- Skinned-model textures never get the sRGB flag.

## Model

| member | source | states |
|---|---|---|
| Structures.CharToUnsigned | src/Public/Structures.h:29-32 | a char below 0x80 enters the xor as itself; one of 0x80 or more arrives sign-extended, with its upper 24 bits set |
| Structures.CStrLen | src/Public/Structures.h:27 | strlen: no NUL among the first n chars, and the char at n is a NUL unless n is the whole length |
| Structures.HashName | src/Public/Structures.h:24-33 | the hash is the xor-then-multiply fold over exactly the chars before the first NUL |
| Structures.EmptyNameHash | src/Public/Structures.h:24-33 | an empty name hashes to the offset basis 2166136261, the value FNV-1a gives it |
| Structures.CharHashAppend | src/Public/Structures.h:29-32 | appending one char advances the hash by one xor-and-multiply step |
| Structures.AsciiHashIsFnv1a | src/Public/Structures.h:24-33 | on 7-bit names the hash is exactly the reference 32-bit FNV-1a |
| Structures.HashStopsAtNul | src/Public/Structures.h:27 | a name is read up to its first NUL: the length is that of the part before it, whatever follows |
| Structures.NonAsciiDiffers | src/Public/Structures.h:31 | the single octet 0xC3 hashes to a value different from FNV-1a, because the char is sign-extended |
| Structures.QuatRotate | src/Public/Structures.h:80-89 | fm_quat_rotate keeps the w component of the vector |
| Structures.RotateByScalarQuat | src/Public/Structures.h:80-89 | a quaternion with no vector part (the identity among them) leaves every vector unchanged |
| Structures.RotateKeepsAxis | src/Public/Structures.h:80-89 | a vector along the quaternion's axis is left where it is |
| Structures.XformMulIgnoresPosition | src/Public/Structures.h:91-100 | fm_xform_mul never reads the second operand's position: changing it changes nothing |
| Structures.XformMulIdentityRotationDoubles | src/Public/Structures.h:91-100 | with an identity rotation in b, the product keeps a's rotation and doubles a's position |
| Structures.Pose.constructor | src/Public/Structures.h:42-48 | a pose holds its transform and track arrays with counts that fit them |
| Structures.LocalToModel | src/Public/Structures.h:108-122 | the pass over the first n bones keeps the array's length |
| Structures.LocalToModelKeepsRest | src/Public/Structures.h:108-122 | entries from index n on are left as the pass found them |
| Structures.LocalToModelKeepsDone | src/Public/Structures.h:110-122 | a bone's entry is final once its step has run: later steps write other slots |
| Structures.LocalToModelAt | src/Public/Structures.h:110-122 | bone i holds what step i computed from the array as the first i steps left it |
| Structures.ParentBeforeChild | src/Public/Structures.h:112-121 | a root (negative parent) copies its local transform; a bone whose parent comes earlier gets the parent's new model times its local transform |
| Structures.ParentNotBeforeChild | src/Public/Structures.h:112-117 | a bone whose parent index is not smaller composes the parent's value from before the pass |
| Structures.IdentityChildDoublesParent | src/Public/Structures.h:112-117 | a child with identity local rotation ends with its parent's rotation and twice its parent's position, whatever its own position |
| Structures.PoseLocalToModel | src/Public/Structures.h:103-129 | the model array becomes the pass over min(transform counts) bones, and the first min(track counts) tracks are copied from local, the rest kept |
| Structures.DecompressKeyTime | src/Public/Structures.h:75-78 | key times are stored in 24ths of a second: the result times 24 is the stored value |
| Structures.KeyTimeOrder | src/Public/Structures.h:75-78 | decompression keeps the order of key times in both directions |
| Structures.UpperFrom | src/Public/Structures.h:147-151 | the scan from idx stops below n, passes only keys earlier than the time, and stops before the last key only at a key not earlier than it |
| Structures.UpperIndex | src/Public/Structures.h:147-153 | the upper index: every key before it is earlier than the time; it is the last key or a key not earlier than the time |
| Structures.FindUpper | src/Public/Structures.h:144-151 | the while loop over the keys returns exactly the upper index |
| Structures.UpperIndexUnique | src/Public/Structures.h:147-151 | any index with the upper-index properties is the upper index |
| Structures.ConstantKeyBranch | src/Public/Structures.h:153-161 | the constant-key branch is taken exactly when there is one key or the time is not past the first key |
| Structures.UpperAtKeyTime | src/Public/Structures.h:147-153 | with strictly increasing keys, sampling at key k's time stops the search at k |
| Structures.LerpEnds | src/Public/Structures.h:171-172 | lerp gives its first end at alpha 0 and its second at alpha 1, for vectors and quaternions |
| Structures.AlphaAtUpper | src/Public/Structures.h:168-171 | at the upper key's own time alpha is 1 |
| Structures.SampleBeforeFirstKey | src/Public/Structures.h:153-200 | with one key, or a time not past the first key, both blocks yield the first key |
| Structures.RotationAtKeyTime | src/Public/Structures.h:162-176 | at the time of rotation key k > 0 the rotation is key k, normalised |
| Structures.PositionAtKeyTime | src/Public/Structures.h:201-212 | at the time of position key k > 0 the position is key k - 1, because the lerp runs from the upper to the lower key |
| Structures.SampleCurves | src/Public/Structures.h:136-217 | sampling the curves keeps the pose's length |
| Structures.SampleKeepsUndriven | src/Public/Structures.h:136-217 | a pose slot that no curve drives keeps its transform |
| Structures.SampleLastCurveWins | src/Public/Structures.h:136-217 | a slot ends with the rotation and position sampled from the last curve that drives it |
| Structures.InterpolateRotation | src/Public/Structures.h:142-179 | the rotation block returns the curve's rotation sample |
| Structures.InterpolatePosition | src/Public/Structures.h:181-216 | the position block returns the curve's position sample |
| Structures.AnimClipSample | src/Public/Structures.h:131-218 | the pose array becomes the curves sampled in order over the old pose |
| Text.NatToString | src/Private/Mesh.cpp:173 | std::to_string of a count: at least one char, all digits, a single digit exactly below 10 |
| Text.NatToStringRoundTrip | src/Private/Mesh.cpp:173 | reading the digits back gives the number |
| Text.NatToStringInjective | src/Private/Mesh.cpp:173 | different numbers give different strings |
| Text.Indexed | src/Private/PointLight.cpp:17 | name + "[" + number + "]": starts with the name, ends with "]", and is two chars longer than both parts |
| Text.IndexedInjective | src/Private/PointLight.cpp:17 | equal indexed names have the same base and the same index |
| Geometry.MixEnds | src/Private/Bone.cpp:107 | glm::mix gives its first end at 0 and its second at 1 |
| Bones.PositionTimes | src/Private/Bone.cpp:65-67 | the time stamps of the position keys, in key order |
| Bones.RotationTimes | src/Private/Bone.cpp:77-79 | the time stamps of the rotation keys, in key order |
| Bones.FirstBracket | src/Private/Bone.cpp:63-73 | the index search: the first i with time before key i + 1's stamp, every later-stamped key before it not past the time; None (the assert(0) path) exactly when no key after the first is later than the time |
| Bones.BracketLowerBound | src/Private/Bone.cpp:63-73 | when the search stops past index 0, the time lies in [stamp i, stamp i + 1) |
| Bones.CoversFinds | src/Private/Bone.cpp:63-73 | on a track of two or more keys whose last stamp is later than the time, the search does not reach assert(0) |
| Bones.ScaleFactor | src/Private/Bone.cpp:88-95 | the factor is the fraction that takes the earlier stamp to the time along the bracket |
| Bones.ScaleFactorBounds | src/Private/Bone.cpp:88-95 | the factor is 0 at the earlier stamp and lies in [0, 1) inside the bracket |
| Bones.PositionKeys | src/Private/Bone.cpp:8-22 | the channel's position keys are copied in order with their values and times |
| Bones.RotationKeys | src/Private/Bone.cpp:24-38 | the channel's rotation keys are copied in order with their values and times |
| Bones.Bone.constructor | src/Private/Bone.cpp:3-39 | the bone keeps its name and ID, copies the channel's keys and starts at the identity transform |
| Bones.Bone.GetPositionIndex | src/Private/Bone.cpp:63-73 | the loop returns exactly the bracket search's result over the position stamps |
| Bones.Bone.GetRotationIndex | src/Private/Bone.cpp:75-85 | the loop returns exactly the bracket search's result over the rotation stamps |
| Bones.Bone.InterpolatePosition | src/Private/Bone.cpp:97-109 | the translation is the only key's, or the mix across the bracket by the scale factor |
| Bones.Bone.InterpolateRotation | src/Private/Bone.cpp:111-125 | the rotation is the only key normalised, or the normalised slerp across the bracket |
| Bones.Bone.Update | src/Private/Bone.cpp:41-46 | the local transform becomes the translation times the rotation at the time |
| Bones.Bone.ReadyCovers | src/Private/Bone.cpp:63-85 | a bone whose tracks are ordered and reach a time serves every earlier time without assert(0) |
| Bones.Bone.SingleKeyConstant | src/Private/Bone.cpp:99-117 | a bone with one key per track has the same transform at every time |
| Bones.Bone.PositionAtKey | src/Private/Bone.cpp:97-109 | sampling exactly at a position key other than the last gives that key's translation |
| Bones.Bone.RotationAtKey | src/Private/Bone.cpp:111-125 | sampling exactly at a rotation key other than the last slerps from that key by 0 |
| BoneTable.Register | src/Private/SkinnedModel.cpp:240-264 | an absent name gets the counter as its ID and the counter advances; a present name leaves table and counter alone |
| BoneTable.RegisterAllKeeps | src/Private/SkinnedModel.cpp:236-264 | registration keeps every present entry and adds exactly the registered names |
| BoneTable.RegisterAllFreshIds | src/Private/SkinnedModel.cpp:240-260 | the counter never goes back, and new names get distinct IDs in [old counter, new counter) |
| BoneTable.RegisterAllKeepsDense | src/Private/SkinnedModel.cpp:240-260 | a table whose IDs are exactly 0 .. counter - 1 keeps that property |
| BoneTable.EmptyTableDense | src/Private/SkinnedModel.cpp:240-260 | a table built from nothing numbers its bones 0 .. counter - 1, each once |
| BoneTable.FirstOccurrenceId | src/Private/SkinnedModel.cpp:245-259 | the first occurrence of a new name gets the counter reached just before it |
| BoneTable.RegisterAllSplit | src/Private/SkinnedModel.cpp:236-276 | registering a + b is registering a, then b: meshes processed one after another share one table |
| BoneTable.NewIdsInOrder | src/Private/SkinnedModel.cpp:245-259 | new IDs follow the order in which names first appear |
| BoneTable.RegisteredName | src/Private/SkinnedModel.cpp:240-264 | every registered name is in the resulting table |
| Animations.MirrorsConsistent | src/Private/Animation.cpp:85-99 | in a copied hierarchy, childrenCount equals the number of children at every node |
| Animations.MirrorsUnique | src/Private/Animation.cpp:85-99 | a source tree has only one faithful copy |
| Animations.Trunc | src/Private/Animation.cpp:15 | the double-to-int conversion of the tick rate truncates toward zero, on both signs |
| Animations.ClipEntries | src/Private/Animation.cpp:69-78 | one registration request per channel, in channel order, carrying the channel's name and a zero offset |
| Animations.FirstBoneIndex | src/Private/Animation.cpp:22-39 | the index of the first bone with the name; None exactly when no bone has it |
| Animations.BonesMatchGrows | src/Private/Animation.cpp:69-80 | the bone list stays in step with the channels when the table only grows and the next bone is built from the next channel |
| Animations.Animation.constructor | src/Private/Animation.cpp:8-20 | duration and truncated tick rate copied, the hierarchy mirrored, the channels registered in the model's table with the model's counter unchanged, one bone per channel carrying its name's ID |
| Animations.Animation.ReadMissingBones | src/Private/Animation.cpp:61-83 | the model's table becomes the registration of the channel names from a copy of its counter; the counter is not written back; bone i is built from channel i with the table's ID for its name; the clip keeps a snapshot of the table |
| Animations.Animation.ReadHierarchyData | src/Private/Animation.cpp:85-99 | the result mirrors the source node: name, transformation, child count and children in order, at every level |
| Animations.Animation.FindBone | src/Private/Animation.cpp:22-39 | null exactly when no bone has the name; otherwise the first bone in the clip's list that carries it |
| Animations.SharedCounterCollision | src/Private/Animation.cpp:63-78 | two clips that each bring a name the model lacks give their two different names the same ID |
| Animators.Fmod | src/Private/Animator.cpp:34 | C's fmod, for either sign of the divisor: the result differs from the dividend by a whole multiple of the divisor, keeps the dividend's sign, and is smaller than the divisor in magnitude, which together fix it |
| Animators.NextTime | src/Private/Animator.cpp:33-34 | the advanced time lies in (-duration, duration), and in [0, duration) whenever the advanced time before the fmod is not negative |
| Animators.ReadyPlayable | src/Private/Animator.cpp:33-35 | when every bone the hierarchy reaches through FindBone has tracks that reach the duration, the pass can sample all of them at any earlier time; bones no node reaches are not constrained |
| Animators.Pass | src/Private/Animator.cpp:45-89 | the pass over a node's subtree keeps the number of final matrices |
| Animators.PassPrefix | src/Private/Animator.cpp:85-88 | the pass over a node and its first k children keeps the number of final matrices |
| Animators.Apply | src/Private/Animator.cpp:82 | writing matrices into in-range slots keeps the number of matrices |
| Animators.ApplyAppend | src/Private/Animator.cpp:82-88 | writing a then b is writing a + b |
| Animators.ApplyUntouched | src/Private/Animator.cpp:82 | a slot no write names keeps its matrix |
| Animators.ApplyLastWrite | src/Private/Animator.cpp:82 | a slot ends with the value of the last write to it |
| Animators.WritesSlots | src/Private/Animator.cpp:75-88 | every slot the pass writes is the ID of some bone in the clip's table |
| Animators.WritesPrefixSlots | src/Private/Animator.cpp:75-88 | the same for a node and its first k children |
| Animators.PassIsWrites | src/Private/Animator.cpp:45-89 | the pass equals applying, in depth-first order, the writes its nodes make |
| Animators.PassPrefixIsWrites | src/Private/Animator.cpp:85-88 | the same for a node and its first k children |
| Animators.PassKeepsUnusedSlots | src/Private/Animator.cpp:75-83 | final matrices at slots that no bone ID names are left untouched |
| Animators.NodeWritesFirst | src/Private/Animator.cpp:72-82 | a node present in the table writes parent times local times offset at its ID, before any descendant writes |
| Animators.WritesPrefixStartsWithNode | src/Private/Animator.cpp:72-88 | a node's own write comes before those of its children |
| Animators.Animator.constructor | src/Private/Animator.cpp:6-26 | time 0, the given clip, and 512 identity matrices |
| Animators.Animator.UpdateAnimation | src/Private/Animator.cpp:28-37 | with no clip nothing but the frame time changes; with one, the time advances by ticks per second times dt modulo the duration, the final matrices become the pass from the root under the identity, and exactly the bones the hierarchy names are updated to that time |
| Animators.Animator.PlayAnimation | src/Private/Animator.cpp:39-43 | the clip is replaced, time resets to 0, the matrices are kept |
| Animators.Animator.CalculateBoneTransform | src/Private/Animator.cpp:45-89 | the final matrices become the pass over the node's subtree under the parent transform; exactly the bones named in the subtree are updated |
| Animators.Animator.VisitNode | src/Private/Animator.cpp:47-83 | returns the parent transform times the node's local one (its bone's if it has one, the rest pose otherwise) and writes the node's own matrix |
| Animators.Animator.GetFinalBoneMatrices | src/Private/Animator.cpp:91-94 | a copy of the 512 final matrices |
| SkinnedVertices.SetVertexBoneDataToDefault | src/Private/SkinnedModel.cpp:40-47 | every bone slot becomes ID -1 and weight 0; position, normal and texture coordinates are kept |
| SkinnedVertices.FirstFree | src/Private/SkinnedModel.cpp:51-59 | the first slot whose ID is negative; None exactly when every slot is taken |
| SkinnedVertices.WithInfluence | src/Private/SkinnedModel.cpp:49-60 | adding an influence keeps the slot arrays' size and the vertex attributes, and a vertex with every slot taken is unchanged |
| SkinnedVertices.FirstFreeTaken | src/Private/SkinnedModel.cpp:51-59 | when slot k is the first free one, the influence lands in slot k and nowhere else |
| SkinnedVertices.SetVertexBoneData | src/Private/SkinnedModel.cpp:49-60 | the loop with its break gives exactly the vertex with the influence added |
| SkinnedVertices.Influences | src/Private/SkinnedModel.cpp:269-275 | a sequence of influences keeps the attributes and the slot arrays' size |
| SkinnedVertices.InfluencesAppend | src/Private/SkinnedModel.cpp:269-275 | influences a then b is influences a + b |
| SkinnedVertices.FillsInOrder | src/Private/SkinnedModel.cpp:49-60 | from a cleared vertex, up to four influences with real IDs fill slots 0, 1, ... in arrival order and the other slots stay free |
| SkinnedVertices.FullStays | src/Private/SkinnedModel.cpp:51-59 | a vertex whose slots are all taken ignores every further influence |
| SkinnedVertices.ExtraInfluencesDropped | src/Private/SkinnedModel.cpp:51-59 | beyond the first four influences, further ones are dropped silently |
| SkinnedVertices.ApplyWeights | src/Private/SkinnedModel.cpp:266-275 | the weight loop of one bone keeps the number of vertices and their slot arrays |
| SkinnedVertices.ApplyWeightsAt | src/Private/SkinnedModel.cpp:269-275 | vertex k receives exactly the weights addressed to it, in list order |
| SkinnedVertices.BoneEntries | src/Private/SkinnedModel.cpp:236-257 | one registration request per mesh bone |
| SkinnedVertices.BoneId | src/Private/SkinnedModel.cpp:238-264 | a known bone name gives its stored ID, a new one the current counter |
| SkinnedVertices.Skin | src/Private/SkinnedModel.cpp:234-277 | skinning keeps the number of vertices and their slot arrays |
| SkinnedVertices.SkinStep | src/Private/SkinnedModel.cpp:236-276 | one more bone: register it, then apply its weights under the ID it got |
| SkinnedVertices.SkinAt | src/Private/SkinnedModel.cpp:234-277 | vertex k receives, in order, the influences of every bone's weights naming it |
| SkinnedVertices.RegisterAllNonNegative | src/Private/SkinnedModel.cpp:245-259 | registration from a table without negative IDs hands out none |
| SkinnedVertices.HitsNonNegative | src/Private/SkinnedModel.cpp:265-274 | the influences a real bone gives a vertex carry a non-negative ID |
| SkinnedVertices.InfluencesNonNegative | src/Private/SkinnedModel.cpp:265 | every bone ID handed to a vertex is a real one: the boneID != -1 assertion holds |
| SkinnedVertices.SkinnedSlots | src/Private/SkinnedModel.cpp:96-126 | a vertex that started cleared holds its first four influences in arrival order and free slots after them |
| SkinnedModels.UnweightedVertex | src/Private/SkinnedModel.cpp:98-124 | the vertex the vertex loop builds has every bone slot free |
| SkinnedModels.UnweightedVertices | src/Private/SkinnedModel.cpp:96-126 | one cleared vertex per position, built in order from the mesh's streams |
| SkinnedModels.MeshStep | src/Private/SkinnedModel.cpp:90-232 | the load step builds, for every mesh and every table, what ProcessMesh builds |
| SkinnedModels.LoadMeshes | src/Private/SkinnedModel.cpp:77-88 | loading a list of mesh indices builds one mesh per index |
| SkinnedModels.LoadMeshesAppend | src/Private/SkinnedModel.cpp:77-88 | loading a + b is loading a, then b from the table a left |
| SkinnedModels.LoadMeshesStep | src/Private/SkinnedModel.cpp:79-83 | loading the first i + 1 indices is loading the first i, then index i |
| SkinnedModels.LoadMeshesAt | src/Private/SkinnedModel.cpp:79-83 | mesh k is built from index k with the table the meshes before it left |
| SkinnedModels.LoadedMeshAt | src/Private/SkinnedModel.cpp:90-232 | mesh k is the k-th listed mesh with its material's textures (never sRGB), skinned with the table as the earlier meshes left it |
| SkinnedModels.LoadMeshesTable | src/Private/SkinnedModel.cpp:234-264 | after a load every bone of the loaded meshes is registered, in load order |
| SkinnedModels.LoadedBonesDense | src/Private/SkinnedModel.cpp:234-264 | a load from an empty table names exactly the loaded meshes' bones and numbers them 0 .. counter - 1 without gaps or repeats |
| SkinnedModels.SkinnedModel.constructor | src/Private/SkinnedModel.cpp:10-13 | an unusable scene leaves the model empty; otherwise the directory is the path up to its last slash and the meshes and table are the depth-first load from an empty table |
| SkinnedModels.SkinnedModel.LoadModel | src/Private/SkinnedModel.cpp:62-75 | a null, incomplete or rootless scene changes nothing; otherwise the directory is recorded and the depth-first load appended |
| SkinnedModels.SkinnedModel.ProcessNode | src/Private/SkinnedModel.cpp:77-88 | appends the meshes of the subtree in pre-order, threading the bone table through them |
| SkinnedModels.SkinnedModel.ProcessChildren | src/Private/SkinnedModel.cpp:84-87 | after the node's own meshes, each child's subtree is appended in order |
| SkinnedModels.SkinnedModel.ProcessOwnMeshes | src/Private/SkinnedModel.cpp:79-83 | one mesh per index the node lists, in order |
| SkinnedModels.SkinnedModel.ProcessMesh | src/Private/SkinnedModel.cpp:90-232 | the built mesh and the table it leaves are the load step's |
| SkinnedModels.SkinnedModel.ReadVertices | src/Private/SkinnedModel.cpp:96-126 | a fresh array holding the cleared vertices in order |
| SkinnedModels.SkinnedModel.ExtractBoneWeightForVertices | src/Private/SkinnedModel.cpp:234-277 | the table becomes the registration of the mesh's bones; the vertices become their skinning bone by bone |
| SkinnedModels.SkinnedModel.RegisterBone | src/Private/SkinnedModel.cpp:238-264 | returns the name's stored ID or, for a new name, the counter, which then advances |
| SkinnedModels.SkinnedModel.WriteWeights | src/Private/SkinnedModel.cpp:266-275 | each weight goes, under the bone's ID, to the vertex it names |
| SkinnedModels.SkinnedModel.GetMesh | src/Private/SkinnedModel.cpp:25-33 | an index below the count gives that mesh; one above it gives the last mesh |
| SceneData.MeshesOfNodesAppend | src/Private/SkinnedModel.cpp:77-88 | the meshes of a + b are those of a followed by those of b |
| SceneData.MeshOrderIsPreOrder | src/Private/SkinnedModel.cpp:77-88 | the recursive collection order is the pre-order node list with each node's meshes in turn |
| SceneData.MeshOrderPrefixIsPreOrder | src/Private/SkinnedModel.cpp:84-87 | a node's own meshes and its first k subtrees are those of the node and its first k children's pre-orders |
| SceneData.FlattenFacesAppend | src/Private/SkinnedModel.cpp:128-135 | flattening distributes over splitting the face list, so each face's indices stay contiguous |
| MeshLoading.LastSlash | src/Private/Model.cpp:50 | find_last_of('/'): a slash with no slash after it; None exactly when the path has no slash |
| MeshLoading.DirectoryOf | src/Private/Model.cpp:50 | the path up to, not including, its last slash; a path without a slash is kept whole |
| MeshLoading.VertexAt | src/Private/Model.cpp:76-103 | the vertex takes slot i's position, a normal exactly when the mesh has normals, and (0, 0) texture coordinates when there is no UV set |
| MeshLoading.WellFormedStreamsAgree | src/Private/Model.cpp:74-104 | a well-formed mesh has normal and UV streams as long as its positions |
| MeshLoading.VerticesOf | src/Private/Model.cpp:74-104 | one vertex per position, in order |
| MeshLoading.ReadVertices | src/Private/Model.cpp:74-104 | the vertex loop builds exactly the mesh's vertex list |
| MeshLoading.ReadIndices | src/Private/Model.cpp:106-113 | the index loop yields every face's indices, face after face |
| MeshLoading.FlattenFacesPosition | src/Private/Model.cpp:106-113 | index j of face f sits in the flattened list at that face's offset plus j |
| MeshLoading.Select | src/Private/Model.cpp:57-61 | the meshes for a list of indices, one per index |
| MeshLoading.SelectAppend | src/Private/Model.cpp:57-65 | selecting a + b is selecting a, then b |
| MeshLoading.SelectSnoc | src/Private/Model.cpp:57-61 | selecting one more index appends that index's mesh |
| MeshLoading.SelectAt | src/Private/Model.cpp:57-61 | slot i of the selection is the mesh for the i-th index |
| MeshLoading.MeshOrderInRange | src/Private/Model.cpp:55-66 | every index the depth-first walk meets names a mesh of the scene |
| MeshLoading.MeshOrderPrefixInRange | src/Private/Model.cpp:62-65 | the same for a node's own meshes and its first k subtrees |
| MeshLoading.ChosenSource | src/Private/Model.cpp:126-204 | the first source type, in priority order, that the material has a texture of; None exactly when it has none of them |
| MeshLoading.FirstWithPath | src/Private/Model.cpp:219-228 | the first loaded texture with the path; None exactly when none has it |
| MeshLoading.SlotTextures | src/Private/Model.cpp:210-245 | one texture per slot of the source type |
| MeshLoading.SlotTexturesPrefix | src/Private/Model.cpp:213-243 | one texture per slot visited so far |
| MeshLoading.FindLoaded | src/Private/Model.cpp:219-228 | the loop over loaded textures returns the first whose path matches |
| MeshLoading.LoadMaterialTextures | src/Private/Model.cpp:210-245 | for each slot in order, the first loaded texture whose path is directory and name run together, else a new texture under directory + "/" |
| MeshLoading.SlotTexturesPrefixAt | src/Private/Model.cpp:213-243 | entry i is the texture for the material's slot i of that type |
| MeshLoading.FreshWhenNothingLoaded | src/Private/Model.cpp:229-242 | with nothing loaded, slot i yields a new texture of the requested type under directory + "/", sRGB only for albedo when the loader asks for it |
| MeshLoading.LoadGroup | src/Private/Model.cpp:126-136 | a group's if / else-if chain loads the textures of its first source type that the material has |
| MeshLoading.ReadMaterial | src/Private/Model.cpp:115-205 | the six groups' textures are appended in group order |
| MeshLoading.GroupChoice | src/Private/Model.cpp:138-153 | a group of up to three source types loads from the first one with a texture, and nothing when none has one |
| MeshLoading.GroupTexturesFresh | src/Private/Model.cpp:126-136 | with nothing loaded, a group's textures carry its type, and sRGB only for albedo when asked |
| MeshLoading.MaterialTexturesOrdered | src/Private/Model.cpp:126-204 | with nothing loaded, a material's textures come grouped as albedo, normal, emission, metalness, roughness, ambient occlusion |
| MeshLoading.GroupRanks | src/Private/Model.cpp:126-136 | a group's textures all sit at the group's rank |
| MeshLoading.MaterialTexturesSrgb | src/Private/Model.cpp:229-242 | with nothing loaded, every texture has a real type, and exactly the albedo ones carry sRGB when the loader asks for it |
| Models.MeshForContents | src/Private/Model.cpp:68-208 | a built mesh has one vertex per position at that position, (0, 0) coordinates without UVs, textures in group order and sRGB exactly on albedo |
| Models.MeshTable | src/Private/Model.cpp:68-208 | entry k is what ProcessMesh builds from the scene's mesh k |
| Models.Model.constructor | src/Private/Model.cpp:10-13 | an unusable scene leaves the model empty; otherwise the directory is the path up to its last slash and the meshes are the depth-first selection |
| Models.Model.LoadModel | src/Private/Model.cpp:40-53 | a null, incomplete or rootless scene changes nothing; otherwise the directory is recorded and the depth-first meshes appended |
| Models.Model.ProcessNode | src/Private/Model.cpp:55-66 | appends the meshes of the node's subtree in pre-order |
| Models.Model.ProcessOwnMeshes | src/Private/Model.cpp:57-61 | appends one mesh per index the node lists, in order |
| Models.Model.ProcessMesh | src/Private/Model.cpp:68-208 | builds exactly the table's mesh for that index |
| Models.Model.GetMesh | src/Private/Model.cpp:25-33 | an index below the count gives that mesh; one above it gives the last mesh |
| Models.LoadedMeshOrder | src/Private/Model.cpp:55-66 | the k-th loaded mesh is built from the k-th index of the pre-order listing of node meshes |
| Transforms.LocalModelInjective | src/Private/Transform.cpp:106-118 | two local models agree exactly when position, rotation and scale all agree |
| Transforms.Transform.constructor | src/Private/Transform.cpp:6-13 | the three fields are stored, the transform is dirty and the model is the local model of those fields |
| Transforms.Transform.CalculateModel | src/Private/Transform.cpp:15-18 | at the root the model becomes the local model alone |
| Transforms.Transform.CalculateModelUnder | src/Private/Transform.cpp:20-23 | under a parent the model becomes the parent's global model times the local model |
| Transforms.Transform.SetLocalPosition | src/Private/Transform.cpp:25-29 | the position is replaced and the transform is dirty; nothing else changes |
| Transforms.Transform.SetLocalRotation | src/Private/Transform.cpp:31-35 | the rotation is replaced and the transform is dirty; nothing else changes |
| Transforms.Transform.SetLocalScale | src/Private/Transform.cpp:37-41 | the scale is replaced and the transform is dirty; nothing else changes |
| Transforms.Transform.IsDirty | src/Private/Transform.cpp:88-91 | a transform is always dirty: the flag is set on construction and by every setter and nothing clears it |
| Entities.IdAfter | src/Private/Entity.cpp:15 | the unsigned counter, k constructions on, is below 2^32 and is either the plain sum or has wrapped |
| Entities.IdsDistinct | src/Private/Entity.cpp:15 | fewer than 2^32 constructions in a row never hand out the same ID twice |
| Entities.IdCounter.constructor | src/Private/Entity.cpp:15 | the static counter starts at 0 |
| Entities.IdCounter.Take | src/Private/Entity.cpp:15 | m_IDCounter++: returns the current value and moves the counter on by one, modulo 2^32 |
| Entities.Entity.constructor | src/Private/Entity.cpp:21-30 | a named root with no children, not refracting, the next ID, and an identity transform (zero position and rotation, unit scale) |
| Entities.Entity.AddChild | src/Private/Entity.cpp:32-36 | appends a fresh child with the next ID, names it, and makes this entity its parent; the tree stays well formed |
| Entities.Entity.UpdateSelfAndChildren | src/Private/Entity.cpp:38-46 | a clean transform leaves every model of the subtree as it was; a dirty one propagates models through the whole subtree |
| Entities.Entity.ForceUpdateSelfAndChildren | src/Private/Entity.cpp:48-63 | every entity of the subtree ends with its local model under its parent's model (the root: its local model alone) |
| Entities.Entity.UpdateChildren | src/Private/Entity.cpp:59-62 | each child's subtree is propagated under this entity's model, in list order |
| Entities.Entity.FindByName | src/Private/Entity.cpp:115-130 | this entity exactly when its name matches; otherwise the first child in list order whose subtree has the name; null exactly when nothing in the subtree has it |
| Entities.Entity.FindInChildren | src/Private/Entity.cpp:121-129 | the first child from the given position whose subtree contains the name; null exactly when none does |
| Entities.Entity.Equals | src/Private/Entity.cpp:220-223 | two entities are equal exactly when their IDs are |
| Cameras.OppositeStepsCancel | src/Private/Camera.cpp:20-57 | a key press followed by the opposite key with the same frame time returns the camera to where it was |
| Cameras.TurnsCompose | src/Private/Camera.cpp:59-80 | two mouse samples in a row turn the camera as one sample over the combined cursor motion |
| Cameras.StillCursorNoTurn | src/Private/Camera.cpp:59-80 | a sample where the cursor has not moved does not turn the camera |
| Cameras.ClampPitch | src/Private/Camera.cpp:84-91 | pitch ends in [-89, 89], unchanged inside it, and at the bound it crossed otherwise |
| Cameras.WrapYaw | src/Private/Camera.cpp:92-99 | yaw ends in [0, 360): 360 or more restarts at 0, a negative yaw goes just below 360, anything else is kept |
| Cameras.WrapYawAsWrittenReaches360 | src/Private/Camera.cpp:96-99 | in single precision 360.0f - FLT_MIN rounds to 360, so a negative yaw wraps to exactly 360 |
| Cameras.ScrollReturnsToRange | src/Private/Camera.cpp:129-143 | zoom inside [1, 45] takes the scroll; outside it is reset to the bound; a zoom the scroll pushed out is reset by the next scroll |
| Cameras.Camera.constructor | src/Private/Camera.cpp:5-17 | speed and sensitivity stored, at the origin, unrotated, forward +X, up +Y, right +Z, first activation pending |
| Cameras.Camera.GetKeyboardInput | src/Private/Camera.cpp:20-57 | the position moves by speed times frame time along the key's axis, with or against it; nothing else changes |
| Cameras.Camera.GetMouseInput | src/Private/Camera.cpp:59-80 | the cursor is recorded; the first sample turns nothing, later ones add the sensitivity-scaled motion to pitch and yaw |
| Cameras.Camera.UpdateForwardVector | src/Private/Camera.cpp:82-99 | pitch is clamped into [-89, 89] and yaw wrapped into [0, 360); roll is kept |
| Cameras.Camera.GetMouseScroll | src/Private/Camera.cpp:129-143 | the zoom follows the scroll rule: reset to 1 or 45 when outside, else reduced by the scroll |
| Collisions.IntersectsIffOverlap | src/Private/CollisionManager.cpp:12-33 | the test holds exactly when the open extents overlap on all three axes, so touching boxes do not intersect |
| Collisions.IntersectsSymmetric | src/Private/CollisionManager.cpp:12-33 | A intersects B exactly when B intersects A |
| Collisions.PushOnOneAxis | src/Private/CollisionManager.cpp:46-65 | the push direction is non-zero on one axis at most |
| Collisions.AxisPushNonZero | src/Private/CollisionManager.cpp:46-54 | on an axis where the boxes overlap, the push is non-zero |
| Collisions.ShortestPushKept | src/Private/CollisionManager.cpp:50-65 | for intersecting boxes exactly one axis push is kept, and it is no longer than the other two |
| Collisions.PushSeparates | src/Private/CollisionManager.cpp:35-71 | after the push (A by four fifths, B back by one fifth) the boxes no longer intersect |
| Collisions.ColliderAABB.constructor | src/Private/ColliderAABB.cpp:7-11 | center and range are stored |
| Collisions.HandleCollision | src/Private/CollisionManager.cpp:35-71 | ranges never change; boxes that do not intersect stay put; otherwise A moves by four fifths of the push and B back by one fifth, so their separation grows by the whole push; a collider handled against itself takes both moves |
| Lights.CounterAfter | src/Private/PointLight.cpp:9-16 | however many lights of a class are built, the counter never passes the bound plus one |
| Lights.AllocationsFromZero | src/Private/PointLight.cpp:9-16 | from a fresh counter the k-th light gets ID k while k is within the bound (so bound + 1 lights get IDs) and no ID afterwards |
| Lights.LightCounter.constructor | src/Public/PointLight.h:58 | each class's static counter starts at 0 |
| Lights.LightCounter.Take | src/Private/PointLight.cpp:9-16 | past the bound no ID is handed out and the counter stays; otherwise the counter's value is the ID and it advances |
| Lights.PrefixesDistinct | src/Private/PointLight.cpp:17 | shader prefixes differ across the three light classes, and within a class for different IDs |
| Lights.Light.constructor | src/Private/Light.cpp:3-8 | the color is stored, intensity 1, switched on, no prefix yet |
| Lights.Light.SetColor | src/Private/Light.cpp:10-13 | only the color changes, to the given one |
| Lights.Light.SetIntensity | src/Private/Light.cpp:20-23 | only the intensity changes, to the given one |
| Lights.Light.SetIsOn | src/Private/Light.cpp:30-33 | only the on flag changes, to the given one |
| Lights.Light.Register | src/Private/PointLight.cpp:16-17 | the light records the ID it was handed and the prefix built from it |
| Lights.Preset | src/Private/PointLight.cpp:36-114 | every distance preset has constant 1 and positive linear and quadratic terms, D_50 being the default |
| Lights.PresetsWeakenWithRange | src/Private/PointLight.cpp:39-114 | a longer range has strictly smaller linear and quadratic terms |
| Lights.PresetInjective | src/Private/PointLight.cpp:39-114 | different distances give different presets |
| Lights.AttenuationRadiusSolves | src/Private/PointLight.cpp:116-117 | the preset radius is positive and solves quadratic r^2 + linear r = 79, the distance at which the attenuated light falls to 1/80 |
| Lights.AttenuationRadiusAsWrittenNegative | src/Private/PointLight.cpp:31-32 | the coefficient overload's radius -(linear + root) / (2 quadratic) is negative where the preset formula's is positive |
| Lights.PointLight.constructor | src/Private/PointLight.cpp:5-18 | position and color stored, intensity 1, on; within the bound the preset attenuation, the next point-light ID and its prefix; past it no prefix and the counter stays |
| Lights.PointLight.Bare | src/Private/PointLight.cpp:177-180 | the protected constructor only sets up the base light |
| Lights.PointLight.SetPosition | src/Private/PointLight.cpp:20-23 | only the position changes, to the given one |
| Lights.PointLight.SetAttenuationCoefficients | src/Private/PointLight.cpp:25-29 | the three coefficients are stored exactly as given |
| Lights.PointLight.SetAttenuationParams | src/Private/PointLight.cpp:36-113 | the attenuation becomes the distance's preset, constant term 1 |
| Lights.SpotLight.constructor | src/Private/SpotLight.cpp:7-25 | the normalised direction and color are stored; within the bound the position, the default D_50 attenuation, cut-off 12.5, outer 5, the next spot-light ID and its prefix; past it no prefix and the counter stays |
| Lights.SpotLight.SetDirection | src/Private/SpotLight.cpp:27-30 | the direction becomes the normalised given one |
| Lights.SpotLight.SetCutOff | src/Private/SpotLight.cpp:32-35 | only the cut-off angle changes, to the given one |
| Lights.SpotLight.SetOuter | src/Private/SpotLight.cpp:37-40 | only the outer angle changes, to the given one |
| Lights.DirectionalLight.constructor | src/Private/DirectionalLight.cpp:7-19 | direction (not normalised) and color stored; within the bound the next directional ID and its prefix; past it no prefix and the counter stays |
| Lights.DirectionalLight.SetDirection | src/Private/DirectionalLight.cpp:21-24 | the direction is replaced as given, without normalising |
| Meshes.TypeIndex | src/Public/Texture.h:7-17 | every texture type indexes the per-type counter array within its TYPESCOUNT entries |
| Meshes.TypeIndexInjective | src/Public/Texture.h:7-17 | different texture types use different counters |
| Meshes.TypeNameInjective | src/Private/Mesh.cpp:175-206 | the six named types get six different uniform names |
| Meshes.Kinds | src/Private/Mesh.cpp:171 | one type per texture, read from that texture |
| Meshes.Samplers | src/Private/Mesh.cpp:168-214 | texture i's sampler uniform is assigned texture unit i, one assignment per texture in order |
| Meshes.WriteIntsUntouched | src/Private/Mesh.cpp:213 | setting sampler uniforms leaves every other uniform as it was, present or absent |
| Meshes.WriteIntsDistinct | src/Private/Mesh.cpp:213 | when the uniform names differ, each one ends up holding its own texture's unit |
| Meshes.BoundDefaultsAt | src/Private/Mesh.cpp:147-150 | the defaults occupy units 31 downwards, the i-th on unit 31 - i; every other unit keeps its texture |
| Meshes.BoundDefaultsIdempotent | src/Private/Mesh.cpp:161-167 | binding the defaults a second time, as Draw does, changes nothing |
| Meshes.FirstSamplerNames | src/Private/Mesh.cpp:151-156 | the names ResetTextures writes are exactly the names Draw gives the first texture of each type |
| Meshes.ResetSamplersIdempotent | src/Private/Mesh.cpp:161-167 | resetting the sampler uniforms twice is the same as once |
| Meshes.StandardDefaults | src/Private/Mesh.cpp:17-33 | six default textures are loaded |
| Meshes.DefaultSamplerFiles | src/Private/Mesh.cpp:17-37 | after a reset each type's first sampler reads a default texture: albedo, normal, emission and AO their own file, metalness the Roughness.png one and roughness the Metalness.png one |
| Meshes.DrawCallFor | src/Private/Mesh.cpp:216-224 | all indices are drawn; plainly when the amount is 1, instanced with that amount otherwise |
| Meshes.RenderState.constructor | src/Private/Mesh.cpp:159-228 | no unit bound, no uniform set, no draw issued |
| Meshes.DefaultTextureList.constructor | src/Public/Mesh.h:25 | the static default-texture list starts empty |
| Meshes.BindDefaults | src/Private/Mesh.cpp:147-150 | the units become exactly the defaults bound from unit 31 down over the old binding |
| Meshes.ResetTextures | src/Private/Mesh.cpp:145-157 | the defaults are bound from unit 31 down and the six first samplers are pointed at units 31 to 26 |
| Meshes.Mesh.constructor | src/Private/Mesh.cpp:7-41 | vertices, indices, textures and handles stored; the first mesh loads the six defaults and binds them, later meshes leave the list and the units alone |
| Meshes.Mesh.Transfer | src/Private/Mesh.cpp:43-67 | a copy or move takes the other mesh's data and handles and zeroes the other's handles, which keeps its data |
| Meshes.Mesh.Destroy | src/Private/Mesh.cpp:69-80 | all three handles are 0 and vertices, indices and textures are empty |
| Meshes.Mesh.Assign | src/Private/Mesh.cpp:82-114 | self-assignment changes nothing; otherwise this takes the other's data and handles and the other's handles become 0 |
| Meshes.Mesh.Draw | src/Private/Mesh.cpp:159-228 | the mesh's textures on units 0.. over the bound defaults, every sampler uniform written over the reset ones, and exactly one draw call for all indices appended |
| Meshes.Mesh.BindAndName | src/Private/Mesh.cpp:168-214 | texture i is bound to unit i and its sampler uniform set to i, for every texture |
| Meshes.BindAndNameOne | src/Private/Mesh.cpp:170-213 | one loop step keeps the counters, the current name, the units and the uniforms equal to those of the textures handled so far |
| Meshes.CountAndName | src/Private/Mesh.cpp:171-211 | the number used is the count of earlier textures of the same type, that type's counter advances, and the name becomes the one in force |
| Meshes.NameAfter | src/Private/Mesh.cpp:175-211 | a named type sets its own name; NONE keeps the previous name |
| Meshes.SamplerUniformsDistinct | src/Private/Mesh.cpp:173-213 | when every texture has a named type, no two textures write the same sampler uniform |
| Meshes.NamedLastName | src/Private/Mesh.cpp:175-206 | a texture with a named type is named after its own type |
| Meshes.CountGrows | src/Private/Mesh.cpp:173 | a later texture of the same type gets a strictly larger number |
| Meshes.EachTextureSampled | src/Private/Mesh.cpp:168-214 | with named types, texture i's uniform holds unit i after the loop and unit i holds texture i |
| Meshes.UntexturedTypeKeepsReset | src/Private/Mesh.cpp:151-156 | a type the mesh has no texture of keeps its reset sampler, so it falls back to the default texture |
| Meshes.NamedUniformsDiffer | src/Private/Mesh.cpp:213 | a sampler uniform name determines both its type and its number |
| Meshes.NoTypeReusesStaleName | src/Private/Mesh.cpp:207-213 | a NONE texture after an albedo one writes "material.albedo[0]" again, overwriting the albedo texture's unit |

## Left out

- OpenGL itself is not modelled: buffer setup (`SetupMesh`), `glDelete*`, shader compilation and the values a shader receives. Texture binding, integer sampler uniforms and draw calls are recorded in a `RenderState`; every other GL call is left out.
- Every `Draw` other than the mesh draw, every light's `SetupShader`, gizmo drawing, and the `Print`/`PrintVec` functions are I/O and are left out. `Model::Draw` and `SkinnedModel::Draw` only loop over the mesh draw.
- Reading files with Assimp is not part of this model. The loaders take the imported scene as a value (`SceneData`).
- Floating-point geometry is symbolic: glm's translate, rotate, scale, toMat4, slerp, normalize and quaternion rotation have no algebraic laws here. The camera's recomputed forward, right and up vectors (`src/Private/Camera.cpp:101-107`) and `LookAt` (`src/Private/Camera.cpp:110-127`) are trigonometry and are left out. The spot-light cone angles and the projection matrices are left out for the same reason.
- Float rounding is not modelled except for the yaw wrap, where it matters (`Cameras.WrapYawAsWritten`). Everything else, including the cursor offsets of `GetMouseInput`, uses exact reals.
- Lights.PointLight.SetAttenuationParams: the light's radius and gizmo circle are not stored, because they need `sqrt`. The radius is a function of the coefficients, and the square root is a parameter constrained to be the root of the discriminant.
- Lights.SpotLight.constructor, Lights.DirectionalLight.constructor and Lights.PointLight.constructor: past the class's bound the source leaves the ID unassigned. The model leaves it arbitrary too and promises only the empty prefix.
- The quantisation helpers in `src/Public/BoneInfo.h` and the undeclared key decompressors called from `src/Public/Structures.h` are not part of this model. `AnimClipSample` takes the decompressors as function parameters.
- `Transform::GetGlobalPosition`, `GetGlobalScale`, `GetRight`, `GetUp`, `GetForward` and `PrintModel` read matrix columns or print, and are left out.
- The entity's object and shader pointers, the `Draw*` and GUI functions, and the constructor that takes an object are left out. They only store pointers or draw.
- Entities.Entity.AddChild: proved for the entity it is called on. The ghost footprint of that entity's ancestors is not extended, so after adding below a non-root the tree invariant is re-established only from that entity down.
- `TYPESCOUNT` is not a texture type in the model. Used as one, it would index one past the per-type counter array.
- `Mesh` and `SkinnedMesh` are one generic class `Meshes.Mesh<V>`, because their code differs only in the vertex type. The copy and move constructors are one constructor `Transfer`, and the copy and move assignments are one method `Assign`, because each pair does the same thing.
- SkinnedModels.SkinnedModel.GetMesh and Models.Model.GetMesh: an index equal to the mesh count is excluded by the precondition, because the source reads past the end of the list there.
- `Animation::GetRootNode` and `GetBoneIDMap` are plain field reads. The inverse global transformation computed in `ReadHierarchyData` is never used, and is left out.
- `fmod` with a zero duration and NaN times are not modelled: the animator requires a positive duration.
- Structures.PoseLocalToModel: requires at most 65535 bones. The source counts bones in a `uint16_t` against a `uint32_t` bound (`src/Public/Structures.h:108-110`), so with more bones the counter wraps to 0 before reaching the bound and the loop never ends. The model does not describe that non-terminating case.
- The animator's `m_DeltaTime` field is modelled as `deltaTime`: `UpdateAnimation` stores it and `PlayAnimation` keeps it, but nothing reads it, so no property depends on it.
- The default `ColliderAABB` constructor and the collider's `Draw` are left out. The collision manager's singleton access is left out, because `HandleCollision` and `Intersects` use no manager state.
- The list of already-loaded textures is never appended to in the source, so it is modelled as a parameter that is empty in practice. Its path comparison joins directory and file without the "/" that the created textures get.
- Scale key tracks are declared but never loaded or used, so the model has no scale keys.

## Findings

| source | as written | input that shows it | evidently intended | confidence | as-written member | corrected member |
|---|---|---|---|---|---|---|
| src/Private/Camera.cpp:96-99 | a negative yaw becomes `360.0f - FLT_MIN`, which rounds to 360.0f in single precision | yaw = -1 | the yaw lands just below 360, inside [0, 360) | not executed | Cameras.WrapYawAsWrittenReaches360 | Cameras.WrapYaw |
| src/Private/PointLight.cpp:31-32 | the three-coefficient setter computes the radius as -(linear + sqrt(delta)) / (2 quadratic) | coefficients (1, 0.09, 0.032), the D_50 preset | the positive root (-linear + sqrt(delta)) / (2 quadratic), as the preset setter at line 117 computes | not executed | Lights.AttenuationRadiusAsWrittenNegative | Lights.AttenuationRadiusSolves |
