# DeclarePushConstants, modelled in Dafny

This project models the `DeclarePushConstants` module pass of clspv, the
OpenCL C to Vulkan compiler. The pass decides which implicit per-dispatch
values ("push constants") a kernel module needs. It then declares them as a
single module-scope struct variable in the push-constant address space. A
metadata node on that variable lists the kind of each field.

The pass considers six kinds in a fixed order: GlobalOffset,
EnqueuedLocalSize, GlobalSize, RegionOffset, NumWorkgroups,
RegionGroupOffset. GlobalOffset is needed when an outside predicate says so.
Each of the other five is needed when the non-uniform NDRange option is on
and the module has a function with that kind's mangled builtin name
(`_Z23get_enqueued_local_sizej`, `_Z15get_global_sizej`, `_Z13get_global_idj`,
`_Z14get_num_groupsj`, `_Z12get_group_idj`). If anything is needed, the pass
does four things:
- builds a struct whose member types follow the selection;
- creates a global of that type under a fixed name and address space;
- zero-initialises it;
- attaches a metadata node with the integer code of each selected kind, in
  the same order.

It reports a change exactly when the selection is non-empty.

Files:
- `push_constants.dfy` (module `PushConstants`): the six kinds, their
  canonical order, and lemmas about lists kept in that order.
- `ir.dfy` (module `IR`): the module state the pass touches. A `Module` class
  holds the set of function names and the list of globals. A
  `GlobalVariable` class has a fixed type, name, address space and constness,
  and an initializer and metadata attachments that are set after creation.
  Creating a global appends it to its module, as LLVM's `GlobalVariable`
  constructor does.
- `declare_push_constants.dfy` (module `DeclarePushConstants`): the five
  `ShouldDeclare*` predicates, the selection, the two loops that build the
  member types and the metadata operands, the pass itself (`RunOnModule`),
  and the lemmas.
- `wrappers.dfy` (module `Wrappers`): an `Option` type.

The parts of the pass that call code outside this file are parameters:
- `Gates` carries the value of the `NonUniformNDRangeSupported()` option and
  the answer of `ShouldDeclareGlobalOffsetPushConstant(M)`.
- `Collaborators` carries five things: `GetPushConstantType` as a function
  from kind to type, the integer code of each kind (`static_cast<int>(pc)`),
  the variable name, the metadata kind name and the push-constant address
  space.

LLVM types are the type parameter `Ty`.

## Model

| member | source | states |
|---|---|---|
| `DeclarePushConstants.SelectPushConstants` | lib/DeclarePushConstantsPass.cpp:93-119 | the list built by the six tests in turn equals the canonical order filtered by the per-kind tests |
| `DeclarePushConstants.CanonicalSelectionUnfolded` | lib/DeclarePushConstantsPass.cpp:97-119 | filtering the canonical order by any test is the same as testing the six kinds one after the other and appending each kind that passes |
| `DeclarePushConstants.SelectionInCanonicalOrder` | lib/DeclarePushConstantsPass.cpp:97-119 | the selection is a subsequence of the canonical order, strictly ordered by rank, has no duplicates and has at most six entries |
| `DeclarePushConstants.SelectionMembership` | lib/DeclarePushConstantsPass.cpp:59-119 | a kind is in the selection if and only if its test passes |
| `DeclarePushConstants.GlobalOffsetSelectedIff` | lib/DeclarePushConstantsPass.cpp:97-99 | GlobalOffset is selected if and only if the global-offset predicate holds, whatever the non-uniform NDRange option is |
| `DeclarePushConstants.OptionalKindSelectedIff` | lib/DeclarePushConstantsPass.cpp:59-119 | each of the five other kinds is selected if and only if the option is on and the module has the function with that kind's mangled name |
| `DeclarePushConstants.SelectionIsUnique` | lib/DeclarePushConstantsPass.cpp:97-119 | any list in canonical order holding exactly the kinds whose test passes equals the selection |
| `DeclarePushConstants.WithoutNonUniformNDRange` | lib/DeclarePushConstantsPass.cpp:59-119 | with the option off the selection is `[GlobalOffset]` if the global-offset predicate holds and empty otherwise |
| `DeclarePushConstants.TwoBuiltinsInCanonicalOrder` | lib/DeclarePushConstantsPass.cpp:101-119 | a module with only the num-groups and enqueued-local-size builtins, option on, global offset not needed, gets `[EnqueuedLocalSize, NumWorkgroups]` |
| `DeclarePushConstants.AllKindsSelected` | lib/DeclarePushConstantsPass.cpp:97-119 | option on, global offset needed and all five builtins present gives the whole canonical order |
| `DeclarePushConstants.BuildMembers` | lib/DeclarePushConstantsPass.cpp:124-128 | the member list has one entry per selected kind and entry i is the type of kind i |
| `DeclarePushConstants.BuildMetadata` | lib/DeclarePushConstantsPass.cpp:140-145 | the operand list has one entry per selected kind and entry i is the code of kind i |
| `DeclarePushConstants.RunOnModule` | lib/DeclarePushConstantsPass.cpp:89-152 | returns true if and only if the selection is non-empty; if empty the globals are unchanged; otherwise exactly one fresh global is appended: its struct type, zero initializer, non-constant, fixed name and address space, and a single metadata node whose operands are the codes of the selected kinds in field order; function symbols never change |
| `DeclarePushConstants.MetadataRoundTrip` | lib/DeclarePushConstantsPass.cpp:140-148 | when distinct kinds have distinct codes, the operands written for a selection decode back to that selection |
| `DeclarePushConstants.FieldsMatchMetadata` | lib/DeclarePushConstantsPass.cpp:124-148 | in a declared global, decoding the metadata gives the selection, and field i has the type of the kind named by operand i |
| `PushConstants.StrictlyRankedDeterminedByElements` | lib/DeclarePushConstantsPass.cpp:97-119 | two lists in canonical order with the same kinds are equal, so the set of needed kinds fixes the layout |
| `IR.GlobalVariable.constructor` | lib/DeclarePushConstantsPass.cpp:132-136 | the new global has the given type, constness, name and address space, no initializer and no metadata, and is appended to the module's globals |
| `IR.GlobalVariable.SetInitializer` | lib/DeclarePushConstantsPass.cpp:138 | the initializer becomes the given one |
| `IR.GlobalVariable.SetMetadata` | lib/DeclarePushConstantsPass.cpp:147-148 | the attachment of the given kind is replaced by the node and the others are kept |

The five `ShouldDeclare*` predicates (lib/DeclarePushConstantsPass.cpp:59-87)
are modelled one for one. Their behaviour is stated by
`OptionalKindSelectedIff` and `SelectionMembership`.

## Left out

- Pass registration and the factory function (lines 49-57) are framework plumbing with nothing to state.
- `ShouldDeclareGlobalOffsetPushConstant`, `GetPushConstantType`, `PushConstantsVariableName`, `PushConstantsMetadataName` and the `PushConstant` address space are defined in files that are not part of this model. Their results are parameters.
- The numeric values of the `PushConstant` enumeration are defined in a header that is not part of this model. The code of each kind is a parameter. The decoding lemmas assume only that distinct kinds have distinct codes.
- The process-wide `clspv::Option` state is a parameter (`Gates.nonUniformNDRangeSupported`).
- The enumeration has kinds this pass never considers. The model's `PushConstant` type holds only the six it does.
- Metadata operands are 32-bit integer constants in the source. They are plain integers here, which makes no difference for enumeration values.
- Linkage (external) and thread-local mode (none) of the new global are not recorded.
- `StructType::create` makes a new, distinct struct type on every call. The model keeps only the member list, so two structs with the same members are not told apart.
- LLVM renames a global whose name clashes with an existing one. That renaming is not modelled. Running the pass twice appends a second global, as in the source.
- LLVM's symbol table is a name lookup. The module's functions are a set of names, so declaration order does not exist in the model.
