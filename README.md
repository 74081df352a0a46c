# Subzero global initializers and basic blocks, in Dafny

This project models two parts of the Subzero code generator and proves properties of them:

- **Global declarations** (`src/IceGlobalInits.h`). These are the function and global-variable declarations of a module, together with the initializers that give a variable its bytes.
- **Basic blocks** (`src/IceCfgNode.h`). This is the `CfgNode` record of a function's control-flow graph: its identity, name, loop depth, flags, instruction lists and edge lists.

The project has three modules:

- `IceDefs` (`ice_defs.dfy`) holds the fixed-width integer types.
  - `SizeT` is a 32-bit unsigned integer.
  - A relocated address is 4 bytes wide (`RelocAddrSize`).
  - Two conversions are written out explicitly: `WrapSizeT` keeps the low 32 bits of a count, and `TruncateToInt8` is the `int8_t` cast of a 64-bit record value.
  - `IceDefs.h` itself is not part of this model. The 32-bit `SizeT` and `RelocAddrSize = 4` are the values for Subzero's 32-bit targets.
- `GlobalInits` (`global_inits.dfy`) covers the declarations.
  - `FunctionDeclaration` and `VariableDeclaration` are classes, because their name, linkage and initializer list change in place.
  - `GlobalDeclarationRef` is a reference to either kind. It carries the queries that the base class `GlobalDeclaration` defines once for both kinds.
  - An `Initializer` is a value: data bytes, a run of zero bytes, or a relocation against another declaration.
  - Each initializer's `Image()` is the sequence of bytes it lays down. `Layout()` is the image of a whole list. Byte counts are proved against these images.
- `CfgNodes` (`cfg_node.dfy`) covers the blocks.
  - `CfgNode` is a class.
  - `Cfg` is the part of the owning function that a block uses: the node table indexed by node number, the identifier-name table and the instruction-number counter.
  - Edges are node references, as in the source.
  - `PredecessorsUpTo` is a value-level reference for what running `computePredecessors` over the nodes does to the in-edge lists. `EdgeSymmetry` proves that the in-edges it produces mirror the out-edges.

Some bodies are only declared in `IceCfgNode.h`. They live in `IceCfgNode.cpp` and `IceCfg.cpp`, which are not part of this model. The header does not fix what those bodies do, so the model assumes the following:

- `renumberInstructions` numbers the phis first and then the other instructions, consecutively from the function's next instruction number. It sets `InstCountEstimate` to the number of instructions numbered.
- A new node gets its label index as both its `Number` and its `LabelNumber`.
- `Cfg::makeNode` passes the current length of the node table as the label index and appends the node to the table.
- `appendInst` always appends to the non-phi list and adds one to the estimate. It never adds a phi.
- `computePredecessors` appends this node to the in-edges of each successor, once per out-edge.
- The name of an unnamed block is a function of its label number, given as a parameter of `Cfg`.

## Model

| member | source | states |
|---|---|---|
| IceDefs.WrapSizeT | src/IceGlobalInits.h:189 | Converting a count to SizeT keeps it modulo 2^32, and leaves it unchanged when it fits |
| IceDefs.TruncateToInt8 | src/IceGlobalInits.h:201 | The int8_t cast agrees with the value modulo 256, and leaves values below 128 unchanged |
| GlobalInits.Initializer.NumBytes | src/IceGlobalInits.h:189 | An initializer's byte count is its image length modulo 2^32. A data initializer has exactly its content length when that fits. A zero initializer has exactly the Size it was created with (line 223). A relocation has exactly RelocAddrSize, whatever its offset or declaration (line 252) |
| GlobalInits.VariableDeclaration.GetNumBytes | src/IceGlobalInits.h:291-297 | The loop returns the in-order sum of the initializers' byte counts in a 32-bit counter. This equals the wrapped length of the variable's whole byte image, and the exact length when that fits in 32 bits |
| GlobalInits.SumNumBytesMatchesLayout | src/IceGlobalInits.h:291-297 | The sum of the per-initializer counts equals the image length modulo 2^32, and equals it exactly when the image is shorter than 2^32 |
| GlobalInits.SumNumBytesConcat | src/IceGlobalInits.h:291-297 | The byte count of two initializer lists placed one after the other is the sum of their counts |
| GlobalInits.WrapSizeTAdd | src/IceGlobalInits.h:294 | Wrapping the running count before each addition gives the same 32-bit total as wrapping once at the end |
| GlobalInits.DataInitializerFromRecord | src/IceGlobalInits.h:198-202 | A data initializer built from record values has one byte per value, and byte I is value I truncated to int8 |
| GlobalInits.DataInitializerFromString | src/IceGlobalInits.h:204-208 | A data initializer built from (Str, StrLen) holds exactly the first StrLen characters of Str, and its image is those bytes |
| GlobalInits.VariableDeclaration.AddInitializer | src/IceGlobalInits.h:301-304 | Appends exactly one initializer at the end, keeps the earlier ones and sets hasInitializer. The byte count grows by the new initializer's count and the image grows by its image. Mangling suppression then depends only on the force flag |
| GlobalInits.VariableDeclaration.constructor | src/IceGlobalInits.h:339-343 | A new variable has internal linkage, an empty initializer list, no initializer, alignment 0, is not constant and has no forced suppression |
| GlobalInits.VariableDeclaration.HasNonzeroInitializer | src/IceGlobalInits.h:284-287 | False exactly when the list is a single ZeroInitializer. In that case every byte of the image is zero. An empty list counts as nonzero |
| GlobalInits.VariableDeclaration.SuppressMangling | src/IceGlobalInits.h:318-322 | A variable keeps its name when suppression is forced. Otherwise it keeps its name exactly when it is external and has no initializer. While the list is present, that means exactly when the list is empty |
| GlobalInits.VariableDeclaration.SetSuppressMangling | src/IceGlobalInits.h:324 | Sets the force flag, after which suppression holds. No method clears the flag |
| GlobalInits.VariableDeclaration.DiscardInitializers | src/IceGlobalInits.h:326 | Drops the list. Has no precondition. The mangling decision is unchanged and the class invariant holds afterwards |
| GlobalInits.VariableDeclaration.SetIsConstant | src/IceGlobalInits.h:280 | Sets IsConstant and changes no other field |
| GlobalInits.VariableDeclaration.SetAlignment | src/IceGlobalInits.h:282 | Sets Alignment and changes no other field |
| GlobalInits.VariableDeclaration.SetName | src/IceGlobalInits.h:55 | Sets the name and changes no other field |
| GlobalInits.VariableDeclaration.SetLinkage | src/IceGlobalInits.h:64-66 | Sets the linkage and changes no other field |
| GlobalInits.FunctionDeclaration.SetName | src/IceGlobalInits.h:55 | Sets the name and changes no other field |
| GlobalInits.FunctionDeclaration.SetLinkage | src/IceGlobalInits.h:64-66 | Sets the linkage and changes no other field |
| GlobalInits.FunctionDeclaration.constructor | src/IceGlobalInits.h:132-136 | A function declaration keeps the signature, calling convention, linkage and prototype flag it was created with |
| GlobalInits.FunctionDeclaration.SuppressMangling | src/IceGlobalInits.h:125 | A function keeps its name exactly when it is an external prototype. A defined or internal function is always mangled |
| GlobalInits.GlobalDeclarationRef.SuppressMangling | src/IceGlobalInits.h:81-85 | For either kind, suppression holds exactly when it is forced, or when the declaration is external and not defined locally |
| GlobalInits.GlobalDeclarationRef.MangleName | src/IceGlobalInits.h:86-88 | The emitted name is the plain name when mangling is suppressed, and the mangler's result otherwise. An internal declaration without forced suppression is always mangled |
| GlobalInits.GlobalDeclarationRef.HasName | src/IceGlobalInits.h:56 | hasName holds exactly when the name is non-empty |
| GlobalInits.GlobalDeclarationRef.IsExternal | src/IceGlobalInits.h:57-63 | A declaration is never both internal and external |
| GlobalInits.LinkageType.IsExternal | src/IceGlobalInits.h:57-63 | The external and internal linkage tests never both hold |
| CfgNodes.CfgNode.constructor | src/IceCfgNode.h:114-128 | A new block has its number and label number equal to the label index. It is unnamed, has loop depth 0, has no flags set, has estimate 0 and has empty edge and instruction lists |
| CfgNodes.CfgNode.ResetIndex | src/IceCfgNode.h:37 | Changes Number only. LabelNumber is a constant |
| CfgNodes.CfgNode.GetName | src/IceCfgNode.h:38 | A named block's name is its entry in the function's name table. An unnamed block gets the function's name for its label number |
| CfgNodes.CfgNode.SetName | src/IceCfgNode.h:39-44 | Allowed only on an unnamed block. A non-empty name is appended as exactly one new entry of the name table, at the index equal to the old table length, and becomes the block's name. An empty name leaves the table unchanged and the block unnamed |
| CfgNodes.AsmLabelParts | src/IceCfgNode.h:45-47 | The assembly label is ".L", the function name, "$" and the block name, each at a fixed position |
| CfgNodes.AsmLabelInjective | src/IceCfgNode.h:45-47 | Within one function, different block names give different assembly labels |
| CfgNodes.CfgNode.GetAsmName | src/IceCfgNode.h:45-47 | The label starts with ".L" and ends with the block's name |
| CfgNodes.CfgNode.IncrementLoopNestDepth | src/IceCfgNode.h:49 | Raises the depth by exactly one when no 32-bit overflow occurs, and wraps otherwise. No other field changes |
| CfgNodes.CfgNode.SetLoopNestDepth | src/IceCfgNode.h:50-51 | The depth becomes the given value and no other field changes |
| CfgNodes.CfgNode.SetHasReturn | src/IceCfgNode.h:53-56 | HasReturn becomes true. No method clears it |
| CfgNodes.CfgNode.SetNeedsPlacement | src/IceCfgNode.h:58-59 | NeedsPlacement becomes the given value and no other field changes |
| CfgNodes.CfgNode.SetNeedsAlignment | src/IceCfgNode.h:61-62 | NeedsAlignment becomes true. No method clears it |
| CfgNodes.CfgNode.AppendInst | src/IceCfgNode.h:74-79 | Appends one instruction at the end and raises the estimate by one |
| CfgNodes.CfgNode.RenumberInstructions | src/IceCfgNode.h:75-80 | Numbers the phis and then the other instructions consecutively from the function's next instruction number, keeping the instructions and their order. The estimate becomes the exact instruction count |
| CfgNodes.RenumberedProperties | src/IceCfgNode.h:75 | Renumbering keeps each instruction and its position and gives strictly increasing numbers. Numbering two lists in turn numbers their concatenation |
| CfgNodes.CfgNode.ComputePredecessors | src/IceCfgNode.h:86-88 | Each successor gains this node in its in-edges once per out-edge to it. Afterwards this node is among every successor's in-edges. No other field of a successor changes |
| CfgNodes.Cfg.ComputePredecessors | src/IceCfgNode.h:86-88 | Running computePredecessors on every node in order leaves the out-edges alone. It turns the in-edge lists into PredecessorsUpTo of the old ones, and keeps Nodes[Number] == node. No other field of any node changes. If the in-edge lists were empty before, then afterwards p is among q's in-edges exactly when q is among p's out-edges |
| CfgNodes.EdgeListSymmetry | src/IceCfgNode.h:86-88 | On the node objects: after the pass over empty in-edge lists, p is among q's in-edges exactly when q is among p's out-edges |
| CfgNodes.Cfg.ValidDistinct | src/IceCfgNode.h:116 | Since each node sits at the position given by its number, no node appears twice in the table |
| CfgNodes.EdgeSymmetry | src/IceCfgNode.h:86-88 | Once every node has run, q's in-edges hold p once more for every edge p->q |
| CfgNodes.PredecessorIffSuccessor | src/IceCfgNode.h:86-88 | Starting from empty in-edge lists, p ends up a predecessor of q exactly when q is a successor of p |
| CfgNodes.PredecessorsUpToCount | src/IceCfgNode.h:86-88 | After the first i nodes have run, q's in-edges hold p as many times as before, plus once per edge p->q when p is among those i nodes |
| CfgNodes.Cfg.MakeNode | src/IceCfgNode.h:31-33 | A new block's label index is its position in the node table. It is appended there fresh, and Nodes[Number] == node still holds |
| CfgNodes.Cfg.ReorderNodes | src/IceCfgNode.h:116 | Installing a permutation of the nodes and resetting each node's number to its new position restores Nodes[Number] == node. Nothing else in any node changes |
| CfgNodes.PermutationDistinct | src/IceCfgNode.h:116 | A permutation of a node table without repeats has no repeats. This is what lets the numbers be reset one node at a time |
| CfgNodes.Cfg.AddIdentifierName | src/IceCfgNode.h:43 | The name is appended to the table and its index is returned |

## Left out

- `dump`, `dumpType` and the `operator<<` overloads in both headers. They print debug text.
- `GlobalContext::mangleName` is a call into code outside these headers. `MangleName` takes it as a parameter `mangler`.
- Arena allocation in `create` (`Context->allocate`, `Func->allocate`) is modelled as creating a fresh object.
- LLVM types are reduced:
  - linkage is internal, external or other;
  - a calling convention and a type signature are plain numbers;
  - a bitcode record is a sequence of 64-bit values.
- `getKind` and `classof` are the constructor tags of `Initializer` and `GlobalDeclarationRef`.
- Getters that only return a field (`getIndex`, `getLoopNestDepth`, `getHasReturn`, `getInEdges`, `getInitializers`, and so on) are plain field reads.
- The `CfgNode` pipeline methods, whose bodies are not part of this model:
  - `computeSuccessors` and `splitIncomingEdge`;
  - the phi passes (`validatePhis`, `placePhiLoads`, `placePhiStores`, `deletePhis`) and `advancedPhiLowering`;
  - `doAddressOpt`;
  - the liveness methods;
  - `contractIfEmpty` and `doBranchOpt`;
  - `genCode`, `emit`, `emitIAS` and `profileExecutionCount`.
- `doNopInsertion` depends on a random-number source and on target encodings.
- Instructions are reduced to an opaque operation and a number. Deleted instructions, which `renumberInstructions` numbers differently, are not modelled.
- CfgNodes.CfgNode.RenumberInstructions: instruction numbers are unbounded integers. The 32-bit `InstNumberT` overflow is not modelled, because a function would need 2^31 instructions to reach it.
- CfgNodes.CfgNode.constructor: `Number` and `LabelNumber` are unbounded naturals rather than 32-bit `SizeT`, because the node table never holds 2^32 nodes.
- GlobalInits.DataInitializerFromString: `char` is taken to be signed, as it is on Subzero's hosts, so `Str` is a sequence of `int8`.
- CfgNodes.Cfg.ComputePredecessors: it requires every out-edge to lead to a node of the same function. The source assumes this of every graph but does not check it.
- GlobalInits.DataInitializerFromRecord: the source counts the values with a 32-bit `SizeT` loop index. A record of 2^32 or more values would make that loop wrap and never end. The model walks the whole record and does not model that non-termination.
- CfgNodes.CfgNode.SetName: requires the block to be unnamed, following the debug assert at line 41. In a release build the assert is compiled out, and a second `setName` binds the block to a new name. The model does not cover that second call.
- GlobalInits.VariableDeclaration.GetNumBytes: requires the initializer list to be present. After `discardInitializers` the source would dereference a null list here.
- GlobalInits.VariableDeclaration.HasNonzeroInitializer: requires the initializer list to be present. After `discardInitializers` the source would dereference a null list here.
- GlobalInits.VariableDeclaration.AddInitializer: requires the initializer list to be present. After `discardInitializers` the source would dereference a null list here.
