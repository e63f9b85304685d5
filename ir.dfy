/**
  The small part of a compilation module that the DeclarePushConstants pass
  reads and changes: the names of the functions it declares or defines, and
  its list of global variables. Types are left abstract (the type parameter
  `Ty`), and a struct type is the list of its member types.
 */
module IR {

  /** A struct type, given by its member types in field order. */
  datatype StructType<Ty> = StructType(members: seq<Ty>)

  /** The initializer of a global: none yet, or the all-zero value of the
      global's type (every member zero). */
  datatype Initializer = NoInitializer | NullValue

  /** A module: its function symbols (looked up by name) and its globals in
      creation order. */
  class Module<Ty> {
    var functions: set<string>
    var globals: seq<GlobalVariable<Ty>>
  }

  /** A module-scope variable. Its type, name, address space and constness
      are fixed when it is created; its initializer and metadata
      attachments are set afterwards. */
  class GlobalVariable<Ty> {
    const valueType: StructType<Ty>
    const isConstant: bool
    const name: string
    const addressSpace: nat
    var initializer: Initializer
    /** Metadata attachments: kind name to the integer operands of the node. */
    var metadata: map<string, seq<int>>

    /** Creating a global inserts it at the end of the module's global list. */
    constructor (m: Module<Ty>, valueType: StructType<Ty>, isConstant: bool, name: string, addressSpace: nat)
      modifies m
      ensures this.valueType == valueType && this.isConstant == isConstant
      ensures this.name == name && this.addressSpace == addressSpace
      ensures initializer == NoInitializer && metadata == map[]
      ensures m.globals == old(m.globals) + [this]
      ensures m.functions == old(m.functions)
    {
      this.valueType := valueType;
      this.isConstant := isConstant;
      this.name := name;
      this.addressSpace := addressSpace;
      initializer := NoInitializer;
      metadata := map[];
      new;
      m.globals := m.globals + [this];
    }

    method SetInitializer(init: Initializer)
      modifies this`initializer
      ensures initializer == init
    {
      initializer := init;
    }

    /** Attaching a node under a kind replaces any node of that kind. */
    method SetMetadata(kind: string, node: seq<int>)
      modifies this`metadata
      ensures metadata == old(metadata)[kind := node]
    {
      metadata := metadata[kind := node];
    }
  }

}
