/**
  The DeclarePushConstants module pass: it selects which push constants a
  module needs, in canonical order, and declares them as one zero-initialised
  struct global in the push-constant address space, with a metadata node
  listing the kind code of each field in field order.
 */
module DeclarePushConstants {
  import opened Wrappers
  import opened PushConstants
  import opened IR

  /** The two yes/no answers the selection depends on besides the module's
      symbols: the process-wide non-uniform NDRange option, and the answer of
      the global-offset predicate for this module. */
  datatype Gates = Gates(nonUniformNDRangeSupported: bool, shouldDeclareGlobalOffset: bool)

  /** What the pass asks of code outside this unit when it emits: the type
      of each kind, the integer code of each kind, the variable's name, the
      metadata kind name and the push-constant address space. */
  datatype Collaborators<Ty> = Collaborators(
    pushConstantType: PushConstant -> Ty,
    code: PushConstant -> int,
    variableName: string,
    metadataName: string,
    pushConstantAddressSpace: nat)

  // Usage detection: one predicate per optional kind, each gated by the same
  // option and by the presence of one builtin's mangled name.

  predicate ShouldDeclareEnqueuedLocalSize(functions: set<string>, nonUniformNDRangeSupported: bool) {
    var isEnabled := nonUniformNDRangeSupported;
    var isUsed := "_Z23get_enqueued_local_sizej" in functions;
    isEnabled && isUsed
  }

  predicate ShouldDeclareGlobalSize(functions: set<string>, nonUniformNDRangeSupported: bool) {
    var isEnabled := nonUniformNDRangeSupported;
    var isUsed := "_Z15get_global_sizej" in functions;
    isEnabled && isUsed
  }

  predicate ShouldDeclareRegionOffset(functions: set<string>, nonUniformNDRangeSupported: bool) {
    var isEnabled := nonUniformNDRangeSupported;
    var isUsed := "_Z13get_global_idj" in functions;
    isEnabled && isUsed
  }

  predicate ShouldDeclareNumWorkgroups(functions: set<string>, nonUniformNDRangeSupported: bool) {
    var isEnabled := nonUniformNDRangeSupported;
    var isUsed := "_Z14get_num_groupsj" in functions;
    isEnabled && isUsed
  }

  predicate ShouldDeclareRegionGroupOffset(functions: set<string>, nonUniformNDRangeSupported: bool) {
    var isEnabled := nonUniformNDRangeSupported;
    var isUsed := "_Z12get_group_idj" in functions;
    isEnabled && isUsed
  }

  /** The test the pass applies to kind `k`. */
  predicate ShouldDeclare(k: PushConstant, functions: set<string>, g: Gates) {
    match k
    case GlobalOffset => g.shouldDeclareGlobalOffset
    case EnqueuedLocalSize => ShouldDeclareEnqueuedLocalSize(functions, g.nonUniformNDRangeSupported)
    case GlobalSize => ShouldDeclareGlobalSize(functions, g.nonUniformNDRangeSupported)
    case RegionOffset => ShouldDeclareRegionOffset(functions, g.nonUniformNDRangeSupported)
    case NumWorkgroups => ShouldDeclareNumWorkgroups(functions, g.nonUniformNDRangeSupported)
    case RegionGroupOffset => ShouldDeclareRegionGroupOffset(functions, g.nonUniformNDRangeSupported)
  }

  /** The test of ShouldDeclare as a function of the kind. */
  function Wanted(functions: set<string>, g: Gates): PushConstant -> bool {
    k => ShouldDeclare(k, functions, g)
  }

  /** The kinds of `kinds` that pass the test `wanted`, in the order of `kinds`. */
  function SelectFrom(kinds: seq<PushConstant>, wanted: PushConstant -> bool): (r: seq<PushConstant>)
    ensures |r| <= |kinds|
  {
    if kinds == [] then []
    else
      var rest := SelectFrom(kinds[1..], wanted);
      if wanted(kinds[0]) then [kinds[0]] + rest else rest
  }

  /** The kind alone if it passes the test, else nothing. */
  function Part(k: PushConstant, wanted: PushConstant -> bool): seq<PushConstant> {
    if wanted(k) then [k] else []
  }

  lemma Unfold(k: PushConstant, kinds: seq<PushConstant>, wanted: PushConstant -> bool)
    ensures SelectFrom([k] + kinds, wanted) == Part(k, wanted) + SelectFrom(kinds, wanted)
  {
    assert ([k] + kinds)[1..] == kinds;
  }

  lemma Reassociate(a: seq<PushConstant>, b: seq<PushConstant>, c: seq<PushConstant>,
                    d: seq<PushConstant>, e: seq<PushConstant>, f: seq<PushConstant>)
    ensures a + (b + (c + (d + (e + f)))) == a + b + c + d + e + f
  {
  }

  /** Filtering the canonical order is testing the six kinds one after the other. */
  lemma CanonicalSelectionUnfolded(wanted: PushConstant -> bool)
    ensures SelectFrom(CanonicalOrder, wanted)
         == Part(GlobalOffset, wanted) + Part(EnqueuedLocalSize, wanted) + Part(GlobalSize, wanted)
          + Part(RegionOffset, wanted) + Part(NumWorkgroups, wanted) + Part(RegionGroupOffset, wanted)
  {
    var w := wanted;
    var t1 := [RegionGroupOffset];
    var t2 := [NumWorkgroups] + t1;
    var t3 := [RegionOffset] + t2;
    var t4 := [GlobalSize] + t3;
    var t5 := [EnqueuedLocalSize] + t4;
    Unfold(RegionGroupOffset, [], w);
    assert [RegionGroupOffset] + [] == t1;
    assert SelectFrom(t1, w) == Part(RegionGroupOffset, w);
    Unfold(NumWorkgroups, t1, w);
    Unfold(RegionOffset, t2, w);
    Unfold(GlobalSize, t3, w);
    Unfold(EnqueuedLocalSize, t4, w);
    Unfold(GlobalOffset, t5, w);
    assert CanonicalOrder == [GlobalOffset] + t5;
    Reassociate(Part(GlobalOffset, w), Part(EnqueuedLocalSize, w), Part(GlobalSize, w),
                Part(RegionOffset, w), Part(NumWorkgroups, w), Part(RegionGroupOffset, w));
  }

  /** The push constants the pass declares for a module with these function
      symbols: the kinds of the canonical order that pass their test. */
  function Selection(functions: set<string>, g: Gates): seq<PushConstant> {
    SelectFrom(CanonicalOrder, Wanted(functions, g))
  }

  /** The selection step of the pass: test the six kinds in turn and append
      each one that is needed. */
  method SelectPushConstants(functions: set<string>, g: Gates) returns (pushConstants: seq<PushConstant>)
    ensures pushConstants == Selection(functions, g)
  {
    ghost var wanted := Wanted(functions, g);
    pushConstants := [];
    if g.shouldDeclareGlobalOffset {
      pushConstants := pushConstants + [GlobalOffset];
    }
    assert pushConstants == Part(GlobalOffset, wanted);
    if ShouldDeclareEnqueuedLocalSize(functions, g.nonUniformNDRangeSupported) {
      pushConstants := pushConstants + [EnqueuedLocalSize];
    }
    assert pushConstants == Part(GlobalOffset, wanted) + Part(EnqueuedLocalSize, wanted);
    if ShouldDeclareGlobalSize(functions, g.nonUniformNDRangeSupported) {
      pushConstants := pushConstants + [GlobalSize];
    }
    assert pushConstants == Part(GlobalOffset, wanted) + Part(EnqueuedLocalSize, wanted) + Part(GlobalSize, wanted);
    if ShouldDeclareRegionOffset(functions, g.nonUniformNDRangeSupported) {
      pushConstants := pushConstants + [RegionOffset];
    }
    assert pushConstants == Part(GlobalOffset, wanted) + Part(EnqueuedLocalSize, wanted) + Part(GlobalSize, wanted) + Part(RegionOffset, wanted);
    if ShouldDeclareNumWorkgroups(functions, g.nonUniformNDRangeSupported) {
      pushConstants := pushConstants + [NumWorkgroups];
    }
    assert pushConstants == Part(GlobalOffset, wanted) + Part(EnqueuedLocalSize, wanted) + Part(GlobalSize, wanted) + Part(RegionOffset, wanted) + Part(NumWorkgroups, wanted);
    if ShouldDeclareRegionGroupOffset(functions, g.nonUniformNDRangeSupported) {
      pushConstants := pushConstants + [RegionGroupOffset];
    }
    assert pushConstants == Part(GlobalOffset, wanted) + Part(EnqueuedLocalSize, wanted) + Part(GlobalSize, wanted) + Part(RegionOffset, wanted) + Part(NumWorkgroups, wanted) + Part(RegionGroupOffset, wanted);
    CanonicalSelectionUnfolded(wanted);
  }

  /** The struct's member types: the type of each selected kind, in order. */
  method BuildMembers<Ty>(pushConstants: seq<PushConstant>, pushConstantType: PushConstant -> Ty)
    returns (members: seq<Ty>)
    ensures |members| == |pushConstants|
    ensures forall i :: 0 <= i < |pushConstants| ==> members[i] == pushConstantType(pushConstants[i])
  {
    members := [];
    for n := 0 to |pushConstants|
      invariant |members| == n
      invariant forall i :: 0 <= i < n ==> members[i] == pushConstantType(pushConstants[i])
    {
      members := members + [pushConstantType(pushConstants[n])];
    }
  }

  /** The metadata operands: the code of each selected kind, in order. */
  method BuildMetadata(pushConstants: seq<PushConstant>, code: PushConstant -> int)
    returns (mdArgs: seq<int>)
    ensures |mdArgs| == |pushConstants|
    ensures forall i :: 0 <= i < |pushConstants| ==> mdArgs[i] == code(pushConstants[i])
  {
    mdArgs := [];
    for n := 0 to |pushConstants|
      invariant |mdArgs| == n
      invariant forall i :: 0 <= i < n ==> mdArgs[i] == code(pushConstants[i])
    {
      mdArgs := mdArgs + [code(pushConstants[n])];
    }
  }

  /** `gv` is the push-constant global for selection `sel`: one field per
      selected kind, of that kind's type; zero-initialised; mutable; fixed
      name and address space; and one metadata node whose operands are the
      kind codes in field order. */
  ghost predicate DeclaresPushConstants<Ty>(gv: GlobalVariable<Ty>, sel: seq<PushConstant>, c: Collaborators<Ty>)
    reads gv
  {
    && |gv.valueType.members| == |sel|
    && (forall i :: 0 <= i < |sel| ==> gv.valueType.members[i] == c.pushConstantType(sel[i]))
    && gv.initializer == NullValue
    && !gv.isConstant
    && gv.name == c.variableName
    && gv.addressSpace == c.pushConstantAddressSpace
    && gv.metadata.Keys == {c.metadataName}
    && |gv.metadata[c.metadataName]| == |sel|
    && (forall i :: 0 <= i < |sel| ==> gv.metadata[c.metadataName][i] == c.code(sel[i]))
  }

  /** The pass. It reports a change exactly when something was selected; it
      then appends one global declaring the selection and leaves the
      existing globals and the function symbols as they were. */
  method RunOnModule<Ty>(m: Module<Ty>, g: Gates, c: Collaborators<Ty>) returns (changed: bool)
    modifies m
    ensures m.functions == old(m.functions)
    ensures changed <==> Selection(old(m.functions), g) != []
    ensures !changed ==> m.globals == old(m.globals)
    ensures changed ==>
      && |m.globals| == |old(m.globals)| + 1
      && m.globals[..|old(m.globals)|] == old(m.globals)
      && fresh(m.globals[|old(m.globals)|])
      && DeclaresPushConstants(m.globals[|old(m.globals)|], Selection(old(m.functions), g), c)
  {
    changed := false;
    var pushConstants := SelectPushConstants(m.functions, g);
    if |pushConstants| > 0 {
      changed := true;
      var members := BuildMembers(pushConstants, c.pushConstantType);
      var sTy := StructType(members);
      var gv := new GlobalVariable(m, sTy, false, c.variableName, c.pushConstantAddressSpace);
      gv.SetInitializer(NullValue);
      var mdArgs := BuildMetadata(pushConstants, c.code);
      gv.SetMetadata(c.metadataName, mdArgs);
    }
  }

  // Properties of the selection.

  lemma {:induction false} SelectFromMembership(kinds: seq<PushConstant>, wanted: PushConstant -> bool, k: PushConstant)
    ensures k in SelectFrom(kinds, wanted) <==> k in kinds && wanted(k)
  {
    if kinds != [] {
      SelectFromMembership(kinds[1..], wanted, k);
      assert k in kinds <==> k == kinds[0] || k in kinds[1..];
    }
  }

  lemma {:induction false} SelectFromIsSubsequence(kinds: seq<PushConstant>, wanted: PushConstant -> bool)
    ensures IsSubsequence(SelectFrom(kinds, wanted), kinds)
  {
    if kinds != [] {
      SelectFromIsSubsequence(kinds[1..], wanted);
      var r := SelectFrom(kinds, wanted);
      if wanted(kinds[0]) {
        assert r[0] == kinds[0] && r[1..] == SelectFrom(kinds[1..], wanted);
      }
    }
  }

  lemma {:induction false} SelectFromKeepsOrder(kinds: seq<PushConstant>, wanted: PushConstant -> bool)
    requires StrictlyRanked(kinds)
    ensures StrictlyRanked(SelectFrom(kinds, wanted))
  {
    if kinds != [] {
      var rest := SelectFrom(kinds[1..], wanted);
      assert StrictlyRanked(kinds[1..]);
      SelectFromKeepsOrder(kinds[1..], wanted);
      if wanted(kinds[0]) {
        var r := [kinds[0]] + rest;
        forall j | 0 < j < |r|
          ensures Rank(kinds[0]) < Rank(r[j])
        {
          assert r[j] == rest[j - 1];
          SelectFromMembership(kinds[1..], wanted, r[j]);
          var i :| 0 <= i < |kinds[1..]| && kinds[1..][i] == r[j];
          assert kinds[i + 1] == r[j];
        }
        assert forall i, j :: 0 < i < j < |r| ==> r[i] == rest[i - 1] && r[j] == rest[j - 1];
      }
    }
  }

  /** The selection keeps canonical order: it is obtained from the canonical
      order by deleting kinds, so no kind appears twice and there are at most
      six entries. */
  lemma SelectionInCanonicalOrder(functions: set<string>, g: Gates)
    ensures IsSubsequence(Selection(functions, g), CanonicalOrder)
    ensures StrictlyRanked(Selection(functions, g))
    ensures NoDuplicates(Selection(functions, g))
    ensures |Selection(functions, g)| <= |CanonicalOrder| == 6
  {
    var sel := Selection(functions, g);
    SelectFromIsSubsequence(CanonicalOrder, Wanted(functions, g));
    CanonicalOrderIsStrictlyRanked();
    SelectFromKeepsOrder(CanonicalOrder, Wanted(functions, g));
    StrictlyRankedHasNoDuplicates(sel);
  }

  /** A kind is selected exactly when its test passes. */
  lemma SelectionMembership(functions: set<string>, g: Gates, k: PushConstant)
    ensures k in Selection(functions, g) <==> ShouldDeclare(k, functions, g)
  {
    SelectFromMembership(CanonicalOrder, Wanted(functions, g), k);
    assert CanonicalOrder[Rank(k)] == k;
  }

  /** GlobalOffset is selected exactly when the global-offset predicate
      holds, whatever the non-uniform NDRange option says. */
  lemma GlobalOffsetSelectedIff(functions: set<string>, g: Gates)
    ensures GlobalOffset in Selection(functions, g) <==> g.shouldDeclareGlobalOffset
  {
    SelectionMembership(functions, g, GlobalOffset);
  }

  /** Each of the five other kinds is selected exactly when the non-uniform
      NDRange option is on and the module has the function with that kind's
      mangled builtin name. */
  lemma OptionalKindSelectedIff(functions: set<string>, g: Gates)
    ensures EnqueuedLocalSize in Selection(functions, g)
        <==> g.nonUniformNDRangeSupported && "_Z23get_enqueued_local_sizej" in functions
    ensures GlobalSize in Selection(functions, g)
        <==> g.nonUniformNDRangeSupported && "_Z15get_global_sizej" in functions
    ensures RegionOffset in Selection(functions, g)
        <==> g.nonUniformNDRangeSupported && "_Z13get_global_idj" in functions
    ensures NumWorkgroups in Selection(functions, g)
        <==> g.nonUniformNDRangeSupported && "_Z14get_num_groupsj" in functions
    ensures RegionGroupOffset in Selection(functions, g)
        <==> g.nonUniformNDRangeSupported && "_Z12get_group_idj" in functions
  {
    SelectionMembership(functions, g, EnqueuedLocalSize);
    SelectionMembership(functions, g, GlobalSize);
    SelectionMembership(functions, g, RegionOffset);
    SelectionMembership(functions, g, NumWorkgroups);
    SelectionMembership(functions, g, RegionGroupOffset);
  }

  /** The selection is the only list in canonical order holding exactly the
      kinds whose test passes. */
  lemma SelectionIsUnique(functions: set<string>, g: Gates, s: seq<PushConstant>)
    requires StrictlyRanked(s)
    requires forall k :: k in s <==> ShouldDeclare(k, functions, g)
    ensures s == Selection(functions, g)
  {
    SelectionInCanonicalOrder(functions, g);
    forall k
      ensures k in s <==> k in Selection(functions, g)
    {
      SelectionMembership(functions, g, k);
    }
    StrictlyRankedDeterminedByElements(s, Selection(functions, g));
  }

  /** With the non-uniform NDRange option off, only GlobalOffset can be
      selected. */
  lemma WithoutNonUniformNDRange(functions: set<string>, g: Gates)
    requires !g.nonUniformNDRangeSupported
    ensures Selection(functions, g) == if g.shouldDeclareGlobalOffset then [GlobalOffset] else []
  {
    var expected: seq<PushConstant> := if g.shouldDeclareGlobalOffset then [GlobalOffset] else [];
    assert StrictlyRanked(expected);
    forall k
      ensures k in expected <==> ShouldDeclare(k, functions, g)
    {
    }
    SelectionIsUnique(functions, g, expected);
  }

  /** A module declaring several of the builtins, whatever their order in
      the module, gets its fields in canonical order. */
  lemma TwoBuiltinsInCanonicalOrder(functions: set<string>)
    requires functions == {"_Z14get_num_groupsj", "_Z23get_enqueued_local_sizej"}
    ensures Selection(functions, Gates(true, false)) == [EnqueuedLocalSize, NumWorkgroups]
  {
    var g := Gates(true, false);
    var expected := [EnqueuedLocalSize, NumWorkgroups];
    assert StrictlyRanked(expected);
    forall k
      ensures k in expected <==> ShouldDeclare(k, functions, g)
    {
    }
    SelectionIsUnique(functions, g, expected);
  }

  /** With the option on, the global-offset predicate true and all five
      builtins present, every kind is selected, in canonical order. */
  lemma AllKindsSelected(functions: set<string>)
    requires "_Z23get_enqueued_local_sizej" in functions && "_Z15get_global_sizej" in functions
    requires "_Z13get_global_idj" in functions && "_Z14get_num_groupsj" in functions
    requires "_Z12get_group_idj" in functions
    ensures Selection(functions, Gates(true, true)) == CanonicalOrder
  {
    var g := Gates(true, true);
    CanonicalOrderIsStrictlyRanked();
    forall k
      ensures k in CanonicalOrder <==> ShouldDeclare(k, functions, g)
    {
      assert CanonicalOrder[Rank(k)] == k;
    }
    SelectionIsUnique(functions, g, CanonicalOrder);
  }

  // How a later stage reads the metadata back: each operand is the code of
  // exactly one kind.

  /** The enumeration gives distinct kinds distinct codes. */
  ghost predicate CodesDistinct(code: PushConstant -> int) {
    forall a, b :: code(a) == code(b) ==> a == b
  }

  /** The first kind of `kinds` whose code is `n`. */
  function FindKind(kinds: seq<PushConstant>, n: int, code: PushConstant -> int): Option<PushConstant> {
    if kinds == [] then None
    else if code(kinds[0]) == n then Some(kinds[0])
    else FindKind(kinds[1..], n, code)
  }

  /** The kinds named by the metadata operands, or None if some operand is
      the code of no kind. */
  function DecodeMetadata(mdArgs: seq<int>, code: PushConstant -> int): Option<seq<PushConstant>> {
    if mdArgs == [] then Some([])
    else
      match FindKind(CanonicalOrder, mdArgs[0], code)
      case None => None
      case Some(k) =>
        match DecodeMetadata(mdArgs[1..], code)
        case None => None
        case Some(rest) => Some([k] + rest)
  }

  lemma {:induction false} FindKindOfCode(kinds: seq<PushConstant>, k: PushConstant, code: PushConstant -> int)
    requires CodesDistinct(code)
    requires k in kinds
    ensures FindKind(kinds, code(k), code) == Some(k)
  {
    if kinds[0] != k {
      assert k in kinds[1..];
      FindKindOfCode(kinds[1..], k, code);
    }
  }

  /** The metadata operands written for a selection decode to that
      selection. */
  lemma {:induction false} MetadataRoundTrip(sel: seq<PushConstant>, mdArgs: seq<int>, code: PushConstant -> int)
    requires CodesDistinct(code)
    requires |mdArgs| == |sel|
    requires forall i :: 0 <= i < |sel| ==> mdArgs[i] == code(sel[i])
    ensures DecodeMetadata(mdArgs, code) == Some(sel)
  {
    if sel != [] {
      FindKindOfCode(CanonicalOrder, sel[0], code);
      MetadataRoundTrip(sel[1..], mdArgs[1..], code);
      assert [sel[0]] + sel[1..] == sel;
    }
  }

  /** In the global the pass declares, the kind decoded from metadata
      operand i is the kind whose type is field i. */
  lemma FieldsMatchMetadata<Ty>(gv: GlobalVariable<Ty>, sel: seq<PushConstant>, c: Collaborators<Ty>)
    requires CodesDistinct(c.code)
    requires DeclaresPushConstants(gv, sel, c)
    ensures DecodeMetadata(gv.metadata[c.metadataName], c.code) == Some(sel)
    ensures forall i :: 0 <= i < |sel| ==> gv.valueType.members[i] == c.pushConstantType(sel[i])
  {
    MetadataRoundTrip(sel, gv.metadata[c.metadataName], c.code);
  }

}
