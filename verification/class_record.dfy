/** The records that define a brand-new Objective-C class (`custom_class`): its name literal,
    the read-only data and `objc_class` of the metaclass and of the class, and the class-list
    label the loader scans. */
module ClassRecord {
  import opened Descriptors
  import opened MethodList

  const RO_META: bv32 := 0x01
  const RO_HAS_CXX_STRUCTORS: bv32 := 0x04
  const RO_IS_ARR: bv32 := 0x80
  const RO_HAS_CXX_DTOR_ONLY: bv32 := 0x100

  /** Instance start and size of every metaclass this macro emits. */
  const METACLASS_INSTANCE_SIZE: nat := 40

  /** A `class_ro_t`. `reserved` exists only on 64-bit targets. */
  datatype ClassRo = ClassRo(
    symbol: string,
    flags: bv32,
    instanceStart: nat,
    instanceSize: nat,
    reserved: Option<nat>,
    ivarLayout: Ref,
    name: Ref,
    baseMethodList: MethodListPtr,
    baseProtocols: Ref,
    ivars: Ref,
    weakIvarLayout: Ref,
    baseProperties: Ref)

  /** An `objc_class`: `isa`, `superclass`, the method cache (`buckets`, `mask`, `occupied`) and
      the `bits` pointer to the read-only data. */
  datatype ObjcClass = ObjcClass(
    symbol: string,
    isa: Ref,
    superclass: Ref,
    cacheBuckets: Ref,
    cacheMask: nat,
    cacheOccupied: nat,
    bits: Ref)

  /** Everything one class definition emits. */
  datatype ClassEmission = ClassEmission(
    className: CStringLiteral,
    metaclassRo: ClassRo,
    metaclass: ObjcClass,
    classRo: ClassRo,
    cls: ObjcClass,
    classLabel: Label)

  function ClassNameSymbol(className: string): string { "\U{1}L_OBJC_CLASS_NAME_" + className }
  function MetaclassRoSymbol(className: string): string { "\U{1}l_OBJC_METACLASS_RO_$_" + className }
  function MetaclassSymbol(className: string): string { "OBJC_METACLASS_$_" + className }
  function ClassSymbol(className: string): string { "OBJC_CLASS_$_" + className }
  function ClassRoSymbol(className: string): string { "\U{1}l_OBJC_CLASS_RO_$_" + className }
  function ClassLabelSymbol(className: string): string { "\U{1}L_OBJC_LABEL_CLASS_$" + className }

  function BoolBit(b: bool): bv32 { if b then 1 else 0 }

  /** The flags of the class's read-only data, from the class's two structor requirements. */
  function ClassRoFlags(requiresCxxConstruct: bool, requiresCxxDestruct: bool): (flags: bv32)
    ensures flags & RO_IS_ARR == RO_IS_ARR
    ensures flags & RO_META == 0
    ensures flags & RO_HAS_CXX_STRUCTORS == RO_HAS_CXX_STRUCTORS <==> requiresCxxConstruct || requiresCxxDestruct
    ensures flags & RO_HAS_CXX_DTOR_ONLY == RO_HAS_CXX_DTOR_ONLY <==> !requiresCxxConstruct && requiresCxxDestruct
    ensures flags & !(RO_IS_ARR | RO_HAS_CXX_STRUCTORS | RO_HAS_CXX_DTOR_ONLY) == 0
  {
    RO_IS_ARR
      | (RO_HAS_CXX_STRUCTORS * BoolBit(requiresCxxConstruct || requiresCxxDestruct))
      | (RO_HAS_CXX_DTOR_ONLY * BoolBit(!requiresCxxConstruct && requiresCxxDestruct))
  }

  /** `reserved: 0` under `#[cfg(target_pointer_width = "64")]`. */
  function Reserved(ptr: PointerWidth): Option<nat> {
    if ptr == Bits64 then Some(0) else None
  }

  /** The class definition, or nothing when the class is declared elsewhere (`extern`) or the
      impl block implements a trait (a category is emitted instead). */
  function CustomClass(impl: ClassImpl, forceExtern: bool, ptr: PointerWidth): (r: Option<ClassEmission>)
    requires WellFormedImpl(impl)
    ensures r.Some? <==> !forceExtern && impl.traitPath.None?
    ensures r.Some? ==> r.value.classRo.baseMethodList == MethodListOf(impl, None, true, ptr)
                        && r.value.metaclassRo.baseMethodList == MethodListOf(impl, None, false, ptr)
  {
    if forceExtern || impl.traitPath.Some? then None
    else
      var instanceMethods := MethodListOf(impl, None, true, ptr);
      var classMethods := MethodListOf(impl, None, false, ptr);
      var cls := impl.className;
      var consts := impl.consts;
      var classNameLiteral := CStringLiteral(ClassNameSymbol(cls), cls + "\0");
      var metaclassRo := ClassRo(
        MetaclassRoSymbol(cls), RO_IS_ARR | RO_META,
        METACLASS_INSTANCE_SIZE, METACLASS_INSTANCE_SIZE, Reserved(ptr),
        Null, Symbol(classNameLiteral.symbol), classMethods, Null, Null, Null, Null);
      var metaclass := ObjcClass(
        MetaclassSymbol(cls), RootMetaclassOf(cls), SuperMetaclassOf(cls),
        EmptyCache, 0, 0, Symbol(metaclassRo.symbol));
      var classRo := ClassRo(
        ClassRoSymbol(cls), ClassRoFlags(consts.requiresCxxConstruct, consts.requiresCxxDestruct),
        consts.instanceStart % U32_MODULUS, consts.instanceSize % U32_MODULUS, Reserved(ptr),
        Null, Symbol(classNameLiteral.symbol), instanceMethods, Null,
        if consts.hasIvars then IvarListOf(cls) else Null,
        Null, Null);
      var classObject := ObjcClass(
        ClassSymbol(cls), Symbol(metaclass.symbol),
        if consts.isRootClass then Null else SuperClassOf(cls),
        EmptyCache, 0, 0, Symbol(classRo.symbol));
      Some(ClassEmission(
        classNameLiteral, metaclassRo, metaclass, classRo, classObject,
        Label(ClassLabelSymbol(cls), Symbol(classObject.symbol))))
  }

  /** The metaclass: flagged as a metaclass, 40 bytes, carrying the class methods and no ivars,
      ivar layouts, protocols or properties, with an empty cache, whose `isa` is the root
      metaclass and whose superclass is the superclass's metaclass. */
  lemma MetaclassShape(impl: ClassImpl, forceExtern: bool, ptr: PointerWidth)
    requires WellFormedImpl(impl)
    requires CustomClass(impl, forceExtern, ptr).Some?
    ensures var e := CustomClass(impl, forceExtern, ptr).value;
            && e.metaclassRo.flags & RO_META == RO_META
            && e.metaclassRo.flags & RO_IS_ARR == RO_IS_ARR
            && e.metaclassRo.flags & (RO_HAS_CXX_STRUCTORS | RO_HAS_CXX_DTOR_ONLY) == 0
            && e.metaclassRo.instanceStart == e.metaclassRo.instanceSize == 40
            && e.metaclassRo.baseMethodList == MethodListOf(impl, None, false, ptr)
            && e.metaclassRo.ivars == Null
            && e.metaclassRo.ivarLayout == Null && e.metaclassRo.baseProtocols == Null
            && e.metaclassRo.weakIvarLayout == Null && e.metaclassRo.baseProperties == Null
            && e.metaclass.cacheBuckets == EmptyCache && e.metaclass.cacheMask == 0 && e.metaclass.cacheOccupied == 0
            && e.metaclass.isa == RootMetaclassOf(impl.className)
            && e.metaclass.superclass == SuperMetaclassOf(impl.className)
            && e.metaclass.bits == Symbol(e.metaclassRo.symbol)
  {
  }

  /** The class: its `isa` is its own metaclass, its superclass is null exactly for a root class,
      its ivar list is null exactly when it has no ivars, it carries the instance methods and the
      structor flags, its instance start and size are the class's constants truncated to `u32`,
      its layouts, protocols and properties are null and its cache is empty. */
  lemma ClassShape(impl: ClassImpl, forceExtern: bool, ptr: PointerWidth)
    requires WellFormedImpl(impl)
    requires CustomClass(impl, forceExtern, ptr).Some?
    ensures var e := CustomClass(impl, forceExtern, ptr).value;
            && e.cls.isa == Symbol(e.metaclass.symbol)
            && (e.cls.superclass == Null <==> impl.consts.isRootClass)
            && (!impl.consts.isRootClass ==> e.cls.superclass == SuperClassOf(impl.className))
            && (e.classRo.ivars == Null <==> !impl.consts.hasIvars)
            && (impl.consts.hasIvars ==> e.classRo.ivars == IvarListOf(impl.className))
            && e.classRo.baseMethodList == MethodListOf(impl, None, true, ptr)
            && e.classRo.instanceStart == impl.consts.instanceStart % U32_MODULUS
            && e.classRo.instanceSize == impl.consts.instanceSize % U32_MODULUS
            && e.classRo.flags == ClassRoFlags(impl.consts.requiresCxxConstruct, impl.consts.requiresCxxDestruct)
            && e.classRo.ivarLayout == Null && e.classRo.baseProtocols == Null
            && e.classRo.weakIvarLayout == Null && e.classRo.baseProperties == Null
            && e.cls.cacheBuckets == EmptyCache && e.cls.cacheMask == 0 && e.cls.cacheOccupied == 0
            && e.cls.bits == Symbol(e.classRo.symbol)
            && e.classLabel.target == Symbol(e.cls.symbol)
  {
  }

  /** Both read-only records name the class through the one NUL-terminated name literal, and
      both carry `reserved` exactly on 64-bit targets. */
  lemma NameAndReserved(impl: ClassImpl, forceExtern: bool, ptr: PointerWidth)
    requires WellFormedImpl(impl)
    requires CustomClass(impl, forceExtern, ptr).Some?
    ensures var e := CustomClass(impl, forceExtern, ptr).value;
            && e.className.value == impl.className + "\0"
            && e.metaclassRo.name == e.classRo.name == Symbol(ClassNameSymbol(impl.className))
            && (e.metaclassRo.reserved.Some? <==> ptr == Bits64)
            && (e.classRo.reserved.Some? <==> ptr == Bits64)
  {
  }

  /** The six symbols a class definition exports are pairwise distinct. */
  lemma ClassSymbolsDistinct(cls: string)
    ensures var names := [ClassNameSymbol(cls), MetaclassRoSymbol(cls), MetaclassSymbol(cls),
                          ClassSymbol(cls), ClassRoSymbol(cls), ClassLabelSymbol(cls)];
            forall i, j :: 0 <= i < j < |names| ==> names[i] != names[j]
  {
    var names := [ClassNameSymbol(cls), MetaclassRoSymbol(cls), MetaclassSymbol(cls),
                  ClassSymbol(cls), ClassRoSymbol(cls), ClassLabelSymbol(cls)];
    // Position 0 separates the runtime-visible names from the private `\x01` ones, position 1
    // separates `L` from `l`, and positions 5 and 8 separate the rest.
    assert names[0][1] == names[5][1] == 'L' && names[1][1] == names[4][1] == 'l';
    assert names[2][0] == names[3][0] == 'O';
    assert names[0][8] == 'C' && names[5][8] == 'L';
    assert names[1][8] == 'M' && names[4][8] == 'C';
    assert names[2][5] == 'M' && names[3][5] == 'C';
  }

  /** Distinct classes export their `objc_class` under distinct names. */
  lemma ClassSymbolInjective(c1: string, c2: string)
    requires ClassSymbol(c1) == ClassSymbol(c2)
    ensures c1 == c2
  {
    assert c1 == ClassSymbol(c1)[13..];
    assert c2 == ClassSymbol(c2)[13..];
  }

  /** A root class that needs only a destructor, with one instance method and no class methods:
      the class's flags are `RO_IS_ARR | RO_HAS_CXX_STRUCTORS | RO_HAS_CXX_DTOR_ONLY`, its list
      counts the method and the `.cxx_destruct` hook, and the metaclass's list is null. */
  lemma DestructorOnlyRootClassExample(m: ObjrsMethod, ptr: PointerWidth)
    requires m.msgRecv.Some? && WellFormedMethod(m)
    ensures var impl := ClassImpl("Foo", None, [], [m], ClassConsts(false, true, false, true, 8, 8));
            var e := CustomClass(impl, false, ptr).value;
            && e.classRo.flags == 0x184
            && e.cls.superclass == Null
            && e.classRo.baseMethodList.ListAt?
            && e.classRo.baseMethodList.list.count == 2
            && e.classRo.baseMethodList.list.cxxDestruct == [DestructHookEntry("Foo")]
            && e.classRo.baseMethodList.list.cxxConstruct == []
            && e.metaclassRo.baseMethodList == NullList
  {
    var impl := ClassImpl("Foo", None, [], [m], ClassConsts(false, true, false, true, 8, 8));
    assert [m][..0] == [];
    assert Entries("Foo", [m], ptr) == [EntryFor("Foo", m, ptr)];
  }

  /** A class that needs a destructor but has no receiving instance method is flagged as having
      C++ structors, yet its instance method list is null: the emptiness test of the list comes
      before the hooks, so no `.cxx_destruct` entry is registered for it. */
  lemma DestructorWithoutMethodsHasNoHook(impl: ClassImpl, ptr: PointerWidth)
    requires WellFormedImpl(impl) && impl.traitPath.None?
    requires impl.consts.requiresCxxDestruct
    requires forall m :: m in impl.instanceMethods ==> m.msgRecv.None?
    ensures var e := CustomClass(impl, false, ptr).value;
            && e.classRo.flags & RO_HAS_CXX_STRUCTORS == RO_HAS_CXX_STRUCTORS
            && e.classRo.baseMethodList == NullList
  {
    NullIffNoReceivingMethod(impl, None, true, ptr);
  }
}
