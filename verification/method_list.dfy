/** The counted method table of a class or category (`method_list`): one entry per method with
    a receive-side implementation, plus the `.cxx_destruct` / `.cxx_construct` hooks of a
    class's own instance list. */
module MethodList {
  import opened Ascii
  import opened Descriptors
  import opened MethodType

  const U32_MODULUS: nat := 0x1_0000_0000

  /** What an entry's `imp` points at: the receiving function, or one of the `Class` hooks. */
  datatype Imp = Implementation(ident: string) | CxxDestructHook | CxxConstructHook

  /** One `method_t`: the selector-name literal, the type-string literal with its exported
      symbol, and the implementation. */
  datatype MethodEntry = MethodEntry(name: CStringLiteral, types: seq<byte>, typesSymbol: string, imp: Imp)

  /** The `MethodList` static: `entsize_and_flags`, `count` (both `u32`), the explicit entries
      and the zero or one entry of each hook array. */
  datatype MethodListRecord = MethodListRecord(
    symbol: string,
    entsizeAndFlags: nat,
    count: nat,
    methods: seq<MethodEntry>,
    cxxDestruct: seq<MethodEntry>,
    cxxConstruct: seq<MethodEntry>)

  /** The `*mut method_list_t` a record stores: null, or the address of the list. */
  datatype MethodListPtr = NullList | ListAt(list: MethodListRecord)

  /** `size_of::<method_t>()`: three pointers (name, types, imp). */
  function MethodEntrySize(ptr: PointerWidth): nat {
    3 * ptr.Size()
  }

  function MethVarNameSymbol(className: string, ident: string): string {
    "\U{1}L_OBJC_METH_VAR_NAME_.__objrs_meth." + className + "::" + ident
  }

  function MethVarTypeSymbol(className: string, ident: string): string {
    "\U{1}L_OBJC_METH_VAR_TYPE_.__objrs_meth." + className + "::" + ident
  }

  /** `\x01l_OBJC_$_[CATEGORY_](INSTANCE|CLASS)_METHODS_<class>[_$_<category>]`. */
  function ListSymbol(className: string, category: Option<string>, instanceMethods: bool): string {
    "\U{1}l_OBJC_$_"
      + (if category.Some? then "CATEGORY_" else "")
      + (if instanceMethods then "INSTANCE_METHODS" else "CLASS_METHODS")
      + "_" + className
      + (if category.Some? then "_$_" + category.value else "")
  }

  /** The methods that have a receive-side implementation, in order. */
  function Receiving(ms: seq<ObjrsMethod>): (r: seq<ObjrsMethod>)
    ensures |r| <= |ms|
    ensures forall m :: m in r <==> m in ms && m.msgRecv.Some?
    decreases |ms|
  {
    if ms == [] then []
    else
      var last := ms[|ms| - 1];
      var init := ms[..|ms| - 1];
      assert ms == init + [last];
      Receiving(init) + (if last.msgRecv.Some? then [last] else [])
  }

  /** The entry of one receiving method. */
  function EntryFor(className: string, m: ObjrsMethod, ptr: PointerWidth): MethodEntry
    requires m.msgRecv.Some? && WellFormedMethod(m)
  {
    var ident := m.msgRecv.value.ident;
    MethodEntry(
      CStringLiteral(MethVarNameSymbol(className, ident), m.selector + "\0"),
      MethodTypeEncoding(m.msgRecv.value.sig, m.isInstanceMethod, ptr),
      MethVarTypeSymbol(className, ident),
      Implementation(ident))
  }

  /** The explicit entries of a list, skipping methods without a receive-side implementation. */
  function Entries(className: string, ms: seq<ObjrsMethod>, ptr: PointerWidth): seq<MethodEntry>
    requires AllWellFormed(ms)
    decreases |ms|
  {
    if ms == [] then []
    else
      var last := ms[|ms| - 1];
      Entries(className, ms[..|ms| - 1], ptr)
        + (if last.msgRecv.Some? then [EntryFor(className, last, ptr)] else [])
  }

  const DESTRUCT_SELECTOR: string := ".cxx_destruct"
  const CONSTRUCT_SELECTOR: string := ".cxx_construct"

  /** The `.cxx_destruct` entry: a void method taking only receiver and selector. */
  function DestructHookEntry(className: string): MethodEntry {
    MethodEntry(
      CStringLiteral(MethVarNameSymbol(className, DESTRUCT_SELECTOR), DESTRUCT_SELECTOR + "\0"),
      AsciiBytes("v16@0:8") + [NUL],
      MethVarTypeSymbol(className, DESTRUCT_SELECTOR),
      CxxDestructHook)
  }

  /** The `.cxx_construct` entry: an object-returning method taking only receiver and selector. */
  function ConstructHookEntry(className: string): MethodEntry {
    MethodEntry(
      CStringLiteral(MethVarNameSymbol(className, CONSTRUCT_SELECTOR), CONSTRUCT_SELECTOR + "\0"),
      AsciiBytes("@16@0:8") + [NUL],
      MethVarTypeSymbol(className, CONSTRUCT_SELECTOR),
      CxxConstructHook)
  }

  /** The method list of a class (`category == None`) or of a category, for its instance or
      class methods. */
  function MethodListOf(impl: ClassImpl, category: Option<string>, instanceMethods: bool, ptr: PointerWidth): (r: MethodListPtr)
    requires WellFormedImpl(impl)
    ensures r.ListAt? ==> && r.list.methods != []
                          && r.list.count < U32_MODULUS
                          && r.list.entsizeAndFlags == 3 * ptr.Size()
                          && r.list.symbol == ListSymbol(impl.className, category, instanceMethods)
    ensures r.ListAt? && !(instanceMethods && category.None?) ==> r.list.cxxDestruct == [] && r.list.cxxConstruct == []
  {
    var methods := if instanceMethods then impl.instanceMethods else impl.classMethods;
    var entries := Entries(impl.className, methods, ptr);
    if entries == [] then NullList
    else
      var hooks := instanceMethods && category.None?;
      var destruct := hooks && impl.consts.requiresCxxDestruct;
      var construct := hooks && impl.consts.requiresCxxConstruct;
      var totalCount := |entries| + (if destruct then 1 else 0) + (if construct then 1 else 0);
      if totalCount == 0 then NullList
      else ListAt(MethodListRecord(
        ListSymbol(impl.className, category, instanceMethods),
        MethodEntrySize(ptr),
        totalCount % U32_MODULUS,
        entries,
        if destruct then [DestructHookEntry(impl.className)] else [],
        if construct then [ConstructHookEntry(impl.className)] else []))
  }

  /** Counts and collects the entries of the receiving methods, in order, as the macro's loop
      does. */
  method CollectEntries(className: string, methods: seq<ObjrsMethod>, ptr: PointerWidth)
    returns (methodEntries: seq<MethodEntry>, count: nat)
    requires AllWellFormed(methods)
    ensures methodEntries == Entries(className, methods, ptr)
    ensures count == |methodEntries|
  {
    methodEntries, count := [], 0;
    for i := 0 to |methods|
      invariant methodEntries == Entries(className, methods[..i], ptr)
      invariant count == |methodEntries|
    {
      assert methods[..i + 1][..i] == methods[..i];
      var m := methods[i];
      if m.msgRecv.None? {
        continue;
      }
      var msgRecv := m.msgRecv.value;
      count := count + 1;
      var methVarName := m.selector + "\0";
      var nameExportName := MethVarNameSymbol(className, msgRecv.ident);
      var methVarType, _ := EncodeMethodType(msgRecv.sig, m.isInstanceMethod, ptr);
      methodEntries := methodEntries + [MethodEntry(
        CStringLiteral(nameExportName, methVarName),
        methVarType,
        MethVarTypeSymbol(className, msgRecv.ident),
        Implementation(msgRecv.ident))];
    }
    assert methods[..|methods|] == methods;
  }

  /** Builds the list as the macro does: counts and collects the receiving methods, then decides
      between the null pointer and the counted list. */
  method BuildMethodList(impl: ClassImpl, category: Option<string>, instanceMethods: bool, ptr: PointerWidth)
    returns (list: MethodListPtr)
    requires WellFormedImpl(impl)
    ensures list == MethodListOf(impl, category, instanceMethods, ptr)
  {
    var methods: seq<ObjrsMethod>;
    var classOrInstance: string;
    if instanceMethods {
      methods, classOrInstance := impl.instanceMethods, "INSTANCE_METHODS";
    } else {
      methods, classOrInstance := impl.classMethods, "CLASS_METHODS";
    }
    var categoryPrefix: string, categorySuffix: string;
    if category.Some? {
      categoryPrefix, categorySuffix := "CATEGORY_", "_$_" + category.value;
    } else {
      categoryPrefix, categorySuffix := "", "";
    }
    var className := impl.className;
    var methodEntries, count := CollectEntries(className, methods, ptr);

    if methodEntries == [] {
      return NullList;
    }

    var requiresCxxDestruct: bool, requiresCxxConstruct: bool;
    if instanceMethods && category.None? {
      requiresCxxDestruct := impl.consts.requiresCxxDestruct;
      requiresCxxConstruct := impl.consts.requiresCxxConstruct;
    } else {
      requiresCxxDestruct, requiresCxxConstruct := false, false;
    }
    var totalCount := count + (if requiresCxxDestruct then 1 else 0) + (if requiresCxxConstruct then 1 else 0);
    var cxxDestruct := if requiresCxxDestruct then [DestructHookEntry(className)] else [];
    var cxxConstruct := if requiresCxxConstruct then [ConstructHookEntry(className)] else [];

    var listExportName := "\U{1}l_OBJC_$_" + categoryPrefix + classOrInstance + "_" + className + categorySuffix;
    assert listExportName == ListSymbol(className, category, instanceMethods);
    var record := MethodListRecord(
      listExportName, MethodEntrySize(ptr), totalCount % U32_MODULUS,
      methodEntries, cxxDestruct, cxxConstruct);
    list := if totalCount == 0 then NullList else ListAt(record);
  }

  /** The explicit entries are exactly the entries of the receiving methods, in order: the
      count grows only for methods with a receive-side implementation. */
  lemma {:induction false} EntriesFollowReceivingMethods(className: string, ms: seq<ObjrsMethod>, ptr: PointerWidth)
    requires AllWellFormed(ms)
    ensures |Entries(className, ms, ptr)| == |Receiving(ms)|
    ensures forall k :: 0 <= k < |Receiving(ms)| ==>
              WellFormedMethod(Receiving(ms)[k])
              && Entries(className, ms, ptr)[k] == EntryFor(className, Receiving(ms)[k], ptr)
    decreases |ms|
  {
    if ms != [] {
      var init := ms[..|ms| - 1];
      assert forall k :: 0 <= k < |init| ==> init[k] == ms[k];
      EntriesFollowReceivingMethods(className, init, ptr);
      assert WellFormedMethod(ms[|ms| - 1]);
    }
  }

  /** A list is null exactly when no method of its kind has a receive-side implementation;
      the hook flags play no part, because the emptiness test comes first. */
  lemma NullIffNoReceivingMethod(impl: ClassImpl, category: Option<string>, instanceMethods: bool, ptr: PointerWidth)
    requires WellFormedImpl(impl)
    ensures var methods := if instanceMethods then impl.instanceMethods else impl.classMethods;
            (MethodListOf(impl, category, instanceMethods, ptr).NullList?
             <==> (forall m :: m in methods ==> m.msgRecv.None?))
  {
    var methods := if instanceMethods then impl.instanceMethods else impl.classMethods;
    NoEntriesIffNoReceivingMethod(impl.className, methods, ptr);
  }

  lemma {:induction false} NoEntriesIffNoReceivingMethod(className: string, ms: seq<ObjrsMethod>, ptr: PointerWidth)
    requires AllWellFormed(ms)
    ensures Entries(className, ms, ptr) == [] <==> forall m :: m in ms ==> m.msgRecv.None?
    decreases |ms|
  {
    if ms != [] {
      var init := ms[..|ms| - 1];
      assert ms == init + [ms[|ms| - 1]];
      NoEntriesIffNoReceivingMethod(className, init, ptr);
    }
  }

  /** The shape of a non-null list: one entry per receiving method, the hooks only in a class's
      own instance list and only when the class requires them, a count (as `u32`) covering
      entries and hooks, and an entry size of three pointers. */
  lemma ListShape(impl: ClassImpl, category: Option<string>, instanceMethods: bool, ptr: PointerWidth)
    requires WellFormedImpl(impl)
    requires MethodListOf(impl, category, instanceMethods, ptr).ListAt?
    ensures var l := MethodListOf(impl, category, instanceMethods, ptr).list;
            var methods := if instanceMethods then impl.instanceMethods else impl.classMethods;
            var hooks := instanceMethods && category.None?;
            && |l.methods| == |Receiving(methods)| > 0
            && (l.cxxDestruct != [] <==> hooks && impl.consts.requiresCxxDestruct)
            && (l.cxxConstruct != [] <==> hooks && impl.consts.requiresCxxConstruct)
            && (l.cxxDestruct != [] ==> l.cxxDestruct == [DestructHookEntry(impl.className)])
            && (l.cxxConstruct != [] ==> l.cxxConstruct == [ConstructHookEntry(impl.className)])
            && l.count == (|l.methods| + |l.cxxDestruct| + |l.cxxConstruct|) % U32_MODULUS
            && l.entsizeAndFlags == 3 * ptr.Size()
            && l.symbol == ListSymbol(impl.className, category, instanceMethods)
  {
    var methods := if instanceMethods then impl.instanceMethods else impl.classMethods;
    EntriesFollowReceivingMethods(impl.className, methods, ptr);
  }

  /** A class that needs both hooks and has receiving instance methods gets a list counting the
      explicit methods plus two, with the fixed hook selectors. */
  lemma BothHooksCounted(impl: ClassImpl, ptr: PointerWidth)
    requires WellFormedImpl(impl)
    requires impl.consts.requiresCxxConstruct && impl.consts.requiresCxxDestruct
    requires exists m :: m in impl.instanceMethods && m.msgRecv.Some?
    requires |impl.instanceMethods| + 2 < U32_MODULUS
    ensures var p := MethodListOf(impl, None, true, ptr);
            && p.ListAt?
            && p.list.count == |Receiving(impl.instanceMethods)| + 2
            && p.list.cxxDestruct[0].name.value == ".cxx_destruct\0"
            && p.list.cxxConstruct[0].name.value == ".cxx_construct\0"
  {
    NullIffNoReceivingMethod(impl, None, true, ptr);
    ListShape(impl, None, true, ptr);
  }

  /** The fixed hook type strings are what the general encoder gives a niladic method on a
      64-bit target: `v16@0:8` for the void destructor, `@16@0:8` for the object-returning
      constructor, whatever the receiver and selector types. */
  lemma HookTypesMatchEncoder(receiver: TypeInfo, selector: TypeInfo, objectSize: nat)
    ensures DestructHookEntry("").types
         == MethodTypeEncoding(Signature([receiver, selector], None), true, Bits64)
    ensures ConstructHookEntry("").types
         == MethodTypeEncoding(Signature([receiver, selector], Some(TypeInfo([AT], objectSize))), true, Bits64)
  {
    DestructHookType(Signature([receiver, selector], None));
    ConstructHookType(Signature([receiver, selector], Some(TypeInfo([AT], objectSize))));
  }

  lemma DestructHookType(sig: Signature)
    requires |sig.inputs| == 2 && sig.output.None?
    ensures DestructHookEntry("").types == MethodTypeEncoding(sig, true, Bits64)
  {
    NiladicEncoding(sig, true, Bits64);
    assert Decimal(16) == [49, 54];
    assert AsciiBytes("v16@0:8") == [LOWER_V, 49, 54, AT, ZERO, COLON, 56];
  }

  lemma ConstructHookType(sig: Signature)
    requires |sig.inputs| == 2 && sig.output.Some? && sig.output.value.encoding == [AT]
    ensures ConstructHookEntry("").types == MethodTypeEncoding(sig, true, Bits64)
  {
    NiladicEncoding(sig, true, Bits64);
    assert Decimal(16) == [49, 54];
    assert AsciiBytes("@16@0:8") == [AT, 49, 54, AT, ZERO, COLON, 56];
  }

  /** On a 32-bit target the hook type strings keep their 64-bit spelling, while the encoder
      would give `v8@0:4`. */
  lemma HookTypesAre64BitSpelling(receiver: TypeInfo, selector: TypeInfo)
    ensures DestructHookEntry("").types
         != MethodTypeEncoding(Signature([receiver, selector], None), true, Bits32)
  {
    assert Decimal(8) == [56];
    var enc := MethodTypeEncoding(Signature([receiver, selector], None), true, Bits32);
    assert enc[1] == 56;
    assert DestructHookEntry("").types[1] == 49;
  }

  /** A class list, its category lists, and instance and class lists never share a symbol. */
  lemma ListSymbolsDistinct(c1: string, cat1: Option<string>, inst1: bool, c2: string, cat2: Option<string>, inst2: bool)
    requires cat1.Some? != cat2.Some? || inst1 != inst2
    ensures ListSymbol(c1, cat1, inst1) != ListSymbol(c2, cat2, inst2)
  {
    var s1 := ListSymbol(c1, cat1, inst1);
    var s2 := ListSymbol(c2, cat2, inst2);
    if cat1.Some? != cat2.Some? {
      assert s1[11] != s2[11];
    } else if cat1.Some? {
      assert s1[19] != s2[19];
    } else {
      assert s1[10] != s2[10];
    }
  }
}
