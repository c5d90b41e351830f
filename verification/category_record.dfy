/** The records that add a trait's methods to an existing class as an Objective-C category
    (`custom_category`): a uniquely named `category_t`, its one-entry protocol list, and the
    category-list label the loader scans. */
module CategoryRecord {
  import opened Descriptors
  import opened MethodList
  import ClassRecord

  /** The protocol list of a category: `count`, the protocol pointers and the terminating null. */
  datatype ProtocolList = ProtocolList(symbol: string, count: nat, protocols: seq<Ref>, terminator: nat)

  /** A `category_t`. */
  datatype Category = Category(
    symbol: string,
    name: Ref,
    cls: Ref,
    instanceMethods: MethodListPtr,
    classMethods: MethodListPtr,
    protocols: ProtocolList,
    instanceProperties: Ref,
    classProperties: Ref,
    size: nat)

  /** Everything one category definition emits: the name literal, the zero-length stand-in
      exported under the protocol's symbol (so that the protocol reference links), the
      category, and its label. */
  datatype CategoryEmission = CategoryEmission(
    categoryName: CStringLiteral,
    protocolStub: string,
    category: Category,
    categoryLabel: Label)

  /** The unique category name, without its NUL: prefix, trait name, `_`, random identifier. */
  function CategoryName(traitName: string, randomId: string): string {
    "__objrs_category_" + traitName + "_" + randomId
  }

  function ProtocolSymbol(traitName: string): string { "\U{1}l_OBJC_PROTOCOL_$_" + traitName }

  function CategoryProtocolsSymbol(className: string, categoryName: string): string {
    "\U{1}l_OBJC_CATEGORY_PROTOCOLS_$_" + className + "_$_" + categoryName
  }

  function CategorySymbol(className: string, categoryName: string): string {
    "\U{1}l_OBJC_$_CATEGORY_" + className + "_$_" + categoryName
  }

  function CategoryLabelSymbol(categoryName: string): string {
    "\U{1}L_OBJC_LABEL_CATEGORY_$" + categoryName
  }

  /** The category definition, or nothing when the impl block is `extern` or implements no
      trait (the class itself is emitted instead). `randomId` is the identifier the macro draws
      for this expansion and `categorySize` is `size_of::<category_t>()`. A trait impl that is
      emitted needs a trait name, which the front end always supplies. */
  function CustomCategory(impl: ClassImpl, traitName: Option<string>, forceExtern: bool,
                          randomId: string, categorySize: nat, ptr: PointerWidth): (r: Option<CategoryEmission>)
    requires WellFormedImpl(impl)
    requires !forceExtern && impl.traitPath.Some? ==> traitName.Some?
    ensures r.Some? <==> !forceExtern && impl.traitPath.Some?
    ensures r.Some? ==> r.value.category.size < U32_MODULUS && r.value.category.protocols.count == 1
  {
    if forceExtern || impl.traitPath.None? then None
    else
      var traitName := traitName.value;
      var categoryName := CategoryName(traitName, randomId);
      var cls := impl.className;
      var instanceMethods := MethodListOf(impl, Some(traitName), true, ptr);
      var classMethods := MethodListOf(impl, Some(traitName), false, ptr);
      var protocols := ProtocolList(
        CategoryProtocolsSymbol(cls, categoryName), 1, [Symbol(ProtocolSymbol(traitName))], 0);
      var nameLiteral := CStringLiteral(ClassRecord.ClassNameSymbol(categoryName), categoryName + "\0");
      var category := Category(
        CategorySymbol(cls, categoryName),
        Symbol(nameLiteral.symbol),
        Symbol(ClassRecord.ClassSymbol(cls)),
        instanceMethods, classMethods, protocols,
        Null, Null,
        categorySize % U32_MODULUS);
      Some(CategoryEmission(
        nameLiteral, ProtocolSymbol(traitName), category,
        Label(CategoryLabelSymbol(categoryName), Symbol(category.symbol))))
  }

  /** One impl block never yields both a class and a category. The first clause repeats
      `CustomCategory`'s own contract (a category exactly for a non-`extern` trait impl) so that
      callers find the whole rule in one place. */
  lemma CategoryEmittedIff(impl: ClassImpl, traitName: Option<string>, forceExtern: bool,
                           randomId: string, categorySize: nat, ptr: PointerWidth)
    requires WellFormedImpl(impl)
    requires !forceExtern && impl.traitPath.Some? ==> traitName.Some?
    ensures CustomCategory(impl, traitName, forceExtern, randomId, categorySize, ptr).Some?
            <==> !forceExtern && impl.traitPath.Some?
    ensures !(CustomCategory(impl, traitName, forceExtern, randomId, categorySize, ptr).Some?
              && ClassRecord.CustomClass(impl, forceExtern, ptr).Some?)
  {
  }

  /** The shape of a category: its name literal is the unique name plus NUL, it points at the
      extended class and its own name, its method lists are the category lists of the trait
      name, its protocol list holds exactly the trait's protocol followed by a null, it has no
      properties, and its label points at it. */
  lemma CategoryShape(impl: ClassImpl, traitName: Option<string>, forceExtern: bool,
                      randomId: string, categorySize: nat, ptr: PointerWidth)
    requires WellFormedImpl(impl)
    requires !forceExtern && impl.traitPath.Some? ==> traitName.Some?
    requires CustomCategory(impl, traitName, forceExtern, randomId, categorySize, ptr).Some?
    ensures var e := CustomCategory(impl, traitName, forceExtern, randomId, categorySize, ptr).value;
            var t := traitName.value;
            && e.categoryName.value == "__objrs_category_" + t + "_" + randomId + "\0"
            && e.category.name == Symbol(e.categoryName.symbol)
            && e.category.cls == Symbol("OBJC_CLASS_$_" + impl.className)
            && e.category.instanceMethods == MethodListOf(impl, Some(t), true, ptr)
            && e.category.classMethods == MethodListOf(impl, Some(t), false, ptr)
            && e.category.protocols.count == |e.category.protocols.protocols| == 1
            && e.category.protocols.protocols[0] == Symbol(e.protocolStub)
            && e.protocolStub == "\U{1}l_OBJC_PROTOCOL_$_" + t
            && e.category.protocols.terminator == 0
            && e.category.instanceProperties == Null && e.category.classProperties == Null
            && (categorySize < U32_MODULUS ==> e.category.size == categorySize)
            && e.categoryLabel.target == Symbol(e.category.symbol)
  {
  }

  /** A category's method lists never carry the class's `.cxx_destruct` / `.cxx_construct`
      hooks, and their symbols differ from the class's own lists. */
  lemma CategoryListsHaveNoHooks(impl: ClassImpl, traitName: string, instanceMethods: bool, ptr: PointerWidth)
    requires WellFormedImpl(impl)
    requires MethodListOf(impl, Some(traitName), instanceMethods, ptr).ListAt?
    ensures var l := MethodListOf(impl, Some(traitName), instanceMethods, ptr).list;
            l.cxxDestruct == [] && l.cxxConstruct == []
            && l.symbol != ListSymbol(impl.className, None, instanceMethods)
  {
    ListShape(impl, Some(traitName), instanceMethods, ptr);
    ListSymbolsDistinct(impl.className, Some(traitName), instanceMethods, impl.className, None, instanceMethods);
  }

  /** Two categories of one trait drawn with different random identifiers get different names,
      and so different category, protocol-list, name and label symbols. */
  lemma DistinctIdsGiveDistinctSymbols(className: string, traitName: string, id1: string, id2: string)
    requires id1 != id2
    ensures CategoryName(traitName, id1) != CategoryName(traitName, id2)
    ensures CategorySymbol(className, CategoryName(traitName, id1)) != CategorySymbol(className, CategoryName(traitName, id2))
    ensures CategoryProtocolsSymbol(className, CategoryName(traitName, id1))
         != CategoryProtocolsSymbol(className, CategoryName(traitName, id2))
    ensures ClassRecord.ClassNameSymbol(CategoryName(traitName, id1)) != ClassRecord.ClassNameSymbol(CategoryName(traitName, id2))
    ensures CategoryLabelSymbol(CategoryName(traitName, id1)) != CategoryLabelSymbol(CategoryName(traitName, id2))
  {
    var prefix := "__objrs_category_" + traitName + "_";
    var n1, n2 := CategoryName(traitName, id1), CategoryName(traitName, id2);
    PrefixCancels(prefix, id1, id2);
    PrefixCancels("\U{1}l_OBJC_$_CATEGORY_" + className + "_$_", n1, n2);
    PrefixCancels("\U{1}l_OBJC_CATEGORY_PROTOCOLS_$_" + className + "_$_", n1, n2);
    PrefixCancels("\U{1}L_OBJC_CLASS_NAME_", n1, n2);
    PrefixCancels("\U{1}L_OBJC_LABEL_CATEGORY_$", n1, n2);
  }

  /** A common prefix can be cancelled: names that differ after it differ with it. */
  lemma PrefixCancels(prefix: string, a: string, b: string)
    ensures prefix + a == prefix + b ==> a == b
  {
    assert (prefix + a)[|prefix|..] == a;
    assert (prefix + b)[|prefix|..] == b;
  }

  /** A category with no receiving methods still gets a category record, with null method lists
      and the one-protocol list. */
  lemma EmptyCategoryExample(randomId: string, categorySize: nat, ptr: PointerWidth)
    ensures var impl := ClassImpl("NSObject", Some(["Foo"]), [], [], ClassConsts(true, true, false, false, 0, 0));
            var e := CustomCategory(impl, Some("Foo"), false, randomId, categorySize, ptr);
            && e.Some?
            && e.value.category.instanceMethods == NullList
            && e.value.category.classMethods == NullList
            && e.value.category.protocols.count == 1
            && e.value.categoryName.value == "__objrs_category_Foo_" + randomId + "\0"
  {
  }
}
