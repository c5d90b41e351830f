/** The front end of `#[objrs(impl)]` (`parse_class_name`, `parse_impl`): it picks the class and
    trait names and the extern mode, sorts the impl block's items into class methods, instance
    methods and everything else, rewrites the block, and chooses between a class definition, a
    category definition and the class-reference helpers. */
module ParseImpl {
  import opened Descriptors
  import opened ImplAttribute
  import opened ClassRecord
  import opened CategoryRecord

  /** A compile-time diagnostic: its message and its note. */
  datatype Diagnostic = Diagnostic(message: string, note: string)

  datatype Result<T> = Ok(value: T) | Err(error: Diagnostic)

  /** The shapes of a Rust type the class-name rule distinguishes; a path type keeps its
      segments' identifiers. */
  datatype RustType =
    | SliceType
    | ArrayType
    | PtrType
    | ReferenceType
    | BareFnType
    | NeverType
    | TupleType
    | PathType(segments: seq<string>)
    | TraitObjectType
    | ImplTraitType
    | ParenType(elem: RustType)
    | GroupType(elem: RustType)
    | InferType
    | MacroType
    | VerbatimType

  const PATH_TYPE_PREFIX: string := "expected path type, found "
  const EMPTY_PATH_MESSAGE: string := "expected identifer at end of type path"
  const PATH_TYPE_NOTE: string :=
    "the #[objrs(impl)] macro may only be applied to impl blocks for path types (e.g., `foo::bar::Baz`)"

  /** How a diagnostic names a type that is not a path. */
  function KindName(ty: RustType): string
    requires !ty.PathType? && !ty.ParenType? && !ty.GroupType?
  {
    match ty
    case SliceType => "slice type"
    case ArrayType => "array type"
    case PtrType => "pointer type"
    case ReferenceType => "reference type"
    case BareFnType => "fn type"
    case NeverType => "never type"
    case TupleType => "tuple type"
    case TraitObjectType => "trait object type"
    case ImplTraitType => "`impl Trait` type"
    case InferType => "inferred type"
    case MacroType => "macro"
    case VerbatimType => "unknown type"
  }

  /** The class name of the impl block's self type: the last segment of a path type, looking
      through parentheses and invisible groups. */
  function ParseClassName(ty: RustType): (r: Result<string>)
    ensures r.Ok? <==> Unwrapped(ty).PathType? && |Unwrapped(ty).segments| > 0
    ensures r.Err? ==> r.error.note == PATH_TYPE_NOTE
  {
    match ty
    case ParenType(elem) => ParseClassName(elem)
    case GroupType(elem) => ParseClassName(elem)
    case PathType(segments) =>
      if |segments| == 0 then Err(Diagnostic(EMPTY_PATH_MESSAGE, PATH_TYPE_NOTE))
      else Ok(segments[|segments| - 1])
    case _ => Err(Diagnostic(PATH_TYPE_PREFIX + KindName(ty), PATH_TYPE_NOTE))
  }

  /** The type with its parentheses and groups removed. */
  function Unwrapped(ty: RustType): (r: RustType)
    ensures !r.ParenType? && !r.GroupType?
  {
    match ty
    case ParenType(elem) => Unwrapped(elem)
    case GroupType(elem) => Unwrapped(elem)
    case _ => ty
  }

  /** A class name is found exactly when the unwrapped type is a path with a segment; it is then
      the last segment. Every failure carries the path-type note; a non-path type is named in
      the message, an empty path gets the end-of-path message. */
  lemma {:induction false} ClassNameOfUnwrapped(ty: RustType)
    ensures var u := Unwrapped(ty);
            && (ParseClassName(ty).Ok? <==> u.PathType? && |u.segments| > 0)
            && (ParseClassName(ty).Ok? ==> ParseClassName(ty).value == u.segments[|u.segments| - 1])
            && (ParseClassName(ty).Err? ==> ParseClassName(ty).error.note == PATH_TYPE_NOTE)
            && (u.PathType? && |u.segments| == 0 ==> ParseClassName(ty).error.message == EMPTY_PATH_MESSAGE)
            && (!u.PathType? ==> ParseClassName(ty).error.message == PATH_TYPE_PREFIX + KindName(u))
  {
    match ty
    case ParenType(elem) => ClassNameOfUnwrapped(elem);
    case GroupType(elem) => ClassNameOfUnwrapped(elem);
    case _ =>
  }

  /** A method of the impl block, as the selector front end receives it (opaque here). */
  datatype FnItem = FnItem(ident: string)

  /** An item of the impl block: a method, or anything else (constants, types, macros). */
  datatype ImplItem = MethodItem(fn: FnItem) | OtherItem(tokens: string)

  /** The parsed impl block: its self type, the path of the implemented trait if any, whether a
      `#[link]` attribute is attached, its number of generic parameters, and its items. */
  datatype ItemImpl = ItemImpl(
    selfTy: RustType,
    traitPath: Option<TraitPath>,
    hasLinkAttribute: bool,
    genericParamCount: nat,
    items: seq<ImplItem>)

  /** The arguments passed to the selector front end for each method: the class name (absent in
      extern mode), the trait name, whether the type is generic, and whether this is an extern
      trait impl. */
  datatype SelectorQuery = SelectorQuery(
    className: Option<string>,
    traitName: Option<string>,
    isGeneric: bool,
    isExternTraitImpl: bool)

  /** What the selector front end makes of a method: a selector method, an ordinary method it
      hands back, or a diagnostic. */
  datatype SelectorOutcome = Recognised(objrsMethod: CheckedMethod) | NotSelector(original: FnItem) | Rejected(error: Diagnostic)

  /** The selector front end (`parse_selector_method`), which is not part of this model. */
  type SelectorFrontEnd = (FnItem, SelectorQuery) -> SelectorOutcome

  datatype Partition = Partition(classMethods: seq<ObjrsMethod>, instanceMethods: seq<ObjrsMethod>, nonMethods: seq<ImplItem>)

  predicate Rejects(item: ImplItem, query: SelectorQuery, selector: SelectorFrontEnd) {
    item.MethodItem? && selector(item.fn, query).Rejected?
  }

  /** Files one item into the partition built so far. */
  function Place(p: Partition, item: ImplItem, query: SelectorQuery, selector: SelectorFrontEnd): Result<Partition> {
    match item
    case OtherItem(_) => Ok(p.(nonMethods := p.nonMethods + [item]))
    case MethodItem(f) =>
      match selector(f, query)
      case Rejected(e) => Err(e)
      case NotSelector(original) => Ok(p.(nonMethods := p.nonMethods + [MethodItem(original)]))
      case Recognised(m) =>
        if m.isInstanceMethod then Ok(p.(instanceMethods := p.instanceMethods + [m]))
        else Ok(p.(classMethods := p.classMethods + [m]))
  }

  /** The partition of the impl block's items, or the diagnostic of the first method the
      selector front end rejects. */
  function PartitionOf(items: seq<ImplItem>, query: SelectorQuery, selector: SelectorFrontEnd): (r: Result<Partition>)
    ensures r.Ok? ==> AllWellFormed(r.value.classMethods) && AllWellFormed(r.value.instanceMethods)
    decreases |items|
  {
    if items == [] then Ok(Partition([], [], []))
    else
      match PartitionOf(items[..|items| - 1], query, selector)
      case Err(e) => Err(e)
      case Ok(p) => Place(p, items[|items| - 1], query, selector)
  }

  /** Sorting keeps as many items as it was given, files each recognised method by its kind,
      and fails exactly when some method is rejected, with the diagnostic of the first one. */
  lemma {:induction false} PartitionProperties(items: seq<ImplItem>, query: SelectorQuery, selector: SelectorFrontEnd)
    ensures var r := PartitionOf(items, query, selector);
            && (r.Ok? ==> |r.value.classMethods| + |r.value.instanceMethods| + |r.value.nonMethods| == |items|)
            && (r.Ok? ==> forall m :: m in r.value.instanceMethods ==> m.isInstanceMethod)
            && (r.Ok? ==> forall m :: m in r.value.classMethods ==> !m.isInstanceMethod)
            && (r.Err? <==> exists i :: 0 <= i < |items| && Rejects(items[i], query, selector))
            && (r.Err? ==> exists i :: 0 <= i < |items| && Rejects(items[i], query, selector)
                             && r.error == selector(items[i].fn, query).error
                             && forall j :: 0 <= j < i ==> !Rejects(items[j], query, selector))
    decreases |items|
  {
    if items != [] {
      var init := items[..|items| - 1];
      assert forall j :: 0 <= j < |init| ==> init[j] == items[j];
      PartitionProperties(init, query, selector);
    }
  }

  /** The methods of one kind the selector front end recognises in an item: the method itself
      when it is recognised and of that kind, nothing otherwise. */
  function RecognisedIn(item: ImplItem, query: SelectorQuery, selector: SelectorFrontEnd, instance: bool): seq<ObjrsMethod> {
    if item.MethodItem? && selector(item.fn, query).Recognised?
       && selector(item.fn, query).objrsMethod.isInstanceMethod == instance
    then [selector(item.fn, query).objrsMethod]
    else []
  }

  /** The recognised methods of one kind, in item order. */
  function RecognisedOf(items: seq<ImplItem>, query: SelectorQuery, selector: SelectorFrontEnd, instance: bool): seq<ObjrsMethod>
    decreases |items|
  {
    if items == [] then []
    else RecognisedIn(items[0], query, selector, instance) + RecognisedOf(items[1..], query, selector, instance)
  }

  /** What of an item stays in the impl block: a non-method item as it is, a method the selector
      front end hands back as handed back, nothing otherwise. */
  function UnclaimedIn(item: ImplItem, query: SelectorQuery, selector: SelectorFrontEnd): seq<ImplItem> {
    match item
    case OtherItem(_) => [item]
    case MethodItem(f) => if selector(f, query).NotSelector? then [MethodItem(selector(f, query).original)] else []
  }

  /** The items that stay in the impl block, in item order. */
  function UnclaimedOf(items: seq<ImplItem>, query: SelectorQuery, selector: SelectorFrontEnd): seq<ImplItem>
    decreases |items|
  {
    if items == [] then []
    else UnclaimedIn(items[0], query, selector) + UnclaimedOf(items[1..], query, selector)
  }

  lemma {:induction false} RecognisedOfSnoc(items: seq<ImplItem>, last: ImplItem, query: SelectorQuery, selector: SelectorFrontEnd, instance: bool)
    ensures RecognisedOf(items + [last], query, selector, instance)
         == RecognisedOf(items, query, selector, instance) + RecognisedIn(last, query, selector, instance)
    decreases |items|
  {
    if items == [] {
      assert [] + [last] == [last];
      assert [last][1..] == [];
    } else {
      assert (items + [last])[1..] == items[1..] + [last];
      RecognisedOfSnoc(items[1..], last, query, selector, instance);
    }
  }

  lemma {:induction false} UnclaimedOfSnoc(items: seq<ImplItem>, last: ImplItem, query: SelectorQuery, selector: SelectorFrontEnd)
    ensures UnclaimedOf(items + [last], query, selector) == UnclaimedOf(items, query, selector) + UnclaimedIn(last, query, selector)
    decreases |items|
  {
    if items == [] {
      assert [] + [last] == [last];
      assert [last][1..] == [];
    } else {
      assert (items + [last])[1..] == items[1..] + [last];
      UnclaimedOfSnoc(items[1..], last, query, selector);
    }
  }

  /** A successful sort loses no item and reorders nothing: the class methods and the instance
      methods are the recognised methods of each kind, and the items left in the block are the
      non-method items and the handed-back methods, each in the order of the impl block. */
  lemma {:induction false} PartitionContents(items: seq<ImplItem>, query: SelectorQuery, selector: SelectorFrontEnd)
    requires PartitionOf(items, query, selector).Ok?
    ensures var p := PartitionOf(items, query, selector).value;
            && p.classMethods == RecognisedOf(items, query, selector, false)
            && p.instanceMethods == RecognisedOf(items, query, selector, true)
            && p.nonMethods == UnclaimedOf(items, query, selector)
    decreases |items|
  {
    if items != [] {
      var init := items[..|items| - 1];
      var last := items[|items| - 1];
      assert items == init + [last];
      PartitionContents(init, query, selector);
      RecognisedOfSnoc(init, last, query, selector, false);
      RecognisedOfSnoc(init, last, query, selector, true);
      UnclaimedOfSnoc(init, last, query, selector);
    }
  }

  /** Once a prefix of the items is rejected, the whole block is, with the same diagnostic. */
  lemma {:induction false} RejectedPrefixDecides(items: seq<ImplItem>, k: nat, query: SelectorQuery, selector: SelectorFrontEnd)
    requires k <= |items|
    requires PartitionOf(items[..k], query, selector).Err?
    ensures PartitionOf(items, query, selector) == PartitionOf(items[..k], query, selector)
    decreases |items| - k
  {
    if k < |items| {
      assert items[..k + 1][..k] == items[..k];
      RejectedPrefixDecides(items, k + 1, query, selector);
    } else {
      assert items[..k] == items;
    }
  }

  /** Sorts the items as the macro's loop does, pushing each into one of three vectors and
      stopping at the first rejected method. */
  method PartitionItems(items: seq<ImplItem>, query: SelectorQuery, selector: SelectorFrontEnd)
    returns (r: Result<Partition>)
    ensures r == PartitionOf(items, query, selector)
  {
    var classMethods: seq<ObjrsMethod> := [];
    var instanceMethods: seq<ObjrsMethod> := [];
    var nonMethods: seq<ImplItem> := [];
    for i := 0 to |items|
      invariant PartitionOf(items[..i], query, selector) == Ok(Partition(classMethods, instanceMethods, nonMethods))
    {
      assert items[..i + 1][..i] == items[..i];
      var subItem := items[i];
      match subItem {
        case MethodItem(f) =>
          match selector(f, query) {
            case Rejected(e) =>
              RejectedPrefixDecides(items, i + 1, query, selector);
              return Err(e);
            case NotSelector(original) =>
              nonMethods := nonMethods + [MethodItem(original)];
            case Recognised(objrsMethod) =>
              if objrsMethod.isInstanceMethod {
                instanceMethods := instanceMethods + [objrsMethod];
              } else {
                classMethods := classMethods + [objrsMethod];
              }
          }
        case OtherItem(_) =>
          nonMethods := nonMethods + [subItem];
      }
    }
    assert items[..|items|] == items;
    return Ok(Partition(classMethods, instanceMethods, nonMethods));
  }

  /** An item of the rewritten impl block: an item kept from the input, a message-sending shim,
      or a receive-side function. */
  datatype OutItem = Kept(item: ImplItem) | SendShim(tokens: string) | RecvFn(recv: RecvMethod)

  /** The items one recognised method contributes: its sending shim, then its receiving
      function, each when present. */
  function MethodItems(m: ObjrsMethod): seq<OutItem> {
    (if m.msgSend.Some? then [SendShim(m.msgSend.value)] else [])
      + (if m.msgRecv.Some? then [RecvFn(m.msgRecv.value)] else [])
  }

  /** The items contributed by a sequence of methods, in order. */
  function Shims(ms: seq<ObjrsMethod>): (r: seq<OutItem>)
    ensures forall m :: m in ms && m.msgSend.Some? ==> SendShim(m.msgSend.value) in r
    ensures forall m :: m in ms && m.msgRecv.Some? ==> RecvFn(m.msgRecv.value) in r
    ensures forall o :: o in r ==> exists m :: m in ms && o in MethodItems(m)
    decreases |ms|
  {
    if ms == [] then []
    else
      var init := ms[..|ms| - 1];
      var last := ms[|ms| - 1];
      assert ms == init + [last];
      Shims(init) + MethodItems(last)
  }

  function KeptItems(items: seq<ImplItem>): seq<OutItem> {
    seq(|items|, k requires 0 <= k < |items| => Kept(items[k]))
  }

  /** The class-reference helpers of a non-trait impl block: the class definition (when not
      extern) together with the image-info, class-reference and superclass-reference symbols,
      the external class and metaclass names they point at, whether the `#[link]` attribute is
      repeated on their extern blocks, and whether the reference read goes through an
      out-of-line function (for generic types). */
  datatype ClassRefs = ClassRefs(
    classDefinition: Option<ClassEmission>,
    imageInfo: string,
    classLink: string,
    classRef: string,
    metaLink: string,
    metaSuperRef: string,
    superRef: string,
    linkAttribute: bool,
    outOfLineRead: bool)

  /** The expansion of the attribute: the names it settled on, the rewritten impl block's items,
      the category definition if any, and the class-reference helpers if any. */
  datatype Expansion = Expansion(
    className: string,
    traitName: Option<string>,
    items: seq<OutItem>,
    category: Option<CategoryEmission>,
    refs: Option<ClassRefs>)

  function ImageInfoSymbol(cls: string): string { "\U{1}L_OBJC_IMAGE_INFO.__objrs_image." + cls }
  function ClassRefSymbol(cls: string): string { "\U{1}L_OBJC_CLASSLIST_REFERENCES_$_.__objrs_class." + cls }
  function MetaSuperRefSymbol(cls: string): string { "\U{1}L_OBJC_CLASSLIST_SUP_REFS_$_.__objrs_metaclass." + cls }
  function SuperRefSymbol(cls: string): string { "\U{1}L_OBJC_CLASSLIST_SUP_REFS_$_.__objrs_class." + cls }

  /** The query the selector front end receives for every method of the block. */
  function QueryFor(attr: ImplAttr, item: ItemImpl, className: string, traitName: Option<string>): SelectorQuery {
    var forceExtern := attr.forceExtern || item.hasLinkAttribute;
    SelectorQuery(
      if forceExtern then None else Some(className),
      traitName,
      item.genericParamCount != 0,
      forceExtern && item.traitPath.Some?)
  }

  /** Assembles the expansion once the names are settled and the items sorted: the kept items
      followed by each class method's and then each instance method's shim and receiving
      function, the category definition, and (for a non-trait impl) the class-reference helpers
      with the class definition inside them. */
  function Assemble(item: ItemImpl, className: string, traitName: Option<string>, forceExtern: bool,
                    p: Partition, consts: ClassConsts, randomId: string, categorySize: nat, ptr: PointerWidth): (r: Expansion)
    requires AllWellFormed(p.classMethods) && AllWellFormed(p.instanceMethods)
    requires item.traitPath.Some? ==> traitName.Some?
    ensures r.className == className && r.traitName == traitName
    ensures r.category.Some? <==> !forceExtern && item.traitPath.Some?
    ensures r.refs.Some? <==> item.traitPath.None?
    ensures r.refs.Some? ==> (r.refs.value.classDefinition.Some? <==> !forceExtern)
  {
    var classImpl := ClassImpl(className, item.traitPath, p.classMethods, p.instanceMethods, consts);
    var refs :=
      if item.traitPath.Some? then None
      else Some(ClassRefs(
        CustomClass(classImpl, forceExtern, ptr),
        ImageInfoSymbol(className),
        ClassSymbol(className),
        ClassRefSymbol(className),
        MetaclassSymbol(className),
        MetaSuperRefSymbol(className),
        SuperRefSymbol(className),
        item.hasLinkAttribute,
        item.genericParamCount != 0));
    Expansion(
      className, traitName,
      RewrittenItems(p),
      CustomCategory(classImpl, traitName, forceExtern, randomId, categorySize, ptr),
      refs)
  }

  /** The class name: the attribute's `class_name`, else the name found in the self type. */
  function ChosenClassName(attr: ImplAttr, item: ItemImpl): (r: Result<string>)
    ensures attr.className.Some? ==> r == Ok(attr.className.value)
    ensures r.Ok? <==> attr.className.Some? || (Unwrapped(item.selfTy).PathType? && |Unwrapped(item.selfTy).segments| > 0)
  {
    if attr.className.Some? then Ok(attr.className.value) else ParseClassName(item.selfTy)
  }

  /** The trait name: the attribute's `protocol_name` / `category_name`, else the last segment
      of the implemented trait's path, else none. */
  function ChosenTraitName(attr: ImplAttr, item: ItemImpl): (r: Option<string>)
    ensures r.Some? <==> attr.traitName.Some? || item.traitPath.Some?
    ensures attr.traitName.Some? ==> r == attr.traitName
  {
    if attr.traitName.Some? then attr.traitName
    else if item.traitPath.Some? then Some(item.traitPath.value[|item.traitPath.value| - 1])
    else None
  }

  /** Extern mode: the attribute says `extern` or the block carries a `#[link]` attribute. */
  predicate ForcesExtern(attr: ImplAttr, item: ItemImpl) {
    attr.forceExtern || item.hasLinkAttribute
  }

  /** Expands `#[objrs(impl ...)]` on a parsed impl block. `consts` are the class constants of
      the self type, `randomId` the identifier drawn for a category name and `categorySize`
      the size of `category_t`. A failure to find the class name is final; otherwise the
      outcome is that of sorting the items with the block's query, assembled in extern mode
      when the block asks for it. */
  method ExpandImpl(attr: ImplAttr, item: ItemImpl, selector: SelectorFrontEnd, consts: ClassConsts,
                    randomId: string, categorySize: nat, ptr: PointerWidth)
    returns (r: Result<Expansion>)
    ensures ChosenClassName(attr, item).Err? ==> r == Err(ChosenClassName(attr, item).error)
    ensures ChosenClassName(attr, item).Ok? ==>
              var cls := ChosenClassName(attr, item).value;
              var traitName := ChosenTraitName(attr, item);
              var partition := PartitionOf(item.items, QueryFor(attr, item, cls, traitName), selector);
              && (partition.Err? ==> r == Err(partition.error))
              && (partition.Ok? ==>
                    r == Ok(Assemble(item, cls, traitName, ForcesExtern(attr, item), partition.value,
                                     consts, randomId, categorySize, ptr)))
  {
    var className: string;
    if attr.className.Some? {
      className := attr.className.value;
    } else {
      var parsed := ParseClassName(item.selfTy);
      if parsed.Err? {
        return Err(parsed.error);
      }
      className := parsed.value;
    }
    assert className == ChosenClassName(attr, item).value;
    var forceExtern := attr.forceExtern || item.hasLinkAttribute;

    var traitName := attr.traitName;
    if item.traitPath.Some? {
      if traitName.None? {
        var path := item.traitPath.value;
        traitName := Some(path[|path| - 1]);
      }
    }
    assert traitName == ChosenTraitName(attr, item);

    var query := SelectorQuery(
      if forceExtern then None else Some(className),
      traitName,
      item.genericParamCount != 0,
      forceExtern && item.traitPath.Some?);
    assert query == QueryFor(attr, item, className, traitName);
    var partition := PartitionItems(item.items, query, selector);
    if partition.Err? {
      return Err(partition.error);
    }
    return Ok(Assemble(item, className, traitName, forceExtern, partition.value, consts, randomId, categorySize, ptr));
  }

  /** The class name is the attribute's, else the last segment of the unwrapped self type. The
      first two conjuncts repeat `ChosenClassName`'s own contract so that callers find the whole
      rule in one place. */
  lemma ChosenClassNameFound(attr: ImplAttr, item: ItemImpl)
    ensures var u := Unwrapped(item.selfTy);
            && (ChosenClassName(attr, item).Ok? <==> attr.className.Some? || (u.PathType? && |u.segments| > 0))
            && (attr.className.Some? ==> ChosenClassName(attr, item) == Ok(attr.className.value))
            && (attr.className.None? && ChosenClassName(attr, item).Ok? ==>
                  ChosenClassName(attr, item).value == u.segments[|u.segments| - 1])
  {
    ClassNameOfUnwrapped(item.selfTy);
  }

  /** A trait impl always has a trait name (the attribute's, else its path's last segment), so
      the category's name can always be formed; a non-trait impl has one only from the
      attribute. The first clause repeats `ChosenTraitName`'s own contract so that callers find
      the whole rule in one place; the second is the fallback to the path. */
  lemma ChosenTraitNamePresent(attr: ImplAttr, item: ItemImpl)
    ensures ChosenTraitName(attr, item).Some? <==> attr.traitName.Some? || item.traitPath.Some?
    ensures attr.traitName.None? && item.traitPath.Some? ==>
              ChosenTraitName(attr, item).value == item.traitPath.value[|item.traitPath.value| - 1]
  {
  }

  /** What the expansion defines: a category exactly for a trait impl outside extern mode, the
      class-reference helpers exactly for a non-trait impl, with the class definition inside
      them exactly outside extern mode, and the helpers' symbols named after the class. */
  lemma AssembledDefinitions(item: ItemImpl, className: string, traitName: Option<string>, forceExtern: bool,
                             p: Partition, consts: ClassConsts, randomId: string, categorySize: nat, ptr: PointerWidth)
    requires AllWellFormed(p.classMethods) && AllWellFormed(p.instanceMethods)
    requires item.traitPath.Some? ==> traitName.Some?
    ensures var e := Assemble(item, className, traitName, forceExtern, p, consts, randomId, categorySize, ptr);
            && (e.category.Some? <==> !forceExtern && item.traitPath.Some?)
            && (e.refs.Some? <==> item.traitPath.None?)
            && (e.refs.Some? ==>
                  var refs := e.refs.value;
                  && (refs.classDefinition.Some? <==> !forceExtern)
                  && refs.imageInfo == "\U{1}L_OBJC_IMAGE_INFO.__objrs_image." + className
                  && refs.classLink == "OBJC_CLASS_$_" + className
                  && refs.classRef == "\U{1}L_OBJC_CLASSLIST_REFERENCES_$_.__objrs_class." + className
                  && refs.metaLink == "OBJC_METACLASS_$_" + className
                  && refs.metaSuperRef == "\U{1}L_OBJC_CLASSLIST_SUP_REFS_$_.__objrs_metaclass." + className
                  && refs.superRef == "\U{1}L_OBJC_CLASSLIST_SUP_REFS_$_.__objrs_class." + className
                  && refs.linkAttribute == item.hasLinkAttribute
                  && refs.outOfLineRead == (item.genericParamCount != 0))
  {
    var classImpl := ClassImpl(className, item.traitPath, p.classMethods, p.instanceMethods, consts);
    CategoryEmittedIff(classImpl, traitName, forceExtern, randomId, categorySize, ptr);
  }

  /** The items of the rewritten impl block: the items the selector front end did not take,
      then the shims and receiving functions of the class methods and then of the instance
      methods. */
  function RewrittenItems(p: Partition): seq<OutItem> {
    KeptItems(p.nonMethods) + Shims(p.classMethods + p.instanceMethods)
  }

  /** The rewritten block keeps every item the selector front end did not take, in order, and
      carries every shim and receiving function of the methods it did take; nothing else is
      added. */
  lemma RewrittenItemsComplete(p: Partition)
    ensures var out := RewrittenItems(p);
            var ms := p.classMethods + p.instanceMethods;
            && |out| >= |p.nonMethods|
            && (forall k :: 0 <= k < |p.nonMethods| ==> out[k] == Kept(p.nonMethods[k]))
            && (forall m :: m in ms && m.msgRecv.Some? ==> RecvFn(m.msgRecv.value) in out)
            && (forall m :: m in ms && m.msgSend.Some? ==> SendShim(m.msgSend.value) in out)
            && (forall k :: |p.nonMethods| <= k < |out| ==> exists m :: m in ms && out[k] in MethodItems(m))
  {
    var ms := p.classMethods + p.instanceMethods;
    var kept := KeptItems(p.nonMethods);
    var out := RewrittenItems(p);
    assert out == kept + Shims(ms);
    forall k | |p.nonMethods| <= k < |out| ensures exists m :: m in ms && out[k] in MethodItems(m) {
      assert out[k] == Shims(ms)[k - |kept|];
      assert out[k] in Shims(ms);
    }
  }

  /** `impl foo::Foo` with no attribute arguments and two plain items: the class name is `Foo`,
      there is no trait name, the items are kept in order with nothing added, and the expansion
      carries the class definition and no category. */
  lemma PlainClassExample(selector: SelectorFrontEnd, consts: ClassConsts, randomId: string, categorySize: nat, ptr: PointerWidth)
    ensures var attr := ImplAttr(None, None, false);
            var item := ItemImpl(PathType(["foo", "Foo"]), None, false, 0, [OtherItem("A"), OtherItem("B")]);
            var p := PartitionOf(item.items, QueryFor(attr, item, "Foo", None), selector);
            && ChosenClassName(attr, item) == Ok("Foo")
            && ChosenTraitName(attr, item) == None
            && p == Ok(Partition([], [], [OtherItem("A"), OtherItem("B")]))
            && var e := Assemble(item, "Foo", None, false, p.value, consts, randomId, categorySize, ptr);
               && e.refs.Some? && e.refs.value.classDefinition.Some?
               && e.category.None?
               && e.items == [Kept(OtherItem("A")), Kept(OtherItem("B"))]
  {
    var item := ItemImpl(PathType(["foo", "Foo"]), None, false, 0, [OtherItem("A"), OtherItem("B")]);
    PlainItemsKept(QueryFor(ImplAttr(None, None, false), item, "Foo", None), selector);
    var p := Partition([], [], [OtherItem("A"), OtherItem("B")]);
    assert Shims(p.classMethods + p.instanceMethods) == [];
    assert RewrittenItems(p) == KeptItems(p.nonMethods) + [];
  }

  /** Two non-method items are both kept, in order, whatever the query. */
  lemma PlainItemsKept(query: SelectorQuery, selector: SelectorFrontEnd)
    ensures PartitionOf([OtherItem("A"), OtherItem("B")], query, selector)
         == Ok(Partition([], [], [OtherItem("A"), OtherItem("B")]))
  {
    var items := [OtherItem("A"), OtherItem("B")];
    var empty: seq<ImplItem> := [];
    assert items[..1] == [OtherItem("A")] && [OtherItem("A")][..0] == empty;
    assert PartitionOf(empty, query, selector) == Ok(Partition([], [], []));
    assert empty + [OtherItem("A")] == [OtherItem("A")];
    assert PartitionOf([OtherItem("A")], query, selector) == Ok(Partition([], [], [OtherItem("A")]));
    assert [OtherItem("A")] + [OtherItem("B")] == items;
  }
}
