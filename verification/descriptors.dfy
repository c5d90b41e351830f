/** The inputs of the metadata synthesiser: what the macro knows about types, methods and the
    annotated class once the front end and the `Class` trait have done their work. */
module Descriptors {
  import opened Ascii

  datatype Option<+T> = None | Some(value: T)

  /** The pointer width of the target (the Objective-C runtime's targets are 32- or 64-bit). */
  datatype PointerWidth = Bits32 | Bits64 {
    /** `size_of::<usize>()`. */
    function Size(): nat {
      if Bits32? then 4 else 8
    }

    /** `b'0' + SIZE_OF_USIZE as u8`: the pointer size as one decimal digit. */
    function Digit(): byte {
      ZERO + Size()
    }
  }

  /** What the macro knows about one argument or return type `T`: its type encoding
      (`<T as TypeEncodingHack>::BYTES`, whose length is the size of `TypeEncodingHack::Type`)
      and its size in bytes (`size_of::<T>()`). */
  datatype TypeInfo = TypeInfo(encoding: seq<byte>, size: nat)

  /** A method signature: every input, the receiver and the selector (`_cmd`) included, and
      the declared return type (`None` for a signature without `->`). */
  datatype Signature = Signature(inputs: seq<TypeInfo>, output: Option<TypeInfo>)

  /** The receive-side function the selector front end produced: its identifier and signature. */
  datatype RecvMethod = RecvMethod(ident: string, sig: Signature)

  /** A method the selector front end recognised (`ObjrsMethod`): the selector, whether it is an
      instance method, the message-sending shim (its tokens, opaque here) and the receive-side
      implementation, absent for forwarding-only declarations. */
  datatype ObjrsMethod = ObjrsMethod(
    selector: string,
    isInstanceMethod: bool,
    msgSend: Option<string>,
    msgRecv: Option<RecvMethod>)

  /** A receiving method has at least a receiver and a selector argument. */
  predicate WellFormedMethod(m: ObjrsMethod) {
    m.msgRecv.Some? ==> |m.msgRecv.value.sig.inputs| >= 2
  }

  predicate AllWellFormed(ms: seq<ObjrsMethod>) {
    forall i :: 0 <= i < |ms| ==> WellFormedMethod(ms[i])
  }

  /** A method as the selector front end hands it over: it has rejected receiving methods with
      fewer than two inputs. */
  type CheckedMethod = m: ObjrsMethod | WellFormedMethod(m) witness ObjrsMethod("", true, None, None)

  /** The path of the implemented trait; a parsed path has at least one segment. */
  type TraitPath = p: seq<string> | |p| > 0 witness [""]

  /** The associated constants of `<Self as Class>`, computed by the class macro. */
  datatype ClassConsts = ClassConsts(
    requiresCxxConstruct: bool,
    requiresCxxDestruct: bool,
    hasIvars: bool,
    isRootClass: bool,
    instanceStart: nat,
    instanceSize: nat)

  /** The annotated impl block after the front end (`ClassImpl`): the class name, the trait
      path of `impl Trait for Type` (its segments) if any, the partitioned methods, and the
      class constants of the self type. */
  datatype ClassImpl = ClassImpl(
    className: string,
    traitPath: Option<TraitPath>,
    classMethods: seq<ObjrsMethod>,
    instanceMethods: seq<ObjrsMethod>,
    consts: ClassConsts)

  predicate WellFormedImpl(c: ClassImpl) {
    AllWellFormed(c.classMethods) && AllWellFormed(c.instanceMethods)
  }

  /** A pointer field of an emitted record: null, the address of a symbol named by its symbol
      name (defined by this expansion or external), or the address of an external symbol the
      `class` module names for the class. */
  datatype Ref =
    | Null
    | Symbol(name: string)
    | RootMetaclassOf(rootOf: string)
    | SuperMetaclassOf(metaOf: string)
    | SuperClassOf(superOf: string)
    | IvarListOf(ivarsOf: string)
    | EmptyCache

  /** A NUL-terminated string literal placed under an exported symbol name. */
  datatype CStringLiteral = CStringLiteral(symbol: string, value: string)

  /** An entry of a loader-scanned, no-dead-strip label section pointing at a record. */
  datatype Label = Label(symbol: string, target: Ref)
}
