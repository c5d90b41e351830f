# objrs `#[objrs(impl)]`: a verified model of its Objective-C metadata synthesis

objrs lets Rust code define and extend Objective-C classes. Its `#[objrs(impl)]` attribute
macro (`macros/src/class_impl.rs`) reads an annotated impl block and emits the binary records
the Objective-C runtime's loader expects:

- the NUL-terminated type-encoding string of every method, with its stack-frame layout;
- the counted method lists, with the `.cxx_destruct` / `.cxx_construct` hooks of a class;
- for a brand-new class, its metaclass and class records and their read-only data;
- for a trait impl, a uniquely named category with a one-protocol list;
- the exported symbol names under which the loader finds all of these.

This project restates that synthesis in Dafny, over abstract descriptors. A type is its
encoding bytes and its size, and a method is its input types and its return type. The
project proves what the emitted records are. The modules follow the functions of the source
file:

| module | models |
|---|---|
| `Ascii` | bytes of C-string literals; the decimal spelling of sizes and offsets |
| `Descriptors` | the inputs: types, signatures, recognised methods, the class constants, the pointer width |
| `MethodType` | `method_type`: the type string, built in a loop as the macro builds it |
| `MethodList` | `method_list`: the loop over methods, the null list, the hooks, the count and the list symbol |
| `ClassRecord` | `custom_class`: flags, metaclass and class records, symbols, the class-list label |
| `CategoryRecord` | `custom_category`: the unique category name, the protocol list, the category and its label |
| `ImplAttribute` | the `ImplAttr` grammar `impl [, class_name = S] [, protocol_name = S \| , category_name = S] [, extern] [,]` |
| `ParseImpl` | `parse_class_name` and the decisions of `parse_impl`: names, extern mode, the item partition, the rewritten block and the class-reference helpers |

State that the macro builds step by step is modelled as methods with loops, each proved equal
to a specification function:

- the argument bytes of a type string (`MethodType.EncodeArgs`);
- the entries of a method list (`MethodList.CollectEntries`);
- the three vectors `parse_impl` fills (`ParseImpl.PartitionItems`).

Everything else is a function, and lemmas state its properties.

Behaviours of the code that are easy to miss:

- A method list is null when no method of its kind has a receive-side implementation, even
  when the class needs hooks. The emptiness test runs before the hooks are added
  (`class_impl.rs:313`). A class that needs a destructor but has no receiving instance method
  is still flagged `RO_HAS_CXX_STRUCTORS`, with a null instance list, so its `.cxx_destruct`
  hook is never registered (`ClassRecord.DestructorWithoutMethodsHasNoHook`).
- The class-list and category-list label symbols begin `\x01L_OBJC_LABEL_` (capital `L`), not
  `\x01l_`.
- A category's method lists are suffixed with the trait name. The unique category name is not
  used there.
- The hook type strings `v16@0:8` and `@16@0:8` are fixed 64-bit spellings. On a 32-bit target
  they differ from the receiver/selector-only encoding (`MethodList.HookTypesAre64BitSpelling`).
- An argument whose type has size zero gives the next argument the same frame offset: offsets
  never decrease, but strictly increase only across positive sizes
  (`MethodType.FrameOffsetsOrdered`).

## Model

| member | source | states |
|---|---|---|
| Ascii.Decimal | macros/src/class_impl.rs:184-186 | the decimal spelling of a frame offset is non-empty, all digits, and starts with `0` only for the number 0 |
| Ascii.DecimalRoundTrip | macros/src/class_impl.rs:222-224 | reading the digits of a spelled size gives the size back |
| Ascii.CanonicalIsDecimal | macros/src/class_impl.rs:184-186 | every digit string without a leading zero is the spelling of the number it denotes |
| Ascii.DecimalInjective | macros/src/class_impl.rs:184-186 | distinct offsets have distinct spellings |
| MethodType.ReceiverCode | macros/src/class_impl.rs:129-134 | the receiver code is `@` exactly for instance methods and `#` exactly for class methods |
| MethodType.EncodeMethodType | macros/src/class_impl.rs:114-233 | the emitted type string is the return encoding, the decimal total frame size, then the argument bytes; its declared length `RET_LEN + prev_args_len` is its true length |
| MethodType.EncodeArgs | macros/src/class_impl.rs:138-197 | the loop leaves the argument bytes of all inputs, their length, and the total frame size |
| MethodType.EncodeArg | macros/src/class_impl.rs:155-186 | one loop step computes input `i`'s frame offset from the previous offset and size, and its encoding, offset digits and final NUL |
| MethodType.NiladicEncoding | macros/src/class_impl.rs:141-154 | with only receiver and selector, the argument bytes are exactly `[@ or #, '0', ':', '0' + pointer size, NUL]` and the frame is two pointers |
| MethodType.FrameOffsetIsRunningSum | macros/src/class_impl.rs:155-166 | the offset of input `i` is two pointer sizes plus the sizes of inputs 2 .. i-1 |
| MethodType.TotalFrameSizeIsSum | macros/src/class_impl.rs:192-196 | the total frame size is two pointer sizes plus the sizes of all inputs after the selector |
| MethodType.FrameOffsetsOrdered | macros/src/class_impl.rs:155-166 | the first extra offset is two pointer sizes; each later one adds the previous input's size; offsets never decrease, and strictly increase when all sizes are positive |
| MethodType.ArgsUpToShape | macros/src/class_impl.rs:174-186 | the argument bytes have the length of the four head bytes plus each input's encoding and offset digits plus one NUL, begin with the four head bytes, and end in NUL |
| MethodType.EncodingLength | macros/src/class_impl.rs:199-228 | the type string's length is the return encoding, the total-size digits, four head bytes, the segments, and one NUL |
| MethodType.EncodingLayout | macros/src/class_impl.rs:199-228 | the type string reads return encoding, total size, receiver code with offset 0, `:` with the pointer-size offset, ... and ends in NUL |
| MethodType.MethodTypeEncoding | macros/src/class_impl.rs:114-233 | the type string starts with the return encoding, is at least six bytes longer than it, and ends in NUL |
| MethodType.VoidIntMethodExample | macros/src/class_impl.rs:114-233 | a void method with one 4-byte `i` argument on a 64-bit target is encoded `v20@0:8i16` plus NUL |
| MethodList.Receiving | macros/src/class_impl.rs:272-280 | a method is counted exactly when it is one of the list's methods and has a receive-side implementation |
| MethodList.CollectEntries | macros/src/class_impl.rs:271-311 | the loop's entries are those of the receiving methods, in order, and `count` is their number |
| MethodList.MethodListOf | macros/src/class_impl.rs:235-427 | a non-null list has at least one explicit entry, a `u32` count, an entry size of three pointers and its list symbol; only a class's own instance list can carry hooks |
| MethodList.BuildMethodList | macros/src/class_impl.rs:235-427 | the emitted pointer is the specified method list: null for no entries, otherwise the counted record with its hooks and symbol |
| MethodList.EntriesFollowReceivingMethods | macros/src/class_impl.rs:272-311 | entry `k` is the entry of the `k`-th receiving method: selector plus NUL, the encoder's type string, the method's symbols and implementation |
| MethodList.NullIffNoReceivingMethod | macros/src/class_impl.rs:313-315 | a list is null exactly when none of its methods has a receive-side implementation, whatever the hook flags |
| MethodList.ListShape | macros/src/class_impl.rs:317-423 | a non-null list has one entry per receiving method, hooks only in a class's own instance list and exactly when required, `count` equal to entries plus hooks as `u32`, entry size three pointers, and the list symbol |
| MethodList.BothHooksCounted | macros/src/class_impl.rs:322-388 | a class needing both hooks with a receiving instance method gets a list counting the explicit methods plus two, with `.cxx_destruct` and `.cxx_construct` |
| MethodList.HookTypesMatchEncoder | macros/src/class_impl.rs:348-373 | the fixed hook type strings are the encoder's own output for a receiver/selector-only method on a 64-bit target |
| MethodList.HookTypesAre64BitSpelling | macros/src/class_impl.rs:352 | on a 32-bit target the fixed destructor type string differs from the encoder's output |
| MethodList.ListSymbolsDistinct | macros/src/class_impl.rs:390-393 | class lists, category lists, instance lists and class lists never share a symbol |
| ClassRecord.ClassRoFlags | macros/src/class_impl.rs:465-468 | class flags always have `RO_IS_ARR` and never `RO_META`; `RO_HAS_CXX_STRUCTORS` iff a constructor or destructor is needed; `RO_HAS_CXX_DTOR_ONLY` iff only a destructor is; no other bit |
| ClassRecord.CustomClass | macros/src/class_impl.rs:429-558 | a class is emitted exactly outside extern mode for a non-trait impl, and its class and metaclass read-only data carry its instance and class method lists |
| ClassRecord.MetaclassShape | macros/src/class_impl.rs:470-500 | the metaclass is flagged meta and array, has no structor bits, is 40 bytes, carries the class methods, has null ivars, ivar layout, protocols, weak ivar layout and properties, has the empty cache with mask and occupied 0, and points at the root metaclass, the superclass's metaclass and its read-only data |
| ClassRecord.ClassShape | macros/src/class_impl.rs:501-540 | the class's `isa` is its metaclass; its superclass is null iff it is a root; its flags are the class flags; its instance start and size are the class constants truncated to `u32`; its ivars are null iff it has none; ivar layout, protocols, weak ivar layout and properties are null; its cache is empty with mask and occupied 0; it carries the instance methods; its label points at it |
| ClassRecord.NameAndReserved | macros/src/class_impl.rs:436-441 | both read-only records name the class through one NUL-terminated literal, and have `reserved` exactly on 64-bit targets |
| ClassRecord.ClassSymbolsDistinct | macros/src/class_impl.rs:441-447 | the six symbols a class definition exports are pairwise distinct |
| ClassRecord.ClassSymbolInjective | macros/src/class_impl.rs:445 | distinct class names give distinct `OBJC_CLASS_$_` symbols |
| ClassRecord.DestructorWithoutMethodsHasNoHook | macros/src/class_impl.rs:313-315 | a class needing a destructor whose instance methods all lack a receive-side implementation is flagged `RO_HAS_CXX_STRUCTORS` yet has a null instance list, so no `.cxx_destruct` is registered |
| ClassRecord.DestructorOnlyRootClassExample | macros/src/class_impl.rs:429-558 | a destructor-only root class with one method has flags `0x184`, a null superclass, a list counting two entries with the destructor hook, and a null metaclass list |
| CategoryRecord.CustomCategory | macros/src/class_impl.rs:560-673 | a category is emitted exactly outside extern mode for a trait impl; its size is a `u32` and its protocol list counts one protocol |
| CategoryRecord.CategoryEmittedIff | macros/src/class_impl.rs:560-567 | a category is defined exactly for a non-extern trait impl, and never together with a class |
| CategoryRecord.CategoryShape | macros/src/class_impl.rs:560-673 | the category is named `__objrs_category_<trait>_<id>` plus NUL, points at the class and its name, carries the trait-suffixed lists, has a protocol list of exactly the trait's protocol and a null, no properties, and a label pointing at it |
| CategoryRecord.CategoryListsHaveNoHooks | macros/src/class_impl.rs:578-579 | a category's lists carry no hooks and never share a symbol with the class's own lists |
| CategoryRecord.DistinctIdsGiveDistinctSymbols | macros/src/class_impl.rs:569-576 | two different random identifiers give different category names and so different category, protocol-list, name and label symbols |
| CategoryRecord.EmptyCategoryExample | macros/src/class_impl.rs:560-673 | a trait impl with no methods still gets a category, with null lists and a one-protocol list |
| ImplAttribute.ParseImplAttr | macros/src/class_impl.rs:42-67 | the attribute parses exactly when the tokens start with `impl` |
| ImplAttribute.ClausesConsumePrefixes | macros/src/class_impl.rs:44-57 | each optional clause, and the trailing comma, consumes only a prefix of the tokens |
| ImplAttribute.ParseConsumesPrefix | macros/src/class_impl.rs:42-67 | the attribute parses exactly when the tokens start with `impl`, and then consumes a non-empty prefix |
| ImplAttribute.ClassNameStep | macros/src/class_impl.rs:45 | on canonical tokens, the class-name clause yields the class name when present and consumes nothing when absent |
| ImplAttribute.NoClassNameAfter | macros/src/class_impl.rs:45-55 | what follows the class-name clause in canonical tokens never begins with `, class_name` |
| ImplAttribute.TraitNameStep | macros/src/class_impl.rs:46-54 | the trait-name clause yields the trait name under either keyword when present and consumes nothing when absent |
| ImplAttribute.ExternStep | macros/src/class_impl.rs:55 | the extern clause is recognised exactly when present |
| ImplAttribute.ClausesOfRendered | macros/src/class_impl.rs:43-57 | the three clauses of the canonical spelling are each recognised, in order, leaving what follows |
| ImplAttribute.RenderParseRoundTrip | macros/src/class_impl.rs:42-67 | parsing the canonical spelling of any attribute gives it back, with either trait keyword |
| ImplAttribute.TrailingCommaAccepted | macros/src/class_impl.rs:56 | a trailing comma after the canonical spelling is accepted and consumed |
| ImplAttribute.ParsedIsRendered | macros/src/class_impl.rs:42-67 | whatever parses is the canonical spelling of the attribute returned, under one of the two trait keywords, then an optional comma, then the rest: no other clause order or repetition is accepted |
| ImplAttribute.ClauseOrderIsFixed | macros/src/class_impl.rs:43-57 | clauses are recognised only in their fixed order: `impl, extern, class_name = "Foo"` sets only extern |
| ParseImpl.ParseClassName | macros/src/class_impl.rs:675-704 | the class name is found exactly when the unwrapped type is a path with a segment; every failure carries the path-type note |
| ParseImpl.Unwrapped | macros/src/class_impl.rs:687-688 | removing parentheses and groups leaves neither at the top |
| ParseImpl.ClassNameOfUnwrapped | macros/src/class_impl.rs:675-704 | a class name is found iff the unwrapped self type is a non-empty path, and it is then the last segment; errors carry the path-type note and name the type kind or the empty path |
| ParseImpl.PartitionOf | macros/src/class_impl.rs:745-778 | every method the selector front end files is well formed |
| ParseImpl.PartitionProperties | macros/src/class_impl.rs:745-778 | the three vectors together hold as many items as the block, instance and class methods are filed by kind, and sorting fails exactly when a method is rejected, with the first rejection's diagnostic |
| ParseImpl.PartitionContents | macros/src/class_impl.rs:745-778 | on success, the class methods and the instance methods are the recognised methods of each kind, and the items left are the non-method items and the handed-back methods, all in item order |
| ParseImpl.RejectedPrefixDecides | macros/src/class_impl.rs:753-759 | once a prefix of the items fails, the whole block fails with the same diagnostic |
| ParseImpl.PartitionItems | macros/src/class_impl.rs:745-778 | the loop fills the three vectors as the specified partition, or returns the first rejection |
| ParseImpl.Shims | macros/src/class_impl.rs:817-824 | the rewritten items contain every method's shim and receiving function, and nothing that no method contributed |
| ParseImpl.Assemble | macros/src/class_impl.rs:810-946 | the expansion keeps the chosen names; it has a category exactly for a non-extern trait impl, and reference helpers exactly for a non-trait impl, with the class definition inside them exactly outside extern mode |
| ParseImpl.ChosenClassName | macros/src/class_impl.rs:723-728 | an attribute class name is taken as it is; otherwise a name is found exactly when the self type is a non-empty path |
| ParseImpl.ChosenTraitName | macros/src/class_impl.rs:733-743 | a trait name exists exactly when the attribute gives one or the block is a trait impl, and the attribute's wins |
| ParseImpl.ExpandImpl | macros/src/class_impl.rs:706-959 | the expansion fails with the class-name diagnostic, else with the partition's diagnostic, else is the assembled expansion for the chosen names and extern mode |
| ParseImpl.ChosenClassNameFound | macros/src/class_impl.rs:723-728 | the class name is found iff the attribute names it or the self type is a non-empty path, and the attribute wins |
| ParseImpl.ChosenTraitNamePresent | macros/src/class_impl.rs:735-743 | a trait name exists iff the attribute gives one or the block is a trait impl, falling back to the trait path's last segment |
| ParseImpl.AssembledDefinitions | macros/src/class_impl.rs:810-946 | the expansion has a category iff a non-extern trait impl; has reference helpers iff not a trait impl; defines the class inside them iff not extern; names their symbols after the class |
| ParseImpl.RewrittenItemsComplete | macros/src/class_impl.rs:780-824 | the rewritten block starts with the unclaimed items in order, contains every shim and receiving function of the recognised methods, and nothing else |
| ParseImpl.PlainClassExample | macros/src/class_impl.rs:706-959 | `impl foo::Foo` with no attribute arguments and two plain items: the class name is `Foo`, there is no trait name, the rewritten block is exactly the two items in order, and the expansion defines class `Foo` and no category |

## Left out

- Token generation (`quote!`), link sections, `#[used]`, the `TransmuteHack` / `Packed2` /
  `Packed3` / `SyncHack` byte tricks and spans: only the values they produce are modelled.
- Type sizes (`size_of`), type encodings (`TypeEncodingHack::BYTES`), `size_of::<category_t>()`
  and the class constants of `<Self as Class>` are parameters of the model.
- In `method_type`, the last argument's array is declared one byte longer than its parts. The
  model fills that byte with NUL, which makes the string NUL-terminated.
- `random_identifier` is a parameter (`randomId`).
- `parse_selector_method` is not part of this model. It is a function parameter (`SelectorFrontEnd`) whose outcome is taken as given.
- `transform_ivars` is not part of this model. A method the selector front end hands back is
  kept unchanged, and the diagnostic `transform_ivars` may raise is not modelled.
- `link_attribute` is reduced to whether a `#[link]` attribute is present. The attribute's
  tokens, which are repeated on the extern blocks, are not modelled.
- The bodies of the reference helpers (`read_volatile`, `#[inline(never)]`) are reduced to which
  symbols they name and whether the read is out of line.
- A failure to parse the impl item itself (`failed to parse impl item`) is not modelled. The model starts from a parsed `ItemImpl`.
- The syn combinator internals behind `ImplAttr` are not modelled. The grammar works on a token sequence, and the caller decides whether leftover tokens are an error.
- The commented-out `type_encoding` is dead code and is not modelled. So are the generic-parameter notes in `parse_impl`.
- `frameworks/` is declarative bindings with no logic, and is not part of this model.
- EncodeMethodType: the `assert!` that a selector method has at least two inputs
  (`class_impl.rs:119-122`) is a precondition (`requires |sig.inputs| >= 2`, and
  `Descriptors.CheckedMethod` for recognised methods), so its panic is not modelled. The
  `panic!` arms for a `self` argument (`class_impl.rs:163`, `170`) are excluded the same way:
  inputs are plain types.
- MethodEntrySize: `size_of::<method_t>()` (`class_impl.rs:414`) is fixed at three pointers
  rather than taken from the runtime's definition.
- Selector, class, trait and symbol names are `string`s of characters. The source emits their
  UTF-8 bytes (`class_impl.rs:284`, `438-440`); no encoding to bytes is modelled, and a
  non-ASCII name's byte length is not captured.
- Decimal: `ToAsciiHack::STR` / `LEN` (`class_impl.rs:184-186`) belongs to the objrs runtime
  crate, which is not part of this model. It is taken to spell a `usize` in decimal without
  leading zeros, and the lemmas about the type string's digits rest on that.
- TraitPath: a parsed trait path is taken to have at least one segment, so the `expect` on an
  empty trait path (`class_impl.rs:740`) is not modelled.
- FrameOffset: frame offsets and the total frame size are unbounded naturals. The source's
  `usize` arithmetic could overflow at compile time; that is not captured.
