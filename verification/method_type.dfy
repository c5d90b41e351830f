/** The type-encoding string of one method and its stack-frame layout (`method_type`). */
module MethodType {
  import opened Ascii
  import opened Descriptors

  /** `arg0`: `@` for an instance method's receiver, `#` for a class method's. */
  function ReceiverCode(isInstanceMethod: bool): (b: byte)
    ensures b == AT <==> isInstanceMethod
    ensures b == HASH <==> !isInstanceMethod
  {
    if isInstanceMethod then AT else HASH
  }

  /** Frame offset of input `i >= 2`: the third input sits after two pointer-sized slots, and
      every later one right after the one before it, with no alignment gap. */
  function FrameOffset(inputs: seq<TypeInfo>, ptr: PointerWidth, i: nat): nat
    requires 2 <= i < |inputs|
    decreases i
  {
    if i == 2 then 2 * ptr.Size() else FrameOffset(inputs, ptr, i - 1) + inputs[i - 1].size
  }

  /** Total frame size: the last input's offset plus its size, or two pointers for a method
      whose only inputs are the receiver and the selector. */
  function TotalFrameSize(inputs: seq<TypeInfo>, ptr: PointerWidth): nat
    requires |inputs| >= 2
  {
    if |inputs| == 2 then 2 * ptr.Size()
    else FrameOffset(inputs, ptr, |inputs| - 1) + inputs[|inputs| - 1].size
  }

  /** Sum of the sizes of a run of types. */
  function SizeSum(ts: seq<TypeInfo>): nat
    decreases |ts|
  {
    if ts == [] then 0 else SizeSum(ts[..|ts| - 1]) + ts[|ts| - 1].size
  }

  /** `ARGS_1`: receiver code, its offset `0`, the selector's `:` and its offset, the one
      decimal digit of the pointer size; NUL-terminated when nothing follows. */
  function ArgsHead(isInstanceMethod: bool, ptr: PointerWidth, niladic: bool): seq<byte>
  {
    [ReceiverCode(isInstanceMethod), ZERO, COLON, ptr.Digit()] + (if niladic then [NUL] else [])
  }

  /** The bytes input `i >= 2` contributes: its encoding, then its offset in decimal, then the
      string's NUL terminator if it is the last input. */
  function ArgSegment(inputs: seq<TypeInfo>, ptr: PointerWidth, i: nat): seq<byte>
    requires 2 <= i < |inputs|
  {
    inputs[i].encoding + Decimal(FrameOffset(inputs, ptr, i))
      + (if i == |inputs| - 1 then [NUL] else [])
  }

  /** `ARGS_(k-1)`: the head followed by the segments of inputs 2 .. k-1. */
  function ArgsUpTo(inputs: seq<TypeInfo>, isInstanceMethod: bool, ptr: PointerWidth, k: nat): seq<byte>
    requires 2 <= k <= |inputs|
    decreases k
  {
    if k == 2 then ArgsHead(isInstanceMethod, ptr, |inputs| == 2)
    else ArgsUpTo(inputs, isInstanceMethod, ptr, k - 1) + ArgSegment(inputs, ptr, k - 1)
  }

  /** Return-type encoding: `v` when the signature declares no return type. */
  function ReturnEncoding(output: Option<TypeInfo>): seq<byte> {
    match output
    case None => [LOWER_V]
    case Some(t) => t.encoding
  }

  /** `METH_VAR_TYPE`: `RET` (the return encoding and the decimal total frame size) followed by
      the argument bytes. */
  function MethodTypeEncoding(sig: Signature, isInstanceMethod: bool, ptr: PointerWidth): (r: seq<byte>)
    requires |sig.inputs| >= 2
    ensures |r| >= |ReturnEncoding(sig.output)| + 6
    ensures r[..|ReturnEncoding(sig.output)|] == ReturnEncoding(sig.output)
    ensures r[|r| - 1] == NUL
  {
    ArgsUpToShape(sig.inputs, isInstanceMethod, ptr, |sig.inputs|);
    ReturnEncoding(sig.output) + Decimal(TotalFrameSize(sig.inputs, ptr))
      + ArgsUpTo(sig.inputs, isInstanceMethod, ptr, |sig.inputs|)
  }

  /** Builds the type string as the macro does: the argument bytes first (`EncodeArgs`), then
      the return part; also returns the length the static array is declared with
      (`RET_LEN + prev_args_len`). */
  method EncodeMethodType(sig: Signature, isInstanceMethod: bool, ptr: PointerWidth)
    returns (types: seq<byte>, typesLen: nat)
    requires |sig.inputs| >= 2
    ensures types == MethodTypeEncoding(sig, isInstanceMethod, ptr)
    ensures typesLen == |types|
  {
    var prevArgs, prevArgsLen, totalFrameSize := EncodeArgs(sig.inputs, isInstanceMethod, ptr);
    var encoded: seq<byte>;
    var encodedLen: nat;
    if sig.output.None? {
      encoded, encodedLen := [LOWER_V], 1;
    } else {
      encoded, encodedLen := sig.output.value.encoding, |sig.output.value.encoding|;
    }
    assert encoded == ReturnEncoding(sig.output) && encodedLen == |encoded|;
    var totalStr: seq<byte> := Decimal(totalFrameSize);
    var retLen := encodedLen + |totalStr|;
    var ret: seq<byte> := encoded + totalStr;
    types := ret + prevArgs;
    typesLen := retLen + prevArgsLen;
  }

  /** The argument bytes, built step by step as the macro does, carrying the previous argument
      bytes, their length, the previous frame offset and the total frame size. */
  method EncodeArgs(inputs: seq<TypeInfo>, isInstanceMethod: bool, ptr: PointerWidth)
    returns (prevArgs: seq<byte>, prevArgsLen: nat, totalFrameSize: nat)
    requires |inputs| >= 2
    ensures prevArgs == ArgsUpTo(inputs, isInstanceMethod, ptr, |inputs|)
    ensures prevArgsLen == |prevArgs|
    ensures totalFrameSize == TotalFrameSize(inputs, ptr)
  {
    var arg0: byte := if isInstanceMethod then AT else HASH;
    var lastInputIndex := |inputs| - 1;
    if lastInputIndex == 1 {
      prevArgsLen := 5;
      prevArgs := [arg0, ZERO, COLON, ptr.Digit(), NUL];
    } else {
      prevArgsLen := 4;
      prevArgs := [arg0, ZERO, COLON, ptr.Digit()];
    }
    assert prevArgs == ArgsUpTo(inputs, isInstanceMethod, ptr, 2);
    var prevFrameOffset: nat := 0;
    totalFrameSize := ptr.Size() * 2;
    var i := 2;
    while i < |inputs|
      invariant 2 <= i <= |inputs|
      invariant prevArgs == ArgsUpTo(inputs, isInstanceMethod, ptr, i)
      invariant prevArgsLen == |prevArgs|
      invariant i > 2 ==> prevFrameOffset == FrameOffset(inputs, ptr, i - 1)
      invariant i < |inputs| ==> totalFrameSize == 2 * ptr.Size()
      invariant i == |inputs| ==> totalFrameSize == TotalFrameSize(inputs, ptr)
    {
      var segment, segmentLen, value := EncodeArg(inputs, ptr, i, prevFrameOffset);
      var args: seq<byte> := prevArgs + segment;
      var argsLen := prevArgsLen + segmentLen;
      prevArgs, prevArgsLen, prevFrameOffset := args, argsLen, value;
      if i == lastInputIndex {
        totalFrameSize := prevFrameOffset + inputs[i].size;
      }
      i := i + 1;
    }
  }

  /** One step of the loop: the frame offset of input `i` (from the previous input's offset and
      size) and the bytes input `i` contributes, with their length. */
  method EncodeArg(inputs: seq<TypeInfo>, ptr: PointerWidth, i: nat, prevFrameOffset: nat)
    returns (segment: seq<byte>, segmentLen: nat, value: nat)
    requires 2 <= i < |inputs|
    requires i > 2 ==> prevFrameOffset == FrameOffset(inputs, ptr, i - 1)
    ensures value == FrameOffset(inputs, ptr, i)
    ensures segment == ArgSegment(inputs, ptr, i)
    ensures segmentLen == |segment|
  {
    value := if i == 2 then ptr.Size() * 2 else prevFrameOffset + inputs[i - 1].size;
    var addNulTerminator := if i == |inputs| - 1 then 1 else 0;
    var encodedLen := |inputs[i].encoding| + addNulTerminator;
    var str: seq<byte> := Decimal(value);
    segmentLen := encodedLen + |str|;
    segment := inputs[i].encoding + str + (if i == |inputs| - 1 then [NUL] else []);
  }

  /** A method with only a receiver and a selector: the argument part is exactly the five bytes
      `[kind, '0', ':', '0' + pointer size, NUL]` and the frame is two pointers. */
  lemma NiladicEncoding(sig: Signature, isInstanceMethod: bool, ptr: PointerWidth)
    requires |sig.inputs| == 2
    ensures TotalFrameSize(sig.inputs, ptr) == 2 * ptr.Size()
    ensures MethodTypeEncoding(sig, isInstanceMethod, ptr)
         == ReturnEncoding(sig.output) + Decimal(2 * ptr.Size())
            + [if isInstanceMethod then AT else HASH, ZERO, COLON, ptr.Digit(), NUL]
  {
  }

  /** Offsets are a running sum from two pointer widths: offset `i` is two pointer sizes plus the
      sizes of inputs 2 .. i-1. */
  lemma {:induction false} FrameOffsetIsRunningSum(inputs: seq<TypeInfo>, ptr: PointerWidth, i: nat)
    requires 2 <= i < |inputs|
    ensures FrameOffset(inputs, ptr, i) == 2 * ptr.Size() + SizeSum(inputs[2..i])
    decreases i
  {
    if i > 2 {
      FrameOffsetIsRunningSum(inputs, ptr, i - 1);
      assert inputs[2..i][..i - 3] == inputs[2..i - 1];
    }
  }

  /** The total frame size is two pointers plus the sizes of every argument after the selector. */
  lemma TotalFrameSizeIsSum(inputs: seq<TypeInfo>, ptr: PointerWidth)
    requires |inputs| >= 2
    ensures TotalFrameSize(inputs, ptr) == 2 * ptr.Size() + SizeSum(inputs[2..])
  {
    var n := |inputs|;
    if n > 2 {
      FrameOffsetIsRunningSum(inputs, ptr, n - 1);
      assert inputs[2..][..n - 3] == inputs[2..n - 1];
    }
  }

  /** The first extra argument sits at two pointer sizes; each later offset is the previous one plus
      the previous argument's size, so offsets never decrease, and they strictly increase when
      every argument has a positive size. */
  lemma {:induction false} FrameOffsetsOrdered(inputs: seq<TypeInfo>, ptr: PointerWidth, i: nat, j: nat)
    requires 2 <= i <= j < |inputs|
    ensures FrameOffset(inputs, ptr, 2) == 2 * ptr.Size()
    ensures i > 2 ==> FrameOffset(inputs, ptr, i) == FrameOffset(inputs, ptr, i - 1) + inputs[i - 1].size
    ensures FrameOffset(inputs, ptr, i) <= FrameOffset(inputs, ptr, j)
    ensures i < j && (forall k :: 2 <= k < |inputs| ==> inputs[k].size > 0)
            ==> FrameOffset(inputs, ptr, i) < FrameOffset(inputs, ptr, j)
    decreases j - i
  {
    if i < j {
      FrameOffsetsOrdered(inputs, ptr, i, j - 1);
    }
  }

  /** Sum of the lengths of the encodings and decimal offsets of inputs 2 .. k-1. */
  function SegmentsLength(inputs: seq<TypeInfo>, ptr: PointerWidth, k: nat): nat
    requires 2 <= k <= |inputs|
    decreases k
  {
    if k == 2 then 0
    else SegmentsLength(inputs, ptr, k - 1)
         + |inputs[k - 1].encoding| + |Decimal(FrameOffset(inputs, ptr, k - 1))|
  }

  lemma {:induction false} ArgsUpToShape(inputs: seq<TypeInfo>, isInstanceMethod: bool, ptr: PointerWidth, k: nat)
    requires 2 <= k <= |inputs|
    ensures |ArgsUpTo(inputs, isInstanceMethod, ptr, k)|
         == 4 + SegmentsLength(inputs, ptr, k) + (if k == |inputs| then 1 else 0)
    ensures ArgsUpTo(inputs, isInstanceMethod, ptr, k)[..4]
         == [ReceiverCode(isInstanceMethod), ZERO, COLON, ptr.Digit()]
    ensures k == |inputs| ==> ArgsUpTo(inputs, isInstanceMethod, ptr, k)[4 + SegmentsLength(inputs, ptr, k)] == NUL
    decreases k
  {
    if k > 2 {
      ArgsUpToShape(inputs, isInstanceMethod, ptr, k - 1);
    }
  }

  /** The type string's length is the sum of its parts: the return encoding, the decimal total
      frame size, the four head bytes, every argument's encoding and decimal offset, and one NUL. */
  lemma EncodingLength(sig: Signature, isInstanceMethod: bool, ptr: PointerWidth)
    requires |sig.inputs| >= 2
    ensures |MethodTypeEncoding(sig, isInstanceMethod, ptr)|
         == |ReturnEncoding(sig.output)| + |Decimal(TotalFrameSize(sig.inputs, ptr))|
            + 4 + SegmentsLength(sig.inputs, ptr, |sig.inputs|) + 1
  {
    ArgsUpToShape(sig.inputs, isInstanceMethod, ptr, |sig.inputs|);
  }

  /** The type string reads: return encoding, decimal total frame size, receiver code with
      offset 0, `:` with the pointer-size offset, ..., and ends in its single NUL terminator. */
  lemma EncodingLayout(sig: Signature, isInstanceMethod: bool, ptr: PointerWidth)
    requires |sig.inputs| >= 2
    ensures var s := MethodTypeEncoding(sig, isInstanceMethod, ptr);
            var r := |ReturnEncoding(sig.output)|;
            var d := |Decimal(TotalFrameSize(sig.inputs, ptr))|;
            && |s| >= r + d + 5
            && s[..r] == ReturnEncoding(sig.output)
            && s[r..r + d] == Decimal(TotalFrameSize(sig.inputs, ptr))
            && s[r + d..r + d + 4] == [ReceiverCode(isInstanceMethod), ZERO, COLON, ptr.Digit()]
            && s[|s| - 1] == NUL
  {
    var n := |sig.inputs|;
    ArgsUpToShape(sig.inputs, isInstanceMethod, ptr, n);
    var rd := ReturnEncoding(sig.output) + Decimal(TotalFrameSize(sig.inputs, ptr));
    var a := ArgsUpTo(sig.inputs, isInstanceMethod, ptr, n);
    var s := rd + a;
    assert s[|rd|..|rd| + 4] == a[..4];
    assert s[|s| - 1] == a[|a| - 1];
  }

  /** A root class's `bar:` taking one 4-byte `i` argument and returning nothing, on a 64-bit
      target, has the type string `v20@0:8i16` and its NUL. */
  lemma VoidIntMethodExample(receiver: TypeInfo, selector: TypeInfo)
    ensures MethodTypeEncoding(Signature([receiver, selector, TypeInfo([105], 4)], None), true, Bits64)
         == AsciiBytes("v20@0:8i16") + [NUL]
  {
    var inputs := [receiver, selector, TypeInfo([105], 4)];
    assert Decimal(20) == [50, 48];
    assert Decimal(16) == [49, 54];
    assert TotalFrameSize(inputs, Bits64) == 20;
    assert ArgsUpTo(inputs, true, Bits64, 3) == [AT, ZERO, COLON, 56] + [105] + [49, 54] + [NUL];
    assert AsciiBytes("v20@0:8i16") == [118, 50, 48, 64, 48, 58, 56, 105, 49, 54];
  }
}
