/**
 * The JNA mapping of the native MyStruct: a Java object whose constructor copies the scalar
 * fields, allocates one native string block per bucket name and a block of pointers to
 * them, and writes the fields to native memory in the declared field order.
 *
 * Native memory is modelled by two kinds of block: a string block holding one C string and
 * a pointer block mapping byte offsets to string blocks. Strings take one byte per char.
 */
module MyStructMapping {
  import opened Wrappers
  import MyMath

  /** A `Memory` block holding a C string: its size in bytes and the string stored at offset 0. */
  class StringBlock {
    const size: int
    var text: string

    /** `new Memory(size)`, still empty. */
    constructor (size: int)
      requires size > 0
      ensures this.size == size && text == ""
    {
      this.size := size;
      text := "";
    }

    /** `setString(0, s)`: the string and its terminating NUL must fit the block. */
    method SetString(s: string)
      requires |s| + 1 <= size
      modifies this
      ensures text == s
    {
      text := s;
    }
  }

  /**
   * A `Memory` block of pointers: its size in bytes, the width of one pointer, and the block
   * each written slot points to, slot k being the pointer at byte offset k * pointerSize.
   */
  class PointerBlock {
    const size: int
    const pointerSize: int
    var slots: map<int, StringBlock>

    /** `new Memory(pointerSize * count)`, with no pointer written yet. */
    constructor (pointerSize: int, count: int)
      requires pointerSize > 0 && count > 0
      ensures size == pointerSize * count && this.pointerSize == pointerSize && slots == map[]
    {
      size := pointerSize * count;
      this.pointerSize := pointerSize;
      slots := map[];
    }

    /** `setPointer(offset, p)`: an aligned offset whose pointer lies inside the block. */
    method SetPointer(offset: int, p: StringBlock)
      requires pointerSize > 0 && 0 <= offset && offset + pointerSize <= size && offset % pointerSize == 0
      modifies this
      ensures slots == old(slots)[offset / pointerSize := p]
    {
      slots := slots[offset / pointerSize := p];
    }
  }

  /** A positive multiple of a positive width is at least that width. */
  lemma {:induction false} MultipleAtLeast(k: int, width: int)
    requires k >= 1 && width > 0
    ensures k * width >= width
    decreases k
  {
    if k > 1 {
      MultipleAtLeast(k - 1, width);
      assert k * width == (k - 1) * width + width;
    }
  }

  /** Pointer i sits at byte offset i * pointerSize: an aligned offset whose slot is i. */
  lemma OffsetSlot(i: nat, pointerSize: int)
    requires pointerSize > 0
    ensures (i * pointerSize) % pointerSize == 0 && (i * pointerSize) / pointerSize == i
  {
    var x := i * pointerSize;
    var m, r := x / pointerSize, x % pointerSize;
    assert x == pointerSize * m + r && 0 <= r < pointerSize;
    assert (i - m) * pointerSize == r;
    if i - m >= 1 {
      MultipleAtLeast(i - m, pointerSize);
      assert false;
    } else if m - i >= 1 {
      MultipleAtLeast(m - i, pointerSize);
      assert false;
    }
  }

  /** The first loop of the constructor: one fresh block of length + 1 bytes per name, holding that name. */
  method AllocateStrings(bucketNames: seq<string>, bucketSize: int) returns (blocks: seq<StringBlock>)
    requires 0 <= bucketSize <= |bucketNames|
    ensures |blocks| == bucketSize
    ensures forall j :: 0 <= j < bucketSize ==>
      fresh(blocks[j]) && blocks[j].size == |bucketNames[j]| + 1 && blocks[j].text == bucketNames[j]
  {
    blocks := [];
    var i := 0;
    while i < bucketSize
      invariant 0 <= i <= bucketSize && |blocks| == i
      invariant forall j :: 0 <= j < i ==>
        fresh(blocks[j]) && blocks[j].size == |bucketNames[j]| + 1 && blocks[j].text == bucketNames[j]
    {
      var block := new StringBlock(|bucketNames[i]| + 1);
      block.SetString(bucketNames[i]);
      blocks := blocks + [block];
      i := i + 1;
    }
  }

  /** The second loop of the constructor: a fresh pointer block whose pointer i addresses block i. */
  method FillPointers(blocks: seq<StringBlock>, pointerSize: int) returns (pointers: PointerBlock)
    requires |blocks| > 0 && pointerSize > 0
    ensures fresh(pointers) && pointers.size == pointerSize * |blocks| && pointers.pointerSize == pointerSize
    ensures pointers.slots == map j | 0 <= j < |blocks| :: blocks[j]
  {
    pointers := new PointerBlock(pointerSize, |blocks|);
    var i := 0;
    while i < |blocks|
      invariant 0 <= i <= |blocks| && fresh(pointers)
      invariant pointers.size == pointerSize * |blocks| && pointers.pointerSize == pointerSize
      invariant pointers.slots == map j | 0 <= j < i :: blocks[j]
    {
      OffsetSlot(i, pointerSize);
      assert (i + 1) * pointerSize <= |blocks| * pointerSize by {
        assert (|blocks| - (i + 1)) * pointerSize >= 0;
      }
      pointers.SetPointer(i * pointerSize, blocks[i]);
      i := i + 1;
    }
  }

  /** The fields of the Java class. */
  datatype Field = PositionNm | Bucket | BucketSize | Tenor | Value | Bsdt

  /** The Java declaration order. */
  const DeclaredFields: seq<Field> := [PositionNm, Bucket, BucketSize, Tenor, Value, Bsdt]

  /** The members of the native struct declared in MyMath.h, in order. */
  const NativeMembers: seq<Field> := [PositionNm, Bucket, BucketSize, Bsdt, Tenor, Value]

  /** A field's Java name, as getFieldOrder spells it. */
  function FieldName(f: Field): (name: string) {
    match f
    case PositionNm => "positionNm"
    case Bucket => "bucket"
    case BucketSize => "bucketSize"
    case Tenor => "tenor"
    case Value => "value"
    case Bsdt => "bsdt"
  }

  /** Different fields have different names. */
  lemma FieldNameInjective(f: Field, g: Field)
    requires FieldName(f) == FieldName(g)
    ensures f == g
  {
  }

  /** getFieldOrder: the names of the native struct's members, in the native order. */
  function GetFieldOrder(): (r: seq<string>)
    ensures |r| == |NativeMembers| && forall i :: 0 <= i < |r| ==> r[i] == FieldName(NativeMembers[i])
  {
    ["positionNm", "bucket", "bucketSize", "bsdt", "tenor", "value"]
  }

  /** Moving bsdt from the end to the fourth place keeps the same fields. */
  lemma MembersPermuted()
    ensures multiset(NativeMembers) == multiset(DeclaredFields)
  {
    var head, tail := [PositionNm, Bucket, BucketSize], [Tenor, Value];
    assert NativeMembers == head + [Bsdt] + tail;
    assert DeclaredFields == head + tail + [Bsdt];
    MoveToEnd(head, Bsdt, tail);
  }

  lemma MoveToEnd<T>(head: seq<T>, x: T, tail: seq<T>)
    ensures multiset(head + [x] + tail) == multiset(head + tail + [x])
  {
  }

  /**
   * The layout order names every Java field exactly once, but in the native order: bsdt moves
   * from last to fourth, so it is not the Java declaration order.
   */
  lemma FieldOrderIsPermutation()
    ensures multiset(NativeMembers) == multiset(DeclaredFields)
    ensures NativeMembers != DeclaredFields
    ensures forall f: Field :: FieldName(f) in GetFieldOrder()
  {
    MembersPermuted();
    assert NativeMembers[3] != DeclaredFields[3];
    forall f: Field
      ensures FieldName(f) in GetFieldOrder()
    {
      var k := match f
        case PositionNm => 0 case Bucket => 1 case BucketSize => 2 case Bsdt => 3 case Tenor => 4 case Value => 5;
      assert GetFieldOrder()[k] == FieldName(f);
    }
  }

  /** One field as `write()` stores it in native memory. */
  datatype FieldImage =
    | StringField(text: string)
    | PointerField(block: PointerBlock)
    | IntField(n: int)
    | DoubleField(x: real)

  class MyStruct {
    var positionNm: string
    var bucket: PointerBlock
    var bucketSize: int
    var tenor: int
    var value: real
    var bsdt: string
    /** The native copy of the fields, in the layout order, as the last `write()` left it. */
    var written: seq<FieldImage>

    /** The current value of one field. */
    function Image(f: Field): FieldImage
      reads this
    {
      match f
      case PositionNm => StringField(positionNm)
      case Bucket => PointerField(bucket)
      case BucketSize => IntField(bucketSize)
      case Tenor => IntField(tenor)
      case Value => DoubleField(value)
      case Bsdt => StringField(bsdt)
    }

    /** What `write()` stores: each field's value, at the field's position in the layout order. */
    function FieldImages(): (r: seq<FieldImage>)
      reads this
      ensures |r| == |NativeMembers| && forall i :: 0 <= i < |r| ==> r[i] == Image(NativeMembers[i])
    {
      seq(|NativeMembers|, i requires 0 <= i < |NativeMembers| reads this => Image(NativeMembers[i]))
    }

    /** `write()`: copies every field to native memory. */
    method Write()
      modifies this
      ensures written == FieldImages()
      ensures positionNm == old(positionNm) && bucket == old(bucket) && bucketSize == old(bucketSize)
      ensures tenor == old(tenor) && value == old(value) && bsdt == old(bsdt)
    {
      written := FieldImages();
    }

    /**
     * The constructor. The scalar fields are copied; bucket i gets a fresh block of
     * length + 1 bytes holding its name; the pointer block has pointerSize * bucketSize
     * bytes, the pointer at offset i * pointerSize addressing bucket i's block; then write().
     * Only the first bucketSize names are read. A bucketSize of 0 would ask JNA for an empty
     * block, which it refuses; see Create.
     */
    constructor (positionNm: string, bucketNames: seq<string>, bucketSize: int, bsdt: string, tenor: int, value: real,
                 pointerSize: int)
      requires 0 < bucketSize <= |bucketNames| && pointerSize > 0
      ensures this.positionNm == positionNm && this.bucketSize == bucketSize && this.bsdt == bsdt
      ensures this.tenor == tenor && this.value == value
      ensures fresh(bucket) && bucket.size == pointerSize * bucketSize && bucket.pointerSize == pointerSize
      ensures forall i :: i in bucket.slots <==> 0 <= i < bucketSize
      ensures forall i :: 0 <= i < bucketSize ==>
        fresh(bucket.slots[i]) && bucket.slots[i].size == |bucketNames[i]| + 1 && bucket.slots[i].text == bucketNames[i]
      ensures written == FieldImages()
    {
      var bucketPointers := AllocateStrings(bucketNames, bucketSize);
      var pointers := FillPointers(bucketPointers, pointerSize);
      this.positionNm := positionNm;
      this.bucketSize := bucketSize;
      this.bsdt := bsdt;
      this.tenor := tenor;
      this.value := value;
      this.bucket := pointers;
      this.written := [];
      new;
      Write();
    }

    /** The struct as the native side reads it: the name behind each of the first bucketSize pointers. */
    function NativeView(): (s: MyMath.NativeStruct)
      requires bucketSize >= 0 && forall i :: 0 <= i < bucketSize ==> i in bucket.slots
      reads this, bucket, bucket.slots.Values
      ensures |s.bucket| == bucketSize && s.bucketSize == bucketSize
    {
      MyMath.NativeStruct(positionNm,
        seq(bucketSize, i requires 0 <= i < bucketSize && i in bucket.slots reads this, bucket, bucket.slots.Values => bucket.slots[i].text),
        bucketSize, bsdt, tenor, value)
    }
  }

  /** The exceptions the Java constructor can throw on its bucket arguments. */
  datatype StructError =
    | NegativeArraySize
    | ArrayIndexOutOfBounds(index: int)
    | ZeroAllocation

  /** Which exception, if any, the constructor throws for a name array of nameCount entries. */
  function CreateError(nameCount: nat, bucketSize: int): (e: Option<StructError>)
    ensures e.None? <==> 0 < bucketSize <= nameCount
    ensures e == Some(ZeroAllocation) <==> bucketSize == 0
  {
    if bucketSize < 0 then Some(NegativeArraySize)
    else if bucketSize > nameCount then Some(ArrayIndexOutOfBounds(nameCount))
    else if bucketSize == 0 then Some(ZeroAllocation)
    else None
  }

  /**
   * `new MyStruct(...)` with its failures made values: a negative bucketSize fails at the
   * `new Pointer[bucketSize]`, a bucketSize past the name array fails at the first missing
   * name, and a bucketSize of 0 fails when JNA is asked for a pointer block of 0 bytes. A
   * struct that is built shows the native side exactly its first bucketSize names.
   */
  method Create(positionNm: string, bucketNames: seq<string>, bucketSize: int, bsdt: string, tenor: int, value: real,
                pointerSize: int)
    returns (r: Result<MyStruct, StructError>)
    requires pointerSize > 0
    ensures bucketSize < 0 ==> r == Failure(NegativeArraySize)
    ensures 0 <= bucketSize && bucketSize > |bucketNames| ==> r == Failure(ArrayIndexOutOfBounds(|bucketNames|))
    ensures bucketSize == 0 ==> r == Failure(ZeroAllocation)
    ensures r.Failure? <==> CreateError(|bucketNames|, bucketSize).Some?
    ensures r.Failure? ==> CreateError(|bucketNames|, bucketSize) == Some(r.error)
    ensures 0 < bucketSize <= |bucketNames| ==>
      && r.Success? && fresh(r.value)
      && r.value.bucketSize == bucketSize && r.value.bucket.size == pointerSize * bucketSize
      && r.value.written == r.value.FieldImages()
      && (forall i :: 0 <= i < bucketSize ==> i in r.value.bucket.slots)
      && r.value.NativeView() == MyMath.NativeStruct(positionNm, bucketNames[..bucketSize], bucketSize, bsdt, tenor, value)
  {
    if bucketSize < 0 {
      return Failure(NegativeArraySize);
    }
    if bucketSize > |bucketNames| {
      return Failure(ArrayIndexOutOfBounds(|bucketNames|));
    }
    if bucketSize == 0 {
      return Failure(ZeroAllocation);
    }
    var s := new MyStruct(positionNm, bucketNames, bucketSize, bsdt, tenor, value, pointerSize);
    assert s.NativeView().bucket == bucketNames[..bucketSize];
    return Success(s);
  }
}
