/** Marshalling arguments for a by-name call: one heap value per argument, owned by an
    element of a vector that may move its elements whenever it grows. */
module ArgOwnership {
  import opened Options

  /** QMetaType, as far as the two type tables tell its members apart. */
  datatype MetaType =
    | Void | Bool | Int | UInt | Short | UShort | Long | ULong | LongLong | ULongLong | Double | Float
    | QString | QByteArray | QStringList | QVariantList | QVariantMap | QJsonArray | QJsonObject
    | QUrl | Any | LogosResult | Other(id: nat)

  /** A QVariant: its type, and a value of that type. */
  datatype Value = Value(kind: MetaType, content: int)

  /** The types the argument codec has a rule for. */
  predicate Decodes(t: MetaType) {
    t in {Bool, Int, UInt, Short, UShort, Long, ULong, LongLong, ULongLong, Double, Float,
          QString, QByteArray, QStringList, QVariantList, QVariantMap, QJsonArray, QJsonObject}
  }

  /** The type of the heap copy that carries an argument. */
  function MarshalledType(t: MetaType): MetaType {
    match t
    case Int => Int
    case LongLong => LongLong
    case ULongLong => ULongLong
    case QVariantList => QVariantList
    case QVariantMap => QVariantMap
    case QStringList => QStringList
    case QByteArray => QByteArray
    case QUrl => QUrl
    case Bool => Bool
    case Double => Double
    case Float => Float
    case _ => QString
  }

  /** The eleven types both tables know. */
  const BOTH: set<MetaType> :=
    {Bool, Int, LongLong, ULongLong, Double, Float, QString, QByteArray, QStringList, QVariantList, QVariantMap}

  /** The types the codec decodes are those eleven and seven more. Of the decoded types exactly
      the eleven travel as themselves; the others travel as a QString. And QUrl alone travels
      as itself without being decoded. */
  lemma TypeTablesAgreeIff(t: MetaType)
    ensures |BOTH| == 11
    ensures Decodes(t) <==> t in BOTH || t in {UInt, Short, UShort, Long, ULong, QJsonArray, QJsonObject}
    ensures Decodes(t) ==> (MarshalledType(t) == t <==> t in BOTH)
    ensures MarshalledType(t) == t <==> t in BOTH || t == QUrl
    ensures t !in BOTH && t != QUrl ==> MarshalledType(t) == QString
  {
  }

  // ---------------------------------------------------------------------------
  // Heap values and their owners
  // ---------------------------------------------------------------------------

  /** A heap value, and the types of the deletes it has seen. */
  datatype Cell = Cell(value: Value, deletes: seq<MetaType>)

  class Heap {
    var cells: seq<Cell>

    constructor ()
      ensures cells == []
    {
      cells := [];
    }

    /** new T(...) */
    method New(value: Value) returns (p: nat)
      modifies this
      ensures p == |old(cells)| && cells == old(cells) + [Cell(value, [])]
    {
      p := |cells|;
      cells := cells + [Cell(value, [])];
    }

    /** delete of a T*: whatever is there, as often as it is asked */
    method Delete(p: nat, t: MetaType)
      requires p < |cells|
      modifies this
      ensures cells == old(cells)[p := old(cells)[p].(deletes := old(cells)[p].deletes + [t])]
    {
      cells := cells[p := cells[p].(deletes := cells[p].deletes + [t])];
    }
  }

  /** A ScopedQArg: where its value is, and the deleter it will run, unless moved from. */
  datatype Scoped = Scoped(data: nat, deleter: Option<MetaType>)

  /** ~ScopedQArg of one element */
  method Destroy(heap: Heap, s: Scoped)
    requires s.deleter.Some? ==> s.data < |heap.cells|
    modifies heap
    ensures |heap.cells| == |old(heap.cells)|
    ensures s.deleter.None? ==> heap.cells == old(heap.cells)
    ensures s.deleter.Some? ==>
              var was := old(heap.cells)[s.data];
              heap.cells == old(heap.cells)[s.data := was.(deletes := was.deletes + [s.deleter.value])]
  {
    if s.deleter.Some? {
      heap.Delete(s.data, s.deleter.value);
    }
  }

  /** Element k owns the k-th value after base, with its own type's deleter, and nobody has
      deleted it yet. */
  ghost predicate Owns(elements: seq<Scoped>, cells: seq<Cell>, base: nat) {
    && base + |elements| == |cells|
    && (forall k :: 0 <= k < |elements| ==> elements[k] == Scoped(base + k, Some(cells[base + k].value.kind)))
    && (forall p :: base <= p < |cells| ==> cells[p].deletes == [])
  }

  /** The vector reallocates: every element is move-constructed into the new buffer, which
      leaves the old one without a deleter, and then the old buffer's elements are destroyed. */
  method Reallocate(heap: Heap, buffer: seq<Scoped>) returns (moved: seq<Scoped>)
    requires forall k :: 0 <= k < |buffer| ==> buffer[k].data < |heap.cells|
    modifies heap
    ensures moved == buffer && heap.cells == old(heap.cells)
  {
    moved := [];
    var left := buffer;
    var i := 0;
    while i < |buffer|
      invariant 0 <= i <= |buffer| == |left| && moved == buffer[..i] && heap.cells == old(heap.cells)
      invariant forall k :: 0 <= k < i ==> left[k] == Scoped(buffer[k].data, None)
      invariant forall k :: i <= k < |buffer| ==> left[k] == buffer[k]
    {
      moved := moved + [left[i]];
      left := left[i := left[i].(deleter := None)];
      i := i + 1;
    }
    i := 0;
    while i < |left|
      invariant 0 <= i <= |left| && heap.cells == old(heap.cells)
    {
      Destroy(heap, left[i]);
      i := i + 1;
    }
  }

  /** The copy an argument is marshalled as, through QVariant's conversion when its type has
      no case of its own. */
  function Marshalled(v: Value, text: Value -> int): (m: Value)
    ensures m.kind == MarshalledType(v.kind)
    ensures MarshalledType(v.kind) == v.kind ==> m == v
    ensures MarshalledType(v.kind) != v.kind ==> m == Value(QString, text(v))
  {
    if MarshalledType(v.kind) == v.kind then v else Value(QString, text(v))
  }

  /** toScopedQArgs: grows says at which pushes the vector reallocates. */
  method ToScopedQArgs(heap: Heap, args: seq<Value>, text: Value -> int, grows: nat -> bool)
    returns (scoped: seq<Scoped>)
    modifies heap
    ensures old(heap.cells) <= heap.cells && |scoped| == |args| && Owns(scoped, heap.cells, |old(heap.cells)|)
    ensures forall k :: 0 <= k < |args| ==> heap.cells[scoped[k].data].value == Marshalled(args[k], text)
  {
    scoped := [];
    var i := 0;
    while i < |args|
      invariant 0 <= i <= |args| && |scoped| == i
      invariant old(heap.cells) <= heap.cells && Owns(scoped, heap.cells, |old(heap.cells)|)
      invariant forall k :: 0 <= k < i ==> heap.cells[scoped[k].data].value == Marshalled(args[k], text)
    {
      var value := Marshalled(args[i], text);
      var p := heap.New(value);
      if grows(i) {
        scoped := Reallocate(heap, scoped);
      }
      scoped := scoped + [Scoped(p, Some(value.kind))];
      i := i + 1;
    }
  }

  // ---------------------------------------------------------------------------
  // The call
  // ---------------------------------------------------------------------------

  /** QMetaObject::invokeMethod: a call by name that may find nothing. */
  type Invocation = (string, seq<Value>) -> Option<Value>

  function Values(scoped: seq<Scoped>, cells: seq<Cell>): seq<Value>
    requires forall k :: 0 <= k < |scoped| ==> scoped[k].data < |cells|
  {
    seq(|scoped|, k requires 0 <= k < |scoped| => cells[scoped[k].data].value)
  }

  function AllMarshalled(args: seq<Value>, text: Value -> int): seq<Value> {
    seq(|args|, k requires 0 <= k < |args| => Marshalled(args[k], text))
  }

  const MAX_ARGS := 5

  /** A call by name takes up to five arguments; it can return eight of the
      types both tables know, three others, and nothing at all. */
  lemma LimitsOfACall(t: MetaType)
    ensures MAX_ARGS == 5
    ensures Returnable(t) && t in BOTH <==>
              t in {Bool, Int, Double, Float, QString, QStringList, QVariantList, QVariantMap}
    ensures Returnable(t) && t !in BOTH <==> t in {Void, LogosResult, Any, QJsonArray}
  {
  }

  predicate Returnable(t: MetaType) {
    t in {Void, Bool, Int, Double, Float, QString, LogosResult, Any, QJsonArray, QVariantList, QVariantMap, QStringList}
  }

  /** invokeMethodByArgCount. The method body runs, if at all, on the marshalled arguments
      while every one of them is alive; afterwards each has been deleted once, by its own
      type's deleter, however the vector grew and whichever way the call ended. */
  method InvokeMethodByArgCount(heap: Heap, call: Invocation, name: string, args: seq<Value>, wanted: MetaType,
                                text: Value -> int, grows: nat -> bool)
    returns (tried: bool, result: Option<Value>, ghost during: seq<Cell>)
    modifies heap
    ensures tried <==> |args| <= MAX_ARGS && Returnable(wanted)
    ensures result == if tried then call(name, AllMarshalled(args, text)) else None
    ensures |during| == |heap.cells| == |old(heap.cells)| + |args|
    ensures old(heap.cells) <= during && old(heap.cells) <= heap.cells
    ensures forall k :: |old(heap.cells)| <= k < |during| ==>
              during[k].deletes == [] && heap.cells[k] == Cell(during[k].value, [during[k].value.kind])
  {
    var scoped := ToScopedQArgs(heap, args, text, grows);
    during := heap.cells;
    tried, result := false, None;
    if |args| <= MAX_ARGS && Returnable(wanted) {
      tried := true;
      var passed := Values(scoped, heap.cells);
      assert passed == AllMarshalled(args, text);
      result := call(name, passed);
    }
    ghost var base := |old(heap.cells)|;
    var i := 0;
    while i < |scoped|
      invariant 0 <= i <= |scoped| && |heap.cells| == |during| && old(heap.cells) <= heap.cells
      invariant forall j :: base <= j < base + i ==> heap.cells[j] == Cell(during[j].value, [during[j].value.kind])
      invariant forall j :: base + i <= j < |during| ==> heap.cells[j] == during[j]
    {
      assert scoped[i].data == base + i;
      Destroy(heap, scoped[i]);
      i := i + 1;
    }
  }
}
