/** The immutable path updates of run-form.ts, on JavaScript values. */
module RunForm {
  import opened Numerals

  /** A value as the form holds it. A hole of an array reads as `Undefined`, and is one here. */
  datatype Value =
    | Undefined
    | Null
    | Bool(b: bool)
    | Num(r: real)
    | Str(s: string)
    | Arr(items: seq<Value>)
    | Obj(fields: map<string, Value>)

  datatype Segment = Index(i: nat) | Key(k: string)

  type Path = seq<Segment>

  /** `arr[i]` */
  function ItemAt(items: seq<Value>, i: nat): Value {
    if i < |items| then items[i] else Undefined
  }

  /** `arr[i] = v`: an index past the end lengthens the array. */
  function PutItem(items: seq<Value>, i: nat, v: Value): seq<Value> {
    if i < |items| then items[i := v]
    else items + seq(i - |items|, _ => Undefined) + [v]
  }

  function FieldAt(fields: map<string, Value>, k: string): Value {
    if k in fields then fields[k] else Undefined
  }

  function ItemsOf(v: Value): seq<Value> {
    if v.Arr? then v.items else []
  }

  function FieldsOf(v: Value): map<string, Value> {
    if v.Obj? then v.fields else map[]
  }

  /** `setIn`: a container of the wrong kind is replaced by an empty one. */
  function SetIn(root: Value, path: Path, value: Value): Value
    decreases |path|
  {
    if path == [] then value
    else match path[0]
      case Index(i) => Arr(PutItem(ItemsOf(root), i, SetIn(ItemAt(ItemsOf(root), i), path[1..], value)))
      case Key(k) => Obj(FieldsOf(root)[k := SetIn(FieldAt(FieldsOf(root), k), path[1..], value)])
  }

  /** Reading along a path. */
  function GetIn(root: Value, path: Path): Value
    decreases |path|
  {
    if path == [] then root
    else match path[0]
      case Index(i) => GetIn(ItemAt(ItemsOf(root), i), path[1..])
      case Key(k) => GetIn(FieldAt(FieldsOf(root), k), path[1..])
  }

  /** The path leads along existing items and fields. */
  predicate Present(root: Value, path: Path) {
    path == [] ||
    match path[0]
    case Index(i) => root.Arr? && i < |root.items| && Present(root.items[i], path[1..])
    case Key(k) => root.Obj? && k in root.fields && Present(root.fields[k], path[1..])
  }

  lemma PutReads(items: seq<Value>, i: nat, v: Value, j: nat)
    ensures ItemAt(PutItem(items, i, v), j) == if j == i then v else ItemAt(items, j)
  {
  }

  /** What was written is read back. */
  lemma {:induction false} GetAfterSet(root: Value, path: Path, value: Value)
    ensures GetIn(SetIn(root, path, value), path) == value
    decreases |path|
  {
    if path != [] {
      match path[0]
      case Index(i) =>
        GetAfterSet(ItemAt(ItemsOf(root), i), path[1..], value);
        PutReads(ItemsOf(root), i, SetIn(ItemAt(ItemsOf(root), i), path[1..], value), i);
      case Key(k) =>
        GetAfterSet(FieldAt(FieldsOf(root), k), path[1..], value);
    }
  }

  /** A write through a value of the wrong kind starts from an empty container of the right one. */
  lemma WrongKindIsReplaced(root: Value, path: Path, v: Value)
    requires path != [] && (if path[0].Index? then !root.Arr? else !root.Obj?)
    ensures SetIn(root, path, v) == SetIn(if path[0].Index? then Arr([]) else Obj(map[]), path, v)
  {
  }

  /** A write touches one entry of its container and no other: an array grows only up to it, with holes, an object
      by its name. */
  lemma WriteTouchesOneEntry(path: Path, v: Value, items: seq<Value>, fields: map<string, Value>)
    requires path != []
    ensures path[0].Index? ==>
      var i, out := path[0].i, SetIn(Arr(items), path, v);
      && out.Arr? && |out.items| == (if i < |items| then |items| else i + 1)
      && forall j :: 0 <= j < |out.items| && j != i ==> out.items[j] == if j < |items| then items[j] else Undefined
    ensures path[0].Key? ==>
      var k, out := path[0].k, SetIn(Obj(fields), path, v);
      && out.Obj? && out.fields.Keys == fields.Keys + {k}
      && forall l :: l in fields && l != k ==> out.fields[l] == fields[l]
  {
  }

  lemma PutTwice(items: seq<Value>, i: nat, v: Value, w: Value)
    ensures PutItem(PutItem(items, i, v), i, w) == PutItem(items, i, w)
  {
  }

  lemma SetThroughItem(root: Value, path: Path, v: Value)
    requires path != [] && path[0].Index?
    ensures var items, i := ItemsOf(root), path[0].i;
      SetIn(root, path, v) == Arr(PutItem(items, i, SetIn(ItemAt(items, i), path[1..], v)))
  {
  }

  lemma SetThroughField(root: Value, path: Path, v: Value)
    requires path != [] && path[0].Key?
    ensures var fields, k := FieldsOf(root), path[0].k;
      SetIn(root, path, v) == Obj(fields[k := SetIn(FieldAt(fields, k), path[1..], v)])
  {
  }

  /** Two writes through one item are one write of both. */
  lemma SetItemTwice(root: Value, p: Path, v: Value, q: Path, w: Value)
    requires p != [] && q != [] && p[0].Index? && p[0] == q[0]
    ensures var items, i := ItemsOf(root), p[0].i;
      SetIn(SetIn(root, p, v), q, w) == Arr(PutItem(items, i, SetIn(SetIn(ItemAt(items, i), p[1..], v), q[1..], w)))
  {
    hide SetIn, PutItem, ItemAt;
    var items, i := ItemsOf(root), p[0].i;
    var once := SetIn(ItemAt(items, i), p[1..], v);
    SetThroughItem(root, p, v);
    SetThroughItem(SetIn(root, p, v), q, w);
    PutReads(items, i, once, i);
    PutTwice(items, i, once, SetIn(once, q[1..], w));
  }

  /** Two writes through one field are one write of both. */
  lemma SetFieldTwice(root: Value, p: Path, v: Value, q: Path, w: Value)
    requires p != [] && q != [] && p[0].Key? && p[0] == q[0]
    ensures var fields, k := FieldsOf(root), p[0].k;
      SetIn(SetIn(root, p, v), q, w) == Obj(fields[k := SetIn(SetIn(FieldAt(fields, k), p[1..], v), q[1..], w)])
  {
    hide SetIn;
    var fields, k := FieldsOf(root), p[0].k;
    var once := SetIn(FieldAt(fields, k), p[1..], v);
    SetThroughField(root, p, v);
    SetThroughField(SetIn(root, p, v), q, w);
    assert fields[k := once][k := SetIn(once, q[1..], w)] == fields[k := SetIn(once, q[1..], w)];
  }

  /** A second write at the same path overrides the first. */
  lemma {:induction false} SetAfterSet(root: Value, path: Path, first: Value, second: Value)
    ensures SetIn(SetIn(root, path, first), path, second) == SetIn(root, path, second)
    decreases |path|, 1
  {
    if path != [] {
      SetDeeperTwice(root, path, first, second);
    }
  }

  lemma {:induction false} SetDeeperTwice(root: Value, path: Path, first: Value, second: Value)
    requires path != []
    ensures SetIn(SetIn(root, path, first), path, second) == SetIn(root, path, second)
    decreases |path|, 0
  {
    hide SetIn, PutItem, ItemAt;
    match path[0]
    case Index(i) =>
      SetAfterSet(ItemAt(ItemsOf(root), i), path[1..], first, second);
      SetItemTwice(root, path, first, path, second);
      SetThroughItem(root, path, second);
    case Key(k) =>
      SetAfterSet(FieldAt(FieldsOf(root), k), path[1..], first, second);
      SetFieldTwice(root, path, first, path, second);
      SetThroughField(root, path, second);
  }

  /** Writing back what a path holds changes nothing exactly when the path is present. */
  lemma {:induction false} WritingBackIffPresent(root: Value, path: Path)
    ensures SetIn(root, path, GetIn(root, path)) == root <==> Present(root, path)
    decreases |path|
  {
    if path != [] {
      match path[0]
      case Index(i) =>
        var item := ItemAt(ItemsOf(root), i);
        WritingBackIffPresent(item, path[1..]);
        PutReads(ItemsOf(root), i, SetIn(item, path[1..], GetIn(root, path)), i);
      case Key(k) =>
        WritingBackIffPresent(FieldAt(FieldsOf(root), k), path[1..]);
    }
  }

  /** The paths part at their segment number `n`. */
  predicate PartAt(p: Path, q: Path, n: nat) {
    n < |p| && n < |q| && p[..n] == q[..n] && p[n] != q[n]
  }

  lemma PutsCommute(items: seq<Value>, i: nat, v: Value, j: nat, w: Value)
    requires i != j
    ensures PutItem(PutItem(items, i, v), j, w) == PutItem(PutItem(items, j, w), i, v)
  {
    var a, b := PutItem(PutItem(items, i, v), j, w), PutItem(PutItem(items, j, w), i, v);
    forall n | 0 <= n < |a| && n < |b| ensures a[n] == b[n] {
      PutReads(PutItem(items, i, v), j, w, n);
      PutReads(PutItem(items, j, w), i, v, n);
      PutReads(items, i, v, n);
      PutReads(items, j, w, n);
    }
  }

  lemma SamePrefix(p: Path, q: Path, n: nat)
    requires PartAt(p, q, n) && n > 0
    ensures p[0] == q[0] && PartAt(p[1..], q[1..], n - 1) && p[1..][n - 1] == p[n] && q[1..][n - 1] == q[n]
  {
    assert p[..n][0] == q[..n][0];
    assert p[1..][..n - 1] == p[..n][1..] && q[1..][..n - 1] == q[..n][1..];
  }

  /** Writes at diverging paths commute exactly when the segments they part at are of one kind: otherwise the
      later write replaces the container of the earlier. */
  lemma {:induction false} WritesCommuteIffSameKind(root: Value, p: Path, v: Value, q: Path, w: Value, n: nat)
    requires PartAt(p, q, n)
    ensures SetIn(SetIn(root, p, v), q, w) == SetIn(SetIn(root, q, w), p, v) <==> p[n].Index? == q[n].Index?
    decreases n
  {
    hide SetIn, PutItem, ItemAt;
    if n > 0 {
      SamePrefix(p, q, n);
      match p[0]
      case Index(i) =>
        var items := ItemsOf(root);
        var item := ItemAt(items, i);
        WritesCommuteIffSameKind(item, p[1..], v, q[1..], w, n - 1);
        SetItemTwice(root, p, v, q, w);
        SetItemTwice(root, q, w, p, v);
        var a, b := SetIn(SetIn(item, p[1..], v), q[1..], w), SetIn(SetIn(item, q[1..], w), p[1..], v);
        PutReads(items, i, a, i);
        PutReads(items, i, b, i);
      case Key(k) =>
        var fields := FieldsOf(root);
        var field := FieldAt(fields, k);
        WritesCommuteIffSameKind(field, p[1..], v, q[1..], w, n - 1);
        SetFieldTwice(root, p, v, q, w);
        SetFieldTwice(root, q, w, p, v);
        var a, b := SetIn(SetIn(field, p[1..], v), q[1..], w), SetIn(SetIn(field, q[1..], w), p[1..], v);
        assert fields[k := a][k] == a && fields[k := b][k] == b;
    } else {
      SiblingWrites(root, p, v, q, w);
    }
  }

  lemma SiblingWrites(root: Value, p: Path, v: Value, q: Path, w: Value)
    requires p != [] && q != [] && p[0] != q[0]
    ensures SetIn(SetIn(root, p, v), q, w) == SetIn(SetIn(root, q, w), p, v) <==> p[0].Index? == q[0].Index?
  {
    hide SetIn, PutItem, ItemAt;
    if p[0].Index? && q[0].Index? {
      SiblingItems(root, p, v, q, w);
    } else if p[0].Key? && q[0].Key? {
      SiblingFields(root, p, v, q, w);
    } else {
      LastWriteDecides(SetIn(root, p, v), q, w);
      LastWriteDecides(SetIn(root, q, w), p, v);
    }
  }

  lemma LastWriteDecides(root: Value, path: Path, v: Value)
    requires path != []
    ensures SetIn(root, path, v).Arr? == path[0].Index?
  {
  }

  lemma SiblingItems(root: Value, p: Path, v: Value, q: Path, w: Value)
    requires p != [] && q != [] && p[0].Index? && q[0].Index? && p[0] != q[0]
    ensures SetIn(SetIn(root, p, v), q, w) == SetIn(SetIn(root, q, w), p, v)
  {
    hide SetIn, PutItem, ItemAt;
    var items, i, j := ItemsOf(root), p[0].i, q[0].i;
    SetThroughItem(root, p, v);
    SetThroughItem(root, q, w);
    SetThroughItem(SetIn(root, p, v), q, w);
    SetThroughItem(SetIn(root, q, w), p, v);
    var a, b := SetIn(ItemAt(items, i), p[1..], v), SetIn(ItemAt(items, j), q[1..], w);
    PutReads(items, i, a, j);
    PutReads(items, j, b, i);
    PutsCommute(items, i, a, j, b);
  }

  lemma SiblingFields(root: Value, p: Path, v: Value, q: Path, w: Value)
    requires p != [] && q != [] && p[0].Key? && q[0].Key? && p[0] != q[0]
    ensures SetIn(SetIn(root, p, v), q, w) == SetIn(SetIn(root, q, w), p, v)
  {
    hide SetIn;
    var fields, k, l := FieldsOf(root), p[0].k, q[0].k;
    SetThroughField(root, p, v);
    SetThroughField(root, q, w);
    SetThroughField(SetIn(root, p, v), q, w);
    SetThroughField(SetIn(root, q, w), p, v);
    var a, b := SetIn(FieldAt(fields, k), p[1..], v), SetIn(FieldAt(fields, l), q[1..], w);
    assert fields[k := a][l := b] == fields[l := b][k := a];
  }

  /** A write is not seen at a path that parts from it at a segment of the same kind. */
  lemma {:induction false} WriteIsLocal(root: Value, p: Path, v: Value, q: Path, n: nat)
    requires PartAt(p, q, n) && p[n].Index? == q[n].Index?
    ensures GetIn(SetIn(root, p, v), q) == GetIn(root, q)
    decreases n
  {
    hide SetIn, PutItem, ItemAt;
    if n > 0 {
      SamePrefix(p, q, n);
    }
    if p[0].Index? {
      var items, i := ItemsOf(root), p[0].i;
      SetThroughItem(root, p, v);
      PutReads(items, i, SetIn(ItemAt(items, i), p[1..], v), q[0].i);
      if n > 0 {
        WriteIsLocal(ItemAt(items, i), p[1..], v, q[1..], n - 1);
      }
    } else {
      var fields, k := FieldsOf(root), p[0].k;
      SetThroughField(root, p, v);
      if n > 0 {
        WriteIsLocal(FieldAt(fields, k), p[1..], v, q[1..], n - 1);
      }
    }
  }

  /** The property name a segment is used as on an object. */
  function NameOf(s: Segment): string {
    match s
    case Index(i) => Decimal(i)
    case Key(k) => k
  }

  /** A number used on an object is the name that spells it: two numbers are two names. */
  lemma IndicesAreNames(i: nat, j: nat)
    ensures NameOf(Index(i)) == Decimal(i) == NameOf(Key(Decimal(i)))
    ensures NameOf(Index(i)) == NameOf(Index(j)) ==> i == j
  {
    DecimalReadsBack(i);
    DecimalReadsBack(j);
  }

  /** `{ ...value }` */
  function Spread(v: Value): map<string, Value> {
    match v
    case Obj(fields) => fields
    case Arr(items) => map k | k in (set i | 0 <= i < |items| :: Decimal(i)) && ValueOf(k) < |items| ::
      items[ValueOf(k)]
    case _ => map[]
  }

  /** `removeAt` */
  function RemoveAt(root: Value, path: Path): Value
    decreases |path|
  {
    if path == [] then root
    else if |path| == 1 then
      if path[0].Index? && root.Arr? then
        var i := path[0].i;
        if i < |root.items| then Arr(root.items[..i] + root.items[i + 1..]) else root
      else if root.Obj? then Obj(root.fields - {NameOf(path[0])})
      else root
    else if path[0].Index? && root.Arr? then
      Arr(PutItem(root.items, path[0].i, RemoveAt(ItemAt(root.items, path[0].i), path[1..])))
    else if root.Obj? || root.Arr? then
      Obj(Spread(root)[NameOf(path[0]) := RemoveAt(FieldAt(Spread(root), NameOf(path[0])), path[1..])])
    else root
  }

  /** The path leads to a container whose next free place it names: a new key, or the end of an array. */
  predicate Free(root: Value, path: Path)
    requires path != []
  {
    match path[0]
    case Index(i) =>
      root.Arr? && (if |path| == 1 then i == |root.items| else i < |root.items| && Free(root.items[i], path[1..]))
    case Key(k) =>
      root.Obj? && (if |path| == 1 then k !in root.fields else k in root.fields && Free(root.fields[k], path[1..]))
  }

  lemma {:induction false} RemovalUndoesAWriteIffFree(root: Value, path: Path, v: Value)
    requires path != []
    ensures RemoveAt(SetIn(root, path, v), path) == root <==> Free(root, path)
    decreases |path|, 1
  {
    hide SetIn, RemoveAt, Free, PutItem;
    if |path| == 1 {
      RemovalAtTheEnd(root, path, v);
    } else if path[0].Index? {
      RemovalBelowItem(root, path, v);
    } else {
      RemovalBelowField(root, path, v);
    }
  }

  lemma RemovalAtTheEnd(root: Value, path: Path, v: Value)
    requires |path| == 1
    ensures RemoveAt(SetIn(root, path, v), path) == root <==> Free(root, path)
  {
    hide SetIn;
    if path[0].Index? {
      SetThroughItem(root, path, v);
      RemovedItem(ItemsOf(root), path[0].i, SetIn(ItemAt(ItemsOf(root), path[0].i), path[1..], v));
    } else {
      SetThroughField(root, path, v);
      RemovedField(FieldsOf(root), path[0].k, SetIn(FieldAt(FieldsOf(root), path[0].k), path[1..], v));
    }
  }

  lemma RemovedField(fields: map<string, Value>, k: string, v: Value)
    ensures fields[k := v] - {k} == fields <==> k !in fields
  {
  }

  lemma {:induction false} RemovalBelowItem(root: Value, path: Path, v: Value)
    requires |path| > 1 && path[0].Index?
    ensures RemoveAt(SetIn(root, path, v), path) == root <==> Free(root, path)
    decreases |path|, 0
  {
    hide SetIn, PutItem, ItemAt;
    var items, i := ItemsOf(root), path[0].i;
    var item := ItemAt(items, i);
    var written := SetIn(item, path[1..], v);
    SetThroughItem(root, path, v);
    RemovalUndoesAWriteIffFree(item, path[1..], v);
    PutReads(items, i, written, i);
    PutTwice(items, i, written, RemoveAt(written, path[1..]));
    PutBack(items, i, RemoveAt(written, path[1..]));
  }

  lemma PutBack(items: seq<Value>, i: nat, v: Value)
    ensures PutItem(items, i, v) == items <==> i < |items| && items[i] == v
    ensures i < |items| ==> ItemAt(items, i) == items[i]
  {
  }

  lemma {:induction false} RemovalBelowField(root: Value, path: Path, v: Value)
    requires |path| > 1 && path[0].Key?
    ensures RemoveAt(SetIn(root, path, v), path) == root <==> Free(root, path)
    decreases |path|, 0
  {
    hide SetIn;
    var fields, k := FieldsOf(root), path[0].k;
    var field := FieldAt(fields, k);
    var written := SetIn(field, path[1..], v);
    SetThroughField(root, path, v);
    RemovalUndoesAWriteIffFree(field, path[1..], v);
    assert fields[k := written][k := RemoveAt(written, path[1..])] == fields[k := RemoveAt(written, path[1..])];
    assert fields[k := RemoveAt(written, path[1..])][k] == RemoveAt(written, path[1..]);
  }

  lemma RemovedItem(items: seq<Value>, i: nat, v: Value)
    ensures var put := PutItem(items, i, v); i < |put| && (put[..i] + put[i + 1..] == items <==> i == |items|)
  {
  }

  /** Removing an item moves the items behind it one place forward and keeps the rest. */
  lemma {:induction false} RemovalShifts(root: Value, path: Path, i: nat, j: nat)
    requires Present(root, path + [Index(i)])
    ensures GetIn(RemoveAt(root, path + [Index(i)]), path + [Index(j)]) ==
      GetIn(root, path + [Index(if j < i then j else j + 1)])
    decreases |path|
  {
    var at, read, was := path + [Index(i)], path + [Index(j)], path + [Index(if j < i then j else j + 1)];
    if path != [] {
      assert at[1..] == path[1..] + [Index(i)] && read[1..] == path[1..] + [Index(j)];
      assert was[1..] == path[1..] + [Index(if j < i then j else j + 1)];
      match path[0]
      case Index(n) =>
        RemovalShifts(root.items[n], path[1..], i, j);
        PutReads(root.items, n, RemoveAt(root.items[n], at[1..]), n);
      case Key(k) =>
        RemovalShifts(root.fields[k], path[1..], i, j);
    }
  }

  /** A removed key reads as undefined, and the other keys beside it keep their values. */
  lemma {:induction false} RemovalOfKey(root: Value, path: Path, k: string, l: string)
    requires Present(root, path + [Key(k)])
    ensures GetIn(RemoveAt(root, path + [Key(k)]), path + [Key(l)]) ==
      if l == k then Undefined else GetIn(root, path + [Key(l)])
    decreases |path|
  {
    var at, read := path + [Key(k)], path + [Key(l)];
    if path != [] {
      assert at[1..] == path[1..] + [Key(k)] && read[1..] == path[1..] + [Key(l)];
      match path[0]
      case Index(n) =>
        RemovalOfKey(root.items[n], path[1..], k, l);
        PutReads(root.items, n, RemoveAt(root.items[n], at[1..]), n);
      case Key(f) =>
        RemovalOfKey(root.fields[f], path[1..], k, l);
    }
  }

  lemma SpreadReads(items: seq<Value>, i: nat)
    requires i < |items|
    ensures Decimal(i) in Spread(Arr(items)) && Spread(Arr(items))[Decimal(i)] == items[i]
  {
    DecimalReadsBack(i);
  }

  /** A path along which there is nothing to remove: it ends at an index past the end or at an absent name, or it
      meets a value without parts, or a present part holds nothing to remove. */
  predicate NothingToRemove(root: Value, path: Path) {
    if path == [] then true
    else if path[0].Index? && root.Arr? then
      if |path| == 1 then path[0].i >= |root.items|
      else path[0].i < |root.items| && NothingToRemove(root.items[path[0].i], path[1..])
    else if root.Obj? then
      if |path| == 1 then NameOf(path[0]) !in root.fields
      else NameOf(path[0]) in root.fields && NothingToRemove(root.fields[NameOf(path[0])], path[1..])
    else |path| == 1 || !root.Arr?
  }

  /** Removal leaves a value as it is exactly when there is nothing to remove; so along other absent paths it
      changes the value. */
  lemma {:induction false} RemovalChangesNothingIff(root: Value, path: Path)
    ensures RemoveAt(root, path) == root <==> NothingToRemove(root, path)
    decreases |path|
  {
    if |path| == 1 {
      if path[0].Index? && root.Arr? && path[0].i < |root.items| {
        assert |RemoveAt(root, path).items| < |root.items|;
      } else if root.Obj? {
        assert NameOf(path[0]) !in root.fields ==> root.fields - {NameOf(path[0])} == root.fields;
      }
    } else if |path| > 1 {
      if path[0].Index? && root.Arr? {
        var item := ItemAt(root.items, path[0].i);
        RemovalChangesNothingIff(item, path[1..]);
        PutBack(root.items, path[0].i, RemoveAt(item, path[1..]));
      } else if root.Obj? {
        var name := NameOf(path[0]);
        var field := FieldAt(root.fields, name);
        RemovalChangesNothingIff(field, path[1..]);
        assert root.fields[name := RemoveAt(field, path[1..])][name] == RemoveAt(field, path[1..]);
      }
    }
  }

  /** Below an absent item removal lengthens the array. */
  lemma AbsentRemovalLengthens(items: seq<Value>, i: nat, path: Path)
    requires i >= |items| && path != []
    ensures RemoveAt(Arr(items), [Index(i)] + path).Arr? && |RemoveAt(Arr(items), [Index(i)] + path).items| == i + 1
  {
  }

  /** Below a name of an array removal turns the array into an object that holds its items under their indices. */
  lemma RemovalBelowNameMakesAnObject(items: seq<Value>, k: string, path: Path, i: nat)
    requires i < |items| && path != []
    ensures var out := RemoveAt(Arr(items), [Key(k)] + path);
      && out.Obj? && Decimal(i) in out.fields
      && out.fields[Decimal(i)] == if Decimal(i) == k then RemoveAt(items[i], path) else items[i]
  {
    SpreadReads(items, i);
    assert ([Key(k)] + path)[1..] == path;
  }
}
