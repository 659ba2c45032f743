/**
 Python values to JSON and back (`python/src/json.rs`). A Python value is an object graph, shared
 and possibly cyclic; the conversion walks it with a depth bound and yields a tree.
 */
module ValueConversion {
  import opened Wrappers
  import opened OrderedMap

  const MAX_DEPTH: nat := 128
  const I64_MIN: int := -0x8000_0000_0000_0000
  const I64_MAX: int := 0x7FFF_FFFF_FFFF_FFFF
  const U64_MAX: int := 0xFFFF_FFFF_FFFF_FFFF

  // ----- Python objects -----

  type Ref = nat

  type Byte = n: nat | n < 256

  datatype Float = Finite(value: real) | Infinite(negative: bool) | NotANumber

  datatype PyObject =
    | PyNone
    | PyBool(b: bool)
    | PyInt(n: int)
    | PyFloat(f: Float)
    | PyStr(text: string)
    | PySurrogateStr // a `str` holding a lone surrogate, which has no UTF-8 form
    | PyBytes(bytes: seq<Byte>)
    | PyByteArray(bytes: seq<Byte>)
    | PyList(items: seq<Ref>)
    | PyDict(entries: seq<(Ref, Ref)>)
    | PyOther // an object of any other type

  type Heap = map<Ref, PyObject>

  /** Every reference an object holds is to an object. */
  ghost predicate Closed(h: Heap) {
    && (forall r, c :: r in h && h[r].PyList? && c in h[r].items ==> c in h)
    && (forall r, e :: r in h && h[r].PyDict? && e in h[r].entries ==> e.0 in h && e.1 in h)
  }

  /** No dict holds two equal string keys. */
  ghost predicate DictKeysDistinct(h: Heap)
    requires Closed(h)
  {
    forall r, i, j :: r in h && h[r].PyDict? && 0 <= i < j < |h[r].entries| && h[h[r].entries[i].0].PyStr? ==>
      h[h[r].entries[j].0] != h[h[r].entries[i].0]
  }

  // ----- JSON -----

  datatype Json =
    | Null
    | Bool(b: bool)
    | Int(n: int)
    | Float(value: real)
    | String(text: string)
    | Array(items: seq<Json>)
    | Object(entries: Entries<string, Json>)

  datatype Error =
    | NestedTooDeeply
    | IntOutOfRange
    | FloatNotFinite
    | StringNotUtf8
    | KeyNotString
    | UnsupportedType

  type Base64 = seq<Byte> -> string

  // ----- The conversion to JSON -----

  function Remaining(depth: nat): nat {
    if depth > MAX_DEPTH then 0 else MAX_DEPTH + 1 - depth
  }

  function FromLeaf(base64: Base64, o: PyObject): Result<Json, Error>
    requires !o.PyList? && !o.PyDict?
  {
    match o
    case PyNone => Ok(Null)
    case PyBool(b) => Ok(Bool(b))
    case PyInt(n) => if I64_MIN <= n <= U64_MAX then Ok(Int(n)) else Err(IntOutOfRange)
    case PyFloat(Finite(value)) => Ok(Float(value))
    case PyFloat(_) => Err(FloatNotFinite)
    case PyStr(text) => Ok(String(text))
    case PySurrogateStr => Err(StringNotUtf8)
    case PyBytes(bytes) => Ok(String(base64(bytes)))
    case PyByteArray(bytes) => Ok(String(base64(bytes)))
    case PyOther => Err(UnsupportedType)
  }

  function FromPython(h: Heap, base64: Base64, r: Ref, depth: nat): Result<Json, Error>
    requires Closed(h) && r in h
    decreases Remaining(depth), 0
  {
    if depth > MAX_DEPTH then Err(NestedTooDeeply)
    else
      match h[r]
      case PyList(items) =>
        (match FromItems(h, base64, items, depth + 1)
         case Ok(arr) => Ok(Array(arr))
         case Err(e) => Err(e))
      case PyDict(entries) =>
        (match FromEntries(h, base64, entries, depth + 1, [])
         case Ok(m) => Ok(Object(m))
         case Err(e) => Err(e))
      case _ => FromLeaf(base64, h[r])
  }

  function FromItems(h: Heap, base64: Base64, items: seq<Ref>, depth: nat): Result<seq<Json>, Error>
    requires Closed(h) && forall c :: c in items ==> c in h
    decreases Remaining(depth), 1 + |items|
  {
    if items == [] then Ok([])
    else
      match FromPython(h, base64, items[0], depth)
      case Err(e) => Err(e)
      case Ok(first) =>
        match FromItems(h, base64, items[1..], depth)
        case Err(e) => Err(e)
        case Ok(rest) => Ok([first] + rest)
  }

  function FromEntries(h: Heap, base64: Base64, entries: seq<(Ref, Ref)>, depth: nat, m: Entries<string, Json>)
    : Result<Entries<string, Json>, Error>
    requires Closed(h) && forall e :: e in entries ==> e.0 in h && e.1 in h
    decreases Remaining(depth), 1 + |entries|
  {
    if entries == [] then Ok(m)
    else if !h[entries[0].0].PyStr? then Err(KeyNotString)
    else
      match FromPython(h, base64, entries[0].1, depth)
      case Err(e) => Err(e)
      case Ok(v) => FromEntries(h, base64, entries[1..], depth, Insert(m, h[entries[0].0].text, v))
  }

  /** What is left to do once `arr` has been filled. */
  ghost function Onto(arr: seq<Json>, rest: Result<seq<Json>, Error>): Result<seq<Json>, Error> {
    match rest
    case Ok(items) => Ok(arr + items)
    case Err(e) => Err(e)
  }

  lemma OntoNothing(arr: seq<Json>, rest: Result<seq<Json>, Error>)
    ensures Onto([], rest) == rest && Onto(arr, Ok([])) == Ok(arr)
  {
    assert arr + [] == arr;
    assert rest.Ok? ==> [] + rest.value == rest.value;
  }

  lemma ItemsStep(h: Heap, base64: Base64, items: seq<Ref>, i: nat, depth: nat, arr: seq<Json>)
    requires Closed(h) && i < |items| && forall c :: c in items ==> c in h
    ensures match FromPython(h, base64, items[i], depth)
            case Err(e) => FromItems(h, base64, items[i..], depth) == Err(e)
            case Ok(item) => Onto(arr, FromItems(h, base64, items[i..], depth)) ==
                             Onto(arr + [item], FromItems(h, base64, items[i + 1..], depth))
  {
    assert items[i..][1..] == items[i + 1..];
    if FromPython(h, base64, items[i], depth).Ok? {
      var item := FromPython(h, base64, items[i], depth).value;
      assert forall rest :: arr + ([item] + rest) == arr + [item] + rest;
    }
  }

  /** The source's recursion, filling a vector or a map at each container. */
  method PyToSerdeInner(h: Heap, base64: Base64, r: Ref, depth: nat) returns (result: Result<Json, Error>)
    requires Closed(h) && r in h
    ensures result == FromPython(h, base64, r, depth)
    decreases Remaining(depth)
  {
    if depth > MAX_DEPTH {
      return Err(NestedTooDeeply);
    }
    match h[r] {
      case PyList(items) =>
        var arr: seq<Json> := [];
        ghost var all := FromItems(h, base64, items, depth + 1);
        assert items[0..] == items;
        OntoNothing(arr, all);
        for i := 0 to |items|
          invariant all == Onto(arr, FromItems(h, base64, items[i..], depth + 1))
        {
          var item := PyToSerdeInner(h, base64, items[i], depth + 1);
          ItemsStep(h, base64, items, i, depth + 1, arr);
          hide FromPython, FromItems;
          if item.Err? {
            return item;
          }
          arr := arr + [item.value];
        }
        OntoNothing(arr, all);
        return Ok(Array(arr));
      case PyDict(entries) =>
        var m := [];
        ghost var all := FromEntries(h, base64, entries, depth + 1, []);
        assert entries[0..] == entries;
        for i := 0 to |entries|
          invariant all == FromEntries(h, base64, entries[i..], depth + 1, m)
        {
          var (k, v) := entries[i];
          assert entries[i..][0] == (k, v) && entries[i..][1..] == entries[i + 1..];
          if !h[k].PyStr? {
            return Err(KeyNotString);
          }
          var value := PyToSerdeInner(h, base64, v, depth + 1);
          if value.Err? {
            return value;
          }
          m := Insert(m, h[k].text, value.value);
        }
        return Ok(Object(m));
      case _ =>
        return FromLeaf(base64, h[r]);
    }
  }

  function PyToSerde(h: Heap, base64: Base64, r: Ref): Result<Json, Error>
    requires Closed(h) && r in h
  {
    FromPython(h, base64, r, 0)
  }

  // ----- Exactly which graphs convert -----

  function Children(o: PyObject): seq<Ref> {
    match o
    case PyList(items) => items
    case PyDict(entries) => seq(|entries|, i requires 0 <= i < |entries| => entries[i].1)
    case _ => []
  }

  /** What an object must be, apart from its children, to have a JSON form. */
  ghost predicate Convertible(h: Heap, o: PyObject)
    requires Closed(h) && (o.PyDict? ==> forall e :: e in o.entries ==> e.0 in h)
  {
    match o
    case PyInt(n) => I64_MIN <= n <= U64_MAX
    case PyFloat(f) => f.Finite?
    case PyDict(entries) => forall e :: e in entries ==> h[e.0].PyStr?
    case PySurrogateStr => false
    case PyOther => false
    case _ => true
  }

  /** A walk along references; a path of `n` objects makes `n - 1` hops. */
  ghost predicate IsPath(h: Heap, p: seq<Ref>) {
    && p != []
    && (forall i :: 0 <= i < |p| ==> p[i] in h)
    && forall i :: 0 <= i < |p| - 1 ==> p[i + 1] in Children(h[p[i]])
  }

  ghost function Last(p: seq<Ref>): Ref
    requires p != []
  {
    p[|p| - 1]
  }

  /** Every path from `r` stays within the depth bound and ends at a convertible object. */
  ghost predicate Acceptable(h: Heap, r: Ref, depth: nat)
    requires Closed(h)
  {
    forall p :: IsPath(h, p) && p[0] == r ==> depth + |p| - 1 <= MAX_DEPTH && Convertible(h, h[Last(p)])
  }

  lemma ChildrenInHeap(h: Heap, r: Ref)
    requires Closed(h) && r in h
    ensures forall c :: c in Children(h[r]) ==> c in h
  {
    if h[r].PyDict? {
      var entries := h[r].entries;
      forall c | c in Children(h[r]) ensures c in h {
        var i :| 0 <= i < |entries| && Children(h[r])[i] == c;
        assert entries[i] in entries;
      }
    }
  }

  lemma AcceptableStep(h: Heap, r: Ref, depth: nat)
    requires Closed(h) && r in h
    ensures Acceptable(h, r, depth) <==>
            && depth <= MAX_DEPTH && Convertible(h, h[r])
            && forall c :: c in Children(h[r]) ==> Acceptable(h, c, depth + 1)
  {
    ChildrenInHeap(h, r);
    if Acceptable(h, r, depth) {
      assert IsPath(h, [r]);
      forall c | c in Children(h[r]) ensures Acceptable(h, c, depth + 1) {
        forall p | IsPath(h, p) && p[0] == c
          ensures depth + 1 + |p| - 1 <= MAX_DEPTH && Convertible(h, h[Last(p)])
        {
          var q := [r] + p;
          assert IsPath(h, q) && q[0] == r && Last(q) == Last(p);
        }
      }
    }
    if depth <= MAX_DEPTH && Convertible(h, h[r]) && forall c :: c in Children(h[r]) ==> Acceptable(h, c, depth + 1) {
      forall p | IsPath(h, p) && p[0] == r
        ensures depth + |p| - 1 <= MAX_DEPTH && Convertible(h, h[Last(p)])
      {
        if |p| > 1 {
          assert IsPath(h, p[1..]) && Last(p[1..]) == Last(p);
          assert Acceptable(h, p[1], depth + 1);
        }
      }
    }
  }

  lemma {:induction false} ItemsConvert(h: Heap, base64: Base64, items: seq<Ref>, depth: nat)
    requires Closed(h) && forall c :: c in items ==> c in h
    ensures FromItems(h, base64, items, depth).Ok? <==>
            forall c :: c in items ==> FromPython(h, base64, c, depth).Ok?
  {
    if items != [] {
      ItemsConvert(h, base64, items[1..], depth);
      assert items[0] in items;
      assert forall c :: c in items <==> c == items[0] || c in items[1..];
    }
  }

  lemma {:induction false} EntriesConvert(h: Heap, base64: Base64, entries: seq<(Ref, Ref)>, depth: nat,
                                          m: Entries<string, Json>)
    requires Closed(h) && forall e :: e in entries ==> e.0 in h && e.1 in h
    ensures FromEntries(h, base64, entries, depth, m).Ok? <==>
            forall e :: e in entries ==> h[e.0].PyStr? && FromPython(h, base64, e.1, depth).Ok?
    decreases |entries|
  {
    if entries != [] {
      assert forall e :: e in entries <==> e == entries[0] || e in entries[1..];
      if h[entries[0].0].PyStr? && FromPython(h, base64, entries[0].1, depth).Ok? {
        var v := FromPython(h, base64, entries[0].1, depth).value;
        EntriesConvert(h, base64, entries[1..], depth, Insert(m, h[entries[0].0].text, v));
      }
    }
  }

  lemma DictChildren(h: Heap, r: Ref)
    requires r in h && h[r].PyDict?
    ensures forall c :: c in Children(h[r]) ==> exists e :: e in h[r].entries && e.1 == c
    ensures forall e :: e in h[r].entries ==> e.1 in Children(h[r])
  {
    var entries := h[r].entries;
    forall e | e in entries ensures e.1 in Children(h[r]) {
      var i :| 0 <= i < |entries| && entries[i] == e;
      assert Children(h[r])[i] == e.1;
    }
  }

  lemma DictConverts(h: Heap, base64: Base64, r: Ref, depth: nat)
    requires Closed(h) && r in h && h[r].PyDict? && depth <= MAX_DEPTH
    requires forall c :: c in Children(h[r]) ==> c in h
    ensures FromPython(h, base64, r, depth).Ok? <==>
            && (forall e :: e in h[r].entries ==> h[e.0].PyStr?)
            && forall c :: c in Children(h[r]) ==> FromPython(h, base64, c, depth + 1).Ok?
  {
    var entries := h[r].entries;
    DictChildren(h, r);
    EntriesConvert(h, base64, entries, depth + 1, []);
    assert FromPython(h, base64, r, depth).Ok? <==> FromEntries(h, base64, entries, depth + 1, []).Ok?;
    hide Children, FromPython, FromEntries;
  }

  /** One level of the walk. */
  lemma ConvertsStep(h: Heap, base64: Base64, r: Ref, depth: nat)
    requires Closed(h) && r in h && forall c :: c in Children(h[r]) ==> c in h
    ensures FromPython(h, base64, r, depth).Ok? <==>
            && depth <= MAX_DEPTH && Convertible(h, h[r])
            && forall c :: c in Children(h[r]) ==> FromPython(h, base64, c, depth + 1).Ok?
  {
    if depth <= MAX_DEPTH {
      match h[r] {
        case PyList(items) =>
          ItemsConvert(h, base64, items, depth + 1);
        case PyDict(entries) =>
          DictConverts(h, base64, r, depth);
        case _ =>
      }
    }
  }

  lemma {:induction false} AcceptedAtDepth(h: Heap, base64: Base64, r: Ref, depth: nat)
    requires Closed(h) && r in h
    ensures FromPython(h, base64, r, depth).Ok? <==> Acceptable(h, r, depth)
    decreases Remaining(depth)
  {
    hide FromPython, Acceptable, Convertible, Children, Closed;
    AcceptableStep(h, r, depth);
    ChildrenInHeap(h, r);
    ConvertsStep(h, base64, r, depth);
    if depth <= MAX_DEPTH {
      forall c | c in Children(h[r])
        ensures FromPython(h, base64, c, depth + 1).Ok? <==> Acceptable(h, c, depth + 1)
      {
        AcceptedAtDepth(h, base64, c, depth + 1);
      }
    }
  }

  /**
   A value converts exactly when every path from it makes at most 128 hops and ends at an object
   with a JSON form: cyclic or shared, the graph alone decides.
   */
  lemma Accepted(h: Heap, base64: Base64, r: Ref)
    requires Closed(h) && r in h
    ensures PyToSerde(h, base64, r).Ok? <==>
            forall p :: IsPath(h, p) && p[0] == r ==> |p| - 1 <= MAX_DEPTH && Convertible(h, h[Last(p)])
  {
    AcceptedAtDepth(h, base64, r, 0);
    assert Acceptable(h, r, 0) <==>
           forall p :: IsPath(h, p) && p[0] == r ==> 0 + |p| - 1 <= MAX_DEPTH && Convertible(h, h[Last(p)]);
  }

  // ----- Which error it is -----

  /** The first item that fails decides. */
  ghost predicate ItemFails(h: Heap, base64: Base64, items: seq<Ref>, depth: nat, i: nat, e: Error)
    requires Closed(h) && forall c :: c in items ==> c in h
  {
    && i < |items| && FromPython(h, base64, items[i], depth) == Err(e)
    && forall k :: 0 <= k < i ==> FromPython(h, base64, items[k], depth).Ok?
  }

  /** So does the first entry; its key is looked at before its value. */
  ghost predicate EntryFails(h: Heap, base64: Base64, entries: seq<(Ref, Ref)>, depth: nat, i: nat, e: Error)
    requires Closed(h) && forall x :: x in entries ==> x.0 in h && x.1 in h
  {
    && i < |entries|
    && (if h[entries[i].0].PyStr? then FromPython(h, base64, entries[i].1, depth) == Err(e) else e == KeyNotString)
    && forall k :: 0 <= k < i ==> h[entries[k].0].PyStr? && FromPython(h, base64, entries[k].1, depth).Ok?
  }

  lemma {:induction false} ItemsFail(h: Heap, base64: Base64, items: seq<Ref>, depth: nat) returns (i: nat)
    requires Closed(h) && (forall c :: c in items ==> c in h) && FromItems(h, base64, items, depth).Err?
    ensures ItemFails(h, base64, items, depth, i, FromItems(h, base64, items, depth).error)
  {
    i := 0;
    if FromPython(h, base64, items[0], depth).Ok? {
      i := ItemsFail(h, base64, items[1..], depth);
      hide FromPython;
      assert forall k :: 0 <= k < |items| - 1 ==> items[1..][k] == items[k + 1];
      i := i + 1;
    }
  }

  lemma {:induction false} EntriesFail(h: Heap, base64: Base64, entries: seq<(Ref, Ref)>, depth: nat,
                                       m: Entries<string, Json>) returns (i: nat)
    requires Closed(h) && (forall x :: x in entries ==> x.0 in h && x.1 in h)
    requires FromEntries(h, base64, entries, depth, m).Err?
    ensures EntryFails(h, base64, entries, depth, i, FromEntries(h, base64, entries, depth, m).error)
    decreases |entries|
  {
    i := 0;
    if h[entries[0].0].PyStr? && FromPython(h, base64, entries[0].1, depth).Ok? {
      var v := FromPython(h, base64, entries[0].1, depth).value;
      i := EntriesFail(h, base64, entries[1..], depth, Insert(m, h[entries[0].0].text, v));
      hide FromPython;
      assert forall k :: 0 <= k < |entries| - 1 ==> entries[1..][k] == entries[k + 1];
      i := i + 1;
    }
  }

  ghost predicate PartFails(h: Heap, base64: Base64, r: Ref, depth: nat, i: nat, e: Error)
    requires Closed(h) && r in h && (h[r].PyList? || h[r].PyDict?)
  {
    if h[r].PyList? then ItemFails(h, base64, h[r].items, depth + 1, i, e)
    else EntryFails(h, base64, h[r].entries, depth + 1, i, e)
  }

  lemma FailingPart(h: Heap, base64: Base64, r: Ref, depth: nat) returns (i: nat)
    requires Closed(h) && r in h && depth <= MAX_DEPTH && (h[r].PyList? || h[r].PyDict?)
    requires FromPython(h, base64, r, depth).Err?
    ensures PartFails(h, base64, r, depth, i, FromPython(h, base64, r, depth).error)
  {
    if h[r].PyList? {
      i := ItemsFail(h, base64, h[r].items, depth + 1);
    } else {
      i := EntriesFail(h, base64, h[r].entries, depth + 1, []);
    }
    hide ItemFails, EntryFails;
  }

  /** A container fails with the error of the first of its parts that fails, in the order they are visited. */
  lemma FirstFailureDecides(h: Heap, base64: Base64, r: Ref, depth: nat, e: Error)
    requires Closed(h) && r in h && depth <= MAX_DEPTH && (h[r].PyList? || h[r].PyDict?)
    ensures FromPython(h, base64, r, depth) == Err(e) <==> exists i: nat :: PartFails(h, base64, r, depth, i, e)
  {
    ChildrenInHeap(h, r);
    ConvertsStep(h, base64, r, depth);
    if h[r].PyDict? {
      DictChildren(h, r);
    }
    if FromPython(h, base64, r, depth).Err? {
      var i := FailingPart(h, base64, r, depth);
      hide FromPython;
      forall j: nat | PartFails(h, base64, r, depth, j, e) ensures i == j {
      }
    } else {
      hide FromPython;
      forall j: nat ensures !PartFails(h, base64, r, depth, j, e) {
        assert h[r].PyList? && j < |h[r].items| ==> h[r].items[j] in Children(h[r]);
        assert h[r].PyDict? && j < |h[r].entries| ==> h[r].entries[j] in h[r].entries;
      }
    }
  }

  /** What is wrong with an object, its children aside, at a depth. */
  ghost predicate Wrong(h: Heap, o: PyObject, depth: nat, e: Error)
    requires Closed(h) && (o.PyDict? ==> forall x :: x in o.entries ==> x.0 in h)
  {
    match e
    case NestedTooDeeply => depth > MAX_DEPTH
    case IntOutOfRange => o.PyInt? && !(I64_MIN <= o.n <= U64_MAX)
    case FloatNotFinite => o.PyFloat? && !o.f.Finite?
    case StringNotUtf8 => o.PySurrogateStr?
    case KeyNotString => o.PyDict? && exists x :: x in o.entries && !h[x.0].PyStr?
    case UnsupportedType => o.PyOther?
  }

  /** Something is wrong where a path from `r` ends. */
  ghost predicate LeadsToWrong(h: Heap, p: seq<Ref>, r: Ref, depth: nat, e: Error)
    requires Closed(h)
  {
    IsPath(h, p) && p[0] == r && Wrong(h, h[Last(p)], depth + |p| - 1, e)
  }

  lemma OneHopMore(h: Heap, r: Ref, c: Ref, q: seq<Ref>, depth: nat, e: Error)
    requires Closed(h) && r in h && c in Children(h[r]) && LeadsToWrong(h, q, c, depth + 1, e)
    ensures LeadsToWrong(h, [r] + q, r, depth, e)
  {
    assert Last([r] + q) == Last(q);
    hide Wrong, Closed;
  }

  lemma WrongHere(h: Heap, r: Ref, depth: nat, e: Error)
    requires Closed(h) && r in h && Wrong(h, h[r], depth, e)
    ensures LeadsToWrong(h, [r], r, depth, e)
  {
    hide Wrong, Closed;
  }

  /** The part of a container that its error comes from: the container itself, for a key, or a child. */
  lemma ErrorComesFrom(h: Heap, base64: Base64, r: Ref, depth: nat, i: nat, e: Error) returns (c: Ref)
    requires Closed(h) && r in h && (h[r].PyList? || h[r].PyDict?) && PartFails(h, base64, r, depth, i, e)
    ensures !Wrong(h, h[r], depth, e) ==>
              c in Children(h[r]) && c in h && FromPython(h, base64, c, depth + 1) == Err(e)
  {
    ChildrenInHeap(h, r);
    hide FromPython, Closed;
    c := r;
    if h[r].PyList? {
      c := h[r].items[i];
    } else {
      assert h[r].entries[i] in h[r].entries && Children(h[r])[i] == h[r].entries[i].1;
      c := h[r].entries[i].1;
    }
  }

  /** Every error is about something that is there: a path leads to an object that it is true of. */
  lemma {:induction false} ErrorIsReal(h: Heap, base64: Base64, r: Ref, depth: nat) returns (p: seq<Ref>)
    requires Closed(h) && r in h && FromPython(h, base64, r, depth).Err?
    ensures LeadsToWrong(h, p, r, depth, FromPython(h, base64, r, depth).error)
    decreases Remaining(depth)
  {
    var e := FromPython(h, base64, r, depth).error;
    p := [r];
    if depth <= MAX_DEPTH && (h[r].PyList? || h[r].PyDict?) {
      var i := FailingPart(h, base64, r, depth);
      hide FromPython, Closed, PartFails, Children, LeadsToWrong;
      var c := ErrorComesFrom(h, base64, r, depth, i, e);
      if Wrong(h, h[r], depth, e) {
        WrongHere(h, r, depth, e);
      } else {
        hide Wrong;
        p := ErrorIsReal(h, base64, c, depth + 1);
        OneHopMore(h, r, c, p, depth, e);
        p := [r] + p;
      }
    } else {
      assert Wrong(h, h[r], depth, e);
      hide FromPython, Closed, Wrong, LeadsToWrong;
      WrongHere(h, r, depth, e);
    }
  }

  /** An object that holds no others fails exactly when something is wrong with it, and with that error. */
  lemma LeafErrors(h: Heap, base64: Base64, r: Ref, depth: nat, e: Error)
    requires Closed(h) && r in h && !h[r].PyList? && !h[r].PyDict? && depth <= MAX_DEPTH
    ensures FromPython(h, base64, r, depth) == Err(e) <==> Wrong(h, h[r], depth, e)
  {
  }

  lemma JoinPaths(h: Heap, p: seq<Ref>, q: seq<Ref>)
    requires IsPath(h, p) && IsPath(h, q) && q[0] == Last(p)
    ensures IsPath(h, p + q[1..]) && (p + q[1..])[0] == p[0] && Last(p + q[1..]) == Last(q)
  {
  }

  /** Going round a cycle `n` times. */
  lemma {:induction false} GoRound(h: Heap, p: seq<Ref>, cycle: seq<Ref>, n: nat) returns (q: seq<Ref>)
    requires IsPath(h, p) && IsPath(h, cycle) && |cycle| > 1 && cycle[0] == Last(cycle) == Last(p)
    ensures IsPath(h, q) && q[0] == p[0] && Last(q) == Last(p) && |q| > n
  {
    if n == 0 {
      q := p;
    } else {
      q := GoRound(h, p, cycle, n - 1);
      JoinPaths(h, q, cycle);
      q := q + cycle[1..];
    }
  }

  /** A cycle within reach is always an error, however long the way to it. */
  lemma CycleRejected(h: Heap, base64: Base64, p: seq<Ref>, cycle: seq<Ref>)
    requires Closed(h) && IsPath(h, p)
    requires IsPath(h, cycle) && |cycle| > 1 && cycle[0] == Last(cycle) == Last(p)
    ensures PyToSerde(h, base64, p[0]).Err?
  {
    var q := GoRound(h, p, cycle, MAX_DEPTH + 1);
    Accepted(h, base64, p[0]);
  }

  // ----- What a conversion yields: the unfolding of the graph into a tree -----

  datatype PyTree =
    | TNone
    | TBool(b: bool)
    | TInt(n: int)
    | TFloat(f: Float)
    | TStr(text: string)
    | TBytes(bytes: seq<Byte>)
    | TByteArray(bytes: seq<Byte>)
    | TList(items: seq<PyTree>)
    | TDict(entries: seq<(string, PyTree)>)

  /** The graph below `r`, every shared object copied out, is the finite tree `t`. */
  ghost predicate Unfolds(h: Heap, r: Ref, t: PyTree)
    decreases t
  {
    && r in h
    && match t
       case TNone => h[r] == PyNone
       case TBool(b) => h[r] == PyBool(b)
       case TInt(n) => h[r] == PyInt(n)
       case TFloat(f) => h[r] == PyFloat(f)
       case TStr(text) => h[r] == PyStr(text)
       case TBytes(bytes) => h[r] == PyBytes(bytes)
       case TByteArray(bytes) => h[r] == PyByteArray(bytes)
       case TList(items) =>
         && h[r].PyList? && |h[r].items| == |items|
         && forall i :: 0 <= i < |items| ==> Unfolds(h, h[r].items[i], items[i])
       case TDict(entries) =>
         && h[r].PyDict? && |h[r].entries| == |entries|
         && forall i :: 0 <= i < |entries| ==>
              && h[r].entries[i].0 in h && h[h[r].entries[i].0] == PyStr(entries[i].0)
              && Unfolds(h, h[r].entries[i].1, entries[i].1)
  }

  /** No node of the tree is deeper than the bound, counting from `depth` at its root. */
  predicate Within(t: PyTree, depth: nat)
    decreases t
  {
    && depth <= MAX_DEPTH
    && match t
       case TList(items) => forall i :: 0 <= i < |items| ==> Within(items[i], depth + 1)
       case TDict(entries) => forall i :: 0 <= i < |entries| ==> Within(entries[i].1, depth + 1)
       case _ => true
  }

  /** Every number of the tree has a JSON form. */
  predicate Encodable(t: PyTree) {
    match t
    case TInt(n) => I64_MIN <= n <= U64_MAX
    case TFloat(f) => f.Finite?
    case TList(items) => forall i :: 0 <= i < |items| ==> Encodable(items[i])
    case TDict(entries) => forall i :: 0 <= i < |entries| ==> Encodable(entries[i].1)
    case _ => true
  }

  function Encode(base64: Base64, t: PyTree): Json
    requires Encodable(t)
  {
    match t
    case TNone => Null
    case TBool(b) => Bool(b)
    case TInt(n) => Int(n)
    case TFloat(f) => Float(f.value)
    case TStr(text) => String(text)
    case TBytes(bytes) => String(base64(bytes))
    case TByteArray(bytes) => String(base64(bytes))
    case TList(items) => Array(seq(|items|, i requires 0 <= i < |items| => Encode(base64, items[i])))
    case TDict(entries) =>
      Object(seq(|entries|, i requires 0 <= i < |entries| => (entries[i].0, Encode(base64, entries[i].1))))
  }

  lemma {:induction false} ItemsUnfold(h: Heap, base64: Base64, items: seq<Ref>, depth: nat, arr: seq<Json>)
    requires Closed(h) && forall c :: c in items ==> c in h
    requires |arr| == |items|
    requires forall i :: 0 <= i < |items| ==> FromPython(h, base64, items[i], depth) == Ok(arr[i])
    ensures FromItems(h, base64, items, depth) == Ok(arr)
  {
    if items != [] {
      ItemsUnfold(h, base64, items[1..], depth, arr[1..]);
      assert arr == [arr[0]] + arr[1..];
    }
  }

  lemma {:induction false} EntriesUnfold(h: Heap, base64: Base64, entries: seq<(Ref, Ref)>, depth: nat,
                                         m: Entries<string, Json>, pairs: Entries<string, Json>)
    requires Closed(h) && forall e :: e in entries ==> e.0 in h && e.1 in h
    requires |pairs| == |entries|
    requires forall i :: 0 <= i < |entries| ==>
      h[entries[i].0] == PyStr(pairs[i].0) && FromPython(h, base64, entries[i].1, depth) == Ok(pairs[i].1)
    ensures FromEntries(h, base64, entries, depth, m) == Ok(InsertAll(m, pairs))
    decreases |entries|
  {
    if entries != [] {
      EntriesUnfold(h, base64, entries[1..], depth, Insert(m, pairs[0].0, pairs[0].1), pairs[1..]);
    }
  }

  /** A tree within the bounds converts to its encoding, from wherever the graph unfolds to it. */
  lemma {:induction false} UnfoldingConverts(h: Heap, base64: Base64, r: Ref, depth: nat, t: PyTree)
    requires Closed(h) && DictKeysDistinct(h) && Unfolds(h, r, t) && Within(t, depth) && Encodable(t)
    ensures FromPython(h, base64, r, depth) == Ok(Encode(base64, t))
    decreases t
  {
    match t {
      case TList(items) =>
        var arr := Encode(base64, t).items;
        forall i | 0 <= i < |items| ensures FromPython(h, base64, h[r].items[i], depth + 1) == Ok(arr[i]) {
          UnfoldingConverts(h, base64, h[r].items[i], depth + 1, items[i]);
        }
        ItemsUnfold(h, base64, h[r].items, depth + 1, arr);
      case TDict(entries) =>
        var pairs := Encode(base64, t).entries;
        forall i | 0 <= i < |entries|
          ensures FromPython(h, base64, h[r].entries[i].1, depth + 1) == Ok(pairs[i].1)
        {
          UnfoldingConverts(h, base64, h[r].entries[i].1, depth + 1, entries[i].1);
        }
        EntriesUnfold(h, base64, h[r].entries, depth + 1, [], pairs);
        assert Distinct(Keys(pairs));
        InsertAllConserves(pairs);
      case _ =>
    }
  }

  /** `t` is the unfolding below `r`, fit to be encoded at `depth`. */
  ghost predicate UnfoldsWithin(h: Heap, r: Ref, depth: nat, t: PyTree) {
    Unfolds(h, r, t) && Within(t, depth) && Encodable(t)
  }

  lemma {:induction false} ConversionsUnfold(h: Heap, base64: Base64, children: seq<Ref>, depth: nat)
    returns (ts: seq<PyTree>)
    requires Closed(h) && forall c :: c in children ==> c in h && FromPython(h, base64, c, depth).Ok?
    ensures |ts| == |children| && forall i :: 0 <= i < |ts| ==> UnfoldsWithin(h, children[i], depth, ts[i])
    decreases Remaining(depth), 1
  {
    hide UnfoldsWithin, FromPython, Closed;
    ts := [];
    for i := 0 to |children|
      invariant |ts| == i && forall k :: 0 <= k < i ==> UnfoldsWithin(h, children[k], depth, ts[k])
    {
      var t := ConversionUnfolds(h, base64, children[i], depth);
      ts := ts + [t];
    }
  }

  function LeafTree(h: Heap, o: PyObject): PyTree
    requires Closed(h) && !o.PyList? && !o.PyDict? && Convertible(h, o)
  {
    match o
    case PyNone => TNone
    case PyBool(b) => TBool(b)
    case PyInt(n) => TInt(n)
    case PyFloat(f) => TFloat(f)
    case PyStr(text) => TStr(text)
    case PyBytes(bytes) => TBytes(bytes)
    case PyByteArray(bytes) => TByteArray(bytes)
  }

  /** The tree of an object, given the trees of its children. */
  lemma ObjectUnfolds(h: Heap, r: Ref, depth: nat, ts: seq<PyTree>) returns (t: PyTree)
    requires Closed(h) && r in h && depth <= MAX_DEPTH && Convertible(h, h[r])
    requires |ts| == |Children(h[r])|
    requires forall i :: 0 <= i < |ts| ==> UnfoldsWithin(h, Children(h[r])[i], depth + 1, ts[i])
    ensures UnfoldsWithin(h, r, depth, t)
  {
    if h[r].PyList? {
      t := TList(ts);
    } else if h[r].PyDict? {
      var entries := h[r].entries;
      assert forall i :: 0 <= i < |entries| ==> entries[i] in entries;
      t := TDict(seq(|ts|, i requires 0 <= i < |ts| => (h[entries[i].0].text, ts[i])));
    } else {
      t := LeafTree(h, h[r]);
    }
  }

  /** A graph that converts has a finite unfolding, within the bounds. */
  lemma {:induction false} ConversionUnfolds(h: Heap, base64: Base64, r: Ref, depth: nat) returns (t: PyTree)
    requires Closed(h) && r in h && FromPython(h, base64, r, depth).Ok?
    ensures UnfoldsWithin(h, r, depth, t)
    decreases Remaining(depth), 0
  {
    ChildrenInHeap(h, r);
    ConvertsStep(h, base64, r, depth);
    hide FromPython, Closed, UnfoldsWithin, Convertible, Children;
    var ts := ConversionsUnfold(h, base64, Children(h[r]), depth + 1);
    t := ObjectUnfolds(h, r, depth, ts);
  }

  lemma {:induction false} UnfoldingUnique(h: Heap, r: Ref, t: PyTree, t': PyTree)
    requires Unfolds(h, r, t) && Unfolds(h, r, t')
    ensures t == t'
    decreases t
  {
    match t {
      case TList(items) =>
        forall i | 0 <= i < |items| ensures items[i] == t'.items[i] {
          UnfoldingUnique(h, h[r].items[i], items[i], t'.items[i]);
        }
        assert items == t'.items;
      case TDict(entries) =>
        forall i | 0 <= i < |entries| ensures entries[i] == t'.entries[i] {
          UnfoldingUnique(h, h[r].entries[i].1, entries[i].1, t'.entries[i].1);
        }
        assert entries == t'.entries;
      case _ =>
    }
  }

  /** The conversion succeeds exactly on graphs with a bounded, encodable unfolding, and yields its encoding. */
  lemma SuccessIsUnfolding(h: Heap, base64: Base64, r: Ref, j: Json)
    requires Closed(h) && DictKeysDistinct(h) && r in h
    ensures PyToSerde(h, base64, r) == Ok(j) <==>
            exists t :: Unfolds(h, r, t) && Within(t, 0) && Encodable(t) && j == Encode(base64, t)
  {
    if PyToSerde(h, base64, r) == Ok(j) {
      var t := ConversionUnfolds(h, base64, r, 0);
      UnfoldingConverts(h, base64, r, 0, t);
    }
    if t :| Unfolds(h, r, t) && Within(t, 0) && Encodable(t) && j == Encode(base64, t) {
      UnfoldingConverts(h, base64, r, 0, t);
    }
  }

  // ----- Back to Python -----

  /** Doubles beyond `I64_MAX` are 2048 apart; this many steps to the nearest, ties to even. */
  function NearestSteps(n: int): int {
    var (q, r) := (n / 2048, n % 2048);
    if r < 1024 || (r == 1024 && q % 2 == 0) then q else q + 1
  }

  /** An integer in `(I64_MAX, U64_MAX]` as a double. */
  function NearestDouble(n: int): (d: real)
    requires I64_MAX < n <= U64_MAX
  {
    (2048 * NearestSteps(n)) as real
  }

  function Off(n: int, m: int): int {
    if n <= m then m - n else n - m
  }

  /** No double is nearer, and of two as near it is the one with the even significand. */
  lemma NearestDoubleIsNearest(n: int, k: int)
    ensures Off(n, 2048 * NearestSteps(n)) <= 1024
    ensures Off(n, 2048 * NearestSteps(n)) <= Off(n, 2048 * k)
    ensures Off(n, 2048 * NearestSteps(n)) == Off(n, 2048 * k) ==> NearestSteps(n) == k || NearestSteps(n) % 2 == 0
  {
    var q, r := n / 2048, n % 2048;
    assert k <= q ==> n - 2048 * k == 2048 * (q - k) + r;
    assert k > q ==> 2048 * k - n == 2048 * (k - q) - r;
  }

  /** What a `serde_json::Value` can hold: distinct keys, and integers that fit `i64` or `u64`. */
  ghost predicate WellFormed(j: Json) {
    match j
    case Int(n) => I64_MIN <= n <= U64_MAX
    case Array(items) => forall i :: 0 <= i < |items| ==> WellFormed(items[i])
    case Object(entries) => Distinct(Keys(entries)) && forall i :: 0 <= i < |entries| ==> WellFormed(entries[i].1)
    case _ => true
  }

  /** The fresh Python value made from a JSON value, as a tree. */
  function ToPython(j: Json): PyTree
    requires WellFormed(j)
  {
    match j
    case Null => TNone
    case Bool(b) => TBool(b)
    case Int(n) => if n <= I64_MAX then TInt(n) else TFloat(Finite(NearestDouble(n)))
    case Float(value) => TFloat(Finite(value))
    case String(text) => TStr(text)
    case Array(items) => TList(seq(|items|, i requires 0 <= i < |items| => ToPython(items[i])))
    case Object(entries) =>
      TDict(seq(|entries|, i requires 0 <= i < |entries| => (entries[i].0, ToPython(entries[i].1))))
  }

  /** No bytes, and no integer beyond `i64`. */
  predicate Faithful(t: PyTree) {
    match t
    case TInt(n) => n <= I64_MAX
    case TBytes(_) => false
    case TByteArray(_) => false
    case TList(items) => forall i :: 0 <= i < |items| ==> Faithful(items[i])
    case TDict(entries) => forall i :: 0 <= i < |entries| ==> Faithful(entries[i].1)
    case _ => true
  }

  predicate SmallIntegers(j: Json) {
    match j
    case Int(n) => n <= I64_MAX
    case Array(items) => forall i :: 0 <= i < |items| ==> SmallIntegers(items[i])
    case Object(entries) => forall i :: 0 <= i < |entries| ==> SmallIntegers(entries[i].1)
    case _ => true
  }

  predicate JsonWithin(j: Json, depth: nat)
    decreases j
  {
    && depth <= MAX_DEPTH
    && match j
       case Array(items) => forall i :: 0 <= i < |items| ==> JsonWithin(items[i], depth + 1)
       case Object(entries) => forall i :: 0 <= i < |entries| ==> JsonWithin(entries[i].1, depth + 1)
       case _ => true
  }

  /** The keys of every dict in the tree are distinct, as in any Python value. */
  ghost predicate KeysDistinct(t: PyTree) {
    match t
    case TList(items) => forall i :: 0 <= i < |items| ==> KeysDistinct(items[i])
    case TDict(entries) => Distinct(Keys(entries)) && forall i :: 0 <= i < |entries| ==> KeysDistinct(entries[i].1)
    case _ => true
  }

  lemma {:induction false} UnfoldingKeysDistinct(h: Heap, r: Ref, t: PyTree)
    requires Closed(h) && DictKeysDistinct(h) && Unfolds(h, r, t)
    ensures KeysDistinct(t)
    decreases t
  {
    match t {
      case TList(items) =>
        forall i | 0 <= i < |items| ensures KeysDistinct(items[i]) {
          UnfoldingKeysDistinct(h, h[r].items[i], items[i]);
        }
      case TDict(entries) =>
        forall i | 0 <= i < |entries| ensures KeysDistinct(entries[i].1) {
          UnfoldingKeysDistinct(h, h[r].entries[i].1, entries[i].1);
        }
      case _ =>
    }
  }

  lemma {:induction false} EncodeWellFormed(base64: Base64, t: PyTree)
    requires Encodable(t) && KeysDistinct(t)
    ensures WellFormed(Encode(base64, t))
  {
    match t {
      case TList(items) =>
        forall i | 0 <= i < |items| { EncodeWellFormed(base64, items[i]); }
      case TDict(entries) =>
        assert Keys(Encode(base64, t).entries) == Keys(entries);
        forall i | 0 <= i < |entries| { EncodeWellFormed(base64, entries[i].1); }
      case _ =>
    }
  }

  /** There and back: the same tagged tree exactly when it holds no bytes and no integer beyond `i64`. */
  lemma {:induction false} EncodeToPython(base64: Base64, t: PyTree)
    requires Encodable(t) && KeysDistinct(t)
    ensures WellFormed(Encode(base64, t))
    ensures ToPython(Encode(base64, t)) == t <==> Faithful(t)
  {
    EncodeWellFormed(base64, t);
    match t {
      case TList(items) =>
        var back := ToPython(Encode(base64, t)).items;
        forall i | 0 <= i < |items| ensures back[i] == items[i] <==> Faithful(items[i]) {
          EncodeToPython(base64, items[i]);
        }
        if Faithful(t) {
          assert back == items;
        }
      case TDict(entries) =>
        var back := ToPython(Encode(base64, t)).entries;
        forall i | 0 <= i < |entries| ensures back[i] == entries[i] <==> Faithful(entries[i].1) {
          EncodeToPython(base64, entries[i].1);
        }
        if Faithful(t) {
          assert back == entries;
        }
      case _ =>
    }
  }

  lemma {:induction false} ToPythonWithin(j: Json, depth: nat)
    requires WellFormed(j)
    ensures Within(ToPython(j), depth) <==> JsonWithin(j, depth)
    decreases j
  {
    match j {
      case Array(items) =>
        var ts := ToPython(j).items;
        forall i | 0 <= i < |items| ensures Within(ts[i], depth + 1) <==> JsonWithin(items[i], depth + 1) {
          ToPythonWithin(items[i], depth + 1);
        }
      case Object(entries) =>
        var ts := ToPython(j).entries;
        forall i | 0 <= i < |entries| ensures Within(ts[i].1, depth + 1) <==> JsonWithin(entries[i].1, depth + 1) {
          ToPythonWithin(entries[i].1, depth + 1);
        }
      case _ =>
    }
  }

  lemma {:induction false} ToPythonEncode(base64: Base64, j: Json)
    requires WellFormed(j)
    ensures Encodable(ToPython(j))
    ensures Encode(base64, ToPython(j)) == j <==> SmallIntegers(j)
  {
    match j {
      case Array(items) =>
        var ts := ToPython(j).items;
        forall i | 0 <= i < |items|
          ensures Encodable(ts[i])
          ensures Encode(base64, ts[i]) == items[i] <==> SmallIntegers(items[i])
        {
          ToPythonEncode(base64, items[i]);
        }
        var back := Encode(base64, ToPython(j)).items;
        assert back == items <==> forall i :: 0 <= i < |items| ==> back[i] == items[i];
      case Object(entries) =>
        var ts := ToPython(j).entries;
        forall i | 0 <= i < |entries|
          ensures Encodable(ts[i].1)
          ensures Encode(base64, ts[i].1) == entries[i].1 <==> SmallIntegers(entries[i].1)
        {
          ToPythonEncode(base64, entries[i].1);
        }
        var back := Encode(base64, ToPython(j)).entries;
        assert back == entries <==> forall i :: 0 <= i < |entries| ==> back[i] == entries[i];
      case _ =>
    }
  }

  /** Python to JSON to Python, for any graph that converts. */
  lemma PythonRoundTrip(h: Heap, base64: Base64, r: Ref, j: Json, t: PyTree)
    requires Closed(h) && DictKeysDistinct(h) && r in h
    requires PyToSerde(h, base64, r) == Ok(j) && Unfolds(h, r, t)
    ensures WellFormed(j) && (ToPython(j) == t <==> Faithful(t))
  {
    SuccessIsUnfolding(h, base64, r, j);
    var t' :| Unfolds(h, r, t') && Within(t', 0) && Encodable(t') && j == Encode(base64, t');
    UnfoldingUnique(h, r, t, t');
    UnfoldingKeysDistinct(h, r, t);
    EncodeToPython(base64, t);
  }

  /** JSON to Python to JSON, however the Python value is laid out in the heap. */
  lemma JsonRoundTrip(h: Heap, base64: Base64, r: Ref, j: Json)
    requires Closed(h) && DictKeysDistinct(h) && WellFormed(j) && Unfolds(h, r, ToPython(j))
    ensures PyToSerde(h, base64, r) == Ok(j) <==> SmallIntegers(j) && JsonWithin(j, 0)
  {
    ToPythonWithin(j, 0);
    ToPythonEncode(base64, j);
    SuccessIsUnfolding(h, base64, r, j);
    forall t | Unfolds(h, r, t) ensures t == ToPython(j) {
      UnfoldingUnique(h, r, t, ToPython(j));
    }
  }

  // ----- Building the Python value -----

  /** A heap of whole Python values, with every reference from `next` on unused. */
  ghost predicate GoodHeap(h: Heap, next: nat) {
    Closed(h) && DictKeysDistinct(h) && forall r :: r in h ==> r < next
  }

  /** `h'` keeps every object of `h`. */
  ghost predicate Extends(h: Heap, h': Heap) {
    forall r :: r in h ==> r in h' && h'[r] == h[r]
  }

  lemma {:induction false} UnfoldsLater(h: Heap, h': Heap, r: Ref, t: PyTree)
    requires Unfolds(h, r, t) && Extends(h, h')
    ensures Unfolds(h', r, t)
    decreases t
  {
    match t {
      case TList(items) =>
        forall i | 0 <= i < |items| { UnfoldsLater(h, h', h[r].items[i], items[i]); }
      case TDict(entries) =>
        forall i | 0 <= i < |entries| { UnfoldsLater(h, h', h[r].entries[i].1, entries[i].1); }
      case _ =>
    }
  }

  function ScalarObject(j: Json): PyObject
    requires WellFormed(j) && !j.Array? && !j.Object?
  {
    match j
    case Null => PyNone
    case Bool(b) => PyBool(b)
    case Int(n) => if n <= I64_MAX then PyInt(n) else PyFloat(Finite(NearestDouble(n)))
    case Float(value) => PyFloat(Finite(value))
    case String(text) => PyStr(text)
  }

  /** Allocating one object whose references are allocated. */
  lemma AllocateOne(h: Heap, next: nat, o: PyObject)
    requires GoodHeap(h, next)
    requires o.PyList? ==> forall c :: c in o.items ==> c in h
    requires o.PyDict? ==> forall e :: e in o.entries ==> e.0 in h && e.1 in h
    requires o.PyDict? ==> forall i, j :: 0 <= i < j < |o.entries| ==> h[o.entries[i].0] != h[o.entries[j].0]
    ensures GoodHeap(h[next := o], next + 1) && Extends(h, h[next := o])
  {
    var h' := h[next := o];
    assert Closed(h');
    forall r, i, j | r in h' && h'[r].PyDict? && 0 <= i < j < |h'[r].entries| && h'[h'[r].entries[i].0].PyStr?
      ensures h'[h'[r].entries[j].0] != h'[h'[r].entries[i].0]
    {
      var entries := h'[r].entries;
      assert entries[i] in entries && entries[j] in entries;
    }
  }

  /** The objects at `refs` unfold to the Python forms of `items`. */
  ghost predicate ItemsUnfoldTo(h: Heap, refs: seq<Ref>, items: seq<Json>)
    requires |refs| == |items| && forall i :: 0 <= i < |items| ==> WellFormed(items[i])
  {
    forall i :: 0 <= i < |items| ==> Unfolds(h, refs[i], ToPython(items[i]))
  }

  lemma ItemsUnfoldLater(h: Heap, h': Heap, refs: seq<Ref>, items: seq<Json>)
    requires |refs| == |items| && forall i :: 0 <= i < |items| ==> WellFormed(items[i])
    requires ItemsUnfoldTo(h, refs, items) && Extends(h, h')
    ensures ItemsUnfoldTo(h', refs, items)
  {
    forall i | 0 <= i < |items| { UnfoldsLater(h, h', refs[i], ToPython(items[i])); }
  }

  /** Appends the Python form of each item to a list. */
  method AppendItems(h: Heap, next: nat, items: seq<Json>) returns (h': Heap, next': nat, list: seq<Ref>)
    requires GoodHeap(h, next) && forall i :: 0 <= i < |items| ==> WellFormed(items[i])
    ensures GoodHeap(h', next') && Extends(h, h')
    ensures |list| == |items| && ItemsUnfoldTo(h', list, items)
    decreases items, 0
  {
    h', next', list := h, next, [];
    for i := 0 to |items|
      invariant GoodHeap(h', next') && Extends(h, h')
      invariant |list| == i && ItemsUnfoldTo(h', list, items[..i])
    {
      hide GoodHeap, WellFormed;
      ghost var before := h';
      var c;
      h', next', c := SerdeToPy(h', next', items[i]);
      ItemsUnfoldLater(before, h', list, items[..i]);
      list := list + [c];
    }
  }

  /** Sets the Python form of each entry in a dict under its key. */
  method SetItems(h: Heap, next: nat, j: Json) returns (h': Heap, next': nat, keys: seq<Ref>, values: seq<Ref>)
    requires GoodHeap(h, next) && WellFormed(j) && j.Object?
    ensures GoodHeap(h', next') && Extends(h, h')
    ensures |keys| == |values| == |j.entries|
    ensures forall i :: 0 <= i < |j.entries| ==>
              && keys[i] in h' && h'[keys[i]] == PyStr(j.entries[i].0)
              && Unfolds(h', values[i], ToPython(j.entries[i].1))
    decreases j, 0
  {
    var entries := j.entries;
    h', next', keys, values := h, next, [], [];
    for i := 0 to |entries|
      invariant GoodHeap(h', next') && Extends(h, h')
      invariant |keys| == |values| == i
      invariant forall k :: 0 <= k < i ==> keys[k] in h' && h'[keys[k]] == PyStr(entries[k].0)
      invariant forall k :: 0 <= k < i ==> Unfolds(h', values[k], ToPython(entries[k].1))
    {
      hide WellFormed;
      ghost var before := h';
      AllocateOne(h', next', PyStr(entries[i].0));
      keys := keys + [next'];
      h', next' := h'[next' := PyStr(entries[i].0)], next' + 1;
      hide GoodHeap, ToPython;
      var v;
      h', next', v := SerdeToPy(h', next', entries[i].1);
      forall k | 0 <= k < i { UnfoldsLater(before, h', values[k], ToPython(entries[k].1)); }
      values := values + [v];
    }
  }

  /** Allocates a Python value for `j`; `next` is the first unused reference. */
  method SerdeToPy(h: Heap, next: nat, j: Json) returns (h': Heap, next': nat, r: Ref)
    requires GoodHeap(h, next) && WellFormed(j)
    ensures GoodHeap(h', next') && Extends(h, h')
    ensures Unfolds(h', r, ToPython(j))
    decreases j, 1
  {
    var o: PyObject;
    match j {
      case Array(items) =>
        var list;
        h', next', list := AppendItems(h, next, items);
        o := PyList(list);
      case Object(entries) =>
        var keys, values;
        h', next', keys, values := SetItems(h, next, j);
        o := PyDict(seq(|keys|, i requires 0 <= i < |keys| => (keys[i], values[i])));
        assert forall i :: 0 <= i < |entries| ==> Keys(entries)[i] == entries[i].0;
      case _ =>
        h', next', o := h, next, ScalarObject(j);
    }
    ghost var before := h';
    AllocateOne(h', next', o);
    r, h', next' := next', h'[next' := o], next' + 1;
    match j {
      case Array(items) =>
        ItemsUnfoldLater(before, h', o.items, items);
      case Object(entries) =>
        forall i | 0 <= i < |entries| { UnfoldsLater(before, h', o.entries[i].1, ToPython(entries[i].1)); }
      case _ =>
    }
  }
}
