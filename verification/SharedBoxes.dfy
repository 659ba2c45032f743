/**
 Objects shared by reference count, the way the C binding shares pipelines and watchers between a
 handle and the runs in flight: an object goes when its last reference does.
 */
module SharedBoxes {
  /** A shared object: whether its C handle still exists, and its strong count. */
  datatype Box<+T> = Box(content: T, handle: bool, strong: nat)

  type Boxes<T> = map<nat, Box<T>>

  /** Which object each run holds. */
  type Refs = map<nat, nat>

  predicate Live<T>(boxes: Boxes<T>, p: nat) {
    p in boxes && boxes[p].handle && boxes[p].strong > 0
  }

  function Retain<T>(boxes: Boxes<T>, p: nat): Boxes<T>
    requires p in boxes
  {
    boxes[p := boxes[p].(strong := boxes[p].strong + 1)]
  }

  function Release<T>(boxes: Boxes<T>, p: nat): Boxes<T>
    requires p in boxes && boxes[p].strong > 0
  {
    if boxes[p].strong == 1 then boxes - {p} else boxes[p := boxes[p].(strong := boxes[p].strong - 1)]
  }

  function DropHandle<T>(boxes: Boxes<T>, p: nat): Boxes<T>
    requires p in boxes && boxes[p].strong > 0
  {
    Release(boxes[p := boxes[p].(handle := false)], p)
  }

  ghost function Holding(refs: Refs, p: nat): set<nat> {
    set r | r in refs && refs[r] == p
  }

  function One(b: bool): nat { if b then 1 else 0 }

  /** A strong count is the number of references: the handle, if any, and the runs holding the object. */
  ghost predicate Counted<T>(boxes: Boxes<T>, refs: Refs) {
    && (forall p :: p in boxes ==> boxes[p].strong == One(boxes[p].handle) + |Holding(refs, p)| && boxes[p].strong > 0)
    && (forall r :: r in refs ==> refs[r] in boxes)
  }

  lemma NewCounted<T>(boxes: Boxes<T>, refs: Refs, p: nat, content: T)
    requires Counted(boxes, refs) && p !in boxes
    ensures Counted(boxes[p := Box(content, true, 1)], refs)
  {
    assert Holding(refs, p) == {};
  }

  lemma RetainCounted<T>(boxes: Boxes<T>, refs: Refs, r: nat, p: nat)
    requires Counted(boxes, refs) && r !in refs && p in boxes
    ensures Counted(Retain(boxes, p), refs[r := p])
  {
    var refs' := refs[r := p];
    assert Holding(refs', p) == Holding(refs, p) + {r} && r !in Holding(refs, p);
    forall q | q != p ensures Holding(refs', q) == Holding(refs, q) {
    }
    hide Holding;
  }

  lemma ReleaseCounted<T>(boxes: Boxes<T>, refs: Refs, r: nat)
    requires Counted(boxes, refs) && r in refs
    ensures Counted(Release(boxes, refs[r]), refs - {r})
  {
    var p := refs[r];
    forall q ensures Holding(refs - {r}, q) == if q == p then Holding(refs, q) - {r} else Holding(refs, q) {
    }
    assert r in Holding(refs, p);
    if boxes[p].strong == 1 {
      assert |Holding(refs - {r}, p)| == 0;
      forall x | x in refs - {r} ensures refs[x] != p {
        assert refs[x] == p ==> x in Holding(refs - {r}, p);
      }
    }
  }

  lemma DropHandleCounted<T>(boxes: Boxes<T>, refs: Refs, p: nat)
    requires Counted(boxes, refs) && p in boxes && boxes[p].handle
    ensures Counted(DropHandle(boxes, p), refs)
  {
    if boxes[p].strong == 1 {
      assert |Holding(refs, p)| == 0;
      forall x | x in refs ensures refs[x] != p {
        assert refs[x] == p ==> x in Holding(refs, p);
      }
    }
  }

  lemma ContentCounted<T>(boxes: Boxes<T>, refs: Refs, p: nat, content: T)
    requires Counted(boxes, refs) && p in boxes
    ensures Counted(boxes[p := boxes[p].(content := content)], refs)
  {
  }

  /** The handle is the only reference exactly when no run holds the object. */
  lemma SoleReference<T>(boxes: Boxes<T>, refs: Refs, p: nat)
    requires Counted(boxes, refs) && Live(boxes, p)
    ensures boxes[p].strong == 1 <==> forall r :: r in refs ==> refs[r] != p
  {
    if boxes[p].strong == 1 {
      assert |Holding(refs, p)| == 0;
      forall x | x in refs ensures refs[x] != p {
        assert refs[x] == p ==> x in Holding(refs, p);
      }
    }
    if forall r :: r in refs ==> refs[r] != p {
      assert Holding(refs, p) == {};
    }
  }
}
