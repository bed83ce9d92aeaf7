/**
 * The depth-first scan for forbidden keys over an arbitrary object graph, with sharing and cycles.
 * One `seen` set is shared by the whole scan, so a node is entered at most once.
 */
module SecretScan {

  /** A property value: a primitive, or a reference to an object or array of the heap. */
  datatype Value = Primitive | Reference(node: nat)

  datatype Entry = Entry(key: string, value: Value)

  /** Arrays have no keys to judge; objects do. */
  datatype Node = ArrayNode(items: seq<Value>) | ObjectNode(entries: seq<Entry>)

  /** A finite heap whose references all resolve. */
  type Heap = map<nat, Node>

  ghost predicate Closed(h: Heap) {
    forall n, v :: n in h && v in Children(h[n]) && v.Reference? ==> v.node in h
  }

  function Children(n: Node): seq<Value> {
    match n
    case ArrayNode(items) => items
    case ObjectNode(entries) => seq(|entries|, i requires 0 <= i < |entries| => entries[i].value)
  }

  /** `n` itself carries a forbidden key. */
  predicate Offends(n: Node, forbidden: string -> bool) {
    n.ObjectNode? && exists i :: 0 <= i < |n.entries| && forbidden(n.entries[i].key)
  }

  /** `path` leads from its first node to its last along references. */
  ghost predicate IsPath(h: Heap, path: seq<nat>) {
    && path != []
    && (forall i :: 0 <= i < |path| ==> path[i] in h)
    && (forall i :: 0 <= i < |path| - 1 ==> Reference(path[i + 1]) in Children(h[path[i]]))
  }

  ghost predicate Reaches(h: Heap, from: nat, to: nat) {
    exists path :: IsPath(h, path) && path[0] == from && path[|path| - 1] == to
  }

  /** A forbidden key is reachable from `v`. */
  ghost predicate HasSecret(h: Heap, v: Value, forbidden: string -> bool) {
    v.Reference? && exists n :: Reaches(h, v.node, n) && Offends(h[n], forbidden)
  }

  lemma ReachesSelf(h: Heap, n: nat)
    requires n in h
    ensures Reaches(h, n, n)
  {
    assert IsPath(h, [n]);
  }

  lemma ReachesChild(h: Heap, from: nat, child: nat, to: nat)
    requires from in h && Reference(child) in Children(h[from]) && Reaches(h, child, to)
    ensures Reaches(h, from, to)
  {
    var path :| IsPath(h, path) && path[0] == child && path[|path| - 1] == to;
    var longer := [from] + path;
    forall i | 0 <= i < |longer| - 1 ensures Reference(longer[i + 1]) in Children(h[longer[i]]) {
      if i > 0 {
        assert longer[i] == path[i - 1] && longer[i + 1] == path[i];
      }
    }
    assert IsPath(h, longer) && longer[0] == from && longer[|longer| - 1] == to;
  }

  lemma SecretBelow(h: Heap, n: nat, v: Value, forbidden: string -> bool)
    requires n in h && v in Children(h[n]) && HasSecret(h, v, forbidden)
    ensures HasSecret(h, Reference(n), forbidden)
  {
    var m :| Reaches(h, v.node, m) && Offends(h[m], forbidden);
    ReachesChild(h, n, v.node, m);
  }

  /** Every node of `done` is clean and its references stay inside `done + open`. */
  ghost predicate Swept(h: Heap, done: set<nat>, open: set<nat>, forbidden: string -> bool) {
    forall n :: n in done ==>
      && n in h && !Offends(h[n], forbidden)
      && forall v :: v in Children(h[n]) && v.Reference? ==> v.node in done + open
  }

  lemma {:induction false} SweptPath(h: Heap, done: set<nat>, path: seq<nat>, forbidden: string -> bool)
    requires Swept(h, done, {}, forbidden) && IsPath(h, path) && path[0] in done
    ensures path[|path| - 1] in done
    decreases |path|
  {
    if |path| > 1 {
      assert Reference(path[1]) in Children(h[path[0]]);
      var rest := path[1..];
      forall i | 0 <= i < |rest| - 1 ensures Reference(rest[i + 1]) in Children(h[rest[i]]) {
        assert rest[i] == path[i + 1] && rest[i + 1] == path[i + 2];
      }
      SweptPath(h, done, rest, forbidden);
    }
  }

  lemma SweptMeansClean(h: Heap, done: set<nat>, n: nat, forbidden: string -> bool)
    requires Swept(h, done, {}, forbidden) && n in done
    ensures !HasSecret(h, Reference(n), forbidden)
  {
    forall m | Reaches(h, n, m) ensures !Offends(h[m], forbidden) {
      var path :| IsPath(h, path) && path[0] == n && path[|path| - 1] == m;
      SweptPath(h, done, path, forbidden);
    }
  }

  class Scan {
    const heap: Heap
    const forbidden: string -> bool
    var seen: set<nat>

    constructor (heap: Heap, forbidden: string -> bool)
      ensures this.heap == heap && this.forbidden == forbidden && seen == {}
    {
      this.heap := heap;
      this.forbidden := forbidden;
      seen := {};
    }

    /**
     * `containsForbiddenSecret`. `open` is the set of nodes whose scan has begun and not ended; everything
     * else seen so far is swept. Each entered node leaves the unseen part of the heap, so the scan ends.
     */
    method Contains(v: Value, ghost open: set<nat>) returns (found: bool)
      requires Closed(heap) && (v.Reference? ==> v.node in heap)
      requires open <= seen <= heap.Keys && Swept(heap, seen - open, open, forbidden)
      modifies this`seen
      ensures old(seen) <= seen <= heap.Keys
      ensures found ==> HasSecret(heap, v, forbidden)
      ensures !found ==> Swept(heap, seen - open, open, forbidden) && (v.Reference? ==> v.node in seen)
      decreases heap.Keys - seen, 1
    {
      if v.Primitive? {
        return false;
      }
      if v.node in seen {
        return false;
      }
      seen := seen + {v.node};
      ghost var inner := open + {v.node};
      assert seen - inner == old(seen) - open;
      ReachesSelf(heap, v.node);
      found := ContainsBelow(v.node, inner);
      assert !found ==> seen - open == (seen - inner) + {v.node};
    }

    /** The `some` loop over a node's items or entries: stops at the first hit. */
    method ContainsBelow(n: nat, ghost open: set<nat>) returns (found: bool)
      requires Closed(heap) && n in heap && n in open
      requires open <= seen <= heap.Keys && Swept(heap, seen - open, open, forbidden)
      modifies this`seen
      ensures old(seen) <= seen <= heap.Keys
      ensures found ==> HasSecret(heap, Reference(n), forbidden)
      ensures !found ==> Swept(heap, seen - open, open, forbidden) && !Offends(heap[n], forbidden)
      ensures !found ==> forall v :: v in Children(heap[n]) && v.Reference? ==> v.node in seen
      decreases heap.Keys - seen, 2
    {
      var node := heap[n];
      var values := Children(node);
      ReachesSelf(heap, n);
      var i := 0;
      while i < |values|
        invariant 0 <= i <= |values|
        invariant old(seen) <= seen <= heap.Keys && Swept(heap, seen - open, open, forbidden)
        invariant node.ObjectNode? ==> forall k :: 0 <= k < i ==> !forbidden(node.entries[k].key)
        invariant forall k :: 0 <= k < i && values[k].Reference? ==> values[k].node in seen
      {
        if node.ObjectNode? && forbidden(node.entries[i].key) {
          return true;
        }
        found := Contains(values[i], open);
        if found {
          SecretBelow(heap, n, values[i], forbidden);
          return true;
        }
        i := i + 1;
      }
      found := false;
    }
  }

  /**
   * The scan from a fresh `seen` set answers exactly whether a forbidden key is reachable from the root,
   * on every closed heap, cyclic or shared.
   */
  method ContainsForbiddenSecret(heap: Heap, root: Value, forbidden: string -> bool) returns (found: bool)
    requires Closed(heap) && (root.Reference? ==> root.node in heap)
    ensures found <==> HasSecret(heap, root, forbidden)
  {
    var scan := new Scan(heap, forbidden);
    found := scan.Contains(root, {});
    if !found && root.Reference? {
      assert scan.seen - {} == scan.seen;
      SweptMeansClean(heap, scan.seen, root.node, forbidden);
    }
  }
}
