/**
 * Sanitising and canonicalising of evidence values. A value is a JavaScript value as it is enumerated; its meaning
 * forgets the order in which object keys are enumerated.
 */
module EvidenceSanitizer {
  import opened StableOrder

  /**
   * `NonFinite` is NaN or an infinity. `Other` is any value that is neither null, a boolean, a number, a string, a list
   * nor an object, as its text.
   */
  datatype Json =
    | Null
    | Undefined
    | Bool(flag: bool)
    | Num(number: real)
    | NonFinite(name: string)
    | Str(text: string)
    | Other(display: string)
    | Arr(items: seq<Json>)
    | Obj(entries: seq<Entry>)

  datatype Entry = Entry(key: string, value: Json)

  /** Values deeper than `depth` are replaced, lists are cut to `items` and strings to `chars`. */
  datatype Limits = Limits(depth: nat, items: nat, chars: nat)

  const EVIDENCE_LIMITS := Limits(10, 100, 4000)
  const METADATA_LIMITS := Limits(8, 50, 1000)
  const CANONICAL_LIMITS := Limits(12, 100, 4000)
  const DEPTH_LIMITED := "[depth-limited]"

  function Cut(s: string, n: nat): string {
    if n <= |s| then s[..n] else s
  }

  /** Objects have no key twice, at any depth. */
  ghost predicate DistinctKeys(v: Json) {
    match v
    case Arr(items) => forall i :: 0 <= i < |items| ==> DistinctKeys(items[i])
    case Obj(entries) =>
      && KeysOnce(entries)
      && forall i :: 0 <= i < |entries| ==> DistinctKeys(entries[i].value)
    case _ => true
  }

  ghost predicate KeysOnce(entries: seq<Entry>) {
    forall i, j :: 0 <= i < j < |entries| ==> entries[i].key != entries[j].key
  }

  // ---------------------------------------------------------------- sanitising

  function Sanitize(v: Json, depth: nat, limits: Limits, secret: string -> bool): Json
    decreases v
  {
    if depth > limits.depth then Str(DEPTH_LIMITED)
    else match v
      case Null => Null
      case Undefined => Null
      case Arr(items) => Arr(SanitizeItems(items, limits.items, depth + 1, limits, secret))
      case Obj(entries) => Obj(SanitizeEntries(entries, depth + 1, limits, secret))
      case Str(text) => Str(Cut(text, limits.chars))
      case Other(display) => Str(Cut(display, limits.chars))
      case _ => v
  }

  function SanitizeItems(items: seq<Json>, room: nat, depth: nat, limits: Limits, secret: string -> bool):
    (r: seq<Json>)
    ensures |r| <= room && |r| <= |items|
    decreases items
  {
    if items == [] || room == 0 then []
    else [Sanitize(items[0], depth, limits, secret)] + SanitizeItems(items[1..], room - 1, depth, limits, secret)
  }

  function SanitizeEntries(entries: seq<Entry>, depth: nat, limits: Limits, secret: string -> bool): seq<Entry>
    decreases entries
  {
    if entries == [] then []
    else if secret(entries[0].key) then SanitizeEntries(entries[1..], depth, limits, secret)
    else [Entry(entries[0].key, Sanitize(entries[0].value, depth, limits, secret))] +
         SanitizeEntries(entries[1..], depth, limits, secret)
  }

  /** The source's form: recursion over values, with a loop over the items or the entries of each. */
  method SanitizeActivationEvidence(v: Json, depth: nat, limits: Limits, secret: string -> bool) returns (r: Json)
    ensures r == Sanitize(v, depth, limits, secret)
    decreases v
  {
    if depth > limits.depth {
      return Str(DEPTH_LIMITED);
    }
    match v
    case Null => r := Null;
    case Undefined => r := Null;
    case Arr(items) =>
      var kept := SanitizeEach(items, depth + 1, limits, secret);
      r := Arr(kept);
    case Obj(entries) =>
      var kept := SanitizeFields(entries, depth + 1, limits, secret);
      r := Obj(kept);
    case Str(text) => r := Str(Cut(text, limits.chars));
    case Other(display) => r := Str(Cut(display, limits.chars));
    case Bool(_) => r := v;
    case Num(_) => r := v;
    case NonFinite(_) => r := v;
  }

  method SanitizeEach(items: seq<Json>, depth: nat, limits: Limits, secret: string -> bool) returns (kept: seq<Json>)
    ensures kept == SanitizeItems(items, limits.items, depth, limits, secret)
    decreases items
  {
    var n := if |items| < limits.items then |items| else limits.items;
    kept := [];
    for i := 0 to n
      invariant kept + SanitizeItems(items[i..], limits.items - i, depth, limits, secret) ==
                SanitizeItems(items, limits.items, depth, limits, secret)
    {
      var item := SanitizeActivationEvidence(items[i], depth, limits, secret);
      assert items[i..][1..] == items[i + 1..];
      kept := kept + [item];
    }
  }

  method SanitizeFields(entries: seq<Entry>, depth: nat, limits: Limits, secret: string -> bool)
    returns (kept: seq<Entry>)
    ensures kept == SanitizeEntries(entries, depth, limits, secret)
    decreases entries
  {
    kept := [];
    for i := 0 to |entries|
      invariant kept + SanitizeEntries(entries[i..], depth, limits, secret) ==
                SanitizeEntries(entries, depth, limits, secret)
    {
      assert entries[i..][1..] == entries[i + 1..];
      if !secret(entries[i].key) {
        var item := SanitizeActivationEvidence(entries[i].value, depth, limits, secret);
        kept := kept + [Entry(entries[i].key, item)];
      }
    }
  }

  // ---------------------------------------------------------------- no secret survives

  ghost predicate Clean(v: Json, secret: string -> bool) {
    match v
    case Arr(items) => forall i :: 0 <= i < |items| ==> Clean(items[i], secret)
    case Obj(entries) =>
      forall i :: 0 <= i < |entries| ==> !secret(entries[i].key) && Clean(entries[i].value, secret)
    case _ => true
  }

  lemma {:induction false} SanitizedIsClean(v: Json, depth: nat, limits: Limits, secret: string -> bool)
    ensures Clean(Sanitize(v, depth, limits, secret), secret)
    decreases v
  {
    if depth <= limits.depth {
      match v
      case Arr(items) => CleanItems(items, limits.items, depth + 1, limits, secret);
      case Obj(entries) => CleanEntries(entries, depth + 1, limits, secret);
      case _ =>
    }
  }

  lemma {:induction false} CleanItems(items: seq<Json>, room: nat, depth: nat, limits: Limits, secret: string -> bool)
    ensures Clean(Arr(SanitizeItems(items, room, depth, limits, secret)), secret)
    decreases items
  {
    if items != [] && room != 0 {
      SanitizedIsClean(items[0], depth, limits, secret);
      CleanItems(items[1..], room - 1, depth, limits, secret);
    }
  }

  lemma {:induction false} CleanEntries(entries: seq<Entry>, depth: nat, limits: Limits, secret: string -> bool)
    ensures Clean(Obj(SanitizeEntries(entries, depth, limits, secret)), secret)
    decreases entries
  {
    if entries != [] {
      SanitizedIsClean(entries[0].value, depth, limits, secret);
      CleanEntries(entries[1..], depth, limits, secret);
    }
  }

  // ---------------------------------------------------------------- sanitising twice

  lemma {:induction false} SanitizeTwice(v: Json, depth: nat, limits: Limits, secret: string -> bool)
    ensures Sanitize(Sanitize(v, depth, limits, secret), depth, limits, secret) == Sanitize(v, depth, limits, secret)
    decreases v
  {
    if depth <= limits.depth {
      match v
      case Arr(items) => ItemsTwice(items, limits.items, depth + 1, limits, secret);
      case Obj(entries) => EntriesTwice(entries, depth + 1, limits, secret);
      case _ =>
    }
  }

  lemma {:induction false} ItemsTwice(items: seq<Json>, room: nat, depth: nat, limits: Limits, secret: string -> bool)
    ensures var once := SanitizeItems(items, room, depth, limits, secret);
            SanitizeItems(once, room, depth, limits, secret) == once
    decreases items
  {
    if items != [] && room != 0 {
      SanitizeTwice(items[0], depth, limits, secret);
      ItemsTwice(items[1..], room - 1, depth, limits, secret);
      assert SanitizeItems(items, room, depth, limits, secret)[1..] ==
             SanitizeItems(items[1..], room - 1, depth, limits, secret);
    }
  }

  lemma {:induction false} EntriesTwice(entries: seq<Entry>, depth: nat, limits: Limits, secret: string -> bool)
    ensures var once := SanitizeEntries(entries, depth, limits, secret);
            SanitizeEntries(once, depth, limits, secret) == once
    decreases entries
  {
    if entries != [] {
      EntriesTwice(entries[1..], depth, limits, secret);
      if !secret(entries[0].key) {
        SanitizeTwice(entries[0].value, depth, limits, secret);
        assert SanitizeEntries(entries, depth, limits, secret)[1..] ==
               SanitizeEntries(entries[1..], depth, limits, secret);
      }
    }
  }

  // ---------------------------------------------------------------- canonical form

  /** Order of strings by code unit, as the default array sort compares keys. */
  predicate TextLeq(a: string, b: string) {
    if a == [] then true
    else if b == [] then false
    else if a[0] != b[0] then a[0] < b[0]
    else TextLeq(a[1..], b[1..])
  }

  predicate KeyLeq(a: Entry, b: Entry) {
    TextLeq(a.key, b.key)
  }

  /** Sorting by key, every depth, with no limit: what a canonical form written out is meant to be. */
  function SortKeys(v: Json): Json
    decreases v
  {
    match v
    case Undefined => Null
    case NonFinite(_) => Null
    case Other(display) => Str(display)
    case Arr(items) => Arr(SortItems(items))
    case Obj(entries) => Obj(Sort(SortValues(entries), KeyLeq))
    case _ => v
  }

  function SortItems(items: seq<Json>): (r: seq<Json>)
    ensures |r| == |items|
    decreases items
  {
    if items == [] then [] else [SortKeys(items[0])] + SortItems(items[1..])
  }

  function SortValues(entries: seq<Entry>): (r: seq<Entry>)
    ensures |r| == |entries| && forall i :: 0 <= i < |entries| ==> r[i].key == entries[i].key
    decreases entries
  {
    if entries == [] then [] else [Entry(entries[0].key, SortKeys(entries[0].value))] + SortValues(entries[1..])
  }

  /** The source's canonicaliser with its limits, as its result is written out: a number that is not finite is null. */
  function Canonicalize(v: Json, depth: nat, limits: Limits): Json
    decreases v
  {
    if depth > limits.depth then Str(DEPTH_LIMITED)
    else match v
      case Null => Null
      case Undefined => Null
      case NonFinite(_) => Null
      case Arr(items) => Arr(CanonicalItems(items, limits.items, depth + 1, limits))
      case Obj(entries) => Obj(Sort(CanonicalEntries(entries, depth + 1, limits), KeyLeq))
      case Str(text) => Str(Cut(text, limits.chars))
      case Other(display) => Str(Cut(display, limits.chars))
      case _ => v
  }

  function CanonicalItems(items: seq<Json>, room: nat, depth: nat, limits: Limits): seq<Json>
    decreases items
  {
    if items == [] || room == 0 then []
    else [Canonicalize(items[0], depth, limits)] + CanonicalItems(items[1..], room - 1, depth, limits)
  }

  function CanonicalEntries(entries: seq<Entry>, depth: nat, limits: Limits): seq<Entry>
    decreases entries
  {
    if entries == [] then []
    else [Entry(entries[0].key, Canonicalize(entries[0].value, depth, limits))] +
         CanonicalEntries(entries[1..], depth, limits)
  }

  // ---------------------------------------------------------------- canonicalising truncates nothing

  /** Within limits: nothing in `v`, standing at `depth`, would be cut or replaced. */
  ghost predicate Fits(v: Json, depth: nat, limits: Limits) {
    && depth <= limits.depth
    && match v
       case Arr(items) => |items| <= limits.items && AllFit(items, depth + 1, limits)
       case Obj(entries) => AllValuesFit(entries, depth + 1, limits)
       case Str(text) => |text| <= limits.chars
       case Other(display) => |display| <= limits.chars
       case _ => true
  }

  ghost predicate AllFit(items: seq<Json>, depth: nat, limits: Limits) {
    forall i :: 0 <= i < |items| ==> Fits(items[i], depth, limits)
  }

  ghost predicate AllValuesFit(entries: seq<Entry>, depth: nat, limits: Limits) {
    forall i :: 0 <= i < |entries| ==> Fits(entries[i].value, depth, limits)
  }

  lemma {:induction false} FittingOnlySorts(v: Json, depth: nat, limits: Limits)
    requires Fits(v, depth, limits)
    ensures Canonicalize(v, depth, limits) == SortKeys(v)
    decreases v
  {
    match v
    case Arr(items) => FittingItems(items, limits.items, depth + 1, limits);
    case Obj(entries) => FittingEntries(entries, depth + 1, limits);
    case _ =>
  }

  lemma {:induction false} FittingItems(items: seq<Json>, room: nat, depth: nat, limits: Limits)
    requires |items| <= room && AllFit(items, depth, limits)
    ensures CanonicalItems(items, room, depth, limits) == SortItems(items)
    decreases items
  {
    if items != [] {
      FittingOnlySorts(items[0], depth, limits);
      FittingItems(items[1..], room - 1, depth, limits);
    }
  }

  lemma {:induction false} FittingEntries(entries: seq<Entry>, depth: nat, limits: Limits)
    requires AllValuesFit(entries, depth, limits)
    ensures CanonicalEntries(entries, depth, limits) == SortValues(entries)
    decreases entries
  {
    if entries != [] {
      FittingOnlySorts(entries[0].value, depth, limits);
      FittingEntries(entries[1..], depth, limits);
    }
  }

  // ---------------------------------------------------------------- sanitising removes nothing else

  /** Values that serialise as themselves, at every depth. */
  ghost predicate Plain(v: Json) {
    match v
    case Undefined => false
    case Other(_) => false
    case Arr(items) => forall i :: 0 <= i < |items| ==> Plain(items[i])
    case Obj(entries) => forall i :: 0 <= i < |entries| ==> Plain(entries[i].value)
    case _ => true
  }

  /** Evidence within the limits and without a secret key is stored as it is. */
  lemma {:induction false} HarmlessPasses(v: Json, depth: nat, limits: Limits, secret: string -> bool)
    requires Fits(v, depth, limits) && Clean(v, secret) && Plain(v)
    ensures Sanitize(v, depth, limits, secret) == v
    decreases v
  {
    match v
    case Arr(items) => HarmlessItems(items, limits.items, depth + 1, limits, secret);
    case Obj(entries) => HarmlessEntries(entries, depth + 1, limits, secret);
    case _ =>
  }

  lemma {:induction false} HarmlessItems(items: seq<Json>, room: nat, depth: nat, limits: Limits,
                                         secret: string -> bool)
    requires |items| <= room && AllFit(items, depth, limits)
    requires forall i :: 0 <= i < |items| ==> Clean(items[i], secret) && Plain(items[i])
    ensures SanitizeItems(items, room, depth, limits, secret) == items
    decreases items
  {
    if items != [] {
      HarmlessPasses(items[0], depth, limits, secret);
      HarmlessItems(items[1..], room - 1, depth, limits, secret);
    }
  }

  lemma {:induction false} HarmlessEntries(entries: seq<Entry>, depth: nat, limits: Limits, secret: string -> bool)
    requires AllValuesFit(entries, depth, limits)
    requires forall i :: 0 <= i < |entries| ==>
               !secret(entries[i].key) && Clean(entries[i].value, secret) && Plain(entries[i].value)
    ensures SanitizeEntries(entries, depth, limits, secret) == entries
    decreases entries
  {
    if entries != [] {
      HarmlessPasses(entries[0].value, depth, limits, secret);
      HarmlessEntries(entries[1..], depth, limits, secret);
      assert entries[0] == Entry(entries[0].key, entries[0].value);
    }
  }

  /** What becomes of a value that is neither a list nor an object, and of one that stands too deep. */
  lemma ScalarsAreCut(v: Json, depth: nat, limits: Limits, secret: string -> bool)
    ensures depth > limits.depth ==> Sanitize(v, depth, limits, secret) == Str("[depth-limited]")
    ensures depth <= limits.depth && v.Str? ==>
              Sanitize(v, depth, limits, secret) ==
              Str(if |v.text| > limits.chars then v.text[..limits.chars] else v.text)
    ensures depth <= limits.depth && v.Other? ==>
              Sanitize(v, depth, limits, secret) ==
              Str(if |v.display| > limits.chars then v.display[..limits.chars] else v.display)
    ensures depth <= limits.depth && (v.Null? || v.Undefined?) ==> Sanitize(v, depth, limits, secret) == Null
    ensures depth <= limits.depth && (v.Bool? || v.Num? || v.NonFinite?) ==> Sanitize(v, depth, limits, secret) == v
  {
  }

  /** A list keeps its first elements, as many as the limit allows, each sanitised on its own. */
  lemma {:induction false} ItemsAreFirst(items: seq<Json>, room: nat, depth: nat, limits: Limits,
                                         secret: string -> bool)
    ensures var kept := SanitizeItems(items, room, depth, limits, secret);
            && |kept| == (if |items| <= room then |items| else room)
            && forall i :: 0 <= i < |kept| ==> kept[i] == Sanitize(items[i], depth, limits, secret)
    decreases items
  {
    if items != [] && room != 0 {
      ItemsAreFirst(items[1..], room - 1, depth, limits, secret);
    }
  }

  /** An object keeps exactly its entries without a secret key, in order, each value sanitised on its own. */
  lemma {:induction false} EntriesAreTheRest(entries: seq<Entry>, depth: nat, limits: Limits, secret: string -> bool)
    ensures var rest := Filter(entries, (e: Entry) => !secret(e.key));
            var kept := SanitizeEntries(entries, depth, limits, secret);
            && |kept| == |rest|
            && forall i :: 0 <= i < |kept| ==>
                 kept[i] == Entry(rest[i].key, Sanitize(rest[i].value, depth, limits, secret))
    decreases entries
  {
    if entries != [] {
      EntriesAreTheRest(entries[1..], depth, limits, secret);
    }
  }

  // ---------------------------------------------------------------- the canonical limits are roomier

  /** `outer` is roomier than `inner` by `shift` levels and by the one level a depth marker takes. */
  predicate Roomier(outer: Limits, inner: Limits, shift: nat) {
    && inner.depth + 1 + shift <= outer.depth
    && inner.items <= outer.items
    && inner.chars <= outer.chars
    && |DEPTH_LIMITED| <= outer.chars
  }

  lemma {:induction false} SanitizedFits(v: Json, depth: nat, at: nat, inner: Limits, outer: Limits,
                                         secret: string -> bool)
    requires depth <= at && Roomier(outer, inner, at - depth) && depth <= inner.depth + 1
    ensures Fits(Sanitize(v, depth, inner, secret), at, outer)
    decreases v
  {
    if depth <= inner.depth {
      match v
      case Arr(items) => ItemsFit(items, inner.items, depth + 1, at + 1, inner, outer, secret);
      case Obj(entries) => EntriesFit(entries, depth + 1, at + 1, inner, outer, secret);
      case _ =>
    }
  }

  lemma {:induction false} ItemsFit(items: seq<Json>, room: nat, depth: nat, at: nat, inner: Limits, outer: Limits,
                                    secret: string -> bool)
    requires depth <= at && Roomier(outer, inner, at - depth) && depth <= inner.depth + 1
    ensures AllFit(SanitizeItems(items, room, depth, inner, secret), at, outer)
    decreases items
  {
    if items != [] && room != 0 {
      SanitizedFits(items[0], depth, at, inner, outer, secret);
      ItemsFit(items[1..], room - 1, depth, at, inner, outer, secret);
    }
  }

  lemma {:induction false} EntriesFit(entries: seq<Entry>, depth: nat, at: nat, inner: Limits, outer: Limits,
                                      secret: string -> bool)
    requires depth <= at && Roomier(outer, inner, at - depth) && depth <= inner.depth + 1
    ensures AllValuesFit(SanitizeEntries(entries, depth, inner, secret), at, outer)
    decreases entries
  {
    if entries != [] {
      SanitizedFits(entries[0].value, depth, at, inner, outer, secret);
      EntriesFit(entries[1..], depth, at, inner, outer, secret);
    }
  }

  /** Canonicalising sanitised evidence only sorts keys: no depth, list or string limit takes effect. */
  lemma CanonicalOnlySorts(v: Json, secret: string -> bool)
    ensures var clean := Sanitize(v, 0, EVIDENCE_LIMITS, secret);
            Canonicalize(clean, 0, CANONICAL_LIMITS) == SortKeys(clean)
  {
    SanitizedFits(v, 0, 0, EVIDENCE_LIMITS, CANONICAL_LIMITS, secret);
    FittingOnlySorts(Sanitize(v, 0, EVIDENCE_LIMITS, secret), 0, CANONICAL_LIMITS);
  }
}
