/**
 * What the canonical form of sanitised evidence identifies: two inputs serialise alike exactly when they sanitise
 * to the same value, whatever the order of their object keys.
 */
module CanonicalForm {
  import opened Outcomes
  import opened StableOrder
  import opened EvidenceSanitizer

  /** A value as it is written out, with its object keys in no order; what is written as null is no value. */
  datatype Value =
    | NoValue
    | Flag(flag: bool)
    | Number(number: real)
    | Text(text: string)
    | List(items: seq<Value>)
    | Record(fields: map<string, Value>)

  function Meaning(v: Json): Value
    decreases v
  {
    match v
    case Null => NoValue
    case Undefined => NoValue
    case NonFinite(_) => NoValue
    case Bool(b) => Flag(b)
    case Num(n) => Number(n)
    case Str(text) => Text(text)
    case Other(display) => Text(display)
    case Arr(items) => List(Meanings(items))
    case Obj(entries) => Record(Fields(entries))
  }

  function Meanings(items: seq<Json>): (r: seq<Value>)
    ensures |r| == |items| && forall i :: 0 <= i < |items| ==> r[i] == Meaning(items[i])
    decreases items
  {
    if items == [] then [] else [Meaning(items[0])] + Meanings(items[1..])
  }

  function Fields(entries: seq<Entry>): map<string, Value>
    decreases entries
  {
    if entries == [] then map[] else Fields(entries[1..])[entries[0].key := Meaning(entries[0].value)]
  }

  lemma {:induction false} FieldsHold(entries: seq<Entry>, i: nat)
    requires KeysOnce(entries) && i < |entries|
    ensures entries[i].key in Fields(entries) && Fields(entries)[entries[i].key] == Meaning(entries[i].value)
  {
    if i > 0 {
      FieldsHold(entries[1..], i - 1);
      assert entries[i] == entries[1..][i - 1];
    }
  }

  lemma {:induction false} FieldOf(entries: seq<Entry>, key: string) returns (i: nat)
    requires KeysOnce(entries) && key in Fields(entries)
    ensures i < |entries| && entries[i].key == key && Fields(entries)[key] == Meaning(entries[i].value)
  {
    if entries[0].key == key {
      i := 0;
    } else {
      var j := FieldOf(entries[1..], key);
      i := j + 1;
    }
  }

  // ---------------------------------------------------------------- the order of keys

  lemma {:induction false} TextTotal(a: string, b: string)
    ensures TextLeq(a, b) || TextLeq(b, a)
    ensures TextLeq(a, b) && TextLeq(b, a) ==> a == b
  {
    if a != [] && b != [] {
      TextTotal(a[1..], b[1..]);
      assert a == [a[0]] + a[1..] && b == [b[0]] + b[1..];
    }
  }

  lemma {:induction false} TextTransitive(a: string, b: string, c: string)
    requires TextLeq(a, b) && TextLeq(b, c)
    ensures TextLeq(a, c)
  {
    if a != [] && b != [] && c != [] && a[0] == b[0] && b[0] == c[0] {
      TextTransitive(a[1..], b[1..], c[1..]);
    }
  }

  /** Text is ordered by the first code unit that differs, and a prefix comes first. */
  lemma {:induction false} TextOrderMeans(a: string, b: string)
    ensures TextLeq(a, b) <==>
            exists k :: && 0 <= k <= |a| && k <= |b| && a[..k] == b[..k]
                        && (k == |a| || (k < |b| && a[k] < b[k]))
  {
    if a == [] {
      assert a[..0] == b[..0];
    } else if b != [] {
      if a[0] == b[0] {
        TextOrderMeans(a[1..], b[1..]);
        if k :| && 0 <= k <= |a[1..]| && k <= |b[1..]| && a[1..][..k] == b[1..][..k]
                && (k == |a[1..]| || (k < |b[1..]| && a[1..][k] < b[1..][k])) {
          assert a[..k + 1] == [a[0]] + a[1..][..k] && b[..k + 1] == [b[0]] + b[1..][..k];
        }
        if k :| && 0 <= k <= |a| && k <= |b| && a[..k] == b[..k] && (k == |a| || (k < |b| && a[k] < b[k])) {
          assert k > 0;
          assert a[1..][..k - 1] == a[..k][1..] && b[1..][..k - 1] == b[..k][1..];
        }
      } else if a[0] < b[0] {
        assert a[..0] == b[..0];
      } else {
        assert forall k :: 0 < k <= |a| && k <= |b| ==> a[..k][0] == a[0] && b[..k][0] == b[0];
      }
    }
  }

  lemma KeyOrder()
    ensures TotalPreorder(KeyLeq)
  {
    forall a, b ensures KeyLeq(a, b) || KeyLeq(b, a) {
      TextTotal(a.key, b.key);
    }
    forall a, b, c | KeyLeq(a, b) && KeyLeq(b, c) ensures KeyLeq(a, c) {
      TextTransitive(a.key, b.key, c.key);
    }
  }

  lemma {:induction false} InsertKeepsKeysOnce(x: Entry, s: seq<Entry>)
    requires KeysOnce(s) && forall e :: e in s ==> e.key != x.key
    ensures KeysOnce(Insert(x, s, KeyLeq))
  {
    if s != [] && !KeyLeq(x, s[0]) {
      InsertKeepsKeysOnce(x, s[1..]);
      var rest := Insert(x, s[1..], KeyLeq);
      forall j | 0 <= j < |rest| ensures rest[j].key != s[0].key {
        assert rest[j] in rest;
      }
    }
  }

  lemma {:induction false} SortKeepsKeysOnce(s: seq<Entry>)
    requires KeysOnce(s)
    ensures KeysOnce(Sort(s, KeyLeq))
  {
    if s != [] {
      SortKeepsKeysOnce(s[1..]);
      InsertKeepsKeysOnce(s[0], Sort(s[1..], KeyLeq));
    }
  }

  /** Sorted entries with distinct keys are determined by which entries they are. */
  lemma {:induction false} SortedOnce(a: seq<Entry>, b: seq<Entry>)
    requires KeysOnce(a) && KeysOnce(b) && Sorted(a, KeyLeq) && Sorted(b, KeyLeq)
    requires forall e :: e in a <==> e in b
    ensures a == b
  {
    assert b != [] ==> b[0] in a;
    if a != [] {
      assert a[0] in b;
      assert a[0].key == b[0].key by {
        TextTotal(a[0].key, a[0].key);
        TextTotal(a[0].key, b[0].key);
        assert KeyLeq(a[0], b[0]) && KeyLeq(b[0], a[0]);
      }
      assert a[0] == b[0];
      forall e ensures e in a[1..] <==> e in b[1..] {
        RestWithoutHead(a, e);
        RestWithoutHead(b, e);
      }
      SortedOnce(a[1..], b[1..]);
      assert a == [a[0]] + a[1..] && b == [b[0]] + b[1..];
    }
  }

  lemma RestWithoutHead(s: seq<Entry>, e: Entry)
    requires KeysOnce(s) && s != []
    ensures e in s[1..] <==> e in s && e != s[0]
  {
  }

  // ---------------------------------------------------------------- sorting keys keeps the meaning

  lemma FieldsOfSameEntries(a: seq<Entry>, b: seq<Entry>)
    requires KeysOnce(a) && KeysOnce(b) && forall e :: e in a <==> e in b
    ensures Fields(a) == Fields(b)
  {
    FieldsIncluded(a, b);
    FieldsIncluded(b, a);
  }

  lemma FieldsIncluded(a: seq<Entry>, b: seq<Entry>)
    requires KeysOnce(a) && KeysOnce(b) && forall e :: e in a ==> e in b
    ensures forall k :: k in Fields(a) ==> k in Fields(b) && Fields(a)[k] == Fields(b)[k]
  {
    forall k | k in Fields(a) ensures k in Fields(b) && Fields(a)[k] == Fields(b)[k] {
      var i := FieldOf(a, k);
      assert a[i] in b;
      var j :| 0 <= j < |b| && b[j] == a[i];
      FieldsHold(b, j);
    }
  }

  lemma {:induction false} SortKeysKeepsMeaning(v: Json)
    requires DistinctKeys(v)
    ensures Meaning(SortKeys(v)) == Meaning(v)
    decreases v
  {
    match v
    case Arr(items) => SortItemsKeepMeaning(items);
    case Obj(entries) =>
      SortValuesKeepFields(entries);
      SortKeepsKeysOnce(SortValues(entries));
      FieldsOfSameEntries(Sort(SortValues(entries), KeyLeq), SortValues(entries));
    case _ =>
  }

  lemma {:induction false} SortItemsKeepMeaning(items: seq<Json>)
    requires forall i :: 0 <= i < |items| ==> DistinctKeys(items[i])
    ensures Meanings(SortItems(items)) == Meanings(items)
    decreases items
  {
    if items != [] {
      SortKeysKeepsMeaning(items[0]);
      SortItemsKeepMeaning(items[1..]);
      assert SortItems(items)[1..] == SortItems(items[1..]);
    }
  }

  lemma {:induction false} SortValuesKeepFields(entries: seq<Entry>)
    requires forall i :: 0 <= i < |entries| ==> DistinctKeys(entries[i].value)
    ensures Fields(SortValues(entries)) == Fields(entries)
    decreases entries
  {
    if entries != [] {
      SortKeysKeepsMeaning(entries[0].value);
      SortValuesKeepFields(entries[1..]);
      assert SortValues(entries)[1..] == SortValues(entries[1..]);
    }
  }

  // ---------------------------------------------------------------- the meaning determines the sorted form

  lemma {:induction false} MeaningFixesSorted(a: Json, b: Json)
    requires DistinctKeys(a) && DistinctKeys(b) && Meaning(a) == Meaning(b)
    ensures SortKeys(a) == SortKeys(b)
    decreases a
  {
    if a.Arr? {
      MeaningFixesItems(a.items, b.items);
    } else if a.Obj? {
      MeaningFixesEntries(a.entries, b.entries);
    }
  }

  lemma {:induction false} MeaningFixesItems(a: seq<Json>, b: seq<Json>)
    requires forall i :: 0 <= i < |a| ==> DistinctKeys(a[i])
    requires forall i :: 0 <= i < |b| ==> DistinctKeys(b[i])
    requires Meanings(a) == Meanings(b)
    ensures SortItems(a) == SortItems(b)
    decreases a
  {
    assert |a| == |Meanings(a)| == |b|;
    if a != [] {
      assert Meaning(a[0]) == Meanings(a)[0] == Meaning(b[0]);
      MeaningFixesSorted(a[0], b[0]);
      assert Meanings(a)[1..] == Meanings(a[1..]) && Meanings(b)[1..] == Meanings(b[1..]);
      MeaningFixesItems(a[1..], b[1..]);
    }
  }

  lemma SortedValue(entries: seq<Entry>, i: nat)
    requires i < |entries|
    ensures SortValues(entries)[i] == Entry(entries[i].key, SortKeys(entries[i].value))
  {
    if i > 0 {
      SortedValue(entries[1..], i - 1);
    }
  }

  lemma {:induction false} MeaningFixesEntries(a: seq<Entry>, b: seq<Entry>)
    requires DistinctKeys(Obj(a)) && DistinctKeys(Obj(b)) && Fields(a) == Fields(b)
    ensures Sort(SortValues(a), KeyLeq) == Sort(SortValues(b), KeyLeq)
    decreases a, 1
  {
    var sa, sb := SortValues(a), SortValues(b);
    forall i | 0 <= i < |sa| ensures sa[i] in sb {
      FieldsHold(a, i);
      var j := FieldOf(b, a[i].key);
      MeaningFixesSorted(a[i].value, b[j].value);
      SortedValue(a, i);
      SortedValue(b, j);
      assert sa[i] == sb[j];
    }
    forall j | 0 <= j < |sb| ensures sb[j] in sa {
      FieldsHold(b, j);
      var i := FieldOf(a, b[j].key);
      MeaningFixesSorted(a[i].value, b[j].value);
      SortedValue(a, i);
      SortedValue(b, j);
      assert sb[j] == sa[i];
    }
    KeyOrder();
    SortSorts(sa, KeyLeq);
    SortSorts(sb, KeyLeq);
    SortKeepsKeysOnce(sa);
    SortKeepsKeysOnce(sb);
    SortedOnce(Sort(sa, KeyLeq), Sort(sb, KeyLeq));
  }

  /** The sorted form is a faithful name of the meaning. */
  lemma SortedNamesMeaning(a: Json, b: Json)
    requires DistinctKeys(a) && DistinctKeys(b)
    ensures SortKeys(a) == SortKeys(b) <==> Meaning(a) == Meaning(b)
  {
    SortKeysKeepsMeaning(a);
    SortKeysKeepsMeaning(b);
    if Meaning(a) == Meaning(b) {
      MeaningFixesSorted(a, b);
    }
  }

  // ---------------------------------------------------------------- sanitising meanings

  /** Sanitising of values whose keys have no order. */
  function SanitizeValue(v: Value, depth: nat, limits: Limits, secret: string -> bool): Value
    decreases v
  {
    if depth > limits.depth then Text(DEPTH_LIMITED)
    else match v
      case List(items) =>
        var n := if |items| < limits.items then |items| else limits.items;
        List(seq(n, i requires 0 <= i < n => SanitizeValue(items[i], depth + 1, limits, secret)))
      case Record(fields) =>
        Record(map k | k in fields && !secret(k) :: SanitizeValue(fields[k], depth + 1, limits, secret))
      case Text(text) => Text(Cut(text, limits.chars))
      case _ => v
  }

  function SanitizeRecord(fields: map<string, Value>, depth: nat, limits: Limits, secret: string -> bool):
    map<string, Value>
  {
    map k | k in fields && !secret(k) :: SanitizeValue(fields[k], depth, limits, secret)
  }

  lemma {:induction false} SanitizedMeaning(v: Json, depth: nat, limits: Limits, secret: string -> bool)
    requires DistinctKeys(v)
    ensures DistinctKeys(Sanitize(v, depth, limits, secret))
    ensures Meaning(Sanitize(v, depth, limits, secret)) == SanitizeValue(Meaning(v), depth, limits, secret)
    decreases v
  {
    if depth <= limits.depth {
      if v.Arr? {
        SanitizedItems(v.items, limits.items, depth + 1, limits, secret);
        ListMeaning(v.items, depth, limits, secret);
      } else if v.Obj? {
        SanitizedEntries(v.entries, depth + 1, limits, secret);
        assert SanitizeValue(Meaning(v), depth, limits, secret) ==
               Record(SanitizeRecord(Fields(v.entries), depth + 1, limits, secret));
      }
    }
  }

  lemma ListMeaning(items: seq<Json>, depth: nat, limits: Limits, secret: string -> bool)
    requires depth <= limits.depth
    requires var kept := SanitizeItems(items, limits.items, depth + 1, limits, secret);
             && |kept| == (if |items| < limits.items then |items| else limits.items)
             && forall i :: 0 <= i < |kept| ==>
                  Meaning(kept[i]) == SanitizeValue(Meaning(items[i]), depth + 1, limits, secret)
    ensures List(Meanings(SanitizeItems(items, limits.items, depth + 1, limits, secret))) ==
            SanitizeValue(List(Meanings(items)), depth, limits, secret)
  {
  }

  lemma {:induction false} SanitizedItems(items: seq<Json>, room: nat, depth: nat, limits: Limits,
                                          secret: string -> bool)
    requires forall i :: 0 <= i < |items| ==> DistinctKeys(items[i])
    ensures var kept := SanitizeItems(items, room, depth, limits, secret);
            && |kept| == (if |items| < room then |items| else room)
            && forall i :: 0 <= i < |kept| ==>
                 && DistinctKeys(kept[i])
                 && Meaning(kept[i]) == SanitizeValue(Meaning(items[i]), depth, limits, secret)
    decreases items
  {
    if items != [] && room != 0 {
      SanitizedMeaning(items[0], depth, limits, secret);
      SanitizedItems(items[1..], room - 1, depth, limits, secret);
    }
  }

  function KeySet(entries: seq<Entry>): set<string> {
    set e | e in entries :: e.key
  }

  lemma {:induction false} SanitizedKeys(entries: seq<Entry>, depth: nat, limits: Limits, secret: string -> bool)
    requires KeysOnce(entries)
    ensures KeySet(SanitizeEntries(entries, depth, limits, secret)) <= KeySet(entries)
    ensures KeysOnce(SanitizeEntries(entries, depth, limits, secret))
  {
    if entries != [] {
      var rest := SanitizeEntries(entries[1..], depth, limits, secret);
      SanitizedKeys(entries[1..], depth, limits, secret);
      assert forall i :: 0 <= i < |rest| ==> rest[i].key in KeySet(rest);
      assert KeySet(entries[1..]) <= KeySet(entries);
      assert entries[0] in entries;
    }
  }

  lemma {:induction false} SanitizedEntries(entries: seq<Entry>, depth: nat, limits: Limits, secret: string -> bool)
    requires DistinctKeys(Obj(entries))
    ensures DistinctKeys(Obj(SanitizeEntries(entries, depth, limits, secret)))
    ensures Fields(SanitizeEntries(entries, depth, limits, secret)) ==
            SanitizeRecord(Fields(entries), depth, limits, secret)
    decreases entries
  {
    SanitizedKeys(entries, depth, limits, secret);
    if entries != [] {
      SanitizedMeaning(entries[0].value, depth, limits, secret);
      SanitizedEntries(entries[1..], depth, limits, secret);
      SecretStaysOut(entries, depth, limits, secret);
    }
  }

  /** One more entry on both sides. */
  lemma SecretStaysOut(entries: seq<Entry>, depth: nat, limits: Limits, secret: string -> bool)
    requires entries != []
    ensures SanitizeRecord(Fields(entries), depth, limits, secret) ==
            if secret(entries[0].key) then SanitizeRecord(Fields(entries[1..]), depth, limits, secret)
            else SanitizeRecord(Fields(entries[1..]), depth, limits, secret)
                   [entries[0].key := SanitizeValue(Meaning(entries[0].value), depth, limits, secret)]
  {
  }

  // ---------------------------------------------------------------- the serialised form

  /** What is serialised and hashed for an evidence value. */
  function Serialized(v: Json, secret: string -> bool): Json {
    Canonicalize(Sanitize(v, 0, EVIDENCE_LIMITS, secret), 0, CANONICAL_LIMITS)
  }

  /** Two inputs serialise alike exactly when they sanitise to the same value, keys in any order. */
  lemma SerializedNamesSanitizedValue(a: Json, b: Json, secret: string -> bool)
    requires DistinctKeys(a) && DistinctKeys(b)
    ensures Serialized(a, secret) == Serialized(b, secret) <==>
            SanitizeValue(Meaning(a), 0, EVIDENCE_LIMITS, secret) ==
            SanitizeValue(Meaning(b), 0, EVIDENCE_LIMITS, secret)
  {
    CanonicalOnlySorts(a, secret);
    CanonicalOnlySorts(b, secret);
    SanitizedMeaning(a, 0, EVIDENCE_LIMITS, secret);
    SanitizedMeaning(b, 0, EVIDENCE_LIMITS, secret);
    SortedNamesMeaning(Sanitize(a, 0, EVIDENCE_LIMITS, secret), Sanitize(b, 0, EVIDENCE_LIMITS, secret));
  }

  // ---------------------------------------------------------------- the evidence record

  const EVIDENCE_MAX_BYTES := 32768

  datatype Redaction = ReferenceOnly | Sanitized

  /** `serialized` is what is hashed and measured; `summary` is what is stored. */
  datatype EvidenceRecord = EvidenceRecord(summary: Json, serialized: Json, bytes: nat, redaction: Redaction)

  datatype RecordRefusal = EvidenceTooLarge(bytes: nat)

  predicate Falsy(v: Json) {
    match v
    case Null => true
    case Undefined => true
    case Bool(b) => !b
    case Num(n) => n == 0.0
    case NonFinite(name) => name == "NaN"
    case Str(text) => text == ""
    case Other(display) => display == "" || display == "0"
    case _ => false
  }

  function KeyCount(v: Json): nat {
    match v
    case Arr(items) => |items|
    case Obj(entries) => |entries|
    case Str(text) => |text|
    case _ => 0
  }

  /** `size` measures a serialised value in bytes. */
  function BuildEvidenceRecord(evidence: Json, hasSourceRef: bool, size: Json -> nat, secret: string -> bool):
    Result<EvidenceRecord, RecordRefusal>
  {
    var summary := Sanitize(if Falsy(evidence) then Obj([]) else evidence, 0, EVIDENCE_LIMITS, secret);
    var serialized := Canonicalize(summary, 0, CANONICAL_LIMITS);
    if size(serialized) > EVIDENCE_MAX_BYTES then Refused(EvidenceTooLarge(size(serialized)))
    else Done(EvidenceRecord(summary, serialized, size(serialized),
                             if hasSourceRef && KeyCount(summary) == 0 then ReferenceOnly else Sanitized))
  }

  /** A record holds no secret key, its hashed form says what its summary says, and building from it changes nothing. */
  lemma RecordIsFaithful(evidence: Json, hasSourceRef: bool, size: Json -> nat, secret: string -> bool)
    requires DistinctKeys(evidence)
    ensures var built := BuildEvidenceRecord(evidence, hasSourceRef, size, secret);
            built.Done? ==>
              && Clean(built.value.summary, secret)
              && Meaning(built.value.serialized) == Meaning(built.value.summary)
              && built.value.bytes == size(built.value.serialized) <= EVIDENCE_MAX_BYTES
              && BuildEvidenceRecord(built.value.summary, hasSourceRef, size, secret) == built
  {
    var input := if Falsy(evidence) then Obj([]) else evidence;
    var summary := Sanitize(input, 0, EVIDENCE_LIMITS, secret);
    assert !Falsy(summary);
    SanitizedIsClean(input, 0, EVIDENCE_LIMITS, secret);
    SanitizeTwice(input, 0, EVIDENCE_LIMITS, secret);
    SanitizedMeaning(input, 0, EVIDENCE_LIMITS, secret);
    CanonicalOnlySorts(input, secret);
    SortKeysKeepsMeaning(summary);
  }

  /** Up to 10 levels, lists of up to 100, strings of up to 4000 characters, and no secret key. */
  ghost predicate Harmless(v: Json, secret: string -> bool) {
    !Falsy(v) && Fits(v, 0, Limits(10, 100, 4000)) && Clean(v, secret) && Plain(v)
  }

  /**
   * A record is refused exactly when its serialised form is over 32768 bytes. It is a mere reference exactly when a
   * source is named and nothing is left to show. Empty evidence is stored as the empty object, and evidence within the
   * limits that holds no secret key is stored as it is.
   */
  lemma RecordIsExact(evidence: Json, hasSourceRef: bool, size: Json -> nat, secret: string -> bool)
    ensures var built := BuildEvidenceRecord(evidence, hasSourceRef, size, secret);
            && (built.Refused? <==>
                  size(Serialized(if Falsy(evidence) then Obj([]) else evidence, secret)) > 32768)
            && (built.Refused? ==> built.error.bytes > 32768)
            && (built.Done? ==>
                  && (Falsy(evidence) ==> built.value.summary == Obj([]))
                  && (Harmless(evidence, secret) ==> built.value.summary == evidence)
                  && (built.value.redaction == ReferenceOnly <==>
                        && hasSourceRef
                        && (built.value.summary.Arr? ==> built.value.summary.items == [])
                        && (built.value.summary.Obj? ==> built.value.summary.entries == [])
                        && (built.value.summary.Str? ==> built.value.summary.text == "")))
  {
    if Harmless(evidence, secret) {
      HarmlessPasses(evidence, 0, EVIDENCE_LIMITS, secret);
    }
  }
}
