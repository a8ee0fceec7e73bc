/** Finding a payout's record in the JSON that `perflo activity` returns. */
module ActivitySearch {
  import opened Common

  // An object's values in enumeration order; names[i] belongs to values[i].
  datatype Json =
    | JsonNull
    | JsonBool(truth: bool)
    | JsonNumber(number: int)
    | JsonString(text: string)
    | JsonArray(items: seq<Json>)
    | JsonObject(names: seq<string>, values: seq<Json>)

  // ------------------------------------------------------------------- the code

  function ContainsReference(value: Json, reference: string): bool
    decreases value, 1
  {
    match value
    case JsonString(text) => text == reference
    case JsonArray(items) => SomeContains(items, reference)
    case JsonObject(_, values) => SomeContains(values, reference)
    case _ => false
  }

  function SomeContains(values: seq<Json>, reference: string): bool
    decreases values, 0
  {
    values != [] && (ContainsReference(values[0], reference) || SomeContains(values[1..], reference))
  }

  function Lookup(names: seq<string>, values: seq<Json>, name: string): Option<Json> {
    if names == [] || values == [] then None
    else if names[0] == name then Some(values[0])
    else Lookup(names[1..], values[1..], name)
  }

  predicate Qualifies(value: Json, reference: string) {
    && value.JsonObject?
    && Lookup(value.names, value.values, "status").Some?
    && Lookup(value.names, value.values, "status").value.JsonString?
    && ContainsReference(value, reference)
  }

  function FindActivityRecord(value: Json, reference: string): Option<Json>
    decreases value, 1
  {
    match value
    case JsonArray(items) => FindInSome(items, reference)
    case JsonObject(_, values) => if Qualifies(value, reference) then Some(value) else FindInSome(values, reference)
    case _ => None
  }

  function FindInSome(values: seq<Json>, reference: string): Option<Json>
    decreases values, 0
  {
    if values == [] then None
    else
      var found := FindActivityRecord(values[0], reference);
      if found.Some? then found else FindInSome(values[1..], reference)
  }

  // ---------------------------------------------------------- what it should mean

  // Every string anywhere inside a value.
  function Strings(value: Json): seq<string>
    decreases value, 1
  {
    match value
    case JsonString(text) => [text]
    case JsonArray(items) => StringsOf(items)
    case JsonObject(_, values) => StringsOf(values)
    case _ => []
  }

  function StringsOf(values: seq<Json>): seq<string>
    decreases values, 0
  {
    if values == [] then [] else Strings(values[0]) + StringsOf(values[1..])
  }

  // Every object anywhere inside a value, each before the objects inside it.
  function Objects(value: Json): seq<Json>
    decreases value, 1
  {
    match value
    case JsonArray(items) => ObjectsOf(items)
    case JsonObject(_, values) => [value] + ObjectsOf(values)
    case _ => []
  }

  function ObjectsOf(values: seq<Json>): seq<Json>
    decreases values, 0
  {
    if values == [] then [] else Objects(values[0]) + ObjectsOf(values[1..])
  }

  lemma {:induction false} ContainsMeansHasString(value: Json, reference: string)
    ensures ContainsReference(value, reference) <==> reference in Strings(value)
    decreases value, 1
  {
    match value
    case JsonArray(items) => SomeContainsMeansHasString(items, reference);
    case JsonObject(_, values) => SomeContainsMeansHasString(values, reference);
    case _ =>
  }

  lemma {:induction false} SomeContainsMeansHasString(values: seq<Json>, reference: string)
    ensures SomeContains(values, reference) <==> reference in StringsOf(values)
    decreases values, 0
  {
    if values != [] {
      ContainsMeansHasString(values[0], reference);
      SomeContainsMeansHasString(values[1..], reference);
    }
  }

  // The first element satisfying Qualifies, or None when there is none.
  ghost predicate IsFirst(candidates: seq<Json>, reference: string, found: Option<Json>) {
    if found.None? then forall i :: 0 <= i < |candidates| ==> !Qualifies(candidates[i], reference)
    else exists k :: FirstAt(candidates, reference, found.value, k)
  }

  ghost predicate FirstAt(candidates: seq<Json>, reference: string, found: Json, k: nat) {
    && k < |candidates| && candidates[k] == found && Qualifies(found, reference)
    && forall i :: 0 <= i < k ==> !Qualifies(candidates[i], reference)
  }

  /**
   * The search returns a record exactly when some object in the tree, at any
   * depth, has a string status and contains the reference; and what it returns
   * is the first such object in pre-order.
   */
  lemma {:induction false} FindsTheFirstRecord(value: Json, reference: string)
    ensures IsFirst(Objects(value), reference, FindActivityRecord(value, reference))
    decreases value, 1
  {
    match value
    case JsonArray(items) => FindsTheFirstOfSome(items, reference);
    case JsonObject(_, values) =>
      FindsTheFirstOfSome(values, reference);
      var found := FindInSome(values, reference);
      if Qualifies(value, reference) {
        assert FirstAt(Objects(value), reference, value, 0);
      } else if found.Some? {
        var k: nat :| FirstAt(ObjectsOf(values), reference, found.value, k);
        assert FirstAt(Objects(value), reference, found.value, k + 1);
      }
    case _ =>
  }

  lemma {:induction false} FindsTheFirstOfSome(values: seq<Json>, reference: string)
    ensures IsFirst(ObjectsOf(values), reference, FindInSome(values, reference))
    decreases values, 0
  {
    if values != [] {
      FindsTheFirstRecord(values[0], reference);
      FindsTheFirstOfSome(values[1..], reference);
      var head, tail := Objects(values[0]), ObjectsOf(values[1..]);
      var first, rest := FindActivityRecord(values[0], reference), FindInSome(values[1..], reference);
      if first.Some? {
        var k: nat :| FirstAt(head, reference, first.value, k);
        assert FirstAt(head + tail, reference, first.value, k);
      } else if rest.Some? {
        var k: nat :| FirstAt(tail, reference, rest.value, k);
        assert FirstAt(head + tail, reference, rest.value, |head| + k);
      }
    }
  }

  // a is b, or encloses it at some depth.
  ghost predicate Encloses(a: Json, b: Json)
    decreases a, 1
  {
    a == b || match a
      case JsonArray(items) => SomeEncloses(items, b)
      case JsonObject(_, values) => SomeEncloses(values, b)
      case _ => false
  }

  ghost predicate SomeEncloses(values: seq<Json>, b: Json)
    decreases values, 0
  {
    values != [] && (Encloses(values[0], b) || SomeEncloses(values[1..], b))
  }

  lemma {:induction false} ObjectsAreTheEnclosed(value: Json, b: Json)
    requires b.JsonObject?
    ensures b in Objects(value) <==> Encloses(value, b)
    decreases value, 1
  {
    match value
    case JsonArray(items) => ObjectsOfAreTheEnclosed(items, b);
    case JsonObject(_, values) => ObjectsOfAreTheEnclosed(values, b);
    case _ =>
  }

  lemma {:induction false} ObjectsOfAreTheEnclosed(values: seq<Json>, b: Json)
    requires b.JsonObject?
    ensures b in ObjectsOf(values) <==> SomeEncloses(values, b)
    decreases values, 0
  {
    if values != [] {
      ObjectsAreTheEnclosed(values[0], b);
      ObjectsOfAreTheEnclosed(values[1..], b);
    }
  }

  // `record` is reached from `value` without passing through anything that qualifies.
  ghost predicate Outermost(value: Json, record: Json, reference: string)
    decreases value, 1
  {
    value == record || (!Qualifies(value, reference) && match value
      case JsonArray(items) => SomeOutermost(items, record, reference)
      case JsonObject(_, values) => SomeOutermost(values, record, reference)
      case _ => false)
  }

  ghost predicate SomeOutermost(values: seq<Json>, record: Json, reference: string)
    decreases values, 0
  {
    values != [] && (Outermost(values[0], record, reference) || SomeOutermost(values[1..], record, reference))
  }

  lemma {:induction false} FoundIsOutermost(value: Json, reference: string)
    ensures FindActivityRecord(value, reference).Some? ==>
              Outermost(value, FindActivityRecord(value, reference).value, reference)
    decreases value, 1
  {
    match value
    case JsonArray(items) => FoundInSomeIsOutermost(items, reference);
    case JsonObject(_, values) => FoundInSomeIsOutermost(values, reference);
    case _ =>
  }

  lemma {:induction false} FoundInSomeIsOutermost(values: seq<Json>, reference: string)
    ensures FindInSome(values, reference).Some? ==>
              SomeOutermost(values, FindInSome(values, reference).value, reference)
    decreases values, 0
  {
    if values != [] {
      FoundIsOutermost(values[0], reference);
      FoundInSomeIsOutermost(values[1..], reference);
    }
  }

  /** Stated without the pre-order: a record is found exactly when one exists, and it is one. */
  lemma FoundIffExists(value: Json, reference: string)
    ensures FindActivityRecord(value, reference).Some? <==>
            exists record: Json :: record.JsonObject? && Encloses(value, record) && Qualifies(record, reference)
    ensures FindActivityRecord(value, reference).Some? ==>
              && Qualifies(FindActivityRecord(value, reference).value, reference)
              && Encloses(value, FindActivityRecord(value, reference).value)
              && reference in Strings(FindActivityRecord(value, reference).value)
  {
    FindsTheFirstRecord(value, reference);
    var found := FindActivityRecord(value, reference);
    if found.Some? {
      var k: nat :| FirstAt(Objects(value), reference, found.value, k);
      assert found.value in Objects(value);
      ObjectsAreTheEnclosed(value, found.value);
      ContainsMeansHasString(found.value, reference);
    } else {
      forall record: Json | record.JsonObject? && Encloses(value, record)
        ensures !Qualifies(record, reference)
      {
        ObjectsAreTheEnclosed(value, record);
      }
    }
  }

  /** A field's value is that of the first field so named. */
  lemma {:induction false} LookupIs(names: seq<string>, values: seq<Json>, name: string, k: nat)
    requires k <= |names| && k <= |values| && name !in names[..k]
    ensures k < |names| && k < |values| && names[k] == name ==> Lookup(names, values, name) == Some(values[k])
    ensures k == |names| || k == |values| ==> Lookup(names, values, name) == None
  {
    if k > 0 {
      assert names[..k][0] == names[0] && names[1..][..k - 1] == names[..k][1..];
      LookupIs(names[1..], values[1..], name, k - 1);
    }
  }

  /** What qualifies: an object whose first field named "status" is text, with the reference among its strings. */
  lemma QualifiesMeans(value: Json, reference: string)
    ensures Qualifies(value, reference) <==>
            && value.JsonObject? && reference in Strings(value)
            && exists k: nat :: k < |value.names| && k < |value.values| && value.names[k] == "status"
                                && "status" !in value.names[..k] && value.values[k].JsonString?
  {
    ContainsMeansHasString(value, reference);
    if value.JsonObject? {
      var k := FirstNamed(value.names, "status");
      var m := if k <= |value.values| then k else |value.values|;
      assert value.names[..m] == value.names[..k][..m];
      LookupIs(value.names, value.values, "status", m);
    }
  }

  lemma {:induction false} FirstNamed(names: seq<string>, name: string) returns (k: nat)
    ensures k <= |names| && name !in names[..k] && (k < |names| ==> names[k] == name)
    ensures forall j: nat :: j < |names| && names[j] == name && name !in names[..j] ==> j == k
  {
    if names == [] || names[0] == name {
      k := 0;
      forall j: nat | 0 < j < |names| && names != []
        ensures names[..j][0] == names[0]
      {}
    } else {
      var rest := FirstNamed(names[1..], name);
      k := rest + 1;
      assert names[..k] == [names[0]] + names[1..][..rest];
      forall j: nat | 0 < j < |names|
        ensures names[..j] == [names[0]] + names[1..][..j - 1]
      {}
    }
  }
}
