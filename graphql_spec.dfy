/**
 * The pure part of createGraphQLSpec (src/tests/graphQLSpec.ts): the guards
 * on the two sample payloads, the capitalised resource name, the GraphQL
 * names derived from it, the fields the list query selects, and the id the
 * update test writes into the update payload. Registering and running the
 * Jest tests is not modelled.
 */
module GraphQLSpec {
  import opened Wrappers
  import opened Json

  /** The errors thrown before any test is registered. */
  datatype SpecError = InvalidResourceToCreate | InvalidResourceToUpdate {
    function Message(): string {
      match this
      case InvalidResourceToCreate =>
        "Must provide an object to create with properties of at least length 1"
      case InvalidResourceToUpdate =>
        "Must provide an object to updated with properties of at least length 1"
    }
  }

  /** The two errors can be told apart by their messages. */
  lemma MessagesDiffer()
    ensures InvalidResourceToCreate.Message() != InvalidResourceToUpdate.Message()
  {
    assert |InvalidResourceToCreate.Message()| + 1 == |InvalidResourceToUpdate.Message()|;
  }

  /** The guard passes: the payload is truthy and Object.keys finds a key. */
  predicate HasProperties(payload: Option<Value>)
    ensures HasProperties(payload) ==> payload.Some? && !payload.value.Null?
  {
    Truthy(payload) && |ObjectKeys(payload.value)| > 0
  }

  /** `toUpperCase` on one character, for the ASCII letters. */
  function ToUpperAscii(c: char): (u: char)
    ensures 'a' <= c <= 'z' ==> u as int == c as int - 32 && 'A' <= u <= 'Z'
    ensures !('a' <= c <= 'z') ==> u == c
  {
    if 'a' <= c <= 'z' then (c as int - 32) as char else c
  }

  /** `name.charAt(0).toUpperCase() + name.slice(1)` */
  function Capitalize(name: string): (r: string)
    ensures |r| == |name|
    ensures name != [] ==> r[0] == ToUpperAscii(name[0])
    ensures forall i | 1 <= i < |name| :: r[i] == name[i]
  {
    if name == [] then [] else [ToUpperAscii(name[0])] + name[1..]
  }

  /** Only the first character of a non-empty prefix is upper-cased. */
  lemma CapitalizeConcat(a: string, b: string)
    requires a != []
    ensures Capitalize(a + b) == Capitalize(a) + b
  {
    assert (a + b)[0] == a[0];
    assert (a + b)[1..] == a[1..] + b;
  }

  /** The verbs of the three mutations, capitalised. */
  lemma CapitalizedVerbs()
    ensures Capitalize("new") == "New" && Capitalize("update") == "Update" && Capitalize("remove") == "Remove"
  {
    assert "new"[1..] == "ew";
    assert "update"[1..] == "pdate";
    assert "remove"[1..] == "emove";
  }

  /** The names of the GraphQL operations the suite calls, and of their types. */
  datatype Operations = Operations(
    listQuery: string,
    getQuery: string,
    createMutation: string,
    updateMutation: string,
    removeMutation: string,
    createOperation: string,
    updateOperation: string,
    removeOperation: string,
    createInputType: string,
    updateInputType: string)

  /**
   * The names derived from `resourceName` by concatenation. Each GraphQL
   * operation name is its mutation's field name with the first letter
   * upper-cased, and the create input type is the create operation's name
   * followed by "Input".
   */
  function OperationsFor(resourceName: string): (r: Operations)
    ensures r.createOperation == Capitalize(r.createMutation)
    ensures r.updateOperation == Capitalize(r.updateMutation)
    ensures r.removeOperation == Capitalize(r.removeMutation)
    ensures r.createInputType == r.createOperation + "Input"
  {
    var upper := Capitalize(resourceName);
    CapitalizedVerbs();
    CapitalizeConcat("new", upper);
    CapitalizeConcat("update", upper);
    CapitalizeConcat("remove", upper);
    Operations(
      listQuery := "all" + upper + "s",
      getQuery := resourceName,
      createMutation := "new" + upper,
      updateMutation := "update" + upper,
      removeMutation := "remove" + upper,
      createOperation := "New" + upper,
      updateOperation := "Update" + upper,
      removeOperation := "Remove" + upper,
      createInputType := "New" + upper + "Input",
      updateInputType := "Updated" + upper + "Input")
  }

  /** What a successful call sets up for the generated tests. */
  datatype Suite = Suite(upperResourceName: string, operations: Operations, listFields: seq<string>)

  /** The list query selects `id` and the first key of the create payload. */
  function ListFields(resourceToCreate: Value): (fields: seq<string>)
    requires |ObjectKeys(resourceToCreate)| > 0
    ensures |fields| == 2 && fields[0] == "id" && fields[1] in ObjectKeys(resourceToCreate)
  {
    ["id", ObjectKeys(resourceToCreate)[0]]
  }

  /**
   * createGraphQLSpec up to test registration: the create payload is checked
   * first, then the update payload; only then are the names derived.
   */
  function CreateGraphQLSpec(resourceName: string, resourceToCreate: Option<Value>,
                             resourceToUpdate: Option<Value>): (r: Result<Suite, SpecError>)
    ensures r.Success? <==> HasProperties(resourceToCreate) && HasProperties(resourceToUpdate)
    ensures r == Failure(InvalidResourceToCreate) <==> !HasProperties(resourceToCreate)
    ensures r.Success? ==>
              && r.value.upperResourceName == Capitalize(resourceName)
              && r.value.operations == OperationsFor(resourceName)
              && r.value.listFields == ["id", ObjectKeys(resourceToCreate.value)[0]]
  {
    if !HasProperties(resourceToCreate) then Failure(InvalidResourceToCreate)
    else if !HasProperties(resourceToUpdate) then Failure(InvalidResourceToUpdate)
    else Success(Suite(Capitalize(resourceName), OperationsFor(resourceName), ListFields(resourceToCreate.value)))
  }

  /**
   * The guard on each kind of payload: undefined, null, numbers and booleans
   * never pass; an object passes exactly when it has a property; a string or
   * an array passes exactly when it is not empty.
   */
  lemma HasPropertiesCases(payload: Option<Value>)
    ensures payload.None? ==> !HasProperties(payload)
    ensures payload.Some? && (payload.value.Null? || payload.value.Bool? || payload.value.Num?) ==>
              !HasProperties(payload)
    ensures payload.Some? && payload.value.Obj? && WellFormed(payload.value) ==>
              (HasProperties(payload) <==> |payload.value.fields| > 0)
    ensures payload.Some? && payload.value.Str? ==> (HasProperties(payload) <==> payload.value.s != "")
    ensures payload.Some? && payload.value.List? ==> (HasProperties(payload) <==> payload.value.items != [])
  {
    if payload.Some? && payload.value.Obj? && WellFormed(payload.value) {
      var v := payload.value;
      if v.keys != [] {
        assert v.keys[0] in v.fields;
      }
      if |v.fields| > 0 {
        var k :| k in v.fields;
        assert k in v.keys;
      }
    }
  }

  /** `{}` as the create payload, or no update payload, is refused; the create check wins. */
  lemma GuardExamples(resourceName: string, payload: Option<Value>)
    ensures CreateGraphQLSpec(resourceName, Some(EmptyObject), payload) == Failure(InvalidResourceToCreate)
    ensures CreateGraphQLSpec(resourceName, None, None) == Failure(InvalidResourceToCreate)
    ensures HasProperties(payload) ==>
              CreateGraphQLSpec(resourceName, payload, None) == Failure(InvalidResourceToUpdate)
  {
  }

  /** When the create payload is an object, the list query's second field is one of its keys. */
  lemma ListFieldIsCreateKey(resourceName: string, resourceToCreate: Option<Value>,
                             resourceToUpdate: Option<Value>)
    requires CreateGraphQLSpec(resourceName, resourceToCreate, resourceToUpdate).Success?
    requires resourceToCreate.value.Obj? && WellFormed(resourceToCreate.value)
    ensures CreateGraphQLSpec(resourceName, resourceToCreate, resourceToUpdate).value.listFields[1]
            in resourceToCreate.value.fields
  {
    var keys := resourceToCreate.value.keys;
    assert keys[0] in resourceToCreate.value.fields;
  }

  /** The capitalised name is capitalised already, and starts with no lower-case ASCII letter. */
  lemma CapitalizeIdempotent(name: string)
    ensures Capitalize(Capitalize(name)) == Capitalize(name)
    ensures name != [] ==> !('a' <= Capitalize(name)[0] <= 'z')
  {
    if name != [] {
      assert Capitalize(Capitalize(name))[1..] == Capitalize(name)[1..];
    }
  }

  /** The five operation names are pairwise different. */
  lemma OperationNamesDistinct(resourceName: string)
    ensures var ops := OperationsFor(resourceName);
            var names := [ops.listQuery, ops.getQuery, ops.createMutation, ops.updateMutation, ops.removeMutation];
            Distinct(names)
  {
    var ops := OperationsFor(resourceName);
    assert ops.updateMutation[0] != ops.removeMutation[0];
  }

  /**
   * Each derived name is its fixed prefix, the capitalised resource name and
   * its fixed suffix (the five operations, their three GraphQL operation
   * names and the two input types); the get query is the resource name itself.
   */
  lemma OperationNamesDecompose(resourceName: string)
    ensures var ops := OperationsFor(resourceName); var upper := Capitalize(resourceName); var n := |upper|;
            && ops.getQuery == resourceName
            && |ops.listQuery| == n + 4 && ops.listQuery[..3] == "all"
            && ops.listQuery[3..n + 3] == upper && ops.listQuery[n + 3..] == "s"
            && |ops.createMutation| == n + 3 && ops.createMutation[..3] == "new" && ops.createMutation[3..] == upper
            && |ops.updateMutation| == n + 6 && ops.updateMutation[..6] == "update" && ops.updateMutation[6..] == upper
            && |ops.removeMutation| == n + 6 && ops.removeMutation[..6] == "remove" && ops.removeMutation[6..] == upper
            && |ops.createOperation| == n + 3 && ops.createOperation[..3] == "New" && ops.createOperation[3..] == upper
            && |ops.updateOperation| == n + 6 && ops.updateOperation[..6] == "Update" && ops.updateOperation[6..] == upper
            && |ops.removeOperation| == n + 6 && ops.removeOperation[..6] == "Remove" && ops.removeOperation[6..] == upper
            && |ops.createInputType| == n + 8 && ops.createInputType[..3] == "New"
            && ops.createInputType[3..n + 3] == upper && ops.createInputType[n + 3..] == "Input"
            && |ops.updateInputType| == n + 12 && ops.updateInputType[..7] == "Updated"
            && ops.updateInputType[7..n + 7] == upper && ops.updateInputType[n + 7..] == "Input"
  {
    var ops := OperationsFor(resourceName);
    var upper := Capitalize(resourceName);
    assert ops.listQuery == "all" + upper + "s";
    assert ops.createInputType == "New" + upper + "Input";
    assert ops.updateInputType == "Updated" + upper + "Input";
  }

  /** Two resource names that differ only in the case of their first letter share all names but the get query. */
  lemma OperationNamesIgnoreFirstLetterCase(a: string, b: string)
    requires Capitalize(a) == Capitalize(b)
    ensures var x, y := OperationsFor(a), OperationsFor(b);
            x.(getQuery := "") == y.(getQuery := "")
  {
  }

  /**
   * A JavaScript object that is changed in place: the update payload,
   * into which the update test writes the seeded resource's id.
   */
  class Payload {
    var keys: seq<string>
    var fields: map<string, Value>

    function AsValue(): (v: Value)
      reads this
      ensures v.Obj?
    {
      Obj(keys, fields)
    }

    constructor (v: Value)
      requires v.Obj?
      ensures AsValue() == v
    {
      keys := v.keys;
      fields := v.fields;
    }

    /** `this[k] = x` */
    method SetProperty(k: string, x: Value)
      modifies this
      ensures AsValue() == SetField(old(AsValue()), k, x)
    {
      if k !in keys {
        keys := keys + [k];
      }
      fields := fields[k := x];
    }
  }

  /**
   * `resourceToUpdate.id = resource.id`: the payload's id becomes the seeded
   * id, every other property and the key order stay as they were.
   */
  method InjectSeededId(resourceToUpdate: Payload, seededId: Value)
    modifies resourceToUpdate
    ensures resourceToUpdate.fields.Keys == old(resourceToUpdate.fields.Keys) + {"id"}
    ensures resourceToUpdate.fields["id"] == seededId
    ensures forall k | k in old(resourceToUpdate.fields) && k != "id" ::
              resourceToUpdate.fields[k] == old(resourceToUpdate.fields[k])
    ensures resourceToUpdate.keys ==
              if "id" in old(resourceToUpdate.keys) then old(resourceToUpdate.keys)
              else old(resourceToUpdate.keys) + ["id"]
    ensures old(WellFormed(resourceToUpdate.AsValue())) && WellFormed(seededId) ==>
              WellFormed(resourceToUpdate.AsValue())
  {
    ghost var before := resourceToUpdate.AsValue();
    resourceToUpdate.SetProperty("id", seededId);
    if WellFormed(before) && WellFormed(seededId) {
      SetFieldWellFormed(before, "id", seededId);
    }
  }
}
