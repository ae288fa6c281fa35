/** `Response.apply_output_model`: renaming each aliased schema field in the
    data, then validating and dumping it through the declared output schema. */
module OutputModel {
  import opened Wire
  import opened Dicts

  /** A declared schema field and its optional validation alias. */
  datatype Field = Field(name: string, validationAlias: Option<string>)

  /** The output schema: its fields in declaration order and the schema
      library's validate-then-dump, which fails on invalid input. */
  datatype Schema = Schema(fields: seq<Field>, validateAndDump: seq<(string, Value)> -> Option<Value>)

  /** `field.validation_alias` is truthy: present and not empty. */
  predicate HasAlias(f: Field) {
    f.validationAlias.Some? && f.validationAlias.value != ""
  }

  const MismatchMessage: string :=
    "Type of Response data is not match with `output_model`.\n*hint: You may want to remove `output_model`"

  /** One iteration of the renaming loop: `data[alias] = data.pop(name)` when
      the field has an alias and its name is a key; otherwise nothing. */
  function RenameField(es: seq<(string, Value)>, f: Field): seq<(string, Value)> {
    if HasAlias(f) && HasKey(es, f.name) then
      SetItem(Remove(es, f.name), f.validationAlias.value, Lookup(es, f.name).value)
    else es
  }

  /** The whole renaming loop, field by field in declaration order. */
  function RenameAliases(es: seq<(string, Value)>, fields: seq<Field>): seq<(string, Value)>
    decreases |fields|
  {
    if fields == [] then es else RenameAliases(RenameField(es, fields[0]), fields[1..])
  }

  /** `output_model(**data).model_dump()`. */
  function Validated(es: seq<(string, Value)>, m: Schema): Result<Value> {
    match m.validateAndDump(es)
    case Some(d) => Ok(d)
    case None => Err(ValidationError)
  }

  /** What apply_output_model returns or raises for `data`. */
  function OutputOf(data: Value, m: Schema): Result<Value>
    decreases data, 1
  {
    match data
    case Dict(es) => Validated(RenameAliases(es, m.fields), m)
    case Iter(_, items) =>
      var out :- OutputOfItems(items, m);
      Ok(Iter(List, out))
    case _ => Err(TypeError(MismatchMessage))
  }

  function OutputOfItems(items: seq<Value>, m: Schema): Result<seq<Value>>
    decreases items, 0
  {
    if items == [] then Ok([])
    else
      var head :- OutputOf(items[0], m);
      var tail :- OutputOfItems(items[1..], m);
      Ok([head] + tail)
  }

  /** `out` put in front of a successful result; an error passes through. */
  function Prefixed(out: seq<Value>, r: Result<seq<Value>>): Result<seq<Value>> {
    match r
    case Ok(rest) => Ok(out + rest)
    case Err(e) => Err(e)
  }

  /** `apply_output_model`: the renaming loop on a local copy of the dict,
      then validation; element-wise on a list, tuple, set or cursor, stopping
      at the first failure; a TypeError with the removal hint otherwise. */
  method ApplyOutputModel(data: Value, m: Schema) returns (r: Result<Value>)
    ensures r == OutputOf(data, m)
    decreases data
  {
    match data {
      case Dict(_) =>
        var entries := data.entries;
        for i := 0 to |m.fields|
          invariant RenameAliases(data.entries, m.fields) == RenameAliases(entries, m.fields[i..])
        {
          var f := m.fields[i];
          assert m.fields[i..][0] == f && m.fields[i..][1..] == m.fields[i + 1..];
          if HasAlias(f) && HasKey(entries, f.name) {
            var popped := Lookup(entries, f.name).value;
            entries := Remove(entries, f.name);
            entries := SetItem(entries, f.validationAlias.value, popped);
          }
        }
        assert m.fields[|m.fields|..] == [];
        r := Validated(entries, m);
      case Iter(_, items) =>
        var out: seq<Value> := [];
        assert items[0..] == items;
        assert OutputOfItems(items, m).Ok? ==> [] + OutputOfItems(items, m).value == OutputOfItems(items, m).value;
        for i := 0 to |items|
          invariant OutputOfItems(items, m) == Prefixed(out, OutputOfItems(items[i..], m))
        {
          assert items[i..][0] == items[i] && items[i..][1..] == items[i + 1..];
          var e := ApplyOutputModel(items[i], m);
          if e.Err? {
            assert OutputOfItems(items[i..], m) == Err(e.error);
            return Err(e.error);
          }
          var rest := OutputOfItems(items[i + 1..], m);
          assert OutputOfItems(items[i..], m) == Prefixed([e.value], rest);
          assert rest.Ok? ==> out + ([e.value] + rest.value) == (out + [e.value]) + rest.value;
          out := out + [e.value];
        }
        assert items[|items|..] == [] && out + [] == out;
        r := Ok(Iter(List, out));
      case _ =>
        r := Err(TypeError(MismatchMessage));
    }
  }

  /** One rename step on a dict: the aliased field's value moves from its name
      to its alias (the alias key is overwritten in place or appended at the
      end); every other key keeps its value; a field without alias, or whose
      name is absent, changes nothing. */
  lemma RenameFieldEffect(es: seq<(string, Value)>, f: Field)
    requires UniqueKeys(es)
    ensures UniqueKeys(RenameField(es, f))
    ensures !(HasAlias(f) && HasKey(es, f.name)) ==> RenameField(es, f) == es
    ensures HasAlias(f) && HasKey(es, f.name) ==>
      forall k :: Lookup(RenameField(es, f), k) ==
        if k == f.validationAlias.value then Lookup(es, f.name)
        else if k == f.name then None
        else Lookup(es, k)
    ensures HasAlias(f) && HasKey(es, f.name) ==>
      Keys(RenameField(es, f)) ==
        var rest := NewKeys(Keys(es), [f.name]);
        if f.validationAlias.value in rest then rest else rest + [f.validationAlias.value]
  {
    if HasAlias(f) && HasKey(es, f.name) {
      var alias := f.validationAlias.value;
      var v := Lookup(es, f.name).value;
      var rest := Remove(es, f.name);
      UniqueRemove(es, f.name);
      UniqueSetItem(rest, alias, v);
      KeysSetItem(rest, alias, v);
      KeysRemove(es, f.name);
      HasKeyIsInKeys(rest, alias);
      forall k ensures Lookup(RenameField(es, f), k) ==
        if k == alias then Lookup(es, f.name) else if k == f.name then None else Lookup(es, k)
      {
        LookupSetItem(rest, alias, v, k);
        LookupRemove(es, f.name, k);
      }
    }
  }

  /** Field `f` names `k` or uses it as its alias. */
  predicate MentionedBy(f: Field, k: string) {
    f.name == k || (HasAlias(f) && f.validationAlias.value == k)
  }

  predicate Mentions(fields: seq<Field>, k: string) {
    exists f :: f in fields && MentionedBy(f, k)
  }

  /** Keys that no schema field names or uses as an alias are left alone. */
  lemma {:induction false} RenameAliasesUntouched(es: seq<(string, Value)>, fields: seq<Field>, k: string)
    requires UniqueKeys(es)
    requires !Mentions(fields, k)
    ensures UniqueKeys(RenameAliases(es, fields))
    ensures Lookup(RenameAliases(es, fields), k) == Lookup(es, k)
    decreases |fields|
  {
    if fields != [] {
      assert fields[0] in fields && !MentionedBy(fields[0], k);
      RenameFieldEffect(es, fields[0]);
      assert forall f :: f in fields[1..] ==> f in fields;
      RenameAliasesUntouched(RenameField(es, fields[0]), fields[1..], k);
    }
  }

  /** A schema field whose name and alias no other field mentions ends up
      with its value under the alias, and its name is gone. */
  lemma {:induction false} RenameAliasesMoves(es: seq<(string, Value)>, fields: seq<Field>, i: nat)
    requires UniqueKeys(es)
    requires i < |fields| && HasAlias(fields[i]) && HasKey(es, fields[i].name)
    requires fields[i].name != fields[i].validationAlias.value
    requires forall j :: 0 <= j < |fields| && j != i ==>
      !MentionedBy(fields[j], fields[i].name) && !MentionedBy(fields[j], fields[i].validationAlias.value)
    ensures Lookup(RenameAliases(es, fields), fields[i].validationAlias.value) == Lookup(es, fields[i].name)
    ensures !HasKey(RenameAliases(es, fields), fields[i].name)
    decreases |fields|
  {
    var f := fields[i];
    var alias := f.validationAlias.value;
    var es' := RenameField(es, fields[0]);
    RenameFieldEffect(es, fields[0]);
    if i == 0 {
      assert !Mentions(fields[1..], alias) && !Mentions(fields[1..], f.name) by {
        forall g | g in fields[1..] ensures !MentionedBy(g, alias) && !MentionedBy(g, f.name) {
          var j :| 0 <= j < |fields[1..]| && fields[1..][j] == g;
          assert fields[j + 1] == g;
        }
      }
      RenameAliasesUntouched(es', fields[1..], alias);
      RenameAliasesUntouched(es', fields[1..], f.name);
    } else {
      assert Lookup(es', f.name) == Lookup(es, f.name);
      assert forall j :: 0 <= j < |fields| - 1 ==> fields[1..][j] == fields[j + 1];
      RenameAliasesMoves(es', fields[1..], i - 1);
    }
  }

  /** On a list, tuple, set or cursor the result is all or nothing: a list of
      the same length whose elements are the elements' results, in order, when
      every element succeeds, and the first element's error otherwise. */
  lemma {:induction false} OutputOfItemsAllOrNothing(items: seq<Value>, m: Schema)
    ensures OutputOfItems(items, m).Ok? <==> forall i :: 0 <= i < |items| ==> OutputOf(items[i], m).Ok?
    ensures OutputOfItems(items, m).Ok? ==>
      |OutputOfItems(items, m).value| == |items| &&
      forall i :: 0 <= i < |items| ==> OutputOfItems(items, m).value[i] == OutputOf(items[i], m).value
    ensures OutputOfItems(items, m).Err? ==>
      exists i :: 0 <= i < |items| && OutputOf(items[i], m).Err? &&
        OutputOfItems(items, m).error == OutputOf(items[i], m).error &&
        forall j :: 0 <= j < i ==> OutputOf(items[j], m).Ok?
  {
    if items != [] {
      OutputOfItemsAllOrNothing(items[1..], m);
      assert forall i :: 1 <= i < |items| ==> items[i] == items[1..][i - 1];
      if OutputOf(items[0], m).Ok? && OutputOfItems(items[1..], m).Err? {
        var i :| 0 <= i < |items[1..]| && OutputOf(items[1..][i], m).Err? &&
          OutputOfItems(items[1..], m).error == OutputOf(items[1..][i], m).error &&
          forall j :: 0 <= j < i ==> OutputOf(items[1..][j], m).Ok?;
        assert OutputOf(items[i + 1], m).Err?;
      }
    }
  }

  /** The data shapes the schema cannot take are refused with the hint. */
  lemma ScalarRejected(data: Value, m: Schema)
    requires !data.Dict? && !data.Iter?
    ensures OutputOf(data, m) == Err(TypeError(MismatchMessage))
  {
  }

  /** With `name` aliased to `username`, a dict keyed by `name` has the value
      moved to `username` (appended after `id`); a dict already keyed by
      `username` is passed to validation unchanged. */
  lemma UsernameAliasExamples()
    ensures RenameAliases([("id", Int(1)), ("name", Str("ali"))],
                          [Field("id", None), Field("name", Some("username"))])
         == [("id", Int(1)), ("username", Str("ali"))]
    ensures RenameAliases([("id", Int(1)), ("username", Str("ali"))],
                          [Field("id", None), Field("name", Some("username"))])
         == [("id", Int(1)), ("username", Str("ali"))]
  {
    var fields := [Field("id", None), Field("name", Some("username"))];
    assert fields[1..] == [Field("name", Some("username"))] && fields[1..][1..] == [];
    var byName := [("id", Int(1)), ("name", Str("ali"))];
    assert byName[1..] == [("name", Str("ali"))] && byName[1..][1..] == [];
    assert Lookup(byName, "name") == Some(Str("ali"));
    assert Remove(byName, "name") == [("id", Int(1))];
    var byAlias := [("id", Int(1)), ("username", Str("ali"))];
    assert byAlias[1..] == [("username", Str("ali"))] && byAlias[1..][1..] == [];
    assert |"username"| != |"name"|;
    assert !HasKey(byAlias, "name");
  }
}
