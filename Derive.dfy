/**
 * What the derive macros of openai-func-enums-macros/src/lib.rs generate,
 * stated as the values the generated code computes: the variant table and
 * per-variant lookup of `VariantDescriptors`, the `EnumDescriptor` pair of
 * name and description, the `generate_enum_info!` schema fragment with its
 * token total, and the `get_function_json` of each `<Variant>Response`
 * struct built by `FunctionCallResponse`.
 *
 * Token counts of identifiers come from a BPE tokenizer outside the model:
 * `count` stands for it and may be any function from text to a count.
 */
module Derive {
  import opened Wrappers
  import opened Json
  import opened Naming
  import opened Attributes

  /** `calculate_token_count`. */
  type TokenCounter = string -> nat

  /** Rust enum variants have pairwise different names. */
  predicate Distinct(names: seq<string>)
  {
    forall i, j :: 0 <= i < j < |names| ==> names[i] != names[j]
  }

  // ---------------------------------------------------------------------
  // VariantDescriptors
  // ---------------------------------------------------------------------

  /** `variant_names_with_token_counts()`: each variant with its token count, in declaration order. */
  function VariantTable(variants: seq<string>, count: TokenCounter): seq<(string, nat)>
  {
    seq(|variants|, k requires 0 <= k < |variants| => (variants[k], count(variants[k])))
  }

  /** The arms of the generated `match self`: pattern `Self::V` and the pair it yields. */
  function MatchArms(variants: seq<string>, count: TokenCounter): seq<(string, (string, nat))>
  {
    seq(|variants|, k requires 0 <= k < |variants| => (variants[k], (variants[k], count(variants[k]))))
  }

  /** Evaluating `match self`: the first arm whose pattern is the value's variant. */
  function MatchVariant(arms: seq<(string, (string, nat))>, v: string): Option<(string, nat)>
  {
    if arms == [] then None
    else if arms[0].0 == v then Some(arms[0].1)
    else MatchVariant(arms[1..], v)
  }

  lemma {:induction false} MatchFindsFirst(arms: seq<(string, (string, nat))>, v: string, k: nat)
    requires k < |arms| && arms[k].0 == v
    requires forall j :: 0 <= j < k ==> arms[j].0 != v
    ensures MatchVariant(arms, v) == Some(arms[k].1)
  {
    if k > 0 {
      MatchFindsFirst(arms[1..], v, k - 1);
    }
  }

  /**
   * `variant_name_with_token_count(&self)` for the variant declared at
   * `index`: it is the table's entry at that index.
   */
  function VariantNameWithTokenCount(variants: seq<string>, count: TokenCounter, index: nat): (r: (string, nat))
    requires index < |variants| && Distinct(variants)
    ensures r == VariantTable(variants, count)[index]
    ensures r == (variants[index], count(variants[index]))
  {
    var arms := MatchArms(variants, count);
    MatchFindsFirst(arms, variants[index], index);
    MatchVariant(arms, variants[index]).value
  }

  /** The table lists the variants in declaration order, one entry each. */
  lemma VariantTableOrder(variants: seq<string>, count: TokenCounter)
    ensures |VariantTable(variants, count)| == |variants|
    ensures forall k :: 0 <= k < |variants| ==> VariantTable(variants, count)[k].0 == variants[k]
    ensures Distinct(variants) ==> forall k :: 0 <= k < |variants| ==>
              VariantNameWithTokenCount(variants, count, k) == VariantTable(variants, count)[k]
  {
  }

  // ---------------------------------------------------------------------
  // EnumDescriptor
  // ---------------------------------------------------------------------

  /** The two pairs the generated `impl EnumDescriptor` returns. */
  datatype EnumDescriptorImpl = EnumDescriptorImpl(name: string, nameTokens: nat, description: string, descTokens: nat)

  const ArgDescriptionAttribute: string := "arg_description"
  const FuncDescriptionAttribute: string := "func_description"

  /**
   * `enum_descriptor_derive`: the enum's name with its token count, and the
   * description and tokens read from its `arg_description` attributes.
   */
  method EnumDescriptorDerive(ident: string, attrs: seq<Attribute>, count: TokenCounter) returns (d: EnumDescriptorImpl)
    ensures d.name == ident && d.nameTokens == count(ident)
    ensures Scanned(d.description, d.descTokens) == Scan(attrs, ArgDescriptionAttribute)
  {
    var nameTokenCount := count(ident);
    var description, descTokens := ScanAttributes(attrs, ArgDescriptionAttribute);
    d := EnumDescriptorImpl(ident, nameTokenCount, description, descTokens);
  }

  // ---------------------------------------------------------------------
  // generate_enum_info!
  // ---------------------------------------------------------------------

  /** `.iter().map(|(_, token_count)| *token_count).sum()` */
  function SumTokens(table: seq<(string, nat)>): nat
  {
    if table == [] then 0 else table[0].1 + SumTokens(table[1..])
  }

  function Names(table: seq<(string, nat)>): seq<string>
  {
    seq(|table|, k requires 0 <= k < |table| => table[k].0)
  }

  /** The schema of one enum-typed argument. */
  function EnumSchema(d: EnumDescriptorImpl, table: seq<(string, nat)>): Json
  {
    JObject([("type", JString("string")), ("enum", StringArray(Names(table))), ("description", JString(d.description))])
  }

  /**
   * `generate_enum_info!(T)`: a one-key object from the enum's name to its
   * schema, and a total that counts the description, the name twice (it is
   * repeated in "required"), every variant name and 11 for the fixed
   * structure.
   */
  function GenerateEnumInfo(d: EnumDescriptorImpl, table: seq<(string, nat)>): (r: (Json, nat))
    ensures r.0 == JObject([(d.name, EnumSchema(d, table))])
    ensures r.1 == d.descTokens + 2 * d.nameTokens + SumTokens(table) + 11
  {
    var totalTokens := 0;
    var totalTokens := totalTokens + d.descTokens;
    var totalTokens := totalTokens + d.nameTokens;
    var totalTokens := totalTokens + d.nameTokens;
    var totalTokens := totalTokens + SumTokens(table);
    var jsonEnum := JObject([(d.name, EnumSchema(d, table))]);
    var totalTokens := totalTokens + 11;
    (jsonEnum, totalTokens)
  }

  /** The tokens of the variant names, summed variant by variant. */
  function VariantCounts(variants: seq<string>, count: TokenCounter): nat
  {
    if variants == [] then 0 else count(variants[0]) + VariantCounts(variants[1..], count)
  }

  /** The table's names are the variants, and its tokens sum to theirs. */
  lemma {:induction false} VariantTableSums(variants: seq<string>, count: TokenCounter)
    ensures Names(VariantTable(variants, count)) == variants
    ensures SumTokens(VariantTable(variants, count)) == VariantCounts(variants, count)
    decreases variants
  {
    if variants != [] {
      VariantTableSums(variants[1..], count);
      assert VariantTable(variants, count)[1..] == VariantTable(variants[1..], count);
    }
  }

  /**
   * `generate_enum_info!` applied to a derived enum: the `EnumDescriptor` of
   * `enum_descriptor_derive` and the table of `VariantDescriptors` give the
   * enum's name as the one key, its variants in declaration order as the
   * "enum" strings, the `arg_description` text as "description", and a total
   * of the description tokens, twice the name's tokens, every variant name's
   * tokens and 11.
   */
  lemma EnumInfoOfDerive(ident: string, attrs: seq<Attribute>, variants: seq<string>,
                         count: TokenCounter, d: EnumDescriptorImpl)
    requires d.name == ident && d.nameTokens == count(ident)
    requires Scanned(d.description, d.descTokens) == Scan(attrs, ArgDescriptionAttribute)
    ensures GenerateEnumInfo(d, VariantTable(variants, count)).0
            == JObject([(ident, JObject([
                 ("type", JString("string")),
                 ("enum", StringArray(variants)),
                 ("description", JString(Scan(attrs, ArgDescriptionAttribute).description))]))])
    ensures GenerateEnumInfo(d, VariantTable(variants, count)).1
            == Scan(attrs, ArgDescriptionAttribute).tokens + 2 * count(ident) + VariantCounts(variants, count) + 11
  {
    VariantTableSums(variants, count);
  }

  // ---------------------------------------------------------------------
  // get_function_json of a generated <Variant>Response struct
  // ---------------------------------------------------------------------

  /** What `get_function_json` unwraps: every argument's JSON is an object with a first entry. */
  predicate ArgsReadable(args: seq<(Json, nat)>)
  {
    forall i :: 0 <= i < |args| ==> args[i].0.JObject? && |args[i].0.fields| > 0
  }

  function FirstEntry(arg: (Json, nat)): (string, Json)
    requires arg.0.JObject? && |arg.0.fields| > 0
  {
    arg.0.fields[0]
  }

  /** `parameters.insert(first key, first value)` for every argument, in order. */
  function InsertAll(params: seq<(string, Json)>, args: seq<(Json, nat)>): seq<(string, Json)>
    requires ArgsReadable(args)
    decreases args
  {
    if args == [] then params
    else
      var e := FirstEntry(args[0]);
      InsertAll(Insert(params, e.0, e.1), args[1..])
  }

  function Parameters(args: seq<(Json, nat)>): seq<(string, Json)>
    requires ArgsReadable(args)
  {
    InsertAll([], args)
  }

  function SumArgTokens(args: seq<(Json, nat)>): nat
  {
    if args == [] then 0 else args[0].1 + SumArgTokens(args[1..])
  }

  /** The function JSON: name, description, and the parameter object whose "required" lists the property keys. */
  function FunctionJson(name: string, description: string, params: seq<(string, Json)>): Json
  {
    JObject([
      ("name", JString(name)),
      ("description", JString(description)),
      ("parameters", JObject([
        ("type", JString("object")),
        ("properties", JObject(params)),
        ("required", StringArray(Keys(params)))]))])
  }

  /** The generated `get_function_json()`: the loop over the arguments' `generate_enum_info!` results. */
  method GetFunctionJson(structName: string, description: string, descTokens: nat, args: seq<(Json, nat)>)
    returns (functionJson: Json, totalTokens: nat)
    requires ArgsReadable(args)
    ensures functionJson == FunctionJson(structName, description, Parameters(args))
    ensures totalTokens == SumArgTokens(args) + 12 + descTokens
  {
    var parameters: seq<(string, Json)> := [];
    totalTokens := 0;
    var i := 0;
    while i < |args|
      invariant 0 <= i <= |args|
      invariant InsertAll(parameters, args[i..]) == Parameters(args)
      invariant totalTokens + SumArgTokens(args[i..]) == SumArgTokens(args)
    {
      assert args[i..][1..] == args[i + 1..];
      var (argJson, argTokens) := args[i];
      totalTokens := totalTokens + argTokens;
      parameters := Insert(parameters, argJson.fields[0].0, argJson.fields[0].1);
      i := i + 1;
    }
    functionJson := FunctionJson(structName, description, parameters);
    totalTokens := totalTokens + 12;
    totalTokens := totalTokens + descTokens;
  }

  /** The keys the arguments bring, in order. */
  function ArgKeys(args: seq<(Json, nat)>): seq<string>
    requires ArgsReadable(args)
  {
    seq(|args|, i requires 0 <= i < |args| => FirstEntry(args[i]).0)
  }

  /** The set of keys the arguments bring. */
  function ArgKeySet(args: seq<(Json, nat)>): set<string>
    requires ArgsReadable(args)
    decreases args
  {
    if args == [] then {} else {FirstEntry(args[0]).0} + ArgKeySet(args[1..])
  }

  lemma {:induction false} ArgKeySetIsArgKeys(args: seq<(Json, nat)>)
    requires ArgsReadable(args)
    ensures ArgKeySet(args) == set k | k in ArgKeys(args)
    decreases args
  {
    if args != [] {
      ArgKeySetIsArgKeys(args[1..]);
      assert ArgKeys(args) == [FirstEntry(args[0]).0] + ArgKeys(args[1..]);
    }
  }

  lemma {:induction false} InsertAllFacts(params: seq<(string, Json)>, args: seq<(Json, nat)>)
    requires ArgsReadable(args) && UniqueKeys(params)
    ensures UniqueKeys(InsertAll(params, args))
    ensures KeySet(InsertAll(params, args)) == KeySet(params) + ArgKeySet(args)
    decreases args
  {
    if args != [] {
      var e := FirstEntry(args[0]);
      var next := Insert(params, e.0, e.1);
      InsertKeys(params, e.0, e.1);
      InsertAllFacts(next, args[1..]);
    }
  }

  /**
   * "required" holds exactly the keys of "properties", each once; those keys
   * are the arguments' keys, an argument sharing a key with an earlier one
   * replacing its schema.
   */
  lemma RequiredIsPropertyKeys(args: seq<(Json, nat)>)
    requires ArgsReadable(args)
    ensures UniqueKeys(Parameters(args))
    ensures (set k | k in Keys(Parameters(args))) == KeySet(Parameters(args))
    ensures KeySet(Parameters(args)) == set k | k in ArgKeys(args)
  {
    InsertAllFacts([], args);
    ArgKeySetIsArgKeys(args);
    KeySetIsKeys(Parameters(args));
  }

  /** The "parameters" member of the function JSON, and its "properties" and "required" members. */
  lemma FunctionJsonMembers(name: string, description: string, params: seq<(string, Json)>)
    ensures var p := JObject([
              ("type", JString("object")),
              ("properties", JObject(params)),
              ("required", StringArray(Keys(params)))]);
            Get(FunctionJson(name, description, params), "parameters") == Some(p)
            && Get(p, "properties") == Some(JObject(params))
            && Get(p, "required") == Some(StringArray(Keys(params)))
  {
    assert "name" != "parameters" by { assert "name"[0] != "parameters"[0]; }
    assert "description" != "parameters" by { assert "description"[0] != "parameters"[0]; }
    assert "type" != "properties" by { assert "type"[0] != "properties"[0]; }
    assert "type" != "required" by { assert "type"[0] != "required"[0]; }
    assert "properties" != "required" by { assert "properties"[0] != "required"[0]; }
    var p := JObject([
      ("type", JString("object")),
      ("properties", JObject(params)),
      ("required", StringArray(Keys(params)))]);
    var top := FunctionJson(name, description, params).fields;
    assert top[1..][1..] == [("parameters", p)];
    assert Lookup(top[1..][1..], "parameters") == Some(p);
    assert Lookup(top[1..], "parameters") == Some(p);
    assert p.fields[1..][1..] == [("required", StringArray(Keys(params)))];
    assert Lookup(p.fields[1..][1..], "required") == Some(StringArray(Keys(params)));
    assert Lookup(p.fields[1..], "required") == Some(StringArray(Keys(params)));
  }

  /**
   * Read back through `get`, the function JSON's "parameters" holds the
   * parameter object as "properties" and, as "required", an array of strings
   * that are exactly that object's keys, none twice.
   */
  lemma RequiredArrayIsPropertyKeys(name: string, description: string, args: seq<(Json, nat)>)
    requires ArgsReadable(args)
    ensures Get(FunctionJson(name, description, Parameters(args)), "parameters").Some?
    ensures var p := Get(FunctionJson(name, description, Parameters(args)), "parameters").value;
            Get(p, "properties") == Some(JObject(Parameters(args))) && Get(p, "required").Some?
    ensures var p := Get(FunctionJson(name, description, Parameters(args)), "parameters").value;
            var req := Get(p, "required").value;
            req.JArray?
            && (forall i :: 0 <= i < |req.items| ==> req.items[i].JString?)
            && (forall k :: JString(k) in req.items <==> k in KeySet(Parameters(args)))
            && (forall i, j :: 0 <= i < j < |req.items| ==> req.items[i] != req.items[j])
  {
    FunctionJsonMembers(name, description, Parameters(args));
    InsertAllFacts([], args);
    KeyStrings(Parameters(args));
  }

  /** Each property key holds the schema of the LAST argument that brought it. */
  lemma {:induction false} InsertAllLastWins(params: seq<(string, Json)>, args: seq<(Json, nat)>, i: nat)
    requires ArgsReadable(args) && i < |args|
    requires forall j :: i < j < |args| ==> FirstEntry(args[j]).0 != FirstEntry(args[i]).0
    ensures Lookup(InsertAll(params, args), FirstEntry(args[i]).0) == Some(FirstEntry(args[i]).1)
    decreases args
  {
    var e := FirstEntry(args[0]);
    var k := FirstEntry(args[i]).0;
    if i == 0 {
      InsertAllUntouched(Insert(params, e.0, e.1), args[1..], k);
      InsertLookup(params, e.0, e.1, k);
    } else {
      InsertAllLastWins(Insert(params, e.0, e.1), args[1..], i - 1);
    }
  }

  lemma {:induction false} InsertAllUntouched(params: seq<(string, Json)>, args: seq<(Json, nat)>, k: string)
    requires ArgsReadable(args)
    requires forall j :: 0 <= j < |args| ==> FirstEntry(args[j]).0 != k
    ensures Lookup(InsertAll(params, args), k) == Lookup(params, k)
    decreases args
  {
    if args != [] {
      var e := FirstEntry(args[0]);
      InsertLookup(params, e.0, e.1, k);
      InsertAllUntouched(Insert(params, e.0, e.1), args[1..], k);
    }
  }

  /**
   * The total counts every argument, even one whose key an earlier argument
   * already brought and whose insert replaced that one: two arguments under
   * one key leave one property but both token counts.
   */
  lemma SharedKeyStillCounted(k: string, s1: Json, s2: Json, t1: nat, t2: nat)
    ensures var args: seq<(Json, nat)> := [(JObject([(k, s1)]), t1), (JObject([(k, s2)]), t2)];
            Parameters(args) == [(k, s2)] && SumArgTokens(args) == t1 + t2
  {
    var args: seq<(Json, nat)> := [(JObject([(k, s1)]), t1), (JObject([(k, s2)]), t2)];
    var p1 := Insert([], k, s1);
    assert p1 == [(k, s1)];
    assert Insert(p1, k, s2) == [(k, s2)];
    var rest := args[1..];
    assert rest == [(JObject([(k, s2)]), t2)];
    assert |rest[1..]| == 0;
    assert InsertAll([], args) == InsertAll(p1, rest);
    assert InsertAll(p1, rest) == InsertAll(Insert(p1, k, s2), rest[1..]);
    assert SumArgTokens(rest) == t2 + SumArgTokens(rest[1..]);
  }

  // ---------------------------------------------------------------------
  // FunctionCallResponse: the generated <Variant>Response structs
  // ---------------------------------------------------------------------

  /** An enum variant: its name, attributes, and the printed types of its fields. */
  datatype Variant = Variant(ident: string, attrs: seq<Attribute>, fieldTypes: seq<string>)

  /**
   * One generated struct: its name, its snake_case fields with their types,
   * and the description and tokens its `get_function_json` uses.
   */
  datatype ResponseStruct = ResponseStruct(name: string, fieldNames: seq<string>, fieldTypes: seq<string>, description: string, descTokens: nat)

  const ResponseSuffix: string := "Response"

  function FieldNames(fieldTypes: seq<string>): seq<string>
  {
    seq(|fieldTypes|, k requires 0 <= k < |fieldTypes| => SnakeCase(fieldTypes[k]))
  }

  /** `impl_function_call_response`: one struct per variant, in declaration order. */
  method ImplFunctionCallResponse(variants: seq<Variant>) returns (structs: seq<ResponseStruct>)
    ensures |structs| == |variants|
    ensures forall i :: 0 <= i < |variants| ==>
              && structs[i].name == variants[i].ident + ResponseSuffix
              && structs[i].fieldTypes == variants[i].fieldTypes
              && |structs[i].fieldNames| == |variants[i].fieldTypes|
              && (forall k :: 0 <= k < |variants[i].fieldTypes| ==> structs[i].fieldNames[k] == SnakeCase(variants[i].fieldTypes[k]))
              && Scanned(structs[i].description, structs[i].descTokens) == Scan(variants[i].attrs, FuncDescriptionAttribute)
  {
    structs := [];
    var i := 0;
    while i < |variants|
      invariant 0 <= i <= |variants|
      invariant |structs| == i
      invariant forall j :: 0 <= j < i ==>
              && structs[j].name == variants[j].ident + ResponseSuffix
              && structs[j].fieldTypes == variants[j].fieldTypes
              && structs[j].fieldNames == FieldNames(variants[j].fieldTypes)
              && Scanned(structs[j].description, structs[j].descTokens) == Scan(variants[j].attrs, FuncDescriptionAttribute)
    {
      var variant := variants[i];
      var description, descTokens := ScanAttributes(variant.attrs, FuncDescriptionAttribute);
      var fields := FieldNames(variant.fieldTypes);
      structs := structs + [ResponseStruct(variant.ident + ResponseSuffix, fields, variant.fieldTypes, description, descTokens)];
      i := i + 1;
    }
  }

  /**
   * The keys meet: for a struct field whose type is an enum named as a Rust
   * type, the key serde reads the field from (PascalCase of its snake_case
   * name) is the enum's name, which is the key `generate_enum_info!` puts
   * in "properties" and "required".
   */
  lemma FieldKeyIsPropertyKey(fieldType: string, d: EnumDescriptorImpl, table: seq<(string, nat)>)
    requires PascalIdentifier(fieldType) && d.name == fieldType
    ensures PascalCase(SnakeCase(fieldType)) == GenerateEnumInfo(d, table).0.fields[0].0
  {
    PascalCaseInvertsSnakeCase(fieldType);
  }

  /**
   * The part of a function's total contributed by its enum-typed arguments:
   * per argument its description tokens, twice its name tokens, its variant
   * tokens and 11.
   */
  function EnumArgsCost(ds: seq<EnumDescriptorImpl>, tables: seq<seq<(string, nat)>>): nat
    requires |ds| == |tables|
  {
    if ds == [] then 0
    else ds[0].descTokens + 2 * ds[0].nameTokens + SumTokens(tables[0]) + 11 + EnumArgsCost(ds[1..], tables[1..])
  }

  function EnumArgs(ds: seq<EnumDescriptorImpl>, tables: seq<seq<(string, nat)>>): (args: seq<(Json, nat)>)
    requires |ds| == |tables|
    ensures |args| == |ds| && ArgsReadable(args)
  {
    seq(|ds|, i requires 0 <= i < |ds| => GenerateEnumInfo(ds[i], tables[i]))
  }

  lemma {:induction false} EnumArgsTotal(ds: seq<EnumDescriptorImpl>, tables: seq<seq<(string, nat)>>)
    requires |ds| == |tables|
    ensures SumArgTokens(EnumArgs(ds, tables)) == EnumArgsCost(ds, tables)
  {
    if ds != [] {
      EnumArgsTotal(ds[1..], tables[1..]);
      assert EnumArgs(ds, tables)[1..] == EnumArgs(ds[1..], tables[1..]);
    }
  }
}
