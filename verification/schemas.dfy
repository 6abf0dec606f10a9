/**
 * The schema builder every `XControl.get_llm_schema` instantiates: a fixed base schema with an
 * `entity_id` parameter, into which the fragment of every requested, known feature is merged.
 */
module Schemas {
  import opened Wrappers

  /**
   * One parameter definition: each field is one JSON-schema keyword the tables use
   * (`type`, `description`, `minimum`, `maximum`, `items`, `minItems`, `maxItems`, `enum`,
   * `optional`); `None` means the keyword is absent from the dict.
   */
  datatype Parameter = Parameter(
    jsonType: string,
    description: Option<string>,
    minimum: Option<int>,
    maximum: Option<int>,
    items: Option<Parameter>,
    minItems: Option<int>,
    maxItems: Option<int>,
    enumValues: Option<seq<string>>,
    optional: Option<bool>)

  /** The dict `get_llm_schema` returns, with its three keys `type`, `parameters` and `required`. */
  datatype Schema = Schema(kind: string, parameters: map<string, Parameter>, required: seq<string>)

  /** A domain's feature table: feature name to the parameter definitions it adds. */
  type FeatureTable = map<string, map<string, Parameter>>

  /** A definition with only a type and a description. */
  function Plain(jsonType: string, description: string): Parameter {
    Parameter(jsonType, Some(description), None, None, None, None, None, None, None)
  }

  /** The definition of the `entity_id` parameter; only its description varies by domain. */
  function EntityIdParameter(description: string): Parameter {
    Plain("string", description)
  }

  /** Some requested feature that the table knows defines parameter `k`. */
  ghost predicate Provides(table: FeatureTable, features: seq<string>, k: string) {
    exists f :: f in features && f in table && k in table[f]
  }

  /** No parameter is defined by two different features of the table. */
  ghost predicate Disjoint(table: FeatureTable) {
    forall f, g, k :: f in table && g in table && k in table[f] && k in table[g] ==> f == g
  }

  /** No feature redefines the `entity_id` parameter. */
  ghost predicate KeepsEntityId(table: FeatureTable) {
    forall f :: f in table ==> "entity_id" !in table[f]
  }

  /**
   * The merge loop: for each feature in order, a known one's fragment updates the parameters
   * (later keys overwrite earlier ones), an unknown one is skipped.
   */
  function Merge(params: map<string, Parameter>, table: FeatureTable, features: seq<string>): (r: map<string, Parameter>)
    ensures forall k :: k in r <==> k in params || Provides(table, features, k)
    ensures forall k :: k in params && !Provides(table, features, k) ==> r[k] == params[k]
    decreases |features|
  {
    if |features| == 0 then params
    else
      var f := features[0];
      var next := if f in table then params + table[f] else params;
      assert forall g :: g in features <==> g == f || g in features[1..];
      Merge(next, table, features[1..])
  }

  /** A key some requested feature defines takes that feature's definition (when no two features share a key). */
  lemma {:induction false} MergeValue(params: map<string, Parameter>, table: FeatureTable, features: seq<string>, f: string, k: string)
    requires Disjoint(table)
    requires f in features && f in table && k in table[f]
    ensures k in Merge(params, table, features) && Merge(params, table, features)[k] == table[f][k]
    decreases |features|
  {
    var rest := features[1..];
    var next := if features[0] in table then params + table[features[0]] else params;
    assert Merge(params, table, features) == Merge(next, table, rest);
    if features[0] == f {
      if Provides(table, rest, k) {
        var g :| g in rest && g in table && k in table[g];
        MergeValue(next, table, rest, g, k);
      }
    } else {
      assert f in rest;
      MergeValue(next, table, rest, f, k);
    }
  }

  /** With disjoint fragments, a parameter is provided exactly when the one feature defining it is requested. */
  lemma ProvidesOwner(table: FeatureTable, features: seq<string>, f: string, k: string)
    requires Disjoint(table)
    requires f in table && k in table[f]
    ensures Provides(table, features, k) <==> f in features
  {
  }

  /** Every parameter some feature of the table defines lies in `names`. */
  ghost predicate DefinesWithin(table: FeatureTable, names: set<string>) {
    forall f :: f in table ==> table[f].Keys <= names
  }

  /** `get_llm_schema(features)`: `None` and the empty list both leave the base schema as it is. */
  function BuildSchema(description: string, table: FeatureTable, features: Option<seq<string>>): (r: Schema)
    ensures r.kind == "object" && r.required == ["entity_id"]
    ensures forall k :: k in r.parameters <==> k == "entity_id" || (features.Some? && Provides(table, features.value, k))
  {
    var base := map["entity_id" := EntityIdParameter(description)];
    if features.None? || |features.value| == 0 then
      Schema("object", base, ["entity_id"])
    else
      Schema("object", Merge(base, table, features.value), ["entity_id"])
  }

  /** When no feature redefines it, `entity_id` keeps the base definition. */
  lemma BuildSchemaEntityId(description: string, table: FeatureTable, features: Option<seq<string>>)
    requires KeepsEntityId(table)
    ensures "entity_id" in BuildSchema(description, table, features).parameters
    ensures BuildSchema(description, table, features).parameters["entity_id"] == EntityIdParameter(description)
  {
  }

  /** With disjoint fragments, every parameter a requested feature defines takes that feature's definition. */
  lemma BuildSchemaValues(description: string, table: FeatureTable, features: seq<string>)
    requires Disjoint(table)
    ensures forall f, k :: f in features && f in table && k in table[f] ==>
      k in BuildSchema(description, table, Some(features)).parameters
      && BuildSchema(description, table, Some(features)).parameters[k] == table[f][k]
  {
    if |features| > 0 {
      MergeValues(map["entity_id" := EntityIdParameter(description)], table, features);
    }
  }

  /** A schema only has `entity_id` and parameters the table defines. */
  lemma BuildSchemaWithin(description: string, table: FeatureTable, features: Option<seq<string>>, names: set<string>)
    requires DefinesWithin(table, names)
    ensures forall k :: k in BuildSchema(description, table, features).parameters ==> k == "entity_id" || k in names
  {
  }

  /** A present parameter that feature `f` defines carries `f`'s definition, whatever else was requested. */
  lemma BuildSchemaValue(description: string, table: FeatureTable, features: Option<seq<string>>, f: string, k: string)
    requires Disjoint(table) && KeepsEntityId(table)
    requires f in table && k in table[f] && k in BuildSchema(description, table, features).parameters
    ensures BuildSchema(description, table, features).parameters[k] == table[f][k]
  {
    var g :| g in features.value && g in table && k in table[g];
    BuildSchemaValues(description, table, features.value);
  }

  /** Every parameter a requested feature defines takes that feature's definition. */
  lemma MergeValues(params: map<string, Parameter>, table: FeatureTable, features: seq<string>)
    ensures Disjoint(table) ==>
      forall f, k :: f in features && f in table && k in table[f] ==>
        k in Merge(params, table, features) && Merge(params, table, features)[k] == table[f][k]
  {
    if Disjoint(table) {
      forall f, k | f in features && f in table && k in table[f]
        ensures k in Merge(params, table, features) && Merge(params, table, features)[k] == table[f][k]
      {
        MergeValue(params, table, features, f, k);
      }
    }
  }

  /**
   * The schema depends only on which features are requested: reordering or repeating
   * feature names gives the same schema.
   */
  lemma BuildSchemaOrderIndependent(description: string, table: FeatureTable, fs1: seq<string>, fs2: seq<string>)
    requires Disjoint(table)
    requires forall f :: f in fs1 <==> f in fs2
    ensures BuildSchema(description, table, Some(fs1)) == BuildSchema(description, table, Some(fs2))
  {
    var p1 := BuildSchema(description, table, Some(fs1)).parameters;
    var p2 := BuildSchema(description, table, Some(fs2)).parameters;
    BuildSchemaValues(description, table, fs1);
    BuildSchemaValues(description, table, fs2);
    forall k | k in p1
      ensures k in p2 && p1[k] == p2[k]
    {
      if Provides(table, fs1, k) {
        var f :| f in fs1 && f in table && k in table[f];
      } else {
        assert !Provides(table, fs2, k);
      }
    }
    assert p1.Keys == p2.Keys;
    assert p1 == p2;
  }

  /** A parameter definition of JSON type `integer` bounded to `lo..hi`. */
  predicate IntegerRange(p: Parameter, lo: int, hi: int) {
    p.jsonType == "integer" && p.minimum == Some(lo) && p.maximum == Some(hi)
  }
}
