/**
 The replicator's `unpackStruct`, which turns the metadata of a kanban into plain maps, lists and scalars for MongoDB.
 Main results: `SamePlaces`, `PackUnpack` and `UnpackPack`.
 */
module Metadata {
  import opened Basics
  import opened Kanbans

  /** What MongoDB stores; a value whose kind is missing becomes `Nil`. */
  datatype Doc =
    | Map(entries: map<string, Doc>)
    | List(items: seq<Doc>)
    | Text(text: string)
    | Number(number: real)
    | Flag(flag: bool)
    | NullNumber
    | Nil

  function Unpack(v: Value): Doc
    decreases v
  {
    match v
    case StructValue(fields) => Map(map k | k in fields :: Unpack(fields[k]))
    case ListValue(values) => List(seq(|values|, i requires 0 <= i < |values| => Unpack(values[i])))
    case StringValue(text) => Text(text)
    case NumberValue(number) => Number(number)
    case BoolValue(flag) => Flag(flag)
    case NullValue => NullNumber
    case Unset => Nil
  }

  /** The value a document came from. */
  function Pack(d: Doc): Value
    decreases d
  {
    match d
    case Map(entries) => StructValue(map k | k in entries :: Pack(entries[k]))
    case List(items) => ListValue(seq(|items|, i requires 0 <= i < |items| => Pack(items[i])))
    case Text(text) => StringValue(text)
    case Number(number) => NumberValue(number)
    case Flag(flag) => BoolValue(flag)
    case NullNumber => NullValue
    case Nil => Unset
  }

  lemma {:induction false} PackUnpack(v: Value)
    ensures Pack(Unpack(v)) == v
    decreases v
  {
    match v {
      case StructValue(fields) =>
        forall k | k in fields
          ensures Pack(Unpack(fields[k])) == fields[k]
        {
          PackUnpack(fields[k]);
        }
        assert Pack(Unpack(v)).fields == fields;
      case ListValue(values) =>
        forall i | 0 <= i < |values|
          ensures Pack(Unpack(values[i])) == values[i]
        {
          PackUnpack(values[i]);
        }
        assert Pack(Unpack(v)).values == values;
      case _ =>
    }
  }

  /** Nothing is merged and nothing is lost: both ways round. */
  lemma {:induction false} UnpackPack(d: Doc)
    ensures Unpack(Pack(d)) == d
    decreases d
  {
    match d {
      case Map(entries) =>
        forall k | k in entries
          ensures Unpack(Pack(entries[k])) == entries[k]
        {
          UnpackPack(entries[k]);
        }
        assert Unpack(Pack(d)).entries == entries;
      case List(items) =>
        forall i | 0 <= i < |items|
          ensures Unpack(Pack(items[i])) == items[i]
        {
          UnpackPack(items[i]);
        }
        assert Unpack(Pack(d)).items == items;
      case _ =>
    }
  }

  // ---- What is found where

  /** One step into a struct or a list. */
  datatype Step = Field(name: string) | Item(index: nat)

  function ValueAt(v: Value, path: seq<Step>): Option<Value>
    decreases |path|
  {
    if path == [] then Some(v)
    else if v.StructValue? && path[0].Field? && path[0].name in v.fields then ValueAt(v.fields[path[0].name], path[1..])
    else if v.ListValue? && path[0].Item? && path[0].index < |v.values| then ValueAt(v.values[path[0].index], path[1..])
    else None
  }

  function DocAt(d: Doc, path: seq<Step>): Option<Doc>
    decreases |path|
  {
    if path == [] then Some(d)
    else if d.Map? && path[0].Field? && path[0].name in d.entries then DocAt(d.entries[path[0].name], path[1..])
    else if d.List? && path[0].Item? && path[0].index < |d.items| then DocAt(d.items[path[0].index], path[1..])
    else None
  }

  /** The document has the value's kind, and says the same but for what lies deeper. */
  predicate Matches(v: Value, d: Doc) {
    match v
    case StructValue(fields) => d.Map? && d.entries.Keys == fields.Keys
    case ListValue(values) => d.List? && |d.items| == |values|
    case StringValue(text) => d == Text(text)
    case NumberValue(number) => d == Number(number)
    case BoolValue(flag) => d == Flag(flag)
    case NullValue => d == NullNumber
    case Unset => d == Nil
  }

  /** Wherever something is in the value, and only there, its counterpart is in the document. */
  lemma {:induction false} SamePlaces(v: Value, path: seq<Step>)
    ensures var x, y := ValueAt(v, path), DocAt(Unpack(v), path);
            if x.None? then y.None? else y.Some? && Matches(x.value, y.value)
    decreases |path|
  {
    if path != [] {
      if v.StructValue? && path[0].Field? && path[0].name in v.fields {
        SamePlaces(v.fields[path[0].name], path[1..]);
      } else if v.ListValue? && path[0].Item? && path[0].index < |v.values| {
        SamePlaces(v.values[path[0].index], path[1..]);
      }
    }
  }

  /** The program's loops: a fresh map filled key by key in any order, a fresh slice filled position by position. */
  method UnpackStruct(v: Value) returns (d: Doc)
    ensures d == Unpack(v)
    decreases v
  {
    match v {
      case StructValue(fields) =>
        var entries: map<string, Doc> := map[];
        var left := fields.Keys;
        while left != {}
          invariant left <= fields.Keys
          invariant entries.Keys == fields.Keys - left
          invariant forall k | k in entries :: entries[k] == Unpack(fields[k])
          decreases left
        {
          var k :| k in left;
          var x := UnpackStruct(fields[k]);
          entries := entries[k := x];
          left := left - {k};
        }
        d := Map(entries);
        assert entries == Unpack(v).entries;
      case ListValue(values) =>
        var items := new Doc[|values|](_ => Nil);
        for i := 0 to |values|
          invariant forall j | 0 <= j < i :: items[j] == Unpack(values[j])
        {
          var x := UnpackStruct(values[i]);
          items[i] := x;
        }
        d := List(items[..]);
        assert items[..] == Unpack(v).items;
      case StringValue(text) => d := Text(text);
      case NumberValue(number) => d := Number(number);
      case BoolValue(flag) => d := Flag(flag);
      case NullValue => d := NullNumber;
      case Unset => d := Nil;
    }
  }
}
