/**
 * The `Cacheable` mix-in: a dataclass is written to a dict field by field,
 * with its class version under "version" and every enum member replaced by
 * its NAME, and rebuilt from such a dict after a version check, looking each
 * enum field up by member name.
 */
module Cacheable {
  import opened Wrappers

  /** A Python value as it sits in a dataclass instance, in the dict `asdict`
      builds, and in the JSON cache file. `EnumMember` is an enum instance in
      memory; it never reaches a file. */
  datatype Value =
    | Null
    | Bool(b: bool)
    | Int(i: int)
    | Str(s: string)
    | EnumMember(name: string, value: string)
    | List(items: seq<Value>)
    | Dict(entries: map<string, Value>)

  /** The exceptions the cache layer raises. */
  datatype Error =
    | KeyError(key: Value)
    | VersionMismatch(expected: int, got: Value)
    | TypeError(field: string)
    | FileNotFound(fileName: string)
    | CacheExpired
    | InvalidEntries(keys: set<string>)

  /** A dataclass field as `from_dict` sees it after `Optional[X]` has been
      unwrapped to `X`: either a plain type or an enum given by its members
      (name, value) in declaration order. */
  datatype FieldType = Plain | EnumOf(members: seq<(string, string)>)
  datatype Field = Field(name: string, fieldType: FieldType)

  const VersionKey: string := "version"

  function Names(fields: seq<(string, Value)>): set<string> {
    set i | 0 <= i < |fields| :: fields[i].0
  }

  predicate DistinctNames(fields: seq<(string, Value)>) {
    forall i, j :: 0 <= i < j < |fields| ==> fields[i].0 != fields[j].0
  }

  /** The dict `dataclasses.asdict` builds from the fields in declaration order. */
  function AsDict(fields: seq<(string, Value)>): map<string, Value> {
    if fields == [] then map[]
    else AsDict(fields[..|fields| - 1])[fields[|fields| - 1].0 := fields[|fields| - 1].1]
  }

  lemma {:induction false} AsDictKeys(fields: seq<(string, Value)>)
    ensures AsDict(fields).Keys == Names(fields)
  {
    if fields != [] {
      var init := fields[..|fields| - 1];
      AsDictKeys(init);
      assert Names(fields) == Names(init) + {fields[|fields| - 1].0} by {
        forall x | x in Names(fields) ensures x in Names(init) + {fields[|fields| - 1].0} {
          var i :| 0 <= i < |fields| && fields[i].0 == x;
          if i < |fields| - 1 { assert init[i] == fields[i]; }
        }
        forall x | x in Names(init) ensures x in Names(fields) {
          var i :| 0 <= i < |init| && init[i].0 == x;
          assert fields[i] == init[i];
        }
      }
    }
  }

  lemma {:induction false} AsDictAt(fields: seq<(string, Value)>, i: int)
    requires DistinctNames(fields) && 0 <= i < |fields|
    ensures fields[i].0 in AsDict(fields) && AsDict(fields)[fields[i].0] == fields[i].1
  {
    if i < |fields| - 1 {
      var init := fields[..|fields| - 1];
      assert init[i] == fields[i];
      AsDictAt(init, i);
    }
  }

  /** `to_dict` keeps every value except an enum member, which becomes its name. */
  function NameOfEnum(v: Value): Value {
    if v.EnumMember? then Str(v.name) else v
  }

  /** The dict `to_dict` returns. */
  function Serialized(fields: seq<(string, Value)>, version: int): map<string, Value> {
    var raw := AsDict(fields)[VersionKey := Int(version)];
    map k | k in raw :: NameOfEnum(raw[k])
  }

  /** `to_dict`: `asdict`, then the class version, then enum members by name. */
  method ToDict(fields: seq<(string, Value)>, version: int) returns (data: map<string, Value>)
    ensures data == Serialized(fields, version)
  {
    AsDictKeys(fields);
    data := AsDict(fields);
    data := data[VersionKey := Int(version)];
    ghost var raw := data;
    var i := 0;
    while i < |fields|
      invariant 0 <= i <= |fields|
      invariant data.Keys == raw.Keys
      invariant forall k :: k in raw ==>
        data[k] == if k in Names(fields[..i]) then NameOfEnum(raw[k]) else raw[k]
    {
      var name := fields[i].0;
      assert name in Names(fields);
      if data[name].EnumMember? {
        data := data[name := Str(data[name].name)];
      }
      assert Names(fields[..i + 1]) == Names(fields[..i]) + {name} by {
        assert fields[..i + 1] == fields[..i] + [fields[i]];
      }
      i := i + 1;
    }
    assert fields[..i] == fields;
    assert forall k :: k in raw ==> k == VersionKey || k in Names(fields);
  }

  lemma SerializedField(fields: seq<(string, Value)>, version: int, i: int)
    requires DistinctNames(fields) && 0 <= i < |fields| && fields[i].0 != VersionKey
    ensures fields[i].0 in Serialized(fields, version)
    ensures Serialized(fields, version)[fields[i].0] == NameOfEnum(fields[i].1)
  {
    AsDictAt(fields, i);
  }

  /** Python's `==` between a loaded value and an int class version
      (`True == 1` holds in Python). */
  predicate VersionMatches(v: Value, version: int) {
    (v.Int? && v.i == version) || (v.Bool? && (if v.b then 1 else 0) == version)
  }

  /** `check_version`: raises exactly when the versions differ. */
  function CheckVersion(classVersion: int, dataVersion: Value): (r: Result<(), Error>)
    ensures r.Success? <==> VersionMatches(dataVersion, classVersion)
    ensures r.Failure? ==> r.error == VersionMismatch(classVersion, dataVersion)
  {
    if VersionMatches(dataVersion, classVersion) then Success(())
    else Failure(VersionMismatch(classVersion, dataVersion))
  }

  /** `EnumClass[value]`: lookup by member name; anything else is a KeyError. */
  function LookupMember(members: seq<(string, string)>, v: Value): (r: Result<Value, Error>)
    ensures r.Success? ==> v.Str? && exists m :: m in members && m.0 == v.s && r.value == EnumMember(m.0, m.1)
    ensures r.Failure? ==> r.error == KeyError(v) && forall m :: m in members ==> v != Str(m.0)
  {
    if members == [] then Failure(KeyError(v))
    else if v == Str(members[0].0) then Success(EnumMember(members[0].0, members[0].1))
    else LookupMember(members[1..], v)
  }

  function DecodeField(f: Field, v: Value): Result<Value, Error> {
    match f.fieldType
    case Plain => Success(v)
    case EnumOf(members) => LookupMember(members, v)
  }

  /** The constructor arguments `from_dict` collects for the fields in order;
      the first missing field or unknown enum name is the error raised. */
  function DecodeFields(schema: seq<Field>, data: map<string, Value>): Result<map<string, Value>, Error> {
    if schema == [] then Success(map[])
    else
      var f := schema[|schema| - 1];
      var prior :- DecodeFields(schema[..|schema| - 1], data);
      if f.name !in data then Failure(KeyError(Str(f.name)))
      else
        var v :- DecodeField(f, data[f.name]);
        Success(prior[f.name := v])
  }

  /** Once a field fails, the later fields are never looked at. */
  lemma {:induction false} FirstFailureStands(schema: seq<Field>, data: map<string, Value>, k: nat)
    requires k <= |schema| && DecodeFields(schema[..k], data).Failure?
    ensures DecodeFields(schema, data) == DecodeFields(schema[..k], data)
    decreases |schema| - k
  {
    if k < |schema| {
      assert schema[..k + 1][..k] == schema[..k];
      FirstFailureStands(schema, data, k + 1);
    } else {
      assert schema[..k] == schema;
    }
  }

  /** What `from_dict` hands to the class constructor, or the exception it raises. */
  function Deserialized(schema: seq<Field>, version: int, data: map<string, Value>): Result<map<string, Value>, Error> {
    if VersionKey !in data then Failure(KeyError(Str(VersionKey)))
    else if !VersionMatches(data[VersionKey], version) then Failure(VersionMismatch(version, data[VersionKey]))
    else DecodeFields(schema, data)
  }

  /** `from_dict` up to the constructor call: version check, then one lookup per field. */
  method FromDict(schema: seq<Field>, version: int, data: map<string, Value>) returns (r: Result<map<string, Value>, Error>)
    ensures r == Deserialized(schema, version, data)
  {
    if VersionKey !in data {
      return Failure(KeyError(Str(VersionKey)));
    }
    if !VersionMatches(data[VersionKey], version) {
      return Failure(VersionMismatch(version, data[VersionKey]));
    }
    var initArgs: map<string, Value> := map[];
    var i := 0;
    while i < |schema|
      invariant 0 <= i <= |schema|
      invariant DecodeFields(schema[..i], data) == Success(initArgs)
    {
      var f := schema[i];
      assert schema[..i + 1][..i] == schema[..i];
      if f.name !in data {
        FirstFailureStands(schema, data, i + 1);
        return Failure(KeyError(Str(f.name)));
      }
      var v := DecodeField(f, data[f.name]);
      if v.Failure? {
        FirstFailureStands(schema, data, i + 1);
        return Failure(v.error);
      }
      initArgs := initArgs[f.name := v.value];
      i := i + 1;
    }
    assert schema[..i] == schema;
    r := Success(initArgs);
  }

  /** The schema describes the fields: same names in the same order, enum
      members among the declared ones (whose names are distinct), and no enum
      instance in a plain field. */
  predicate Conforms(schema: seq<Field>, fields: seq<(string, Value)>) {
    |schema| == |fields| &&
    forall i :: 0 <= i < |schema| ==>
      schema[i].name == fields[i].0 &&
      match schema[i].fieldType
      case Plain => !fields[i].1.EnumMember?
      case EnumOf(ms) =>
        fields[i].1.EnumMember? && (fields[i].1.name, fields[i].1.value) in ms &&
        forall a, b :: 0 <= a < b < |ms| ==> ms[a].0 != ms[b].0
  }

  lemma {:induction false} LookupMemberByName(ms: seq<(string, string)>, m: (string, string))
    requires m in ms
    requires forall a, b :: 0 <= a < b < |ms| ==> ms[a].0 != ms[b].0
    ensures LookupMember(ms, Str(m.0)) == Success(EnumMember(m.0, m.1))
  {
    if ms[0] != m {
      assert ms[0].0 != m.0 by {
        var j :| 0 <= j < |ms| && ms[j] == m;
        assert j > 0;
      }
      assert m in ms[1..] by {
        var j :| 0 <= j < |ms| && ms[j] == m;
        assert ms[1..][j - 1] == m;
      }
      LookupMemberByName(ms[1..], m);
    }
  }

  /** `from_dict(to_dict(x))` rebuilds exactly the fields `asdict` saw. */
  lemma {:induction false} DecodeSerialized(schema: seq<Field>, fields: seq<(string, Value)>, version: int)
    requires Conforms(schema, fields) && DistinctNames(fields)
    requires VersionKey !in Names(fields)
    ensures Deserialized(schema, version, Serialized(fields, version)) == Success(AsDict(fields))
  {
    DecodeFieldsPrefix(schema, fields, version, |schema|);
    assert schema[..|schema|] == schema && fields[..|fields|] == fields;
  }

  lemma {:induction false} DecodeFieldsPrefix(schema: seq<Field>, fields: seq<(string, Value)>, version: int, n: nat)
    requires Conforms(schema, fields) && DistinctNames(fields)
    requires VersionKey !in Names(fields)
    requires n <= |schema|
    ensures DecodeFields(schema[..n], Serialized(fields, version)) == Success(AsDict(fields[..n]))
  {
    var data := Serialized(fields, version);
    if n > 0 {
      DecodeFieldsPrefix(schema, fields, version, n - 1);
      assert schema[..n][..n - 1] == schema[..n - 1];
      assert fields[..n][..n - 1] == fields[..n - 1];
      var f := schema[n - 1];
      assert fields[n - 1].0 in Names(fields);
      SerializedField(fields, version, n - 1);
      assert f.name in data && data[f.name] == NameOfEnum(fields[n - 1].1);
      match f.fieldType
      case Plain =>
      case EnumOf(ms) =>
        LookupMemberByName(ms, (fields[n - 1].1.name, fields[n - 1].1.value));
    }
  }
}
