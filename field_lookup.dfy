/**
 * The two lookup helpers of HelloWorldExporter: find a field of a metadata
 * block by its `typeName` and read its value. Both are first-match linear
 * searches over the block's `fields` list; they differ in what counts as a
 * match and in what they read from it.
 */
module FieldLookup {
  import opened JsonValues

  /** An element of a `fields` list that the search loops can look at without
      throwing: an object whose `typeName` is a string. */
  predicate IsField(v: Json)
  {
    v.JObj? && "typeName" in v.members && v.members["typeName"].JStr?
  }

  function TypeName(v: Json): string
    requires IsField(v)
  {
    v.members["typeName"].str
  }

  /** The exception the loops raise on an element that is not a field: the
      cast to an object fails, or `getString("typeName")` meets a missing key
      or a non-string. */
  function FieldFault(v: Json): Fault
  {
    if !v.JObj? then ClassCast
    else if "typeName" !in v.members then NullPointer
    else ClassCast
  }

  /** A field whose `value` is a JSON array. */
  predicate HasArrayValue(v: Json)
  {
    v.JObj? && "value" in v.members && v.members["value"].JArr?
  }

  // ---------------------------------------------------------------------
  // Reference definitions of "the first match", stated by position.

  /** The first `n` elements are fields, and none of them is named `typeName`. */
  predicate NoneNamedBefore(fields: seq<Json>, typeName: string, n: nat)
    requires n <= |fields|
  {
    forall j :: 0 <= j < n ==> IsField(fields[j]) && TypeName(fields[j]) != typeName
  }

  /** Position `k` holds the first field named `typeName`. */
  predicate IsFirstNamed(fields: seq<Json>, typeName: string, k: nat)
  {
    k < |fields| && NoneNamedBefore(fields, typeName, k)
    && IsField(fields[k]) && TypeName(fields[k]) == typeName
  }

  /** The first `n` elements are fields, and none of them is an array-valued
      field named `typeName` (a field with that name and another payload may
      occur). */
  predicate NoArrayMatchBefore(fields: seq<Json>, typeName: string, n: nat)
    requires n <= |fields|
  {
    forall j :: 0 <= j < n ==>
      IsField(fields[j]) && !(TypeName(fields[j]) == typeName && HasArrayValue(fields[j]))
  }

  /** Position `k` holds the first array-valued field named `typeName`. */
  predicate IsFirstArrayMatch(fields: seq<Json>, typeName: string, k: nat)
  {
    k < |fields| && NoArrayMatchBefore(fields, typeName, k)
    && IsField(fields[k]) && TypeName(fields[k]) == typeName && HasArrayValue(fields[k])
  }

  // ---------------------------------------------------------------------
  // The searches, as recursive functions over the `fields` list.

  /** The loop of getFieldValue: the `value` string of the first field named
      `typeName` ("" when that value is not a string), or "" when no field has
      that name. */
  function ScanScalar(fields: seq<Json>, typeName: string): Result<string>
  {
    if fields == [] then Ok("")
    else
      var f :- AsObject(fields[0]);
      var name :- GetString(f, "typeName");
      if typeName == name then Ok(GetStringOr(f, "value", ""))
      else ScanScalar(fields[1..], typeName)
  }

  /** The loop of getFieldValueFromArray: element 0 of the `value` array of
      the first array-valued field named `typeName` ("" when that array is
      empty or its element 0 is not a string), or "" when there is none. */
  function ScanArray(fields: seq<Json>, typeName: string): Result<string>
  {
    if fields == [] then Ok("")
    else
      var f :- AsObject(fields[0]);
      var name :- GetString(f, "typeName");
      if typeName == name && "value" in f && f["value"].JArr? then
        Ok(StringAtOr(f["value"].elems, 0, ""))
      else ScanArray(fields[1..], typeName)
  }

  /** getFieldValue(block, typeName). */
  function FieldValue(block: Option<JsonObject>, typeName: string): Result<string>
  {
    if !HasFields(block) then Ok("")
    else
      var fields :- FieldsOf(block.value);
      ScanScalar(fields, typeName)
  }

  /** getFieldValueFromArray(block, typeName). */
  function FieldValueFromArray(block: Option<JsonObject>, typeName: string): Result<string>
  {
    if !HasFields(block) then Ok("")
    else
      var fields :- FieldsOf(block.value);
      ScanArray(fields, typeName)
  }

  // ---------------------------------------------------------------------
  // The searches as the source writes them: early-return loops.

  method GetFieldValue(block: Option<JsonObject>, typeName: string) returns (r: Result<string>)
    ensures r == FieldValue(block, typeName)
  {
    if !HasFields(block) {
      return Ok("");
    }
    var fields :- FieldsOf(block.value);
    for i := 0 to |fields|
      invariant ScanScalar(fields[i..], typeName) == ScanScalar(fields, typeName)
    {
      assert fields[i..][0] == fields[i] && fields[i..][1..] == fields[i + 1..];
      var f :- AsObject(fields[i]);
      var name :- GetString(f, "typeName");
      if typeName == name {
        return Ok(GetStringOr(f, "value", ""));
      }
    }
    return Ok("");
  }

  method GetFieldValueFromArray(block: Option<JsonObject>, typeName: string) returns (r: Result<string>)
    ensures r == FieldValueFromArray(block, typeName)
  {
    if !HasFields(block) {
      return Ok("");
    }
    var fields :- FieldsOf(block.value);
    for i := 0 to |fields|
      invariant ScanArray(fields[i..], typeName) == ScanArray(fields, typeName)
    {
      assert fields[i..][0] == fields[i] && fields[i..][1..] == fields[i + 1..];
      var f :- AsObject(fields[i]);
      var name :- GetString(f, "typeName");
      if typeName == name && "value" in f && f["value"].JArr? {
        return Ok(StringAtOr(f["value"].elems, 0, ""));
      }
    }
    return Ok("");
  }

  // ---------------------------------------------------------------------
  // What the searches mean.

  /** Both lookups tolerate an absent block and a block without `fields`
      (the answer is ""), and both fail when `fields` is not an array. */
  lemma BlockGuards(block: Option<JsonObject>, typeName: string)
    ensures !HasFields(block) ==>
      FieldValue(block, typeName) == Ok("") && FieldValueFromArray(block, typeName) == Ok("")
    ensures HasFields(block) && !block.value["fields"].JArr? ==>
      FieldValue(block, typeName) == Fail(ClassCast) && FieldValueFromArray(block, typeName) == Fail(ClassCast)
  {
  }

  /** getFieldValue consults the first field with the requested name and only
      that one: its `value` string, or "" when that value is not a string. */
  lemma {:induction false} ScanScalarFirstMatch(fields: seq<Json>, typeName: string, k: nat)
    requires IsFirstNamed(fields, typeName, k)
    ensures ScanScalar(fields, typeName) == Ok(GetStringOr(fields[k].members, "value", ""))
  {
    if k > 0 {
      assert IsField(fields[0]) && TypeName(fields[0]) != typeName;
      assert IsFirstNamed(fields[1..], typeName, k - 1) by {
        forall j | 0 <= j < k - 1
          ensures IsField(fields[1..][j]) && TypeName(fields[1..][j]) != typeName
        {
          assert fields[1..][j] == fields[j + 1];
        }
      }
      ScanScalarFirstMatch(fields[1..], typeName, k - 1);
    }
  }

  /** A list of fields none of which has the requested name gives "". */
  lemma {:induction false} ScanScalarNoMatch(fields: seq<Json>, typeName: string)
    requires NoneNamedBefore(fields, typeName, |fields|)
    ensures ScanScalar(fields, typeName) == Ok("")
  {
    if fields != [] {
      assert IsField(fields[0]);
      assert NoneNamedBefore(fields[1..], typeName, |fields| - 1) by {
        forall j | 0 <= j < |fields| - 1
          ensures IsField(fields[1..][j]) && TypeName(fields[1..][j]) != typeName
        {
          assert fields[1..][j] == fields[j + 1];
        }
      }
      ScanScalarNoMatch(fields[1..], typeName);
    }
  }

  /** An element that is not a field, met before any field with the requested
      name, makes getFieldValue throw. */
  lemma {:induction false} ScanScalarFault(fields: seq<Json>, typeName: string, k: nat)
    requires k < |fields| && NoneNamedBefore(fields, typeName, k) && !IsField(fields[k])
    ensures ScanScalar(fields, typeName) == Fail(FieldFault(fields[k]))
  {
    if k > 0 {
      assert IsField(fields[0]);
      assert NoneNamedBefore(fields[1..], typeName, k - 1) by {
        forall j | 0 <= j < k - 1
          ensures IsField(fields[1..][j]) && TypeName(fields[1..][j]) != typeName
        {
          assert fields[1..][j] == fields[j + 1];
        }
      }
      ScanScalarFault(fields[1..], typeName, k - 1);
    }
  }

  /** Later fields with the same name are never consulted: appending anything
      after the first match leaves the answer unchanged. */
  lemma ScanScalarIgnoresLater(fields: seq<Json>, rest: seq<Json>, typeName: string, k: nat)
    requires IsFirstNamed(fields, typeName, k)
    ensures ScanScalar(fields + rest, typeName) == ScanScalar(fields, typeName)
  {
    assert IsFirstNamed(fields + rest, typeName, k) by {
      forall j | 0 <= j <= k
        ensures (fields + rest)[j] == fields[j]
      {
      }
    }
    ScanScalarFirstMatch(fields, typeName, k);
    ScanScalarFirstMatch(fields + rest, typeName, k);
  }

  /** getFieldValueFromArray skips fields with the requested name whose value
      is not an array, and reads element 0 of the first one whose value is. */
  lemma {:induction false} ScanArrayFirstMatch(fields: seq<Json>, typeName: string, k: nat)
    requires IsFirstArrayMatch(fields, typeName, k)
    ensures ScanArray(fields, typeName) == Ok(StringAtOr(fields[k].members["value"].elems, 0, ""))
  {
    if k > 0 {
      assert IsField(fields[0]) && !(TypeName(fields[0]) == typeName && HasArrayValue(fields[0]));
      assert IsFirstArrayMatch(fields[1..], typeName, k - 1) by {
        forall j | 0 <= j < k - 1
          ensures IsField(fields[1..][j])
                  && !(TypeName(fields[1..][j]) == typeName && HasArrayValue(fields[1..][j]))
        {
          assert fields[1..][j] == fields[j + 1];
        }
      }
      ScanArrayFirstMatch(fields[1..], typeName, k - 1);
    }
  }

  /** With no array-valued field of the requested name the answer is "". */
  lemma {:induction false} ScanArrayNoMatch(fields: seq<Json>, typeName: string)
    requires NoArrayMatchBefore(fields, typeName, |fields|)
    ensures ScanArray(fields, typeName) == Ok("")
  {
    if fields != [] {
      assert IsField(fields[0]);
      assert NoArrayMatchBefore(fields[1..], typeName, |fields| - 1) by {
        forall j | 0 <= j < |fields| - 1
          ensures IsField(fields[1..][j])
                  && !(TypeName(fields[1..][j]) == typeName && HasArrayValue(fields[1..][j]))
        {
          assert fields[1..][j] == fields[j + 1];
        }
      }
      ScanArrayNoMatch(fields[1..], typeName);
    }
  }

  /** An element that is not a field, met before any array-valued match, makes
      getFieldValueFromArray throw. */
  lemma {:induction false} ScanArrayFault(fields: seq<Json>, typeName: string, k: nat)
    requires k < |fields| && NoArrayMatchBefore(fields, typeName, k) && !IsField(fields[k])
    ensures ScanArray(fields, typeName) == Fail(FieldFault(fields[k]))
  {
    if k > 0 {
      assert IsField(fields[0]);
      assert NoArrayMatchBefore(fields[1..], typeName, k - 1) by {
        forall j | 0 <= j < k - 1
          ensures IsField(fields[1..][j])
                  && !(TypeName(fields[1..][j]) == typeName && HasArrayValue(fields[1..][j]))
        {
          assert fields[1..][j] == fields[j + 1];
        }
      }
      ScanArrayFault(fields[1..], typeName, k - 1);
    }
  }

  /** Every list has a first stopping point for a search by name: a prefix
      of fields none named `typeName`, followed by the end of the list, an
      element that is not a field, or a field with that name. */
  lemma {:induction false} FirstStop(fields: seq<Json>, typeName: string)
    ensures exists k: nat ::
      k <= |fields| && NoneNamedBefore(fields, typeName, k)
      && (k < |fields| ==> !IsField(fields[k]) || TypeName(fields[k]) == typeName)
  {
    if fields != [] && IsField(fields[0]) && TypeName(fields[0]) != typeName {
      var tail := fields[1..];
      FirstStop(tail, typeName);
      var k: nat :| k <= |tail| && NoneNamedBefore(tail, typeName, k)
        && (k < |tail| ==> !IsField(tail[k]) || TypeName(tail[k]) == typeName);
      assert forall j :: 0 < j <= k ==> fields[j] == tail[j - 1];
      assert NoneNamedBefore(fields, typeName, k + 1);
    } else {
      assert NoneNamedBefore(fields, typeName, 0);
    }
  }

  /** The two lookups disagree on one list: a string-valued field named
      `cnumber` followed by an array-valued one. getFieldValue stops at the
      first; getFieldValueFromArray passes over it to the second. */
  lemma LookupsDisagree()
    ensures var fields := [
        JObj(map["typeName" := JStr("cnumber"), "value" := JStr("A")]),
        JObj(map["typeName" := JStr("cnumber"), "value" := JArr([JStr("B")])])
      ];
      ScanScalar(fields, "cnumber") == Ok("A") && ScanArray(fields, "cnumber") == Ok("B")
  {
  }
}
