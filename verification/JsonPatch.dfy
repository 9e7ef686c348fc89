/**
 The adapter's state diff, and the patch interpreter that must undo it.

 `Diff` is the function under study. `Apply` is an independent reading of RFC 6902:
 it fails on a missing target, as sections 4.1 to 4.3 require, and it knows arrays,
 although `Diff` never addresses one.
 */
module JsonPatch {
  import opened Json
  import opened JsonPointer
  import opened KeyOrder
  import opened Options

  datatype Operation =
    | Add(path: string, value: Json)
    | Remove(path: string)
    | Replace(path: string, value: Json)

  // ---- The diff --------------------------------------------------------------

  /** Removed keys first, then added keys, then the shared keys, each group in order. */
  function Diff(previous: Json, current: Json, path: string): seq<Operation>
    decreases previous, 1, 0
  {
    if ValuesEqual(previous, current) then []
    else if previous.Obj? && current.Obj? then
      var before, after := previous.fields, current.fields;
      Removals(Sorted(before.Keys - after.Keys), path) +
      Additions(Sorted(after.Keys - before.Keys), after, path) +
      SharedDiffs(previous, current, Sorted(before.Keys * after.Keys), path)
    else [Replace(path, current)]
  }

  function Removals(keys: seq<string>, path: string): seq<Operation> {
    if keys == [] then []
    else [Remove(path + "/" + Escape(keys[0]))] + Removals(keys[1..], path)
  }

  function Additions(keys: seq<string>, after: map<string, Json>, path: string): seq<Operation>
    requires forall key | key in keys :: key in after
  {
    if keys == [] then []
    else [Add(path + "/" + Escape(keys[0]), after[keys[0]])] + Additions(keys[1..], after, path)
  }

  function SharedDiffs(previous: Json, current: Json, keys: seq<string>, path: string): seq<Operation>
    requires previous.Obj? && current.Obj?
    requires forall key | key in keys :: key in previous.fields && key in current.fields
    decreases previous, 0, |keys|
  {
    if keys == [] then []
    else
      Diff(previous.fields[keys[0]], current.fields[keys[0]], path + "/" + Escape(keys[0])) +
      SharedDiffs(previous, current, keys[1..], path)
  }

  // ---- The interpreter -------------------------------------------------------

  datatype Action = AddValue(value: Json) | RemoveValue | ReplaceValue(value: Json)

  predicate IsDigit(c: char) { '0' <= c <= '9' }

  function DigitValue(c: char): nat
    requires IsDigit(c)
  {
    c as int - '0' as int
  }

  function Number(digits: string): nat
    requires forall c | c in digits :: IsDigit(c)
  {
    if digits == "" then 0
    else
      Number(digits[..|digits| - 1]) * 10 + DigitValue(digits[|digits| - 1])
  }

  /** An array index has digits only and no leading zero. */
  function ArrayIndex(token: string): Option<nat> {
    if token != "" && (forall c | c in token :: IsDigit(c)) && (token[0] != '0' || token == "0")
    then Some(Number(token)) else None
  }

  /** Performs `action` on the member of `container` that the last token names. */
  function Perform(container: Json, token: string, action: Action): Option<Json> {
    match container
    case Obj(fields) =>
      (match action
       case AddValue(v) => Some(Obj(fields[token := v]))
       case RemoveValue => if token in fields then Some(Obj(fields - {token})) else None
       case ReplaceValue(v) => if token in fields then Some(Obj(fields[token := v])) else None)
    case Arr(items) =>
      var index := if token == "-" then Some(|items|) else ArrayIndex(token);
      if index.None? || index.value > |items| then None
      else
        var i := index.value;
        (match action
         case AddValue(v) => Some(Arr(items[..i] + [v] + items[i..]))
         case RemoveValue => if i < |items| then Some(Arr(items[..i] + items[i + 1..])) else None
         case ReplaceValue(v) => if i < |items| then Some(Arr(items[i := v])) else None)
    case _ => None
  }

  /** Walks to the target and performs the action; the whole document has no parent. */
  function Edit(document: Json, tokens: seq<string>, action: Action): Option<Json>
    decreases |tokens|
  {
    if tokens == [] then
      if action.RemoveValue? then None else Some(action.value)
    else if |tokens| == 1 then Perform(document, tokens[0], action)
    else
      match document
      case Obj(fields) =>
        if tokens[0] !in fields then None
        else
          var child := Edit(fields[tokens[0]], tokens[1..], action);
          if child.None? then None else Some(Obj(fields[tokens[0] := child.value]))
      case Arr(items) =>
        var index := ArrayIndex(tokens[0]);
        if index.None? || index.value >= |items| then None
        else
          var child := Edit(items[index.value], tokens[1..], action);
          if child.None? then None else Some(Arr(items[index.value := child.value]))
      case _ => None
  }

  function ActionOf(operation: Operation): Action {
    match operation
    case Add(_, v) => AddValue(v)
    case Remove(_) => RemoveValue
    case Replace(_, v) => ReplaceValue(v)
  }

  function ApplyOne(document: Json, operation: Operation): Option<Json> {
    var tokens := Tokens(operation.path);
    if tokens.None? then None else Edit(document, tokens.value, ActionOf(operation))
  }

  /** Applies the operations in order; any failure fails the whole patch. */
  function Apply(document: Json, patch: seq<Operation>): Option<Json>
    decreases |patch|
  {
    if patch == [] then Some(document)
    else
      var next := ApplyOne(document, patch[0]);
      if next.None? then None else Apply(next.value, patch[1..])
  }

  lemma {:induction false} ApplyConcat(document: Json, first: seq<Operation>, second: seq<Operation>)
    ensures Apply(document, first + second) ==
            var middle := Apply(document, first);
            if middle.None? then None else Apply(middle.value, second)
    decreases |first|
  {
    if first == [] {
      assert first + second == second;
    } else {
      assert (first + second)[1..] == first[1..] + second;
      var next := ApplyOne(document, first[0]);
      if next.Some? { ApplyConcat(next.value, first[1..], second); }
    }
  }

  // ---- Documents seen through a path of object members -----------------------

  /** The value at a path of object members. */
  ghost function Get(document: Json, tokens: seq<string>): Option<Json> {
    if tokens == [] then Some(document)
    else if document.Obj? && tokens[0] in document.fields then Get(document.fields[tokens[0]], tokens[1..])
    else None
  }

  /** The document with the value at an existing path replaced. */
  ghost function Put(document: Json, tokens: seq<string>, value: Json): Json
    requires Get(document, tokens).Some?
  {
    if tokens == [] then value
    else Obj(document.fields[tokens[0] := Put(document.fields[tokens[0]], tokens[1..], value)])
  }

  lemma {:induction false} GetAfterPut(document: Json, tokens: seq<string>, value: Json, other: Json)
    requires Get(document, tokens).Some?
    ensures Get(Put(document, tokens, value), tokens) == Some(value)
    ensures Put(Put(document, tokens, value), tokens, other) == Put(document, tokens, other)
    ensures Get(document, tokens) == Some(value) ==> Put(document, tokens, value) == document
    decreases |tokens|
  {
    if tokens != [] {
      GetAfterPut(document.fields[tokens[0]], tokens[1..], value, other);
      var key, inner := tokens[0], Put(document.fields[tokens[0]], tokens[1..], value);
      assert document.fields[key := inner][key := Put(inner, tokens[1..], other)] ==
             document.fields[key := Put(inner, tokens[1..], other)];
    }
  }

  /** Replacing one member is replacing the object that holds it. */
  lemma {:induction false} PutMember(document: Json, tokens: seq<string>, key: string, value: Json)
    requires Get(document, tokens).Some?
    requires Get(document, tokens).value.Obj? && key in Get(document, tokens).value.fields
    ensures Get(document, tokens + [key]) == Some(Get(document, tokens).value.fields[key])
    ensures Put(document, tokens + [key], value) ==
            Put(document, tokens, Obj(Get(document, tokens).value.fields[key := value]))
    decreases |tokens|
  {
    if tokens == [] {
      assert tokens + [key] == [key];
      assert [key][1..] == [];
    } else {
      assert (tokens + [key])[1..] == tokens[1..] + [key];
      PutMember(document.fields[tokens[0]], tokens[1..], key, value);
    }
  }

  /** An edit below an existing object acts on that object alone. */
  lemma {:induction false} EditMember(document: Json, tokens: seq<string>, key: string, action: Action)
    requires Get(document, tokens).Some? && Get(document, tokens).value.Obj?
    ensures Edit(document, tokens + [key], action) ==
            var edited := Perform(Get(document, tokens).value, key, action);
            if edited.None? then None else Some(Put(document, tokens, edited.value))
    decreases |tokens|
  {
    if tokens == [] {
      assert tokens + [key] == [key];
    } else {
      assert (tokens + [key])[1..] == tokens[1..] + [key];
      EditMember(document.fields[tokens[0]], tokens[1..], key, action);
    }
  }

  lemma ApplyMember(document: Json, tokens: seq<string>, key: string, operation: Operation)
    requires Get(document, tokens).Some? && Get(document, tokens).value.Obj?
    requires operation.path == PathOf(tokens) + "/" + Escape(key)
    ensures ApplyOne(document, operation) ==
            var edited := Perform(Get(document, tokens).value, key, ActionOf(operation));
            if edited.None? then None else Some(Put(document, tokens, edited.value))
  {
    PathOfAppend(tokens, key);
    TokensOfPath(tokens + [key]);
    EditMember(document, tokens, key, ActionOf(operation));
  }

  // ---- Correctness -----------------------------------------------------------

  ghost function Without(fields: map<string, Json>, keys: seq<string>): map<string, Json>
    decreases |keys|
  {
    if keys == [] then fields else Without(fields - {keys[0]}, keys[1..])
  }

  ghost function With(fields: map<string, Json>, after: map<string, Json>, keys: seq<string>): map<string, Json>
    requires forall key | key in keys :: key in after
    decreases |keys|
  {
    if keys == [] then fields else With(fields[keys[0] := after[keys[0]]], after, keys[1..])
  }

  lemma {:induction false} WithoutContents(fields: map<string, Json>, keys: seq<string>)
    ensures Without(fields, keys).Keys == fields.Keys - set key | key in keys
    ensures forall key | key in Without(fields, keys) :: Without(fields, keys)[key] == fields[key]
    decreases |keys|
  {
    if keys != [] {
      assert forall key :: key in keys <==> key == keys[0] || key in keys[1..];
      WithoutContents(fields - {keys[0]}, keys[1..]);
    }
  }

  lemma {:induction false} WithContents(fields: map<string, Json>, after: map<string, Json>, keys: seq<string>)
    requires forall key | key in keys :: key in after
    ensures With(fields, after, keys).Keys == fields.Keys + set key | key in keys
    ensures forall key | key in With(fields, after, keys) ::
      With(fields, after, keys)[key] == if key in keys then after[key] else fields[key]
    decreases |keys|
  {
    if keys != [] {
      assert forall key :: key in keys <==> key == keys[0] || key in keys[1..];
      WithContents(fields[keys[0] := after[keys[0]]], after, keys[1..]);
    }
  }

  lemma {:induction false} ApplyRemovals(document: Json, tokens: seq<string>, fields: map<string, Json>, keys: seq<string>)
    requires Get(document, tokens) == Some(Obj(fields))
    requires Increasing(keys) && forall key | key in keys :: key in fields
    ensures Apply(document, Removals(keys, PathOf(tokens))) == Some(Put(document, tokens, Obj(Without(fields, keys))))
    decreases |keys|
  {
    if keys == [] {
      GetAfterPut(document, tokens, Obj(fields), Null);
    } else {
      var less := fields - {keys[0]};
      ApplyMember(document, tokens, keys[0], Remove(PathOf(tokens) + "/" + Escape(keys[0])));
      GetAfterPut(document, tokens, Obj(less), Obj(Without(less, keys[1..])));
      forall key | key in keys[1..] ensures key in less {
        var i :| 0 < i < |keys| && keys[i] == key;
        BeforeIsStrict(keys[0], key);
      }
      ApplyRemovals(Put(document, tokens, Obj(less)), tokens, less, keys[1..]);
    }
  }

  lemma {:induction false} ApplyAdditions(document: Json, tokens: seq<string>, fields: map<string, Json>,
                                          after: map<string, Json>, keys: seq<string>)
    requires Get(document, tokens) == Some(Obj(fields))
    requires forall key | key in keys :: key in after
    ensures Apply(document, Additions(keys, after, PathOf(tokens))) ==
            Some(Put(document, tokens, Obj(With(fields, after, keys))))
    decreases |keys|
  {
    if keys == [] {
      GetAfterPut(document, tokens, Obj(fields), Null);
    } else {
      var more := fields[keys[0] := after[keys[0]]];
      ApplyMember(document, tokens, keys[0], Add(PathOf(tokens) + "/" + Escape(keys[0]), after[keys[0]]));
      GetAfterPut(document, tokens, Obj(more), Obj(With(more, after, keys[1..])));
      ApplyAdditions(Put(document, tokens, Obj(more)), tokens, more, after, keys[1..]);
    }
  }

  lemma {:induction false} ApplyShared(document: Json, tokens: seq<string>, fields: map<string, Json>, previous: Json,
                                       current: Json, keys: seq<string>)
    requires previous.Obj? && current.Obj?
    requires Get(document, tokens) == Some(Obj(fields))
    requires Increasing(keys)
    requires forall key | key in keys ::
      key in previous.fields && key in current.fields && key in fields && fields[key] == previous.fields[key]
    ensures Apply(document, SharedDiffs(previous, current, keys, PathOf(tokens))) ==
            Some(Put(document, tokens, Obj(With(fields, current.fields, keys))))
    decreases previous, 0, |keys|
  {
    if keys == [] {
      GetAfterPut(document, tokens, Obj(fields), Null);
    } else {
      var key, path, value := keys[0], PathOf(tokens), current.fields[keys[0]];
      var updated := fields[key := value];
      PathOfAppend(tokens, key);
      PutMember(document, tokens, key, value);
      ApplyDiffAt(document, tokens + [key], previous.fields[key], value);
      GetAfterPut(document, tokens, Obj(updated), Obj(With(updated, current.fields, keys[1..])));
      forall k | k in keys[1..] ensures k in updated && updated[k] == previous.fields[k] {
        var i :| 0 < i < |keys| && keys[i] == k;
        BeforeIsStrict(keys[0], k);
      }
      ApplyShared(Put(document, tokens, Obj(updated)), tokens, updated, previous, current, keys[1..]);
      ApplyConcat(document, Diff(previous.fields[key], value, path + "/" + Escape(key)),
                  SharedDiffs(previous, current, keys[1..], path));
    }
  }

  /** A diff written for some place in a document turns the value there into the new one. */
  lemma {:induction false} ApplyDiffAt(document: Json, tokens: seq<string>, previous: Json, current: Json)
    requires Get(document, tokens) == Some(previous)
    ensures Apply(document, Diff(previous, current, PathOf(tokens))) == Some(Put(document, tokens, current))
    decreases previous, 1, 0
  {
    ValuesEqualIsEquality(previous, current);
    var path := PathOf(tokens);
    if previous == current {
      GetAfterPut(document, tokens, current, Null);
    } else if previous.Obj? && current.Obj? {
      ApplyObjectDiff(document, tokens, previous, current);
    } else {
      TokensOfPath(tokens);
      EditReplaces(document, tokens, current);
      var patch := [Replace(path, current)];
      assert patch[1..] == [];
    }
  }

  lemma ApplyThree(document: Json, a: seq<Operation>, b: seq<Operation>, c: seq<Operation>, d1: Json, d2: Json, d3: Json)
    requires Apply(document, a) == Some(d1) && Apply(d1, b) == Some(d2) && Apply(d2, c) == Some(d3)
    ensures Apply(document, a + b + c) == Some(d3)
  {
    ApplyConcat(document, a, b);
    ApplyConcat(document, a + b, c);
  }

  /** Dropping the gone keys, adding the new ones and updating the shared ones gives `after`. */
  lemma FieldsAfterDiff(before: map<string, Json>, after: map<string, Json>, gone: seq<string>, added: seq<string>,
                        shared: seq<string>)
    requires forall key :: key in gone <==> key in before && key !in after
    requires forall key :: key in added <==> key in after && key !in before
    requires forall key :: key in shared <==> key in before && key in after
    ensures forall key | key in shared ::
      key in With(Without(before, gone), after, added) && With(Without(before, gone), after, added)[key] == before[key]
    ensures With(With(Without(before, gone), after, added), after, shared) == after
  {
    var kept := Without(before, gone);
    WithoutContents(before, gone);
    var grown := With(kept, after, added);
    WithContents(kept, after, added);
    var full := With(grown, after, shared);
    WithContents(grown, after, shared);
    assert forall key :: key in full <==> key in after;
    assert forall key | key in after :: full[key] == after[key];
  }

  lemma {:induction false} ApplyObjectDiff(document: Json, tokens: seq<string>, previous: Json, current: Json)
    requires Get(document, tokens) == Some(previous)
    requires previous.Obj? && current.Obj? && previous != current
    ensures Apply(document, Diff(previous, current, PathOf(tokens))) == Some(Put(document, tokens, current))
    decreases previous, 0, |previous.fields.Keys * current.fields.Keys| + 1
  {
    var before, after, path := previous.fields, current.fields, PathOf(tokens);
    var gone, added, shared := Sorted(before.Keys - after.Keys), Sorted(after.Keys - before.Keys), Sorted(before.Keys * after.Keys);
    var kept := Without(before, gone);
    var grown := With(kept, after, added);
    FieldsAfterDiff(before, after, gone, added, shared);
    var d1, d2 := Put(document, tokens, Obj(kept)), Put(document, tokens, Obj(grown));
    GetAfterPut(document, tokens, Obj(kept), Obj(grown));
    GetAfterPut(document, tokens, Obj(grown), current);
    ApplyRemovals(document, tokens, before, gone);
    ApplyAdditions(d1, tokens, kept, after, added);
    ApplyShared(d2, tokens, grown, previous, current, shared);
    ApplyThree(document, Removals(gone, path), Additions(added, after, path), SharedDiffs(previous, current, shared, path),
               d1, d2, Put(document, tokens, current));
    ValuesEqualIsEquality(previous, current);
  }

  lemma {:induction false} EditReplaces(document: Json, tokens: seq<string>, value: Json)
    requires Get(document, tokens).Some?
    ensures Edit(document, tokens, ReplaceValue(value)) == Some(Put(document, tokens, value))
    decreases |tokens|
  {
    if |tokens| == 1 {
      assert tokens[1..] == [];
    } else if tokens != [] {
      EditReplaces(document.fields[tokens[0]], tokens[1..], value);
    }
  }

  /** The patch never misses a target and always yields the current value. */
  lemma PatchTransformsPreviousIntoCurrent(previous: Json, current: Json)
    ensures Apply(previous, Diff(previous, current, "")) == Some(current)
  {
    assert PathOf([]) == "";
    ApplyDiffAt(previous, [], previous, current);
  }

  /** The patch is empty exactly when nothing changed. */
  lemma PatchIsEmptyIffEqual(previous: Json, current: Json)
    ensures Diff(previous, current, "") == [] <==> previous == current
  {
    ValuesEqualIsEquality(previous, current);
    PatchTransformsPreviousIntoCurrent(previous, current);
  }
}
