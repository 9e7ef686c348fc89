/**
 What a patch touches, read off the two values alone: each operation stands for one place
 where they differ, each such place has its operation, and the order is fixed.
 */
module JsonMinimal {
  import opened Json
  import opened JsonPatch
  import opened JsonPointer
  import opened KeyOrder
  import opened Options

  // ---- Places where two values differ ----------------------------------------

  ghost predicate IsObject(document: Json, tokens: seq<string>) {
    Get(document, tokens).Some? && Get(document, tokens).value.Obj?
  }

  /** A member that only the previous value has, in an object that both have. */
  ghost predicate Gone(previous: Json, current: Json, tokens: seq<string>) {
    tokens != [] && Get(previous, tokens).Some? && Get(current, tokens).None? && IsObject(current, tokens[..|tokens| - 1])
  }

  /** A member that only the current value has, in an object that both have. */
  ghost predicate New(previous: Json, current: Json, tokens: seq<string>) {
    tokens != [] && Get(current, tokens).Some? && Get(previous, tokens).None? && IsObject(previous, tokens[..|tokens| - 1])
  }

  /** Both have the place, with different values that are not both objects. */
  ghost predicate Changed(previous: Json, current: Json, tokens: seq<string>) {
    && Get(previous, tokens).Some? && Get(current, tokens).Some? && Get(previous, tokens) != Get(current, tokens)
    && !(IsObject(previous, tokens) && IsObject(current, tokens))
  }

  /** The operation for the place `tokens` below `base`. */
  ghost predicate StandsFor(operation: Operation, previous: Json, current: Json, base: seq<string>, tokens: seq<string>) {
    match operation
    case Remove(path) => path == PathOf(base + tokens) && Gone(previous, current, tokens)
    case Add(path, value) => path == PathOf(base + tokens) && New(previous, current, tokens) && Get(current, tokens) == Some(value)
    case Replace(path, value) => path == PathOf(base + tokens) && Changed(previous, current, tokens) && Get(current, tokens) == Some(value)
  }

  ghost predicate Justified(operation: Operation, previous: Json, current: Json, base: seq<string>) {
    exists tokens :: StandsFor(operation, previous, current, base, tokens)
  }

  // ---- One level -------------------------------------------------------------

  /** Places below a member that both objects have are places of that member. */
  lemma BelowMember(previous: Json, current: Json, key: string, tokens: seq<string>)
    requires previous.Obj? && current.Obj? && key in previous.fields && key in current.fields
    ensures var p, c := previous.fields[key], current.fields[key];
            && (tokens != [] ==> (Gone(previous, current, [key] + tokens) <==> Gone(p, c, tokens)))
            && (tokens != [] ==> (New(previous, current, [key] + tokens) <==> New(p, c, tokens)))
            && (Changed(previous, current, [key] + tokens) <==> Changed(p, c, tokens))
            && Get(current, [key] + tokens) == Get(c, tokens) && Get(previous, [key] + tokens) == Get(p, tokens)
  {
    var longer := [key] + tokens;
    assert longer[0] == key && longer[1..] == tokens;
    if tokens != [] {
      assert longer[..|longer| - 1] == [key] + tokens[..|tokens| - 1];
      assert longer[..|longer| - 1][1..] == tokens[..|tokens| - 1];
    }
  }

  lemma StandsBelow(operation: Operation, previous: Json, current: Json, base: seq<string>, key: string, tokens: seq<string>)
    requires previous.Obj? && current.Obj? && key in previous.fields && key in current.fields
    ensures StandsFor(operation, previous, current, base, [key] + tokens) <==>
            StandsFor(operation, previous.fields[key], current.fields[key], base + [key], tokens)
  {
    BelowMember(previous, current, key, tokens);
    assert base + ([key] + tokens) == base + [key] + tokens;
    if tokens == [] { assert ([key] + tokens)[1..] == []; }
  }

  lemma OneKey(document: Json, key: string)
    ensures Get(document, [key]) == if document.Obj? && key in document.fields then Some(document.fields[key]) else None
  {
    assert [key][1..] == [];
  }

  lemma StandsAtKey(operation: Operation, previous: Json, current: Json, base: seq<string>, key: string)
    requires previous.Obj? && current.Obj? && !(key in previous.fields && key in current.fields)
    ensures StandsFor(operation, previous, current, base, [key]) <==>
            || (key in previous.fields && operation == Remove(PathOf(base + [key])))
            || (key in current.fields && operation == Add(PathOf(base + [key]), current.fields[key]))
  {
    OneKey(previous, key);
    OneKey(current, key);
    assert [key][..0] == [];
  }

  /** Nothing lies below a member that one of the objects does not have. */
  lemma NothingBelow(operation: Operation, previous: Json, current: Json, base: seq<string>, tokens: seq<string>)
    requires |tokens| > 1 && StandsFor(operation, previous, current, base, tokens)
    ensures previous.Obj? && current.Obj? && tokens[0] in previous.fields && tokens[0] in current.fields
  {
    assert tokens[..|tokens| - 1][0] == tokens[0];
  }

  lemma NothingBetweenEquals(operation: Operation, value: Json, base: seq<string>, tokens: seq<string>)
    ensures !StandsFor(operation, value, value, base, tokens)
  {
  }

  // ---- Exactly these operations ----------------------------------------------

  lemma {:induction false} RemovalsContents(keys: seq<string>, path: string, operation: Operation)
    ensures operation in Removals(keys, path) <==> exists key :: key in keys && operation == Remove(path + "/" + Escape(key))
    decreases |keys|
  {
    if keys != [] {
      RemovalsContents(keys[1..], path, operation);
      assert keys == [keys[0]] + keys[1..];
    }
  }

  lemma {:induction false} AdditionsContents(keys: seq<string>, after: map<string, Json>, path: string, operation: Operation)
    requires forall key | key in keys :: key in after
    ensures operation in Additions(keys, after, path) <==>
            exists key :: key in keys && operation == Add(path + "/" + Escape(key), after[key])
    decreases |keys|
  {
    if keys != [] {
      AdditionsContents(keys[1..], after, path, operation);
      assert keys == [keys[0]] + keys[1..];
    }
  }

  lemma {:induction false} SharedContents(previous: Json, current: Json, keys: seq<string>, path: string, operation: Operation)
    requires previous.Obj? && current.Obj?
    requires forall key | key in keys :: key in previous.fields && key in current.fields
    ensures operation in SharedDiffs(previous, current, keys, path) <==>
            exists key :: key in keys && operation in Diff(previous.fields[key], current.fields[key], path + "/" + Escape(key))
    decreases |keys|
  {
    hide Diff;
    if keys != [] {
      SharedContents(previous, current, keys[1..], path, operation);
      assert keys == [keys[0]] + keys[1..];
    }
  }

  ghost predicate InObject(operation: Operation, previous: Json, current: Json, path: string)
    requires previous.Obj? && current.Obj?
  {
    || (exists key :: key in previous.fields && key !in current.fields && operation == Remove(path + "/" + Escape(key)))
    || (exists key :: key in current.fields && key !in previous.fields && operation == Add(path + "/" + Escape(key), current.fields[key]))
    || (exists key :: key in previous.fields && key in current.fields
                      && operation in Diff(previous.fields[key], current.fields[key], path + "/" + Escape(key)))
  }

  lemma DiffOfObjects(previous: Json, current: Json, path: string)
    requires previous.Obj? && current.Obj? && !ValuesEqual(previous, current)
    ensures var before, after := previous.fields, current.fields;
            Diff(previous, current, path) ==
            Removals(Sorted(before.Keys - after.Keys), path) +
            (Additions(Sorted(after.Keys - before.Keys), after, path) +
            SharedDiffs(previous, current, Sorted(before.Keys * after.Keys), path))
  {
    hide Removals, Additions, SharedDiffs, ValuesEqual, Increasing;
  }

  lemma ObjectContents(previous: Json, current: Json, path: string, operation: Operation)
    requires previous.Obj? && current.Obj? && previous != current
    ensures operation in Diff(previous, current, path) <==> InObject(operation, previous, current, path)
  {
    ValuesEqualIsEquality(previous, current);
    DiffOfObjects(previous, current, path);
    hide Diff, Removals, Additions, SharedDiffs, ValuesEqual, Increasing, Escape, Sorted;
    var before, after := previous.fields, current.fields;
    RemovalsContents(Sorted(before.Keys - after.Keys), path, operation);
    AdditionsContents(Sorted(after.Keys - before.Keys), after, path, operation);
    SharedContents(previous, current, Sorted(before.Keys * after.Keys), path, operation);
  }

  lemma {:induction false} DiffAt(previous: Json, current: Json, base: seq<string>, operation: Operation)
    ensures operation in Diff(previous, current, PathOf(base)) <==> Justified(operation, previous, current, base)
    decreases previous
  {
    if previous == current {
      ValuesEqualIsEquality(previous, current);
      forall tokens ensures !StandsFor(operation, previous, current, base, tokens) {
        NothingBetweenEquals(operation, previous, base, tokens);
      }
    } else if previous.Obj? && current.Obj? {
      ObjectContents(previous, current, PathOf(base), operation);
      forall key | key in previous.fields && key in current.fields
        ensures operation in Diff(previous.fields[key], current.fields[key], PathOf(base) + "/" + Escape(key)) <==>
                Justified(operation, previous.fields[key], current.fields[key], base + [key])
      {
        PathOfAppend(base, key);
        DiffAt(previous.fields[key], current.fields[key], base + [key], operation);
      }
      hide Diff;
      JustifiedInObject(operation, previous, current, base);
    } else {
      ValuesEqualIsEquality(previous, current);
      LeafJustified(operation, previous, current, base);
    }
  }

  /** Of two values that are not both objects only the root can differ. */
  lemma OnlyTheRoot(operation: Operation, previous: Json, current: Json, base: seq<string>, tokens: seq<string>)
    requires !(previous.Obj? && current.Obj?) && tokens != []
    ensures !StandsFor(operation, previous, current, base, tokens)
  {
    var parent := tokens[..|tokens| - 1];
    assert parent != [] ==> parent[0] == tokens[0];
  }

  lemma LeafJustified(operation: Operation, previous: Json, current: Json, base: seq<string>)
    requires previous != current && !(previous.Obj? && current.Obj?)
    ensures Justified(operation, previous, current, base) <==> operation == Replace(PathOf(base), current)
  {
    assert base + [] == base;
    if tokens :| StandsFor(operation, previous, current, base, tokens) {
      if tokens != [] { OnlyTheRoot(operation, previous, current, base, tokens); }
    }
    if operation == Replace(PathOf(base), current) { assert StandsFor(operation, previous, current, base, []); }
  }

  lemma JustifiedInObject(operation: Operation, previous: Json, current: Json, base: seq<string>)
    requires previous.Obj? && current.Obj? && previous != current
    requires forall key | key in previous.fields && key in current.fields ::
               operation in Diff(previous.fields[key], current.fields[key], PathOf(base) + "/" + Escape(key)) <==>
               Justified(operation, previous.fields[key], current.fields[key], base + [key])
    ensures InObject(operation, previous, current, PathOf(base)) <==> Justified(operation, previous, current, base)
  {
    hide Diff;
    if InObject(operation, previous, current, PathOf(base)) {
      InObjectIsJustified(operation, previous, current, base);
    }
    if tokens :| StandsFor(operation, previous, current, base, tokens) {
      JustifiedIsInObject(operation, previous, current, base, tokens);
    }
  }

  lemma InObjectIsJustified(operation: Operation, previous: Json, current: Json, base: seq<string>)
    requires previous.Obj? && current.Obj? && InObject(operation, previous, current, PathOf(base))
    requires forall key | key in previous.fields && key in current.fields ::
               operation in Diff(previous.fields[key], current.fields[key], PathOf(base) + "/" + Escape(key)) <==>
               Justified(operation, previous.fields[key], current.fields[key], base + [key])
    ensures Justified(operation, previous, current, base)
  {
    hide Diff, StandsFor, Escape, PathOf;
    if key :| key in previous.fields && key in current.fields
              && operation in Diff(previous.fields[key], current.fields[key], PathOf(base) + "/" + Escape(key))
    {
      var tokens :| StandsFor(operation, previous.fields[key], current.fields[key], base + [key], tokens);
      StandsBelow(operation, previous, current, base, key, tokens);
    } else if key :| key in previous.fields && key !in current.fields && operation == Remove(PathOf(base) + "/" + Escape(key)) {
      PathOfAppend(base, key);
      StandsAtKey(operation, previous, current, base, key);
    } else {
      var key :| key in current.fields && key !in previous.fields
                 && operation == Add(PathOf(base) + "/" + Escape(key), current.fields[key]);
      PathOfAppend(base, key);
      StandsAtKey(operation, previous, current, base, key);
    }
  }

  lemma NotTheRoot(operation: Operation, previous: Json, current: Json, base: seq<string>, tokens: seq<string>)
    requires previous.Obj? && current.Obj? && StandsFor(operation, previous, current, base, tokens)
    ensures tokens != []
  {
  }

  lemma JustifiedIsInObject(operation: Operation, previous: Json, current: Json, base: seq<string>, tokens: seq<string>)
    requires previous.Obj? && current.Obj? && StandsFor(operation, previous, current, base, tokens)
    requires forall key | key in previous.fields && key in current.fields ::
               operation in Diff(previous.fields[key], current.fields[key], PathOf(base) + "/" + Escape(key)) <==>
               Justified(operation, previous.fields[key], current.fields[key], base + [key])
    ensures InObject(operation, previous, current, PathOf(base))
  {
    NotTheRoot(operation, previous, current, base, tokens);
    hide Diff, StandsFor, Escape, PathOf;
    if |tokens| > 1 { NothingBelow(operation, previous, current, base, tokens); }
    var key := tokens[0];
    PathOfAppend(base, key);
    if key in previous.fields && key in current.fields {
      assert tokens == [key] + tokens[1..];
      StandsBelow(operation, previous, current, base, key, tokens[1..]);
    } else {
      assert tokens == [key];
      StandsAtKey(operation, previous, current, base, key);
    }
  }

  /**
   The patch removes exactly the members that are gone, adds exactly the new ones with their values, and replaces exactly
   the places where two different values meet that are not both objects, at every depth.
   */
  lemma PatchIsExactly(previous: Json, current: Json, operation: Operation)
    ensures operation in Diff(previous, current, "") <==> exists tokens :: StandsFor(operation, previous, current, [], tokens)
  {
    assert PathOf([]) == "";
    DiffAt(previous, current, [], operation);
  }

  // ---- What stays ------------------------------------------------------------

  lemma {:induction false} GetBelow(document: Json, above: seq<string>, below: seq<string>)
    ensures Get(document, above + below) ==
            if Get(document, above).None? then None else Get(Get(document, above).value, below)
    decreases |above|
  {
    if above == [] {
      assert above + below == below;
    } else {
      assert (above + below)[1..] == above[1..] + below;
      if document.Obj? && above[0] in document.fields { GetBelow(document.fields[above[0]], above[1..], below); }
    }
  }

  /** Every path of a patch is a pointer. */
  lemma PathsAreRead(previous: Json, current: Json, operation: Operation)
    requires operation in Diff(previous, current, "")
    ensures Tokens(operation.path).Some? && StandsFor(operation, previous, current, [], Tokens(operation.path).value)
  {
    PatchIsExactly(previous, current, operation);
    var tokens :| StandsFor(operation, previous, current, [], tokens);
    assert [] + tokens == tokens;
    TokensOfPath(tokens);
  }

  /** What both values hold equally below `above`, they hold there, unless it is equal already, as members of objects. */
  lemma EqualBelow(previous: Json, current: Json, above: seq<string>, below: seq<string>)
    requires Get(previous, above + below).Some? && Get(previous, above + below) == Get(current, above + below)
    ensures Get(previous, above).Some? && Get(current, above).Some?
    ensures Get(previous, above) != Get(current, above) ==> IsObject(previous, above) && IsObject(current, above)
  {
    GetBelow(previous, above, below);
    GetBelow(current, above, below);
  }

  /** No operation reaches a place where both values hold the same. */
  lemma EqualMembersUntouched(previous: Json, current: Json, operation: Operation, place: seq<string>)
    requires operation in Diff(previous, current, "")
    requires Get(previous, place).Some? && Get(previous, place) == Get(current, place)
    ensures Tokens(operation.path).Some? && !(Tokens(operation.path).value <= place)
  {
    hide Diff, Tokens, Get, IsObject;
    PathsAreRead(previous, current, operation);
    var tokens := Tokens(operation.path).value;
    if tokens <= place {
      assert place == tokens + place[|tokens|..];
      EqualBelow(previous, current, tokens, place[|tokens|..]);
    }
  }

  // ---- Order -----------------------------------------------------------------

  /** What an operation does to the member of an object its place leads through: removals, then additions, then the rest. */
  function Rank(operation: Operation, place: seq<string>): nat {
    if |place| != 1 then 2 else match operation case Remove(_) => 0 case Add(_, _) => 1 case Replace(_, _) => 2
  }

  /** At the object where the two places part: by rank, then by key. */
  predicate Precedes(first: Operation, s: seq<string>, second: Operation, t: seq<string>)
    decreases |s|
  {
    && s != [] && t != []
    && if s[0] == t[0] then Precedes(first, s[1..], second, t[1..])
       else Rank(first, s) < Rank(second, t) || (Rank(first, s) == Rank(second, t) && Before(s[0], t[0]))
  }

  /** The tokens of a path after the first `depth` ones. */
  function Place(operation: Operation, depth: nat): seq<string> {
    var tokens := Tokens(operation.path);
    if tokens.Some? && depth <= |tokens.value| then tokens.value[depth..] else []
  }

  ghost predicate Comes(first: Operation, second: Operation, depth: nat) {
    Precedes(first, Place(first, depth), second, Place(second, depth))
  }

  ghost predicate InOrder(patch: seq<Operation>, depth: nat) {
    forall i, j | 0 <= i < j < |patch| :: Comes(patch[i], patch[j], depth)
  }

  lemma PlaceBelow(operation: Operation, base: seq<string>, tokens: seq<string>)
    requires operation.path == PathOf(base + tokens)
    ensures Place(operation, |base|) == tokens
  {
    TokensOfPath(base + tokens);
  }

  lemma OrderJoins(a: seq<Operation>, b: seq<Operation>, depth: nat)
    requires InOrder(a, depth) && InOrder(b, depth)
    requires forall first, second | first in a && second in b :: Comes(first, second, depth)
    ensures InOrder(a + b, depth)
  {
    hide Comes;
  }

  /** Of one rank, with one key each. */
  ghost predicate AtKeys(patch: seq<Operation>, keys: seq<string>, depth: nat, rank: nat) {
    && |patch| == |keys|
    && forall i | 0 <= i < |keys| :: Place(patch[i], depth) == [keys[i]] && Rank(patch[i], [keys[i]]) == rank
  }

  lemma {:induction false} RemovalsAtKeys(keys: seq<string>, base: seq<string>)
    ensures AtKeys(Removals(keys, PathOf(base)), keys, |base|, 0)
    decreases |keys|
  {
    if keys != [] {
      RemovalsAtKeys(keys[1..], base);
      PathOfAppend(base, keys[0]);
      PlaceBelow(Remove(PathOf(base) + "/" + Escape(keys[0])), base, [keys[0]]);
    }
  }

  lemma {:induction false} AdditionsAtKeys(keys: seq<string>, after: map<string, Json>, base: seq<string>)
    requires forall key | key in keys :: key in after
    ensures AtKeys(Additions(keys, after, PathOf(base)), keys, |base|, 1)
    decreases |keys|
  {
    if keys != [] {
      AdditionsAtKeys(keys[1..], after, base);
      PathOfAppend(base, keys[0]);
      PlaceBelow(Add(PathOf(base) + "/" + Escape(keys[0]), after[keys[0]]), base, [keys[0]]);
    }
  }

  lemma KeysInOrder(patch: seq<Operation>, keys: seq<string>, depth: nat, rank: nat)
    requires AtKeys(patch, keys, depth, rank) && Increasing(keys)
    ensures InOrder(patch, depth)
  {
    forall i, j | 0 <= i < j < |patch| ensures Comes(patch[i], patch[j], depth) {
      BeforeIsStrict(keys[i], keys[j]);
    }
  }

  /** Every operation of a diff below `key` leads through this key, and stands at it only to replace. */
  lemma BelowKey(previous: Json, current: Json, base: seq<string>, key: string, operation: Operation)
    requires operation in Diff(previous, current, PathOf(base + [key]))
    ensures var place := Place(operation, |base|);
            place != [] && place[0] == key && place[1..] == Place(operation, |base| + 1) && Rank(operation, place) == 2
  {
    DiffAt(previous, current, base + [key], operation);
    hide Diff;
    var tokens :| StandsFor(operation, previous, current, base + [key], tokens);
    assert base + [key] + tokens == base + ([key] + tokens);
    PlaceBelow(operation, base + [key], tokens);
    PlaceBelow(operation, base, [key] + tokens);
    assert ([key] + tokens)[1..] == tokens;
  }

  /** Operations through some of the keys, none of which removes or adds one of them. */
  ghost predicate Through(operation: Operation, keys: seq<string>, depth: nat) {
    var place := Place(operation, depth);
    place != [] && place[0] in keys && Rank(operation, place) == 2
  }

  lemma OrderBelowKey(previous: Json, current: Json, base: seq<string>, key: string, patch: seq<Operation>)
    requires patch == Diff(previous, current, PathOf(base + [key])) && InOrder(patch, |base| + 1)
    ensures InOrder(patch, |base|) && forall operation | operation in patch :: Through(operation, [key], |base|)
  {
    hide Diff, Place, Rank, PathOf;
    forall operation | operation in patch ensures Through(operation, [key], |base|) {
      BelowKey(previous, current, base, key, operation);
    }
    forall i, j | 0 <= i < j < |patch| ensures Comes(patch[i], patch[j], |base|) {
      BelowKey(previous, current, base, key, patch[i]);
      BelowKey(previous, current, base, key, patch[j]);
      assert Comes(patch[i], patch[j], |base| + 1);
    }
  }

  lemma SharedStep(previous: Json, current: Json, keys: seq<string>, path: string)
    requires previous.Obj? && current.Obj? && keys != []
    requires forall key | key in keys :: key in previous.fields && key in current.fields
    ensures SharedDiffs(previous, current, keys, path) ==
            Diff(previous.fields[keys[0]], current.fields[keys[0]], path + "/" + Escape(keys[0])) +
            SharedDiffs(previous, current, keys[1..], path)
  {
    hide Diff;
  }

  lemma KeyPrecedes(first: Operation, second: Operation, keys: seq<string>, depth: nat)
    requires keys != [] && Increasing(keys) && Through(first, [keys[0]], depth) && Through(second, keys[1..], depth)
    ensures Comes(first, second, depth)
  {
    BeforeIsStrict(keys[0], Place(second, depth)[0]);
  }

  lemma SharedJoin(here: seq<Operation>, there: seq<Operation>, keys: seq<string>, depth: nat)
    requires keys != [] && Increasing(keys) && InOrder(here, depth) && InOrder(there, depth)
    requires forall operation | operation in here :: Through(operation, [keys[0]], depth)
    requires forall operation | operation in there :: Through(operation, keys[1..], depth)
    ensures InOrder(here + there, depth) && forall operation | operation in here + there :: Through(operation, keys, depth)
  {
    hide Place, Rank, InOrder, Increasing, Comes;
    forall first, second | first in here && second in there ensures Comes(first, second, depth) {
      hide Through;
      KeyPrecedes(first, second, keys, depth);
    }
    OrderJoins(here, there, depth);
  }

  lemma {:induction false} SharedInOrder(previous: Json, current: Json, keys: seq<string>, base: seq<string>)
    requires previous.Obj? && current.Obj? && Increasing(keys)
    requires forall key | key in keys :: key in previous.fields && key in current.fields
    requires forall key | key in keys ::
               InOrder(Diff(previous.fields[key], current.fields[key], PathOf(base + [key])), |base| + 1)
    ensures var patch := SharedDiffs(previous, current, keys, PathOf(base));
            InOrder(patch, |base|) && forall operation | operation in patch :: Through(operation, keys, |base|)
    decreases |keys|
  {
    if keys != [] {
      hide Diff, PathOf, Place, Rank, InOrder, Escape, Through;
      var key, rest := keys[0], keys[1..];
      PathOfAppend(base, key);
      SharedStep(previous, current, keys, PathOf(base));
      hide SharedDiffs;
      OrderBelowKey(previous.fields[key], current.fields[key], base, key,
        Diff(previous.fields[key], current.fields[key], PathOf(base + [key])));
      SharedInOrder(previous, current, rest, base);
      SharedJoin(Diff(previous.fields[key], current.fields[key], PathOf(base + [key])),
        SharedDiffs(previous, current, rest, PathOf(base)), keys, |base|);
    } else {
      hide Diff, PathOf, Place, Rank, Escape, Through;
    }
  }

  lemma RankPrecedes(first: Operation, second: Operation, depth: nat)
    requires Place(first, depth) != [] && Place(second, depth) != []
    requires Place(first, depth)[0] != Place(second, depth)[0]
    requires Rank(first, Place(first, depth)) < Rank(second, Place(second, depth))
    ensures Comes(first, second, depth)
  {
  }

  /** Operations of one rank at keys come before operations of a higher one at or below other keys. */
  lemma KeysThenMore(patch: seq<Operation>, keys: seq<string>, rank: nat, more: seq<Operation>, depth: nat)
    requires AtKeys(patch, keys, depth, rank) && Increasing(keys) && InOrder(more, depth)
    requires forall operation | operation in more ::
               var place := Place(operation, depth); place != [] && place[0] !in keys && rank < Rank(operation, place)
    ensures InOrder(patch + more, depth)
  {
    KeysInOrder(patch, keys, depth, rank);
    hide Comes, Place, Rank;
    forall first, second | first in patch && second in more ensures Comes(first, second, depth) {
      RankPrecedes(first, second, depth);
    }
    OrderJoins(patch, more, depth);
  }

  lemma LeadsThrough(patch: seq<Operation>, keys: seq<string>, depth: nat, rank: nat, operation: Operation)
    requires AtKeys(patch, keys, depth, rank) && operation in patch
    ensures var place := Place(operation, depth); place != [] && place[0] in keys && Rank(operation, place) == rank
  {
  }

  lemma ObjectInOrder(removed: seq<Operation>, added: seq<Operation>, below: seq<Operation>,
      gone: seq<string>, new_: seq<string>, shared: seq<string>, depth: nat)
    requires AtKeys(removed, gone, depth, 0) && AtKeys(added, new_, depth, 1) && InOrder(below, depth)
    requires forall operation | operation in below :: Through(operation, shared, depth)
    requires Increasing(gone) && Increasing(new_)
    requires forall key | key in gone :: key !in new_ && key !in shared
    requires forall key | key in new_ :: key !in shared
    ensures InOrder(removed + (added + below), depth)
  {
    hide Place, Rank, InOrder, Increasing, AtKeys;
    KeysThenMore(added, new_, 1, below, depth);
    forall operation | operation in added + below
      ensures var place := Place(operation, depth); place != [] && place[0] !in gone && 0 < Rank(operation, place)
    {
      if operation in added { LeadsThrough(added, new_, depth, 1, operation); }
    }
    KeysThenMore(removed, gone, 0, added + below, depth);
  }

  lemma {:induction false} DiffInOrder(previous: Json, current: Json, base: seq<string>)
    ensures InOrder(Diff(previous, current, PathOf(base)), |base|)
    decreases previous
  {
    if previous.Obj? && current.Obj? && !ValuesEqual(previous, current) {
      hide Diff, Removals, Additions, SharedDiffs, PathOf, Sorted, InOrder, AtKeys, Through, ValuesEqual;
      var before, after := previous.fields, current.fields;
      var gone, new_ := Sorted(before.Keys - after.Keys), Sorted(after.Keys - before.Keys);
      var shared := Sorted(before.Keys * after.Keys);
      RemovalsAtKeys(gone, base);
      AdditionsAtKeys(new_, after, base);
      forall key | key in shared
        ensures InOrder(Diff(before[key], after[key], PathOf(base + [key])), |base| + 1)
      {
        DiffInOrder(before[key], after[key], base + [key]);
      }
      SharedInOrder(previous, current, shared, base);
      DiffOfObjects(previous, current, PathOf(base));
      ObjectInOrder(Removals(gone, PathOf(base)), Additions(new_, after, PathOf(base)),
        SharedDiffs(previous, current, shared, PathOf(base)), gone, new_, shared, |base|);
    }
  }

  /** A patch lists its operations in one strict order: no operation twice, and at every object removals before additions. */
  lemma PatchIsOrdered(previous: Json, current: Json, i: nat, j: nat)
    requires i < j < |Diff(previous, current, "")|
    ensures var first, second := Diff(previous, current, "")[i], Diff(previous, current, "")[j];
            && Tokens(first.path).Some? && Tokens(second.path).Some?
            && Precedes(first, Tokens(first.path).value, second, Tokens(second.path).value)
  {
    assert PathOf([]) == "";
    DiffInOrder(previous, current, []);
    var patch := Diff(previous, current, "");
    PathsAreRead(previous, current, patch[i]);
    PathsAreRead(previous, current, patch[j]);
    assert Comes(patch[i], patch[j], 0);
  }

  /** The order is strict, so the operations of a patch determine it. */
  lemma {:induction false} PrecedesIsStrict(first: Operation, s: seq<string>, second: Operation, t: seq<string>)
    ensures !(Precedes(first, s, second, t) && Precedes(second, t, first, s))
    decreases |s|
  {
    if s != [] && t != [] {
      BeforeIsStrict(s[0], t[0]);
      PrecedesIsStrict(first, s[1..], second, t[1..]);
    }
  }
}
