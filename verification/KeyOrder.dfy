/** Python's ordering of strings by code point, and sorting a set of keys by it. */
module KeyOrder {

  predicate Before(a: string, b: string) {
    if b == "" then false
    else if a == "" then true
    else a[0] < b[0] || (a[0] == b[0] && Before(a[1..], b[1..]))
  }

  lemma {:induction false} BeforeIsStrict(a: string, b: string)
    ensures a == b ==> !Before(a, b)
    ensures !(Before(a, b) && Before(b, a))
    ensures a == b || Before(a, b) || Before(b, a)
    decreases |a|
  {
    if a != "" && b != "" {
      BeforeIsStrict(a[1..], b[1..]);
      assert a == [a[0]] + a[1..] && b == [b[0]] + b[1..];
    }
  }

  lemma {:induction false} BeforeIsTransitive(a: string, b: string, c: string)
    requires Before(a, b) && Before(b, c)
    ensures Before(a, c)
    decreases |a|
  {
    if a != "" && a[0] == b[0] && b[0] == c[0] {
      BeforeIsTransitive(a[1..], b[1..], c[1..]);
    }
  }

  predicate IsFirst(keys: set<string>, key: string) {
    key in keys && forall other | other in keys :: other == key || Before(key, other)
  }

  lemma {:induction false} FirstExists(keys: set<string>)
    requires keys != {}
    ensures exists key :: IsFirst(keys, key)
    ensures forall a, b :: IsFirst(keys, a) && IsFirst(keys, b) ==> a == b
  {
    var key :| key in keys;
    var rest := keys - {key};
    if rest == {} {
      assert keys == {key};
      assert IsFirst(keys, key);
    } else {
      FirstExists(rest);
      var least :| IsFirst(rest, least);
      BeforeIsStrict(key, least);
      forall other | other in rest && Before(key, least) && other != least
        ensures Before(key, other)
      {
        BeforeIsTransitive(key, least, other);
      }
      assert IsFirst(keys, if Before(key, least) then key else least);
    }
    forall a, b | IsFirst(keys, a) && IsFirst(keys, b) ensures a == b {
      BeforeIsStrict(a, b);
    }
  }

  ghost predicate Increasing(keys: seq<string>) {
    forall i, j | 0 <= i < j < |keys| :: Before(keys[i], keys[j])
  }

  function First(keys: set<string>): (first: string)
    requires keys != {}
    ensures IsFirst(keys, first)
  {
    FirstExists(keys);
    var first :| IsFirst(keys, first);
    first
  }

  /** The keys in increasing order, each once. */
  function Sorted(keys: set<string>): (sorted: seq<string>)
    ensures forall key :: key in sorted <==> key in keys
    ensures Increasing(sorted)
    ensures |sorted| == |keys|
  {
    if keys == {} then []
    else
      var first := First(keys);
      [first] + Sorted(keys - {first})
  }
}
