/** The inheritance chain of an API class, as looked up by the binding generator. */
module Inheritance {
  import opened Wrappers

  datatype ChainResult = Chain(classes: seq<string>) | InheritanceCycle | InheritedClassNotFound

  // Steps from a class to what it inherits from.
  ghost predicate Ascends(parents: map<string, Option<string>>, walk: seq<string>) {
    && |walk| > 0
    && forall k: nat | k < |walk| - 1 :: walk[k] in parents && parents[walk[k]] == Some(walk[k + 1])
  }

  ghost predicate AscendsFrom(parents: map<string, Option<string>>, name: string, walk: seq<string>) {
    Ascends(parents, walk) && walk[0] == name
  }

  ghost predicate EndsAtRoot(parents: map<string, Option<string>>, name: string, walk: seq<string>) {
    && AscendsFrom(parents, name, walk)
    && walk[|walk| - 1] in parents && parents[walk[|walk| - 1]] == None
  }

  ghost predicate Repeats(parents: map<string, Option<string>>, name: string, walk: seq<string>) {
    AscendsFrom(parents, name, walk) && walk[|walk| - 1] in walk[..|walk| - 1]
  }

  ghost predicate LeavesApi(parents: map<string, Option<string>>, name: string, walk: seq<string>) {
    AscendsFrom(parents, name, walk) && walk[|walk| - 1] !in parents
  }

  // There is only one way up.
  lemma OneWayUp(parents: map<string, Option<string>>, name: string, v: seq<string>, w: seq<string>, k: nat)
    requires AscendsFrom(parents, name, v) && AscendsFrom(parents, name, w)
    requires k < |v| && k < |w|
    ensures v[k] == w[k]
  {
    if k > 0 {
      OneWayUp(parents, name, v, w, k - 1);
    }
  }

  // A walk that repeats a class can be continued, so it reaches neither end.
  lemma RepeatGoesOn(parents: map<string, Option<string>>, name: string, v: seq<string>, w: seq<string>)
    requires Repeats(parents, name, v) && AscendsFrom(parents, name, w)
    ensures w[|w| - 1] in parents && parents[w[|w| - 1]] != None
    decreases |w|
  {
    var m: nat :| m < |v| - 1 && v[m] == v[|v| - 1];
    if |w| < |v| {
      OneWayUp(parents, name, v, w, |w| - 1);
      assert parents[v[|w| - 1]] == Some(v[|w|]);
    } else {
      // Cut one round of the loop out of the longer walk.
      var shorter := w[..m + 1] + w[|v|..];
      OneWayUp(parents, name, v, w, m);
      OneWayUp(parents, name, v, w, |v| - 1);
      forall k: nat | k < |shorter| - 1
        ensures shorter[k] in parents && parents[shorter[k]] == Some(shorter[k + 1])
      {
        if k == m {
          assert w[|v| - 1] in parents && parents[w[|v| - 1]] == Some(w[|v|]);
        } else if k > m {
          var j := k - m - 1 + |v|;
          assert shorter[k] == w[j] && shorter[k + 1] == w[j + 1];
        }
      }
      RepeatGoesOn(parents, name, v, shorter);
      assert shorter[|shorter| - 1] == w[|w| - 1];
    }
  }

  lemma RootIsLast(parents: map<string, Option<string>>, name: string, v: seq<string>, w: seq<string>)
    requires EndsAtRoot(parents, name, v) && AscendsFrom(parents, name, w)
    ensures w[|w| - 1] in parents
  {
    if |w| <= |v| {
      assert |w| < |v| ==> v[|w| - 1] in parents;
      OneWayUp(parents, name, v, w, |w| - 1);
    } else {
      assert parents[w[|v| - 1]] == Some(w[|v|]);
      OneWayUp(parents, name, v, w, |v| - 1);
    }
  }

  /** The three outcomes exclude one another. */
  lemma OutcomesExclude(parents: map<string, Option<string>>, name: string, v: seq<string>, w: seq<string>)
    ensures !(Repeats(parents, name, v) && (EndsAtRoot(parents, name, w) || LeavesApi(parents, name, w)))
    ensures !(EndsAtRoot(parents, name, v) && LeavesApi(parents, name, w))
  {
    if Repeats(parents, name, v) && AscendsFrom(parents, name, w) {
      RepeatGoesOn(parents, name, v, w);
    }
    if EndsAtRoot(parents, name, v) && AscendsFrom(parents, name, w) {
      RootIsLast(parents, name, v, w);
    }
  }

  ghost predicate Witnesses(parents: map<string, Option<string>>, name: string, r: ChainResult, walk: seq<string>) {
    match r
    case Chain(_) => EndsAtRoot(parents, name, walk)
    case InheritanceCycle => Repeats(parents, name, walk)
    case InheritedClassNotFound => LeavesApi(parents, name, walk)
  }

  // The result is reported exactly when the walk up from the class has that outcome.
  ghost predicate Explains(parents: map<string, Option<string>>, name: string, r: ChainResult) {
    && (r.Chain? <==> exists walk :: EndsAtRoot(parents, name, walk))
    && (r.InheritanceCycle? <==> exists walk :: Repeats(parents, name, walk))
    && (r.InheritedClassNotFound? <==> exists walk :: LeavesApi(parents, name, walk))
  }

  lemma WitnessExplains(parents: map<string, Option<string>>, name: string, r: ChainResult, walk: seq<string>)
    requires Witnesses(parents, name, r, walk)
    ensures Explains(parents, name, r)
  {
    forall v | EndsAtRoot(parents, name, v) || Repeats(parents, name, v) || LeavesApi(parents, name, v)
      ensures EndsAtRoot(parents, name, v) ==> r.Chain?
      ensures Repeats(parents, name, v) ==> r.InheritanceCycle?
      ensures LeavesApi(parents, name, v) ==> r.InheritedClassNotFound?
    {
      OutcomesExclude(parents, name, v, walk);
      OutcomesExclude(parents, name, walk, v);
    }
  }

  ghost predicate IsReverse<T>(s: seq<T>, r: seq<T>) {
    |r| == |s| && forall k: nat | k < |s| :: r[k] == s[|s| - 1 - k]
  }

  method Reverse<T>(items: seq<T>) returns (r: seq<T>)
    ensures IsReverse(items, r)
  {
    r := items;
    for i := 0 to |items| / 2
      invariant |r| == |items|
      invariant forall k: nat | k < i || |items| - i <= k < |items| :: r[k] == items[|items| - 1 - k]
      invariant forall k: nat | i <= k < |items| - i :: r[k] == items[k]
    {
      r := r[i := r[|r| - 1 - i]][|r| - 1 - i := r[i]];
    }
  }

  /** The chain lists the class last and its root first. */
  method InheritanceChain(parents: map<string, Option<string>>, name: string) returns (r: ChainResult)
    ensures Explains(parents, name, r)
    ensures r.Chain? ==> exists walk :: EndsAtRoot(parents, name, walk) && IsReverse(walk, r.classes)
  {
    var result: seq<string> := [];
    var visited: set<string> := {};
    var current := Some(name);
    while current.Some?
      invariant current.Some? ==> AscendsFrom(parents, name, result + [current.value])
      invariant current.None? ==> EndsAtRoot(parents, name, result)
      invariant forall c <- visited :: c in result && c in parents
      decreases parents.Keys - visited, current.Some?
    {
      var walk := result + [current.value];
      if current.value in visited {
        WitnessExplains(parents, name, InheritanceCycle, walk);
        return InheritanceCycle;
      }
      if current.value !in parents {
        WitnessExplains(parents, name, InheritedClassNotFound, walk);
        return InheritedClassNotFound;
      }
      visited := visited + {current.value};
      current := parents[current.value];
      ghost var before := result;
      result := walk;
      assert forall k: nat | k < |before| :: result[k] == before[k];
    }
    var chain := Reverse(result);
    WitnessExplains(parents, name, Chain(chain), result);
    return Chain(chain);
  }
}
