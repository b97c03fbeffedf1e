/** Searching in strings, shared by the modules that scan text. */
module Strings {
  import opened Wrappers

  predicate OccursAt(text: string, pattern: string, i: nat) {
    i + |pattern| <= |text| && text[i..i + |pattern|] == pattern
  }

  function Find(text: string, pattern: string, from: nat): (r: Option<nat>)
    ensures r.Some? ==> from <= r.value && OccursAt(text, pattern, r.value)
    decreases |text| - from
  {
    if from + |pattern| > |text| then None
    else if OccursAt(text, pattern, from) then Some(from)
    else Find(text, pattern, from + 1)
  }

  lemma {:induction false} FirstFound(text: string, pattern: string, from: nat, at: nat)
    requires from <= at && OccursAt(text, pattern, at)
    requires forall i: nat | from <= i < at :: !OccursAt(text, pattern, i)
    ensures Find(text, pattern, from) == Some(at)
    decreases at - from
  {
    if from < at {
      FirstFound(text, pattern, from + 1, at);
    }
  }

  lemma {:induction false} NeverFound(text: string, pattern: string, from: nat)
    requires forall i: nat | from <= i :: !OccursAt(text, pattern, i)
    ensures Find(text, pattern, from) == None
    decreases |text| - from
  {
    if from + |pattern| <= |text| {
      NeverFound(text, pattern, from + 1);
    }
  }

  lemma {:induction false} FoundIsFirst(text: string, pattern: string, from: nat, i: nat)
    requires Find(text, pattern, from).Some? && from <= i < Find(text, pattern, from).value
    ensures !OccursAt(text, pattern, i)
    decreases i - from
  {
    if from < i {
      FoundIsFirst(text, pattern, from + 1, i);
    }
  }
}
