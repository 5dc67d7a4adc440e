/** A loop that tries each item in turn, keeps what succeeds and skips what
    fails (a `try` / `catch` inside a `for`): both route loops are of this kind. */
module Attempts {
  import opened Types

  /** The successful results, in the order they were attempted. */
  function Successes<T>(attempts: seq<Option<T>>): (r: seq<T>)
    decreases |attempts|
    ensures |r| <= |attempts|
  {
    if |attempts| == 0 then []
    else Successes(attempts[..|attempts| - 1]) + Kept(attempts[|attempts| - 1])
  }

  /** What one attempt contributes: its value, or nothing when it failed. */
  function Kept<T>(a: Option<T>): (r: seq<T>)
    ensures |r| <= 1
    ensures a.Some? ==> r == [a.value]
    ensures a.None? ==> r == []
  {
    if a.Some? then [a.value] else []
  }

  /** The positions of the successful attempts, in increasing order. */
  function Origins<T>(attempts: seq<Option<T>>): seq<nat>
    decreases |attempts|
  {
    if |attempts| == 0 then []
    else Origins(attempts[..|attempts| - 1]) + (if attempts[|attempts| - 1].Some? then [|attempts| - 1] else [])
  }

  /** One more attempt extends the successes by what it kept: this is the step
      of the loop that pushes a result when the attempt succeeded. */
  lemma SuccessesSnoc<T>(attempts: seq<Option<T>>, a: Option<T>)
    ensures Successes(attempts + [a]) == Successes(attempts) + Kept(a)
  {
    assert (attempts + [a])[..|attempts|] == attempts;
  }

  /** Three attempts keep what each of them kept, in order. */
  lemma SuccessesOfThree<T>(a: Option<T>, b: Option<T>, c: Option<T>)
    ensures Successes([a, b, c]) == Kept(a) + Kept(b) + Kept(c)
  {
    SuccessesSnoc([], a);
    assert [] + [a] == [a];
    SuccessesSnoc([a], b);
    assert [a] + [b] == [a, b];
    SuccessesSnoc([a, b], c);
    assert [a, b] + [c] == [a, b, c];
  }

  /** One more element of a prefix. */
  lemma TakeSnoc<T>(s: seq<T>, i: nat)
    requires i < |s|
    ensures s[..i + 1] == s[..i] + [s[i]]
  {
  }

  /** Each success is the value of the attempt at its origin, the origins are
      strictly increasing positions of successful attempts, and every
      successful attempt is one of them. */
  lemma {:induction false} OriginsSound<T>(attempts: seq<Option<T>>)
    ensures |Origins(attempts)| == |Successes(attempts)|
    ensures forall j :: 0 <= j < |Origins(attempts)| ==>
              Origins(attempts)[j] < |attempts| && attempts[Origins(attempts)[j]] == Some(Successes(attempts)[j])
    ensures forall j, k :: 0 <= j < k < |Origins(attempts)| ==> Origins(attempts)[j] < Origins(attempts)[k]
    ensures forall i :: 0 <= i < |attempts| && attempts[i].Some? ==> i in Origins(attempts)
    decreases |attempts|
  {
    if |attempts| > 0 {
      var n := |attempts| - 1;
      var init := attempts[..n];
      OriginsSound(init);
      assert forall i :: 0 <= i < n ==> init[i] == attempts[i];
    }
  }

  /** Nothing succeeds exactly when every attempt fails. */
  lemma {:induction false} SuccessesEmpty<T>(attempts: seq<Option<T>>)
    ensures Successes(attempts) == [] <==> forall i :: 0 <= i < |attempts| ==> attempts[i].None?
  {
    OriginsSound(attempts);
    if Successes(attempts) != [] {
      assert attempts[Origins(attempts)[0]].Some?;
    }
  }

  /** When every attempt succeeds, nothing is dropped. */
  lemma {:induction false} SuccessesAll<T>(attempts: seq<Option<T>>)
    requires forall i :: 0 <= i < |attempts| ==> attempts[i].Some?
    ensures |Successes(attempts)| == |attempts|
    ensures forall i :: 0 <= i < |attempts| ==> Successes(attempts)[i] == attempts[i].value
    decreases |attempts|
  {
    if |attempts| > 0 {
      var n := |attempts| - 1;
      SuccessesAll(attempts[..n]);
    }
  }
}
