/** Small vocabulary shared by the models: optional values, results, and order-keeping subsequences. */
module Common {

  datatype Option<+T> = None | Some(value: T)

  datatype Result<+T, +E> = Ok(value: T) | Err(error: E)

  function Max(a: nat, b: nat): nat {
    if a <= b then b else a
  }

  function Pow2(n: nat): (p: nat)
    ensures p >= 1
  {
    if n == 0 then 1 else 2 * Pow2(n - 1)
  }

  /** a can be obtained from b by deleting elements. */
  ghost predicate Subsequence<T>(a: seq<T>, b: seq<T>)
    decreases |b|
  {
    if a == [] then true
    else if b == [] then false
    else
      || Subsequence(a, b[..|b| - 1])
      || (a[|a| - 1] == b[|b| - 1] && Subsequence(a[..|a| - 1], b[..|b| - 1]))
  }

  lemma SubsequenceSkip<T>(a: seq<T>, b: seq<T>, x: T)
    requires Subsequence(a, b)
    ensures Subsequence(a, b + [x])
  {
  }

  lemma SubsequenceTake<T>(a: seq<T>, b: seq<T>, x: T)
    requires Subsequence(a, b)
    ensures Subsequence(a + [x], b + [x])
  {
  }

  /** a picks the elements of b at increasing places. */
  ghost predicate Picks<T>(at: seq<nat>, a: seq<T>, b: seq<T>) {
    && |at| == |a|
    && (forall i, j :: 0 <= i < j < |at| ==> at[i] < at[j])
    && (forall i :: 0 <= i < |at| ==> at[i] < |b| && b[at[i]] == a[i])
  }

  /** That is what a subsequence is. */
  lemma {:induction false} SubsequenceIffPicked<T>(a: seq<T>, b: seq<T>)
    ensures Subsequence(a, b) <==> exists at: seq<nat> :: Picks(at, a, b)
    decreases |b|
  {
    if a == [] {
      assert Picks([], a, b);
    } else if b != [] {
      var a', b' := a[..|a| - 1], b[..|b| - 1];
      SubsequenceIffPicked(a, b');
      SubsequenceIffPicked(a', b');
      if at: seq<nat> :| Picks(at, a, b') {
        assert Picks(at, a, b);
      }
      if at: seq<nat> :| a[|a| - 1] == b[|b| - 1] && Picks(at, a', b') {
        assert Picks(at + [|b| - 1], a, b);
      }
      if at: seq<nat> :| Picks(at, a, b) {
        if at[|at| - 1] < |b'| {
          assert Picks(at, a, b');
        } else {
          assert Picks(at[..|at| - 1], a', b');
        }
      }
    } else {
      assert forall at: seq<nat> :: Picks(at, a, b) ==> at[0] < |b|;
    }
  }

  // ---- decimal numerals ----

  function Digit(d: nat): char
    requires d < 10
  {
    ['0', '1', '2', '3', '4', '5', '6', '7', '8', '9'][d]
  }

  function Decimal(n: nat): string {
    if n < 10 then [Digit(n)] else Decimal(n / 10) + [Digit(n % 10)]
  }

  lemma {:induction false} DecimalInjective(a: nat, b: nat)
    requires Decimal(a) == Decimal(b)
    ensures a == b
  {
    var s := Decimal(a);
    assert s[|s| - 1] == Digit(a % 10) == Digit(b % 10);
    if a < 10 || b < 10 {
      assert |Decimal(a)| == 1 <==> a < 10;
      assert |Decimal(b)| == 1 <==> b < 10;
    } else {
      assert Decimal(a / 10) == s[..|s| - 1] == Decimal(b / 10);
      DecimalInjective(a / 10, b / 10);
    }
  }
}
