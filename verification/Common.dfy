/** Names and small facts that several modules share. */
module Common {
  type Name = string
  type SessionId = string
  type ReqId = string
  type ShellId = string
  type Time = nat

  datatype Option<+T> = None | Some(value: T)

  lemma {:induction false} SubsetSize<T>(a: set<T>, b: set<T>)
    requires a <= b
    ensures |a| <= |b|
  {
    if a != {} {
      var x :| x in a;
      SubsetSize(a - {x}, b - {x});
    }
  }

  lemma RemoveShrinks<K, V>(m: map<K, V>, keys: set<K>)
    ensures |m - keys| <= |m|
  {
    assert (m - keys).Keys == m.Keys - keys;
    SubsetSize(m.Keys - keys, m.Keys);
  }

  lemma Regroup<T>(x: seq<T>, y: seq<T>, z: seq<T>)
    ensures x + y + z == x + (y + z)
  {
  }

  /** Where a history that starts false turned true for the last time. */
  lemma {:induction false} LastRise(history: seq<bool>, k: nat) returns (j: nat)
    requires k < |history| && !history[0] && history[k]
    ensures j < k && !history[j] && forall i :: j < i <= k ==> history[i]
  {
    if history[k - 1] {
      j := LastRise(history, k - 1);
    } else {
      j := k - 1;
    }
  }

  /** What each step keeps holds from where it first did. */
  lemma {:induction false} Carries(history: seq<bool>, j: nat, k: nat)
    requires j <= k < |history| && history[j] && forall i :: j <= i < k && history[i] ==> history[i + 1]
    ensures history[k]
    decreases k - j
  {
    if j < k {
      Carries(history, j, k - 1);
    }
  }

  lemma MulMonotone(a: nat, b: nat, m: nat)
    requires a <= b
    ensures a * m <= b * m
  {
  }
}
