/** What several components share. */
module Common {

  type Payload = seq<bv8>

  datatype Option<+T> = None | Some(value: T)

  // SESSION_STATE
  datatype SessionState = DISCONNECTED | RESERVED | CONNECTED | RELEASING

  function Without<T>(s: seq<T>, index: nat): seq<T>
    requires index < |s|
  {
    s[..index] + s[index + 1..]
  }

  lemma WithoutKeeps<T>(s: seq<T>, index: nat)
    requires index < |s|
    ensures forall x :: x in Without(s, index) ==> x in s
    ensures forall x :: x in s ==> x in Without(s, index) || x == s[index]
  {
    assert s == s[..index] + [s[index]] + s[index + 1..];
  }

  lemma ProductAtLeast(q: nat, n: nat, k: nat)
    requires q >= k
    ensures q * n >= k * n
  {
    assert q * n == k * n + (q - k) * n;
  }
}
