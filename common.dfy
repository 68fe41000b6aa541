/** Values shared by both revisions of the points contract. */
module Common {

  /** A protobuf message field or a state entry that may be absent (null in the contract). */
  datatype Option<+T> = None | Some(value: T)

  /** The effect of one transaction on a state: the new state, or the message of the
      `Assert` (or the null dereference) that aborted it. */
  datatype Result<+T> = Success(value: T) | Failure(error: string)

  /** What a contract method reports to its caller. */
  datatype Outcome = Ok | Fail(msg: string)

  function OutcomeOf<T>(r: Result<T>): Outcome
  {
    if r.Success? then Ok else Fail(r.error)
  }

  /** The host's transaction semantics: a failed transaction leaves the prior state in place. */
  function Commit<T>(prior: T, r: Result<T>): T
  {
    if r.Success? then r.value else prior
  }

  /** An AElf address; the address with an empty byte string is the one the guards call empty. */
  datatype Address = Address(value: seq<bv8>)

  predicate IsNullOrEmptyAddress(a: Option<Address>)
  {
    a.None? || |a.value.value| == 0
  }

  /** Token metadata of a points token. */
  datatype PointInfo = PointInfo(tokenName: string, decimals: int)

  /** The default-constructed `PointInfo`, which the duplicate check treats as "no token". */
  const EmptyPointInfo := PointInfo("", 0)

  const TokenNameLength := 80

  /** The number of UTF-16 code units of one character: a character above U+FFFF is stored as a
      surrogate pair. */
  function Utf16Units(c: char): nat
  {
    if c as int <= 0xFFFF then 1 else 2
  }

  /** The `Length` of a .NET string, which counts UTF-16 code units rather than characters. */
  function Utf16Length(s: string): (n: nat)
    ensures |s| <= n <= 2 * |s|
    ensures n == |s| <==> forall i :: 0 <= i < |s| ==> s[i] as int <= 0xFFFF
    ensures (forall i :: 0 <= i < |s| ==> s[i] as int > 0xFFFF) ==> n == 2 * |s|
  {
    if |s| == 0 then 0
    else
      var n := Utf16Units(s[0]) + Utf16Length(s[1..]);
      assert (forall i :: 0 <= i < |s| ==> s[i] as int <= 0xFFFF)
             <==> s[0] as int <= 0xFFFF && forall i :: 0 <= i < |s[1..]| ==> s[1..][i] as int <= 0xFFFF by {
        if forall i :: 0 <= i < |s[1..]| ==> s[1..][i] as int <= 0xFFFF {
          forall i | 1 <= i < |s| ensures s[i] as int <= 0xFFFF { assert s[i] == s[1..][i - 1]; }
        }
      }
      assert (forall i :: 0 <= i < |s| ==> s[i] as int > 0xFFFF)
             ==> forall i :: 0 <= i < |s[1..]| ==> s[1..][i] as int > 0xFFFF;
      n
  }
  const MaxDecimals := 18

  /** The message with which the runtime aborts a transaction that dereferences a missing entry. */
  const NullReference := "Object reference not set to an instance of an object."

  /** A read of a `MappedState` of integers: an absent key reads as 0. */
  function Count<K>(m: map<K, int>, k: K): int
  {
    if k in m then m[k] else 0
  }

  /** A read-modify-write `m[k] = m[k].Add(1)` on a `MappedState` of integers. */
  function Increment<K(!new)>(m: map<K, int>, k: K): (r: map<K, int>)
    ensures Count(r, k) == Count(m, k) + 1
    ensures forall j :: j != k ==> Count(r, j) == Count(m, j)
  {
    m[k := Count(m, k) + 1]
  }
}
