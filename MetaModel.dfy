/** `NamespaceInfo` (src/Transport/Topology/MetaModel/NamespaceInfo.cs): a
    broker namespace, identified by its connection string. Its `Mode` can be
    switched and is deliberately left out of equality and hashing. */
module MetaModel {
  import opened Wrappers

  datatype NamespaceMode = Active | Passive

  /** A signed 32-bit integer, the type of `GetHashCode`. */
  newtype Int32 = x: int | -0x8000_0000 <= x < 0x8000_0000

  /** The runtime class of an instance: `NamespaceInfo` itself or a subclass. */
  type TypeName = string

  const NamespaceInfoType: TypeName := "NamespaceInfo"

  /** The two settable properties, plus the runtime class that `Equals`
      compares. A null connection string is `None`. */
  datatype NamespaceInfo = NamespaceInfo(connectionString: Option<string>, mode: NamespaceMode, runtimeType: TypeName)

  /** The constructor: stores the connection string and the mode, which
      defaults to `Active`. */
  function NewNamespaceInfo(connectionString: Option<string>, mode: NamespaceMode := Active): (ns: NamespaceInfo)
    ensures ns.connectionString == connectionString && ns.mode == mode
    ensures ns.runtimeType == NamespaceInfoType
  {
    NamespaceInfo(connectionString, mode, NamespaceInfoType)
  }

  /** `Equals(object)`. Reference identity is stood in for by value identity:
      an identical object also passes the type and connection-string tests,
      so the short cut does not change the answer. */
  function Equals(self: NamespaceInfo, obj: Option<NamespaceInfo>): (r: bool)
    ensures r <==> obj.Some? && obj.value.runtimeType == self.runtimeType && obj.value.connectionString == self.connectionString
  {
    if obj.None? then false
    else if obj.value == self then true
    else if obj.value.runtimeType != self.runtimeType then false
    else self.connectionString == obj.value.connectionString
  }

  /** Two's-complement wrap-around of an `unchecked` 32-bit result. */
  function Wrap32(x: int): (r: Int32)
    ensures (r as int - x) % 0x1_0000_0000 == 0
  {
    (((x + 0x8000_0000) % 0x1_0000_0000) - 0x8000_0000) as Int32
  }

  /** `GetHashCode`: the connection string's hash (0 for null) times 397, in
      unchecked 32-bit arithmetic. The string hash is the runtime's and is a
      parameter here. */
  function GetHashCode(self: NamespaceInfo, stringHash: string -> Int32): (h: Int32)
    ensures self.connectionString.None? ==> h == 0
  {
    Wrap32((if self.connectionString.Some? then stringHash(self.connectionString.value) as int else 0) * 397)
  }

  /** `operator ==`: the static `object.Equals`, so two nulls are equal and a
      null is equal to nothing else. */
  function OperatorEquals(left: Option<NamespaceInfo>, right: Option<NamespaceInfo>): (r: bool)
    ensures r <==> (left.None? && right.None?) || (left.Some? && Equals(left.value, right))
  {
    if left == right then true
    else if left.None? || right.None? then false
    else Equals(left.value, right)
  }

  /** `operator !=`: exactly the negation of `==`. */
  function OperatorNotEquals(left: Option<NamespaceInfo>, right: Option<NamespaceInfo>): (r: bool)
    ensures r <==> (|| left.None? != right.None?
                    || (left.Some? && right.Some? && left.value.runtimeType != right.value.runtimeType)
                    || (left.Some? && right.Some? && left.value.connectionString != right.value.connectionString))
  {
    !OperatorEquals(left, right)
  }

  /** Equality is an equivalence on non-null instances. */
  lemma EqualsIsEquivalence(a: NamespaceInfo, b: NamespaceInfo, c: NamespaceInfo)
    ensures Equals(a, Some(a))
    ensures Equals(a, Some(b)) == Equals(b, Some(a))
    ensures Equals(a, Some(b)) && Equals(b, Some(c)) ==> Equals(a, Some(c))
  {
  }

  /** Switching the mode of either side never changes equality. */
  lemma ModeDoesNotAffectEquality(a: NamespaceInfo, b: NamespaceInfo, m: NamespaceMode, n: NamespaceMode)
    ensures Equals(a.(mode := m), Some(b.(mode := n))) == Equals(a, Some(b))
  {
  }

  /** Switching the mode never changes the hash code. */
  lemma ModeDoesNotAffectHashCode(a: NamespaceInfo, m: NamespaceMode, stringHash: string -> Int32)
    ensures GetHashCode(a.(mode := m), stringHash) == GetHashCode(a, stringHash)
  {
  }

  /** Equal instances have equal hash codes. */
  lemma EqualInstancesHashAlike(a: NamespaceInfo, b: NamespaceInfo, stringHash: string -> Int32)
    requires Equals(a, Some(b))
    ensures GetHashCode(a, stringHash) == GetHashCode(b, stringHash)
  {
  }
}
