/** The domain's base types: the `Result` pattern, entity identity and
    value-object equality. The domain-event list that `Entity` keeps is a field
    of the aggregate that raises events (see CaseAggregate). */
module BaseTypes {
  import opened Runtime

  /** `Result`: an operation outcome with an error text. */
  datatype Result = Result(isSuccess: bool, error: string) {
    predicate IsFailure() {
      !isSuccess
    }
  }

  function Success(): (r: Result)
    ensures r.isSuccess && !r.IsFailure() && r.error == ""
  {
    Result(true, "")
  }

  function Failure(error: string): (r: Result)
    ensures !r.isSuccess && r.IsFailure() && r.error == error
  {
    Result(false, error)
  }

  /** `IsFailure` is derived from `IsSuccess`, never stored on its own. */
  lemma FailureIsNotSuccess(r: Result)
    ensures r.IsFailure() <==> !r.isSuccess
  {
  }

  /** `Result<T>`. `value` is `None` where the source stores `default!`. */
  datatype ValueResult<T> = ValueResult(value: Option<T>, isSuccess: bool, error: string) {
    predicate IsFailure() {
      !isSuccess
    }

    /** The same outcome seen through the base class `Result`. */
    function AsResult(): Result {
      Result(isSuccess, error)
    }
  }

  function SuccessWith<T>(value: T): (r: ValueResult<T>)
    ensures r.isSuccess && r.value == Some(value) && r.error == ""
  {
    ValueResult(Some(value), true, "")
  }

  function FailureOf<T>(error: string): (r: ValueResult<T>)
    ensures r.IsFailure() && r.value.None? && r.error == error
  {
    ValueResult(None, false, error)
  }

  /** What `Entity.Equals` and `Entity.GetHashCode` look at: the runtime type
      and the Id. */
  datatype EntityIdentity = EntityIdentity(runtimeType: string, id: Guid)

  /** `Entity.Equals(obj)`: `other` is `None` when `obj` is null or is not an entity. */
  predicate EntityEquals(self: EntityIdentity, other: Option<EntityIdentity>)
  {
    other.Some? && self.runtimeType == other.value.runtimeType && self.id == other.value.id
  }

  /** `Entity.GetHashCode()`: the hash of the Id, given the runtime's Guid hash. */
  function EntityHash(self: EntityIdentity, guidHash: Guid -> int): int
  {
    guidHash(self.id)
  }

  /** Entity equality is exactly "same runtime type and same Id". */
  lemma EntityEqualsIff(a: EntityIdentity, b: EntityIdentity)
    ensures EntityEquals(a, Some(b)) <==> a == b
  {
  }

  lemma EntityEqualsIsAnEquivalence(a: EntityIdentity, b: EntityIdentity, c: EntityIdentity)
    ensures EntityEquals(a, Some(a))
    ensures EntityEquals(a, Some(b)) ==> EntityEquals(b, Some(a))
    ensures EntityEquals(a, Some(b)) && EntityEquals(b, Some(c)) ==> EntityEquals(a, Some(c))
    ensures !EntityEquals(a, None)
  {
  }

  /** Equal entities have equal hashes, because the hash reads only the Id. */
  lemma EqualEntitiesHashAlike(a: EntityIdentity, b: EntityIdentity, guidHash: Guid -> int)
    requires EntityEquals(a, Some(b))
    ensures EntityHash(a, guidHash) == EntityHash(b, guidHash)
  {
  }

  /** What `ValueObject.Equals` looks at: the runtime type and the equality
      components, each of which may be null. */
  datatype ValueObjectView<C> = ValueObjectView(runtimeType: string, components: seq<Option<C>>)

  /** `Enumerable.SequenceEqual`: same length, equal element by element. */
  function SequenceEqual<C(==)>(a: seq<C>, b: seq<C>): (r: bool)
    ensures r <==> a == b
  {
    if |a| == 0 || |b| == 0 then |a| == |b|
    else
      assert a == [a[0]] + a[1..] && b == [b[0]] + b[1..];
      a[0] == b[0] && SequenceEqual(a[1..], b[1..])
  }

  /** `ValueObject.Equals(obj)`: `other` is `None` when `obj` is null. */
  predicate ValueObjectEquals<C(==)>(self: ValueObjectView<C>, other: Option<ValueObjectView<C>>)
  {
    other.Some?
    && other.value.runtimeType == self.runtimeType
    && SequenceEqual(self.components, other.value.components)
  }

  /** Value objects are equal exactly when they have the same type and
      element-wise equal components. */
  lemma ValueObjectEqualsIff<C>(a: ValueObjectView<C>, b: ValueObjectView<C>)
    ensures ValueObjectEquals(a, Some(b)) <==> a == b
  {
  }

  /** XOR of a non-empty sequence of hashes, left to right as `Aggregate` folds. */
  function XorAll(hs: seq<bv32>): bv32
    requires |hs| > 0
  {
    if |hs| == 1 then hs[0] else XorAll(hs[..|hs| - 1]) ^ hs[|hs| - 1]
  }

  /** `Select(x => x?.GetHashCode() ?? 0)`: one hash per component, in order,
      a null component hashing to 0. What callers rely on is stated by
      `EqualValueObjectsHashAlike`. */
  function ComponentHashes<C>(self: ValueObjectView<C>, hash: C -> bv32): (hs: seq<bv32>)
    ensures |hs| == |self.components|
    ensures forall i :: 0 <= i < |hs| ==>
      hs[i] == (if self.components[i].Some? then hash(self.components[i].value) else 0)
  {
    seq(|self.components|, i requires 0 <= i < |self.components| =>
          if self.components[i].Some? then hash(self.components[i].value) else 0)
  }

  /** `ValueObject.GetHashCode()`: the XOR of the component hashes. `None` when
      there are no components, where `Aggregate` without a seed throws
      `InvalidOperationException`. The contract callers of the hash rely on,
      that equal value objects hash alike, is `EqualValueObjectsHashAlike`. */
  function ValueObjectHash<C>(self: ValueObjectView<C>, hash: C -> bv32): (r: Option<bv32>)
    ensures r.None? <==> |self.components| == 0
    ensures |self.components| > 0 ==> r == Some(XorAll(ComponentHashes(self, hash)))
  {
    var hs := ComponentHashes(self, hash);
    if |hs| == 0 then None else Some(XorAll(hs))
  }

  /** Equal value objects hash alike. */
  lemma EqualValueObjectsHashAlike<C>(a: ValueObjectView<C>, b: ValueObjectView<C>, hash: C -> bv32)
    requires ValueObjectEquals(a, Some(b))
    ensures ValueObjectHash(a, hash) == ValueObjectHash(b, hash)
  {
    ValueObjectEqualsIff(a, b);
  }
}
