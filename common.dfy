/**
 * Shared vocabulary of the model: optional and failing results, identifiers,
 * the keyed structures the API helpers return (PHP arrays), PHP's
 * `explode('+', ...)` on detail levels, and the visibility rule that decides
 * whether an object is suppressed.
 */
module Common {

  datatype Option<+T> = None | Some(value: T)

  /** The exception a store lookup throws (`DoesNotExistException`). */
  datatype StoreError = DoesNotExist

  /** A value, or the exception that escaped the computation. */
  datatype Result<+T> = Success(value: T) | Failure(error: StoreError) {
    predicate IsFailure() { Failure? }

    function PropagateFailure<U>(): Result<U>
      requires Failure?
    {
      Failure(error)
    }

    function Extract(): T
      requires Success?
    {
      value
    }
  }

  /** Models, revisions and passwords are identified by opaque UUIDs. */
  type Uuid = nat

  /** The keys of the PHP arrays the API helpers build; keys set by code
      outside this model (the password helper) are `OtherKey`. */
  datatype Key =
    | IdKey | OwnerKey | CreatedKey | UpdatedKey | RevisionKey | LabelKey | ParentKey | ColorKey
    | CseTypeKey | SseTypeKey | HiddenKey | TrashedKey | FavouriteKey
    | RevisionsKey | FoldersKey | PasswordsKey
    | OtherKey(name: string)

  /** A value stored in a PHP array returned by the API helpers. */
  datatype Value =
    | Str(s: string)
    | Id(id: Uuid)
    | Int(i: int)
    | Bool(b: bool)
    | Null
    | Obj(fields: map<Key, Value>)
    | List(items: seq<Value>)

  /** A PHP associative array. */
  type Fields = map<Key, Value>

  /** A value that holds no nested array. */
  predicate Flat(v: Value) {
    !v.Obj? && !v.List?
  }

  /** An array none of whose entries holds a nested array. */
  predicate FlatFields(o: Fields) {
    forall k :: k in o ==> Flat(o[k])
  }

  /** An object is suppressed when its revision is trashed and trash is excluded,
      or hidden and hidden objects are excluded. */
  predicate Excluded(hidden: bool, trashed: bool, excludeHidden: bool, excludeTrash: bool) {
    (excludeTrash && trashed) || (excludeHidden && hidden)
  }

  /** A non-empty sequence is its prefix followed by its last element. */
  lemma LastSplit<T>(s: seq<T>)
    requires s != []
    ensures s == s[..|s| - 1] + [s[|s| - 1]]
  {
  }

  /** Index of the first '+' in s. */
  function PlusIndex(s: string): (k: nat)
    requires '+' in s
    ensures k < |s| && s[k] == '+'
    ensures forall j :: 0 <= j < k ==> s[j] != '+'
  {
    if s[0] == '+' then 0 else 1 + PlusIndex(s[1..])
  }

  /** PHP `explode('+', s)`: the pieces between the separators, in order;
      the empty string gives one empty piece. */
  function Split(s: string): (parts: seq<string>)
    ensures |parts| >= 1
    ensures forall i :: 0 <= i < |parts| ==> '+' !in parts[i]
    decreases |s|
  {
    if '+' !in s then [s]
    else
      var k := PlusIndex(s);
      [s[..k]] + Split(s[k + 1..])
  }

  /** PHP `implode('+', parts)`. */
  function Join(parts: seq<string>): string {
    if |parts| == 0 then ""
    else if |parts| == 1 then parts[0]
    else parts[0] + "+" + Join(parts[1..])
  }

  /** Splitting loses nothing: the pieces joined back with '+' give the level. */
  lemma {:induction false} JoinSplit(s: string)
    ensures Join(Split(s)) == s
    decreases |s|
  {
    if '+' in s {
      var k := PlusIndex(s);
      var rest := s[k + 1..];
      assert Split(s) == [s[..k]] + Split(rest);
      JoinSplit(rest);
      JoinCons(s[..k], Split(rest));
      assert s[..k] + "+" + rest == s;
    }
  }

  lemma JoinCons(head: string, tail: seq<string>)
    requires |tail| >= 1
    ensures Join([head] + tail) == head + "+" + Join(tail)
  {
    assert ([head] + tail)[1..] == tail;
  }

  /** And a list of '+'-free pieces is recovered from its joined form. */
  lemma {:induction false} SplitJoin(parts: seq<string>)
    requires |parts| >= 1
    requires forall i :: 0 <= i < |parts| ==> '+' !in parts[i]
    ensures Split(Join(parts)) == parts
  {
    if |parts| > 1 {
      var rest := parts[1..];
      assert forall i :: 0 <= i < |rest| ==> '+' !in rest[i] by {
        forall i | 0 <= i < |rest| ensures '+' !in rest[i] {
          assert rest[i] == parts[i + 1];
        }
      }
      SplitJoin(rest);
      assert Join(parts) == parts[0] + "+" + Join(rest);
      SplitAtFirstPlus(parts[0], Join(rest));
      assert parts == [parts[0]] + rest;
    }
  }

  /** The first '+' of a + "+" + b is the one after a, when a has none. */
  lemma SplitAtFirstPlus(a: string, b: string)
    requires '+' !in a
    ensures Split(a + "+" + b) == [a] + Split(b)
  {
    var s := a + "+" + b;
    assert s[|a|] == '+';
    assert forall j :: 0 <= j < |a| ==> s[j] == a[j];
    var k := PlusIndex(s);
    assert k == |a|;
    assert s[..k] == a;
    assert s[k + 1..] == b;
  }

  /** The loop of `getRevisions`, the same in both helpers: one array per
      revision, in the order given. */
  function EntryList<R>(rs: seq<R>, fields: R -> Fields): (items: seq<Value>)
    ensures |items| == |rs|
    ensures forall i :: 0 <= i < |items| ==> items[i] == Obj(fields(rs[i]))
  {
    if rs == [] then []
    else EntryList(rs[..|rs| - 1], fields) + [Obj(fields(rs[|rs| - 1]))]
  }

  // ---------------------------------------------------------------------------
  // The password lists both API helpers build
  // ---------------------------------------------------------------------------

  /** A password as the folder and tag helpers see it: its identity and its
      current revision. */
  datatype Password = Password(uuid: Uuid, revision: Uuid)

  /** The password helper's MODEL-level projection of one password under the
      given exclude flags; None when that password is suppressed. */
  type PasswordProjection = (Password, bool, bool) -> Option<Fields>

  /** The loop of `getPasswords`, the same in both helpers: the non-null
      projections, appended in list order. */
  function CollectPasswords(project: PasswordProjection, passwords: seq<Password>,
                            excludeHidden: bool, excludeTrash: bool): (items: seq<Value>)
    ensures |items| <= |passwords|
  {
    if passwords == [] then []
    else
      var init := CollectPasswords(project, passwords[..|passwords| - 1], excludeHidden, excludeTrash);
      var obj := project(passwords[|passwords| - 1], excludeHidden, excludeTrash);
      if obj.Some? then init + [Obj(obj.value)] else init
  }

  /** The positions in the list whose projection is not null, ascending. */
  function KeptPositions(project: PasswordProjection, ps: seq<Password>,
                         excludeHidden: bool, excludeTrash: bool): seq<nat>
  {
    if ps == [] then []
    else
      var init := KeptPositions(project, ps[..|ps| - 1], excludeHidden, excludeTrash);
      if project(ps[|ps| - 1], excludeHidden, excludeTrash).Some? then init + [|ps| - 1] else init
  }

  /** The loop keeps exactly the non-null projections. */
  lemma {:induction false} CollectPasswordsMembers(project: PasswordProjection, ps: seq<Password>,
                                                   excludeHidden: bool, excludeTrash: bool)
    ensures forall i :: 0 <= i < |ps| && project(ps[i], excludeHidden, excludeTrash).Some? ==>
              Obj(project(ps[i], excludeHidden, excludeTrash).value) in CollectPasswords(project, ps, excludeHidden, excludeTrash)
    ensures forall v :: v in CollectPasswords(project, ps, excludeHidden, excludeTrash) ==>
              v.Obj? && exists i :: 0 <= i < |ps| && project(ps[i], excludeHidden, excludeTrash) == Some(v.fields)
  {
    if ps != [] {
      var init := ps[..|ps| - 1];
      CollectPasswordsMembers(project, init, excludeHidden, excludeTrash);
      forall i | 0 <= i < |ps| - 1 ensures ps[i] == init[i] { }
    }
  }

  /** Positions below `bound`, strictly ascending. */
  predicate AscendingBelow(idx: seq<nat>, bound: nat) {
    && (forall k :: 0 <= k < |idx| ==> idx[k] < bound)
    && (forall k, l :: 0 <= k < l < |idx| ==> idx[k] < idx[l])
  }

  /** The loop is an order-preserving filter: item k is the projection of the
      password at the k-th kept position, the kept positions ascend, and every
      password with a non-null projection has one; so each such password
      appears exactly once, in list order. */
  lemma {:induction false} CollectPasswordsInOrder(project: PasswordProjection, ps: seq<Password>,
                                                   excludeHidden: bool, excludeTrash: bool)
    ensures |KeptPositions(project, ps, excludeHidden, excludeTrash)|
            == |CollectPasswords(project, ps, excludeHidden, excludeTrash)|
    ensures AscendingBelow(KeptPositions(project, ps, excludeHidden, excludeTrash), |ps|)
    ensures forall i :: 0 <= i < |ps| && project(ps[i], excludeHidden, excludeTrash).Some? ==>
              i in KeptPositions(project, ps, excludeHidden, excludeTrash)
    ensures forall k :: 0 <= k < |KeptPositions(project, ps, excludeHidden, excludeTrash)| ==>
              var i := KeptPositions(project, ps, excludeHidden, excludeTrash)[k];
              && i < |ps|
              && project(ps[i], excludeHidden, excludeTrash).Some?
              && CollectPasswords(project, ps, excludeHidden, excludeTrash)[k]
                 == Obj(project(ps[i], excludeHidden, excludeTrash).value)
  {
    KeptPositionsAscendAndCover(project, ps, excludeHidden, excludeTrash);
    if ps != [] {
      var n := |ps| - 1;
      var init := ps[..n];
      CollectPasswordsInOrder(project, init, excludeHidden, excludeTrash);
      var idx0 := KeptPositions(project, init, excludeHidden, excludeTrash);
      assert forall k :: 0 <= k < |idx0| ==> ps[idx0[k]] == init[idx0[k]];
    }
  }

  /** The kept positions are in range, strictly ascending, and include every
      password whose projection is not null. */
  lemma {:induction false} KeptPositionsAscendAndCover(project: PasswordProjection, ps: seq<Password>,
                                                       excludeHidden: bool, excludeTrash: bool)
    ensures AscendingBelow(KeptPositions(project, ps, excludeHidden, excludeTrash), |ps|)
    ensures forall i :: 0 <= i < |ps| && project(ps[i], excludeHidden, excludeTrash).Some? ==>
              i in KeptPositions(project, ps, excludeHidden, excludeTrash)
  {
    if ps != [] {
      var n := |ps| - 1;
      var init := ps[..n];
      KeptPositionsAscendAndCover(project, init, excludeHidden, excludeTrash);
      assert forall i :: 0 <= i < n ==> ps[i] == init[i];
      var idx0 := KeptPositions(project, init, excludeHidden, excludeTrash);
      assert AscendingBelow(idx0, n);
      if project(ps[n], excludeHidden, excludeTrash).Some? {
        assert KeptPositions(project, ps, excludeHidden, excludeTrash) == idx0 + [n];
      } else {
        assert KeptPositions(project, ps, excludeHidden, excludeTrash) == idx0;
      }
    }
  }
}
