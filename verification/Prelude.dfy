/** Identifiers, machine-width arithmetic and the finite-set facts shared by the model. */
module Prelude {
  /** A ULID is a totally ordered 128-bit number; only its order matters here. */
  type VmId = nat
  type ActorId = nat

  datatype Option<+T> = None | Some(value: T)

  const U32_MAX: nat := 0xFFFF_FFFF
  const U64_MAX: nat := 0xFFFF_FFFF_FFFF_FFFF

  type U32 = n: nat | n <= U32_MAX
  type U64 = n: nat | n <= U64_MAX

  function Min(a: nat, b: nat): nat {
    if a <= b then a else b
  }

  /** `saturating_add` on an unsigned integer whose largest value is `max`. */
  function SatAdd(max: nat, a: nat, b: nat): nat {
    Min(max, a + b)
  }

  /** `saturating_sub` on an unsigned integer. */
  function SatSub(a: nat, b: nat): nat {
    if b <= a then a - b else 0
  }

  function Elems<T>(s: seq<T>): set<T> {
    set x | x in s
  }

  ghost predicate NoDuplicates<T>(s: seq<T>) {
    forall i, j :: 0 <= i < j < |s| ==> s[i] != s[j]
  }

  ghost predicate StrictlySorted(s: seq<nat>) {
    forall i, j :: 0 <= i < j < |s| ==> s[i] < s[j]
  }

  lemma ElemsEmpty<T>(s: seq<T>)
    ensures Elems(s) == {} <==> s == []
  {
    if s != [] {
      assert s[0] in Elems(s);
    }
  }

  // ----- sorted listings of finite sets -----

  lemma {:induction false} SetHasLeast(ids: set<nat>)
    requires ids != {}
    ensures exists m :: m in ids && forall x :: x in ids ==> m <= x
  {
    var k :| k in ids;
    if x :| x in ids && x < k {
      var below := set y | y in ids && y < k;
      assert below < ids by { assert k in ids - below; }
      assert x in below;
      SetHasLeast(below);
      var m :| m in below && forall y :: y in below ==> m <= y;
      assert forall y :: y in ids ==> y in below || k <= y;
    }
  }

  function Least(ids: set<nat>): (m: nat)
    requires ids != {}
    ensures m in ids && forall x :: x in ids ==> m <= x
  {
    SetHasLeast(ids);
    var m :| m in ids && forall x :: x in ids ==> m <= x;
    m
  }

  lemma PrependLeast(m: nat, rest: seq<nat>, ids: set<nat>)
    requires m in ids && forall x :: x in ids ==> m <= x
    requires StrictlySorted(rest) && Elems(rest) == ids - {m}
    ensures StrictlySorted([m] + rest) && Elems([m] + rest) == ids
  {
    assert forall i :: 0 <= i < |rest| ==> rest[i] in Elems(rest);
    forall x ensures x in Elems([m] + rest) <==> x in ids {
      assert x in [m] + rest <==> x == m || x in Elems(rest);
    }
  }

  /** The strictly increasing listing of a set, as `sort_unstable` leaves a duplicate-free vector. */
  function SortedIds(ids: set<nat>): (listing: seq<nat>)
    ensures StrictlySorted(listing)
    ensures Elems(listing) == ids
  {
    if ids == {} then [] else
      var m := Least(ids);
      var rest := SortedIds(ids - {m});
      PrependLeast(m, rest, ids);
      [m] + rest
  }

  /** A strictly increasing listing is determined by its elements. */
  lemma {:induction false} SortedListingIsUnique(a: seq<nat>, b: seq<nat>)
    requires StrictlySorted(a) && StrictlySorted(b) && Elems(a) == Elems(b)
    ensures a == b
    decreases |a|
  {
    if a == [] {
      ElemsEmpty(b);
    } else {
      assert a[0] in Elems(a);
      assert b != [] && a[0] in b;
      assert b[0] in Elems(b) && b[0] in a;
      assert a[0] == b[0];
      forall x ensures x in Elems(a[1..]) <==> x in Elems(b[1..]) {
        assert x in a[1..] <==> x in Elems(a) && x != a[0];
        assert x in b[1..] <==> x in Elems(b) && x != b[0];
      }
      SortedListingIsUnique(a[1..], b[1..]);
    }
  }

  lemma ElemsSplit<T>(s: seq<T>, i: nat)
    requires i < |s|
    ensures Elems(s[..i + 1]) == Elems(s[..i]) + {s[i]}
  {
    assert s[..i + 1] == s[..i] + [s[i]];
  }

  // ----- sums over finite maps -----

  /** The sum of the values of a finite map. */
  ghost function Total(w: map<nat, nat>): nat
    decreases |w|
  {
    if w == map[] then 0 else
      var k :| k in w;
      w[k] + Total(w - {k})
  }

  lemma {:induction false} TotalRemove(w: map<nat, nat>, k: nat)
    requires k in w
    ensures Total(w) == w[k] + Total(w - {k})
    decreases |w|
  {
    var j :| j in w && Total(w) == w[j] + Total(w - {j});
    if j != k {
      TotalRemove(w - {j}, k);
      TotalRemove(w - {k}, j);
      assert w - {j} - {k} == w - {k} - {j};
    }
  }

  lemma TotalUpdate(w: map<nat, nat>, k: nat, n: nat)
    ensures k in w ==> Total(w[k := n]) == Total(w) - w[k] + n
    ensures k !in w ==> Total(w[k := n]) == Total(w) + n
  {
    TotalRemove(w[k := n], k);
    assert w[k := n] - {k} == w - {k};
    if k in w {
      TotalRemove(w, k);
    } else {
      assert w - {k} == w;
    }
  }

  /** Sums are monotone in the summands; a missing summand counts as zero. */
  lemma {:induction false} TotalMonotone(w: map<nat, nat>, u: map<nat, nat>)
    requires forall k :: k in w ==> w[k] <= if k in u then u[k] else 0
    ensures Total(w) <= Total(u)
    decreases |w|
  {
    if w != map[] {
      var k :| k in w;
      TotalRemove(w, k);
      if k in u {
        TotalRemove(u, k);
      } else {
        assert u - {k} == u;
      }
      TotalMonotone(w - {k}, u - {k});
    }
  }
}
