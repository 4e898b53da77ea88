/**
 * The appointment record, the key under which the list is persisted, and
 * the pure list operations behind the store: removal by id (the `filter`
 * in deleteAppointment) and the facts about ids that the store relies on.
 */
module Appointments {

  /**
   * An appointment id as a JavaScript value: the POST response's `id`
   * (any JSON number or string) or the `Date.now()` fallback (a number).
   * Dafny's `==` on Id is JavaScript's `===` on these values: a number never
   * equals a string, whatever their digits.
   */
  datatype Id = Num(n: int) | Str(s: string)

  /** `||` keeps the response id only when it is truthy: not 0 and not "". */
  predicate Truthy(id: Id)
  {
    match id
    case Num(n) => n != 0
    case Str(s) => s != ""
  }

  /** One booking; `mensaje` may be empty, `fecha` is a localised date string. */
  datatype Appointment = Appointment(
    id: Id,
    nombre: string,
    email: string,
    telefono: string,
    mascota: string,
    servicio: string,
    mensaje: string,
    fecha: string)

  /** The single localStorage key the list is written to and read from. */
  const StorageKey := "lisvet_appointments"

  /**
   * A value held under the storage key. `Saved(xs)` is any stored text
   * that `JSON.parse` turns into the list of records `xs` (never the empty
   * string); what `JSON.stringify(xs)` writes is one such text.
   * `Unreadable(text)` is the empty string, which is falsy, or text that
   * `JSON.parse` rejects. Text that parses to something other than a list
   * of records is not modelled.
   */
  datatype Stored = Saved(list: seq<Appointment>) | Unreadable(text: string)

  predicate HasId(xs: seq<Appointment>, k: Id)
  {
    exists i :: 0 <= i < |xs| && xs[i].id == k
  }

  /** No two entries share an id. */
  predicate UniqueIds(xs: seq<Appointment>)
  {
    forall i, j :: 0 <= i < j < |xs| ==> xs[i].id != xs[j].id
  }

  /** Number of entries whose id is `k`. */
  function CountId(xs: seq<Appointment>, k: Id): nat
  {
    if xs == [] then 0 else (if xs[0].id == k then 1 else 0) + CountId(xs[1..], k)
  }

  /**
   * `xs.filter(apt => apt.id !== k)`: the entries whose id differs from `k`
   * under strict equality, in their original order.
   */
  function Without(xs: seq<Appointment>, k: Id): (r: seq<Appointment>)
    ensures |r| <= |xs|
    ensures forall a :: a in r <==> a in xs && a.id != k
  {
    if xs == [] then []
    else if xs[0].id != k then [xs[0]] + Without(xs[1..], k)
    else Without(xs[1..], k)
  }

  /** Filtering distributes over concatenation, so survivors keep their relative order. */
  lemma {:induction false} WithoutAppend(xs: seq<Appointment>, ys: seq<Appointment>, k: Id)
    ensures Without(xs + ys, k) == Without(xs, k) + Without(ys, k)
  {
    if xs == [] {
      assert xs + ys == ys;
    } else {
      assert (xs + ys)[1..] == xs[1..] + ys;
      WithoutAppend(xs[1..], ys, k);
    }
  }

  /** An id that no entry carries leaves the list exactly as it was. */
  lemma {:induction false} WithoutAbsent(xs: seq<Appointment>, k: Id)
    requires !HasId(xs, k)
    ensures Without(xs, k) == xs
  {
    if xs != [] {
      assert xs[0].id != k;
      assert !HasId(xs[1..], k) by {
        forall i | 0 <= i < |xs[1..]| ensures xs[1..][i].id != k {
          assert xs[1..][i] == xs[i + 1];
        }
      }
      WithoutAbsent(xs[1..], k);
      assert [xs[0]] + xs[1..] == xs;
    }
  }

  /** Deleting the same id twice is the same as deleting it once. */
  lemma WithoutIdempotent(xs: seq<Appointment>, k: Id)
    ensures Without(Without(xs, k), k) == Without(xs, k)
  {
  }

  /** Exactly the entries carrying `k` disappear. */
  lemma {:induction false} WithoutLength(xs: seq<Appointment>, k: Id)
    ensures |Without(xs, k)| == |xs| - CountId(xs, k)
  {
    if xs != [] {
      WithoutLength(xs[1..], k);
    }
  }

  /** With unique ids, a present id occurs exactly once. */
  lemma {:induction false} CountIdUnique(xs: seq<Appointment>, k: Id)
    requires UniqueIds(xs)
    ensures CountId(xs, k) == if HasId(xs, k) then 1 else 0
  {
    if xs != [] {
      var tail := xs[1..];
      assert UniqueIds(tail) by {
        forall i, j | 0 <= i < j < |tail| ensures tail[i].id != tail[j].id {
          assert tail[i] == xs[i + 1] && tail[j] == xs[j + 1];
        }
      }
      CountIdUnique(tail, k);
      assert HasId(xs, k) <==> xs[0].id == k || HasId(tail, k) by {
        if HasId(xs, k) {
          var i :| 0 <= i < |xs| && xs[i].id == k;
          if i > 0 { assert tail[i - 1] == xs[i]; }
        }
        if HasId(tail, k) {
          var i :| 0 <= i < |tail| && tail[i].id == k;
          assert xs[i + 1] == tail[i];
        }
      }
    }
  }

  /** Removing a present id from a list with unique ids shortens it by exactly one. */
  lemma DeletePresentShrinksByOne(xs: seq<Appointment>, k: Id)
    requires UniqueIds(xs) && HasId(xs, k)
    ensures |Without(xs, k)| == |xs| - 1
  {
    WithoutLength(xs, k);
    CountIdUnique(xs, k);
  }

  /**
   * Two entries that share an id (the code never checks for duplicates)
   * are removed together by one delete.
   */
  lemma DeleteRemovesAllSharers(xs: seq<Appointment>, i: nat, j: nat)
    requires i < j < |xs| && xs[i].id == xs[j].id
    ensures |Without(xs, xs[i].id)| <= |xs| - 2
  {
    WithoutLength(xs, xs[i].id);
    CountIdAtLeastTwo(xs, i, j);
  }

  lemma {:induction false} CountIdAtLeastTwo(xs: seq<Appointment>, i: nat, j: nat)
    requires i < j < |xs| && xs[i].id == xs[j].id
    ensures CountId(xs, xs[i].id) >= 2
  {
    if i == 0 {
      CountIdAtLeastOne(xs[1..], j - 1, xs[0].id);
    } else {
      CountIdAtLeastTwo(xs[1..], i - 1, j - 1);
    }
  }

  lemma {:induction false} CountIdAtLeastOne(xs: seq<Appointment>, i: nat, k: Id)
    requires i < |xs| && xs[i].id == k
    ensures CountId(xs, k) >= 1
  {
    if i > 0 {
      CountIdAtLeastOne(xs[1..], i - 1, k);
    }
  }

  /** Appending keeps ids unique exactly when the new id is not already taken. */
  lemma AppendUniqueIff(xs: seq<Appointment>, a: Appointment)
    requires UniqueIds(xs)
    ensures UniqueIds(xs + [a]) <==> !HasId(xs, a.id)
  {
    var ys := xs + [a];
    if HasId(xs, a.id) {
      var i :| 0 <= i < |xs| && xs[i].id == a.id;
      assert ys[i].id == ys[|xs|].id;
    }
  }

  /** Putting an entry with a fresh id in front keeps ids unique. */
  lemma PrependUnique(a: Appointment, xs: seq<Appointment>)
    requires UniqueIds(xs) && !HasId(xs, a.id)
    ensures UniqueIds([a] + xs)
  {
  }

  /** The tail of a list with unique ids has unique ids, none of them the head's. */
  lemma TailUnique(xs: seq<Appointment>)
    requires UniqueIds(xs) && xs != []
    ensures UniqueIds(xs[1..]) && !HasId(xs[1..], xs[0].id)
  {
  }

  /** Deleting never introduces a duplicate id. */
  lemma {:induction false} WithoutKeepsUnique(xs: seq<Appointment>, k: Id)
    requires UniqueIds(xs)
    ensures UniqueIds(Without(xs, k))
  {
    if xs != [] {
      var tail := xs[1..];
      TailUnique(xs);
      WithoutKeepsUnique(tail, k);
      if xs[0].id != k {
        var r := Without(tail, k);
        assert !HasId(r, xs[0].id) by {
          forall i | 0 <= i < |r| ensures r[i].id != xs[0].id {
            assert r[i] in tail;
          }
        }
        PrependUnique(xs[0], r);
      }
    }
  }

  /** Adding an entry with a fresh id and then deleting that id restores the list. */
  lemma AddThenDeleteRestores(xs: seq<Appointment>, a: Appointment)
    requires !HasId(xs, a.id)
    ensures Without(xs + [a], a.id) == xs
  {
    WithoutAppend(xs, [a], a.id);
    WithoutAbsent(xs, a.id);
    assert Without([a], a.id) == [];
  }

  /** Deletes of two ids commute. */
  lemma {:induction false} WithoutCommutes(xs: seq<Appointment>, k1: Id, k2: Id)
    ensures Without(Without(xs, k1), k2) == Without(Without(xs, k2), k1)
  {
    if xs != [] {
      WithoutCommutes(xs[1..], k1, k2);
    }
  }
}
