/**
 * Read-only questions put to the two tables: which key the next inserted row gets,
 * looking a row up by key, and listing potties under an optional status filter.
 */
module Queries {
  import opened Wrappers
  import opened Records

  /** A set with no member is the empty set. */
  lemma NoMemberMeansEmpty(keys: set<int>)
    ensures (forall k :: k !in keys) ==> keys == {}
  {
    if forall k :: k !in keys {
      assert forall k :: k in keys <==> k in {};
    }
  }

  /** Every finite, non-empty set of keys has a largest element. */
  lemma {:induction false} MaxExists(keys: set<int>)
    requires keys != {}
    ensures exists top :: top in keys && forall k :: k in keys ==> k <= top
  {
    NoMemberMeansEmpty(keys);
    var x :| x in keys;
    var rest := keys - {x};
    if rest == {} {
      assert keys == {x};
    } else {
      MaxExists(rest);
      var top :| top in rest && forall k :: k in rest ==> k <= top;
      var best := if x <= top then top else x;
      forall k | k in keys ensures k <= best {
        if k != x {
          assert k in rest;
        }
      }
    }
  }

  /**
   * The key an integer primary key column gives the next inserted row: one more than
   * the largest key in the table, or 1 when the table is empty. It is never a key
   * already in use.
   */
  function NextRowId<T>(table: map<int, T>): (id: int)
    ensures table.Keys == {} ==> id == 1
    ensures table.Keys != {} ==> id - 1 in table
    ensures forall k :: k in table ==> k < id
    ensures id !in table
  {
    if table.Keys == {} then 1
    else
      MaxExists(table.Keys);
      var top :| top in table && forall k :: k in table ==> k <= top;
      top + 1
  }

  /** `filter_by(id=…).first_or_404()`: the row stored under `id`, or NotFound. */
  function Find<T>(table: map<int, T>, id: int): (r: Outcome<Stored<T>>)
    ensures r.Ok? <==> id in table
    ensures r.Ok? ==> r.value.id == id && r.value.record == table[id]
    ensures r.Err? ==> r.error == NotFound
  {
    if id in table then Ok(Stored(id, table[id])) else Err(NotFound)
  }

  /**
   * Listing potties. Without a `status` query argument every potty is listed; with a
   * valid one exactly the potties holding that status are (a null status matches no
   * filter); an invalid one is refused. The result is keyed by id, so it promises no
   * order.
   */
  function ListPotties(table: map<int, Potty>, statusArg: Option<string>): (r: Outcome<map<int, Potty>>)
    ensures r.Err? <==> statusArg.Some? && ParseStatus(statusArg.value).None?
    ensures r.Err? ==> r.error == BadRequest
    ensures statusArg.None? ==> r == Ok(table)
    ensures r.Ok? ==> forall k :: k in r.value ==> k in table && r.value[k] == table[k]
    ensures r.Ok? && statusArg.Some? ==>
      forall k :: k in table ==> (k in r.value <==> table[k].status.Some? && StatusName(table[k].status.value) == statusArg.value)
  {
    match ParseOptionalStatus(statusArg)
    case Err(e) => Err(e)
    case Ok(None) => Ok(table)
    case Ok(Some(st)) => Ok(map k | k in table && table[k].status == Some(st) :: table[k])
  }
}
