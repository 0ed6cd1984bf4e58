/**
 * The shared score record: the browser-local "gameScores" entry that every
 * mini-game writes one field of and the results page reads in full.
 */
module ScoreStore {
  import opened JsMath

  /** The five optional fields of the record, one per mini-game. */
  datatype Field = Reaction | Target | Memory | Tracking | Multitask

  /** A parsed record: a field is present exactly when its key is in the map. */
  type Record = map<Field, int>

  /** The object spread `{ ...scores, f: v }`: field f becomes v, every other field is kept. */
  function Put(rec: Record, f: Field, v: int): (r: Record)
    ensures f in r && r[f] == v
    ensures r.Keys == rec.Keys + {f}
    ensures forall g :: g in rec && g != f ==> r[g] == rec[g]
  {
    rec[f := v]
  }

  /** The storage entry itself, which may be absent. */
  class Store {
    var item: Option<Record>

    /** A browser that has never stored a score. */
    constructor ()
      ensures item == None
    {
      item := None;
    }

    /** `JSON.parse(localStorage.getItem("gameScores") || "{}")`: an absent entry reads as `{}`. */
    function Load(): (r: Record)
      reads this
      ensures item == None ==> r == map[]
      ensures item.Some? ==> r == item.value
    {
      match item
      case None => map[]
      case Some(rec) => rec
    }

    /** The read-modify-write every mini-game does when it ends: one field changes. */
    method Save(f: Field, v: int)
      modifies this
      ensures item == Some(Put(old(Load()), f, v))
      ensures Load().Keys == old(Load()).Keys + {f}
      ensures forall g :: g in old(Load()) && g != f ==> Load()[g] == old(Load())[g]
    {
      item := Some(Put(Load(), f, v));
    }

    /** `resetTests`: `localStorage.removeItem("gameScores")` drops the whole record. */
    method Remove()
      modifies this
      ensures item == None && Load() == map[]
    {
      item := None;
    }
  }
}
