/**
 * What carries between levels: the kill, death and score counters and the
 * inventory of items picked up (the key and the slow-fall power).  The game
 * keeps one such store; Save is its value and PlayerSave the store itself.
 *
 * Reading or counting up an id the store never registered unboxes a
 * missing map entry, which is a NullPointerException.
 */
module Progress {
  import opened JavaLang
  import Bodies

  const KILLCOUNT: int := 0
  const DEATHCOUNT: int := 1
  const SCORE: int := 2

  /** The counters by id and the owned flag of each item (the ACTION_* ids). */
  datatype Save = Save(status: map<int, int>, inventory: map<int, bool>)

  /** The ids the store is created with: the three counters and the two items. */
  predicate Registered(v: Save) {
    KILLCOUNT in v.status && DEATHCOUNT in v.status && SCORE in v.status &&
    Bodies.ACTION_KEY in v.inventory && Bodies.ACTION_SLOWFALL in v.inventory
  }

  /** The counter `st`, if registered. */
  function Get(v: Save, st: int): (r: Result<int>)
    ensures r.Ok? <==> st in v.status
    ensures r.Ok? ==> r.value == v.status[st]
    ensures r.Throw? ==> r.ex == NullPointer
  {
    if st in v.status then Ok(v.status[st]) else Throw(NullPointer)
  }

  /** Whether item `i` is owned, if registered. */
  function Has(v: Save, i: int): (r: Result<bool>)
    ensures r.Ok? <==> i in v.inventory
    ensures r.Ok? ==> r.value == v.inventory[i]
    ensures r.Throw? ==> r.ex == NullPointer
  {
    if i in v.inventory then Ok(v.inventory[i]) else Throw(NullPointer)
  }

  /** init(k, d, s): the three counters, and neither item owned. */
  function Init(k: int, d: int, s: int): (r: Save)
    ensures Get(r, KILLCOUNT) == Ok(k) && Get(r, DEATHCOUNT) == Ok(d) && Get(r, SCORE) == Ok(s)
    ensures r.status.Keys == {KILLCOUNT, DEATHCOUNT, SCORE}
    ensures Has(r, Bodies.ACTION_KEY) == Ok(false) && Has(r, Bodies.ACTION_SLOWFALL) == Ok(false)
    ensures r.inventory.Keys == {Bodies.ACTION_KEY, Bodies.ACTION_SLOWFALL}
    ensures Registered(r)
  {
    Save(map[KILLCOUNT := k, DEATHCOUNT := d, SCORE := s],
         map[Bodies.ACTION_KEY := false, Bodies.ACTION_SLOWFALL := false])
  }

  /** addPoint(st, p): counter `st` goes up by `p` in int arithmetic; nothing else changes. */
  function AddPoints(v: Save, st: int, p: int): (r: Result<Save>)
    ensures r.Ok? <==> st in v.status
    ensures r.Throw? ==> r.ex == NullPointer
    ensures r.Ok? ==> Get(r.value, st) == Ok(Wrap32(v.status[st] + p))
    ensures r.Ok? ==> forall k :: k != st ==> Get(r.value, k) == Get(v, k)
    ensures r.Ok? ==> r.value.inventory == v.inventory
    ensures r.Ok? && Registered(v) ==> Registered(r.value)
  {
    if st in v.status then Ok(v.(status := v.status[st := Wrap32(v.status[st] + p)]))
    else Throw(NullPointer)
  }

  /** addPoint(st): counting one up. */
  function AddPoint(v: Save, st: int): Result<Save> {
    AddPoints(v, st, 1)
  }

  /** reset(): the key is taken away; the counters and the other items stay. */
  function Reset(v: Save): (r: Save)
    ensures Has(r, Bodies.ACTION_KEY) == Ok(false)
    ensures r.status == v.status
    ensures forall i :: i != Bodies.ACTION_KEY ==> Has(r, i) == Has(v, i)
    ensures Registered(v) ==> Registered(r)
  {
    v.(inventory := v.inventory[Bodies.ACTION_KEY := false])
  }

  /** add(i): item `i` is owned from now on; adding an owned item changes nothing. */
  function Add(v: Save, i: int): (r: Save)
    ensures Has(r, i) == Ok(true)
    ensures r.status == v.status
    ensures forall j :: j != i ==> Has(r, j) == Has(v, j)
    ensures Has(v, i) == Ok(true) ==> r == v
    ensures Registered(v) ==> Registered(r)
  {
    v.(inventory := v.inventory[i := true])
  }

  /** Counting one up is adding the single point: the two overloads agree. */
  lemma {:induction false} AddPointIsAddOne(v: Save, st: int)
    requires st in v.status && IsInt32(v.status[st])
    ensures AddPoint(v, st).Ok?
    ensures v.status[st] < INT_MAX ==> Get(AddPoint(v, st).value, st) == Ok(v.status[st] + 1)
    ensures v.status[st] == INT_MAX ==> Get(AddPoint(v, st).value, st) == Ok(INT_MIN)
  {
    var t := v.status[st] + 1;
    if v.status[st] == INT_MAX {
      assert Wrap32(t) == INT_MIN by {
        assert (t - INT_MIN) % TWO_32 == 0;
      }
    }
  }

}

/** The store itself, proved against the values above. */
module PlayerSaves {
  import opened JavaLang
  import Bodies
  import opened Progress

  /** The store (PlayerSave's static maps). */
  class PlayerSave {
    var status: map<int, int>
    var inventory: map<int, bool>

    function Abs(): Save
      reads this
    {
      Save(status, inventory)
    }

    /** A store after init(k, d, s), as the level manager creates it. */
    constructor (k: int, d: int, s: int)
      ensures Abs() == Progress.Init(k, d, s)
    {
      status := map[KILLCOUNT := k, DEATHCOUNT := d, SCORE := s];
      inventory := map[Bodies.ACTION_KEY := false, Bodies.ACTION_SLOWFALL := false];
    }

    /** init(k, d, s): fresh maps with the three counters and no item owned. */
    method Init(k: int, d: int, s: int)
      modifies this
      ensures Abs() == Progress.Init(k, d, s)
    {
      status := map[];
      status := status[KILLCOUNT := k];
      status := status[DEATHCOUNT := d];
      status := status[SCORE := s];
      inventory := map[];
      inventory := inventory[Bodies.ACTION_KEY := false];
      inventory := inventory[Bodies.ACTION_SLOWFALL := false];
    }

    /** get(st). */
    method Get(st: int) returns (r: Result<int>)
      ensures r == Progress.Get(Abs(), st)
    {
      if st in status {
        r := Ok(status[st]);
      } else {
        r := Throw(NullPointer);
      }
    }

    /** has(i). */
    method Has(i: int) returns (r: Result<bool>)
      ensures r == Progress.Has(Abs(), i)
    {
      if i in inventory {
        r := Ok(inventory[i]);
      } else {
        r := Throw(NullPointer);
      }
    }

    /** addPoint(st, p): read, add in int arithmetic, write back. */
    method AddPoints(st: int, p: int) returns (s: Status)
      modifies this
      ensures Applied(old(Abs()), Progress.AddPoints(old(Abs()), st, p), s, Abs())
    {
      if st !in status {
        return Raised(NullPointer);
      }
      var t := status[st];
      t := Wrap32(t + p);
      status := status[st := t];
      s := Done;
    }

    /** addPoint(st): read, increment in int arithmetic, write back. */
    method AddPoint(st: int) returns (s: Status)
      modifies this
      ensures Applied(old(Abs()), Progress.AddPoint(old(Abs()), st), s, Abs())
    {
      if st !in status {
        return Raised(NullPointer);
      }
      var t := status[st];
      t := Wrap32(t + 1);
      status := status[st := t];
      s := Done;
    }

    /** reset(). */
    method Reset()
      modifies this
      ensures Abs() == Progress.Reset(old(Abs()))
    {
      inventory := inventory[Bodies.ACTION_KEY := false];
    }

    /** hardReset(): init(0, 0, 0). */
    method HardReset()
      modifies this
      ensures Abs() == Progress.Init(0, 0, 0)
    {
      Init(0, 0, 0);
    }

    /** add(i). */
    method Add(i: int)
      modifies this
      ensures Abs() == Progress.Add(old(Abs()), i)
    {
      inventory := inventory[i := true];
    }
  }
}
