/**
 * Flirts (likes on a moment): an idempotent create that bumps the moment's
 * `flirt_count`, and a delete whose decrement never drops below zero.
 */
module FlirtService {
  import opened Models
  import Query

  /** The flirt `flirter` already left on `moment`, if any. */
  function FindFlirt(t: Tables, flirter: Id, moment: Id): (r: Option<Id>)
    requires Inv(t)
    ensures r.Some? ==> r.value in t.flirts && t.flirts[r.value] == Flirt(flirter, moment)
    ensures r.None? <==> forall k :: k in t.flirts ==> t.flirts[k] != Flirt(flirter, moment)
  {
    var p := (k: nat) => k in t.flirts && t.flirts[k] == Flirt(flirter, moment);
    var r := Query.First(0, t.clock, p);
    assert forall k :: k in t.flirts ==> (p(k) <==> t.flirts[k] == Flirt(flirter, moment));
    r
  }

  /** `moments` with the count of `m` moved by `delta`, when `m` is present. */
  function Bump(moments: map<Id, Moment>, m: Id, delta: int): (r: map<Id, Moment>)
    ensures r.Keys == moments.Keys
    ensures forall k :: k in moments && k != m ==> r[k] == moments[k]
    ensures m in moments ==> r[m] == moments[m].(flirtCount := moments[m].flirtCount + delta)
  {
    if m in moments then moments[m := moments[m].(flirtCount := moments[m].flirtCount + delta)] else moments
  }

  /**
   * Returns the existing flirt of `flirter` on `moment` untouched; otherwise
   * inserts one and raises the moment's count by exactly one. A flirt on a
   * moment that is not stored breaks the `moment_id` foreign key: the
   * database refuses the insert and nothing is written.
   */
  function CreateFlirt(t: Tables, flirter: Id, moment: Id): (r: Step<Result<Id>>)
    requires Inv(t)
    ensures r.out.Ok? <==> moment in t.moments
    ensures moment !in t.moments ==> r == Step(t, Err(Conflict))
    ensures r.out.Ok? ==> r.out.value in r.db.flirts && r.db.flirts[r.out.value] == Flirt(flirter, moment)
    ensures FindFlirt(t, flirter, moment).Some? ==> r == Step(t, Ok(FindFlirt(t, flirter, moment).value))
    ensures FindFlirt(t, flirter, moment).None? && r.out.Ok? ==>
      && r.out.value !in t.flirts
      && r.db.flirts == t.flirts[r.out.value := Flirt(flirter, moment)]
      && r.db.moments == Bump(t.moments, moment, 1)
      && r.db.moments[moment].flirtCount == t.moments[moment].flirtCount + 1
      && r.db == t.(flirts := r.db.flirts, moments := r.db.moments, clock := t.clock + 1)
  {
    match FindFlirt(t, flirter, moment)
    case Some(k) => Step(t, Ok(k))
    case None =>
      if moment !in t.moments then Step(t, Err(Conflict))
      else
        var t1 := t.(flirts := t.flirts[t.clock := Flirt(flirter, moment)], clock := t.clock + 1);
        Step(t1.(moments := Bump(t.moments, moment, 1)), Ok(t.clock))
  }

  /**
   * Removes an existing flirt and answers true, lowering its moment's count
   * by one only when that count is positive; an unknown id answers false
   * and changes nothing.
   */
  function DeleteFlirt(t: Tables, id: Id): (r: Step<bool>)
    requires Inv(t)
    ensures r.out <==> id in t.flirts
    ensures !r.out ==> r.db == t
    ensures r.out ==>
      var m := t.flirts[id].moment;
      && r.db.flirts == t.flirts - {id}
      && r.db.moments == (if m in t.moments && t.moments[m].flirtCount > 0 then Bump(t.moments, m, -1) else t.moments)
      && r.db == t.(flirts := r.db.flirts, moments := r.db.moments)
  {
    if id !in t.flirts then Step(t, false)
    else
      var m := t.flirts[id].moment;
      var moments := if m in t.moments && t.moments[m].flirtCount > 0 then Bump(t.moments, m, -1) else t.moments;
      Step(t.(moments := moments, flirts := t.flirts - {id}), true)
  }

  lemma CreateFlirtKeepsInv(t: Tables, flirter: Id, moment: Id)
    requires Inv(t)
    ensures Inv(CreateFlirt(t, flirter, moment).db)
  {
    if FindFlirt(t, flirter, moment).None? && moment in t.moments {
      var r := CreateFlirt(t, flirter, moment).db;
      var f := Flirt(flirter, moment);
      assert r == t.(flirts := t.flirts[t.clock := f], moments := Bump(t.moments, moment, 1), clock := t.clock + 1);
      assert FlirtsUnique(r.flirts);
      LinksAfterWrite(t.flirts, t.moments, t.clock, f, moment, 1);
      IssuedInsert(t.flirts, t.clock, f);
      IssuedLater(t.moments, t.clock, t.clock + 1);
      IssuedLater(t.configs, t.clock, t.clock + 1);
      IssuedLater(t.connections, t.clock, t.clock + 1);
      IssuedLater(t.transactions, t.clock, t.clock + 1);
      IssuedLater(t.earnings, t.clock, t.clock + 1);
      IssuedLater(t.messages, t.clock, t.clock + 1);
    }
  }

  lemma DeleteFlirtKeepsInv(t: Tables, id: Id)
    requires Inv(t)
    ensures Inv(DeleteFlirt(t, id).db)
  {
  }

  /** Flirting again with the same moment returns the same answer and writes nothing. */
  lemma {:induction false} CreateFlirtIsIdempotent(t: Tables, flirter: Id, moment: Id)
    requires Inv(t)
    ensures var first := CreateFlirt(t, flirter, moment);
            Inv(first.db) && CreateFlirt(first.db, flirter, moment) == first
  {
    CreateFlirtKeepsInv(t, flirter, moment);
    if FindFlirt(t, flirter, moment).None? {
      NewFlirtIsFoundAgain(t, flirter, moment);
    } else {
      CreateFlirtReturnsExisting(t, flirter, moment);
    }
  }

  lemma {:induction false} NewFlirtIsFoundAgain(t: Tables, flirter: Id, moment: Id)
    requires Inv(t) && FindFlirt(t, flirter, moment).None?
    ensures var first := CreateFlirt(t, flirter, moment);
            Inv(first.db) && CreateFlirt(first.db, flirter, moment) == first
  {
    var first := CreateFlirt(t, flirter, moment);
    FoundAfterCreate(t, flirter, moment);
    if first.out.Ok? {
      CreateFlirtReturnsExisting(first.db, flirter, moment);
    }
  }

  lemma {:induction false} CreateFlirtReturnsExisting(t: Tables, flirter: Id, moment: Id)
    requires Inv(t) && FindFlirt(t, flirter, moment).Some?
    ensures CreateFlirt(t, flirter, moment) == Step(t, Ok(FindFlirt(t, flirter, moment).value))
  {
  }

  /** A flirt just created is the one the lookup finds afterwards. */
  lemma {:induction false} FoundAfterCreate(t: Tables, flirter: Id, moment: Id)
    requires Inv(t) && FindFlirt(t, flirter, moment).None?
    ensures var first := CreateFlirt(t, flirter, moment);
            Inv(first.db) && (first.out.Ok? ==> FindFlirt(first.db, flirter, moment) == Some(first.out.value))
  {
    CreateFlirtKeepsInv(t, flirter, moment);
  }

  /** Deleting a flirt just created gives back the tables as they were, counts included. */
  lemma {:induction false} DeleteUndoesCreate(t: Tables, flirter: Id, moment: Id)
    requires Inv(t)
    requires FindFlirt(t, flirter, moment).None?
    ensures var made := CreateFlirt(t, flirter, moment);
            Inv(made.db) && (made.out.Ok? ==> DeleteFlirt(made.db, made.out.value) == Step(t.(clock := t.clock + 1), true))
  {
    var made := CreateFlirt(t, flirter, moment);
    CreateFlirtKeepsInv(t, flirter, moment);
    if made.out.Ok? {
      InsertThenRemove(t.flirts, t.moments, t.clock, Flirt(flirter, moment));
    }
  }

  /** A flirt inserted and then removed, with its count raised and then lowered, leaves both maps as they were. */
  lemma InsertThenRemove(fs: map<Id, Flirt>, ms: map<Id, Moment>, k: Id, f: Flirt)
    requires k !in fs && f.moment in ms && ms[f.moment].flirtCount >= 0
    ensures Bump(ms, f.moment, 1)[f.moment].flirtCount > 0
    ensures Bump(Bump(ms, f.moment, 1), f.moment, -1) == ms
    ensures fs[k := f] - {k} == fs
  {
    BumpCancels(ms, f.moment, 1);
  }

  /** Raising a count and lowering it again restores the moments. */
  lemma BumpCancels(moments: map<Id, Moment>, m: Id, delta: int)
    ensures Bump(Bump(moments, m, delta), m, -delta) == moments
  {
    if m in moments {
      assert Bump(Bump(moments, m, delta), m, -delta)[m] == moments[m];
    }
  }

  // ---------------------------------------------------------------------------
  // `flirt_count` agrees with the flirt rows.
  // ---------------------------------------------------------------------------

  /** The flirts left on moment `m`. */
  ghost function FlirtsOn(fs: map<Id, Flirt>, m: Id): set<Id> {
    set k | k in fs && fs[k].moment == m
  }

  /** Each moment's `flirt_count` is the number of flirts on it. */
  ghost predicate CountsAgree(fs: map<Id, Flirt>, ms: map<Id, Moment>) {
    forall m :: m in ms ==> ms[m].flirtCount == |FlirtsOn(fs, m)|
  }


  /** Adding a flirt on a stored moment, or removing one, keeps every flirt on a stored moment. */
  lemma LinksAfterWrite(fs: map<Id, Flirt>, ms: map<Id, Moment>, k: Id, f: Flirt, m: Id, delta: int)
    requires FlirtsLinked(fs, ms) && f.moment in ms
    ensures FlirtsLinked(fs[k := f], Bump(ms, m, delta))
    ensures FlirtsLinked(fs - {k}, Bump(ms, m, delta))
  {
  }

  lemma {:induction false} CountsAfterInsert(fs: map<Id, Flirt>, ms: map<Id, Moment>, k: Id, f: Flirt)
    requires CountsAgree(fs, ms) && k !in fs && f.moment in ms
    ensures CountsAgree(fs[k := f], Bump(ms, f.moment, 1))
  {
    var ms' := Bump(ms, f.moment, 1);
    forall m | m in ms'
      ensures ms'[m].flirtCount == |FlirtsOn(fs[k := f], m)|
    {
      if m == f.moment {
        assert FlirtsOn(fs[k := f], m) == FlirtsOn(fs, m) + {k};
      } else {
        assert FlirtsOn(fs[k := f], m) == FlirtsOn(fs, m);
      }
    }
  }

  lemma {:induction false} CountsAfterRemoval(fs: map<Id, Flirt>, ms: map<Id, Moment>, k: Id)
    requires CountsAgree(fs, ms) && k in fs && fs[k].moment in ms
    ensures ms[fs[k].moment].flirtCount > 0
    ensures CountsAgree(fs - {k}, Bump(ms, fs[k].moment, -1))
  {
    var moment := fs[k].moment;
    assert k in FlirtsOn(fs, moment);
    var ms' := Bump(ms, moment, -1);
    forall m | m in ms'
      ensures ms'[m].flirtCount == |FlirtsOn(fs - {k}, m)|
    {
      if m == moment {
        assert FlirtsOn(fs - {k}, m) == FlirtsOn(fs, m) - {k};
      } else {
        assert FlirtsOn(fs - {k}, m) == FlirtsOn(fs, m);
      }
    }
  }

  /** Creating a flirt keeps every count equal to its number of flirts. */
  lemma {:induction false} CreateFlirtKeepsCounts(t: Tables, flirter: Id, moment: Id)
    requires Inv(t) && CountsAgree(t.flirts, t.moments)
    ensures CountsAgree(CreateFlirt(t, flirter, moment).db.flirts, CreateFlirt(t, flirter, moment).db.moments)
  {
    if FindFlirt(t, flirter, moment).None? && moment in t.moments {
      CountsAfterInsert(t.flirts, t.moments, t.clock, Flirt(flirter, moment));
    }
  }

  /**
   * With counts matching, a delete always finds a positive count to lower,
   * so the clamp at zero never bites and every count stays exact.
   */
  lemma {:induction false} DeleteFlirtKeepsCounts(t: Tables, id: Id)
    requires Inv(t) && CountsAgree(t.flirts, t.moments)
    ensures id in t.flirts ==> t.moments[t.flirts[id].moment].flirtCount > 0
    ensures CountsAgree(DeleteFlirt(t, id).db.flirts, DeleteFlirt(t, id).db.moments)
  {
    if id in t.flirts {
      CountsAfterRemoval(t.flirts, t.moments, id);
    }
  }
}
