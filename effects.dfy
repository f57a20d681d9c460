/**
 * models::Effects: a generic unguided store (chaff, flare, decoy). While it
 * is ACTIVE its time of flight grows by each frame's dt, and it detonates,
 * with no detonation result, once the time of flight reaches its maximum.
 * Hitting the ground or another player also ends in DETONATED.
 */
module PlayerEffects {

  /** Player modes: the two this file sets or tests, and every other one. */
  datatype Mode = Active | Detonated | OtherMode(code: nat)

  /** Detonation results: DETONATE_NONE, and every other one. */
  datatype Detonation = DetonateNone | OtherResult(code: nat)

  /** The state updateTOF() and the notifications touch. */
  datatype Flight = Flight(mode: Mode, tof: real, maxTof: real, result: Detonation)

  /** updateTOF(dt). */
  function UpdateTof(f: Flight, dt: real): (r: Flight)
    ensures f.mode != Active ==> r == f
    ensures f.mode == Active ==> r.tof == f.tof + dt && r.maxTof == f.maxTof
    ensures f.mode == Active && f.tof + dt >= f.maxTof ==> r.mode == Detonated && r.result == DetonateNone
    ensures f.mode == Active && f.tof + dt < f.maxTof ==> r.mode == Active && r.result == f.result
  {
    if f.mode == Active then
      var g := f.(tof := f.tof + dt);
      if g.tof >= g.maxTof then g.(mode := Detonated, result := DetonateNone) else g
    else f
  }

  /** The state after one updateTOF() per element of `dts`. */
  function Fly(f: Flight, dts: seq<real>): Flight
    decreases |dts|
  {
    if dts == [] then f else Fly(UpdateTof(f, dts[0]), dts[1..])
  }

  function Sum(dts: seq<real>): real
    decreases |dts|
  {
    if dts == [] then 0.0 else dts[0] + Sum(dts[1..])
  }

  /** A store that has left ACTIVE is no longer touched by updateTOF(). */
  lemma {:induction false} InactiveIsFrozen(f: Flight, dts: seq<real>)
    requires f.mode != Active
    ensures Fly(f, dts) == f
    decreases |dts|
  {
    if dts != [] {
      InactiveIsFrozen(UpdateTof(f, dts[0]), dts[1..]);
    }
  }

  /**
   * An ACTIVE store whose running time of flight stays below its maximum is
   * still ACTIVE after the frames, and its time of flight is the old one
   * plus the sum of the frames' dt.
   */
  lemma {:induction false} ActiveAccumulates(f: Flight, dts: seq<real>)
    requires f.mode == Active
    requires forall k :: 0 < k <= |dts| ==> f.tof + Sum(dts[..k]) < f.maxTof
    ensures Fly(f, dts) == f.(tof := f.tof + Sum(dts))
    decreases |dts|
  {
    if dts != [] {
      assert dts[..1] == [dts[0]];
      assert Sum([dts[0]]) == dts[0] + Sum([]);
      var g := UpdateTof(f, dts[0]);
      forall k | 0 < k <= |dts[1..]|
        ensures g.tof + Sum(dts[1..][..k]) < g.maxTof
      {
        assert dts[..k + 1][0] == dts[0] && dts[..k + 1][1..] == dts[1..][..k];
        assert f.tof + Sum(dts[..k + 1]) < f.maxTof;
      }
      ActiveAccumulates(g, dts[1..]);
      assert dts == [dts[0]] + dts[1..];
    }
  }

  /**
   * The frame on which the running time of flight first reaches the maximum
   * detonates the store; later frames leave it as it is.
   */
  lemma DetonatesOnFirstFrameAtMax(f: Flight, dts: seq<real>, k: nat)
    requires f.mode == Active
    requires 0 < k <= |dts|
    requires f.tof + Sum(dts[..k]) >= f.maxTof
    requires forall j :: 0 < j < k ==> f.tof + Sum(dts[..j]) < f.maxTof
    ensures Fly(f, dts).mode == Detonated && Fly(f, dts).result == DetonateNone
    ensures Fly(f, dts).tof == f.tof + Sum(dts[..k])
  {
    PrefixFly(f, dts, k - 1);
    var before := dts[..k - 1];
    forall j | 0 < j <= |before| ensures f.tof + Sum(before[..j]) < f.maxTof {
      assert before[..j] == dts[..j];
    }
    ActiveAccumulates(f, before);
    var g := Fly(f, before);
    SumSnoc(before, dts[k - 1]);
    assert dts[..k] == before + [dts[k - 1]];
    var h := UpdateTof(g, dts[k - 1]);
    assert h.mode == Detonated;
    PrefixFly(f, dts, k);
    InactiveIsFrozen(h, dts[k..]);
    assert Fly(f, dts[..k]) == h by {
      assert dts[..k][..k - 1] == before;
      PrefixFly(f, dts[..k], k - 1);
      assert dts[..k][k - 1..] == [dts[k - 1]];
    }
    assert dts[..k] + dts[k..] == dts;
  }

  /** Flying a sequence is flying its first `k` frames, then the rest. */
  lemma {:induction false} PrefixFly(f: Flight, dts: seq<real>, k: nat)
    requires k <= |dts|
    ensures Fly(f, dts) == Fly(Fly(f, dts[..k]), dts[k..])
    decreases k
  {
    if k > 0 {
      assert dts[..k][0] == dts[0] && dts[..k][1..] == dts[1..][..k - 1];
      assert dts[k..] == dts[1..][k - 1..];
      PrefixFly(UpdateTof(f, dts[0]), dts[1..], k - 1);
    }
  }

  lemma {:induction false} SumSnoc(s: seq<real>, x: real)
    ensures Sum(s + [x]) == Sum(s) + x
    decreases |s|
  {
    if s != [] {
      assert (s + [x])[1..] == s[1..] + [x];
      SumSnoc(s[1..], x);
    } else {
      assert s + [x] == [x];
    }
  }

  class Effects {
    var mode: Mode
    var tof: real
    var maxTof: real
    var lethalRange: real
    var maxBurstRng: real
    var tsg: real
    var sobt: real
    var eobt: real
    var result: Detonation
    var dragIndex: real

    function FlightState(): Flight
      reads this
    {
      Flight(mode, tof, maxTof, result)
    }

    /**
     * Effects(): unguided and ballistic by default. The mode, time of flight,
     * detonation result and drag index start at the values the base classes
     * give them, which are parameters here.
     */
    constructor (mode0: Mode, tof0: real, result0: Detonation, dragIndex0: real)
      ensures maxTof == 10.0 && lethalRange == 50.0 && maxBurstRng == 500.0
      ensures tsg == 9999.0 && sobt == 9999.0 && eobt == 0.0
      ensures mode == mode0 && tof == tof0 && result == result0 && dragIndex == dragIndex0
    {
      mode, tof, result, dragIndex := mode0, tof0, result0, dragIndex0;
      maxTof := 10.0;
      lethalRange := 50.0;
      maxBurstRng := 500.0;
      tsg := 9999.0;
      sobt := 9999.0;
      eobt := 0.0;
    }

    method UpdateTOF(dt: real)
      modifies this`mode, this`tof, this`result
      ensures FlightState() == UpdateTof(old(FlightState()), dt)
    {
      if mode == Active {
        tof := tof + dt;
        if tof >= maxTof {
          mode := Detonated;
          result := DetonateNone;
          return;
        }
      }
    }

    /**
     * crashNotification(): the result of the base class's kill notification
     * (`killed`) is returned; the store ends DETONATED with no result.
     */
    method CrashNotification(killed: bool) returns (ok: bool)
      modifies this`mode, this`result
      ensures ok == killed
      ensures mode == Detonated && result == DetonateNone
    {
      ok := killed;
      result := DetonateNone;
      mode := Detonated;
    }

    /** collisionNotification(p): as crashNotification(), after a collision. */
    method CollisionNotification(killed: bool) returns (ok: bool)
      modifies this`mode, this`result
      ensures ok == killed
      ensures mode == Detonated && result == DetonateNone
    {
      ok := killed;
      mode := Detonated;
      result := DetonateNone;
    }

    /** setSlotDragIndex(): the number's value becomes the drag index. */
    method SetSlotDragIndex(p: real) returns (ok: bool)
      modifies this`dragIndex
      ensures ok && dragIndex == p
    {
      dragIndex := p;
      ok := true;
    }
  }
}
