/**
 * otw::OtwPC: the out-the-window interface to a PC visual over a network
 * output handler. It calls sendPcData() on the first call of
 * sendOwnshipAndModels() after a copy and then on every fifth call, and it
 * tries to initialise the network once, on the first frameSync() that finds
 * it neither initialised nor failed.
 */
module OtwPc {
  import opened Common

  /** A network output handler (base::NetHandler); only its presence matters here. */
  datatype NetHandler = NetHandler(id: nat)

  /** The frame-counter reload value: sendPcData() every 5th frame. */
  const SendPeriod: int := 5

  /** One sendOwnshipAndModels(): the new counter and whether sendPcData() is called. */
  function SendStep(scnt: int): (r: (int, bool))
    ensures r.1 <==> scnt <= 1
    ensures r.0 == if r.1 then SendPeriod else scnt - 1
  {
    var c := scnt - 1;
    if c <= 0 then (SendPeriod, true) else (c, false)
  }

  /** The number of sendPcData() calls made by `k` calls, starting from counter `scnt`. */
  function Sends(scnt: int, k: nat): nat
    decreases k
  {
    if k == 0 then 0
    else (if SendStep(scnt).1 then 1 else 0) + Sends(SendStep(scnt).0, k - 1)
  }

  function Max(a: int, b: int): int {
    if a < b then b else a
  }

  /**
   * From a counter `scnt` of at most 5, the first sendPcData() call comes
   * on call max(scnt, 1) and then one on every fifth call.
   */
  lemma {:induction false} SendCount(scnt: int, k: nat)
    requires scnt <= SendPeriod
    ensures Sends(scnt, k) == (k + SendPeriod - Max(scnt, 1)) / SendPeriod
    decreases k
  {
    if k > 0 {
      SendCount(SendStep(scnt).0, k - 1);
    }
  }

  /**
   * After copyData() (counter 0), `k` calls make (k + 4) / 5 sendPcData()
   * calls, and call number `k` makes one exactly when k - 1 is a multiple of 5: the
   * first call, the sixth, the eleventh, ...
   */
  lemma SendsOnFirstCallThenEveryFifth(k: nat)
    requires k >= 1
    ensures Sends(0, k) == (k + 4) / 5
    ensures Sends(0, k) - Sends(0, k - 1) == if (k - 1) % 5 == 0 then 1 else 0
  {
    SendCount(0, k);
    SendCount(0, k - 1);
  }

  /** frameSync(): the new (netInit, netInitFail), given whether initNetwork() succeeds. */
  function FrameSyncStep(netInit: bool, netInitFail: bool, initOk: bool): (r: (bool, bool))
    ensures !netInit && !netInitFail ==> r == (initOk, !initOk)
    ensures netInit || netInitFail ==> r == (netInit, netInitFail)
  {
    if !netInit && !netInitFail then
      if initOk then (true, false) else (false, true)
    else (netInit, netInitFail)
  }

  /** The flags after one frameSync() per element of `oks` (the initNetwork() outcome it would see). */
  function FrameSyncs(netInit: bool, netInitFail: bool, oks: seq<bool>): (bool, bool)
    decreases |oks|
  {
    if oks == [] then (netInit, netInitFail)
    else
      var r := FrameSyncStep(netInit, netInitFail, oks[0]);
      FrameSyncs(r.0, r.1, oks[1..])
  }

  /**
   * Starting from fresh flags, the first frameSync() decides the outcome
   * and none of the later ones attempts the initialisation again: exactly
   * one of the two flags is set, and it is the first attempt's outcome.
   */
  lemma {:induction false} SettledAfterFirstAttempt(oks: seq<bool>)
    requires |oks| >= 1
    ensures FrameSyncs(false, false, oks) == (oks[0], !oks[0])
  {
    var r := FrameSyncStep(false, false, oks[0]);
    StaysSettled(r.0, r.1, oks[1..]);
  }

  lemma {:induction false} StaysSettled(netInit: bool, netInitFail: bool, oks: seq<bool>)
    requires netInit || netInitFail
    ensures FrameSyncs(netInit, netInitFail, oks) == (netInit, netInitFail)
    decreases |oks|
  {
    if oks != [] {
      StaysSettled(netInit, netInitFail, oks[1..]);
    }
  }

  class OtwPC {
    var netOutput: Option<NetHandler>
    var netInit: bool
    var netInitFail: bool
    var scnt: int
    /** How many times sendPcData() has been called. */
    var sent: nat
    var maxRange: real
    var maxModels: nat
    var maxElevations: nat

    /**
     * OtwPC(): no output handler, and no range, models or elevations. The
     * counter and the two flags start at the header's initial values,
     * which are parameters here.
     */
    constructor (scnt0: int, netInit0: bool, netInitFail0: bool)
      ensures netOutput == None && maxRange == 0.0 && maxModels == 0 && maxElevations == 0
      ensures scnt == scnt0 && netInit == netInit0 && netInitFail == netInitFail0 && sent == 0
    {
      netOutput := None;
      netInit, netInitFail, scnt := netInit0, netInitFail0, scnt0;
      sent := 0;
      maxRange, maxModels, maxElevations := 0.0, 0, 0;
    }

    /**
     * copyData(org, cc): the copy has no handler and a zero counter and
     * keeps the original's two flags. The range, model and elevation limits
     * belong to the base class, whose copyData(org) runs first; the values
     * it leaves are `range0`, `models0` and `elevations0`. For a copy
     * constructor the limits are then reset to zero.
     */
    method CopyData(orgNetInit: bool, orgNetInitFail: bool, cc: bool,
                    range0: real, models0: nat, elevations0: nat)
      modifies this`netOutput, this`netInit, this`netInitFail, this`scnt,
               this`maxRange, this`maxModels, this`maxElevations
      ensures netOutput == None && scnt == 0
      ensures netInit == orgNetInit && netInitFail == orgNetInitFail
      ensures cc ==> maxRange == 0.0 && maxModels == 0 && maxElevations == 0
      ensures !cc ==> maxRange == range0 && maxModels == models0 && maxElevations == elevations0
    {
      maxRange, maxModels, maxElevations := range0, models0, elevations0;
      if cc {
        maxRange, maxModels, maxElevations := 0.0, 0, 0;
      }
      netOutput := None;
      netInit := orgNetInit;
      netInitFail := orgNetInitFail;
      scnt := 0;
    }

    /** deleteData(): no handler, and neither flag set. */
    method DeleteData()
      modifies this`netOutput, this`netInit, this`netInitFail
      ensures netOutput == None && !netInit && !netInitFail
    {
      netOutput := None;
      netInit := false;
      netInitFail := false;
    }

    /** sendOwnshipAndModels(): count down, and call sendPcData() when the counter runs out. */
    method SendOwnshipAndModels()
      modifies this`scnt, this`sent
      ensures scnt == SendStep(old(scnt)).0
      ensures sent == old(sent) + if SendStep(old(scnt)).1 then 1 else 0
    {
      scnt := scnt - 1;
      if scnt <= 0 {
        sent := sent + 1;
        scnt := SendPeriod;
      }
    }

    /**
     * initNetwork(): fails only for a missing output handler; the handler's
     * own initialisation result is not consulted.
     */
    method InitNetwork() returns (ok: bool)
      ensures ok <==> netOutput.Some?
    {
      ok := true;
      if netOutput.None? {
        ok := false;
      }
    }

    /** frameSync(): one initialisation attempt while neither flag is set. */
    method FrameSync()
      modifies this`netInit, this`netInitFail
      ensures (netInit, netInitFail) == FrameSyncStep(old(netInit), old(netInitFail), netOutput.Some?)
    {
      if !netInit && !netInitFail {
        var ok := InitNetwork();
        if ok {
          netInit := true;
          netInitFail := false;
        } else {
          netInit := false;
          netInitFail := true;
        }
      }
    }

    /** setSlotNetOutput(): any handler, or none, is accepted. */
    method SetSlotNetOutput(msg: Option<NetHandler>) returns (ok: bool)
      modifies this`netOutput
      ensures ok && netOutput == msg
    {
      netOutput := msg;
      ok := true;
    }
  }
}
