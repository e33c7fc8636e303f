/**
 The wait before a dispatch: each attempt gate's answer becomes a wait
 (Region.prototype._getAttemptPromise), the application gates' waits are
 combined by maximum, then with the method gate's wait, and the item's retry
 delay is added on top (Region.prototype._process).
 */
module Wait {
  import opened Js
  import opened Limits

  /** An attempt gate's answer: the store failed, or the milliseconds left until
      the action would have been allowed (0 when it is allowed now). Every
      consultation records an attempt in the gate's bucket. */
  datatype GateAnswer = GateError | TimeLeft(ms: int)

  /** `_getAttemptPromise`: an error backs off 500 ms, a non-zero time left is
      waited out, otherwise there is nothing to wait. */
  function AttemptWait(a: GateAnswer): (r: int)
    ensures a.GateError? ==> r == 500
    ensures r != 0 <==> a.GateError? || a.ms != 0
    ensures a.TimeLeft? ==> r == a.ms
  {
    match a
    case GateError => 500
    case TimeLeft(ms) => if ms != 0 then ms else 0
  }

  /** The waits the given gates ask for, in order. */
  function Waits(limiters: seq<Limiter>, gate: Limiter -> GateAnswer): (ws: seq<int>)
    ensures |ws| == |limiters|
    ensures forall i :: 0 <= i < |limiters| ==> ws[i] == AttemptWait(gate(limiters[i]))
  {
    seq(|limiters|, i requires 0 <= i < |limiters| => AttemptWait(gate(limiters[i])))
  }

  /** The largest of 0 and the given waits. */
  function MaxWait(ws: seq<int>): int {
    if ws == [] then 0
    else
      var m := MaxWait(ws[..|ws| - 1]);
      if ws[|ws| - 1] > m then ws[|ws| - 1] else m
  }

  /** MaxWait is the least upper bound of 0 and the waits: it bounds them all
      and is 0 or one of them. */
  lemma {:induction false} MaxWaitIsLeastUpperBound(ws: seq<int>)
    ensures MaxWait(ws) >= 0
    ensures forall i :: 0 <= i < |ws| ==> ws[i] <= MaxWait(ws)
    ensures MaxWait(ws) == 0 || MaxWait(ws) in ws
  {
    if ws != [] {
      var init := ws[..|ws| - 1];
      MaxWaitIsLeastUpperBound(init);
      assert forall i :: 0 <= i < |init| ==> ws[i] == init[i];
      assert MaxWait(init) in init ==> MaxWait(init) in ws;
    }
  }

  /** The `forEach` over the application limiters: the running maximum of their
      waits, starting from 0. */
  method AppTimeLeft(limiters: seq<Limiter>, gate: Limiter -> GateAnswer) returns (t: int)
    ensures t == MaxWait(Waits(limiters, gate))
    ensures t >= 0
    ensures forall i :: 0 <= i < |limiters| ==> AttemptWait(gate(limiters[i])) <= t
  {
    t := 0;
    for i := 0 to |limiters|
      invariant t == MaxWait(Waits(limiters[..i], gate))
    {
      assert Waits(limiters[..i + 1], gate)[..i] == Waits(limiters[..i], gate);
      var w := AttemptWait(gate(limiters[i]));
      if w > t {
        t := w;
      }
    }
    assert limiters[..|limiters|] == limiters;
    MaxWaitIsLeastUpperBound(Waits(limiters, gate));
  }

  /** `appTimeLeft > methodTimeLeft ? appTimeLeft : methodTimeLeft`. */
  function Worst(app: int, forMethod: int): int {
    if app > forMethod then app else forMethod
  }

  /** The snooze before a dispatch: taken only when the limiters or the retry
      delay ask for one, and then for their sum. */
  function Snooze(timeLeft: int, retryMS: Num): Option<Num> {
    if timeLeft > 0 || Positive(retryMS) then Some(Plus(retryMS, timeLeft)) else None
  }

  /** The snooze for a dispatch given the application waits, the method wait and
      the item's retry delay. */
  function Delay(appWaits: seq<int>, methodWait: int, retryMS: Num): Option<Num> {
    Snooze(Worst(MaxWait(appWaits), methodWait), retryMS)
  }

  /** The worst case governs: no snooze iff no gate asks to wait and there is no
      positive retry delay; a snooze lasts the retry delay plus the largest wait
      any gate asked for (or NaN when the delay is NaN). */
  lemma DelayIsWorstCase(appWaits: seq<int>, methodWait: int, retryMS: Num)
    ensures Delay(appWaits, methodWait, retryMS).None? <==>
      (forall i :: 0 <= i < |appWaits| ==> appWaits[i] <= 0) && methodWait <= 0 && !Positive(retryMS)
    ensures retryMS.NaN? && Delay(appWaits, methodWait, retryMS).Some? ==>
      Delay(appWaits, methodWait, retryMS).value.NaN?
    ensures retryMS.Int? && Delay(appWaits, methodWait, retryMS).Some? ==>
      var w := Delay(appWaits, methodWait, retryMS).value.v - retryMS.v;
      && w >= 0 && w >= methodWait
      && (forall i :: 0 <= i < |appWaits| ==> appWaits[i] <= w)
      && (w == 0 || w == methodWait || w in appWaits)
  {
    MaxWaitIsLeastUpperBound(appWaits);
  }
}
