/**
 * What a progress listener of an upload request is told: a state and the
 * number of bytes uploaded so far. A request without a listener reports
 * nothing. The order properties below hold for both request versions.
 */
module ProgressListener {
  import opened Wrappers

  /** The states a progress listener is told about. */
  datatype State = Initiation | InProgress | Complete

  datatype ProgressEvent = ProgressEvent(state: State, uploaded: nat)

  /** What the listener receives of `events`: all of them if one is set, none otherwise. */
  function Reported(listener: bool, events: seq<ProgressEvent>): seq<ProgressEvent> {
    if listener then events else []
  }

  lemma ReportedConcat(listener: bool, a: seq<ProgressEvent>, b: seq<ProgressEvent>)
    ensures Reported(listener, a + b) == Reported(listener, a) + Reported(listener, b)
  {
  }

  lemma ReportedAppend2(listener: bool, before: seq<ProgressEvent>, shown: seq<ProgressEvent>, a: seq<ProgressEvent>)
    ensures before + Reported(listener, shown) + Reported(listener, a) == before + Reported(listener, shown + a)
  {
    if listener {
      ConcatAssoc(before, shown, a);
    }
  }

  lemma ReportedAppend(listener: bool, before: seq<ProgressEvent>, shown: seq<ProgressEvent>,
                       a: seq<ProgressEvent>, b: seq<ProgressEvent>)
    ensures before + Reported(listener, shown) + Reported(listener, a) + Reported(listener, b)
         == before + Reported(listener, shown + a + b)
  {
    if listener {
      assert before + shown + a + b == before + (shown + a + b);
    }
  }

  // ---- order of events ----

  /** Every progress offset of `events` lies between `low` and `high`. */
  predicate Within(events: seq<ProgressEvent>, low: nat, high: nat) {
    forall i | 0 <= i < |events| :: low <= events[i].uploaded <= high
  }

  /** The reported offsets never decrease. */
  predicate NonDecreasing(events: seq<ProgressEvent>) {
    forall i, j | 0 <= i < j < |events| :: events[i].uploaded <= events[j].uploaded
  }

  /** Only the listed state occurs in `events`. */
  predicate AllIn(events: seq<ProgressEvent>, state: State) {
    forall i | 0 <= i < |events| :: events[i].state == state
  }

  /** Progress reports only, in order, each between `low` and `high`. */
  predicate Reports(events: seq<ProgressEvent>, low: nat, high: nat) {
    AllIn(events, InProgress) && NonDecreasing(events) && Within(events, low, high)
  }

  lemma NonDecreasingConcat(a: seq<ProgressEvent>, b: seq<ProgressEvent>, mid: nat)
    requires NonDecreasing(a) && NonDecreasing(b)
    requires forall i | 0 <= i < |a| :: a[i].uploaded <= mid
    requires forall i | 0 <= i < |b| :: mid <= b[i].uploaded
    ensures NonDecreasing(a + b)
  {
    forall i, j | 0 <= i < j < |a + b|
      ensures (a + b)[i].uploaded <= (a + b)[j].uploaded
    {
      if j < |a| {
        assert (a + b)[i] == a[i] && (a + b)[j] == a[j];
      } else if i >= |a| {
        assert (a + b)[i] == b[i - |a|] && (a + b)[j] == b[j - |a|];
      } else {
        assert (a + b)[i] == a[i] && (a + b)[j] == b[j - |a|];
      }
    }
  }

  /** Joining two orderly stretches of progress, the first ending where the second begins. */
  lemma ProgressConcat(a: seq<ProgressEvent>, b: seq<ProgressEvent>, low: nat, mid: nat, high: nat)
    requires low <= mid <= high
    requires NonDecreasing(a) && Within(a, low, mid)
    requires NonDecreasing(b) && Within(b, mid, high)
    ensures NonDecreasing(a + b) && Within(a + b, low, high)
  {
    NonDecreasingConcat(a, b, mid);
    forall i | 0 <= i < |a + b|
      ensures low <= (a + b)[i].uploaded <= high
    {
      if i < |a| {
        assert (a + b)[i] == a[i];
      } else {
        assert (a + b)[i] == b[i - |a|];
      }
    }
  }

  lemma AllInConcat(a: seq<ProgressEvent>, b: seq<ProgressEvent>, state: State)
    requires AllIn(a, state) && AllIn(b, state)
    ensures AllIn(a + b, state)
  {
    forall i | 0 <= i < |a + b|
      ensures (a + b)[i].state == state
    {
      if i < |a| {
        assert (a + b)[i] == a[i];
      } else {
        assert (a + b)[i] == b[i - |a|];
      }
    }
  }

  /** The order of the events of a request, from those of its chunk loop. */
  lemma EventsOrder(loop: seq<ProgressEvent>, ok: bool, length: nat)
    requires AllIn(loop, InProgress) && NonDecreasing(loop) && Within(loop, 0, length)
    ensures var events := [ProgressEvent(Initiation, 0)] + loop + (if ok then [ProgressEvent(Complete, length)] else []);
      && |events| > 0 && events[0] == ProgressEvent(Initiation, 0)
      && NonDecreasing(events) && Within(events, 0, length)
      && (forall i | 0 < i < |events| :: events[i].state != Initiation)
      && (forall i | 0 <= i < |events| - 1 :: events[i].state != Complete)
      && (ok <==> events[|events| - 1] == ProgressEvent(Complete, length))
  {
    var init := [ProgressEvent(Initiation, 0)];
    var tail := if ok then [ProgressEvent(Complete, length)] else [];
    var events := init + loop + tail;
    ProgressConcat(init, loop, 0, 0, length);
    ProgressConcat(init + loop, tail, 0, length, length);
    forall i | 0 < i < |events|
      ensures events[i].state != Initiation
      ensures i < |events| - 1 ==> events[i].state != Complete
    {
      if i <= |loop| {
        assert events[i] == loop[i - 1];
      }
    }
    if !ok && |loop| > 0 {
      assert events[|events| - 1] == loop[|loop| - 1];
    }
  }
}
