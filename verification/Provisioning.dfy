/** pcprov's watch loop and the controller's side of its command protocol
    (provisioner/provision.go, provisioner/devices.go, controller/devices.go). */
module Provisioning {
  import opened Backoff
  import opened Ordering
  import opened Text

  const BACKOFF_MIN: int := 30
  const BACKOFF_MAX: int := 600

  datatype Device = Device(serial: string, state: string)

  datatype Status = Unseen | New | WaitingAuth | Provisioning | Provisioned | Failed | Gone

  /** Watch's bookkeeping for one serial; times in seconds. */
  datatype Record = Record(status: Status, provisioned: bool, backoff: int, nextAttempt: int)

  datatype DevicePlan = DevicePlan(attempt: bool, status: Status)

  function NextBackoff(prev: int): int
  {
    if prev < BACKOFF_MIN then BACKOFF_MIN
    else if prev >= BACKOFF_MAX / 2 then BACKOFF_MAX
    else prev * 2
  }

  predicate IsPlaceholderSerial(serial: string)
  {
    var s := ToUpper(TrimSpace(serial));
    s == "0123456789ABCDEF" || s == "UNKNOWN"
  }

  function PlanDevice(rec: Record, duplicate: bool, placeholder: bool, forced: bool, autoProvision: bool, now: int): DevicePlan
  {
    if duplicate || placeholder then DevicePlan(false, Failed)
    else if forced then DevicePlan(true, Provisioning)
    else if rec.provisioned then DevicePlan(false, Provisioned)
    else if autoProvision && now >= rec.nextAttempt then DevicePlan(true, Provisioning)
    else if rec.status == Failed then DevicePlan(false, Failed)
    else DevicePlan(false, New)
  }

  function AfterAttempt(rec: Record, ok: bool, now: int): Record
  {
    if ok then Record(Provisioned, true, 0, 0)
    else
      var b := NextBackoff(rec.backoff);
      Record(Failed, rec.provisioned, b, now + b)
  }

  /** When a device is attempted: never while its serial is ambiguous or junk;
      otherwise on a command, or by itself if it is not provisioned, its wait is
      over and automatic provisioning is on.  A provisioned one is left alone. */
  lemma WhenAttempted(rec: Record, duplicate: bool, placeholder: bool, forced: bool, autoProvision: bool, now: int)
    ensures var p := PlanDevice(rec, duplicate, placeholder, forced, autoProvision, now);
            && (p.attempt <==> !duplicate && !placeholder && (forced || (!rec.provisioned && autoProvision && now >= rec.nextAttempt)))
            && (p.attempt ==> p.status == Provisioning)
            && (!duplicate && !placeholder && !forced && rec.provisioned ==> p.status == Provisioned)
            && (duplicate || placeholder ==> p.status == Failed)
  {
  }

  /** A record after k failed attempts in a row, each made at its time. */
  function AfterFailures(rec: Record, times: seq<int>): Record
  {
    if times == [] then rec else AfterAttempt(AfterFailures(rec, times[..|times| - 1]), false, times[|times| - 1])
  }

  /** k failures in a row wait min(30 * 2^(k-1), 600) seconds, and until then
      only an operator's command attempts the device again. */
  lemma {:induction false} BackoffDoubles(rec: Record, times: seq<int>, autoProvision: bool, now: int)
    requires rec.backoff == 0 && !rec.provisioned && times != []
    ensures var r := AfterFailures(rec, times);
            && r.backoff == Min(Doubled(BACKOFF_MIN, |times| - 1), BACKOFF_MAX) && !r.provisioned
            && r.nextAttempt == times[|times| - 1] + r.backoff
            && (now < r.nextAttempt ==> !PlanDevice(r, false, false, false, autoProvision, now).attempt
                                        && PlanDevice(r, false, false, true, autoProvision, now).attempt)
  {
    var init := times[..|times| - 1];
    if init != [] {
      BackoffDoubles(rec, init, autoProvision, now);
      DoubledIsAtLeast(BACKOFF_MIN, |init| - 1);
    }
  }

  lemma {:induction false} DoubledIsAtLeast(first: nat, k: nat)
    ensures Doubled(first, k) >= first
  {
    if k > 0 { DoubledIsAtLeast(first, k - 1); }
  }

  /** Later attempts: each succeeds or not, at its time. */
  function AfterAttempts(rec: Record, later: seq<(bool, int)>): Record
  {
    if later == [] then rec
    else
      var (ok, at) := later[|later| - 1];
      AfterAttempt(AfterAttempts(rec, later[..|later| - 1]), ok, at)
  }

  /** A device that was provisioned once is left alone for good: whatever becomes
      of later attempts, only a command makes another one. */
  lemma {:induction false} ProvisionedForGood(rec: Record, at: int, later: seq<(bool, int)>, autoProvision: bool, now: int)
    ensures var r := AfterAttempts(AfterAttempt(rec, true, at), later);
            r.provisioned && !PlanDevice(r, false, false, false, autoProvision, now).attempt
            && PlanDevice(r, false, false, true, autoProvision, now).attempt
  {
    if later != [] { ProvisionedForGood(rec, at, later[..|later| - 1], autoProvision, now); }
  }

  // ----- one poll of the attached devices -----------------------------------------

  ghost predicate Duplicate(devs: seq<Device>, serial: string)
  {
    exists i, j :: 0 <= i < j < |devs| && devs[i].serial == serial && devs[j].serial == serial
  }

  /** A serial is a duplicate exactly when two attached devices report it. */
  method DuplicateSerials(devs: seq<Device>) returns (dup: set<string>)
    ensures forall s :: s in dup <==> Duplicate(devs, s)
  {
    var count: map<string, nat> := map[];
    assert forall s :: !Duplicate(devs[..0], s);
    hide Duplicate;
    for i := 0 to |devs|
      invariant forall s :: s in count <==> exists k :: 0 <= k < i && devs[k].serial == s
      invariant forall s :: s in count ==> count[s] >= 1
      invariant forall s :: Duplicate(devs[..i], s) <==> s in count && count[s] > 1
    {
      var s := devs[i].serial;
      assert devs[..i + 1] == devs[..i] + [devs[i]];
      DuplicateSnoc(devs[..i], devs[i]);
      count := count[s := if s in count then count[s] + 1 else 1];
    }
    assert devs[..|devs|] == devs;
    dup := set s | s in count && count[s] > 1;
  }

  lemma DuplicateSnoc(devs: seq<Device>, d: Device)
    ensures forall s :: Duplicate(devs + [d], s) <==> Duplicate(devs, s) || (s == d.serial && exists k :: 0 <= k < |devs| && devs[k].serial == s)
  {
    var more := devs + [d];
    forall s ensures Duplicate(more, s) <==> Duplicate(devs, s) || (s == d.serial && exists k :: 0 <= k < |devs| && devs[k].serial == s) {
      if Duplicate(devs, s) {
        var i, j :| 0 <= i < j < |devs| && devs[i].serial == s && devs[j].serial == s;
        assert more[i].serial == s && more[j].serial == s;
      }
      if s == d.serial && exists k :: 0 <= k < |devs| && devs[k].serial == s {
        var k :| 0 <= k < |devs| && devs[k].serial == s;
        assert more[k].serial == s && more[|devs|].serial == s;
      }
    }
  }

  /** One provisioning attempt of a poll. */
  datatype Attempt = Attempt(serial: string, forced: bool)

  ghost function Attached(devs: seq<Device>, managed: string -> bool): set<string>
  {
    set d | d in devs && managed(d.serial) :: d.serial
  }

  /** Serials that a poll acts on: managed, and in adb state "device". */
  ghost function Ready(devs: seq<Device>, managed: string -> bool): set<string>
  {
    set d | d in devs && managed(d.serial) && d.state == "device" :: d.serial
  }

  /** The attempts of a poll that has acted on the serials in ready, when was
      holds the commands it started with and dup the ambiguous serials. */
  ghost predicate Polled(attempts: seq<Attempt>, was: set<string>, ready: set<string>, dup: set<string>)
  {
    && (forall s :: multiset(attempts)[Attempt(s, true)] == if s in was * ready && s !in dup && !IsPlaceholderSerial(s) then 1 else 0)
    && (forall a :: a in attempts ==> a.serial in ready && a.serial !in dup && !IsPlaceholderSerial(a.serial))
  }

  lemma NothingPolled(was: set<string>, dup: set<string>)
    ensures Polled([], was, {}, dup)
  {
  }

  lemma PolledMeans(attempts: seq<Attempt>, was: set<string>, ready: set<string>, dup: set<string>)
    requires Polled(attempts, was, ready, dup)
    ensures forall s :: multiset(attempts)[Attempt(s, true)] == if s in was * ready && s !in dup && !IsPlaceholderSerial(s) then 1 else 0
    ensures forall a :: a in attempts ==> a.serial in ready && a.serial !in dup && !IsPlaceholderSerial(a.serial)
  {
  }

  lemma PolledStep(attempts: seq<Attempt>, more: seq<Attempt>, was: set<string>, ready: set<string>, serial: string, dup: set<string>)
    requires Polled(attempts, was, ready, dup)
    requires more == [] || (more == [Attempt(serial, serial in was - ready)] && serial !in dup && !IsPlaceholderSerial(serial))
    requires serial in was - ready && serial !in dup && !IsPlaceholderSerial(serial) ==> more != []
    ensures Polled(attempts + more, was, ready + {serial}, dup)
  {
    hide IsPlaceholderSerial;
    assert multiset(attempts + more) == multiset(attempts) + multiset(more);
  }

  class Watcher {
    var records: map<string, Record>
    var pending: set<string>
    var ackQueue: set<string>
    var gone: set<string> // recorded, but not attached at the last poll
    var autoProvision: bool

    constructor ()
      ensures records == map[] && pending == {} && ackQueue == {} && gone == {} && autoProvision
    {
      records, pending, ackQueue, gone, autoProvision := map[], {}, {}, {}, true;
    }

    function RecordOf(serial: string): Record
      reads this
    {
      if serial in records then records[serial] else Record(Unseen, false, 0, 0)
    }

    /** One ready or unready device of a poll. A command is consumed by being
        run or, for an ambiguous or junk serial, by being refused; either way
        its serial waits in ackQueue. */
    method HandleDevice(d: Device, duplicate: bool, now: int, ok: bool) returns (attempts: seq<Attempt>)
      modifies this`records, this`pending, this`ackQueue
      ensures d.state != "device" ==>
                attempts == [] && pending == old(pending) && ackQueue == old(ackQueue)
                && records == old(records)[d.serial := old(RecordOf(d.serial)).(status := WaitingAuth)]
      ensures d.state == "device" ==>
                && pending == old(pending) - {d.serial}
                && ackQueue == old(ackQueue) + (old(pending) * {d.serial})
                && var refused := duplicate || IsPlaceholderSerial(d.serial);
                   var plan := PlanDevice(old(RecordOf(d.serial)), duplicate, IsPlaceholderSerial(d.serial), d.serial in old(pending), autoProvision, now);
                   && attempts == (if plan.attempt then [Attempt(d.serial, d.serial in old(pending))] else [])
                   && (refused ==> !plan.attempt) && (!refused && d.serial in old(pending) ==> plan.attempt)
                   && records == old(records)[d.serial := if plan.attempt then AfterAttempt(old(RecordOf(d.serial)), ok, now)
                                                          else old(RecordOf(d.serial)).(status := plan.status)]
    {
      attempts := [];
      var rec := RecordOf(d.serial);
      if d.state != "device" {
        records := records[d.serial := rec.(status := WaitingAuth)];
        return;
      }
      var placeholder := IsPlaceholderSerial(d.serial);
      var wasPending := d.serial in pending;
      var plan := PlanDevice(rec, duplicate, placeholder, wasPending, autoProvision, now);
      rec := rec.(status := plan.status);
      if !plan.attempt {
        if wasPending && (duplicate || placeholder) {
          pending := pending - {d.serial};
          ackQueue := ackQueue + {d.serial};
        }
        records := records[d.serial := rec];
        return;
      }
      pending := pending - {d.serial};
      if !ok {
        var backoff := NextBackoff(rec.backoff);
        rec := rec.(status := Failed, backoff := backoff, nextAttempt := now + backoff);
      } else {
        rec := rec.(provisioned := true, status := Provisioned, backoff := 0, nextAttempt := 0);
      }
      records := records[d.serial := rec];
      if wasPending { ackQueue := ackQueue + {d.serial}; }
      attempts := [Attempt(d.serial, wasPending)];
    }

    /** One poll.  Every pending command whose device is ready is consumed, no
        other one is; a forced attempt is made exactly for the consumed
        commands that may run, once each; a duplicate or junk serial is never
        attempted. */
    method Poll(devs: seq<Device>, managed: string -> bool, now: int, provisionOk: string -> bool) returns (attempts: seq<Attempt>)
      modifies this`records, this`pending, this`ackQueue, this`gone
      ensures gone == records.Keys - Attached(devs, managed)
      ensures pending == old(pending) - Ready(devs, managed)
      ensures ackQueue == old(ackQueue) + (old(pending) * Ready(devs, managed))
      ensures forall s :: multiset(attempts)[Attempt(s, true)] ==
                if s in old(pending) * Ready(devs, managed) && !Duplicate(devs, s) && !IsPlaceholderSerial(s) then 1 else 0
      ensures forall a :: a in attempts ==> a.serial in Ready(devs, managed) && !Duplicate(devs, a.serial) && !IsPlaceholderSerial(a.serial)
    {
      hide AfterAttempt, PlanDevice, IsPlaceholderSerial, Duplicate, Polled;
      var dup := DuplicateSerials(devs);
      attempts := [];
      NothingPolled(old(pending), dup);
      assert Ready(devs[..0], managed) == {};
      for i := 0 to |devs|
        invariant pending == old(pending) - Ready(devs[..i], managed)
        invariant ackQueue == old(ackQueue) + (old(pending) * Ready(devs[..i], managed))
        invariant Polled(attempts, old(pending), Ready(devs[..i], managed), dup)
      {
        var d := devs[i];
        ghost var ready := Ready(devs[..i], managed);
        ReadySnoc(devs, managed, i);
        assert Ready(devs[..i + 1], managed) == if managed(d.serial) && d.state == "device" then ready + {d.serial} else ready;
        if managed(d.serial) {
          var more := HandleDevice(d, d.serial in dup, now, provisionOk(d.serial));
          if d.state == "device" {
            PolledStep(attempts, more, old(pending), ready, d.serial, dup);
            attempts := attempts + more;
          }
        }
      }
      assert devs[..|devs|] == devs;
      PolledMeans(attempts, old(pending), Ready(devs, managed), dup);
      MarkGone(devs, managed);
    }

    /** Devices that disappeared keep their record, marked gone, until a report
        has told the controller. */
    method MarkGone(devs: seq<Device>, managed: string -> bool)
      modifies this`records, this`gone
      ensures records.Keys == old(records.Keys) && gone == records.Keys - Attached(devs, managed)
      ensures forall s :: s in records ==> records[s] == if s in gone then old(records)[s].(status := Gone) else old(records)[s]
    {
      var seen := set d | d in devs && managed(d.serial) :: d.serial;
      gone := records.Keys - seen;
      records := map s | s in records :: if s in seen then records[s] else records[s].(status := Gone);
    }

    /** Reports to the controller and takes its commands, unless the report is
        lost on the way there or its response on the way back. */
    method Report(c: Controller, fate: Fate)
      modifies this`pending, this`ackQueue, this`autoProvision, this`records, c`pending
      ensures records == if fate == Delivered then old(records) - gone else old(records)
      ensures fate == LostBefore ==>
                pending == old(pending) && ackQueue == old(ackQueue) && c.pending == old(c.pending) && autoProvision == old(autoProvision)
      ensures fate != LostBefore ==> c.pending == old(c.pending) - old(ackQueue)
      ensures fate == ResponseLost ==> pending == old(pending) && ackQueue == old(ackQueue) && autoProvision == old(autoProvision)
      ensures fate == Delivered ==> pending == old(pending) + c.pending && ackQueue == {} && autoProvision == c.autoProvision
    {
      if fate == LostBefore { return; }
      var acked := ackQueue;
      var auto, commands := c.HandleReport(acked);
      if fate == ResponseLost { return; }
      autoProvision := auto;
      for i := 0 to |commands|
        invariant pending == old(pending) + (set k | 0 <= k < i :: commands[k])
        invariant ackQueue == acked && autoProvision == auto && records == old(records) && c.pending == old(c.pending) - acked
      {
        pending := pending + {commands[i]};
      }
      ackQueue := ackQueue - acked;
      records := records - gone;
    }
  }

  lemma ReadySnoc(devs: seq<Device>, managed: string -> bool, i: nat)
    requires i < |devs|
    ensures Ready(devs[..i + 1], managed) ==
            Ready(devs[..i], managed) + (if managed(devs[i].serial) && devs[i].state == "device" then {devs[i].serial} else {})
  {
    assert devs[..i + 1] == devs[..i] + [devs[i]];
  }

  datatype Fate = LostBefore | ResponseLost | Delivered

  class Controller {
    var autoProvision: bool
    var pending: set<string>

    constructor (autoProvision: bool)
      ensures this.autoProvision == autoProvision && pending == {}
    {
      this.autoProvision, pending := autoProvision, {};
    }

    method RequestProvision(serial: string)
      modifies this`pending
      ensures pending == old(pending) + {serial}
    {
      pending := pending + {serial};
    }

    /** Clears the acknowledged commands and answers every remaining one. */
    method HandleReport(acked: set<string>) returns (auto: bool, commands: seq<string>)
      modifies this`pending
      ensures pending == old(pending) - acked
      ensures auto == autoProvision && Distinct(commands) && forall s :: s in commands <==> s in pending
    {
      pending := pending - acked;
      auto, commands := autoProvision, [];
      var left := pending;
      while left != {}
        invariant left <= pending && Distinct(commands)
        invariant forall s :: s in commands <==> s in pending && s !in left
        decreases |left|
      {
        var s :| s in left;
        assert Distinct(commands + [s]);
        commands, left := commands + [s], left - {s};
      }
      ghost var listed := commands;
      commands := Sort(ByName(), commands);
      SameElements(listed, commands);
      DistinctMultiset(listed);
      DistinctMultiset(commands);
    }
  }
}
