/**
 * The job-status state machine of a remote transcription job (src/process.js).
 *
 * A `Process` holds the id the service gave the job, one of five statuses and
 * the content of the last status report.  Its `update` accepts a raw status
 * value, rejects one outside the enumeration, ignores a repeated status and
 * otherwise stores the content, switches the status and notifies observers.
 * Notifications are modelled as an append-only log of events.
 */
module Processes {
  import opened Wrappers

  datatype Status = CREATED | WAITING | RUNNING | FINISHED | FAILED

  /** The spelling of each status on the wire. */
  function Name(s: Status): string {
    match s
    case CREATED => "CREATED"
    case WAITING => "WAITING"
    case RUNNING => "RUNNING"
    case FINISHED => "FINISHED"
    case FAILED => "FAILED"
  }

  /** The status setter's membership test: a raw value is accepted exactly when it names a status. */
  function ParseStatus(raw: string): (r: Option<Status>)
    ensures r.Some? ==> Name(r.value) == raw
    ensures r.None? ==> forall s: Status :: Name(s) != raw
  {
    if raw == "CREATED" then Some(CREATED)
    else if raw == "WAITING" then Some(WAITING)
    else if raw == "RUNNING" then Some(RUNNING)
    else if raw == "FINISHED" then Some(FINISHED)
    else if raw == "FAILED" then Some(FAILED)
    else None
  }

  lemma ParseName(s: Status)
    ensures ParseStatus(Name(s)) == Some(s)
  {
  }

  /** The statuses in which a job is done. */
  const TerminalStatuses: set<Status> := {FINISHED, FAILED}

  /** The message of the assertion the status setter fails with. */
  function UnknownStatus(raw: string): string {
    "unknown status: " + raw
  }

  /** The message of the error a process emits on reaching FAILED. */
  function FailureMessage(id: string): string {
    "process#" + id + " failed"
  }

  /** The events a process emits: `change(next, prev)`, `done` and `error`. */
  datatype Event = Change(next: Status, prev: Status) | Done | Error(message: string)

  /** What `update` emits after the `change` event, by the status reached. */
  function Followups(id: string, s: Status): seq<Event> {
    match s
    case FINISHED => [Done]
    case FAILED => [Error(FailureMessage(id))]
    case _ => []
  }

  /**
   * The observable state of a process: status, last content (absent until the
   * first change), event log and the number of `error` listeners registered.
   */
  datatype ProcessState<C> = ProcessState(status: Status, content: Option<C>, events: seq<Event>, errorListeners: nat)

  /**
   * The outcome of one `update` call: rejected before anything changed, or
   * applied, leaving a new state and possibly an error thrown after the state
   * changed (an `error` event emitted with no listener throws the emitted error).
   */
  datatype Step<C> = Rejected(message: string) | Applied(state: ProcessState<C>, thrown: Option<string>)

  /** One call of `update(status, content)` on a process with id `id`. */
  function Apply<C>(id: string, s: ProcessState<C>, raw: string, content: C): Step<C> {
    match ParseStatus(raw)
    case None => Rejected(UnknownStatus(raw))
    case Some(next) =>
      if next == s.status then Applied(s, None)
      else
        var t := ProcessState(next, Some(content), s.events + [Change(next, s.status)] + Followups(id, next), s.errorListeners);
        Applied(t, if next == FAILED && s.errorListeners == 0 then Some(FailureMessage(id)) else None)
  }

  /** An update naming no status fails with the setter's message, before anything is stored or emitted. */
  lemma ApplyRejectsUnknown<C>(id: string, s: ProcessState<C>, raw: string, content: C)
    ensures Apply(id, s, raw, content).Rejected? <==> forall st: Status :: Name(st) != raw
    ensures Apply(id, s, raw, content).Rejected? ==> Apply(id, s, raw, content).message == "unknown status: " + raw
  {
  }

  /** An update repeating the current status changes nothing, emits nothing and throws nothing. */
  lemma ApplyRepeated<C>(id: string, s: ProcessState<C>, content: C)
    ensures Apply(id, s, Name(s.status), content) == Applied(s, None)
  {
  }

  /**
   * An update to a different status stores it and the content, emits exactly one
   * `change(next, prev)`, then `done` on FINISHED, the job's error on FAILED and
   * nothing else otherwise; it throws that error exactly when it reaches FAILED
   * while no `error` listener is registered.
   */
  lemma ApplyTransition<C>(id: string, s: ProcessState<C>, next: Status, content: C)
    requires next != s.status
    ensures Apply(id, s, Name(next), content).Applied?
    ensures var a := Apply(id, s, Name(next), content); var t := a.state;
      && t.status == next
      && t.content == Some(content)
      && t.errorListeners == s.errorListeners
      && |t.events| > |s.events|
      && t.events[..|s.events|] == s.events
      && t.events[|s.events|] == Change(next, s.status)
      && ChangeCount(t.events) == ChangeCount(s.events) + 1
      && (next == FINISHED ==> t.events[|s.events| + 1..] == [Done])
      && (next == FAILED ==> t.events[|s.events| + 1..] == [Error("process#" + id + " failed")])
      && (next !in TerminalStatuses ==> |t.events| == |s.events| + 1)
      && (a.thrown.Some? <==> next == FAILED && s.errorListeners == 0)
      && (a.thrown.Some? ==> a.thrown.value == "process#" + id + " failed")
  {
    ParseName(next);
    var tail := [Change(next, s.status)] + Followups(id, next);
    ChangeCountConcat(s.events, tail);
    ChangeCountConcat([Change(next, s.status)], Followups(id, next));
    assert s.events + [Change(next, s.status)] + Followups(id, next) == s.events + tail;
  }

  /** The number of `change` notifications in a log. */
  function ChangeCount(log: seq<Event>): nat {
    if log == [] then 0 else (if log[0].Change? then 1 else 0) + ChangeCount(log[1..])
  }

  lemma {:induction false} ChangeCountConcat(a: seq<Event>, b: seq<Event>)
    ensures ChangeCount(a + b) == ChangeCount(a) + ChangeCount(b)
  {
    if a == [] {
      assert a + b == b;
    } else {
      assert (a + b)[1..] == a[1..] + b;
      ChangeCountConcat(a[1..], b);
    }
  }

  /** Delivering the same status report twice notifies observers of at most one change. */
  lemma {:induction false} ApplyTwiceNotifiesOnce<C>(id: string, s: ProcessState<C>, raw: string, content: C)
    requires Apply(id, s, raw, content).Applied?
    ensures var t := Apply(id, s, raw, content).state;
      && Apply(id, t, raw, content) == Applied(t, None)
      && ChangeCount(t.events) == ChangeCount(s.events) + (if t.status == s.status then 0 else 1)
  {
    var next := ParseStatus(raw).value;
    ParseName(next);
    if next != s.status {
      ApplyTransition(id, s, next, content);
    }
  }

  /**
   * `log` is a history observers could have seen while the status moved from `from`
   * to `to`: every change starts where the previous one ended and really changes
   * the status, `done` is emitted only in FINISHED and `error` only in FAILED,
   * carrying the job's failure message.
   */
  ghost predicate Coherent(id: string, from: Status, log: seq<Event>, to: Status)
    decreases |log|
  {
    if log == [] then from == to
    else match log[0]
      case Change(next, prev) => prev == from && next != prev && Coherent(id, next, log[1..], to)
      case Done => from == FINISHED && Coherent(id, from, log[1..], to)
      case Error(m) => from == FAILED && m == FailureMessage(id) && Coherent(id, from, log[1..], to)
  }

  lemma {:induction false} CoherentConcat(id: string, a: Status, l1: seq<Event>, b: Status, l2: seq<Event>, c: Status)
    requires Coherent(id, a, l1, b) && Coherent(id, b, l2, c)
    ensures Coherent(id, a, l1 + l2, c)
    decreases |l1|
  {
    if l1 == [] {
      assert l1 + l2 == l2;
    } else {
      assert (l1 + l2)[1..] == l1[1..] + l2;
      match l1[0]
      case Change(next, _) => CoherentConcat(id, next, l1[1..], b, l2, c);
      case Done => CoherentConcat(id, a, l1[1..], b, l2, c);
      case Error(_) => CoherentConcat(id, a, l1[1..], b, l2, c);
    }
  }

  /** What one applied update appends to the log is a coherent history of its own transition. */
  lemma ApplyIsCoherent<C>(id: string, s: ProcessState<C>, raw: string, content: C)
    requires Apply(id, s, raw, content).Applied?
    ensures var t := Apply(id, s, raw, content).state;
      && s.events <= t.events
      && t.errorListeners == s.errorListeners
      && Coherent(id, s.status, t.events[|s.events|..], t.status)
  {
  }

  /**
   * A sequence of status reports delivered one after the other: the state
   * reached and the error that ended the sequence early, if an update was
   * rejected or threw.
   */
  function Run<C>(id: string, s: ProcessState<C>, reports: seq<(string, C)>): (ProcessState<C>, Option<string>)
    decreases |reports|
  {
    if reports == [] then (s, None)
    else match Apply(id, s, reports[0].0, reports[0].1)
      case Rejected(e) => (s, Some(e))
      case Applied(t, Some(e)) => (t, Some(e))
      case Applied(t, None) => Run(id, t, reports[1..])
  }

  /**
   * However many reports a process receives, and whether or not one of them
   * ends the sequence with an error, the events it emits form a coherent history
   * from its first status to its current one: observers that track `change`
   * notifications always know the current status.
   */
  lemma {:induction false} RunIsCoherent<C>(id: string, s: ProcessState<C>, reports: seq<(string, C)>)
    ensures var t := Run(id, s, reports).0;
      && s.events <= t.events
      && Coherent(id, s.status, t.events[|s.events|..], t.status)
    decreases |reports|
  {
    var t := Run(id, s, reports).0;
    if reports == [] || Apply(id, s, reports[0].0, reports[0].1).Rejected? {
      assert t == s;
      assert t.events[|s.events|..] == [];
    } else {
      var a := Apply(id, s, reports[0].0, reports[0].1);
      var s' := a.state;
      ApplyIsCoherent(id, s, reports[0].0, reports[0].1);
      if a.thrown.Some? {
        assert t == s';
      } else {
        RunIsCoherent(id, s', reports[1..]);
        assert t.events[|s.events|..] == s'.events[|s.events|..] + t.events[|s'.events|..];
        CoherentConcat(id, s.status, s'.events[|s.events|..], s'.status, t.events[|s'.events|..], t.status);
      }
    }
  }

  /** Nothing stops a finished job from being moved back to RUNNING: the statuses are not monotonic. */
  lemma FinishedCanBeLeft<C>(id: string, content: C)
    ensures Apply(id, ProcessState(FINISHED, None, [], 0), "RUNNING", content)
         == Applied(ProcessState(RUNNING, Some(content), [Change(RUNNING, FINISHED)], 0), None)
  {
  }

  /** What `ready()` returns: settled at once with the process itself when it is done, otherwise pending. */
  datatype Readiness<C> = Resolved(process: Process<C>) | Pending

  class Process<C> {
    const id: string
    var status: Status
    var content: Option<C>
    var events: seq<Event>
    var errorListeners: nat

    function Current(): ProcessState<C>
      reads this
    {
      ProcessState(status, content, events, errorListeners)
    }

    /** `new Process(id, status)` for a status already known to be valid; no listener is registered. */
    constructor (id: string, status: Status)
      ensures this.id == id && this.status == status
      ensures content == None && events == [] && errorListeners == 0
    {
      this.id := id;
      this.status := status;
      content := None;
      events := [];
      errorListeners := 0;
    }

    /** `new Process(id, status)` with the status optional (CREATED when absent) and checked by the setter. */
    static method Create(id: string, status: Option<string>) returns (r: Result<Process<C>, string>)
      ensures status.None? ==> r.Success? && r.value.status == CREATED
      ensures status.Some? ==> (r.Success? <==> ParseStatus(status.value).Some?)
      ensures status.Some? && r.Success? ==> Name(r.value.status) == status.value
      ensures status.Some? && r.Failure? ==> r.error == "unknown status: " + status.value
      ensures r.Success? ==> fresh(r.value) && r.value.id == id && r.value.content == None
      ensures r.Success? ==> r.value.events == [] && r.value.errorListeners == 0
    {
      match status
      case None =>
        var p := new Process(id, CREATED);
        r := Success(p);
      case Some(raw) =>
        match ParseStatus(raw)
        case None => r := Failure(UnknownStatus(raw));
        case Some(s) =>
          var p := new Process(id, s);
          r := Success(p);
    }

    /** The `status` setter: stores a status named by `raw`, fails on anything else. */
    method SetStatus(raw: string) returns (r: Result<(), string>)
      modifies this`status
      ensures ParseStatus(raw).Some? ==> r == Success(()) && Name(status) == raw
      ensures ParseStatus(raw).None? ==> r == Failure("unknown status: " + raw) && status == old(status)
    {
      match ParseStatus(raw)
      case None => r := Failure(UnknownStatus(raw));
      case Some(s) =>
        status := s;
        r := Success(());
    }

    /** `on('error', listener)`, inherited from the event emitter: one more `error` listener. */
    method OnError()
      modifies this`errorListeners
      ensures errorListeners == old(errorListeners) + 1
    {
      errorListeners := errorListeners + 1;
    }

    /** The `done` getter. */
    function Done(): (r: bool)
      reads this
      ensures r <==> status in TerminalStatuses
    {
      match status
      case FINISHED => true
      case FAILED => true
      case _ => false
    }

    /**
     * `update({status, content})`: the process's state becomes that of `Apply`;
     * it fails with the setter's message (nothing changed) or with the error
     * thrown after the change (an unobserved `error` event).
     */
    method Update(raw: string, content: C) returns (r: Result<(), string>)
      modifies this`status, this`content, this`events
      ensures Apply(id, old(Current()), raw, content).Rejected? ==>
        r == Failure(UnknownStatus(raw)) && Current() == old(Current())
      ensures Apply(id, old(Current()), raw, content).Applied? ==>
        var a := Apply(id, old(Current()), raw, content);
        && Current() == a.state
        && r == if a.thrown.Some? then Failure(a.thrown.value) else Success(())
    {
      var prev := status;
      r := SetStatus(raw);
      if r.Failure? || status == prev {
        return;
      }
      this.content := Some(content);
      events := events + [Change(status, prev)];
      match status
      case FINISHED => events := events + [Event.Done];
      case FAILED =>
        events := events + [Error(FailureMessage(id))];
        if errorListeners == 0 {
          r := Failure(FailureMessage(id));
        }
      case _ =>
    }

    /**
     * `ready()`: settles at once with the process itself when it is done;
     * otherwise registers its `error` (and `done`) listener and stays pending.
     */
    method Ready() returns (r: Readiness<C>)
      modifies this`errorListeners
      ensures old(status) in TerminalStatuses ==> r == Resolved(this) && errorListeners == old(errorListeners)
      ensures old(status) !in TerminalStatuses ==> r == Pending && errorListeners == old(errorListeners) + 1
    {
      if Done() {
        r := Resolved(this);
      } else {
        OnError();
        r := Pending;
      }
    }
  }
}
