/**
 The per-call measurement of an outbound request (LogEntry in log_entry.go):
 created when the call starts with four fixed tags, given further tags by its
 setters while the call runs, and finally logged as one timer measurement
 under its identifier.

 The registry's clock is read by the caller and passed in as `now`; the
 registry's timer-recording entry point is modelled by a Registry whose
 `recorded` sequence grows by one measurement per recording.
 */
module LogEntries {
  import opened GoLib
  import opened Ids
  import opened Paths

  const CallMetricName: string := "ipc.client.call"

  // Tag keys written by this file.
  const OwnerKey: string := "owner"
  const EndpointKey: string := "ipc.endpoint"
  const MethodKey: string := "http.method"
  const StatusKey: string := "http.status"
  const ResultKey: string := "ipc.result"
  const IpcStatusKey: string := "ipc.status"
  const AttemptKey: string := "ipc.attempt"
  const AttemptFinalKey: string := "ipc.attempt.final"

  /** The keys NewLogEntry sets, which every later identifier keeps. */
  const InitialKeys: set<string> := {OwnerKey, EndpointKey, MethodKey, StatusKey}

  /** Every tag key a LogEntry's identifier can carry: the initial ones and those the setters add. */
  const KnownKeys: set<string> := InitialKeys + {ResultKey, IpcStatusKey, AttemptKey, AttemptFinalKey}

  /** The library's identity, the value of the `owner` tag. */
  const Owner: string := "spectator-go"
  /** Value of `http.status` before any status code is known. */
  const UnknownStatus: string := "-1"

  /**
   The attempt label: 0 is the initial attempt, 1 the second, and every other
   number, negative ones included, falls into the "third_up" bucket.
   */
  function Attempt(n: int): (bucket: string)
    ensures bucket == "initial" <==> n == 0
    ensures bucket == "second" <==> n == 1
    ensures bucket == "third_up" <==> n != 0 && n != 1
  {
    match n
    case 0 => "initial"
    case 1 => "second"
    case _ => "third_up"
  }

  /** The tags SetSuccess merges in. */
  function SuccessTags(): map<string, string> {
    map[ResultKey := "success", IpcStatusKey := "success"]
  }

  /** The tags SetError merges in. */
  function ErrorTags(err: string): map<string, string> {
    map[ResultKey := "failure", IpcStatusKey := err]
  }

  /** The tags SetAttempt merges in. */
  function AttemptTags(attemptNumber: int, final: bool): map<string, string> {
    map[AttemptKey := Attempt(attemptNumber), AttemptFinalKey := FormatBool(final)]
  }

  /** A success followed by an error (or the reverse) keeps only the later outcome. */
  lemma OutcomeOverwrites(id: Id, err: string)
    ensures id.WithTags(ErrorTags(err)).WithTags(SuccessTags()) == id.WithTags(SuccessTags())
    ensures id.WithTags(SuccessTags()).WithTags(ErrorTags(err)) == id.WithTags(ErrorTags(err))
  {
    WithTagsOverwrite(id, ErrorTags(err), SuccessTags());
    WithTagsOverwrite(id, SuccessTags(), ErrorTags(err));
  }

  /** A second SetError keeps only the later error. */
  lemma ErrorOverwrites(id: Id, first: string, second: string)
    ensures id.WithTags(ErrorTags(first)).WithTags(ErrorTags(second)) == id.WithTags(ErrorTags(second))
  {
  }

  /** A second SetAttempt keeps only the later attempt. */
  lemma AttemptOverwrites(id: Id, n1: int, final1: bool, n2: int, final2: bool)
    ensures id.WithTags(AttemptTags(n1, final1)).WithTags(AttemptTags(n2, final2))
         == id.WithTags(AttemptTags(n2, final2))
  {
    WithTagsOverwrite(id, AttemptTags(n1, final1), AttemptTags(n2, final2));
  }

  /** A second SetStatusCode keeps only the later status code. */
  lemma StatusOverwrites(id: Id, first: int, second: int)
    ensures id.WithTag(StatusKey, Itoa(first)).WithTag(StatusKey, Itoa(second))
         == id.WithTag(StatusKey, Itoa(second))
  {
  }

  /** SetStatusCode and SetAttempt write disjoint keys, so their order does not matter. */
  lemma StatusCommutesWithAttempt(id: Id, code: int, attemptNumber: int, final: bool)
    ensures id.WithTag(StatusKey, Itoa(code)).WithTags(AttemptTags(attemptNumber, final))
         == id.WithTags(AttemptTags(attemptNumber, final)).WithTag(StatusKey, Itoa(code))
  {
    var status := map[StatusKey := Itoa(code)];
    WithTagIsWithTags(id, StatusKey, Itoa(code));
    WithTagIsWithTags(id.WithTags(AttemptTags(attemptNumber, final)), StatusKey, Itoa(code));
    WithTagsCommute(id, status, AttemptTags(attemptNumber, final));
  }

  /** SetStatusCode and either outcome setter write disjoint keys, so their order does not matter. */
  lemma StatusCommutesWithOutcome(id: Id, code: int, err: string)
    ensures id.WithTag(StatusKey, Itoa(code)).WithTags(SuccessTags())
         == id.WithTags(SuccessTags()).WithTag(StatusKey, Itoa(code))
    ensures id.WithTag(StatusKey, Itoa(code)).WithTags(ErrorTags(err))
         == id.WithTags(ErrorTags(err)).WithTag(StatusKey, Itoa(code))
  {
    var status := map[StatusKey := Itoa(code)];
    WithTagIsWithTags(id, StatusKey, Itoa(code));
    WithTagIsWithTags(id.WithTags(SuccessTags()), StatusKey, Itoa(code));
    WithTagIsWithTags(id.WithTags(ErrorTags(err)), StatusKey, Itoa(code));
    WithTagsCommute(id, status, SuccessTags());
    WithTagsCommute(id, status, ErrorTags(err));
  }

  /** SetAttempt and either outcome setter write disjoint keys, so their order does not matter. */
  lemma AttemptCommutesWithOutcome(id: Id, attemptNumber: int, final: bool, err: string)
    ensures id.WithTags(AttemptTags(attemptNumber, final)).WithTags(SuccessTags())
         == id.WithTags(SuccessTags()).WithTags(AttemptTags(attemptNumber, final))
    ensures id.WithTags(AttemptTags(attemptNumber, final)).WithTags(ErrorTags(err))
         == id.WithTags(ErrorTags(err)).WithTags(AttemptTags(attemptNumber, final))
  {
    WithTagsCommute(id, AttemptTags(attemptNumber, final), SuccessTags());
    WithTagsCommute(id, AttemptTags(attemptNumber, final), ErrorTags(err));
  }

  /** One timer measurement: an identifier and a duration in nanoseconds. */
  datatype Measurement = Measurement(id: Id, duration: int64)

  /** The registry, as far as this file uses it: the sink of timer measurements. */
  class Registry {
    var recorded: seq<Measurement>

    constructor ()
      ensures recorded == []
    {
      recorded := [];
    }

    /** The registry's timer-recording entry point. */
    method IpcTimerRecord(id: Id, duration: int64)
      modifies this`recorded
      ensures recorded == old(recorded) + [Measurement(id, duration)]
    {
      recorded := recorded + [Measurement(id, duration)];
    }
  }

  class LogEntry {
    const registry: Registry
    /** The clock reading, in nanoseconds, when the call started. */
    const start: int64
    var id: Id

    /**
     The entry's invariant: the identifier keeps the outbound-call name, keeps
     the four tags it was created with, and carries no key beyond the eight
     this file writes.
     */
    ghost predicate Valid()
      reads this
    {
      && id.name == CallMetricName
      && InitialKeys <= id.tags.Keys <= KnownKeys
    }

    /**
     NewLogEntry: the identifier is named after outbound calls and carries
     exactly the owner, the endpoint of `url`, the HTTP method and the
     "unknown" status; `now` is the registry's clock reading.
     */
    constructor NewLogEntry(registry: Registry, now: int64, httpMethod: string, url: string)
      ensures this.registry == registry && start == now
      ensures id.tags.Keys == InitialKeys
      ensures Valid()
      ensures id.tags[OwnerKey] == Owner
      ensures id.tags[EndpointKey] == PathFromUrl(url)
      ensures id.tags[MethodKey] == httpMethod
      ensures id.tags[StatusKey] == UnknownStatus
    {
      this.registry := registry;
      start := now;
      var tags := map[
        OwnerKey := Owner,
        EndpointKey := PathFromUrl(url),
        MethodKey := httpMethod,
        StatusKey := UnknownStatus];
      assert tags.Keys == InitialKeys;
      id := Id(CallMetricName, tags);
    }

    /** Sets `http.status` to the decimal form of `code`; nothing else changes. */
    method SetStatusCode(code: int)
      requires Valid()
      modifies this`id
      ensures id == old(id).WithTag(StatusKey, Itoa(code))
      ensures id.tags[StatusKey] == Itoa(code)
      ensures AgreesOutside(old(id), id, {StatusKey})
      ensures Valid()
    {
      id := id.WithTag(StatusKey, Itoa(code));
    }

    /** Sets both `ipc.result` and `ipc.status` to "success"; nothing else changes. */
    method SetSuccess()
      requires Valid()
      modifies this`id
      ensures id == old(id).WithTags(SuccessTags())
      ensures id.tags[ResultKey] == "success" && id.tags[IpcStatusKey] == "success"
      ensures AgreesOutside(old(id), id, {ResultKey, IpcStatusKey})
      ensures Valid()
    {
      id := id.WithTags(SuccessTags());
    }

    /** Sets `ipc.result` to "failure" and `ipc.status` to `err`; nothing else changes. */
    method SetError(err: string)
      requires Valid()
      modifies this`id
      ensures id == old(id).WithTags(ErrorTags(err))
      ensures id.tags[ResultKey] == "failure" && id.tags[IpcStatusKey] == err
      ensures AgreesOutside(old(id), id, {ResultKey, IpcStatusKey})
      ensures Valid()
    {
      id := id.WithTags(ErrorTags(err));
    }

    /** Sets `ipc.attempt` to the attempt label and `ipc.attempt.final`; nothing else changes. */
    method SetAttempt(attemptNumber: int, final: bool)
      requires Valid()
      modifies this`id
      ensures id == old(id).WithTags(AttemptTags(attemptNumber, final))
      ensures id.tags[AttemptKey] == Attempt(attemptNumber)
      ensures id.tags[AttemptFinalKey] == (if final then "true" else "false")
      ensures AgreesOutside(old(id), id, {AttemptKey, AttemptFinalKey})
      ensures Valid()
    {
      id := id.WithTags(AttemptTags(attemptNumber, final));
    }

    /**
     Records one measurement under the current identifier whose duration is
     the int64 difference between `now` (the clock reading) and the start;
     the entry itself is left as it was.
     */
    method Log(now: int64)
      requires Valid()
      modifies registry`recorded
      ensures registry.recorded == old(registry.recorded) + [Measurement(id, Sub(now, start))]
      ensures Valid()
    {
      var duration := Sub(now, start);
      var r := registry;
      r.IpcTimerRecord(id, duration);
    }
  }

  /**
   One call's lifecycle, seen from the caller: the tags that the contracts
   above let a caller rely on, and the single measurement that is recorded.
   */
  method CallLifecycle(registry: Registry)
    modifies registry`recorded
    ensures |registry.recorded| == |old(registry.recorded)| + 1
  {
    var entry := new LogEntry.NewLogEntry(registry, 1000, "GET", "http://x/a/b");
    PathOfShortUrl();
    assert entry.id.tags[EndpointKey] == "/a/b";

    ItoaOf200();
    entry.SetStatusCode(200);
    assert entry.id.tags[StatusKey] == "200";

    entry.SetAttempt(0, true);
    assert entry.id.tags[AttemptKey] == "initial" && entry.id.tags[AttemptFinalKey] == "true";
    entry.SetAttempt(-1, false);
    assert entry.id.tags[AttemptKey] == "third_up" && entry.id.tags[AttemptFinalKey] == "false";

    entry.SetError("timeout");
    entry.SetSuccess();
    assert entry.id.tags[IpcStatusKey] == "success";

    entry.Log(1250);
    assert registry.recorded[|registry.recorded| - 1].duration == 250;
  }
}
